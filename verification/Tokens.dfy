/** Store tokens: what internal/service/tokens.go and internal/auth/auth.go compute over the maps of
    `repo.Memory`. Raw tokens, session ids and account ids are drawn by the caller. */
module Tokens {
  import opened Core
  import opened Access
  import opened MemoryModel

  const SECOND: Time := 1_000_000_000
  const DEFAULT_LIFETIME: Time := 30 * 3600 * SECOND

  datatype Claims = Claims(subject: string, username: string, displayName: string, email: string)

  const NOBODY := Identity("", None, false)

  datatype Request = Request(description: Option<string>, ttl: Option<int>, permissions: seq<string>,
                             packages: seq<Selector>, channels: seq<string>)

  /** What `NewOpaqueToken` and `uuid` give: the raw token and the session id. */
  datatype Draw = Draw(raw: string, session: Id)

  function Lifetime(ttl: Option<int>): Time {
    if ttl.Some? && ttl.value > 0 then ttl.value * SECOND else DEFAULT_LIFETIME
  }

  function NewToken(w: World, who: Identity, request: Request, draw: Draw, now: Time): StoreToken {
    StoreToken(draw.session, w.hashToken(draw.raw), who.accountId, request.description, request.packages,
               request.channels, if request.permissions == [] then DEFAULT_PERMISSIONS else request.permissions,
               now, now + Lifetime(request.ttl), None, None)
  }

  function IssueStoreToken(w: World, m: Mem, who: Identity, request: Request, draw: Draw, now: Time)
    : (Mem, Result<(string, StoreToken)>)
  {
    if RequireAuth(who).Fail? then (m, Err(RequireAuth(who).error))
    else
      var token := NewToken(w, who, request, draw, now);
      (CreateStoreToken(m, token), Ok((draw.raw, token)))
  }

  /** The current token's restrictions, or none. */
  function ExchangeRequest(who: Identity, description: Option<string>): Request {
    match who.token
    case None => Request(description, None, [], [], [])
    case Some(token) => Request(description, None, token.permissions, token.packages, token.channels)
  }

  function ExchangeStoreToken(w: World, m: Mem, who: Identity, description: Option<string>, draw: Draw, now: Time)
    : (Mem, Result<string>)
  {
    var (m', issued) := IssueStoreToken(w, m, who, ExchangeRequest(who, description), draw, now);
    (m', if issued.Err? then Err(issued.error) else Ok(issued.value.0))
  }

  // ---------- authentication ----------

  datatype Authentication = Rejected(reason: string) | Accepted(claims: Claims, token: StoreToken)

  /** Neither revoked nor expired. */
  predicate Usable(token: StoreToken, now: Time) {
    token.revokedAt.None? && !(token.validUntil < now)
  }

  function ClaimsOf(account: Account): Claims {
    Claims(account.subject, account.username, account.displayName, account.email)
  }

  function AuthenticateToken(w: World, m: Mem, raw: string, now: Time): Authentication {
    match FindStoreTokenByHash(m, w.hashToken(raw))
    case None => Rejected("token not found")
    case Some((token, account)) =>
      if !Usable(token, now) then Rejected("token revoked or expired") else Accepted(ClaimsOf(account), token)
  }

  function Replace(s: string, marks: set<char>, mark: char): string {
    seq(|s|, i requires 0 <= i < |s| => if s[i] in marks then mark else s[i])
  }

  function NewAccount(claims: Claims, id: Id, now: Time): Account {
    Account(id, claims.subject,
            FirstNonEmpty(claims.username, Replace(claims.subject, {'|'}, '_')),
            FirstNonEmpty(claims.displayName, FirstNonEmpty(claims.username, claims.subject)),
            FirstNonEmpty(claims.email, Replace(claims.subject, {':', '|', '/'}, '-') + "@example.invalid"),
            "verified", now)
  }

  function ResolveIdentity(m: Mem, claims: Claims, token: Option<StoreToken>, id: Id, now: Time): (Mem, Identity) {
    if claims.subject == "" then (m, NOBODY)
    else
      var (m', account) := EnsureAccount(m, NewAccount(claims, id, now), now);
      (m', Identity(account.id, token, true))
  }

  // ---------- listing and revoking ----------

  /** Whether `ListStoreTokens` keeps a token. */
  predicate Listed(token: StoreToken, account: Id, includeInactive: bool, now: Time) {
    token.accountId == account && (includeInactive || Usable(token, now))
  }

  /** The WHERE clause of the SQL list of active tokens. */
  predicate ActiveInSql(token: StoreToken, now: Time) {
    token.revokedAt.None? && token.validUntil > now
  }

  predicate SortedByValidSince(tokens: seq<StoreToken>) {
    forall i, j | 0 <= i < j < |tokens| :: tokens[i].validSince <= tokens[j].validSince
  }

  /** Every stored token is filed under its own hash. */
  predicate TokensKeyed(m: Mem) {
    forall h | h in m.tokens :: m.tokens[h].hash == h
  }

  predicate Stored(m: Mem, token: StoreToken) {
    token.hash in m.tokens && m.tokens[token.hash] == token
  }

  /** A sorted permutation of the stored tokens that are listed: each of them once, nothing else. */
  ghost predicate IsListing(m: Mem, account: Id, includeInactive: bool, now: Time, tokens: seq<StoreToken>) {
    && SortedByValidSince(tokens)
    && forall token :: multiset(tokens)[token]
                       == if Stored(m, token) && Listed(token, account, includeInactive, now) then 1 else 0
  }

  /** Revoking the token the range loop meets first; `first` is its hash. */
  function RevokeStoreToken(m: Mem, who: Identity, session: Id, first: string, now: Time): (Mem, Outcome) {
    if RequireAuth(who).Fail? then (m, RequireAuth(who))
    else if Selects(m, first, who.accountId, session) then (Revoke(m, first, who.accountId, now), Pass)
    else (m, Fail(NotFound))
  }

  /** `first` is a choice the loop can make: a selected token, if there is one. */
  ghost predicate CanBeFirst(m: Mem, who: Identity, session: Id, first: string) {
    Selects(m, first, who.accountId, session) || forall h :: !Selects(m, h, who.accountId, session)
  }
}
