/** What the token calls record and answer, field by field. */
module TokenResults {
  import opened Core
  import opened Access
  import opened MemoryModel
  import opened Tokens

  // ---------- issuing ----------

  /** The token of a request: its restrictions, the ten permissions when it lists none, and as many seconds as it
      asks for, or 30 hours. */
  predicate TokenOf(w: World, who: Identity, request: Request, draw: Draw, now: Time, token: StoreToken) {
    var seconds := if request.ttl.Some? && request.ttl.value > 0 then request.ttl.value else 30 * 3600;
    && token.sessionId == draw.session && token.hash == w.hashToken(draw.raw) && token.accountId == who.accountId
    && token.description == request.description
    && token.packages == request.packages && token.channels == request.channels
    && (request.permissions != [] ==> token.permissions == request.permissions)
    && (request.permissions == [] ==>
          token.permissions
          == ["account-register-package", "account-view-packages", "package-manage", "package-manage-metadata",
              "package-manage-releases", "package-manage-revisions", "package-view", "package-view-metadata",
              "package-view-releases", "package-view-revisions"])
    && token.validSince == now && token.validUntil == now + seconds * 1_000_000_000
    && token.revokedAt == None && token.revokedBy == None
  }

  /** An authenticated caller gets the raw token, and its record is filed under its hash. */
  lemma IssueRecorded(w: World, m: Mem, who: Identity, request: Request, draw: Draw, now: Time)
    ensures var (m', res) := IssueStoreToken(w, m, who, request, draw, now);
      if !who.authenticated then m' == m && res == Err(Api(401, "unauthorized", "authentication required"))
      else
        && res.Ok? && res.value.0 == draw.raw && TokenOf(w, who, request, draw, now, res.value.1)
        && m' == m.(tokens := m.tokens[w.hashToken(draw.raw) := res.value.1])
  {}

  /** An exchange issues a token with the restrictions of the current one, for 30 hours. */
  lemma ExchangeRecorded(w: World, m: Mem, who: Identity, description: Option<string>, draw: Draw, now: Time)
    ensures var (m', res) := ExchangeStoreToken(w, m, who, description, draw, now);
      if !who.authenticated then m' == m && res == Err(Api(401, "unauthorized", "authentication required"))
      else
        var request :=
          match who.token
          case None => Request(description := description, ttl := None, permissions := [], packages := [],
                               channels := [])
          case Some(token) => Request(description := description, ttl := None, permissions := token.permissions,
                                      packages := token.packages, channels := token.channels);
        && res == Ok(draw.raw)
        && w.hashToken(draw.raw) in m'.tokens
        && TokenOf(w, who, request, draw, now, m'.tokens[w.hashToken(draw.raw)])
        && m' == m.(tokens := m.tokens[w.hashToken(draw.raw) := m'.tokens[w.hashToken(draw.raw)]])
  {
    IssueRecorded(w, m, who, ExchangeRequest(who, description), draw, now);
    hide IssueStoreToken, TokenOf;
  }

  // ---------- authentication ----------

  /** A raw token authenticates as the account it was issued to as long as it is neither revoked nor expired. */
  lemma AuthenticationDecided(w: World, m: Mem, raw: string, now: Time)
    ensures var h := w.hashToken(raw);
      AuthenticateToken(w, m, raw, now)
      == if h !in m.tokens || m.tokens[h].accountId !in m.accountsById then Rejected("token not found")
         else if m.tokens[h].revokedAt.Some? || m.tokens[h].validUntil < now then
           Rejected("token revoked or expired")
         else
           var account := m.accountsById[m.tokens[h].accountId];
           Accepted(Claims(subject := account.subject, username := account.username,
                           displayName := account.displayName, email := account.email), m.tokens[h])
  {}

  /** A listing has the account's tokens, each once, by the start of their validity; those that no longer work
      only when asked for. */
  lemma ListingDecided(m: Mem, account: Id, includeInactive: bool, now: Time, tokens: seq<StoreToken>, h: string)
    requires TokensKeyed(m) && h in m.tokens && IsListing(m, account, includeInactive, now, tokens)
    ensures multiset(tokens)[m.tokens[h]]
            == if m.tokens[h].accountId == account
                  && (includeInactive || (m.tokens[h].revokedAt == None && now <= m.tokens[h].validUntil))
               then 1 else 0
    ensures forall token | token in tokens :: token.hash in m.tokens && m.tokens[token.hash] == token
    ensures forall i, j | 0 <= i < j < |tokens| :: tokens[i].validSince <= tokens[j].validSince
  {
    assert Stored(m, m.tokens[h]);
    forall token | token in tokens ensures token.hash in m.tokens && m.tokens[token.hash] == token {
      assert multiset(tokens)[token] > 0;
    }
  }

  /** A revocation marks the one token with who revoked it and when, or finds none. */
  lemma RevocationRecorded(m: Mem, who: Identity, session: Id, first: string, now: Time)
    requires CanBeFirst(m, who, session, first)
    ensures var (m', out) := RevokeStoreToken(m, who, session, first, now);
      if !who.authenticated then m' == m && out == Fail(Api(401, "unauthorized", "authentication required"))
      else if forall h | h in m.tokens ::
                m.tokens[h].accountId != who.accountId || m.tokens[h].sessionId != session then
        m' == m && out == Fail(NotFound)
      else
        && out == Pass && first in m.tokens
        && m.tokens[first].accountId == who.accountId && m.tokens[first].sessionId == session
        && m' == m.(tokens := m.tokens[first := m.tokens[first].(revokedAt := Some(now),
                                                                 revokedBy := Some(who.accountId))])
  {
    assert Selects(m, first, who.accountId, session) || forall h :: !Selects(m, h, who.accountId, session);
    forall h | h in m.tokens
      ensures Selects(m, h, who.accountId, session)
              <==> m.tokens[h].accountId == who.accountId && m.tokens[h].sessionId == session
    {}
  }

  // ---------- logins ----------

  /** `out` is `s` with each of the marks replaced by `mark`. */
  predicate WithMarks(s: string, marks: set<char>, mark: char, out: string) {
    |out| == |s| && forall i | 0 <= i < |s| :: out[i] == if s[i] in marks then mark else s[i]
  }

  /** The names of an account: those claimed, and for a missing one a substitute made from the others. */
  predicate NamesOf(claims: Claims, account: Account) {
    && account.subject == claims.subject
    && (if claims.username != "" then account.username == claims.username
        else WithMarks(claims.subject, {'|'}, '_', account.username))
    && account.displayName == (if claims.displayName != "" then claims.displayName
                               else if claims.username != "" then claims.username else claims.subject)
    && (if claims.email != "" then account.email == claims.email
        else
          var at := |claims.subject|;
          at <= |account.email| && WithMarks(claims.subject, {':', '|', '/'}, '-', account.email[..at])
          && account.email[at..] == "@example.invalid")
  }

  /** A login without a subject is nobody. Otherwise the account of the subject gets the claimed names under both
      indexes; it keeps its id, validation and creation time if it is known, and is new if it is not. */
  lemma LoginRecorded(m: Mem, claims: Claims, token: Option<StoreToken>, id: Id, now: Time)
    requires forall s | s in m.accounts :: m.accounts[s].subject == s
    ensures var (m', who) := ResolveIdentity(m, claims, token, id, now);
      if claims.subject == "" then m' == m && who == Identity("", None, false)
      else
        && claims.subject in m'.accounts
        && var account := m'.accounts[claims.subject];
           && who == Identity(accountId := account.id, token := token, authenticated := true)
           && NamesOf(claims, account)
           && (if claims.subject in m.accounts then
                 var known := m.accounts[claims.subject];
                 account.id == known.id && account.validation == known.validation
                     && account.createdAt == known.createdAt
               else account.id == id && account.validation == "verified" && account.createdAt == now)
           && m' == m.(accounts := m.accounts[claims.subject := account],
                       accountsById := m.accountsById[account.id := account])
  {
    if claims.subject != "" {
      MadeUp(claims, id, now);
    }
  }

  lemma MadeUp(claims: Claims, id: Id, now: Time)
    ensures NamesOf(claims, NewAccount(claims, id, now))
    ensures var a := NewAccount(claims, id, now); a.id == id && a.validation == "verified" && a.createdAt == now
  {
    var name := Replace(claims.subject, {':', '|', '/'}, '-');
    assert (name + "@example.invalid")[..|name|] == name;
    assert (name + "@example.invalid")[|name|..] == "@example.invalid";
  }
}
