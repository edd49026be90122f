/** The token calls of internal/service/tokens.go and the store-token lookup of internal/auth/auth.go
    on a `repo.Memory` object. */
module TokenService {
  import opened Core
  import opened Access
  import opened MemoryRepo
  import Model = MemoryModel
  import T = Tokens

  class TokenService {
    const w: World
    const repo: Memory

    constructor (w: World, repo: Memory)
      ensures this.w == w && this.repo == repo
    {
      this.w := w;
      this.repo := repo;
    }

    method IssueStoreToken(who: Identity, request: T.Request, draw: T.Draw, now: Time)
      returns (res: Result<(string, StoreToken)>)
      modifies repo
      ensures (repo.Contents(), res) == T.IssueStoreToken(w, old(repo.Contents()), who, request, draw, now)
    {
      var auth := RequireAuth(who);
      if auth.Fail? {
        return Err(auth.error);
      }
      var permissions := request.permissions;
      if |permissions| == 0 {
        permissions := DEFAULT_PERMISSIONS;
      }
      var ttl := T.DEFAULT_LIFETIME;
      if request.ttl.Some? && request.ttl.value > 0 {
        ttl := request.ttl.value * T.SECOND;
      }
      var token := StoreToken(draw.session, w.hashToken(draw.raw), who.accountId, request.description, request.packages,
                              request.channels, permissions, now, now + ttl, None, None);
      repo.CreateStoreToken(token);
      res := Ok((draw.raw, token));
    }

    method ExchangeStoreToken(who: Identity, description: Option<string>, draw: T.Draw,
                              now: Time) returns (res: Result<string>)
      modifies repo
      ensures (repo.Contents(), res) == T.ExchangeStoreToken(w, old(repo.Contents()), who, description, draw, now)
    {
      var request := T.Request(description, None, [], [], []);
      if who.token.Some? {
        request := request.(channels := who.token.value.channels);
        request := request.(permissions := who.token.value.permissions);
        request := request.(packages := who.token.value.packages);
      }
      var issued := IssueStoreToken(who, request, draw, now);
      res := if issued.Err? then Err(issued.error) else Ok(issued.value.0);
    }

    method ListStoreTokens(who: Identity, includeInactive: bool, now: Time) returns (res: Result<seq<StoreToken>>)
      requires T.TokensKeyed(repo.Contents())
      ensures if !who.authenticated then res == Err(UNAUTHORIZED)
              else res.Ok? && T.IsListing(repo.Contents(), who.accountId, includeInactive, now, res.value)
    {
      var auth := RequireAuth(who);
      if auth.Fail? {
        return Err(auth.error);
      }
      var tokens := repo.ListStoreTokens(who.accountId, includeInactive, now);
      res := Ok(tokens);
    }

    method RevokeStoreToken(who: Identity, session: Id, now: Time) returns (out: Outcome)
      modifies repo
      ensures exists first :: T.CanBeFirst(old(repo.Contents()), who, session, first)
                              && (repo.Contents(), out)
                                 == T.RevokeStoreToken(old(repo.Contents()), who, session, first, now)
    {
      ghost var was := repo.Contents();
      var auth := RequireAuth(who);
      if auth.Fail? {
        ghost var h := Choice(was, who, session);
        assert T.RevokeStoreToken(was, who, session, h, now) == (was, auth);
        return auth;
      }
      out := repo.RevokeStoreToken(who.accountId, session, who.accountId, now);
      if out.Pass? {
        ghost var h :| Model.Selects(was, h, who.accountId, session)
                       && repo.Contents() == Model.Revoke(was, h, who.accountId, now);
        assert T.CanBeFirst(was, who, session, h);
      } else {
        assert T.CanBeFirst(was, who, session, "");
        assert T.RevokeStoreToken(was, who, session, "", now) == (was, out);
      }
    }

    method ResolveIdentity(claims: T.Claims, token: Option<StoreToken>, id: Id, now: Time) returns (who: Identity)
      modifies repo
      ensures (repo.Contents(), who) == T.ResolveIdentity(old(repo.Contents()), claims, token, id, now)
    {
      if claims.subject == "" {
        return T.NOBODY;
      }
      var account := repo.EnsureAccount(T.NewAccount(claims, id, now), now);
      who := Identity(account.id, token, true);
    }

    method AuthenticateToken(raw: string, now: Time) returns (res: T.Authentication)
      ensures res == T.AuthenticateToken(w, repo.Contents(), raw, now)
    {
      var hash := w.hashToken(raw);
      if hash !in repo.tokens {
        return T.Rejected("token not found");
      }
      var token := repo.tokens[hash];
      if token.accountId !in repo.accountsById {
        return T.Rejected("token not found");
      }
      var account := repo.accountsById[token.accountId];
      if token.revokedAt.Some? || token.validUntil < now {
        return T.Rejected("token revoked or expired");
      }
      res := T.Accepted(T.Claims(account.subject, account.username, account.displayName, account.email), token);
    }
  }

  lemma Choice(m: Model.Mem, who: Identity, session: Id) returns (first: string)
    ensures T.CanBeFirst(m, who, session, first)
  {
    if h :| Model.Selects(m, h, who.accountId, session) {
      first := h;
    } else {
      first := "";
    }
  }
}
