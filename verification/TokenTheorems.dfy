/** What exchanging tokens does to authorization, and what the list of active tokens means. */
module TokenTheorems {
  import opened Core
  import opened Access
  import opened MemoryModel
  import opened Tokens
  import Repo = Repository

  // ---------- decisions ----------

  predicate Known(permission: string) {
    permission in DEFAULT_PERMISSIONS
  }

  /** The same answer from every guard, for all known permissions, packages and channels. */
  ghost predicate SameDecisions(a: Identity, b: Identity) {
    && RequireAuth(a) == RequireAuth(b)
    && (forall s | Known(s) :: RequirePermission(a, s) == RequirePermission(b, s))
    && (forall r, pkg, s | Known(s) :: RequirePackageManage(r, a, pkg, s) == RequirePackageManage(r, b, pkg, s))
    && (forall r, pkg, needs :: RequirePackageView(r, a, pkg, needs) == RequirePackageView(r, b, pkg, needs))
    && (forall channel :: EnforceChannel(a, channel) == EnforceChannel(b, channel))
  }

  function Permissions(who: Identity): seq<string> {
    if who.token.Some? then who.token.value.permissions else []
  }

  function Packages(who: Identity): seq<Selector> {
    if who.token.Some? then who.token.value.packages else []
  }

  function ChannelsOf(who: Identity): seq<string> {
    if who.token.Some? then who.token.value.channels else []
  }

  /** `b` carries a token with the restrictions of `a`, the empty permission list written out. */
  predicate Copies(a: Identity, b: Identity) {
    && a.authenticated && b.authenticated && b.accountId == a.accountId && b.token.Some?
    && Packages(b) == Packages(a) && ChannelsOf(b) == ChannelsOf(a)
    && Permissions(b) == if Permissions(a) == [] then DEFAULT_PERMISSIONS else Permissions(a)
  }

  lemma DefaultsGrant(permission: string)
    ensures Grants(DEFAULT_PERMISSIONS, permission) <==> Known(permission) || "package-" <= permission
  {
    assert DEFAULT_PERMISSIONS[2] == PACKAGE_MANAGE;
    if Known(permission) {
      var i :| 0 <= i < |DEFAULT_PERMISSIONS| && DEFAULT_PERMISSIONS[i] == permission;
    }
  }

  /** An exchanged token grants what the original did; the one thing an exchange can take away is a
      permission outside the ten, from an identity that had no permission list at all. */
  lemma CopyPermission(a: Identity, b: Identity, permission: string)
    requires Copies(a, b)
    ensures RequirePermission(b, permission).Pass? ==> RequirePermission(a, permission).Pass?
    ensures RequirePermission(b, permission) == RequirePermission(a, permission)
            <==> Permissions(a) != [] || Known(permission) || "package-" <= permission
  {
    DefaultsGrant(permission);
  }

  lemma CopiesDecide(a: Identity, b: Identity)
    requires Copies(a, b)
    ensures SameDecisions(a, b)
  {
    hide Grants;
    forall s | Known(s) ensures RequirePermission(a, s) == RequirePermission(b, s) {
      CopyPermission(a, b, s);
    }
    assert DEFAULT_PERMISSIONS[6] == PACKAGE_VIEW;
    assert Known(PACKAGE_VIEW);
    hide Known, RequirePermission, DEFAULT_PERMISSIONS;
    forall pkg ensures TokenPackageGuard(a, pkg) == TokenPackageGuard(b, pkg) {
      SamePackages(a, b, pkg);
    }
  }

  lemma SamePackages(a: Identity, b: Identity, pkg: Package)
    requires Packages(a) == Packages(b)
    ensures TokenPackageGuard(a, pkg) == TokenPackageGuard(b, pkg)
  {}

  // ---------- chains of exchanges ----------

  /** One exchange and the next request made with its token: what is drawn, and when. */
  datatype Round = Round(description: Option<string>, draw: Draw, unused: Id, now: Time, later: Time)

  /** Exchange, authenticate with the new token, resolve the identity. */
  function Exchange(w: World, m: Mem, who: Identity, round: Round): (Mem, Option<Identity>) {
    var (m1, raw) := ExchangeStoreToken(w, m, who, round.description, round.draw, round.now);
    if raw.Err? then (m1, None)
    else
      match AuthenticateToken(w, m1, raw.value, round.later)
      case Rejected(_) => (m1, None)
      case Accepted(claims, token) =>
        var (m2, next) := ResolveIdentity(m1, claims, Some(token), round.unused, round.later);
        (m2, Some(next))
  }

  function ExchangeAll(w: World, m: Mem, who: Identity, rounds: seq<Round>): (Mem, Option<Identity>)
    decreases |rounds|
  {
    if rounds == [] then (m, Some(who))
    else
      var (m1, next) := Exchange(w, m, who, rounds[0]);
      if next.None? then (m1, None) else ExchangeAll(w, m1, next.value, rounds[1..])
  }

  /** The two account indexes hold the same rows. */
  ghost predicate AccountsAgree(m: Mem) {
    && (forall s | s in m.accounts ::
          m.accounts[s].subject == s && m.accounts[s].id in m.accountsById
          && m.accountsById[m.accounts[s].id] == m.accounts[s])
    && (forall i | i in m.accountsById ::
          m.accountsById[i].id == i && m.accountsById[i].subject in m.accounts
          && m.accounts[m.accountsById[i].subject] == m.accountsById[i])
  }

  /** An identity as `ResolveIdentity` makes them. */
  ghost predicate Resolved(m: Mem, who: Identity) {
    who.authenticated && who.accountId in m.accountsById && m.accountsById[who.accountId].subject != ""
  }

  predicate InTime(rounds: seq<Round>) {
    forall i | 0 <= i < |rounds| :: rounds[i].later <= rounds[i].now + DEFAULT_LIFETIME
  }

  /** Logging in again keeps the account id of the subject. */
  lemma LoginKeepsAccount(m: Mem, i: Id, token: Option<StoreToken>, unused: Id, now: Time)
    requires AccountsAgree(m) && i in m.accountsById && m.accountsById[i].subject != ""
    ensures var (m', who) := ResolveIdentity(m, ClaimsOf(m.accountsById[i]), token, unused, now);
      && AccountsAgree(m') && who == Identity(i, token, true)
      && i in m'.accountsById && m'.accountsById[i].subject == m.accountsById[i].subject
  {}

  lemma ExchangeCopies(w: World, m: Mem, who: Identity, round: Round)
    requires AccountsAgree(m) && Resolved(m, who)
    ensures var (m', next) := Exchange(w, m, who, round);
      && AccountsAgree(m')
      && (next.Some? <==> round.later <= round.now + DEFAULT_LIFETIME)
      && (next.Some? ==> Copies(who, next.value) && Resolved(m', next.value))
  {
    hide DEFAULT_PERMISSIONS, ResolveIdentity;
    var m1 := ExchangeStoreToken(w, m, who, round.description, round.draw, round.now).0;
    assert m1.accounts == m.accounts && m1.accountsById == m.accountsById;
    var token := NewToken(w, who, ExchangeRequest(who, round.description), round.draw, round.now);
    LoginKeepsAccount(m1, who.accountId, Some(token), round.unused, round.later);
  }

  lemma CopiesCompose(a: Identity, b: Identity, c: Identity)
    requires Copies(a, b) && Copies(b, c)
    ensures Copies(a, c)
  {}

  lemma {:induction false} ChainCopies(w: World, m: Mem, who: Identity, rounds: seq<Round>)
    requires AccountsAgree(m) && Resolved(m, who)
    ensures var last := ExchangeAll(w, m, who, rounds).1;
      && (last.Some? <==> InTime(rounds))
      && (last.Some? && rounds != [] ==> Copies(who, last.value))
      && (last.Some? && rounds == [] ==> last.value == who)
    decreases |rounds|
  {
    hide AccountsAgree, Resolved, Exchange, Copies;
    if rounds != [] {
      ExchangeCopies(w, m, who, rounds[0]);
      var (m1, next) := Exchange(w, m, who, rounds[0]);
      assert forall i | 0 < i < |rounds| :: rounds[i] == rounds[1..][i - 1];
      if next.Some? {
        assert forall i | 0 <= i < |rounds| - 1 :: rounds[1..][i] == rounds[i + 1];
        ChainCopies(w, m1, next.value, rounds[1..]);
        if InTime(rounds) && |rounds| > 1 {
          CopiesCompose(who, next.value, ExchangeAll(w, m1, next.value, rounds[1..]).1.value);
        }
      }
    }
  }

  /** Any chain of exchanges, each used before it expires: every guard answers as it did at the
      start for the ten known permissions, all packages and all channels, whatever the original
      permission list; and no permission string that was refused is granted. */
  lemma ExchangesDecideAlike(w: World, m: Mem, who: Identity, rounds: seq<Round>, permission: string)
    requires AccountsAgree(m) && Resolved(m, who)
    ensures ExchangeAll(w, m, who, rounds).1.Some? <==> InTime(rounds)
    ensures InTime(rounds) ==>
              var last := ExchangeAll(w, m, who, rounds).1.value;
              && SameDecisions(who, last)
              && (RequirePermission(last, permission).Pass? ==> RequirePermission(who, permission).Pass?)
              && (RequirePermission(last, permission) == RequirePermission(who, permission)
                  <==> rounds == [] || Permissions(who) != [] || Known(permission) || "package-" <= permission)
  {
    hide AccountsAgree, Resolved, Exchange, Copies, SameDecisions, RequirePermission, Known;
    ChainCopies(w, m, who, rounds);
    if InTime(rounds) {
      var last := ExchangeAll(w, m, who, rounds).1.value;
      if rounds == [] {
        SameAsItself(who);
      } else {
        CopiesDecide(who, last);
        CopyPermission(who, last, permission);
      }
    }
  }

  lemma SameAsItself(who: Identity)
    ensures SameDecisions(who, who)
  {}

  // ---------- the active list ----------

  lemma OnceIsIn(tokens: seq<StoreToken>, token: StoreToken)
    ensures multiset(tokens)[token] > 0 <==> token in tokens
  {}

  /** A stored token of a known account authenticates at `now` exactly when it is in the list of that
      account's active tokens at `now`, whatever order the list was sorted from. */
  lemma ActiveMeansAuthenticated(w: World, m: Mem, raw: string, now: Time, list: seq<StoreToken>)
    requires TokensKeyed(m) && w.hashToken(raw) in m.tokens
    requires m.tokens[w.hashToken(raw)].accountId in m.accountsById
    requires IsListing(m, m.tokens[w.hashToken(raw)].accountId, false, now, list)
    ensures AuthenticateToken(w, m, raw, now).Accepted? <==> m.tokens[w.hashToken(raw)] in list
  {
    var token := m.tokens[w.hashToken(raw)];
    OnceIsIn(list, token);
    assert Stored(m, token);
  }

  /** The SQL list of active tokens and the authenticator disagree about exactly one moment: that at
      which an unrevoked token expires. Then the token authenticates and is not listed. */
  lemma SqlListAgreesExactly(token: StoreToken, now: Time)
    ensures (ActiveInSql(token, now) <==> Usable(token, now)) <==> token.revokedAt.Some? || token.validUntil != now
    ensures ActiveInSql(token, now) ==> Usable(token, now)
  {}
}
