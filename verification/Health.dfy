/** What either repository satisfies after any calls: the facts that the results of single calls are
    stated from. */
module Health {
  import opened Access
  import opened Core
  import opened Repository
  import opened Sessions
  import I = Invariants
  import M = MemoryModel
  import C = Calls
  import MN = MemoryNumbering
  import MS = MemorySessions
  import T = Tokens
  import Sql = Tables
  import SessionTheorems
  import Sequential

  ghost predicate Healthy(r: Repository) {
    match r
    case InMemory(m) =>
      MS.PackagesAgree(m.packages, m.packagesById) && MN.Tidy(m.resourceRevs, m.revisions, m.uploads)
    case Postgres(t) => I.Consistent(t)
  }

  /** The two package indexes agree. */
  ghost predicate Indexed(r: Repository) {
    match r
    case InMemory(m) => MS.PackagesAgree(m.packages, m.packagesById)
    case Postgres(t) => I.IndexAgrees(t.packages, t.names)
  }

  lemma HealthyIndexed(r: Repository)
    requires Healthy(r)
    ensures Indexed(r)
  {}

  lemma FoundByName(r: Repository, name: string)
    requires Healthy(r) && GetPackageByName(r, name).Some?
    ensures var pkg := GetPackageByName(r, name).value;
      pkg.name == name && GetPackageByID(r, pkg.id) == Some(pkg)
  {}

  lemma FoundById(r: Repository, p: Id)
    requires Healthy(r) && GetPackageByID(r, p).Some?
    ensures var pkg := GetPackageByID(r, p).value;
      pkg.id == p && GetPackageByName(r, pkg.name) == Some(pkg)
  {}

  lemma UploadFiled(r: Repository, id: Id)
    requires Healthy(r) && GetUpload(r, id).Some?
    ensures GetUpload(r, id).value.id == id
  {}

  // ---------- it always holds ----------

  lemma RowsAside(m: M.Mem, accounts: map<string, Account>, byId: map<Id, Account>, tokens: map<string, StoreToken>)
    ensures MN.SameRows(m, m.(accounts := accounts, accountsById := byId, tokens := tokens))
  {}

  lemma LoginKeepsRows(m: M.Mem, claims: T.Claims, token: Option<StoreToken>, id: Id, now: Time)
    ensures MN.SameRows(m, T.ResolveIdentity(m, claims, token, id, now).0)
  {
    hide T.NewAccount, MN.SameRows;
    var m' := M.EnsureAccount(m, T.NewAccount(claims, id, now), now).0;
    RowsAside(m, m'.accounts, m'.accountsById, m.tokens);
    RowsAside(m, m.accounts, m.accountsById, m.tokens);
  }

  lemma IssueKeepsRows(w: World, m: M.Mem, who: Identity, request: T.Request, draw: T.Draw, now: Time)
    ensures MN.SameRows(m, T.IssueStoreToken(w, m, who, request, draw, now).0)
  {
    hide T.NewToken, RequireAuth, MN.SameRows;
    RowsAside(m, m.accounts, m.accountsById, M.CreateStoreToken(m, T.NewToken(w, who, request, draw, now)).tokens);
    RowsAside(m, m.accounts, m.accountsById, m.tokens);
  }

  lemma RevokeKeepsRows(m: M.Mem, who: Identity, session: Id, first: string, now: Time)
    ensures MN.SameRows(m, T.RevokeStoreToken(m, who, session, first, now).0)
  {
    hide RequireAuth, MN.SameRows;
    if RequireAuth(who).Pass? && M.Selects(m, first, who.accountId, session) {
      RowsAside(m, m.accounts, m.accountsById, M.Revoke(m, first, who.accountId, now).tokens);
    }
    RowsAside(m, m.accounts, m.accountsById, m.tokens);
  }

  lemma PeopleOnly(w: World, m: M.Mem, c: MS.MemoryCall)
    requires !c.Work?
    ensures MN.SameRows(m, MS.AccountCall(w, m, c))
  {
    hide T.ResolveIdentity, T.IssueStoreToken, T.RevokeStoreToken, T.ExchangeRequest, MN.SameRows;
    match c {
      case Login(claims, token, id, now) => LoginKeepsRows(m, claims, token, id, now);
      case Issue(who, request, draw, now) => IssueKeepsRows(w, m, who, request, draw, now);
      case Exchange(who, description, draw, now) =>
        IssueKeepsRows(w, m, who, T.ExchangeRequest(who, description), draw, now);
      case Revoke(who, session, first, now) => RevokeKeepsRows(m, who, session, first, now);
    }
  }

  lemma NextHealthy(w: World, m: M.Mem, blobs: C.Blobs, c: MS.MemoryCall)
    requires MS.Valid(m) && MN.Tidy(m.resourceRevs, m.revisions, m.uploads) && MS.Possible(w, m, c)
    ensures var r := MS.Next(w, m, blobs, c).repo;
      r.InMemory? && MS.Valid(r.m) && MN.Tidy(r.m.resourceRevs, r.m.revisions, r.m.uploads)
  {
    hide MS.Valid, MN.Tidy, Serve, MS.Evolves, MS.AccountCall, MS.FreshToken, T.CanBeFirst;
    MS.CallKeeps(w, m, blobs, c);
    MS.EvolvesFrom(m, c, MS.Next(w, m, blobs, c).repo.m);
    if c.Work? {
      MN.ServeKeeps(w, m, blobs, c.call);
    } else {
      PeopleOnly(w, m, c);
    }
  }

  lemma {:induction false} RunHealthy(w: World, m: M.Mem, blobs: C.Blobs, calls: seq<MS.MemoryCall>)
    requires MS.Valid(m) && MN.Tidy(m.resourceRevs, m.revisions, m.uploads)
    requires MS.AllPossible(w, InMemory(m), blobs, calls)
    ensures Healthy(MS.RunAll(w, InMemory(m), blobs, calls))
    decreases |calls|
  {
    hide MN.Tidy, MS.Next;
    if calls != [] {
      NextHealthy(w, m, blobs, calls[0]);
      var g := MS.Next(w, m, blobs, calls[0]);
      hide MS.Valid;
      RunHealthy(w, g.repo.m, g.blobs, calls[1..]);
    }
  }

  /** After any run of service calls, logins and token calls over an empty Memory. */
  lemma MemoryHealthy(w: World, blobs: C.Blobs, calls: seq<MS.MemoryCall>)
    requires MS.AllPossible(w, InMemory(M.EMPTY), blobs, calls)
    ensures Healthy(MS.RunAll(w, InMemory(M.EMPTY), blobs, calls))
  {
    RunHealthy(w, M.EMPTY, blobs, calls);
  }

  /** After any session of service calls over tables that hold accounts only. */
  lemma TablesHealthy(w: World, accounts: set<Id>, blobs: C.Blobs, calls: seq<Call>)
    requires AllFresh({}, calls) && forall c | c in calls :: WellFormed(c)
    ensures Healthy(ServeAll(w, Registry(Postgres(Sql.EMPTY.(accounts := accounts)), blobs), calls).repo)
  {
    hide ServeAll;
    SessionTheorems.SessionKeeps(w, {}, Sql.EMPTY.(accounts := accounts), blobs, calls);
  }
}
