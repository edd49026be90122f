/** Whole sessions over `repo.Memory`, logins and token calls included: the two package indexes and
    the two account indexes always hold the same rows, a subject keeps its account id, and what
    becomes of a token is decided by the revocations that name it. */
module MemorySessions {
  import opened Core
  import opened MemoryModel
  import opened Repository
  import opened Access
  import opened Sessions
  import opened TokenTheorems
  import C = Calls
  import T = Tokens

  type Mem = MemoryModel.Mem

  datatype MemoryCall =
    | Work(call: Call)
    | Login(claims: T.Claims, token: Option<StoreToken>, id: Id, now: Time)
    | Issue(who: Identity, request: T.Request, draw: T.Draw, now: Time)
    | Exchange(who: Identity, description: Option<string>, draw: T.Draw, now: Time)
    | Revoke(who: Identity, session: Id, first: string, now: Time)

  /** What a login or a token call makes of the maps. */
  function AccountCall(w: World, m: Mem, c: MemoryCall): Mem
    requires !c.Work?
  {
    match c
    case Login(claims, token, id, now) => T.ResolveIdentity(m, claims, token, id, now).0
    case Issue(who, request, draw, now) => T.IssueStoreToken(w, m, who, request, draw, now).0
    case Exchange(who, description, draw, now) => T.ExchangeStoreToken(w, m, who, description, draw, now).0
    case Revoke(who, session, first, now) => T.RevokeStoreToken(m, who, session, first, now).0
  }

  function Next(w: World, m: Mem, blobs: C.Blobs, c: MemoryCall): Registry
    requires c.Work? ==> WellFormed(c.call)
  {
    if c.Work? then Serve(w, Registry(InMemory(m), blobs), c.call).0
    else Registry(InMemory(AccountCall(w, m, c)), blobs)
  }

  ghost predicate FreshToken(w: World, m: Mem, draw: T.Draw) {
    w.hashToken(draw.raw) !in m.tokens && forall h | h in m.tokens :: m.tokens[h].sessionId != draw.session
  }

  /** The call is well formed, the ids and tokens it draws are not in use, and a revocation takes a
      token that the range loop can meet first. */
  ghost predicate Possible(w: World, m: Mem, c: MemoryCall) {
    match c
    case Work(call) => WellFormed(call) && (call.Register? ==> call.id !in m.packagesById)
    case Login(_, _, id, _) => id !in m.accountsById
    case Issue(_, _, draw, _) => FreshToken(w, m, draw)
    case Exchange(_, _, draw, _) => FreshToken(w, m, draw)
    case Revoke(who, session, first, _) => T.CanBeFirst(m, who, session, first)
  }

  ghost predicate AllPossible(w: World, r: Repository, blobs: C.Blobs, calls: seq<MemoryCall>)
    decreases |calls|
  {
    r.InMemory? && (calls == [] || (Possible(w, r.m, calls[0])
      && AllPossible(w, Next(w, r.m, blobs, calls[0]).repo, Next(w, r.m, blobs, calls[0]).blobs, calls[1..])))
  }

  ghost function RunAll(w: World, r: Repository, blobs: C.Blobs, calls: seq<MemoryCall>): Repository
    requires AllPossible(w, r, blobs, calls)
    decreases |calls|
  {
    if calls == [] then r
    else RunAll(w, Next(w, r.m, blobs, calls[0]).repo, Next(w, r.m, blobs, calls[0]).blobs, calls[1..])
  }

  // ---------- the representation invariant ----------

  /** The package indexes are inverse to each other and hold the same rows. */
  ghost predicate PackagesAgree(packages: map<string, Package>, packagesById: map<Id, Package>) {
    && (forall n | n in packages ::
          packages[n].name == n && packages[n].id in packagesById && packagesById[packages[n].id] == packages[n])
    && (forall p | p in packagesById ::
          packagesById[p].id == p && packagesById[p].name in packages
              && packages[packagesById[p].name] == packagesById[p])
  }

  ghost predicate SessionsDistinct(m: Mem) {
    forall h, k | h in m.tokens && k in m.tokens && m.tokens[h].sessionId == m.tokens[k].sessionId :: h == k
  }

  ghost predicate Valid(m: Mem) {
    && PackagesAgree(m.packages, m.packagesById)
    && AccountsAgree(m)
    && T.TokensKeyed(m)
    && SessionsDistinct(m)
  }

  /** Same token up to its revocation, which is never undone. */
  predicate SameToken(a: StoreToken, b: StoreToken) {
    && b == a.(revokedAt := b.revokedAt, revokedBy := b.revokedBy)
    && (a.revokedAt.Some? ==> b.revokedAt.Some?)
  }

  /** Accounts keep their ids, tokens keep all but their revocation. */
  ghost predicate Lasts(m: Mem, m': Mem) {
    && (forall s | s in m.accounts :: s in m'.accounts && m'.accounts[s].id == m.accounts[s].id)
    && m.accountsById.Keys <= m'.accountsById.Keys
    && (forall h | h in m.tokens :: h in m'.tokens && SameToken(m.tokens[h], m'.tokens[h]))
  }

  // ---------- service calls ----------

  /** `r` is in memory with these accounts and tokens. */
  predicate KeepsPeople(m: Mem, r: Repository) {
    r.InMemory? && r.m.accounts == m.accounts && r.m.accountsById == m.accountsById && r.m.tokens == m.tokens
  }

  /** And with these packages. */
  predicate KeepsPackages(m: Mem, r: Repository) {
    KeepsPeople(m, r) && r.m.packages == m.packages && r.m.packagesById == m.packagesById
  }

  lemma {:induction false} UpsertAllKeeps(m: Mem, p: Id, archive: Archive, order: seq<(string, Id)>, now: Time)
    ensures KeepsPackages(m, C.UpsertAll(InMemory(m), p, archive, order, now).0)
    decreases |order|
  {
    if order != [] {
      var (name, id) := order[0];
      if name in archive.resources {
        var m1 := MemoryModel.UpsertDefinition(m, C.Definition(p, name, archive.resources[name], id, now));
        UpsertAllKeeps(m1, p, archive, order[1..], now);
      } else {
        UpsertAllKeeps(m, p, archive, order[1..], now);
      }
    }
  }

  lemma {:induction false} UpdateEachKeeps(m: Mem, d: Id, updates: seq<C.ResourceUpdate>)
    ensures KeepsPackages(m, C.UpdateEach(InMemory(m), d, updates).0)
    decreases |updates|
  {
    if updates != [] {
      var (r1, out) := C.UpdateOne(InMemory(m), d, updates[0]);
      if out.Pass? {
        UpdateEachKeeps(r1.m, d, updates[1..]);
      }
    }
  }

  lemma {:induction false} ReleaseEachKeeps(m: Mem, who: Identity, p: Id, requests: seq<Release>, ids: seq<Id>,
                                            now: Time)
    requires |ids| == |requests|
    ensures KeepsPackages(m, C.ReleaseEach(InMemory(m), who, p, requests, ids, now).0)
    decreases |requests|
  {
    if requests != [] {
      var (r1, out) := C.ReleaseOne(InMemory(m), who, p, requests[0], ids[0], now);
      if out.Pass? {
        ReleaseEachKeeps(r1.m, who, p, requests[1..], ids[1..], now);
      }
    }
  }

  lemma PutAgrees(m: Mem, p: Id, pkg: Package)
    requires PackagesAgree(m.packages, m.packagesById)
    requires pkg.id == p && (p in m.packagesById <==> pkg.name in m.packages)
    requires p in m.packagesById ==> m.packagesById[p].name == pkg.name
    ensures PackagesAgree(PutPackageUnder(m, p, pkg).packages, PutPackageUnder(m, p, pkg).packagesById)
  {}

  lemma DropAgrees(m: Mem, p: Id)
    requires PackagesAgree(m.packages, m.packagesById)
    ensures var m' := MemoryModel.DeletePackage(m, p).0;
      PackagesAgree(m'.packages, m'.packagesById)
  {}

  lemma FoundAgrees(m: Mem, who: Identity, name: string, permission: string)
    requires PackagesAgree(m.packages, m.packagesById) && C.Managed(InMemory(m), who, name, permission).Ok?
    ensures var pkg := C.Managed(InMemory(m), who, name, permission).value;
      pkg.name == name && name in m.packages && pkg.id in m.packagesById && m.packagesById[pkg.id] == pkg
  {}

  lemma RegisterKeeps(m: Mem, who: Identity, name: string, kind: string, isPrivate: bool, id: Id, now: Time)
    requires PackagesAgree(m.packages, m.packagesById) && id !in m.packagesById
    ensures var r := C.RegisterPackage(InMemory(m), who, name, kind, isPrivate, id, now).0;
      KeepsPeople(m, r) && PackagesAgree(r.m.packages, r.m.packagesById)
  {
    hide PackagesAgree;
    var pkg := C.NewPackage(who, name, kind, isPrivate, id, now);
    if name !in m.packages {
      PutAgrees(m, id, pkg);
      var m1 := PutPackage(m, pkg);
      PutAgrees(m1, id, pkg.(tracks := AddTracks(pkg.tracks, pkg.tracks)));
    }
  }

  lemma UnregisterKeeps(m: Mem, who: Identity, name: string)
    requires PackagesAgree(m.packages, m.packagesById)
    ensures var r := C.UnregisterPackage(InMemory(m), who, name).0;
      KeepsPeople(m, r) && PackagesAgree(r.m.packages, r.m.packagesById)
  {
    var found := C.Managed(InMemory(m), who, name, PACKAGE_MANAGE);
    if found.Ok? {
      FoundAgrees(m, who, name, PACKAGE_MANAGE);
      DropAgrees(m, found.value.id);
    }
    hide PackagesAgree;
  }

  lemma PatchKeeps(w: World, m: Mem, who: Identity, name: string, patch: C.Patch, now: Time)
    requires PackagesAgree(m.packages, m.packagesById)
    ensures var r := C.PatchPackage(w, InMemory(m), who, name, patch, now).0;
      KeepsPeople(m, r) && PackagesAgree(r.m.packages, r.m.packagesById)
  {
    hide PackagesAgree;
    var found := C.Managed(InMemory(m), who, name, MANAGE_METADATA);
    if found.Ok? {
      FoundAgrees(m, who, name, MANAGE_METADATA);
      PutAgrees(m, found.value.id, C.ApplyPatch(found.value, patch, now));
    }
  }

  lemma TracksKeeps(m: Mem, who: Identity, name: string, tracks: seq<Track>, now: Time)
    requires PackagesAgree(m.packages, m.packagesById)
    ensures var r := C.AddPackageTracks(InMemory(m), who, name, tracks, now).0;
      KeepsPeople(m, r) && PackagesAgree(r.m.packages, r.m.packagesById)
  {
    hide PackagesAgree;
    var found := C.Managed(InMemory(m), who, name, MANAGE_METADATA);
    if found.Ok? {
      FoundAgrees(m, who, name, MANAGE_METADATA);
      var pkg := found.value;
      PutAgrees(m, pkg.id, pkg.(tracks := AddTracks(pkg.tracks, C.StampTracks(tracks, now))));
    }
  }

  lemma PushArchiveKeeps(w: World, m: Mem, who: Identity, name: string, pkg: Package, up: Core.Upload, archive: Archive,
                         id: Id, order: seq<(string, Id)>, now: Time)
    requires PackagesAgree(m.packages, m.packagesById)
    requires pkg.name in m.packages && pkg.id in m.packagesById && m.packagesById[pkg.id] == pkg
    ensures var r := C.PushArchive(w, InMemory(m), who, name, pkg, up, archive, id, order, now).0;
      KeepsPeople(m, r) && PackagesAgree(r.m.packages, r.m.packagesById)
  {
    hide PackagesAgree, C.UpsertAll;
    var n := C.NextNumber(MemoryModel.GetLatestRevision(m, pkg.id));
    var m1 := MemoryModel.CreateRevision(m, C.NewRevision(pkg.id, who, up, archive, n, id, now));
    var (m2, out2) := MemoryModel.ApproveUpload(m1, up.id, Some(n), [], now);
    if out2.Pass? {
      var pkg' := C.Published(w, pkg, archive, now);
      PutAgrees(m2, pkg.id, pkg');
      UpsertAllKeeps(PutPackage(m2, pkg'), pkg.id, archive, order, now);
    }
  }

  lemma PushKeeps(w: World, m: Mem, blobs: C.Blobs, who: Identity, name: string, uploadId: Id, id: Id,
                  order: seq<(string, Id)>, now: Time)
    requires PackagesAgree(m.packages, m.packagesById)
    ensures var r := C.PushRevision(w, InMemory(m), blobs, who, name, uploadId, id, order, now).0;
      KeepsPeople(m, r) && PackagesAgree(r.m.packages, r.m.packagesById)
  {
    hide PackagesAgree, C.PushArchive;
    var found := C.Managed(InMemory(m), who, name, MANAGE_REVISIONS);
    if found.Ok? && uploadId in m.uploads && m.uploads[uploadId].objectKey in blobs {
      FoundAgrees(m, who, name, MANAGE_REVISIONS);
      var up := m.uploads[uploadId];
      var archive := w.parse(blobs[up.objectKey]);
      if archive.Some? {
        PushArchiveKeeps(w, m, who, name, found.value, up, archive.value, id, order, now);
      }
    }
  }

  lemma PublishKeeps(m: Mem, who: Identity, name: string, requests: seq<Release>, ids: seq<Id>, now: Time)
    requires PackagesAgree(m.packages, m.packagesById) && |ids| == |requests|
    ensures var r := C.Release(InMemory(m), who, name, requests, ids, now).0;
      KeepsPeople(m, r) && PackagesAgree(r.m.packages, r.m.packagesById)
  {
    hide PackagesAgree, C.ReleaseEach;
    var found := C.Managed(InMemory(m), who, name, MANAGE_RELEASES);
    if found.Ok? {
      FoundAgrees(m, who, name, MANAGE_RELEASES);
      ReleaseEachKeeps(m, who, found.value.id, requests, ids, now);
      var m1 := C.ReleaseEach(InMemory(m), who, found.value.id, requests, ids, now).0.m;
      PutAgrees(m1, found.value.id, found.value.(status := "published", updatedAt := now));
    }
  }

  lemma UpdateKeeps(m: Mem, who: Identity, name: string, resource: string, updates: seq<C.ResourceUpdate>)
    ensures KeepsPackages(m, C.UpdateResources(InMemory(m), who, name, resource, updates).0)
  {
    var found := C.Managed(InMemory(m), who, name, MANAGE_REVISIONS);
    if found.Ok? && MemoryModel.GetDefinition(m, found.value.id, resource).Some? {
      UpdateEachKeeps(m, MemoryModel.GetDefinition(m, found.value.id, resource).value.id, updates);
    }
  }

  lemma RowKeeps(m: Mem, m': Mem)
    requires m' == m.(uploads := m'.uploads, resourceRevs := m'.resourceRevs)
    ensures KeepsPackages(m, InMemory(m'))
  {}

  lemma AddRowKeeps(m: Mem, name: string, up: Core.Upload, row: ResourceRevision, now: Time)
    ensures KeepsPackages(m, C.AddResourceRow(InMemory(m), name, up, row, now).0)
  {
    hide KeepsPackages;
    var m1 := MemoryModel.CreateResourceRevision(m, row);
    RowKeeps(m, m1);
    RowKeeps(m, MemoryModel.ApproveUpload(m1, up.id, Some(row.number), [], now).0);
  }

  lemma PushResourceKeeps(w: World, m: Mem, blobs: C.Blobs, who: Identity, name: string, resource: string,
                          push: C.ResourcePush, id: Id, now: Time)
    ensures KeepsPackages(m, C.PushResource(w, InMemory(m), blobs, who, name, resource, push, id, now).0)
  {
    hide KeepsPackages, C.Managed, C.AddResourceRow, C.NewResourceRevision, C.NextResourceNumber;
    RowKeeps(m, m);
    var found := C.Managed(InMemory(m), who, name, MANAGE_REVISIONS);
    if found.Ok? && MemoryModel.GetDefinition(m, found.value.id, resource).Some?
       && push.uploadId in m.uploads && m.uploads[push.uploadId].objectKey in blobs {
      var d, up := MemoryModel.GetDefinition(m, found.value.id, resource).value, m.uploads[push.uploadId];
      var n := C.NextResourceNumber(FirstResourceRevision(InMemory(m), d.id));
      AddRowKeeps(m, name, up, C.NewResourceRevision(w, d, up, blobs[up.objectKey], n, push.kind, push.bases,
                                                     push.architectures, id, now), now);
    }
  }

  lemma WorkKeeps(w: World, m: Mem, blobs: C.Blobs, c: Call)
    requires PackagesAgree(m.packages, m.packagesById) && WellFormed(c) && (c.Register? ==> c.id !in m.packagesById)
    ensures var r := Serve(w, Registry(InMemory(m), blobs), c).0.repo;
      KeepsPeople(m, r) && PackagesAgree(r.m.packages, r.m.packagesById)
  {
    hide PackagesAgree, C.RegisterPackage, C.PatchPackage, C.UnregisterPackage, C.AddPackageTracks, C.PushRevision,
         C.PushResource, C.UpdateResources, C.Release;
    match c {
      case Register(who, name, kind, isPrivate, id, now) => RegisterKeeps(m, who, name, kind, isPrivate, id, now);
      case PatchMetadata(who, name, patch, now) => PatchKeeps(w, m, who, name, patch, now);
      case Unregister(who, name) => UnregisterKeeps(m, who, name);
      case Tracks(who, name, tracks, now) => TracksKeeps(m, who, name, tracks, now);
      case Upload(_, _, _, _) =>
      case PushRevision(who, name, uploadId, id, order, now) =>
        PushKeeps(w, m, blobs, who, name, uploadId, id, order, now);
      case PushResource(who, name, resource, push, id, now) =>
        PushResourceKeeps(w, m, blobs, who, name, resource, push, id, now);
      case UpdateResources(who, name, resource, updates) => UpdateKeeps(m, who, name, resource, updates);
      case Publish(who, name, requests, ids, now) => PublishKeeps(m, who, name, requests, ids, now);
    }
  }

  // ---------- logins and tokens ----------

  lemma EnsureKeeps(m: Mem, account: Account, now: Time)
    requires AccountsAgree(m) && account.id !in m.accountsById
    ensures var m' := EnsureAccount(m, account, now).0;
      && AccountsAgree(m') && m' == m.(accounts := m'.accounts, accountsById := m'.accountsById)
      && (forall s | s in m.accounts :: s in m'.accounts && m'.accounts[s].id == m.accounts[s].id)
      && m.accountsById.Keys <= m'.accountsById.Keys
  {}

  lemma LoginKeeps(m: Mem, claims: T.Claims, token: Option<StoreToken>, id: Id, now: Time)
    requires AccountsAgree(m) && id !in m.accountsById
    ensures var m' := T.ResolveIdentity(m, claims, token, id, now).0;
      && AccountsAgree(m') && m' == m.(accounts := m'.accounts, accountsById := m'.accountsById)
      && (forall s | s in m.accounts :: s in m'.accounts && m'.accounts[s].id == m.accounts[s].id)
      && m.accountsById.Keys <= m'.accountsById.Keys
  {
    hide AccountsAgree, EnsureAccount;
    EnsureKeeps(m, T.NewAccount(claims, id, now), now);
  }

  /** A revocation that names this token. */
  predicate Kills(c: MemoryCall, token: StoreToken) {
    c.Revoke? && c.who.authenticated && c.who.accountId == token.accountId && c.session == token.sessionId
  }

  lemma RevokeKeeps(m: Mem, who: Identity, session: Id, first: string, now: Time)
    requires T.TokensKeyed(m) && SessionsDistinct(m) && T.CanBeFirst(m, who, session, first)
    ensures var m' := T.RevokeStoreToken(m, who, session, first, now).0;
      && T.TokensKeyed(m') && SessionsDistinct(m') && m' == m.(tokens := m'.tokens)
      && forall h | h in m.tokens ::
           && h in m'.tokens && SameToken(m.tokens[h], m'.tokens[h])
           && m'.tokens[h] == if Kills(Revoke(who, session, first, now), m.tokens[h])
                              then m.tokens[h].(revokedAt := Some(now), revokedBy := Some(who.accountId))
                              else m.tokens[h]
  {
    var m' := T.RevokeStoreToken(m, who, session, first, now).0;
    forall h | h in m.tokens && Kills(Revoke(who, session, first, now), m.tokens[h]) ensures h == first {
      assert Selects(m, h, who.accountId, session);
    }
    assert first in m.tokens && m' != m ==> Kills(Revoke(who, session, first, now), m.tokens[first]);
    assert forall h | h in m'.tokens :: h in m.tokens && m'.tokens[h].sessionId == m.tokens[h].sessionId;
  }

  lemma CreateKeeps(m: Mem, token: StoreToken)
    requires T.TokensKeyed(m) && SessionsDistinct(m) && token.hash !in m.tokens
    requires forall h | h in m.tokens :: m.tokens[h].sessionId != token.sessionId
    ensures var m' := CreateStoreToken(m, token);
      && T.TokensKeyed(m') && SessionsDistinct(m') && m' == m.(tokens := m'.tokens)
      && forall h | h in m.tokens :: h in m'.tokens && m'.tokens[h] == m.tokens[h]
  {}

  ghost predicate Evolves(m: Mem, c: MemoryCall, m': Mem) {
    && Valid(m') && Lasts(m, m')
    && forall h | h in m.tokens ::
         m'.tokens[h].revokedAt.Some? <==> m.tokens[h].revokedAt.Some? || Kills(c, m.tokens[h])
  }

  lemma SamePeople(m: Mem, m': Mem)
    ensures m'.accounts == m.accounts && m'.accountsById == m.accountsById && AccountsAgree(m) ==> AccountsAgree(m')
    ensures m'.tokens == m.tokens && T.TokensKeyed(m) && SessionsDistinct(m)
      ==> T.TokensKeyed(m') && SessionsDistinct(m')
  {}

  lemma LoginEvolves(m: Mem, c: MemoryCall)
    requires Valid(m) && c.Login? && c.id !in m.accountsById
    ensures Evolves(m, c, T.ResolveIdentity(m, c.claims, c.token, c.id, c.now).0)
  {
    hide PackagesAgree, AccountsAgree, T.TokensKeyed, SessionsDistinct, T.NewAccount;
    SamePeople(m, T.ResolveIdentity(m, c.claims, c.token, c.id, c.now).0);
    LoginKeeps(m, c.claims, c.token, c.id, c.now);
  }

  lemma CreateEvolves(m: Mem, c: MemoryCall, token: StoreToken)
    requires Valid(m) && !c.Revoke? && token.hash !in m.tokens
    requires forall h | h in m.tokens :: m.tokens[h].sessionId != token.sessionId
    ensures Evolves(m, c, m) && Evolves(m, c, CreateStoreToken(m, token))
  {
    hide PackagesAgree, AccountsAgree, T.TokensKeyed, SessionsDistinct;
    SamePeople(m, CreateStoreToken(m, token));
    CreateKeeps(m, token);
  }

  lemma RevokeEvolves(m: Mem, c: MemoryCall)
    requires Valid(m) && c.Revoke? && T.CanBeFirst(m, c.who, c.session, c.first)
    ensures Evolves(m, c, T.RevokeStoreToken(m, c.who, c.session, c.first, c.now).0)
  {
    hide PackagesAgree, AccountsAgree, T.TokensKeyed, SessionsDistinct;
    SamePeople(m, T.RevokeStoreToken(m, c.who, c.session, c.first, c.now).0);
    RevokeKeeps(m, c.who, c.session, c.first, c.now);
  }

  lemma AccountCallKeeps(w: World, m: Mem, c: MemoryCall)
    requires Valid(m) && Possible(w, m, c) && !c.Work?
    ensures Evolves(m, c, AccountCall(w, m, c))
  {
    hide Valid, Evolves;
    match c {
      case Login(claims, token, id, now) => LoginEvolves(m, c);
      case Issue(who, request, draw, now) => CreateEvolves(m, c, T.NewToken(w, who, request, draw, now));
      case Exchange(who, description, draw, now) =>
        CreateEvolves(m, c, T.NewToken(w, who, T.ExchangeRequest(who, description), draw, now));
      case Revoke(who, session, first, now) => RevokeEvolves(m, c);
    }
  }

  lemma ServiceCallKeeps(m: Mem, m': Mem, c: MemoryCall)
    requires Valid(m) && KeepsPeople(m, InMemory(m')) && PackagesAgree(m'.packages, m'.packagesById) && c.Work?
    ensures Evolves(m, c, m')
  {}

  /** One call of either kind. */
  lemma CallKeeps(w: World, m: Mem, blobs: C.Blobs, c: MemoryCall)
    requires Valid(m) && Possible(w, m, c)
    ensures Next(w, m, blobs, c).repo.InMemory? && Evolves(m, c, Next(w, m, blobs, c).repo.m)
  {
    hide Valid, Evolves;
    if c.Work? {
      ValidPackages(m);
      WorkKeeps(w, m, blobs, c.call);
      ServiceCallKeeps(m, Next(w, m, blobs, c).repo.m, c);
    } else {
      AccountCallKeeps(w, m, c);
    }
  }

  lemma ValidPackages(m: Mem)
    requires Valid(m)
    ensures PackagesAgree(m.packages, m.packagesById)
  {}

  // ---------- whole runs ----------

  lemma EvolvesFrom(m: Mem, c: MemoryCall, m': Mem)
    requires Evolves(m, c, m')
    ensures Valid(m') && Lasts(m, m')
  {}

  lemma LastsTwice(a: Mem, b: Mem, c: Mem)
    ensures Lasts(a, a)
    ensures Lasts(a, b) && Lasts(b, c) ==> Lasts(a, c)
  {}

  lemma {:induction false} RunKeeps(w: World, m: Mem, blobs: C.Blobs, calls: seq<MemoryCall>)
    requires Valid(m) && AllPossible(w, InMemory(m), blobs, calls)
    ensures var r := RunAll(w, InMemory(m), blobs, calls);
      r.InMemory? && Valid(r.m) && Lasts(m, r.m)
    decreases |calls|
  {
    hide Valid, Lasts, Evolves, Next;
    LastsTwice(m, m, m);
    if calls != [] {
      CallKeeps(w, m, blobs, calls[0]);
      var g := Next(w, m, blobs, calls[0]);
      EvolvesFrom(m, calls[0], g.repo.m);
      RunKeeps(w, g.repo.m, g.blobs, calls[1..]);
      LastsTwice(m, g.repo.m, RunAll(w, g.repo, g.blobs, calls[1..]).m);
    }
  }

  /** After every run of service calls, logins and token calls from an empty registry, the name and
      id indexes of packages are inverse and hold the same rows, those of accounts too; and over any
      further calls no subject's account id changes. */
  lemma IndexesAgree(w: World, blobs: C.Blobs, calls: seq<MemoryCall>, more: seq<MemoryCall>, later: C.Blobs)
    requires AllPossible(w, InMemory(MemoryModel.EMPTY), blobs, calls)
    requires var r := RunAll(w, InMemory(MemoryModel.EMPTY), blobs, calls);
      AllPossible(w, r, later, more)
    ensures var r := RunAll(w, InMemory(MemoryModel.EMPTY), blobs, calls);
      && r.InMemory? && PackagesAgree(r.m.packages, r.m.packagesById) && AccountsAgree(r.m)
      && var r' := RunAll(w, r, later, more);
         r'.InMemory?
         && forall s | s in r.m.accounts :: s in r'.m.accounts && r'.m.accounts[s].id == r.m.accounts[s].id
  {
    hide Next, Possible, AllPossible, RunAll;
    RunKeeps(w, MemoryModel.EMPTY, blobs, calls);
    var r := RunAll(w, InMemory(MemoryModel.EMPTY), blobs, calls);
    RunKeeps(w, r.m, later, more);
  }

  // ---------- what becomes of a token ----------

  predicate Killed(calls: seq<MemoryCall>, token: StoreToken) {
    exists i :: 0 <= i < |calls| && Kills(calls[i], token)
  }

  lemma KillsSame(c: MemoryCall, a: StoreToken, b: StoreToken)
    requires SameToken(a, b)
    ensures Kills(c, a) <==> Kills(c, b)
  {}

  /** A stored token is revoked in the end exactly when it was at the start or some call of the run
      names its account and session; nothing else about it changes. */
  lemma {:induction false} RevokedExactly(w: World, m: Mem, blobs: C.Blobs, calls: seq<MemoryCall>, h: string)
    requires Valid(m) && AllPossible(w, InMemory(m), blobs, calls) && h in m.tokens
    ensures var r := RunAll(w, InMemory(m), blobs, calls);
      && r.InMemory? && h in r.m.tokens && SameToken(m.tokens[h], r.m.tokens[h])
      && (r.m.tokens[h].revokedAt.Some? <==> m.tokens[h].revokedAt.Some? || Killed(calls, m.tokens[h]))
    decreases |calls|
  {
    hide Valid, Next;
    if calls != [] {
      CallKeeps(w, m, blobs, calls[0]);
      var g := Next(w, m, blobs, calls[0]);
      var token := g.repo.m.tokens[h];
      RevokedExactly(w, g.repo.m, g.blobs, calls[1..], h);
      forall c ensures Kills(c, m.tokens[h]) <==> Kills(c, token) { KillsSame(c, m.tokens[h], token); }
      assert forall i | 0 < i < |calls| :: calls[i] == calls[1..][i - 1];
      assert forall i | 0 <= i < |calls| - 1 :: calls[1..][i] == calls[i + 1];
      assert Killed(calls, m.tokens[h]) <==> Kills(calls[0], m.tokens[h]) || Killed(calls[1..], token);
    }
  }

  /** Whether a stored token of a known account authenticates after any run is decided by four things
      only: it was not revoked before, no call of the run revokes it, and it has not expired. */
  lemma AuthenticatesExactly(w: World, m: Mem, blobs: C.Blobs, calls: seq<MemoryCall>, raw: string, now: Time)
    requires Valid(m) && AllPossible(w, InMemory(m), blobs, calls)
    requires w.hashToken(raw) in m.tokens && m.tokens[w.hashToken(raw)].accountId in m.accountsById
    ensures var token := m.tokens[w.hashToken(raw)];
      var r := RunAll(w, InMemory(m), blobs, calls);
      && r.InMemory?
      && (T.AuthenticateToken(w, r.m, raw, now).Accepted?
          <==> token.revokedAt.None? && !Killed(calls, token) && now <= token.validUntil)
  {
    hide Valid, Next, Possible, AllPossible, RunAll;
    RunKeeps(w, m, blobs, calls);
    RevokedExactly(w, m, blobs, calls, w.hashToken(raw));
  }

  /** Once a token is revoked or expired it never authenticates again, whatever calls follow. */
  lemma DeadTokenStaysDead(w: World, m: Mem, blobs: C.Blobs, calls: seq<MemoryCall>, raw: string, now: Time,
                           later: Time)
    requires Valid(m) && AllPossible(w, InMemory(m), blobs, calls) && now <= later
    requires w.hashToken(raw) in m.tokens && !T.Usable(m.tokens[w.hashToken(raw)], now)
    ensures var r := RunAll(w, InMemory(m), blobs, calls);
      r.InMemory? && T.AuthenticateToken(w, r.m, raw, later).Rejected?
  {
    hide Valid, Next, Possible, AllPossible, RunAll;
    RevokedExactly(w, m, blobs, calls, w.hashToken(raw));
  }
}
