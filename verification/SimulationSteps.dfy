/** Each charm call over `repo.Memory` and over the tables: equal answers, and the two still agree. */
module SimulationSteps {
  import opened Core
  import opened Invariants
  import opened Repository
  import opened Access
  import opened Sessions
  import opened Simulation
  import M = MemoryModel
  import Sql = Tables
  import C = Calls
  import MS = MemorySessions
  import RT = ReleaseTheorems

  type Mem = M.Mem

  // ---------- packages ----------

  /** `pkg` is the stored package with other values in the columns that an update may change. */
  predicate UpdateOf(pkg: Package, stored: Package) {
    pkg == stored.(isPrivate := pkg.isPrivate, status := pkg.status, defaultTrack := pkg.defaultTrack,
                   texts := pkg.texts, updatedAt := pkg.updatedAt)
  }

  lemma UpdateRow(packages: map<Id, Package>, rows: map<Id, Package>, tracks: map<(Id, string), Track>, pkg: Package)
    requires SamePackages(packages, rows) && SameTracks(packages, tracks)
    requires pkg.id in packages && UpdateOf(pkg, packages[pkg.id])
    ensures pkg.id in rows
    ensures SamePackages(packages[pkg.id := pkg], rows[pkg.id := Sql.Patched(rows[pkg.id], Bare(pkg))])
    ensures SameTracks(packages[pkg.id := pkg], tracks)
  {}

  lemma UpdateAgrees(m: Mem, t: Sql.Tables, pkg: Package)
    requires Agree(m, t) && pkg.name in m.packages
    requires pkg.id in m.packagesById && UpdateOf(pkg, m.packagesById[pkg.id])
    ensures M.UpdatePackage(m, pkg).1 == Pass && Sql.UpdatePackage(t, Bare(pkg)).1 == Pass
    ensures Agree(M.UpdatePackage(m, pkg).0, Sql.UpdatePackage(t, Bare(pkg)).0)
  {
    hide SamePackages, SameTracks, SameRevisions, SameReleases, UpdateOf;
    UpdateRow(m.packagesById, t.packages, t.tracks, pkg);
  }

  const TAKEN := Api(409, "already-registered", "package already exists")

  lemma RegisterMemory(m: Mem, who: Identity, name: string, kind: string, isPrivate: bool, id: Id, now: Time)
    ensures var allowed := RequirePermission(who, REGISTER_PACKAGE);
      var pkg := C.NewPackage(who, name, kind, isPrivate, id, now);
      C.RegisterPackage(InMemory(m), who, name, kind, isPrivate, id, now)
      == if allowed.Fail? then (InMemory(m), Err(allowed.error))
         else if name in m.packages then (InMemory(m), Err(TAKEN))
         else (InMemory(M.PutPackage(m, pkg)), Ok(pkg))
  {
    hide RequirePermission;
    var pkg := C.NewPackage(who, name, kind, isPrivate, id, now);
    assert pkg.tracks[..0] == [];
    assert M.HasTrack(pkg.tracks, "latest") by { assert pkg.tracks[0].name == "latest"; }
    assert M.AddTracks(pkg.tracks, pkg.tracks) == pkg.tracks;
    var m1 := M.PutPackage(m, pkg);
    assert M.PutPackageUnder(m1, id, pkg) == m1;
  }

  function Registered(t: Sql.Tables, pkg: Package): Sql.Tables
    requires pkg.tracks != []
  {
    t.(packages := t.packages[pkg.id := Bare(pkg)], names := t.names[pkg.name := pkg.id],
       tracks := t.tracks[(pkg.id, pkg.tracks[0].name) := pkg.tracks[0]])
  }

  lemma RegisterTables(t: Sql.Tables, who: Identity, name: string, kind: string, isPrivate: bool, id: Id, now: Time)
    requires id !in t.packages && (who.authenticated ==> who.accountId in t.accounts) && (id, "latest") !in t.tracks
    ensures var allowed := RequirePermission(who, REGISTER_PACKAGE);
      var pkg := C.NewPackage(who, name, kind, isPrivate, id, now);
      C.RegisterPackage(Postgres(t), who, name, kind, isPrivate, id, now)
      == if allowed.Fail? then (Postgres(t), Err(allowed.error))
         else if name in t.names then (Postgres(t), Err(TAKEN))
         else (Postgres(Registered(t, pkg)), Ok(pkg))
  {
    if RequirePermission(who, REGISTER_PACKAGE).Pass? && name !in t.names {
      Authenticated(who, REGISTER_PACKAGE);
      hide RequirePermission;
      var pkg := C.NewPackage(who, name, kind, isPrivate, id, now);
      var t1 := Sql.CreatePackage(t, pkg).0;
      assert pkg.tracks[..0] == [];
      assert InsertTracks(t1, id, []) == (t1, Count(0, Pass));
      assert InsertTracks(t1, id, pkg.tracks) == (Registered(t, pkg), Count(1, Pass));
    }
  }

  lemma GrantsRefl(t: Sql.Tables)
    ensures SameGrants(t, t) && SameRows(t, t)
  {}

  lemma UpdateGrants(t: Sql.Tables, pkg: Package)
    ensures SameGrants(t, Sql.UpdatePackage(t, pkg).0) && SameRows(t, Sql.UpdatePackage(t, pkg).0)
  {}

  lemma RegisterAgrees(drawn: set<Id>, m: Mem, t: Sql.Tables, who: Identity, name: string, kind: string,
                       isPrivate: bool, id: Id, now: Time)
    requires Simulates(drawn, m, t) && id !in drawn
    requires who.authenticated ==> who.accountId in t.accounts && who.accountId != ""
    ensures var (rm, am) := C.RegisterPackage(InMemory(m), who, name, kind, isPrivate, id, now);
      var (rt, at) := C.RegisterPackage(Postgres(t), who, name, kind, isPrivate, id, now);
      am == at && rm.InMemory? && rt.Postgres? && Agree(rm.m, rt.t) && SameGrants(t, rt.t) && SameRows(t, rt.t)
  {
    hide Consistent, SamePackages, SameTracks, SameRevisions, SameReleases, C.RegisterPackage;
    Indexed(t);
    SameByName(m, t, name);
    NewId(drawn, m, t, id);
    RegisterMemory(m, who, name, kind, isPrivate, id, now);
    RegisterTables(t, who, name, kind, isPrivate, id, now);
    var pkg := C.NewPackage(who, name, kind, isPrivate, id, now);
    if name !in m.packages {
      NewTracks(m.packagesById, t.packages, t.tracks, pkg);
    }
  }

  /** The grants are the same, and owners keep having ids. */
  ghost predicate SameGrants(t: Sql.Tables, u: Sql.Tables) {
    u.acl == t.acl && u.accounts == t.accounts && (OwnersNamed(t.packages) ==> OwnersNamed(u.packages))
  }

  predicate SameRows(t: Sql.Tables, u: Sql.Tables) {
    u.uploads == t.uploads && u.revisions == t.revisions && u.releases == t.releases
  }

  lemma NewId(drawn: set<Id>, m: Mem, t: Sql.Tables, id: Id)
    requires Simulates(drawn, m, t) && id !in drawn
    ensures id !in t.packages && id !in m.packagesById && forall name :: (id, name) !in t.tracks
  {}

  lemma Authenticated(who: Identity, permission: string)
    requires RequirePermission(who, permission).Pass?
    ensures who.authenticated
  {}

  lemma NewTracks(packages: map<Id, Package>, rows: map<Id, Package>, tracks: map<(Id, string), Track>, pkg: Package)
    requires SamePackages(packages, rows) && SameTracks(packages, tracks) && pkg.id !in packages && |pkg.tracks| == 1
    ensures SamePackages(packages[pkg.id := pkg], rows[pkg.id := Bare(pkg)])
    ensures SameTracks(packages[pkg.id := pkg], tracks[(pkg.id, pkg.tracks[0].name) := pkg.tracks[0]])
  {
    assert M.HasTrack(pkg.tracks, pkg.tracks[0].name);
  }

  lemma DropRow(packages: map<Id, Package>, rows: map<Id, Package>, tracks: map<(Id, string), Track>, p: Id)
    requires SamePackages(packages, rows) && SameTracks(packages, tracks)
    ensures SamePackages(packages - {p}, rows - {p})
    ensures SameTracks(packages - {p}, map k | k in tracks && k.0 != p :: tracks[k])
  {}

  /** Deleting a package without revisions: it has no releases either. */
  lemma DeleteAgrees(m: Mem, t: Sql.Tables, p: Id)
    requires Consistent(t) && Agree(m, t) && p in t.packages && p in m.packagesById && Sql.Numbers(t, p) == {}
      && t.acl == map[]
    ensures M.DeletePackage(m, p).1 == Pass && Sql.DeletePackage(t, p).1 == Pass
    ensures var u := Sql.DeletePackage(t, p).0;
      Agree(M.DeletePackage(m, p).0, u) && SameGrants(t, u) && SameRows(t, u)
  {
    hide Consistent, SamePackages, SameTracks, SameRevisions, SameReleases;
    NoRows(t, p);
    DropRow(m.packagesById, t.packages, t.tracks, p);
    var u := Sql.DeletePackage(t, p).0;
    assert u.revisions == t.revisions;
    assert u.releases == t.releases;
  }

  lemma AgreeRevisions(m: Mem, t: Sql.Tables)
    requires Agree(m, t)
    ensures SameRevisions(m.revisions, t.revisions)
  {}

  lemma UnregisterAgrees(drawn: set<Id>, m: Mem, t: Sql.Tables, who: Identity, name: string)
    requires Simulates(drawn, m, t)
    ensures var (rm, am) := C.UnregisterPackage(InMemory(m), who, name);
      var (rt, at) := C.UnregisterPackage(Postgres(t), who, name);
      am == at && rm.InMemory? && rt.Postgres? && Agree(rm.m, rt.t) && SameGrants(t, rt.t) && SameRows(t, rt.t)
  {
    hide Simulates, Agree, Consistent, SameRevisions, C.Managed, SameGrants, SameRows;
    SameManaged(drawn, m, t, who, name, PACKAGE_MANAGE);
    SimulatesAgree(drawn, m, t);
    GrantsRefl(t);
    var found := C.Managed(InMemory(m), who, name, PACKAGE_MANAGE);
    if found.Ok? {
      AgreeRevisions(m, t);
      SameLatest(m, t, found.value.id);
      if Sql.Numbers(t, found.value.id) == {} {
        DeleteAgrees(m, t, found.value.id);
      }
    }
  }

  lemma NoRows(t: Sql.Tables, p: Id)
    requires Consistent(t) && Sql.Numbers(t, p) == {}
    ensures forall k | k in t.revisions :: k.0 != p
    ensures forall k | k in t.releases :: k.0 != p
  {
    forall k | k in t.revisions ensures k.0 != p {
      assert k == (k.0, k.1);
      assert k.0 == p ==> k.1 in Sql.Numbers(t, p);
    }
    forall k | k in t.releases ensures k.0 != p {
      assert (k.0, t.releases[k].revision) in t.revisions;
    }
  }

  // ---------- tracks ----------

  ghost predicate SameTrackList(list: seq<Track>, rows: map<(Id, string), Track>, p: Id) {
    && (forall i | 0 <= i < |list| :: (p, list[i].name) in rows && rows[(p, list[i].name)] == list[i])
    && (forall k | k in rows && k.0 == p :: M.HasTrack(list, k.1))
  }

  lemma HasTrackMore(list: seq<Track>, track: Track, name: string)
    ensures M.HasTrack(list + [track], name) <==> M.HasTrack(list, name) || track.name == name
  {
    if M.HasTrack(list, name) {
      var i :| 0 <= i < |list| && list[i].name == name;
      assert (list + [track])[i].name == name;
    }
    assert (list + [track])[|list|] == track;
  }

  /** Appending the new tracks in memory is inserting them one by one. */
  ghost predicate OtherTracks(p: Id, rows: map<(Id, string), Track>, rows': map<(Id, string), Track>) {
    && (forall k: (Id, string) | k.0 != p :: k in rows' <==> k in rows)
    && (forall k: (Id, string) | k in rows && k.0 != p :: rows'[k] == rows[k])
  }

  lemma InsertOne(list: seq<Track>, t: Sql.Tables, p: Id, track: Track)
    requires p in t.packages && SameTrackList(list, t.tracks, p)
    ensures var all := if M.HasTrack(list, track.name) then list else list + [track];
      var (u, out) := Sql.CreateTrack(t, p, track);
      && out == Ok(|all| - |list|) && u == t.(tracks := u.tracks)
      && SameTrackList(all, u.tracks, p) && OtherTracks(p, t.tracks, u.tracks)
  {
    forall name { HasTrackMore(list, track, name); }
    assert M.HasTrack(list, track.name) <==> (p, track.name) in t.tracks;
  }

  lemma OthersTwice(p: Id, a: map<(Id, string), Track>, b: map<(Id, string), Track>, c: map<(Id, string), Track>)
    ensures OtherTracks(p, a, a)
    ensures OtherTracks(p, a, b) && OtherTracks(p, b, c) ==> OtherTracks(p, a, c)
  {}

  /** Appending the new tracks in memory is inserting them one by one. */
  lemma {:induction false} InsertAgrees(list: seq<Track>, t: Sql.Tables, p: Id, tracks: seq<Track>)
    requires p in t.packages && SameTrackList(list, t.tracks, p)
    ensures var all := M.AddTracks(list, tracks);
      var (u, out) := InsertTracks(t, p, tracks);
      && |all| >= |list| && out == Count(|all| - |list|, Pass)
      && u == t.(tracks := u.tracks) && SameTrackList(all, u.tracks, p) && OtherTracks(p, t.tracks, u.tracks)
    decreases |tracks|
  {
    hide SameTrackList, OtherTracks, M.HasTrack;
    OthersTwice(p, t.tracks, t.tracks, t.tracks);
    if tracks != [] {
      var init, last := tracks[..|tracks| - 1], tracks[|tracks| - 1];
      InsertAgrees(list, t, p, init);
      var u := InsertTracks(t, p, init).0;
      InsertOne(M.AddTracks(list, init), u, p, last);
      OthersTwice(p, t.tracks, u.tracks, Sql.CreateTrack(u, p, last).0.tracks);
    }
  }

  lemma TrackListOf(packages: map<Id, Package>, rows: map<(Id, string), Track>, p: Id)
    requires SameTracks(packages, rows) && p in packages
    ensures SameTrackList(packages[p].tracks, rows, p)
  {}

  lemma PutTracks(m: Mem, t: Sql.Tables, p: Id, all: seq<Track>, rows: map<(Id, string), Track>)
    requires p in m.packagesById && SamePackages(m.packagesById, t.packages) && SameTracks(m.packagesById, t.tracks)
    requires SameTrackList(all, rows, p) && OtherTracks(p, t.tracks, rows)
    ensures var packages := m.packagesById[p := m.packagesById[p].(tracks := all)];
      SamePackages(packages, t.packages) && SameTracks(packages, rows)
  {}

  lemma CreateTracksAgree(m: Mem, t: Sql.Tables, p: Id, tracks: seq<Track>)
    requires Agree(m, t) && p in m.packagesById && p in t.packages
    ensures var (m', am) := M.CreateTracks(m, p, tracks);
      var (t', at) := InsertTracks(t, p, tracks);
      am == at && Agree(m', t') && SameGrants(t, t') && SameRows(t, t')
  {
    hide SamePackages, SameTracks, SameRevisions, SameReleases, SameTrackList, OtherTracks;
    var pkg := m.packagesById[p];
    TrackListOf(m.packagesById, t.tracks, p);
    InsertAgrees(pkg.tracks, t, p, tracks);
    PutTracks(m, t, p, M.AddTracks(pkg.tracks, tracks), InsertTracks(t, p, tracks).0.tracks);
  }

  lemma TracksAgree(drawn: set<Id>, m: Mem, t: Sql.Tables, who: Identity, name: string, tracks: seq<Track>, now: Time)
    requires Simulates(drawn, m, t)
    ensures var (rm, am) := C.AddPackageTracks(InMemory(m), who, name, tracks, now);
      var (rt, at) := C.AddPackageTracks(Postgres(t), who, name, tracks, now);
      am == at && rm.InMemory? && rt.Postgres? && Agree(rm.m, rt.t) && SameGrants(t, rt.t) && SameRows(t, rt.t)
  {
    hide Simulates, Agree, C.Managed, C.StampTracks, M.CreateTracks, InsertTracks, SameGrants, SameRows;
    SameManaged(drawn, m, t, who, name, MANAGE_METADATA);
    GrantsRefl(t);
    var found := C.Managed(InMemory(m), who, name, MANAGE_METADATA);
    SimulatesAgree(drawn, m, t);
    if found.Ok? {
      CreateTracksAgree(m, t, found.value.id, C.StampTracks(tracks, now));
    }
  }

  lemma SimulatesAgree(drawn: set<Id>, m: Mem, t: Sql.Tables)
    requires Simulates(drawn, m, t)
    ensures Agree(m, t) && Consistent(t) && OwnersOnly(t) && IndexAgrees(t.packages, t.names)
    ensures MS.PackagesAgree(m.packages, m.packagesById)
  {}

  lemma PatchIsUpdate(pkg: Package, patch: C.Patch, now: Time)
    ensures UpdateOf(C.ApplyPatch(pkg, patch, now), pkg)
    ensures Bare(C.ApplyPatch(pkg, patch, now)) == C.ApplyPatch(Bare(pkg), patch, now)
    ensures C.ApplyPatch(pkg, patch, now).id == pkg.id && C.ApplyPatch(pkg, patch, now).name == pkg.name
    ensures C.ApplyPatch(pkg, patch, now).owner == pkg.owner
  {}

  lemma PatchAgrees(w: World, drawn: set<Id>, m: Mem, t: Sql.Tables, who: Identity, name: string, patch: C.Patch,
                    now: Time)
    requires Simulates(drawn, m, t)
    ensures var (rm, am) := C.PatchPackage(w, InMemory(m), who, name, patch, now);
      var (rt, at) := C.PatchPackage(w, Postgres(t), who, name, patch, now);
      && BareResult(am) == BareResult(at) && rm.InMemory? && rt.Postgres? && Agree(rm.m, rt.t)
      && SameGrants(t, rt.t) && SameRows(t, rt.t)
  {
    hide Simulates, Agree, Consistent, OwnersOnly, C.Managed, C.ApplyPatch, UpdateOf, SameGrants, SameRows;
    SameManaged(drawn, m, t, who, name, MANAGE_METADATA);
    SimulatesAgree(drawn, m, t);
    GrantsRefl(t);
    var found := C.Managed(InMemory(m), who, name, MANAGE_METADATA);
    if found.Ok? {
      UpdateGrants(t, C.ApplyPatch(Bare(found.value), patch, now));
      PatchIsUpdate(found.value, patch, now);
      UpdateAgrees(m, t, C.ApplyPatch(found.value, patch, now));
    }
  }

  // ---------- revisions ----------

  lemma CreateRevisionAgrees(drawn: set<Id>, m: Mem, t: Sql.Tables, r: Revision)
    requires Simulates(drawn, m, t) && r.id !in drawn && r.packageId in t.packages
    requires r.number == C.NextNumber(Sql.GetLatestRevision(t, r.packageId))
    ensures Sql.CreateRevision(t, r) == (t.(revisions := t.revisions[(r.packageId, r.number) := r]), Pass)
    ensures Agree(M.CreateRevision(m, r), Sql.CreateRevision(t, r).0)
  {
    hide Consistent, IdsDrawn, SamePackages, SameTracks, SameReleases;
    SameLatest(m, t, r.packageId);
    AppendRevision(m.revisions, t.revisions, r);
  }

  lemma AppendRevision(lists: map<Id, seq<Revision>>, rows: Revisions, r: Revision)
    requires SameRevisions(lists, rows) && r.number == |M.Get(lists, r.packageId, [])| + 1
    ensures (r.packageId, r.number) !in rows
    ensures SameRevisions(lists[r.packageId := M.Get(lists, r.packageId, []) + [r]], rows[(r.packageId, r.number) := r])
  {
    var list := M.Get(lists, r.packageId, []);
    var lists', rows' := lists[r.packageId := list + [r]], rows[(r.packageId, r.number) := r];
    assert SameRevision(list, rows, r.packageId, r.number);
    forall p, n ensures SameRevision(M.Get(lists', p, []), rows', p, n) {
      assert SameRevision(M.Get(lists, p, []), rows, p, n);
      if p == r.packageId {
        assert M.Get(lists', p, []) == list + [r];
      } else {
        assert M.Get(lists', p, []) == M.Get(lists, p, []);
      }
    }
  }

  lemma {:induction false} UpsertAllMemory(m: Mem, p: Id, archive: Archive, order: seq<(string, Id)>, now: Time)
    ensures var (r, out) := C.UpsertAll(InMemory(m), p, archive, order, now);
      out == Pass && r.InMemory? && r.m == m.(defs := r.m.defs)
    decreases |order|
  {
    if order != [] {
      var (name, id) := order[0];
      if name in archive.resources {
        UpsertAllMemory(M.UpsertDefinition(m, C.Definition(p, name, archive.resources[name], id, now)), p, archive,
                        order[1..], now);
      } else {
        UpsertAllMemory(m, p, archive, order[1..], now);
      }
    }
  }

  ghost predicate DefinitionsDrawn(drawn: set<Id>, defs: Definitions) {
    forall k | k in defs :: defs[k].id in drawn
  }

  lemma UpsertPasses(drawn: set<Id>, t: Sql.Tables, d: ResourceDefinition)
    requires DefinitionsDrawn(drawn, t.defs) && d.packageId in t.packages && d.id !in drawn
    ensures var (u, out) := Sql.UpsertDefinition(t, d);
      out == Pass && u == t.(defs := u.defs) && DefinitionsDrawn(drawn + {d.id}, u.defs)
  {}

  lemma {:induction false} UpsertAllTables(drawn: set<Id>, t: Sql.Tables, p: Id, archive: Archive,
                                           order: seq<(string, Id)>, now: Time)
    requires DefinitionsDrawn(drawn, t.defs) && p in t.packages && OrderIds(order) !! drawn && Distinct(Seconds(order))
    ensures var (r, out) := C.UpsertAll(Postgres(t), p, archive, order, now);
      out == Pass && r.Postgres? && r.t == t.(defs := r.t.defs)
    decreases |order|
  {
    if order != [] {
      var (name, id) := order[0];
      var rest := order[1..];
      OrderTail(order);
      hide OrderIds, Seconds, DefinitionsDrawn;
      if name in archive.resources {
        var d := C.Definition(p, name, archive.resources[name], id, now);
        UpsertPasses(drawn, t, d);
        UpsertAllTables(drawn + {id}, Sql.UpsertDefinition(t, d).0, p, archive, rest, now);
      } else {
        UpsertAllTables(drawn, t, p, archive, rest, now);
      }
    }
  }

  // ---------- uploads ----------

  lemma ReviewAgrees(m: Mem, t: Sql.Tables, u: Id, n: Option<int>, errors: seq<string>, now: Time)
    requires Agree(m, t) && u in m.uploads
    ensures var (m', am) := M.ApproveUpload(m, u, n, errors, now);
      var (t', at) := Sql.ApproveUpload(t, u, n, errors, now);
      && am == Pass && at == Pass && Agree(m', t')
      && m' == m.(uploads := m'.uploads) && t' == t.(uploads := t'.uploads) && t'.uploads.Keys == t.uploads.Keys
  {
    hide SamePackages, SameTracks, SameRevisions, SameReleases;
  }

  // ---------- pushing ----------

  lemma PublishedIsUpdate(w: World, pkg: Package, archive: Archive, now: Time)
    ensures UpdateOf(C.Published(w, pkg, archive, now), pkg)
    ensures Bare(C.Published(w, pkg, archive, now)) == C.Published(w, Bare(pkg), archive, now)
    ensures C.Published(w, pkg, archive, now).id == pkg.id && C.Published(w, pkg, archive, now).name == pkg.name
    ensures C.Published(w, pkg, archive, now).owner == pkg.owner
  {}

  lemma KeepsDefinitions(m: Mem, t: Sql.Tables, m': Mem, t': Sql.Tables)
    requires Agree(m, t) && m' == m.(defs := m'.defs) && t' == t.(defs := t'.defs)
    ensures Agree(m', t') && SameGrants(t, t') && SameRows(t, t')
  {}

  lemma AllDefinitionsDrawn(drawn: set<Id>, m: Mem, t: Sql.Tables)
    requires Simulates(drawn, m, t)
    ensures DefinitionsDrawn(drawn, t.defs)
  {}

  /** The row ids of `t`, and `id` as the id of one more revision. */
  ghost predicate OneMoreRevision(t: Sql.Tables, u: Sql.Tables, id: Id) {
    && u.uploads.Keys == t.uploads.Keys && u.releases == t.releases
    && forall k | k in u.revisions :: u.revisions[k].id == id || (k in t.revisions && u.revisions[k] == t.revisions[k])
  }

  lemma PushArchiveAgrees(w: World, drawn: set<Id>, m: Mem, t: Sql.Tables, who: Identity, name: string, pkg: Package,
                          up: Core.Upload, archive: Archive, id: Id, order: seq<(string, Id)>, now: Time)
    requires Simulates(drawn, m, t) && id !in drawn && OrderIds(order) !! drawn && Distinct(Seconds(order))
    requires pkg.name in m.packages && pkg.id in m.packagesById && m.packagesById[pkg.id] == pkg && pkg.id in t.packages
    requires up.id in m.uploads
    ensures var (rm, am) := C.PushArchive(w, InMemory(m), who, name, pkg, up, archive, id, order, now);
      var (rt, at) := C.PushArchive(w, Postgres(t), who, name, Bare(pkg), up, archive, id, order, now);
      && am == at && rm.InMemory? && rt.Postgres? && Agree(rm.m, rt.t)
      && SameGrants(t, rt.t) && OneMoreRevision(t, rt.t, id)
  {
    hide Simulates, Agree, Consistent, OwnersOnly, C.Published, UpdateOf, C.UpsertAll, C.NewRevision, DefinitionsDrawn,
         SameGrants, SameRows, SameRevisions, OneMoreRevision;
    SimulatesAgree(drawn, m, t);
    AllDefinitionsDrawn(drawn, m, t);
    AgreeRevisions(m, t);
    SameLatest(m, t, pkg.id);
    var n := C.NextNumber(Sql.GetLatestRevision(t, pkg.id));
    var rev := C.NewRevision(pkg.id, who, up, archive, n, id, now);
    RevisionIs(pkg.id, who, up, archive, n, id, now);
    CreateRevisionAgrees(drawn, m, t, rev);
    var m1, t1 := M.CreateRevision(m, rev), Sql.CreateRevision(t, rev).0;
    ReviewAgrees(m1, t1, up.id, Some(n), [], now);
    var m2, t2 := M.ApproveUpload(m1, up.id, Some(n), [], now).0, Sql.ApproveUpload(t1, up.id, Some(n), [], now).0;
    var pkg' := C.Published(w, pkg, archive, now);
    PublishedIsUpdate(w, pkg, archive, now);
    UpdateAgrees(m2, t2, pkg');
    var m3, t3 := M.UpdatePackage(m2, pkg').0, Sql.UpdatePackage(t2, Bare(pkg')).0;
    UpdateGrants(t2, Bare(pkg'));
    UpsertAllMemory(m3, pkg.id, archive, order, now);
    UpsertAllTables(drawn, t3, pkg.id, archive, order, now);
    var t4 := C.UpsertAll(Postgres(t3), pkg.id, archive, order, now).0.t;
    KeepsDefinitions(m3, t3, C.UpsertAll(InMemory(m3), pkg.id, archive, order, now).0.m, t4);
    PushedRows(t, t4, rev);
    GrantsThrough(t, t2, t3, t4);
  }

  lemma PushedRows(t: Sql.Tables, u: Sql.Tables, rev: Revision)
    requires u.uploads.Keys == t.uploads.Keys && u.releases == t.releases
    requires u.revisions == t.revisions[(rev.packageId, rev.number) := rev]
    ensures OneMoreRevision(t, u, rev.id)
  {}

  lemma GrantsThrough(a: Sql.Tables, b: Sql.Tables, c: Sql.Tables, d: Sql.Tables)
    requires b.acl == a.acl && b.accounts == a.accounts && b.packages == a.packages
    requires SameGrants(b, c) && SameGrants(c, d)
    ensures SameGrants(a, d)
  {}

  lemma RevisionIs(p: Id, who: Identity, up: Core.Upload, archive: Archive, n: int, id: Id, now: Time)
    ensures var rev := C.NewRevision(p, who, up, archive, n, id, now);
      rev.id == id && rev.packageId == p && rev.number == n
  {}
}
