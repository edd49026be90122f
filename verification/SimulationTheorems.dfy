/** `repo.Memory` simulates the Postgres tables: the same session of charm calls gives the same
    answers on both, and afterwards every lookup and every guard does. */
module SimulationTheorems {
  import opened Core
  import opened Invariants
  import opened Repository
  import opened Access
  import opened Sessions
  import opened Sequential
  import opened Simulation
  import opened SimulationSteps
  import M = MemoryModel
  import Sql = Tables
  import C = Calls
  import MS = MemorySessions
  import RT = ReleaseTheorems

  type Mem = M.Mem

  // ---------- releasing ----------

  lemma PutRelease(maps: map<Id, map<string, Release>>, rows: Releases, p: Id, r: Release, stored: Release)
    requires SameReleases(maps, rows) && RT.Shown(stored) == RT.Shown(r)
    ensures SameReleases(maps[p := M.Get(maps, p, map[])[r.channel := r]], rows[(p, r.channel) := stored])
  {
    hide RT.Shown;
    var list := M.Get(maps, p, map[]);
    assert forall c :: c in list <==> (p, c) in rows;
    assert forall c | c in list :: RT.Shown(rows[(p, c)]) == RT.Shown(list[c]);
    PutList(maps, rows, p, list[r.channel := r], r.channel, stored);
  }

  lemma PutList(maps: map<Id, map<string, Release>>, rows: Releases, p: Id, list: map<string, Release>, channel: string,
                stored: Release)
    requires SameReleases(maps, rows) && channel in list && RT.Shown(stored) == RT.Shown(list[channel])
    requires forall c | c != channel :: c in list <==> (p, c) in rows
    requires forall c | c in list && c != channel :: RT.Shown(rows[(p, c)]) == RT.Shown(list[c])
    ensures SameReleases(maps[p := list], rows[(p, channel) := stored])
  {
    hide RT.Shown;
    var maps', rows' := maps[p := list], rows[(p, channel) := stored];
    forall q, c | q in maps' && c in maps'[q]
      ensures (q, c) in rows' && RT.Shown(rows'[(q, c)]) == RT.Shown(maps'[q][c])
    {
      if q == p {
        assert maps'[q] == list;
        assert c != channel ==> rows'[(p, c)] == rows[(p, c)];
      } else {
        assert maps'[q] == maps[q] && rows'[(q, c)] == rows[(q, c)];
      }
    }
    forall k | k in rows' ensures k.0 in maps' && k.1 in maps'[k.0] {
      if k.0 == p {
        assert k == (p, k.1);
      } else {
        assert k in rows;
      }
    }
  }

  lemma ReplacedRow(t: Sql.Tables, p: Id, r: Release)
    requires p in t.packages && forall k | k in t.releases :: t.releases[k].id != r.id
    ensures var (t', out) := Sql.ReplaceRelease(t, p, r);
      var k := (p, r.channel);
      && out == Pass && k in t'.releases && t' == t.(releases := t.releases[k := t'.releases[k]])
      && RT.Shown(t'.releases[k]) == RT.Shown(r)
      && t'.releases[k].id == if k in t.releases then t.releases[k].id else r.id
  {}

  lemma ReplaceAgrees(m: Mem, t: Sql.Tables, p: Id, r: Release)
    requires Agree(m, t) && p in t.packages && forall k | k in t.releases :: t.releases[k].id != r.id
    ensures var m' := M.ReplaceRelease(m, p, r);
      var (t', out) := Sql.ReplaceRelease(t, p, r);
      out == Pass && Agree(m', t') && t' == t.(releases := t'.releases) && m' == m.(releases := m'.releases)
  {
    hide SamePackages, SameTracks, SameRevisions, SameReleases, Sql.ReplaceRelease, RT.Shown;
    ReplacedRow(t, p, r);
    PutRelease(m.releases, t.releases, p, r, Sql.ReplaceRelease(t, p, r).0.releases[(p, r.channel)]);
  }

  function Ids(ids: seq<Id>): set<Id> {
    set i | 0 <= i < |ids| :: ids[i]
  }

  ghost predicate ReleaseIdsIn(drawn: set<Id>, releases: Releases) {
    forall k | k in releases :: releases[k].id in drawn
  }

  /** Every request takes the id drawn for it: the JSON body cannot set one. */
  predicate NoOwnIds(requests: seq<Release>) {
    forall i | 0 <= i < |requests| :: requests[i].id == ""
  }

  lemma ReleaseOneAgrees(drawn: set<Id>, m: Mem, t: Sql.Tables, who: Identity, p: Id, request: Release, id: Id,
                         now: Time)
    requires Agree(m, t) && p in t.packages && request.id == "" && id !in drawn && ReleaseIdsIn(drawn, t.releases)
    ensures var (rm, om) := C.ReleaseOne(InMemory(m), who, p, request, id, now);
      var (rt, ot) := C.ReleaseOne(Postgres(t), who, p, request, id, now);
      && om == ot && rm.InMemory? && rt.Postgres? && Agree(rm.m, rt.t)
      && rt.t == t.(releases := rt.t.releases) && rm.m == m.(releases := rm.m.releases)
      && ReleaseIdsIn(drawn + {id}, rt.t.releases)
  {
    hide SamePackages, SameTracks, SameRevisions, SameReleases, EnforceChannel;
    SameNumbered(m, t, p, request.revision);
    ReplaceAgrees(m, t, p, C.StampRelease(request, id, now));
    ReplacedRow(t, p, C.StampRelease(request, id, now));
  }

  lemma {:induction false} ReleaseEachAgrees(drawn: set<Id>, m: Mem, t: Sql.Tables, who: Identity, p: Id,
                                             requests: seq<Release>, ids: seq<Id>, now: Time)
    requires Agree(m, t) && p in t.packages && |ids| == |requests| && NoOwnIds(requests)
    requires (forall i | 0 <= i < |ids| :: ids[i] !in drawn) && Distinct(ids) && ReleaseIdsIn(drawn, t.releases)
    ensures var (rm, km, om) := C.ReleaseEach(InMemory(m), who, p, requests, ids, now);
      var (rt, kt, ot) := C.ReleaseEach(Postgres(t), who, p, requests, ids, now);
      && om == ot && km == kt && rm.InMemory? && rt.Postgres? && Agree(rm.m, rt.t)
      && rt.t == t.(releases := rt.t.releases) && rm.m == m.(releases := rm.m.releases)
      && ReleaseIdsIn(drawn + Ids(ids), rt.t.releases)
    decreases |requests|
  {
    hide Agree, C.ReleaseOne, ReleaseIdsIn;
    var all := Ids(ids);
    MoreReleaseIds(drawn, drawn + all, t.releases);
    if requests != [] {
      ReleaseOneAgrees(drawn, m, t, who, p, requests[0], ids[0], now);
      var (rm, om) := C.ReleaseOne(InMemory(m), who, p, requests[0], ids[0], now);
      var (rt, ot) := C.ReleaseOne(Postgres(t), who, p, requests[0], ids[0], now);
      assert ids[0] in all;
      MoreReleaseIds(drawn + {ids[0]}, drawn + all, rt.t.releases);
      if om.Pass? {
        var rest := ids[1..];
        assert forall i | 0 <= i < |rest| :: rest[i] == ids[i + 1];
        ReleaseEachAgrees(drawn + {ids[0]}, rm.m, rt.t, who, p, requests[1..], rest, now);
        var tail := Ids(rest);
        assert tail <= all;
        MoreReleaseIds(drawn + {ids[0]} + tail, drawn + all,
                       C.ReleaseEach(rt, who, p, requests[1..], rest, now).0.t.releases);
      }
    }
  }

  lemma MoreReleaseIds(drawn: set<Id>, more: set<Id>, releases: Releases)
    requires drawn <= more && ReleaseIdsIn(drawn, releases)
    ensures ReleaseIdsIn(more, releases)
  {}

  lemma StatusIsUpdate(pkg: Package, now: Time)
    ensures var pkg' := pkg.(status := "published", updatedAt := now);
      UpdateOf(pkg', pkg) && Bare(pkg') == Bare(pkg).(status := "published", updatedAt := now)
  {}

  lemma StatusAgrees(was: Sql.Tables, m: Mem, t: Sql.Tables, pkg: Package, now: Time)
    requires Agree(m, t) && pkg.name in m.packages && pkg.id in m.packagesById && m.packagesById[pkg.id] == pkg
    requires SameGrants(was, t)
    ensures var (m', om) := M.UpdatePackage(m, pkg.(status := "published", updatedAt := now));
      var (t', ot) := Sql.UpdatePackage(t, Bare(pkg).(status := "published", updatedAt := now));
      om == Pass && ot == Pass && Agree(m', t') && SameGrants(was, t') && SameRows(t, t')
  {
    hide Agree, UpdateOf, SameGrants, SameRows;
    StatusIsUpdate(pkg, now);
    var pkg' := pkg.(status := "published", updatedAt := now);
    UpdateAgrees(m, t, pkg');
    UpdateGrants(t, Bare(pkg'));
    GrantsTwice(was, t, Sql.UpdatePackage(t, Bare(pkg')).0);
  }

  lemma ManagedReleaseAgrees(drawn: set<Id>, m: Mem, t: Sql.Tables, who: Identity, pkg: Package, requests: seq<Release>,
                             ids: seq<Id>, now: Time)
    requires Agree(m, t) && ReleaseIdsIn(drawn, t.releases) && |ids| == |requests| && NoOwnIds(requests)
    requires pkg.name in m.packages && pkg.id in m.packagesById && m.packagesById[pkg.id] == pkg && pkg.id in t.packages
    requires (forall i | 0 <= i < |ids| :: ids[i] !in drawn) && Distinct(ids)
    ensures var (rm, am) := C.ReleaseManaged(InMemory(m), who, pkg, requests, ids, now);
      var (rt, at) := C.ReleaseManaged(Postgres(t), who, Bare(pkg), requests, ids, now);
      && am == at && rm.InMemory? && rt.Postgres? && Agree(rm.m, rt.t)
      && SameGrants(t, rt.t) && rt.t.uploads == t.uploads && rt.t.revisions == t.revisions
      && ReleaseIdsIn(drawn + Ids(ids), rt.t.releases)
  {
    hide Agree, C.ReleaseEach, C.StampAll, SameGrants, ReleaseIdsIn, Ids;
    ReleaseEachAgrees(drawn, m, t, who, pkg.id, requests, ids, now);
    var (rm, km, om) := C.ReleaseEach(InMemory(m), who, pkg.id, requests, ids, now);
    var (rt, kt, ot) := C.ReleaseEach(Postgres(t), who, pkg.id, requests, ids, now);
    GrantsKept(t, rt.t);
    if om.Pass? {
      StatusAgrees(t, rm.m, rt.t, pkg, now);
    }
  }

  lemma PublishAgrees(drawn: set<Id>, m: Mem, t: Sql.Tables, who: Identity, name: string, requests: seq<Release>,
                      ids: seq<Id>, now: Time)
    requires Simulates(drawn, m, t) && |ids| == |requests| && NoOwnIds(requests)
    requires (forall i | 0 <= i < |ids| :: ids[i] !in drawn) && Distinct(ids)
    ensures var (rm, am) := C.Release(InMemory(m), who, name, requests, ids, now);
      var (rt, at) := C.Release(Postgres(t), who, name, requests, ids, now);
      && am == at && rm.InMemory? && rt.Postgres? && Agree(rm.m, rt.t)
      && SameGrants(t, rt.t) && rt.t.uploads == t.uploads && rt.t.revisions == t.revisions
      && ReleaseIdsIn(drawn + Ids(ids), rt.t.releases)
  {
    hide Simulates, Agree, Consistent, OwnersOnly, C.Managed, C.ReleaseManaged, SameGrants, ReleaseIdsIn, Ids;
    SameManaged(drawn, m, t, who, name, MANAGE_RELEASES);
    ReleasesDrawn(drawn, m, t);
    SimulatesAgree(drawn, m, t);
    GrantsRefl(t);
    MoreReleaseIds(drawn, drawn + Ids(ids), t.releases);
    var found := C.Managed(InMemory(m), who, name, MANAGE_RELEASES);
    if found.Ok? {
      ManagedReleaseAgrees(drawn, m, t, who, found.value, requests, ids, now);
    }
  }

  lemma ReleasesDrawn(drawn: set<Id>, m: Mem, t: Sql.Tables)
    requires Simulates(drawn, m, t)
    ensures ReleaseIdsIn(drawn, t.releases)
  {}

  lemma GrantsKept(t: Sql.Tables, u: Sql.Tables)
    requires u == t.(releases := u.releases)
    ensures SameGrants(t, u)
  {}

  lemma GrantsTwice(a: Sql.Tables, b: Sql.Tables, c: Sql.Tables)
    requires SameGrants(a, b) && SameGrants(b, c)
    ensures SameGrants(a, c)
  {}

  // ---------- uploading and pushing ----------

  lemma UploadAgrees(w: World, drawn: set<Id>, m: Mem, t: Sql.Tables, blobs: C.Blobs, filename: string, payload: Bytes,
                     id: Id, now: Time)
    requires Simulates(drawn, m, t) && id !in drawn
    ensures var (rm, bm, am) := C.CreateUpload(w, InMemory(m), blobs, filename, payload, id, now);
      var (rt, bt, at) := C.CreateUpload(w, Postgres(t), blobs, filename, payload, id, now);
      && am == at && bm == bt && rm.InMemory? && rt.Postgres? && Agree(rm.m, rt.t)
      && SameGrants(t, rt.t) && RowIdsDrawn(drawn + {id}, rt.t)
  {
    hide Consistent, SamePackages, SameTracks, SameRevisions, SameReleases;
  }

  /** One more revision row, under an id that is drawn by now. */
  lemma RowsAfterPush(drawn: set<Id>, more: set<Id>, t: Sql.Tables, u: Sql.Tables, id: Id)
    requires RowIdsDrawn(drawn, t) && OneMoreRevision(t, u, id) && drawn + {id} <= more
    ensures RowIdsDrawn(more, u)
  {}

  lemma RowsAfterRelease(drawn: set<Id>, more: set<Id>, t: Sql.Tables, u: Sql.Tables)
    requires RowIdsDrawn(drawn, t) && u.uploads == t.uploads && u.revisions == t.revisions && drawn <= more
    requires ReleaseIdsIn(more, u.releases)
    ensures RowIdsDrawn(more, u)
  {}

  lemma RowsAfter(drawn: set<Id>, more: set<Id>, t: Sql.Tables, u: Sql.Tables)
    requires RowIdsDrawn(drawn, t) && drawn <= more
    requires u.uploads.Keys == t.uploads.Keys && u.revisions == t.revisions && u.releases == t.releases
    ensures RowIdsDrawn(more, u)
  {}

  lemma ReviewGrants(t: Sql.Tables, u: Id, n: Option<int>, errors: seq<string>, now: Time)
    ensures SameGrants(t, Sql.ApproveUpload(t, u, n, errors, now).0)
  {}

  lemma SimulatesUploads(drawn: set<Id>, m: Mem, t: Sql.Tables)
    requires Simulates(drawn, m, t)
    ensures m.uploads == t.uploads && UploadsKeyed(t.uploads) && RowIdsDrawn(drawn, t)
  {}

  lemma ManagedPushAgrees(w: World, drawn: set<Id>, m: Mem, t: Sql.Tables, blobs: C.Blobs, who: Identity, name: string,
                          pkg: Package, uploadId: Id, id: Id, order: seq<(string, Id)>, now: Time)
    requires Simulates(drawn, m, t) && id !in drawn && OrderIds(order) !! drawn && Distinct(Seconds(order))
    requires pkg.name in m.packages && pkg.id in m.packagesById && m.packagesById[pkg.id] == pkg && pkg.id in t.packages
    ensures var (rm, am) := C.PushManaged(w, InMemory(m), blobs, who, name, pkg, uploadId, id, order, now);
      var (rt, at) := C.PushManaged(w, Postgres(t), blobs, who, name, Bare(pkg), uploadId, id, order, now);
      && am == at && rm.InMemory? && rt.Postgres? && Agree(rm.m, rt.t)
      && SameGrants(t, rt.t) && RowIdsDrawn(drawn + {id} + OrderIds(order), rt.t)
  {
    hide Simulates, Agree, Consistent, OwnersOnly, C.PushArchive, SameGrants, RowIdsDrawn, OrderIds, Seconds,
         OneMoreRevision;
    SimulatesAgree(drawn, m, t);
    SimulatesUploads(drawn, m, t);
    GrantsRefl(t);
    var more := drawn + {id} + OrderIds(order);
    RowsAfter(drawn, more, t, t);
    if uploadId in m.uploads && m.uploads[uploadId].objectKey in blobs {
      var up := m.uploads[uploadId];
      assert up.id == uploadId;
      var archive := w.parse(blobs[up.objectKey]);
      if archive.Some? {
        PushArchiveAgrees(w, drawn, m, t, who, name, pkg, up, archive.value, id, order, now);
        RowsAfterPush(drawn, more, t,
                      C.PushArchive(w, Postgres(t), who, name, Bare(pkg), up, archive.value, id, order, now).0.t, id);
      } else {
        ReviewAgrees(m, t, up.id, None, [C.INVALID_ARCHIVE], now);
        ReviewGrants(t, up.id, None, [C.INVALID_ARCHIVE], now);
        RowsAfter(drawn, more, t, Sql.ApproveUpload(t, up.id, None, [C.INVALID_ARCHIVE], now).0);
      }
    }
  }

  lemma PushAgrees(w: World, drawn: set<Id>, m: Mem, t: Sql.Tables, blobs: C.Blobs, who: Identity, name: string,
                   uploadId: Id, id: Id, order: seq<(string, Id)>, now: Time)
    requires Simulates(drawn, m, t) && id !in drawn && OrderIds(order) !! drawn && Distinct(Seconds(order))
    ensures var (rm, am) := C.PushRevision(w, InMemory(m), blobs, who, name, uploadId, id, order, now);
      var (rt, at) := C.PushRevision(w, Postgres(t), blobs, who, name, uploadId, id, order, now);
      && am == at && rm.InMemory? && rt.Postgres? && Agree(rm.m, rt.t)
      && SameGrants(t, rt.t) && RowIdsDrawn(drawn + {id} + OrderIds(order), rt.t)
  {
    hide Simulates, Agree, Consistent, OwnersOnly, C.Managed, C.PushManaged, SameGrants, RowIdsDrawn, OrderIds, Seconds;
    SameManaged(drawn, m, t, who, name, MANAGE_REVISIONS);
    SimulatesAgree(drawn, m, t);
    SimulatesUploads(drawn, m, t);
    GrantsRefl(t);
    RowsAfter(drawn, drawn + {id} + OrderIds(order), t, t);
    var found := C.Managed(InMemory(m), who, name, MANAGE_REVISIONS);
    if found.Ok? {
      ManagedPushAgrees(w, drawn, m, t, blobs, who, name, found.value, uploadId, id, order, now);
    }
  }

  // ---------- one call ----------

  /** The calls about packages, tracks, uploads, charm revisions and releases, made by nobody or by
      an account that exists; a release request cannot bring its own row id. */
  predicate CharmCall(accounts: set<Id>, c: Call) {
    match c
    case Register(who, _, _, _, _, _) => who.authenticated ==> who.accountId in accounts && who.accountId != ""
    case Publish(_, _, requests, _, _) => NoOwnIds(requests)
    case PushResource(_, _, _, _, _, _) => false
    case UpdateResources(_, _, _, _) => false
    case _ => true
  }

  /** The answer without the tracks that Memory embeds in a package. */
  function BareAnswer(a: Answer): Answer {
    match a
    case PackageAnswer(pkg) => PackageAnswer(BareResult(pkg))
    case _ => a
  }

  ghost predicate CallMatches(w: World, drawn: set<Id>, m: Mem, t: Sql.Tables, blobs: C.Blobs, c: Call)
    requires WellFormed(c)
  {
    var (gm, am) := Serve(w, Registry(InMemory(m), blobs), c);
    var (gt, at) := Serve(w, Registry(Postgres(t), blobs), c);
    && gm.blobs == gt.blobs && BareAnswer(am) == BareAnswer(at)
    && gm.repo.InMemory? && gt.repo.Postgres? && Agree(gm.repo.m, gt.repo.t)
    && SameGrants(t, gt.repo.t) && RowIdsDrawn(drawn + Draws(c), gt.repo.t)
  }

  lemma BareTwice(a: Result<Package>)
    ensures BareResult(BareResult(a)) == BareResult(a)
  {}

  lemma RowsStay(drawn: set<Id>, more: set<Id>, t: Sql.Tables, u: Sql.Tables)
    requires RowIdsDrawn(drawn, t) && SameRows(t, u)
    ensures RowIdsDrawn(drawn + more, u)
  {}

  lemma NewCallId(drawn: set<Id>, c: Call)
    requires Fresh(drawn, c) && (c.Register? || c.Upload? || c.PushRevision?)
    ensures c.id !in drawn
  {
    assert c.id in Draws(c);
  }

  lemma ServedRegister(w: World, g: Registry, c: Call)
    requires c.Register?
    ensures var (r, a) := C.RegisterPackage(g.repo, c.who, c.name, c.kind, c.isPrivate, c.id, c.now);
      Serve(w, g, c) == (g.(repo := r), PackageAnswer(a))
  {
    hide C.RegisterPackage;
  }

  lemma ServeRegister(w: World, drawn: set<Id>, m: Mem, t: Sql.Tables, blobs: C.Blobs, c: Call)
    requires Simulates(drawn, m, t) && Fresh(drawn, c) && CharmCall(t.accounts, c) && c.Register?
    ensures CallMatches(w, drawn, m, t, blobs, c)
  {
    hide Simulates, Agree, SameGrants, RowIdsDrawn, SameRows, Fresh, Serve, C.RegisterPackage;
    SimulatesUploads(drawn, m, t);
    NewCallId(drawn, c);
    ServedRegister(w, Registry(InMemory(m), blobs), c);
    ServedRegister(w, Registry(Postgres(t), blobs), c);
    RegisterAgrees(drawn, m, t, c.who, c.name, c.kind, c.isPrivate, c.id, c.now);
    RowsStay(drawn, Draws(c), t, C.RegisterPackage(Postgres(t), c.who, c.name, c.kind, c.isPrivate, c.id, c.now).0.t);
  }

  lemma ServePatch(w: World, drawn: set<Id>, m: Mem, t: Sql.Tables, blobs: C.Blobs, c: Call)
    requires Simulates(drawn, m, t) && Fresh(drawn, c) && CharmCall(t.accounts, c) && c.PatchMetadata?
    ensures CallMatches(w, drawn, m, t, blobs, c)
  {
    hide Simulates, Agree, SameGrants, RowIdsDrawn, SameRows, C.RegisterPackage, C.PatchPackage, C.UnregisterPackage,
         C.AddPackageTracks, C.CreateUpload, C.PushRevision, C.PushResource, C.UpdateResources, C.Release;
    SimulatesUploads(drawn, m, t);
    PatchAgrees(w, drawn, m, t, c.who, c.name, c.patch, c.now);
    BareTwice(C.PatchPackage(w, InMemory(m), c.who, c.name, c.patch, c.now).1);
    RowsStay(drawn, Draws(c), t, C.PatchPackage(w, Postgres(t), c.who, c.name, c.patch, c.now).0.t);
  }

  lemma ServeUnregister(w: World, drawn: set<Id>, m: Mem, t: Sql.Tables, blobs: C.Blobs, c: Call)
    requires Simulates(drawn, m, t) && Fresh(drawn, c) && CharmCall(t.accounts, c) && c.Unregister?
    ensures CallMatches(w, drawn, m, t, blobs, c)
  {
    hide Simulates, Agree, SameGrants, RowIdsDrawn, SameRows, C.RegisterPackage, C.PatchPackage, C.UnregisterPackage,
         C.AddPackageTracks, C.CreateUpload, C.PushRevision, C.PushResource, C.UpdateResources, C.Release;
    SimulatesUploads(drawn, m, t);
    UnregisterAgrees(drawn, m, t, c.who, c.name);
    RowsStay(drawn, Draws(c), t, C.UnregisterPackage(Postgres(t), c.who, c.name).0.t);
  }

  lemma ServeTracks(w: World, drawn: set<Id>, m: Mem, t: Sql.Tables, blobs: C.Blobs, c: Call)
    requires Simulates(drawn, m, t) && Fresh(drawn, c) && CharmCall(t.accounts, c) && c.Tracks?
    ensures CallMatches(w, drawn, m, t, blobs, c)
  {
    hide Simulates, Agree, SameGrants, RowIdsDrawn, SameRows, C.RegisterPackage, C.PatchPackage, C.UnregisterPackage,
         C.AddPackageTracks, C.CreateUpload, C.PushRevision, C.PushResource, C.UpdateResources, C.Release;
    SimulatesUploads(drawn, m, t);
    TracksAgree(drawn, m, t, c.who, c.name, c.tracks, c.now);
    RowsStay(drawn, Draws(c), t, C.AddPackageTracks(Postgres(t), c.who, c.name, c.tracks, c.now).0.t);
  }

  lemma ServeUpload(w: World, drawn: set<Id>, m: Mem, t: Sql.Tables, blobs: C.Blobs, c: Call)
    requires Simulates(drawn, m, t) && Fresh(drawn, c) && CharmCall(t.accounts, c) && c.Upload?
    ensures CallMatches(w, drawn, m, t, blobs, c)
  {
    hide Simulates, Agree, SameGrants, RowIdsDrawn, SameRows, C.RegisterPackage, C.PatchPackage, C.UnregisterPackage,
         C.AddPackageTracks, C.CreateUpload, C.PushRevision, C.PushResource, C.UpdateResources, C.Release;
    SimulatesUploads(drawn, m, t);
    UploadAgrees(w, drawn, m, t, blobs, c.filename, c.payload, c.id, c.now);
  }

  lemma ServePush(w: World, drawn: set<Id>, m: Mem, t: Sql.Tables, blobs: C.Blobs, c: Call)
    requires Simulates(drawn, m, t) && Fresh(drawn, c) && CharmCall(t.accounts, c) && c.PushRevision?
    ensures CallMatches(w, drawn, m, t, blobs, c)
  {
    hide Simulates, Agree, SameGrants, RowIdsDrawn, SameRows, C.RegisterPackage, C.PatchPackage, C.UnregisterPackage,
         C.AddPackageTracks, C.CreateUpload, C.PushRevision, C.PushResource, C.UpdateResources, C.Release;
    SimulatesUploads(drawn, m, t);
    PushAgrees(w, drawn, m, t, blobs, c.who, c.name, c.uploadId, c.id, c.order, c.now);
    assert drawn + Draws(c) == drawn + {c.id} + OrderIds(c.order);
  }

  lemma ServePublish(w: World, drawn: set<Id>, m: Mem, t: Sql.Tables, blobs: C.Blobs, c: Call)
    requires Simulates(drawn, m, t) && Fresh(drawn, c) && CharmCall(t.accounts, c) && c.Publish?
    ensures CallMatches(w, drawn, m, t, blobs, c)
  {
    hide Simulates, Agree, SameGrants, RowIdsDrawn, ReleaseIdsIn, C.RegisterPackage, C.PatchPackage,
         C.UnregisterPackage,
         C.AddPackageTracks, C.CreateUpload, C.PushRevision, C.PushResource, C.UpdateResources, C.Release;
    SimulatesUploads(drawn, m, t);
    assert Draws(c) == Ids(c.ids);
    assert forall i | 0 <= i < |c.ids| :: c.ids[i] in Draws(c);
    PublishAgrees(drawn, m, t, c.who, c.name, c.requests, c.ids, c.now);
    RowsAfterRelease(drawn, drawn + Ids(c.ids), t, C.Release(Postgres(t), c.who, c.name, c.requests, c.ids, c.now).0.t);
  }

  lemma ServeMatches(w: World, drawn: set<Id>, m: Mem, t: Sql.Tables, blobs: C.Blobs, c: Call)
    requires Simulates(drawn, m, t) && Fresh(drawn, c) && CharmCall(t.accounts, c)
    ensures CallMatches(w, drawn, m, t, blobs, c)
  {
    hide Simulates, Fresh, CallMatches;
    match c {
      case Register(_, _, _, _, _, _) => ServeRegister(w, drawn, m, t, blobs, c);
      case PatchMetadata(_, _, _, _) => ServePatch(w, drawn, m, t, blobs, c);
      case Unregister(_, _) => ServeUnregister(w, drawn, m, t, blobs, c);
      case Tracks(_, _, _, _) => ServeTracks(w, drawn, m, t, blobs, c);
      case Upload(_, _, _, _) => ServeUpload(w, drawn, m, t, blobs, c);
      case PushRevision(_, _, _, _, _, _) => ServePush(w, drawn, m, t, blobs, c);
      case Publish(_, _, _, _, _) => ServePublish(w, drawn, m, t, blobs, c);
    }
  }

  /** One call on both: equal answers, equal blobs, and the two registries still agree. */
  lemma CallSimulates(w: World, drawn: set<Id>, m: Mem, t: Sql.Tables, blobs: C.Blobs, c: Call)
    requires Simulates(drawn, m, t) && Fresh(drawn, c) && CharmCall(t.accounts, c)
    ensures var (gm, am) := Serve(w, Registry(InMemory(m), blobs), c);
      var (gt, at) := Serve(w, Registry(Postgres(t), blobs), c);
      && gm.blobs == gt.blobs && BareAnswer(am) == BareAnswer(at)
      && gm.repo.InMemory? && gt.repo.Postgres? && gt.repo.t.accounts == t.accounts
      && Simulates(drawn + Draws(c), gm.repo.m, gt.repo.t)
  {
    hide Simulates, Agree, RowIdsDrawn, Serve, Evolves, Consistent, IdsDrawn;
    ServeMatches(w, drawn, m, t, blobs, c);
    SimulatesAgree(drawn, m, t);
    SimulatesSane(drawn, m, t);
    NewRegistration(drawn, m, t, c);
    CallProgress(w, drawn, t, blobs, c);
    MS.WorkKeeps(w, m, blobs, c);
    var gm, gt := Serve(w, Registry(InMemory(m), blobs), c).0, Serve(w, Registry(Postgres(t), blobs), c).0;
    MakeSimulates(drawn + Draws(c), gm.repo.m, gt.repo.t);
  }

  lemma SimulatesSane(drawn: set<Id>, m: Mem, t: Sql.Tables)
    requires Simulates(drawn, m, t)
    ensures Sane(drawn, t)
  {}

  lemma NewRegistration(drawn: set<Id>, m: Mem, t: Sql.Tables, c: Call)
    requires Simulates(drawn, m, t) && Fresh(drawn, c)
    ensures c.Register? ==> c.id !in m.packagesById
  {
    if c.Register? {
      assert c.id in Draws(c);
      NewId(drawn, m, t, c.id);
    }
  }

  lemma MakeSimulates(drawn: set<Id>, m: Mem, t: Sql.Tables)
    requires Sane(drawn, t) && Agree(m, t) && RowIdsDrawn(drawn, t) && OwnersOnly(t)
    requires MS.PackagesAgree(m.packages, m.packagesById)
    ensures Simulates(drawn, m, t)
  {}

  // ---------- sessions ----------

  /** Call by call the same answer, the embedded tracks aside. */
  predicate SameAnswers(am: seq<Answer>, at: seq<Answer>) {
    |am| == |at| && forall i | 0 <= i < |am| :: BareAnswer(am[i]) == BareAnswer(at[i])
  }

  lemma NoAnswers()
    ensures SameAnswers([], [])
  {}

  lemma SameAnswersCons(a: Answer, b: Answer, am: seq<Answer>, at: seq<Answer>)
    requires BareAnswer(a) == BareAnswer(b) && SameAnswers(am, at)
    ensures SameAnswers([a] + am, [b] + at)
  {}

  lemma {:induction false} SessionSimulates(w: World, drawn: set<Id>, m: Mem, t: Sql.Tables, blobs: C.Blobs,
                                            calls: seq<Call>)
    requires Simulates(drawn, m, t) && AllFresh(drawn, calls)
    requires forall c | c in calls :: WellFormed(c) && CharmCall(t.accounts, c)
    ensures var gm := ServeAll(w, Registry(InMemory(m), blobs), calls);
      var gt := ServeAll(w, Registry(Postgres(t), blobs), calls);
      && gm.blobs == gt.blobs && gm.repo.InMemory? && gt.repo.Postgres?
      && exists d :: Simulates(d, gm.repo.m, gt.repo.t)
    ensures var am := Answers(w, Registry(InMemory(m), blobs), calls);
      var at := Answers(w, Registry(Postgres(t), blobs), calls);
      SameAnswers(am, at)
    decreases |calls|
  {
    hide Simulates, Serve, Fresh, SameAnswers, BareAnswer;
    assert SameAnswers([], []) by { NoAnswers(); }
    if calls == [] {
      assert Simulates(drawn, ServeAll(w, Registry(InMemory(m), blobs), calls).repo.m,
                       ServeAll(w, Registry(Postgres(t), blobs), calls).repo.t);
    } else {
      CallSimulates(w, drawn, m, t, blobs, calls[0]);
      var gm := Serve(w, Registry(InMemory(m), blobs), calls[0]).0;
      var gt := Serve(w, Registry(Postgres(t), blobs), calls[0]).0;
      assert gm == Registry(InMemory(gm.repo.m), gm.blobs) && gt == Registry(Postgres(gt.repo.t), gm.blobs);
      SessionSimulates(w, drawn + Draws(calls[0]), gm.repo.m, gt.repo.t, gm.blobs, calls[1..]);
      SameAnswersCons(Serve(w, Registry(InMemory(m), blobs), calls[0]).1,
                      Serve(w, Registry(Postgres(t), blobs), calls[0]).1,
                      Answers(w, gm, calls[1..]), Answers(w, gt, calls[1..]));
    }
  }

  // ---------- what anyone can see ----------

  function ShownOption(r: Option<Release>): Option<Release> {
    match r
    case None => None
    case Some(release) => Some(RT.Shown(release))
  }

  function ShownAll(releases: set<Release>): set<Release> {
    set r | r in releases :: RT.Shown(r)
  }

  function TrackSet(tracks: seq<Track>): set<Track> {
    set i | 0 <= i < |tracks| :: tracks[i]
  }

  ghost predicate SamePackageViews(m: Mem, t: Sql.Tables) {
    && (forall name :: BareOption(M.GetPackageByName(m, name)) == Sql.GetPackageByName(t, name))
    && (forall p :: BareOption(M.GetPackageByID(m, p)) == Sql.GetPackageByID(t, p))
    && (forall p, account :: M.CanView(m, p, account) == Sql.CanAccess(t, p, account, false))
    && (forall p, account :: M.CanManage(m, p, account) == Sql.CanAccess(t, p, account, true))
    && (forall p | p in m.packagesById :: TrackSet(m.packagesById[p].tracks) == Sql.ListTracks(t, p))
  }

  ghost predicate SameArtefactViews(m: Mem, t: Sql.Tables) {
    && (forall id :: M.GetUpload(m, id) == Sql.GetUpload(t, id))
    && (forall p :: M.GetLatestRevision(m, p) == Sql.GetLatestRevision(t, p))
    && (forall p, n :: M.GetRevisionByNumber(m, p, n) == Sql.GetRevisionByNumber(t, p, n))
    && (forall p, c :: ShownOption(M.ResolveRelease(m, p, c)) == ShownOption(Sql.ResolveRelease(t, p, c)))
    && (forall p :: ShownAll(M.ListReleases(m, p)) == ShownAll(Sql.ListReleases(t, p)))
  }

  lemma SameTrackSets(m: Mem, t: Sql.Tables, p: Id)
    requires SameTracks(m.packagesById, t.tracks) && p in m.packagesById && TracksOk(t.tracks, t.packages)
    ensures TrackSet(m.packagesById[p].tracks) == Sql.ListTracks(t, p)
  {
    var list := m.packagesById[p].tracks;
    forall track | track in TrackSet(list) ensures track in Sql.ListTracks(t, p) {
      var i :| 0 <= i < |list| && list[i] == track;
      assert (p, list[i].name) in t.tracks;
    }
    forall track | track in Sql.ListTracks(t, p) ensures track in TrackSet(list) {
      var k :| k in t.tracks && k.0 == p && t.tracks[k] == track;
      var i :| 0 <= i < |list| && list[i].name == k.1;
      assert t.tracks[(p, list[i].name)] == list[i];
    }
  }

  lemma SameListings(m: Mem, t: Sql.Tables, p: Id)
    requires SameReleases(m.releases, t.releases)
    ensures ShownAll(M.ListReleases(m, p)) == ShownAll(Sql.ListReleases(t, p))
  {
    var a, b := M.ListReleases(m, p), Sql.ListReleases(t, p);
    forall x | x in ShownAll(a) ensures x in ShownAll(b) {
      var r :| r in a && RT.Shown(r) == x;
      var c :| c in m.releases[p] && m.releases[p][c] == r;
      assert (p, c) in t.releases && t.releases[(p, c)] in b;
    }
    forall x | x in ShownAll(b) ensures x in ShownAll(a) {
      var r :| r in b && RT.Shown(r) == x;
      var k :| k in t.releases && k.0 == p && t.releases[k] == r;
      assert m.releases[p][k.1] in a;
    }
  }

  lemma SimulatesPackageViews(drawn: set<Id>, m: Mem, t: Sql.Tables)
    requires Simulates(drawn, m, t)
    ensures SamePackageViews(m, t)
  {
    Indexed(t);
    hide SameRevisions, SameReleases, RowIdsDrawn, IdsDrawn;
    forall name ensures BareOption(M.GetPackageByName(m, name)) == Sql.GetPackageByName(t, name) {
      SameByName(m, t, name);
    }
    forall p ensures BareOption(M.GetPackageByID(m, p)) == Sql.GetPackageByID(t, p) { SameById(m, t, p); }
    forall p, account
      ensures M.CanView(m, p, account) == Sql.CanAccess(t, p, account, false)
      ensures M.CanManage(m, p, account) == Sql.CanAccess(t, p, account, true)
    {
      SameAccess(m, t, p, account);
    }
    forall p | p in m.packagesById ensures TrackSet(m.packagesById[p].tracks) == Sql.ListTracks(t, p) {
      SameTrackSets(m, t, p);
    }
  }

  lemma SimulatesArtefactViews(drawn: set<Id>, m: Mem, t: Sql.Tables)
    requires Simulates(drawn, m, t)
    ensures SameArtefactViews(m, t)
  {
    hide Consistent, RowIdsDrawn, IdsDrawn, SamePackages, SameTracks, OwnersOnly;
    forall p ensures M.GetLatestRevision(m, p) == Sql.GetLatestRevision(t, p) { SameLatest(m, t, p); }
    forall p, n ensures M.GetRevisionByNumber(m, p, n) == Sql.GetRevisionByNumber(t, p, n) { SameNumbered(m, t, p, n); }
    forall p, c ensures ShownOption(M.ResolveRelease(m, p, c)) == ShownOption(Sql.ResolveRelease(t, p, c)) {
      SameResolved(m, t, p, c);
    }
    forall p ensures ShownAll(M.ListReleases(m, p)) == ShownAll(Sql.ListReleases(t, p)) { SameListings(m, t, p); }
  }

  lemma VisibleAgrees(drawn: set<Id>, m: Mem, t: Sql.Tables, who: Identity, p: Id)
    requires Simulates(drawn, m, t)
    ensures BareResult(C.Visible(InMemory(m), who, p)) == C.Visible(Postgres(t), who, p)
  {
    hide Consistent, RowIdsDrawn, IdsDrawn, SameTracks, SameRevisions, SameReleases, OwnersOnly, RequirePackageView;
    SameById(m, t, p);
    if p in t.packages {
      SameSeen(drawn, m, t, who, p, false);
    }
  }

  lemma DownloadsAgree(drawn: set<Id>, m: Mem, t: Sql.Tables, blobs: C.Blobs, who: Identity, p: Id, n: int)
    requires Simulates(drawn, m, t)
    ensures C.DownloadCharm(InMemory(m), blobs, who, p, n) == C.DownloadCharm(Postgres(t), blobs, who, p, n)
  {
    VisibleAgrees(drawn, m, t, who, p);
    SimulatesArtefactViews(drawn, m, t);
    hide Simulates, C.Visible;
  }

  lemma EmptySimulates(accounts: set<Id>)
    ensures Simulates({}, M.EMPTY, Sql.EMPTY.(accounts := accounts))
  {}

  /** Any session of charm calls, begun on two empty registries: the answers are the same call by
      call, and afterwards every package, revision, upload, release and track lookup, every
      permission check and every charm download gives the same on both. */
  lemma MemorySimulatesTables(w: World, accounts: set<Id>, calls: seq<Call>)
    requires AllFresh({}, calls) && forall c | c in calls :: WellFormed(c) && CharmCall(accounts, c)
    ensures var inMemory := Registry(InMemory(M.EMPTY), map[]);
      var inTables := Registry(Postgres(Sql.EMPTY.(accounts := accounts)), map[]);
      var am, at := Answers(w, inMemory, calls), Answers(w, inTables, calls);
      var gm, gt := ServeAll(w, inMemory, calls), ServeAll(w, inTables, calls);
      && SameAnswers(am, at)
      && gm.blobs == gt.blobs && gm.repo.InMemory? && gt.repo.Postgres?
      && SamePackageViews(gm.repo.m, gt.repo.t) && SameArtefactViews(gm.repo.m, gt.repo.t)
      && forall who, p, n ::
           C.DownloadCharm(gm.repo, gm.blobs, who, p, n) == C.DownloadCharm(gt.repo, gt.blobs, who, p, n)
  {
    hide Simulates, SamePackageViews, SameArtefactViews, C.DownloadCharm, ServeAll, Answers, CharmCall;
    EmptySimulates(accounts);
    var t := Sql.EMPTY.(accounts := accounts);
    SessionSimulates(w, {}, M.EMPTY, t, map[], calls);
    var gm := ServeAll(w, Registry(InMemory(M.EMPTY), map[]), calls);
    var gt := ServeAll(w, Registry(Postgres(t), map[]), calls);
    var drawn :| Simulates(drawn, gm.repo.m, gt.repo.t);
    SimulatesPackageViews(drawn, gm.repo.m, gt.repo.t);
    SimulatesArtefactViews(drawn, gm.repo.m, gt.repo.t);
    forall who, p, n
      ensures C.DownloadCharm(gm.repo, gm.blobs, who, p, n) == C.DownloadCharm(gt.repo, gt.blobs, who, p, n)
    {
      DownloadsAgree(drawn, gm.repo.m, gt.repo.t, gm.blobs, who, p, n);
    }
  }
}
