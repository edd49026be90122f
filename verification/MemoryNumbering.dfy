/** How `repo.Memory` numbers and files its rows, over whole sessions. Charm revisions are numbered 1, 2, 3
    and so on. `PushResource` takes the first listed revision for the newest, which it is in Postgres
    order; Memory lists in insertion order, so there the numbers of a resource are 1, 2, 2, 2 and so on,
    and they identify revisions only as long as there are at most two. */
module MemoryNumbering {
  import opened Core
  import opened Repository
  import opened Access
  import opened Sessions
  import M = MemoryModel
  import C = Calls

  type Mem = M.Mem

  predicate Numbered(rows: seq<ResourceRevision>) {
    forall i | 0 <= i < |rows| :: rows[i].number == if i == 0 then 1 else 2
  }

  ghost predicate AllNumbered(rows: map<Id, seq<ResourceRevision>>) {
    forall d | d in rows :: Numbered(rows[d])
  }

  ghost predicate Filed(rows: map<Id, seq<ResourceRevision>>) {
    forall d | d in rows :: forall i | 0 <= i < |rows[d]| :: rows[d][i].resourceId == d
  }

  ghost predicate Counted(rows: map<Id, seq<Revision>>) {
    forall p | p in rows :: forall i | 0 <= i < |rows[p]| :: rows[p][i].number == i + 1
  }

  ghost predicate Keyed(uploads: map<Id, Upload>) {
    forall i | i in uploads :: uploads[i].id == i
  }

  /** Numbered rows, filed under their own ids. */
  ghost predicate Tidy(rows: map<Id, seq<ResourceRevision>>, revisions: map<Id, seq<Revision>>,
                       uploads: map<Id, Upload>) {
    AllNumbered(rows) && Filed(rows) && Counted(revisions) && Keyed(uploads)
  }

  predicate SameRows(m: Mem, m': Mem) {
    m'.resourceRevs == m.resourceRevs && m'.revisions == m.revisions && m'.uploads == m.uploads
  }

  predicate Unambiguous(rows: seq<ResourceRevision>) {
    forall i, j | 0 <= i < j < |rows| :: rows[i].number != rows[j].number
  }

  lemma UnambiguousExactly(rows: seq<ResourceRevision>)
    requires Numbered(rows)
    ensures Unambiguous(rows) <==> |rows| <= 2
    ensures (forall i | 0 <= i < |rows| ::
             rows[i].number != C.NextResourceNumber(if rows == [] then None else Some(rows[0])))
            <==> |rows| < 2
  {
    if |rows| > 2 {
      assert rows[1].number == rows[2].number;
    }
    if |rows| >= 2 {
      assert rows[1].number == 2 && rows[0].number == 1;
    }
  }

  /** In memory and tidy. */
  ghost predicate Keeps(r: Repository) {
    r.InMemory? && Tidy(r.m.resourceRevs, r.m.revisions, r.m.uploads)
  }

  lemma {:induction false} UpsertAllKeeps(m: Mem, p: Id, archive: Archive, order: seq<(string, Id)>, now: Time)
    ensures var r := C.UpsertAll(InMemory(m), p, archive, order, now).0;
      r.InMemory? && SameRows(m, r.m)
    decreases |order|
  {
    if order != [] {
      if order[0].0 in archive.resources {
        var d := C.Definition(p, order[0].0, archive.resources[order[0].0], order[0].1, now);
        UpsertAllKeeps(M.UpsertDefinition(m, d), p, archive, order[1..], now);
      } else {
        UpsertAllKeeps(m, p, archive, order[1..], now);
      }
    }
  }

  lemma {:induction false} ReleaseEachKeeps(m: Mem, who: Identity, p: Id, requests: seq<Release>, ids: seq<Id>,
                                            now: Time)
    requires |ids| == |requests|
    ensures var r := C.ReleaseEach(InMemory(m), who, p, requests, ids, now).0;
      r.InMemory? && SameRows(m, r.m)
    decreases |requests|
  {
    if requests != [] {
      var (r1, out) := C.ReleaseOne(InMemory(m), who, p, requests[0], ids[0], now);
      if out.Pass? {
        ReleaseEachKeeps(r1.m, who, p, requests[1..], ids[1..], now);
      }
    }
  }

  lemma UpdateOneKeeps(m: Mem, d: Id, update: C.ResourceUpdate)
    requires Tidy(m.resourceRevs, m.revisions, m.uploads)
    ensures Keeps(C.UpdateOne(InMemory(m), d, update).0)
  {
    var rows := M.Get(m.resourceRevs, d, []);
    var i := M.IndexOf(rows, update.number);
    if i < |rows| {
      var r := rows[i].(bases := update.bases, architectures := update.architectures);
      var rows' := M.Get(m.resourceRevs, r.resourceId, []);
      var k := M.IndexOf(rows', r.number);
      assert k < |rows'| ==> Numbered(rows'[k := r]);
    }
  }

  lemma {:induction false} UpdateEachKeeps(m: Mem, d: Id, updates: seq<C.ResourceUpdate>)
    requires Tidy(m.resourceRevs, m.revisions, m.uploads)
    ensures Keeps(C.UpdateEach(InMemory(m), d, updates).0)
    decreases |updates|
  {
    hide Tidy, C.UpdateOne;
    if updates != [] {
      UpdateOneKeeps(m, d, updates[0]);
      var (r1, out) := C.UpdateOne(InMemory(m), d, updates[0]);
      if out.Pass? {
        UpdateEachKeeps(r1.m, d, updates[1..]);
      }
    }
  }

  lemma AppendNumbered(lists: map<Id, seq<ResourceRevision>>, row: ResourceRevision)
    requires AllNumbered(lists) && Filed(lists)
    requires var rows := M.Get(lists, row.resourceId, []);
      row.number == C.NextResourceNumber(if rows == [] then None else Some(rows[0]))
    ensures AllNumbered(lists[row.resourceId := M.Get(lists, row.resourceId, []) + [row]])
    ensures Filed(lists[row.resourceId := M.Get(lists, row.resourceId, []) + [row]])
  {}

  lemma ResourceRowKeeps(m: Mem, name: string, up: Core.Upload, row: ResourceRevision, now: Time)
    requires Tidy(m.resourceRevs, m.revisions, m.uploads)
    requires row.number == C.NextResourceNumber(FirstResourceRevision(InMemory(m), row.resourceId))
    ensures Keeps(C.AddResourceRow(InMemory(m), name, up, row, now).0)
  {
    hide Tidy, M.ApproveUpload, C.ReviewURL;
    RowAppended(m, row);
    ReviewKeeps(M.CreateResourceRevision(m, row), up.id, Some(row.number), [], now);
  }

  lemma RowAppended(m: Mem, row: ResourceRevision)
    requires Tidy(m.resourceRevs, m.revisions, m.uploads)
    requires row.number == C.NextResourceNumber(FirstResourceRevision(InMemory(m), row.resourceId))
    ensures Keeps(InMemory(M.CreateResourceRevision(m, row)))
  {
    hide AllNumbered, Filed, Counted, Keyed;
    AppendNumbered(m.resourceRevs, row);
  }

  lemma ReviewKeeps(m: Mem, u: Id, n: Option<int>, errors: seq<string>, now: Time)
    requires Tidy(m.resourceRevs, m.revisions, m.uploads)
    ensures Keeps(InMemory(M.ApproveUpload(m, u, n, errors, now).0))
  {}

  lemma RevisionKeeps(m: Mem, row: Revision)
    requires Tidy(m.resourceRevs, m.revisions, m.uploads)
    requires row.number == C.NextNumber(M.GetLatestRevision(m, row.packageId))
    ensures Keeps(InMemory(M.CreateRevision(m, row)))
  {
    var rows := M.Get(m.revisions, row.packageId, []);
    assert rows != [] ==> rows[|rows| - 1].number == |rows|;
  }

  lemma PushResourceKeeps(w: World, m: Mem, blobs: C.Blobs, who: Identity, name: string, resource: string,
                          push: C.ResourcePush, id: Id, now: Time)
    requires Tidy(m.resourceRevs, m.revisions, m.uploads)
    ensures Keeps(C.PushResource(w, InMemory(m), blobs, who, name, resource, push, id, now).0)
  {
    hide Tidy, C.AddResourceRow, C.Managed;
    var found := C.Managed(InMemory(m), who, name, MANAGE_REVISIONS);
    if found.Ok? && M.GetDefinition(m, found.value.id, resource).Some?
       && push.uploadId in m.uploads && m.uploads[push.uploadId].objectKey in blobs {
      var d, up := M.GetDefinition(m, found.value.id, resource).value, m.uploads[push.uploadId];
      var n := C.NextResourceNumber(FirstResourceRevision(InMemory(m), d.id));
      ResourceRowKeeps(m, name, up, C.NewResourceRevision(w, d, up, blobs[up.objectKey], n, push.kind, push.bases,
                                                          push.architectures, id, now), now);
    }
  }

  lemma RegisterKeeps(m: Mem, who: Identity, name: string, kind: string, isPrivate: bool, id: Id, now: Time)
    requires Tidy(m.resourceRevs, m.revisions, m.uploads)
    ensures Keeps(C.RegisterPackage(InMemory(m), who, name, kind, isPrivate, id, now).0)
  {
    hide Tidy, RequirePermission, C.NewPackage, M.CreatePackage, M.CreateTracks;
    var pkg := C.NewPackage(who, name, kind, isPrivate, id, now);
    var m1 := M.CreatePackage(m, pkg).0;
    PackageKeepsRows(m, pkg);
    TracksKeepRows(m1, id, pkg.tracks);
  }

  lemma PackageKeepsRows(m: Mem, pkg: Package)
    ensures SameRows(m, M.CreatePackage(m, pkg).0)
  {}

  lemma TracksKeepRows(m: Mem, p: Id, tracks: seq<Track>)
    ensures SameRows(m, M.CreateTracks(m, p, tracks).0)
  {
    hide M.AddTracks;
  }

  lemma PatchKeeps(w: World, m: Mem, who: Identity, name: string, patch: C.Patch, now: Time)
    requires Tidy(m.resourceRevs, m.revisions, m.uploads)
    ensures Keeps(C.PatchPackage(w, InMemory(m), who, name, patch, now).0)
  {
    hide Tidy, C.ApplyPatch, RequirePermission;
  }

  lemma UnregisterKeeps(m: Mem, who: Identity, name: string)
    requires Tidy(m.resourceRevs, m.revisions, m.uploads)
    ensures Keeps(C.UnregisterPackage(InMemory(m), who, name).0)
  {
    hide Tidy, RequirePermission;
  }

  lemma TracksKeep(m: Mem, who: Identity, name: string, tracks: seq<Track>, now: Time)
    requires Tidy(m.resourceRevs, m.revisions, m.uploads)
    ensures Keeps(C.AddPackageTracks(InMemory(m), who, name, tracks, now).0)
  {
    hide Tidy, RequirePermission;
  }

  lemma PushArchiveKeeps(w: World, m: Mem, who: Identity, name: string, pkg: Package, up: Core.Upload, archive: Archive,
                         id: Id, order: seq<(string, Id)>, now: Time)
    requires Tidy(m.resourceRevs, m.revisions, m.uploads)
    ensures Keeps(C.PushArchive(w, InMemory(m), who, name, pkg, up, archive, id, order, now).0)
  {
    hide Tidy, C.UpsertAll, C.Published, C.NextNumber, M.GetLatestRevision, C.ReviewURL, M.CreateRevision,
         M.ApproveUpload;
    var n := C.NextNumber(M.GetLatestRevision(m, pkg.id));
    var row := C.NewRevision(pkg.id, who, up, archive, n, id, now);
    var m1 := M.CreateRevision(m, row);
    RevisionKeeps(m, row);
    var m2 := M.ApproveUpload(m1, up.id, Some(n), [], now).0;
    ReviewKeeps(m1, up.id, Some(n), [], now);
    var m3 := M.UpdatePackage(m2, C.Published(w, pkg, archive, now)).0;
    UpsertAllKeeps(m3, pkg.id, archive, order, now);
  }

  lemma PushManagedKeeps(w: World, m: Mem, blobs: C.Blobs, who: Identity, name: string, pkg: Package, uploadId: Id,
                         id: Id, order: seq<(string, Id)>, now: Time)
    requires Tidy(m.resourceRevs, m.revisions, m.uploads)
    ensures Keeps(C.PushManaged(w, InMemory(m), blobs, who, name, pkg, uploadId, id, order, now).0)
  {
    hide Tidy, C.PushArchive, M.ApproveUpload;
    if uploadId in m.uploads && m.uploads[uploadId].objectKey in blobs {
      var up := m.uploads[uploadId];
      var archive := w.parse(blobs[up.objectKey]);
      if archive.Some? {
        PushArchiveKeeps(w, m, who, name, pkg, up, archive.value, id, order, now);
      } else {
        ReviewKeeps(m, up.id, None, [C.INVALID_ARCHIVE], now);
      }
    }
  }

  lemma PushRevisionKeeps(w: World, m: Mem, blobs: C.Blobs, who: Identity, name: string, uploadId: Id, id: Id,
                          order: seq<(string, Id)>, now: Time)
    requires Tidy(m.resourceRevs, m.revisions, m.uploads)
    ensures Keeps(C.PushRevision(w, InMemory(m), blobs, who, name, uploadId, id, order, now).0)
  {
    hide Tidy, C.Managed, C.PushManaged;
    var found := C.Managed(InMemory(m), who, name, MANAGE_REVISIONS);
    if found.Ok? {
      PushManagedKeeps(w, m, blobs, who, name, found.value, uploadId, id, order, now);
    }
  }

  lemma UpdateResourcesKeeps(m: Mem, who: Identity, name: string, resource: string, updates: seq<C.ResourceUpdate>)
    requires Tidy(m.resourceRevs, m.revisions, m.uploads)
    ensures Keeps(C.UpdateResources(InMemory(m), who, name, resource, updates).0)
  {
    hide Tidy, C.Managed, C.UpdateEach;
    var found := C.Managed(InMemory(m), who, name, MANAGE_REVISIONS);
    if found.Ok? && M.GetDefinition(m, found.value.id, resource).Some? {
      UpdateEachKeeps(m, M.GetDefinition(m, found.value.id, resource).value.id, updates);
    }
  }

  lemma PublishKeeps(m: Mem, who: Identity, name: string, requests: seq<Release>, ids: seq<Id>, now: Time)
    requires Tidy(m.resourceRevs, m.revisions, m.uploads) && |ids| == |requests|
    ensures Keeps(C.Release(InMemory(m), who, name, requests, ids, now).0)
  {
    hide Tidy, C.Managed, C.ReleaseEach;
    var found := C.Managed(InMemory(m), who, name, MANAGE_RELEASES);
    if found.Ok? {
      ReleaseEachKeeps(m, who, found.value.id, requests, ids, now);
    }
  }

  /** Every call keeps the pattern. */
  lemma ServeKeeps(w: World, m: Mem, blobs: C.Blobs, c: Call)
    requires Tidy(m.resourceRevs, m.revisions, m.uploads) && WellFormed(c)
    ensures Keeps(Serve(w, Registry(InMemory(m), blobs), c).0.repo)
  {
    hide Tidy, Keeps, C.RegisterPackage, C.PatchPackage, C.UnregisterPackage, C.AddPackageTracks, C.PushRevision,
         C.PushResource, C.UpdateResources, C.Release;
    match c {
      case Register(who, name, kind, isPrivate, id, now) => RegisterKeeps(m, who, name, kind, isPrivate, id, now);
      case PatchMetadata(who, name, patch, now) => PatchKeeps(w, m, who, name, patch, now);
      case Unregister(who, name) => UnregisterKeeps(m, who, name);
      case Tracks(who, name, tracks, now) => TracksKeep(m, who, name, tracks, now);
      case Upload(filename, payload, id, now) => UploadKeeps(w, m, blobs, filename, payload, id, now);
      case PushRevision(who, name, uploadId, id, order, now) =>
        PushRevisionKeeps(w, m, blobs, who, name, uploadId, id, order, now);
      case PushResource(who, name, resource, push, id, now) =>
        PushResourceKeeps(w, m, blobs, who, name, resource, push, id, now);
      case UpdateResources(who, name, resource, updates) => UpdateResourcesKeeps(m, who, name, resource, updates);
      case Publish(who, name, requests, ids, now) => PublishKeeps(m, who, name, requests, ids, now);
    }
  }

  lemma UploadKeeps(w: World, m: Mem, blobs: C.Blobs, filename: string, payload: Bytes, id: Id, now: Time)
    requires Tidy(m.resourceRevs, m.revisions, m.uploads)
    ensures Keeps(C.CreateUpload(w, InMemory(m), blobs, filename, payload, id, now).0)
  {}

  lemma {:induction false} SessionKeeps(w: World, m: Mem, blobs: C.Blobs, calls: seq<Call>)
    requires Tidy(m.resourceRevs, m.revisions, m.uploads) && forall c | c in calls :: WellFormed(c)
    ensures Keeps(ServeAll(w, Registry(InMemory(m), blobs), calls).repo)
    decreases |calls|
  {
    hide Serve, Tidy;
    if calls != [] {
      ServeKeeps(w, m, blobs, calls[0]);
      var g := Serve(w, Registry(InMemory(m), blobs), calls[0]).0;
      SessionKeeps(w, g.repo.m, g.blobs, calls[1..]);
    }
  }

  /** After any session over an empty Memory, the numbers of a resource tell its revisions apart
      exactly when there are at most two of them, and the number the next push would take is free
      exactly when there are fewer than two. */
  lemma NumbersTellApartExactly(w: World, blobs: C.Blobs, calls: seq<Call>, d: Id)
    requires forall c | c in calls :: WellFormed(c)
    ensures var r := ServeAll(w, Registry(InMemory(M.EMPTY), blobs), calls).repo;
      && r.InMemory?
      && var rows := M.ListResourceRevisions(r.m, d);
         && (Unambiguous(rows) <==> |rows| <= 2)
         && ((forall i | 0 <= i < |rows| :: rows[i].number != C.NextResourceNumber(FirstResourceRevision(r, d)))
             <==> |rows| < 2)
  {
    SessionKeeps(w, M.EMPTY, blobs, calls);
    hide ServeAll;
    UnambiguousExactly(M.ListResourceRevisions(ServeAll(w, Registry(InMemory(M.EMPTY), blobs), calls).repo.m, d));
  }
}
