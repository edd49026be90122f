/** Atomic service calls over Postgres: what each keeps, and what a whole session keeps. */
module Sequential {
  import opened Core
  import opened Invariants
  import opened Repository
  import opened Access
  import opened Sessions
  import Sql = Tables
  import C = Calls

  ghost predicate Progress(drawn: set<Id>, t: Sql.Tables, u: Sql.Tables, drawn': set<Id>) {
    && Consistent(u) && IdsDrawn(drawn', u.packages, u.defs)
    && Evolves(drawn, t, u)
    && t.packages.Keys <= u.packages.Keys
  }

  ghost predicate Sane(drawn: set<Id>, t: Sql.Tables) {
    Consistent(t) && IdsDrawn(drawn, t.packages, t.defs)
  }

  lemma Stay(drawn: set<Id>, t: Sql.Tables, drawn': set<Id>)
    requires Sane(drawn, t) && drawn <= drawn'
    ensures Progress(drawn, t, t, drawn')
  {
    EvolvesRefl(drawn, t);
  }

  lemma Chain(d0: set<Id>, d1: set<Id>, d2: set<Id>, t: Sql.Tables, u: Sql.Tables, v: Sql.Tables)
    requires Sane(d0, t) && d0 <= d1 && Progress(d0, t, u, d1) && Progress(d1, u, v, d2)
    ensures Progress(d0, t, v, d2)
  {
    hide IdsDrawn;
    EvolvesTrans(d0, d1, t, u, v);
  }

  lemma More(drawn: set<Id>, t: Sql.Tables, u: Sql.Tables, d1: set<Id>, d2: set<Id>)
    requires Progress(drawn, t, u, d1) && d1 <= d2
    ensures Progress(drawn, t, u, d2)
  {}

  lemma Found(drawn: set<Id>, t: Sql.Tables, who: Identity, name: string, permission: string)
    requires Sane(drawn, t) && C.Managed(Postgres(t), who, name, permission).Ok?
    ensures var pkg := C.Managed(Postgres(t), who, name, permission).value;
      && name in t.names && t.names[name] == pkg.id
      && pkg.id in t.packages && t.packages[pkg.id] == pkg && pkg.name == name && pkg.id in drawn
  {}

  // ---------- statements ----------

  lemma Insert(drawn: set<Id>, t: Sql.Tables, pkg: Package)
    requires Sane(drawn, t) && pkg.id !in drawn
    ensures Progress(drawn, t, Sql.CreatePackage(t, pkg).0, drawn + {pkg.id})
  {
    hide Consistent, Evolves, IdsDrawn;
    CreatePackageSteps(drawn, t, pkg);
  }

  lemma Edit(drawn: set<Id>, t: Sql.Tables, pkg: Package)
    requires Sane(drawn, t)
    ensures Progress(drawn, t, Sql.UpdatePackage(t, pkg).0, drawn)
  {
    hide Consistent, Evolves, IdsDrawn;
    UpdatePackageSteps(drawn, t, pkg);
  }

  lemma Review(drawn: set<Id>, t: Sql.Tables, u: Id, n: Option<int>, errors: seq<string>, now: Time)
    requires Sane(drawn, t)
    ensures Progress(drawn, t, Sql.ApproveUpload(t, u, n, errors, now).0, drawn)
  {
    hide Consistent, Evolves, IdsDrawn;
    ApproveUploadSteps(drawn, t, u, n, errors, now);
  }

  lemma Store(drawn: set<Id>, t: Sql.Tables, up: Core.Upload)
    requires Sane(drawn, t)
    ensures Progress(drawn, t, Sql.CreateUpload(t, up).0, drawn)
  {
    hide Consistent, Evolves, IdsDrawn;
    CreateUploadSteps(drawn, t, up);
  }

  lemma Number(drawn: set<Id>, t: Sql.Tables, r: Revision)
    requires Sane(drawn, t) && r.number == C.NextNumber(Sql.GetLatestRevision(t, r.packageId))
    ensures Progress(drawn, t, Sql.CreateRevision(t, r).0, drawn)
  {
    NextRevision(t, r.packageId);
    NumberSteps(drawn, t, r);
  }

  lemma NumberSteps(drawn: set<Id>, t: Sql.Tables, r: Revision)
    requires Sane(drawn, t) && Follows(t.revisions, r.packageId, r.number)
    ensures Progress(drawn, t, Sql.CreateRevision(t, r).0, drawn)
  {
    hide Consistent, Evolves, IdsDrawn;
    CreateRevisionSteps(drawn, t, r);
  }

  lemma Define(drawn: set<Id>, t: Sql.Tables, d: ResourceDefinition)
    requires Sane(drawn, t) && d.id !in drawn
    ensures Progress(drawn, t, Sql.UpsertDefinition(t, d).0, drawn + {d.id})
  {
    hide Consistent, Evolves, IdsDrawn;
    UpsertDefinitionSteps(drawn, t, d);
  }

  lemma Replace(drawn: set<Id>, t: Sql.Tables, p: Id, r: Release)
    requires Sane(drawn, t) && (p, r.revision) in t.revisions
    ensures Progress(drawn, t, Sql.ReplaceRelease(t, p, r).0, drawn)
  {
    hide Consistent, Evolves, IdsDrawn;
    ReplaceReleaseSteps(drawn, t, p, r);
  }

  lemma AddResource(drawn: set<Id>, t: Sql.Tables, d: ResourceDefinition, r: ResourceRevision)
    requires Sane(drawn, t) && (d.packageId, d.name) in t.defs && t.defs[(d.packageId, d.name)] == d
    requires r.resourceId == d.id && r.name == d.name
    requires r.number == C.NextResourceNumber(Sql.FirstResourceRevision(t, d.id))
    ensures Progress(drawn, t, Sql.CreateResourceRevision(t, r).0, drawn)
  {
    NextResource(t, d.id);
    CreateResourceRevisionSteps(drawn, t, r);
    hide Consistent, Evolves, IdsDrawn;
  }

  lemma Rewrite(drawn: set<Id>, t: Sql.Tables, r: ResourceRevision)
    requires Sane(drawn, t) && (r.resourceId, r.number) in t.resourceRevs
    requires SameArtefact(t.resourceRevs[(r.resourceId, r.number)], r)
    ensures Progress(drawn, t, Sql.UpdateResourceRevision(t, r).0, drawn)
  {
    hide Consistent, Evolves, IdsDrawn;
    UpdateResourceRevisionSteps(drawn, t, r);
  }

  // ---------- loops ----------

  lemma {:induction false} InsertTracksProgress(drawn: set<Id>, t: Sql.Tables, p: Id, tracks: seq<Track>)
    requires Sane(drawn, t)
    ensures Progress(drawn, t, InsertTracks(t, p, tracks).0, drawn)
    decreases |tracks|
  {
    hide Consistent, Evolves, IdsDrawn;
    if tracks == [] {
      Stay(drawn, t, drawn);
    } else {
      var init := tracks[..|tracks| - 1];
      InsertTracksProgress(drawn, t, p, init);
      var t1 := InsertTracks(t, p, init).0;
      CreateTrackSteps(drawn, t1, p, tracks[|tracks| - 1]);
      Chain(drawn, drawn, drawn, t, t1, Sql.CreateTrack(t1, p, tracks[|tracks| - 1]).0);
    }
  }

  lemma {:induction false} UpsertAllProgress(drawn: set<Id>, t: Sql.Tables, p: Id, archive: Archive,
                                             order: seq<(string, Id)>, now: Time)
    requires Sane(drawn, t) && OrderIds(order) !! drawn && Distinct(Seconds(order))
    ensures C.UpsertAll(Postgres(t), p, archive, order, now).0.Postgres?
    ensures Progress(drawn, t, C.UpsertAll(Postgres(t), p, archive, order, now).0.t, drawn + OrderIds(order))
    decreases |order|
  {
    hide Progress, Sane;
    if order == [] {
      Stay(drawn, t, drawn + OrderIds(order));
    } else {
      var (name, id) := order[0];
      var rest := order[1..];
      OrderTail(order);
      hide OrderIds, Seconds;
      if name in archive.resources {
        var d := C.Definition(p, name, archive.resources[name], id, now);
        Define(drawn, t, d);
        var (t1, out) := Sql.UpsertDefinition(t, d);
        if out.Fail? {
          More(drawn, t, t1, drawn + {id}, drawn + OrderIds(order));
        } else {
          SaneAfter(drawn, t, t1, drawn + {id});
          UpsertAllProgress(drawn + {id}, t1, p, archive, rest, now);
          var t2 := C.UpsertAll(Postgres(t1), p, archive, rest, now).0.t;
          Chain(drawn, drawn + {id}, drawn + {id} + OrderIds(rest), t, t1, t2);
          assert drawn + {id} + OrderIds(rest) == drawn + OrderIds(order);
        }
      } else {
        UpsertAllProgress(drawn, t, p, archive, rest, now);
        More(drawn, t, C.UpsertAll(Postgres(t), p, archive, rest, now).0.t, drawn + OrderIds(rest),
             drawn + OrderIds(order));
      }
    }
  }

  lemma SaneAfter(drawn: set<Id>, t: Sql.Tables, u: Sql.Tables, drawn': set<Id>)
    requires Progress(drawn, t, u, drawn')
    ensures Sane(drawn', u)
  {}

  lemma {:induction false} UpdateEachProgress(drawn: set<Id>, t: Sql.Tables, d: Id, updates: seq<C.ResourceUpdate>)
    requires Sane(drawn, t)
    ensures C.UpdateEach(Postgres(t), d, updates).0.Postgres?
    ensures Progress(drawn, t, C.UpdateEach(Postgres(t), d, updates).0.t, drawn)
    decreases |updates|
  {
    hide Progress;
    Stay(drawn, t, drawn);
    if updates != [] {
      var (r1, out) := C.UpdateOne(Postgres(t), d, updates[0]);
      if (d, updates[0].number) in t.resourceRevs {
        var item := t.resourceRevs[(d, updates[0].number)];
        Rewrite(drawn, t, item.(bases := updates[0].bases, architectures := updates[0].architectures));
      }
      if out.Pass? {
        SaneAfter(drawn, t, r1.t, drawn);
        UpdateEachProgress(drawn, r1.t, d, updates[1..]);
        Chain(drawn, drawn, drawn, t, r1.t, C.UpdateEach(r1, d, updates[1..]).0.t);
      }
    }
  }

  lemma {:induction false} ReleaseEachProgress(drawn: set<Id>, t: Sql.Tables, who: Identity, p: Id,
                                               requests: seq<Release>, ids: seq<Id>, now: Time)
    requires Sane(drawn, t) && |ids| == |requests|
    ensures C.ReleaseEach(Postgres(t), who, p, requests, ids, now).0.Postgres?
    ensures Progress(drawn, t, C.ReleaseEach(Postgres(t), who, p, requests, ids, now).0.t, drawn)
    decreases |requests|
  {
    hide Progress, Sane;
    Stay(drawn, t, drawn);
    if requests != [] {
      var (r1, out) := C.ReleaseOne(Postgres(t), who, p, requests[0], ids[0], now);
      if (p, requests[0].revision) in t.revisions {
        Replace(drawn, t, p, C.StampRelease(requests[0], ids[0], now));
      }
      if out.Pass? {
        SaneAfter(drawn, t, r1.t, drawn);
        ReleaseEachProgress(drawn, r1.t, who, p, requests[1..], ids[1..], now);
        Chain(drawn, drawn, drawn, t, r1.t, C.ReleaseEach(r1, who, p, requests[1..], ids[1..], now).0.t);
      }
    }
  }

  // ---------- calls ----------

  lemma PushArchiveProgress(w: World, drawn: set<Id>, t: Sql.Tables, who: Identity, name: string, pkg: Package,
                            up: Core.Upload, archive: Archive, id: Id, order: seq<(string, Id)>, now: Time)
    requires Sane(drawn, t) && OrderIds(order) !! drawn && Distinct(Seconds(order))
    ensures C.PushArchive(w, Postgres(t), who, name, pkg, up, archive, id, order, now).0.Postgres?
    ensures Progress(drawn, t, C.PushArchive(w, Postgres(t), who, name, pkg, up, archive, id, order, now).0.t,
                     drawn + OrderIds(order))
  {
    hide Progress, Sane;
    var d' := drawn + OrderIds(order);
    var n := C.NextNumber(Sql.GetLatestRevision(t, pkg.id));
    var rev := C.NewRevision(pkg.id, who, up, archive, n, id, now);
    var (t1, out1) := Sql.CreateRevision(t, rev);
    Number(drawn, t, rev);
    More(drawn, t, t1, drawn, d');
    SaneAfter(drawn, t, t1, drawn);
    if out1.Pass? {
      var (t2, out2) := Sql.ApproveUpload(t1, up.id, Some(n), [], now);
      Review(drawn, t1, up.id, Some(n), [], now);
      Chain(drawn, drawn, drawn, t, t1, t2);
      More(drawn, t, t2, drawn, d');
      SaneAfter(drawn, t, t2, drawn);
      if out2.Pass? {
        var (t3, out3) := Sql.UpdatePackage(t2, C.Published(w, pkg, archive, now));
        Edit(drawn, t2, C.Published(w, pkg, archive, now));
        Chain(drawn, drawn, drawn, t, t2, t3);
        More(drawn, t, t3, drawn, d');
        SaneAfter(drawn, t, t3, drawn);
        if out3.Pass? {
          UpsertAllProgress(drawn, t3, pkg.id, archive, order, now);
          Chain(drawn, drawn, d', t, t3, C.UpsertAll(Postgres(t3), pkg.id, archive, order, now).0.t);
        }
      }
    }
  }

  lemma PushResourceProgress(w: World, drawn: set<Id>, t: Sql.Tables, blobs: C.Blobs, who: Identity, name: string,
                             resource: string, push: C.ResourcePush, id: Id, now: Time)
    requires Sane(drawn, t)
    ensures C.PushResource(w, Postgres(t), blobs, who, name, resource, push, id, now).0.Postgres?
    ensures Progress(drawn, t, C.PushResource(w, Postgres(t), blobs, who, name, resource, push, id, now).0.t, drawn)
  {
    hide Progress, Sane;
    Stay(drawn, t, drawn);
    var found := C.Managed(Postgres(t), who, name, MANAGE_REVISIONS);
    if found.Ok? && (found.value.id, resource) in t.defs && push.uploadId in t.uploads
       && t.uploads[push.uploadId].objectKey in blobs {
      var d, up := t.defs[(found.value.id, resource)], t.uploads[push.uploadId];
      var n := C.NextResourceNumber(Sql.FirstResourceRevision(t, d.id));
      var row := C.NewResourceRevision(w, d, up, blobs[up.objectKey], n, push.kind, push.bases, push.architectures, id,
                                       now);
      StoredDefinition(drawn, t, (found.value.id, resource));
      AddResource(drawn, t, d, row);
      var t1 := Sql.CreateResourceRevision(t, row).0;
      SaneAfter(drawn, t, t1, drawn);
      Review(drawn, t1, up.id, Some(n), [], now);
      Chain(drawn, drawn, drawn, t, t1, Sql.ApproveUpload(t1, up.id, Some(n), [], now).0);
    }
  }

  lemma StoredDefinition(drawn: set<Id>, t: Sql.Tables, k: (Id, string))
    requires Sane(drawn, t) && k in t.defs
    ensures t.defs[k].packageId == k.0 && t.defs[k].name == k.1
  {}

  lemma RegisterProgress(drawn: set<Id>, t: Sql.Tables, who: Identity, name: string, kind: string, isPrivate: bool,
                         id: Id, now: Time)
    requires Sane(drawn, t) && id !in drawn
    ensures C.RegisterPackage(Postgres(t), who, name, kind, isPrivate, id, now).0.Postgres?
    ensures Progress(drawn, t, C.RegisterPackage(Postgres(t), who, name, kind, isPrivate, id, now).0.t, drawn + {id})
  {
    hide Progress, Sane;
    var pkg := C.NewPackage(who, name, kind, isPrivate, id, now);
    Stay(drawn, t, drawn + {id});
    Insert(drawn, t, pkg);
    var t1 := Sql.CreatePackage(t, pkg).0;
    SaneAfter(drawn, t, t1, drawn + {id});
    InsertTracksProgress(drawn + {id}, t1, id, pkg.tracks);
    Chain(drawn, drawn + {id}, drawn + {id}, t, t1, InsertTracks(t1, id, pkg.tracks).0);
  }

  lemma PublishProgress(drawn: set<Id>, t: Sql.Tables, who: Identity, name: string, requests: seq<Release>,
                        ids: seq<Id>, now: Time)
    requires Sane(drawn, t) && |ids| == |requests|
    ensures C.Release(Postgres(t), who, name, requests, ids, now).0.Postgres?
    ensures Progress(drawn, t, C.Release(Postgres(t), who, name, requests, ids, now).0.t, drawn)
  {
    hide Progress, Sane;
    Stay(drawn, t, drawn);
    var found := C.Managed(Postgres(t), who, name, MANAGE_RELEASES);
    if found.Ok? {
      ReleaseEachProgress(drawn, t, who, found.value.id, requests, ids, now);
      var t1 := C.ReleaseEach(Postgres(t), who, found.value.id, requests, ids, now).0.t;
      SaneAfter(drawn, t, t1, drawn);
      var pkg := found.value.(status := "published", updatedAt := now);
      Edit(drawn, t1, pkg);
      Chain(drawn, drawn, drawn, t, t1, Sql.UpdatePackage(t1, pkg).0);
    }
  }

  lemma UnregisterSteps(drawn: set<Id>, t: Sql.Tables, who: Identity, name: string)
    requires Sane(drawn, t)
    ensures var r := C.UnregisterPackage(Postgres(t), who, name).0;
      && r.Postgres? && Sane(drawn, r.t) && Evolves(drawn, t, r.t)
      && (forall p | p in t.packages && Sql.Numbers(t, p) != {} :: p in r.t.packages)
  {
    hide Consistent, Evolves, IdsDrawn;
    EvolvesRefl(drawn, t);
    var found := C.Managed(Postgres(t), who, name, PACKAGE_MANAGE);
    if found.Ok? { DeletePackageSteps(drawn, t, found.value.id); }
  }

  lemma PatchProgress(w: World, drawn: set<Id>, t: Sql.Tables, who: Identity, name: string, patch: C.Patch, now: Time)
    requires Sane(drawn, t)
    ensures var r := C.PatchPackage(w, Postgres(t), who, name, patch, now).0;
      r.Postgres? && Progress(drawn, t, r.t, drawn)
  {
    hide Progress, Sane;
    Stay(drawn, t, drawn);
    var found := C.Managed(Postgres(t), who, name, MANAGE_METADATA);
    if found.Ok? { Edit(drawn, t, C.ApplyPatch(found.value, patch, now)); }
  }

  lemma TracksProgress(drawn: set<Id>, t: Sql.Tables, who: Identity, name: string, tracks: seq<Track>, now: Time)
    requires Sane(drawn, t)
    ensures var r := C.AddPackageTracks(Postgres(t), who, name, tracks, now).0;
      r.Postgres? && Progress(drawn, t, r.t, drawn)
  {
    hide Progress, Sane;
    Stay(drawn, t, drawn);
    var found := C.Managed(Postgres(t), who, name, MANAGE_METADATA);
    if found.Ok? { InsertTracksProgress(drawn, t, found.value.id, C.StampTracks(tracks, now)); }
  }

  lemma UpdateProgress(drawn: set<Id>, t: Sql.Tables, who: Identity, name: string, resource: string,
                       updates: seq<C.ResourceUpdate>)
    requires Sane(drawn, t)
    ensures var r := C.UpdateResources(Postgres(t), who, name, resource, updates).0;
      r.Postgres? && Progress(drawn, t, r.t, drawn)
  {
    hide Progress, Sane;
    Stay(drawn, t, drawn);
    var found := C.Managed(Postgres(t), who, name, MANAGE_REVISIONS);
    if found.Ok? && (found.value.id, resource) in t.defs {
      UpdateEachProgress(drawn, t, t.defs[(found.value.id, resource)].id, updates);
    }
  }

  /** Every call keeps the tables consistent, and only unregistering an empty package removes one. */
  lemma CallProgress(w: World, drawn: set<Id>, t: Sql.Tables, blobs: C.Blobs, c: Call)
    requires Sane(drawn, t) && Fresh(drawn, c)
    ensures var g := Serve(w, Registry(Postgres(t), blobs), c).0;
      && g.repo.Postgres?
      && Sane(drawn + Draws(c), g.repo.t)
      && Evolves(drawn, t, g.repo.t)
      && (forall p | p in t.packages && Sql.Numbers(t, p) != {} :: p in g.repo.t.packages)
  {
    hide Consistent, Evolves, IdsDrawn, C.PushRevision, C.PushResource, C.Release, C.UpdateResources, C.RegisterPackage,
         C.UnregisterPackage, C.PatchPackage, C.AddPackageTracks;
    var d' := drawn + Draws(c);
    var g := Serve(w, Registry(Postgres(t), blobs), c).0;
    assert Draws(c) == {} ==> d' == drawn;
    Stay(drawn, t, d');
    match c {
      case Register(who, name, kind, isPrivate, id, now) =>
        RegisterProgress(drawn, t, who, name, kind, isPrivate, id, now);
      case PatchMetadata(who, name, patch, now) =>
        PatchProgress(w, drawn, t, who, name, patch, now);
      case Unregister(who, name) =>
        UnregisterSteps(drawn, t, who, name);
      case Tracks(who, name, tracks, now) =>
        TracksProgress(drawn, t, who, name, tracks, now);
      case Upload(filename, payload, id, now) =>
        var up := C.NewUpload(w, filename, payload, id, now);
        Store(drawn, t, up);
        More(drawn, t, Sql.CreateUpload(t, up).0, drawn, d');
      case PushRevision(who, name, uploadId, id, order, now) => PushRevisionProgress(w, drawn, t, blobs, c);
      case PushResource(who, name, resource, push, id, now) =>
        PushResourceProgress(w, drawn, t, blobs, who, name, resource, push, id, now);
        More(drawn, t, g.repo.t, drawn, d');
      case UpdateResources(who, name, resource, updates) =>
        UpdateProgress(drawn, t, who, name, resource, updates);
      case Publish(who, name, requests, ids, now) =>
        PublishProgress(drawn, t, who, name, requests, ids, now);
        More(drawn, t, g.repo.t, drawn, d');
    }
  }

  lemma PushRevisionProgress(w: World, drawn: set<Id>, t: Sql.Tables, blobs: C.Blobs, c: Call)
    requires Sane(drawn, t) && Fresh(drawn, c) && c.PushRevision?
    ensures var g := Serve(w, Registry(Postgres(t), blobs), c).0;
      g.repo.Postgres? && Progress(drawn, t, g.repo.t, drawn + Draws(c))
  {
    hide Progress, Sane;
    var d' := drawn + Draws(c);
    Stay(drawn, t, d');
    var found := C.Managed(Postgres(t), c.who, c.name, MANAGE_REVISIONS);
    if found.Ok? && c.uploadId in t.uploads && t.uploads[c.uploadId].objectKey in blobs {
      var up := t.uploads[c.uploadId];
      var archive := w.parse(blobs[up.objectKey]);
      if archive.None? {
        Review(drawn, t, up.id, None, [C.INVALID_ARCHIVE], c.now);
        More(drawn, t, Sql.ApproveUpload(t, up.id, None, [C.INVALID_ARCHIVE], c.now).0, drawn, d');
      } else {
        PushArchiveProgress(w, drawn, t, c.who, c.name, found.value, up, archive.value, c.id, c.order, c.now);
        More(drawn, t, C.PushArchive(w, Postgres(t), c.who, c.name, found.value, up, archive.value, c.id, c.order,
             c.now).0.t, drawn + OrderIds(c.order), d');
      }
    }
  }
}
