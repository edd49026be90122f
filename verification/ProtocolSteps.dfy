/** Every step of every client, and every other event, keeps the invariant of the protocol. */
module ProtocolSteps {
  import opened Core
  import opened Invariants
  import opened Protocol
  import opened ProtocolInvariant
  import Sql = Tables
  import C = Calls

  // ---------- statements that add no artefact ----------

  ghost predicate NoNewRows(t: Sql.Tables, u: Sql.Tables) {
    && (forall i | i in u.uploads :: i in t.uploads && SameUpload(t.uploads[i], u.uploads[i]))
    && (forall k | k in u.revisions :: k in t.revisions && u.revisions[k] == t.revisions[k])
    && (forall k | k in u.resourceRevs :: k in t.resourceRevs && SameArtefact(t.resourceRevs[k], u.resourceRevs[k]))
  }

  lemma SameRows(t: Sql.Tables, u: Sql.Tables)
    requires u.uploads == t.uploads && u.revisions == t.revisions && u.resourceRevs == t.resourceRevs
    ensures NoNewRows(t, u)
  {}

  lemma QuietArtefacts(w: World, st: Store, db: Sql.Tables)
    requires StoreOk(w, st) && NoNewRows(st.db, db)
    ensures UploadsIntact(w, db.uploads, st.blobs, st.payloads)
    ensures CharmsIntact(w, db.revisions, st.blobs, st.origin, st.payloads)
    ensures ResourcesIntact(w, db.resourceRevs, st.blobs, st.origin, st.payloads)
  {
    hide Consistent, HistoryDrawn, IdsDrawn;
    forall k | k in db.resourceRevs
      ensures HasOrigin(db.resourceRevs[k].id, st.origin, st.payloads)
           && ResourceIntact(w, db.resourceRevs[k], st.blobs, st.payloads[st.origin[db.resourceRevs[k].id]])
    {
      assert SameArtefact(st.db.resourceRevs[k], db.resourceRevs[k]);
    }
  }

  lemma Quiet(w: World, st: Store, db: Sql.Tables, drawn: set<Id>)
    requires StoreOk(w, st) && NoNewRows(st.db, db) && st.drawn <= drawn
    requires Steps(st.drawn, st.db, db, st.drawn) || Steps(st.drawn, st.db, db, drawn)
    ensures Moves(w, st, st.(db := db, drawn := drawn))
  {
    hide Consistent, Evolves, UploadsIntact, CharmsIntact, ResourcesIntact;
    QuietArtefacts(w, st, db);
  }

  lemma Draw(w: World, st: Store, id: Id)
    requires StoreOk(w, st)
    ensures Moves(w, st, st.(drawn := st.drawn + {id}))
  {
    EvolvesRefl(st.drawn, st.db);
    Quiet(w, st, st.db, st.drawn + {id});
  }

  lemma Approve(w: World, st: Store, id: Id, u: Id, n: Option<int>, errors: seq<string>, now: Time)
    requires StoreOk(w, st)
    ensures Moves(w, st, st.(db := Sql.ApproveUpload(st.db, u, n, errors, now).0, drawn := st.drawn + {id}))
  {
    hide Consistent, Evolves, IdsDrawn, Steps, UploadsIntact, CharmsIntact, ResourcesIntact, HistoryDrawn, Moves;
    ApproveUploadSteps(st.drawn, st.db, u, n, errors, now);
    Quiet(w, st, Sql.ApproveUpload(st.db, u, n, errors, now).0, st.drawn + {id});
  }

  lemma Stutter(w: World, st: Store)
    requires StoreOk(w, st)
    ensures Moves(w, st, st)
  {
    StoreEvolvesRefl(st);
  }

  lemma Edited(w: World, st: Store, pkg: Package)
    requires StoreOk(w, st)
    ensures Moves(w, st, st.(db := Sql.UpdatePackage(st.db, pkg).0))
  {
    hide Consistent, Evolves, IdsDrawn, Steps, UploadsIntact, CharmsIntact, ResourcesIntact, HistoryDrawn, Moves;
    UpdatePackageSteps(st.drawn, st.db, pkg);
    Quiet(w, st, Sql.UpdatePackage(st.db, pkg).0, st.drawn);
  }

  lemma Published(w: World, st: Store, id: Id, pkg: Package)
    requires StoreOk(w, st)
    ensures Moves(w, st, st.(db := Sql.UpdatePackage(st.db, pkg).0, drawn := st.drawn + {id}))
  {
    hide Consistent, Evolves, IdsDrawn, Steps, UploadsIntact, CharmsIntact, ResourcesIntact, HistoryDrawn, Moves;
    UpdatePackageSteps(st.drawn, st.db, pkg);
    Quiet(w, st, Sql.UpdatePackage(st.db, pkg).0, st.drawn + {id});
  }

  lemma Defined(w: World, st: Store, d: ResourceDefinition)
    requires StoreOk(w, st) && d.id !in st.drawn
    ensures Moves(w, st, st.(db := Sql.UpsertDefinition(st.db, d).0, drawn := st.drawn + {d.id}))
  {
    hide Consistent, Evolves, IdsDrawn, Steps, UploadsIntact, CharmsIntact, ResourcesIntact, HistoryDrawn, Moves;
    UpsertDefinitionSteps(st.drawn, st.db, d);
    Quiet(w, st, Sql.UpsertDefinition(st.db, d).0, st.drawn + {d.id});
  }

  lemma Released(w: World, st: Store, id: Id, p: Id, r: Release)
    requires StoreOk(w, st) && (p in st.db.packages ==> (p, r.revision) in st.db.revisions)
    ensures Moves(w, st, st.(db := Sql.ReplaceRelease(st.db, p, r).0, drawn := st.drawn + {id}))
  {
    hide Consistent, Evolves, IdsDrawn, Steps, UploadsIntact, CharmsIntact, ResourcesIntact, HistoryDrawn, Moves;
    ReplaceReleaseSteps(st.drawn, st.db, p, r);
    Quiet(w, st, Sql.ReplaceRelease(st.db, p, r).0, st.drawn + {id});
  }

  lemma Deleted(w: World, st: Store, id: Id, p: Id)
    requires StoreOk(w, st)
    ensures Moves(w, st, st.(db := Sql.DeletePackage(st.db, p).0, drawn := st.drawn + {id}))
  {
    hide Consistent, Evolves, IdsDrawn, Steps, UploadsIntact, CharmsIntact, ResourcesIntact, HistoryDrawn, Moves;
    DeletePackageSteps(st.drawn, st.db, p);
    Quiet(w, st, Sql.DeletePackage(st.db, p).0, st.drawn + {id});
  }

  lemma Registered(w: World, st: Store, pkg: Package)
    requires StoreOk(w, st) && pkg.id !in st.drawn
    ensures Moves(w, st, st.(db := Sql.CreatePackage(st.db, pkg).0, drawn := st.drawn + {pkg.id}))
  {
    hide NoNewRows, Consistent, Evolves, IdsDrawn, Steps, UploadsIntact, CharmsIntact, ResourcesIntact, HistoryDrawn,
         Moves;
    CreatePackageSteps(st.drawn, st.db, pkg);
    SameRows(st.db, Sql.CreatePackage(st.db, pkg).0);
    Quiet(w, st, Sql.CreatePackage(st.db, pkg).0, st.drawn + {pkg.id});
  }

  lemma Tracked(w: World, st: Store, p: Id, track: Track)
    requires StoreOk(w, st)
    ensures Moves(w, st, st.(db := Sql.CreateTrack(st.db, p, track).0))
  {
    hide Consistent, Evolves, IdsDrawn, Steps, UploadsIntact, CharmsIntact, ResourcesIntact, HistoryDrawn, Moves;
    CreateTrackSteps(st.drawn, st.db, p, track);
    Quiet(w, st, Sql.CreateTrack(st.db, p, track).0, st.drawn);
  }

  lemma Regranted(w: World, st: Store, accounts: set<Id>, members: set<(Id, Id)>, acl: map<(Id, string, Id), string>)
    requires StoreOk(w, st) && st.db.accounts <= accounts
    ensures Moves(w, st, st.(db := st.db.(accounts := accounts, members := members, acl := acl)))
  {
    EvolvesRefl(st.drawn, st.db);
    Quiet(w, st, st.db.(accounts := accounts, members := members, acl := acl), st.drawn);
  }

  // ---------- statements that add one ----------

  lemma AddUpload(w: World, st: Store, id: Id, up: Upload)
    requires StoreOk(w, st) && UploadIntact(w, up, st.blobs, st.payloads)
    ensures Moves(w, st, st.(db := Sql.CreateUpload(st.db, up).0, drawn := st.drawn + {id}))
  {
    hide Consistent, Evolves;
    CreateUploadSteps(st.drawn, st.db, up);
  }

  /** A blob under a key of its own disturbs no artefact. */
  lemma BlobsGrow(w: World, st: Store, key: string, payload: Bytes, id: Id)
    requires StoreOk(w, st) && KeyOwner(key) == id && id !in st.drawn
    ensures var blobs, payloads := st.blobs[key := payload], st.payloads[id := payload];
      && Grows(st.blobs, blobs) && Grows(st.payloads, payloads)
      && UploadsIntact(w, st.db.uploads, blobs, payloads)
      && CharmsIntact(w, st.db.revisions, blobs, st.origin, payloads)
      && ResourcesIntact(w, st.db.resourceRevs, blobs, st.origin, payloads)
  {
    hide Consistent, IdsDrawn;
  }

  lemma PutBlob(w: World, st: Store, filename: string, payload: Bytes, id: Id, now: Time)
    requires StoreOk(w, st) && id !in st.drawn && '/' !in id
    ensures var up := C.NewUpload(w, filename, payload, id, now);
      var st' := st.(blobs := st.blobs[up.objectKey := payload], payloads := st.payloads[id := payload],
                     drawn := st.drawn + {id});
      Moves(w, st, st') && UploadIntact(w, up, st'.blobs, st'.payloads)
  {
    hide Consistent, Evolves, IdsDrawn, Grows, UploadsIntact, CharmsIntact, ResourcesIntact;
    KeyOwnerOf(id, filename);
    EvolvesRefl(st.drawn, st.db);
    DrawnMore(st.drawn, {id}, st.db.packages, st.db.defs);
    BlobsGrow(w, st, C.ObjectKey(id, filename), payload, id);
    var origin := st.origin;
    assert Grows(origin, origin) by { GrowsRefl(origin); }
  }

  lemma GrowsRefl<K, V>(a: map<K, V>)
    ensures Grows(a, a)
  {}

  lemma CharmsWith(w: World, st: Store, rev: Revision, u: Id)
    requires CharmsIntact(w, st.db.revisions, st.blobs, st.origin, st.payloads)
    requires rev.id !in st.origin && u in st.payloads && CharmIntact(w, rev, st.blobs, st.payloads[u])
    ensures CharmsIntact(w, st.db.revisions[(rev.packageId, rev.number) := rev], st.blobs, st.origin[rev.id := u],
                         st.payloads)
  {}

  lemma ResourcesWith(w: World, st: Store, row: ResourceRevision, u: Id)
    requires ResourcesIntact(w, st.db.resourceRevs, st.blobs, st.origin, st.payloads)
    requires row.id !in st.origin && u in st.payloads && ResourceIntact(w, row, st.blobs, st.payloads[u])
    ensures ResourcesIntact(w, st.db.resourceRevs[(row.resourceId, row.number) := row], st.blobs,
                            st.origin[row.id := u], st.payloads)
  {}

  /** A new origin for an id that no row has yet disturbs no row. */
  lemma OriginsWith(w: World, st: Store, id: Id, u: Id)
    requires StoreOk(w, st) && id !in st.drawn
    ensures id !in st.origin
    ensures CharmsIntact(w, st.db.revisions, st.blobs, st.origin[id := u], st.payloads)
    ensures ResourcesIntact(w, st.db.resourceRevs, st.blobs, st.origin[id := u], st.payloads)
  {
    hide Consistent, IdsDrawn, UploadsIntact, CharmIntact, ResourceIntact;
  }

  lemma AddCharm(w: World, st: Store, who: Identity, pkg: Package, up: Upload, archive: Archive, n: int, id: Id,
                 now: Time)
    requires StoreOk(w, st) && id !in st.drawn && KnowsUpload(st, up) && KnowsNumber(st, pkg.id, n)
      && pkg.id in st.drawn
    ensures var (db, out) := Sql.CreateRevision(st.db, C.NewRevision(pkg.id, who, up, archive, n, id, now));
      out.Pass? ==>
        var st' := st.(db := db, origin := st.origin[id := up.id], drawn := st.drawn + {id});
        Moves(w, st, st') && KnowsRevision(st', pkg.id, n, id, up)
  {
    hide Consistent, Evolves, CharmsIntact, ResourcesIntact;
    var rev := C.NewRevision(pkg.id, who, up, archive, n, id, now);
    CreateRevisionSteps(st.drawn, st.db, rev);
    FoundBlob(w, st, up);
    OriginsWith(w, st, id, up.id);
    assert CharmIntact(w, rev, st.blobs, st.payloads[up.id]);
    CharmsWith(w, st, rev, up.id);
  }

  lemma AddResource(w: World, st: Store, d: ResourceDefinition, up: Upload, payload: Bytes, n: int, kind: string,
                    bases: seq<string>, architectures: seq<string>, id: Id, now: Time)
    requires StoreOk(w, st) && id !in st.drawn
    requires KnowsResourcePush(w, st, ResourceCreate(d, up, payload, n))
    ensures var (db, out) := Sql.CreateResourceRevision(
                               st.db, C.NewResourceRevision(w, d, up, payload, n, kind, bases, architectures, id, now));
      out.Pass? ==>
        var st' := st.(db := db, origin := st.origin[id := up.id], drawn := st.drawn + {id});
        Moves(w, st, st') && KnowsDefinition(st', d) && KnowsResource(st', d.id, n, id, up)
  {
    hide Consistent, Evolves, IdsDrawn, UploadsIntact, CharmsIntact, ResourcesIntact;
    var row := C.NewResourceRevision(w, d, up, payload, n, kind, bases, architectures, id, now);
    CreateResourceRevisionSteps(st.drawn, st.db, row);
    DrawnMore(st.drawn, {id}, st.db.packages, st.db.defs);
    FoundBlob(w, st, up);
    OriginsWith(w, st, id, up.id);
    assert ResourceIntact(w, row, st.blobs, payload);
    ResourcesWith(w, st, row, up.id);
  }

  // ---------- what a client learns from a read ----------

  lemma LatestFollows(w: World, st: Store, p: Id)
    requires StoreOk(w, st)
    ensures Follows(st.db.revisions, p, C.NextNumber(Sql.GetLatestRevision(st.db, p)))
  {
    NextRevision(st.db, p);
  }

  lemma FirstFollows(w: World, st: Store, d: Id)
    requires StoreOk(w, st)
    ensures Follows(st.db.resourceRevs, d, C.NextResourceNumber(Sql.FirstResourceRevision(st.db, d)))
  {
    NextResource(st.db, d);
  }

  lemma FoundIsDrawn(w: World, st: Store, name: string)
    requires StoreOk(w, st) && Sql.GetPackageByName(st.db, name).Some?
    ensures Sql.GetPackageByName(st.db, name).value.id in st.db.packages
    ensures Sql.GetPackageByName(st.db, name).value.id in st.drawn
  {}

  lemma FoundDefinition(w: World, st: Store, p: Id, name: string)
    requires StoreOk(w, st) && Sql.GetDefinition(st.db, p, name).Some?
    ensures KnowsDefinition(st, Sql.GetDefinition(st.db, p, name).value)
  {}

  lemma FoundUpload(w: World, st: Store, id: Id)
    requires StoreOk(w, st) && Sql.GetUpload(st.db, id).Some?
    ensures KnowsUpload(st, Sql.GetUpload(st.db, id).value)
  {}

  lemma FoundBlob(w: World, st: Store, up: Upload)
    requires StoreOk(w, st) && KnowsUpload(st, up)
    ensures UploadIntact(w, up, st.blobs, st.payloads)
  {
    assert SameUpload(up, st.db.uploads[up.id]);
  }

  lemma FoundItem(w: World, st: Store, d: Id, n: int)
    requires StoreOk(w, st) && Sql.GetResourceRevision(st.db, d, n).Some?
    ensures KnowsItem(st, d, Sql.GetResourceRevision(st.db, d, n).value)
  {}

  // ---------- steps, client by client ----------

  /** A push before its revision is in. */
  lemma StepPushingKeeps(w: World, st: Store, who: Identity, name: string, uploadId: Id, pc: PushPc, id: Id,
                         pick: string, now: Time)
    requires StoreOk(w, st) && id !in st.drawn && KnowsPush(w, st, pc) && !Pushed(pc)
    ensures var (s1, pc') := StepPush(w, st, who, name, uploadId, pc, id, pick, now);
      var st' := s1.(drawn := st.drawn + {id});
      Moves(w, st, st') && KnowsPush(w, st', pc')
  {
    hide Moves, StoreOk;
    var pc' := StepPush(w, st, who, name, uploadId, pc, id, pick, now).1;
    Draw(w, st, id);
    match pc {
      case PushFind =>
        if pc'.PushAuth? { FoundIsDrawn(w, st, name); }
      case PushUpload(pkg) =>
        if pc'.PushBlob? { FoundUpload(w, st, uploadId); }
      case PushReject(up) => Approve(w, st, id, up.id, None, [C.INVALID_ARCHIVE], now);
      case PushNumber(pkg, up, archive) => LatestFollows(w, st, pkg.id);
      case PushCreate(pkg, up, archive, n) => AddCharm(w, st, who, pkg, up, archive, n, id, now);
      case _ =>
    }
  }

  predicate Pushed(pc: PushPc) {
    pc.PushApprove? || pc.PushPublish? || pc.PushDefine? || pc.PushDone? || pc.PushFailed?
  }

  /** A push once its revision is in: it still knows that revision afterwards. */
  lemma StepPushedKeeps(w: World, st: Store, who: Identity, name: string, uploadId: Id, pc: PushPc, id: Id,
                        pick: string, now: Time)
    requires StoreOk(w, st) && id !in st.drawn && KnowsPush(w, st, pc) && Pushed(pc)
    ensures var (s1, pc') := StepPush(w, st, who, name, uploadId, pc, id, pick, now);
      var st' := s1.(drawn := st.drawn + {id});
      Moves(w, st, st') && KnowsPush(w, st', pc')
  {
    hide Moves, StoreOk, KnowsRevision, KnowsUpload, KnowsNumber;
    var st' := StepPush(w, st, who, name, uploadId, pc, id, pick, now).0.(drawn := st.drawn + {id});
    Draw(w, st, id);
    match pc {
      case PushApprove(pkg, up, archive, n, row) => Approve(w, st, id, up.id, Some(n), [], now);
      case PushPublish(pkg, up, archive, n, row) => Published(w, st, id, C.Published(w, pkg, archive, now));
      case PushDefine(pkg, up, n, row, todo) =>
        if pick in todo {
          Defined(w, st, C.Definition(pkg.id, pick, todo[pick], id, now));
        }
      case _ =>
    }
    PushKnowledgeLasts(w, st, st', pc);
  }

  lemma StepPushKeeps(w: World, st: Store, who: Identity, name: string, uploadId: Id, pc: PushPc, id: Id, pick: string,
                      now: Time)
    requires StoreOk(w, st) && id !in st.drawn && KnowsPush(w, st, pc)
    ensures var (s1, pc') := StepPush(w, st, who, name, uploadId, pc, id, pick, now);
      var st' := s1.(drawn := st.drawn + {id});
      Moves(w, st, st') && KnowsPush(w, st', pc')
  {
    hide Moves, StoreOk, KnowsPush, StepPush;
    if Pushed(pc) {
      StepPushedKeeps(w, st, who, name, uploadId, pc, id, pick, now);
    } else {
      StepPushingKeeps(w, st, who, name, uploadId, pc, id, pick, now);
    }
  }

  /** A resource push up to its number. */
  lemma StepResourceReads(w: World, st: Store, who: Identity, name: string, resource: string, request: C.ResourcePush,
                          pc: ResourcePc, id: Id, now: Time)
    requires StoreOk(w, st) && id !in st.drawn && KnowsResourcePush(w, st, pc) && ResourceReading(pc)
    ensures var (s1, pc') := StepResource(w, st, who, name, resource, request, pc, id, now);
      var st' := s1.(drawn := st.drawn + {id});
      Moves(w, st, st') && KnowsResourcePush(w, st', pc')
  {
    hide Moves, StoreOk, KnowsResource, Follows, KnowsItem;
    var pc' := StepResource(w, st, who, name, resource, request, pc, id, now).1;
    Draw(w, st, id);
    match pc {
      case ResourceFind =>
        if pc'.ResourceAuth? { FoundIsDrawn(w, st, name); }
      case ResourceDef(pkg) =>
        if pc'.ResourceUpload? { FoundDefinition(w, st, pkg.id, resource); }
      case ResourceUpload(d) =>
        if pc'.ResourceBlob? { FoundUpload(w, st, request.uploadId); }
      case ResourceBlob(d, up) => FoundBlob(w, st, up);
      case ResourceNumber(d, up, payload) => FirstFollows(w, st, d.id);
      case _ =>
    }
  }

  predicate ResourceReading(pc: ResourcePc) {
    !pc.ResourceCreate? && !pc.ResourceApprove? && !pc.ResourceDone? && !pc.ResourceFailed?
  }

  /** The insertion itself. */
  lemma StepResourceCreates(w: World, st: Store, who: Identity, name: string, resource: string, request: C.ResourcePush,
                            pc: ResourcePc, id: Id, now: Time)
    requires StoreOk(w, st) && id !in st.drawn && KnowsResourcePush(w, st, pc) && pc.ResourceCreate?
    ensures var (s1, pc') := StepResource(w, st, who, name, resource, request, pc, id, now);
      var st' := s1.(drawn := st.drawn + {id});
      Moves(w, st, st') && KnowsResourcePush(w, st', pc')
  {
    hide Moves, StoreOk, KnowsResource, KnowsResourceNumber, KnowsUpload, KnowsDefinition, C.NewResourceRevision;
    Draw(w, st, id);
    AddResource(w, st, pc.d, pc.up, pc.payload, pc.n, request.kind, request.bases, request.architectures, id, now);
  }

  /** A resource push whose row is in, or that has failed. */
  lemma StepResourceEnds(w: World, st: Store, who: Identity, name: string, resource: string, request: C.ResourcePush,
                         pc: ResourcePc, id: Id, now: Time)
    requires StoreOk(w, st) && id !in st.drawn && KnowsResourcePush(w, st, pc)
    requires !ResourceReading(pc) && !pc.ResourceCreate?
    ensures var (s1, pc') := StepResource(w, st, who, name, resource, request, pc, id, now);
      var st' := s1.(drawn := st.drawn + {id});
      Moves(w, st, st') && KnowsResourcePush(w, st', pc')
  {
    hide Moves, StoreOk, KnowsResource, KnowsDefinition;
    var st' := StepResource(w, st, who, name, resource, request, pc, id, now).0.(drawn := st.drawn + {id});
    Draw(w, st, id);
    if pc.ResourceApprove? {
      Approve(w, st, id, pc.up.id, Some(pc.n), [], now);
    }
    ResourceKnowledgeLasts(w, st, st', pc);
  }

  lemma StepResourceKeeps(w: World, st: Store, who: Identity, name: string, resource: string, request: C.ResourcePush,
                          pc: ResourcePc, id: Id, now: Time)
    requires StoreOk(w, st) && id !in st.drawn && KnowsResourcePush(w, st, pc)
    ensures var (s1, pc') := StepResource(w, st, who, name, resource, request, pc, id, now);
      var st' := s1.(drawn := st.drawn + {id});
      Moves(w, st, st') && KnowsResourcePush(w, st', pc')
  {
    hide Moves, StoreOk, KnowsResourcePush, StepResource;
    if ResourceReading(pc) {
      StepResourceReads(w, st, who, name, resource, request, pc, id, now);
    } else if pc.ResourceCreate? {
      StepResourceCreates(w, st, who, name, resource, request, pc, id, now);
    } else {
      StepResourceEnds(w, st, who, name, resource, request, pc, id, now);
    }
  }

  lemma StepReleaseKeeps(w: World, st: Store, who: Identity, name: string, requests: seq<Release>, pc: ReleasePc,
                         id: Id, now: Time)
    requires StoreOk(w, st) && KnowsRelease(st, requests, pc)
    ensures var (s1, pc') := StepRelease(st, who, name, requests, pc, id, now);
      var st' := s1.(drawn := st.drawn + {id});
      Moves(w, st, st') && KnowsRelease(st', requests, pc')
  {
    hide Moves, StoreOk;
    var (s1, pc') := StepRelease(st, who, name, requests, pc, id, now);
    Draw(w, st, id);
    match pc {
      case ReleaseFind =>
        if pc'.ReleaseAuth? { FoundIsDrawn(w, st, name); }
      case ReleaseStore(pkg, i) =>
        Released(w, st, id, pkg.id, C.StampRelease(requests[i], id, now));
      case ReleasePublish(pkg) => Published(w, st, id, pkg.(status := "published", updatedAt := now));
      case _ =>
    }
  }

  lemma StepUnregisterKeeps(w: World, st: Store, who: Identity, name: string, pc: UnregisterPc, id: Id)
    requires StoreOk(w, st)
    ensures Moves(w, st, StepUnregister(st, who, name, pc).0.(drawn := st.drawn + {id}))
  {
    hide Moves, StoreOk;
    Draw(w, st, id);
    match pc {
      case UnregisterDelete(pkg) => Deleted(w, st, id, pkg.id);
      case _ =>
    }
  }

  lemma StepUploadKeeps(w: World, st: Store, filename: string, payload: Bytes, pc: UploadPc, id: Id, now: Time)
    requires StoreOk(w, st) && id !in st.drawn && '/' !in id && KnowsUploading(w, st, filename, payload, pc)
    ensures var (s1, pc') := StepUpload(w, st, filename, payload, pc, id, now);
      var st' := s1.(drawn := st.drawn + {id});
      Moves(w, st, st') && KnowsUploading(w, st', filename, payload, pc')
  {
    hide Moves, StoreOk;
    Draw(w, st, id);
    match pc {
      case UploadPut => PutBlob(w, st, filename, payload, id, now);
      case UploadInsert(up) => AddUpload(w, st, id, up);
      case _ =>
    }
  }

  lemma StepUpdateKeeps(w: World, st: Store, who: Identity, name: string, resource: string,
                        updates: seq<C.ResourceUpdate>, pc: UpdatePc, id: Id)
    requires StoreOk(w, st) && KnowsUpdate(st, pc)
    ensures var (s1, pc') := StepUpdate(st, who, name, resource, updates, pc);
      var st' := s1.(drawn := st.drawn + {id});
      Moves(w, st, st') && KnowsUpdate(st', pc')
  {
    hide Moves, StoreOk;
    var (s1, pc') := StepUpdate(st, who, name, resource, updates, pc);
    Draw(w, st, id);
    match pc {
      case UpdateDef(pkg) =>
        if pc'.UpdateRead? { FoundDefinition(w, st, pkg.id, resource); }
      case UpdateRead(d, i) =>
        if pc'.UpdateWrite? { FoundItem(w, st, d.id, updates[i].number); }
      case UpdateWrite(d, i, item) =>
        if i < |updates| {
          var r := item.(bases := updates[i].bases, architectures := updates[i].architectures);
          WriteKeeps(w, st, d, item, r, id);
        }
      case _ =>
    }
  }

  lemma Rewritten(w: World, st: Store, r: ResourceRevision, id: Id)
    requires StoreOk(w, st)
    requires (r.resourceId, r.number) in st.db.resourceRevs ==>
               SameArtefact(st.db.resourceRevs[(r.resourceId, r.number)], r)
    ensures Moves(w, st, st.(db := Sql.UpdateResourceRevision(st.db, r).0, drawn := st.drawn + {id}))
  {
    hide Consistent, Evolves, IdsDrawn, Steps, UploadsIntact, CharmsIntact, ResourcesIntact, HistoryDrawn, Moves;
    UpdateResourceRevisionSteps(st.drawn, st.db, r);
    Quiet(w, st, Sql.UpdateResourceRevision(st.db, r).0, st.drawn + {id});
  }

  lemma WriteKeeps(w: World, st: Store, d: ResourceDefinition, item: ResourceRevision, r: ResourceRevision, id: Id)
    requires StoreOk(w, st) && KnowsDefinition(st, d) && KnowsItem(st, d.id, item) && SameArtefact(item, r)
    ensures var st' := st.(db := Sql.UpdateResourceRevision(st.db, r).0, drawn := st.drawn + {id});
      Moves(w, st, st') && KnowsDefinition(st', d)
  {
    hide Moves;
    assert (r.resourceId, r.number) in st.db.resourceRevs ==> Sql.DefinitionId(st.db.defs, d.id);
    Rewritten(w, st, r, id);
  }

  lemma StepClientKeeps(w: World, st: Store, c: Client, id: Id, pick: string, now: Time)
    requires StoreOk(w, st) && id !in st.drawn && '/' !in id && Knows(w, st, c)
    ensures var (s1, c') := StepClient(w, st, c, id, pick, now);
      var st' := s1.(drawn := st.drawn + {id});
      Moves(w, st, st') && Knows(w, st', c')
  {
    hide Moves, StoreOk, KnowsPush, KnowsResourcePush, KnowsRelease, KnowsUploading, KnowsUpdate;
    hide StepPush, StepResource, StepRelease, StepUnregister, StepUpload, StepUpdate;
    match c {
      case Pusher(who, name, uploadId, pc) => StepPushKeeps(w, st, who, name, uploadId, pc, id, pick, now);
      case ResourcePusher(who, name, resource, request, pc) =>
        StepResourceKeeps(w, st, who, name, resource, request, pc, id, now);
      case Releaser(who, name, requests, pc) => StepReleaseKeeps(w, st, who, name, requests, pc, id, now);
      case Unregisterer(who, name, pc) => StepUnregisterKeeps(w, st, who, name, pc, id);
      case Uploader(filename, payload, pc) => StepUploadKeeps(w, st, filename, payload, pc, id, now);
      case Updater(who, name, resource, updates, pc) => StepUpdateKeeps(w, st, who, name, resource, updates, pc, id);
    }
  }

  lemma TrafficKeepsStore(w: World, s: State, e: Event)
    requires Inv(w, s) && Enabled(s, e) && !e.Act?
    ensures Moves(w, s.st, StepStore(w, s, e))
  {
    hide Moves, StoreOk, Knows;
    var st := s.st;
    match e {
      case Register(pkg) => Registered(w, st, pkg);
      case Edit(pkg) => Edited(w, st, pkg);
      case AddTrack(p, track) => Tracked(w, st, p, track);
      case AccessLists(accounts, members, acl) => Regranted(w, st, accounts, members, acl);
      case _ => Stutter(w, st);
    }
  }

  lemma ActStore(w: World, s: State, c: ClientId, id: Id, pick: string, now: Time)
    requires c in s.clients
    ensures StepStore(w, s, Act(c, id, pick, now))
            == StepClient(w, s.st, s.clients[c], id, pick, now).0.(drawn := s.st.drawn + {id})
  {
    hide StepPush, StepResource, StepRelease, StepUnregister, StepUpload, StepUpdate;
  }

  lemma StepKeepsStore(w: World, s: State, e: Event)
    requires Inv(w, s) && Enabled(s, e)
    ensures Moves(w, s.st, StepStore(w, s, e))
  {
    hide Moves, StoreOk, Knows, StepStore, StepClient;
    match e {
      case Act(c, id, pick, now) =>
        ActStore(w, s, c, id, pick, now);
        StepClientKeeps(w, s.st, s.clients[c], id, pick, now);
      case _ => TrafficKeepsStore(w, s, e);
    }
  }

  /** One event, whoever causes it. */
  lemma StepKeepsInv(w: World, s: State, e: Event)
    requires Inv(w, s) && Enabled(s, e)
    ensures Inv(w, Step(w, s, e)) && StoreEvolves(s.st, Step(w, s, e).st)
  {
    StepKeepsStore(w, s, e);
    var s' := Step(w, s, e);
    forall c | c in s'.clients ensures Knows(w, s'.st, s'.clients[c]) {
      if e.Act? && c == e.c {
        StepClientKeeps(w, s.st, s.clients[c], e.newId, e.pick, e.now);
      } else if e.Start? && c == e.c {
        assert Starting(e.client);
      } else {
        KnowledgeLasts(w, s.st, s'.st, s.clients[c]);
      }
    }
  }
}
