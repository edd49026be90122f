/** The two models of a service call are one: a client of the concurrent protocol that runs from its
    start to its end with nobody in between leaves the tables, and answers, as the atomic call does. */
module Uninterrupted {
  import opened Core
  import opened Access
  import opened Protocol
  import opened Repository
  import Sql = Tables
  import C = Calls

  // ---------- unregister ----------

  function UnregisterRank(pc: UnregisterPc): nat {
    match pc
    case UnregisterFind => 5
    case UnregisterAuth(_) => 4
    case UnregisterAcl(_) => 3
    case UnregisterList(_) => 2
    case UnregisterDelete(_) => 1
    case _ => 0
  }

  function FinishUnregister(st: Store, who: Identity, name: string, pc: UnregisterPc): (Store, UnregisterPc)
    decreases UnregisterRank(pc)
  {
    if UnregisterRank(pc) == 0 then (st, pc)
    else
      var (st', pc') := StepUnregister(st, who, name, pc);
      FinishUnregister(st', who, name, pc')
  }

  lemma UnregisterOne(st: Store, who: Identity, name: string, pc: UnregisterPc) returns (st': Store, pc': UnregisterPc)
    requires UnregisterRank(pc) > 0
    ensures (st', pc') == StepUnregister(st, who, name, pc)
    ensures FinishUnregister(st, who, name, pc) == FinishUnregister(st', who, name, pc')
    ensures UnregisterRank(pc') == 0 ==> FinishUnregister(st', who, name, pc') == (st', pc')
  {
    var next := StepUnregister(st, who, name, pc);
    st', pc' := next.0, next.1;
  }

  lemma UnregisterAlone(st: Store, who: Identity, name: string)
    ensures var (st', pc) := FinishUnregister(st, who, name, UnregisterFind);
      var (r, res) := C.UnregisterPackage(Postgres(st.db), who, name);
      && r == Postgres(st'.db) && st' == st.(db := st'.db)
      && match res
         case Ok(p) => pc == UnregisterDone(p)
         case Err(e) => pc == UnregisterFailed(e)
  {
    hide RequirePermission, Sql.CanAccess, Sql.HasRole, FinishUnregister, FirstRead, AclRead, ManageVerdict;
    var s1, pc1 := UnregisterOne(st, who, name, UnregisterFind);
    if pc1.UnregisterAuth? {
      TwoReads(st.db, who, pc1.pkg, PACKAGE_MANAGE);
      var s2, pc2 := UnregisterOne(s1, who, name, pc1);
      if pc2.UnregisterAcl? {
        s2, pc2 := UnregisterOne(s2, who, name, pc2);
      }
      if pc2.UnregisterList? {
        var s3, pc3 := UnregisterOne(s2, who, name, pc2);
        if pc3.UnregisterDelete? {
          var s4, pc4 := UnregisterOne(s3, who, name, pc3);
        }
      }
    }
  }

  // ---------- release ----------

  function ReleaseRank(requests: seq<Release>, pc: ReleasePc): nat {
    match pc
    case ReleaseFind => 2 * |requests| + 6
    case ReleaseAuth(_) => 2 * |requests| + 5
    case ReleaseAcl(_) => 2 * |requests| + 4
    case ReleaseCheck(_, i) => if i <= |requests| then 2 * (|requests| - i) + 3 else 2
    case ReleaseStore(_, i) => if i < |requests| then 2 * (|requests| - i) + 2 else 0
    case ReleasePublish(_) => 1
    case _ => 0
  }

  /** The id that a step draws: that of the request it stores. */
  function ReleaseId(ids: seq<Id>, pc: ReleasePc): Id {
    if pc.ReleaseStore? && pc.i < |ids| then ids[pc.i] else ""
  }

  function FinishRelease(st: Store, who: Identity, name: string, requests: seq<Release>, ids: seq<Id>, pc: ReleasePc,
                         now: Time)
    : (Store, ReleasePc)
    decreases ReleaseRank(requests, pc)
  {
    if ReleaseRank(requests, pc) == 0 then (st, pc)
    else
      var (st', pc') := StepRelease(st, who, name, requests, pc, ReleaseId(ids, pc), now);
      FinishRelease(st', who, name, requests, ids, pc', now)
  }

  lemma ReleaseStep(st: Store, who: Identity, name: string, requests: seq<Release>, ids: seq<Id>, pc: ReleasePc,
                    now: Time)
    returns (st': Store, pc': ReleasePc)
    requires ReleaseRank(requests, pc) > 0
    ensures (st', pc') == StepRelease(st, who, name, requests, pc, ReleaseId(ids, pc), now)
    ensures FinishRelease(st, who, name, requests, ids, pc, now)
      == FinishRelease(st', who, name, requests, ids, pc', now)
    ensures ReleaseRank(requests, pc') == 0 ==> FinishRelease(st', who, name, requests, ids, pc', now) == (st', pc')
  {
    var next := StepRelease(st, who, name, requests, pc, ReleaseId(ids, pc), now);
    st', pc' := next.0, next.1;
  }

  /** From round `i` on: the rest of the loop, then the update of the package. */
  lemma {:induction false} ReleaseFrom(st: Store, who: Identity, name: string, requests: seq<Release>, ids: seq<Id>,
                                       pkg: Package, i: nat, now: Time)
    requires |ids| == |requests| && i <= |requests|
    ensures var (st', pc) := FinishRelease(st, who, name, requests, ids, ReleaseCheck(pkg, i), now);
      var (r, _, out) := C.ReleaseEach(Postgres(st.db), who, pkg.id, requests[i..], ids[i..], now);
      && st' == st.(db := st'.db)
      && if out.Fail? then r == Postgres(st'.db) && pc == ReleaseFailed(out.error)
         else
           var (r2, out2) := UpdatePackage(r, pkg.(status := "published", updatedAt := now));
           r2 == Postgres(st'.db) && pc == if out2.Fail? then ReleaseFailed(out2.error) else ReleaseDone(pkg)
    decreases |requests| - i
  {
    hide EnforceChannel, FinishRelease;
    var s1, pc1 := ReleaseStep(st, who, name, requests, ids, ReleaseCheck(pkg, i), now);
    if pc1.ReleaseStore? {
      assert requests[i..][1..] == requests[i + 1..] && ids[i..][1..] == ids[i + 1..];
      var s2, pc2 := ReleaseStep(s1, who, name, requests, ids, pc1, now);
      if pc2.ReleaseCheck? {
        ReleaseFrom(s2, who, name, requests, ids, pkg, i + 1, now);
      }
    } else if pc1.ReleasePublish? {
      var s2, pc2 := ReleaseStep(s1, who, name, requests, ids, pc1, now);
    }
  }

  lemma ReleaseAlone(st: Store, who: Identity, name: string, requests: seq<Release>, ids: seq<Id>, now: Time)
    requires |ids| == |requests|
    ensures var (st', pc) := FinishRelease(st, who, name, requests, ids, ReleaseFind, now);
      var (r, res) := C.Release(Postgres(st.db), who, name, requests, ids, now);
      && r == Postgres(st'.db) && st' == st.(db := st'.db)
      && match res
         case Ok(_) => pc.ReleaseDone?
         case Err(e) => pc == ReleaseFailed(e)
  {
    hide RequirePermission, Sql.CanAccess, Sql.HasRole, C.ReleaseManaged, FinishRelease, FirstRead, AclRead,
         ManageVerdict;
    var s1, pc1 := ReleaseStep(st, who, name, requests, ids, ReleaseFind, now);
    if pc1.ReleaseAuth? {
      TwoReads(st.db, who, pc1.pkg, MANAGE_RELEASES);
      var s2, pc2 := ReleaseStep(s1, who, name, requests, ids, pc1, now);
      if pc2.ReleaseAcl? {
        s2, pc2 := ReleaseStep(s2, who, name, requests, ids, pc2, now);
      }
      if pc2.ReleaseCheck? {
        ReleaseLoopAlone(st, who, name, requests, ids, pc1.pkg, now);
      }
    }
  }

  lemma ReleaseLoopAlone(st: Store, who: Identity, name: string, requests: seq<Release>, ids: seq<Id>, pkg: Package,
                         now: Time)
    requires |ids| == |requests|
    ensures var (st', pc) := FinishRelease(st, who, name, requests, ids, ReleaseCheck(pkg, 0), now);
      var (r, res) := C.ReleaseManaged(Postgres(st.db), who, pkg, requests, ids, now);
      && r == Postgres(st'.db) && st' == st.(db := st'.db)
      && match res
         case Ok(_) => pc.ReleaseDone?
         case Err(e) => pc == ReleaseFailed(e)
  {
    hide FinishRelease, C.ReleaseEach, C.StampAll, StepRelease;
    assert requests[0..] == requests && ids[0..] == ids;
    ReleaseFrom(st, who, name, requests, ids, pkg, 0, now);
  }

  // ---------- push a charm revision ----------

  function PushRank(pc: PushPc): nat {
    match pc
    case PushFind => 10
    case PushAuth(_) => 9
    case PushAcl(_) => 8
    case PushUpload(_) => 7
    case PushBlob(_, _) => 6
    case PushNumber(_, _, _) => 5
    case PushCreate(_, _, _, _) => 4
    case PushApprove(_, _, _, _, _) => 3
    case PushPublish(_, _, _, _, _) => 2
    case PushReject(_) => 2
    case PushDefine(_, _, _, _, _) => 1
    case _ => 0
  }

  /** `row` is the id of the new revision; `order` is the order in which the declared resources are
      ranged over, each with the id drawn for it. */
  function FinishPush(w: World, st: Store, who: Identity, name: string, uploadId: Id, pc: PushPc, row: Id,
                      order: seq<(string, Id)>, now: Time): (Store, PushPc)
    decreases PushRank(pc), |order|
  {
    if PushRank(pc) == 0 then (st, pc)
    else if pc.PushDefine? && order != [] then
      var (st', pc') := StepPush(w, st, who, name, uploadId, pc, order[0].1, order[0].0, now);
      FinishPush(w, st', who, name, uploadId, pc', row, order[1..], now)
    else
      var (st', pc') := StepPush(w, st, who, name, uploadId, pc, row, "", now);
      if pc'.PushDefine? && pc.PushDefine? then (st', pc')
      else FinishPush(w, st', who, name, uploadId, pc', row, order, now)
  }

  /** `order` ranges over the keys of `todo`, each once. */
  predicate Ranges(order: seq<(string, Id)>, todo: map<string, ResourceDecl>)
    decreases |order|
  {
    if order == [] then todo == map[]
    else order[0].0 in todo && Ranges(order[1..], todo - {order[0].0})
  }

  lemma {:induction false} DefineAlone(w: World, st: Store, who: Identity, name: string, uploadId: Id, pkg: Package,
                                       up: Upload, n: int, row: Id, archive: Archive, todo: map<string, ResourceDecl>,
                                       order: seq<(string, Id)>, now: Time)
    requires Ranges(order, todo) && (forall k | k in todo :: k in archive.resources && archive.resources[k] == todo[k])
    ensures var (st', pc) := FinishPush(w, st, who, name, uploadId, PushDefine(pkg, up, n, row, todo), row, order, now);
      var (r, out) := C.UpsertAll(Postgres(st.db), pkg.id, archive, order, now);
      && r == Postgres(st'.db) && st' == st.(db := st'.db)
      && pc == if out.Fail? then PushFailed(out.error) else PushDone(pkg, up, n, row)
    decreases |order|
  {
    var pc := PushDefine(pkg, up, n, row, todo);
    if order == [] {
      var (s1, pc1) := StepPush(w, st, who, name, uploadId, pc, row, "", now);
      assert FinishPush(w, s1, who, name, uploadId, pc1, row, order, now) == (s1, pc1);
    } else {
      var (s1, pc1) := StepPush(w, st, who, name, uploadId, pc, order[0].1, order[0].0, now);
      assert FinishPush(w, st, who, name, uploadId, pc, row, order, now)
          == FinishPush(w, s1, who, name, uploadId, pc1, row, order[1..], now);
      if pc1.PushDefine? {
        DefineAlone(w, s1, who, name, uploadId, pkg, up, n, row, archive, todo - {order[0].0}, order[1..], now);
      }
    }
  }

  /** One step that is not about the declared resources. */
  lemma PushOne(w: World, st: Store, who: Identity, name: string, uploadId: Id, pc: PushPc, row: Id,
                order: seq<(string, Id)>, now: Time)
    returns (st': Store, pc': PushPc)
    requires PushRank(pc) > 1
    ensures (st', pc') == StepPush(w, st, who, name, uploadId, pc, row, "", now)
    ensures FinishPush(w, st, who, name, uploadId, pc, row, order, now)
      == FinishPush(w, st', who, name, uploadId, pc', row, order, now)
    ensures PushRank(pc') == 0 ==> FinishPush(w, st', who, name, uploadId, pc', row, order, now) == (st', pc')
  {
    var step := StepPush(w, st, who, name, uploadId, pc, row, "", now);
    st', pc' := step.0, step.1;
  }

  /** From the stored revision on. */
  lemma StoredAlone(w: World, st: Store, who: Identity, name: string, uploadId: Id, pkg: Package, up: Upload,
                    archive: Archive, n: int, row: Id, order: seq<(string, Id)>, now: Time)
    requires Ranges(order, archive.resources)
    ensures var (st', pc) := FinishPush(w, st, who, name, uploadId, PushApprove(pkg, up, archive, n, row), row, order,
                                        now);
      var (r, res) := C.FinishPush(w, Postgres(st.db), name, pkg, up, archive, n, order, now);
      && r == Postgres(st'.db) && st'.blobs == st.blobs
      && match res
         case Ok(_) => pc.PushDone?
         case Err(e) => pc == PushFailed(e)
  {
    hide C.Published, FinishPush, Ranges, C.UpsertAll, Sql.Reviewed, Sql.Patched, C.ReviewURL;
    var s1, pc1 := PushOne(w, st, who, name, uploadId, PushApprove(pkg, up, archive, n, row), row, order, now);
    if pc1.PushPublish? {
      var s2, pc2 := PushOne(w, s1, who, name, uploadId, pc1, row, order, now);
      if pc2.PushDefine? {
        DefineAlone(w, s2, who, name, uploadId, pkg, up, n, row, archive, archive.resources, order, now);
      }
    }
  }

  /** From the parsed archive on. */
  lemma ArchiveAlone(w: World, st: Store, who: Identity, name: string, uploadId: Id, pkg: Package, up: Upload,
                     archive: Archive, row: Id, order: seq<(string, Id)>, now: Time)
    requires Ranges(order, archive.resources)
    ensures var (st', pc) := FinishPush(w, st, who, name, uploadId, PushNumber(pkg, up, archive), row, order, now);
      var (r, res) := C.PushArchive(w, Postgres(st.db), who, name, pkg, up, archive, row, order, now);
      && r == Postgres(st'.db) && st'.blobs == st.blobs
      && match res
         case Ok(_) => pc.PushDone?
         case Err(e) => pc == PushFailed(e)
  {
    hide C.NewRevision, Sql.GetLatestRevision, FinishPush, Ranges, C.FinishPush, C.NextNumber;
    var s1, pc1 := PushOne(w, st, who, name, uploadId, PushNumber(pkg, up, archive), row, order, now);
    var s2, pc2 := PushOne(w, s1, who, name, uploadId, pc1, row, order, now);
    if pc2.PushApprove? {
      StoredAlone(w, s2, who, name, uploadId, pkg, up, archive, pc1.n, row, order, now);
    }
  }

  /** The declared resources of the archive that this upload holds, if any. */
  predicate RangesUpload(w: World, st: Store, uploadId: Id, order: seq<(string, Id)>) {
    uploadId in st.db.uploads && st.db.uploads[uploadId].objectKey in st.blobs
    && w.parse(st.blobs[st.db.uploads[uploadId].objectKey]).Some?
    ==> Ranges(order, w.parse(st.blobs[st.db.uploads[uploadId].objectKey]).value.resources)
  }

  lemma PushAlone(w: World, st: Store, who: Identity, name: string, uploadId: Id, row: Id, order: seq<(string, Id)>,
                  now: Time)
    requires RangesUpload(w, st, uploadId, order)
    ensures var (st', pc) := FinishPush(w, st, who, name, uploadId, PushFind, row, order, now);
      var (r, res) := C.PushRevision(w, Postgres(st.db), st.blobs, who, name, uploadId, row, order, now);
      && r == Postgres(st'.db) && st'.blobs == st.blobs
      && match res
         case Ok(_) => pc.PushDone?
         case Err(e) => pc == PushFailed(e)
  {
    hide RequirePermission, Sql.CanAccess, Sql.HasRole, C.PushManaged, RangesUpload, FinishPush, FirstRead, AclRead,
         ManageVerdict;
    var s1, pc1 := PushOne(w, st, who, name, uploadId, PushFind, row, order, now);
    if pc1.PushAuth? {
      TwoReads(st.db, who, pc1.pkg, MANAGE_REVISIONS);
      var s2, pc2 := PushOne(w, s1, who, name, uploadId, pc1, row, order, now);
      if pc2.PushAcl? {
        s2, pc2 := PushOne(w, s2, who, name, uploadId, pc2, row, order, now);
      }
      if pc2.PushUpload? {
        UploadAlone(w, st, who, name, uploadId, pc1.pkg, row, order, now);
      }
    }
  }

  /** Once the caller is known to manage the package. */
  lemma UploadAlone(w: World, st: Store, who: Identity, name: string, uploadId: Id, pkg: Package, row: Id,
                    order: seq<(string, Id)>, now: Time)
    requires RangesUpload(w, st, uploadId, order)
    ensures var (st', pc) := FinishPush(w, st, who, name, uploadId, PushUpload(pkg), row, order, now);
      var (r, res) := C.PushManaged(w, Postgres(st.db), st.blobs, who, name, pkg, uploadId, row, order, now);
      && r == Postgres(st'.db) && st'.blobs == st.blobs
      && match res
         case Ok(_) => pc.PushDone?
         case Err(e) => pc == PushFailed(e)
  {
    hide C.PushArchive, Ranges, FinishPush;
    var s1, pc1 := PushOne(w, st, who, name, uploadId, PushUpload(pkg), row, order, now);
    if pc1.PushBlob? {
      var s2, pc2 := PushOne(w, s1, who, name, uploadId, pc1, row, order, now);
      if pc2.PushNumber? {
        ArchiveAlone(w, st, who, name, uploadId, pkg, pc2.up, pc2.archive, row, order, now);
      } else if pc2.PushReject? {
        var s3, pc3 := PushOne(w, s2, who, name, uploadId, pc2, row, order, now);
      }
    }
  }

  // ---------- push a resource ----------

  function ResourceRank(pc: ResourcePc): nat {
    match pc
    case ResourceFind => 9
    case ResourceAuth(_) => 8
    case ResourceAcl(_) => 7
    case ResourceDef(_) => 6
    case ResourceUpload(_) => 5
    case ResourceBlob(_, _) => 4
    case ResourceNumber(_, _, _) => 3
    case ResourceCreate(_, _, _, _) => 2
    case ResourceApprove(_, _, _, _) => 1
    case _ => 0
  }

  function FinishResource(w: World, st: Store, who: Identity, name: string, resource: string, request: C.ResourcePush,
                          pc: ResourcePc, row: Id, now: Time): (Store, ResourcePc)
    decreases ResourceRank(pc)
  {
    if ResourceRank(pc) == 0 then (st, pc)
    else
      var (st', pc') := StepResource(w, st, who, name, resource, request, pc, row, now);
      FinishResource(w, st', who, name, resource, request, pc', row, now)
  }

  lemma ResourceOne(w: World, st: Store, who: Identity, name: string, resource: string, request: C.ResourcePush,
                    pc: ResourcePc, row: Id, now: Time) returns (st': Store, pc': ResourcePc)
    requires ResourceRank(pc) > 0
    ensures (st', pc') == StepResource(w, st, who, name, resource, request, pc, row, now)
    ensures FinishResource(w, st, who, name, resource, request, pc, row, now)
            == FinishResource(w, st', who, name, resource, request, pc', row, now)
    ensures ResourceRank(pc') == 0 ==> FinishResource(w, st', who, name, resource, request, pc', row, now) == (st', pc')
  {
    var next := StepResource(w, st, who, name, resource, request, pc, row, now);
    st', pc' := next.0, next.1;
  }

  /** From the computed number on. */
  lemma RowAlone(w: World, st: Store, who: Identity, name: string, resource: string, request: C.ResourcePush,
                 d: ResourceDefinition, up: Upload, payload: Bytes, n: int, row: Id, now: Time)
    ensures var (st', pc) := FinishResource(w, st, who, name, resource, request, ResourceCreate(d, up, payload, n), row,
                                            now);
      var added := C.NewResourceRevision(w, d, up, payload, n, request.kind, request.bases, request.architectures, row,
                                         now);
      var (r, res) := C.AddResourceRow(Postgres(st.db), name, up, added, now);
      && r == Postgres(st'.db) && st'.blobs == st.blobs
      && match res
         case Ok(_) => pc.ResourceDone?
         case Err(e) => pc == ResourceFailed(e)
  {
    hide FinishResource, Sql.Reviewed, C.ReviewURL, Sql.DefinitionId;
    var s1, pc1 := ResourceOne(w, st, who, name, resource, request, ResourceCreate(d, up, payload, n), row, now);
    if pc1.ResourceApprove? {
      var s2, pc2 := ResourceOne(w, s1, who, name, resource, request, pc1, row, now);
    }
  }

  /** From the definition on. */
  lemma StoreAlone(w: World, st: Store, who: Identity, name: string, resource: string, request: C.ResourcePush,
                   d: ResourceDefinition, row: Id, now: Time)
    ensures var (st', pc) := FinishResource(w, st, who, name, resource, request, ResourceUpload(d), row, now);
      var (r, res) := C.StoreResource(w, Postgres(st.db), st.blobs, name, d, request, row, now);
      && r == Postgres(st'.db) && st'.blobs == st.blobs
      && match res
         case Ok(_) => pc.ResourceDone?
         case Err(e) => pc == ResourceFailed(e)
  {
    hide C.NewResourceRevision, Sql.FirstResourceRevision, FinishResource, C.AddResourceRow, C.NextResourceNumber;
    var s1, pc1 := ResourceOne(w, st, who, name, resource, request, ResourceUpload(d), row, now);
    if pc1.ResourceBlob? {
      var s2, pc2 := ResourceOne(w, s1, who, name, resource, request, pc1, row, now);
      if pc2.ResourceNumber? {
        var s3, pc3 := ResourceOne(w, s2, who, name, resource, request, pc2, row, now);
        RowAlone(w, s3, who, name, resource, request, d, pc2.up, pc2.payload, pc3.n, row, now);
      }
    }
  }

  lemma ResourceAlone(w: World, st: Store, who: Identity, name: string, resource: string, request: C.ResourcePush,
                      row: Id, now: Time)
    ensures var (st', pc) := FinishResource(w, st, who, name, resource, request, ResourceFind, row, now);
      var (r, res) := C.PushResource(w, Postgres(st.db), st.blobs, who, name, resource, request, row, now);
      && r == Postgres(st'.db) && st'.blobs == st.blobs
      && match res
         case Ok(_) => pc.ResourceDone?
         case Err(e) => pc == ResourceFailed(e)
  {
    hide RequirePermission, Sql.CanAccess, Sql.HasRole, C.StoreResource, FinishResource, FirstRead, AclRead,
         ManageVerdict;
    var s1, pc1 := ResourceOne(w, st, who, name, resource, request, ResourceFind, row, now);
    if pc1.ResourceAuth? {
      TwoReads(st.db, who, pc1.pkg, MANAGE_REVISIONS);
      var s2, pc2 := ResourceOne(w, s1, who, name, resource, request, pc1, row, now);
      if pc2.ResourceAcl? {
        s2, pc2 := ResourceOne(w, s2, who, name, resource, request, pc2, row, now);
      }
      if pc2.ResourceDef? {
        var s3, pc3 := ResourceOne(w, s2, who, name, resource, request, pc2, row, now);
        if pc3.ResourceUpload? {
          StoreAlone(w, st, who, name, resource, request, pc3.d, row, now);
        }
      }
    }
  }

  // ---------- upload ----------

  /** An uploading client puts the blob and then inserts the row. */
  lemma UploaderAlone(w: World, st: Store, filename: string, payload: Bytes, id: Id, now: Time)
    ensures var (s1, pc1) := StepUpload(w, st, filename, payload, UploadPut, id, now);
      var (s2, pc2) := StepUpload(w, s1, filename, payload, pc1, "", now);
      var (r, blobs, res) := C.CreateUpload(w, Postgres(st.db), st.blobs, filename, payload, id, now);
      && r == Postgres(s2.db) && s2.blobs == blobs && s2.payloads == st.payloads[id := payload]
      && match res
         case Ok(up) => pc2 == UploadDone(up)
         case Err(e) => pc2 == UploadFailed(e)
  {}

  // ---------- update of resource revisions ----------

  function UpdateRank(updates: seq<C.ResourceUpdate>, pc: UpdatePc): nat {
    match pc
    case UpdateFind => 2 * |updates| + 6
    case UpdateAuth(_) => 2 * |updates| + 5
    case UpdateAcl(_) => 2 * |updates| + 4
    case UpdateDef(_) => 2 * |updates| + 3
    case UpdateRead(_, i) => if i <= |updates| then 2 * (|updates| - i) + 1 else 1
    case UpdateWrite(_, i, _) => if i < |updates| then 2 * (|updates| - i) else 0
    case _ => 0
  }

  function FinishUpdate(st: Store, who: Identity, name: string, resource: string, updates: seq<C.ResourceUpdate>,
                        pc: UpdatePc): (Store, UpdatePc)
    decreases UpdateRank(updates, pc)
  {
    if UpdateRank(updates, pc) == 0 then (st, pc)
    else
      var (st', pc') := StepUpdate(st, who, name, resource, updates, pc);
      FinishUpdate(st', who, name, resource, updates, pc')
  }

  lemma UpdateStep(st: Store, who: Identity, name: string, resource: string, updates: seq<C.ResourceUpdate>,
                   pc: UpdatePc)
    returns (st': Store, pc': UpdatePc)
    requires UpdateRank(updates, pc) > 0
    ensures (st', pc') == StepUpdate(st, who, name, resource, updates, pc)
    ensures FinishUpdate(st, who, name, resource, updates, pc) == FinishUpdate(st', who, name, resource, updates, pc')
    ensures UpdateRank(updates, pc') == 0 ==>
              FinishUpdate(st', who, name, resource, updates, pc') == (st', pc')
  {
    var next := StepUpdate(st, who, name, resource, updates, pc);
    st', pc' := next.0, next.1;
  }

  /** From update `i` on: the rest of the loop, counted from there. */
  lemma {:induction false} UpdateFrom(st: Store, who: Identity, name: string, resource: string,
                                      updates: seq<C.ResourceUpdate>, d: ResourceDefinition, i: nat)
    requires i <= |updates|
    ensures var (st', pc) := FinishUpdate(st, who, name, resource, updates, UpdateRead(d, i));
      var (r, done, out) := C.UpdateEach(Postgres(st.db), d.id, updates[i..]);
      && r == Postgres(st'.db) && st' == st.(db := st'.db)
      && pc == if out.Fail? then UpdateFailed(i + done, out.error) else UpdateDone(i + done)
    decreases |updates| - i
  {
    hide FinishUpdate, Sql.UpdateResourceRevision, Sql.GetResourceRevision;
    var s1, pc1 := UpdateStep(st, who, name, resource, updates, UpdateRead(d, i));
    if pc1.UpdateWrite? {
      assert updates[i..][1..] == updates[i + 1..];
      var s2, pc2 := UpdateStep(s1, who, name, resource, updates, pc1);
      if pc2.UpdateRead? {
        UpdateFrom(s2, who, name, resource, updates, d, i + 1);
      }
    }
  }

  lemma UpdateAlone(st: Store, who: Identity, name: string, resource: string, updates: seq<C.ResourceUpdate>)
    ensures var (st', pc) := FinishUpdate(st, who, name, resource, updates, UpdateFind);
      var (r, done, out) := C.UpdateResources(Postgres(st.db), who, name, resource, updates);
      && r == Postgres(st'.db) && st' == st.(db := st'.db)
      && pc == if out.Fail? then UpdateFailed(done, out.error) else UpdateDone(done)
  {
    hide RequirePermission, Sql.CanAccess, Sql.HasRole, C.UpdateEach, FinishUpdate, FirstRead, AclRead, ManageVerdict;
    var s1, pc1 := UpdateStep(st, who, name, resource, updates, UpdateFind);
    if pc1.UpdateAuth? {
      TwoReads(st.db, who, pc1.pkg, MANAGE_REVISIONS);
      var s2, pc2 := UpdateStep(s1, who, name, resource, updates, pc1);
      if pc2.UpdateAcl? {
        s2, pc2 := UpdateStep(s2, who, name, resource, updates, pc2);
      }
      if pc2.UpdateDef? {
        var s3, pc3 := UpdateStep(s2, who, name, resource, updates, pc2);
        if pc3.UpdateRead? {
          assert updates[0..] == updates;
          UpdateFrom(st, who, name, resource, updates, pc3.d, 0);
        }
      }
    }
  }
}
