/** What a push leaves behind, row by row and on either repository: the revision, the review of its upload,
    the package and the declared resources; and for a resource push its row and its review. */
module PushResults {
  import opened Core
  import opened Repository
  import opened Access
  import opened AccessTheorems
  import opened Health
  import C = Calls
  import F = Filenames
  import I = Invariants
  import M = MemoryModel
  import MN = MemoryNumbering
  import Sessions
  import SS = SimulationSteps
  import Sql = Tables

  // ---------- which tables a step leaves alone ----------

  predicate SamePackages(r: Repository, r': Repository) {
    match (r, r')
    case (InMemory(m), InMemory(m')) => m'.packages == m.packages && m'.packagesById == m.packagesById
    case (Postgres(t), Postgres(t')) => t'.packages == t.packages && t'.names == t.names
    case _ => false
  }

  predicate SameUploads(r: Repository, r': Repository) {
    match (r, r')
    case (InMemory(m), InMemory(m')) => m'.uploads == m.uploads
    case (Postgres(t), Postgres(t')) => t'.uploads == t.uploads
    case _ => false
  }

  predicate SameRevisions(r: Repository, r': Repository) {
    match (r, r')
    case (InMemory(m), InMemory(m')) => m'.revisions == m.revisions
    case (Postgres(t), Postgres(t')) => t'.revisions == t.revisions
    case _ => false
  }

  predicate SameDefinitions(r: Repository, r': Repository) {
    match (r, r')
    case (InMemory(m), InMemory(m')) => m'.defs == m.defs
    case (Postgres(t), Postgres(t')) => t'.defs == t.defs
    case _ => false
  }

  /** Resource revisions and releases. */
  predicate SameOthers(r: Repository, r': Repository) {
    match (r, r')
    case (InMemory(m), InMemory(m')) => m'.resourceRevs == m.resourceRevs && m'.releases == m.releases
    case (Postgres(t), Postgres(t')) => t'.resourceRevs == t.resourceRevs && t'.releases == t.releases
    case _ => false
  }

  /** What the lookups see of tables that are left alone. */
  lemma SameLookups(r: Repository, r': Repository)
    ensures SamePackages(r, r') ==>
              && (Indexed(r) ==> Indexed(r'))
              && (forall p :: GetPackageByID(r', p) == GetPackageByID(r, p))
              && (forall name :: GetPackageByName(r', name) == GetPackageByName(r, name))
    ensures SameUploads(r, r') ==> forall i :: GetUpload(r', i) == GetUpload(r, i)
    ensures SameRevisions(r, r') ==>
              && (forall p :: GetLatestRevision(r', p) == GetLatestRevision(r, p))
              && (forall p, n :: GetRevisionByNumber(r', p, n) == GetRevisionByNumber(r, p, n))
    ensures SameDefinitions(r, r') ==> forall p, name :: GetDefinition(r', p, name) == GetDefinition(r, p, name)
  {
    if SameRevisions(r, r') && r.Postgres? {
      forall p ensures Sql.Numbers(r'.t, p) == Sql.Numbers(r.t, p) {}
    }
  }

  lemma SameOthersTwice(a: Repository, b: Repository, c: Repository)
    ensures SameOthers(a, b) && SameOthers(b, c) ==> SameOthers(a, c)
  {}

  lemma OnlyDefinitionsKeeps(r: Repository, r': Repository)
    requires OnlyDefinitions(r, r')
    ensures SamePackages(r, r') && SameUploads(r, r') && SameRevisions(r, r') && SameOthers(r, r')
  {}

  // ---------- the revision ----------

  /** One more than the latest number, 1 for the first. */
  function NumberAfter(latest: Option<Revision>): int {
    match latest case None => 1 case Some(row) => row.number + 1
  }

  lemma RevisionAdded(r: Repository, row: Revision)
    requires Healthy(r) && CreateRevision(r, row).1.Pass?
    requires row.number == NumberAfter(GetLatestRevision(r, row.packageId))
    ensures var r' := CreateRevision(r, row).0;
      && SamePackages(r, r') && SameUploads(r, r') && SameDefinitions(r, r') && SameOthers(r, r')
      && GetLatestRevision(r', row.packageId) == Some(row)
      && GetRevisionByNumber(r, row.packageId, row.number) == None
      && GetRevisionByNumber(r', row.packageId, row.number) == Some(row)
      && forall q, m | q != row.packageId || m != row.number ::
           GetRevisionByNumber(r', q, m) == GetRevisionByNumber(r, q, m)
  {
    match r {
      case InMemory(m) => RevisionAppended(m, row);
      case Postgres(t) => RevisionInserted(t, row);
    }
  }

  lemma RevisionAppended(m: M.Mem, row: Revision)
    requires MN.Counted(m.revisions) && row.number == NumberAfter(M.GetLatestRevision(m, row.packageId))
    ensures var m' := M.CreateRevision(m, row);
      && M.GetLatestRevision(m', row.packageId) == Some(row)
      && M.GetRevisionByNumber(m, row.packageId, row.number) == None
      && M.GetRevisionByNumber(m', row.packageId, row.number) == Some(row)
      && forall q, k | q != row.packageId || k != row.number ::
           M.GetRevisionByNumber(m', q, k) == M.GetRevisionByNumber(m, q, k)
  {
    var rows := M.Get(m.revisions, row.packageId, []);
    assert rows != [] ==> rows[|rows| - 1].number == |rows|;
    forall k ensures M.FirstNumbered(rows, k) == if 1 <= k < 1 + |rows| then Some(rows[k - 1]) else None {
      M.FirstNumberedIs(rows, k, 1);
    }
    forall k
      ensures M.FirstNumbered(rows + [row], k) == if 1 <= k < 2 + |rows| then Some((rows + [row])[k - 1]) else None
    {
      M.FirstNumberedIs(rows + [row], k, 1);
    }
  }

  lemma RevisionInserted(t: Sql.Tables, row: Revision)
    requires I.Consistent(t) && Sql.CreateRevision(t, row).1.Pass?
    requires row.number == NumberAfter(Sql.GetLatestRevision(t, row.packageId))
    ensures Sql.GetLatestRevision(Sql.CreateRevision(t, row).0, row.packageId) == Some(row)
    ensures Sql.GetRevisionByNumber(t, row.packageId, row.number) == None
  {
    hide Sql.Largest, I.Consistent;
    var t', p := Sql.CreateRevision(t, row).0, row.packageId;
    assert Sql.Numbers(t', p) == Sql.Numbers(t, p) + {row.number};
    if Sql.Numbers(t, p) != {} {
      RowsNumbered(t, p, Sql.Largest(Sql.Numbers(t, p)));
    }
    assert Sql.Largest(Sql.Numbers(t', p)) == row.number;
  }

  lemma RowsNumbered(t: Sql.Tables, p: Id, n: int)
    requires I.Consistent(t) && (p, n) in t.revisions
    ensures t.revisions[(p, n)].number == n
  {}

  // ---------- the review ----------

  /** The upload as reviewed: approved with a number, or rejected with errors. */
  lemma UploadReviewed(r: Repository, id: Id, n: Option<int>, errors: seq<string>, now: Time)
    requires GetUpload(r, id).Some?
    ensures var (r', out) := ApproveUpload(r, id, n, errors, now);
      var up := GetUpload(r, id).value;
      && out.Pass?
      && SamePackages(r, r') && SameRevisions(r, r') && SameDefinitions(r, r') && SameOthers(r, r')
      && (errors == [] ==>
            GetUpload(r', id) == Some(up.(status := "approved", errors := [], revision := n, approvedAt := Some(now))))
      && (errors != [] ==>
            GetUpload(r', id)
            == Some(up.(status := "rejected", errors := errors, revision := n, approvedAt := Some(now))))
      && forall i | i != id :: GetUpload(r', i) == GetUpload(r, i)
  {}

  // ---------- the package ----------

  lemma PackageUpdated(r: Repository, old_: Package, pkg: Package)
    requires Indexed(r) && GetPackageByID(r, pkg.id) == Some(old_)
    requires pkg == old_.(isPrivate := pkg.isPrivate, status := pkg.status, defaultTrack := pkg.defaultTrack,
                          texts := pkg.texts, updatedAt := pkg.updatedAt)
    ensures var (r', out) := UpdatePackage(r, pkg);
      && out.Pass?
      && SameUploads(r, r') && SameRevisions(r, r') && SameDefinitions(r, r') && SameOthers(r, r')
      && GetPackageByID(r', pkg.id) == Some(pkg) && GetPackageByName(r', pkg.name) == Some(pkg)
      && (forall q | q != pkg.id :: GetPackageByID(r', q) == GetPackageByID(r, q))
      && (forall name | name != pkg.name :: GetPackageByName(r', name) == GetPackageByName(r, name))
  {}

  // ---------- the declared resources ----------

  predicate OnlyDefinitions(r: Repository, r': Repository) {
    match (r, r')
    case (InMemory(m), InMemory(m')) => m' == m.(defs := m'.defs)
    case (Postgres(t), Postgres(t')) => t' == t.(defs := t'.defs)
    case _ => false
  }

  /** `name` is among the names of the order. */
  predicate Ranged(order: seq<(string, Id)>, name: string) {
    exists i | 0 <= i < |order| :: order[i].0 == name
  }

  /** The stored definition says what the archive declares. */
  predicate Declared(r: Repository, p: Id, name: string, decl: ResourceDecl) {
    match GetDefinition(r, p, name)
    case None => false
    case Some(d) =>
      d.kind == decl.kind && d.description == decl.description && d.filename == decl.filename && !d.optional
  }

  lemma DefinitionUpserted(r: Repository, d: ResourceDefinition)
    requires UpsertDefinition(r, d).1.Pass?
    ensures var r' := UpsertDefinition(r, d).0;
      && OnlyDefinitions(r, r')
      && GetDefinition(r', d.packageId, d.name).Some?
      && var stored := GetDefinition(r', d.packageId, d.name).value;
         && stored.kind == d.kind && stored.description == d.description && stored.filename == d.filename
         && stored.optional == d.optional
         && (r.Postgres? && GetDefinition(r, d.packageId, d.name).Some? ==>
               stored.id == GetDefinition(r, d.packageId, d.name).value.id
               && stored.createdAt == GetDefinition(r, d.packageId, d.name).value.createdAt)
         && (r.InMemory? || GetDefinition(r, d.packageId, d.name).None? ==> stored == d)
         && forall q, name | q != d.packageId || name != d.name ::
            GetDefinition(r', q, name) == GetDefinition(r, q, name)
  {}

  /** After the loop over the declared resources: each declared name that it ranged over has a definition
      with the declared columns, under its old id in the tables; the others are as before. */
  ghost predicate Defined(r: Repository, r': Repository, p: Id, archive: Archive, order: seq<(string, Id)>) {
    && (forall name | name in archive.resources && Ranged(order, name) ::
          Declared(r', p, name, archive.resources[name]))
    && (forall name | r.Postgres? && GetDefinition(r, p, name).Some? ::
          GetDefinition(r', p, name).Some?
          && GetDefinition(r', p, name).value.id == GetDefinition(r, p, name).value.id)
    && (forall name | name !in archive.resources || !Ranged(order, name) ::
          GetDefinition(r', p, name) == GetDefinition(r, p, name))
    && (forall q, name | q != p :: GetDefinition(r', q, name) == GetDefinition(r, q, name))
  }

  lemma OnlyDefinitionsTwice(a: Repository, b: Repository, c: Repository)
    ensures OnlyDefinitions(a, a)
    ensures OnlyDefinitions(a, b) && OnlyDefinitions(b, c) ==> OnlyDefinitions(a, c)
  {}

  lemma {:induction false} AllDefined(r: Repository, p: Id, archive: Archive, order: seq<(string, Id)>, now: Time)
    requires C.UpsertAll(r, p, archive, order, now).1.Pass?
    ensures var r' := C.UpsertAll(r, p, archive, order, now).0;
      OnlyDefinitions(r, r') && Defined(r, r', p, archive, order)
    decreases |order|
  {
    hide GetDefinition, UpsertDefinition, OnlyDefinitions;
    OnlyDefinitionsTwice(r, r, r);
    if order != [] {
      var rest := order[1..];
      forall name ensures Ranged(order, name) <==> name == order[0].0 || Ranged(rest, name) {
        RangedRest(order, name);
      }
      if order[0].0 in archive.resources {
        var d := C.Definition(p, order[0].0, archive.resources[order[0].0], order[0].1, now);
        DefinitionUpserted(r, d);
        var r1 := UpsertDefinition(r, d).0;
        AllDefined(r1, p, archive, rest, now);
        OnlyDefinitionsTwice(r, r1, C.UpsertAll(r1, p, archive, rest, now).0);
      } else {
        AllDefined(r, p, archive, rest, now);
      }
    }
  }

  lemma RangedRest(order: seq<(string, Id)>, name: string)
    requires order != []
    ensures Ranged(order, name) <==> name == order[0].0 || Ranged(order[1..], name)
  {
    if Ranged(order[1..], name) {
      var i :| 0 <= i < |order| - 1 && order[1..][i].0 == name;
      assert order[i + 1].0 == name;
    }
    if Ranged(order, name) && name != order[0].0 {
      var i :| 0 <= i < |order| && order[i].0 == name;
      assert order[1..][i - 1].0 == name;
    }
  }

  // ---------- a charm push ----------

  /** One new revision: the next number, and the artefact of the upload. */
  ghost predicate RevisionStored(r: Repository, r': Repository, who: Identity, p: Id, up: Upload, archive: Archive,
                                 id: Id, now: Time) {
    var n := NumberAfter(GetLatestRevision(r, p));
    var row := Revision(id := id, packageId := p, number := n, version := F.Itoa(n), status := "approved",
                        createdAt := now, createdBy := who.accountId, size := up.size, sha256 := up.sha256,
                        sha384 := up.sha384, objectKey := up.objectKey, metadata := archive.texts, resources := []);
    && GetLatestRevision(r', p) == Some(row)
    && GetRevisionByNumber(r, p, n) == None && GetRevisionByNumber(r', p, n) == Some(row)
    && forall q, m | q != p || m != n :: GetRevisionByNumber(r', q, m) == GetRevisionByNumber(r, q, m)
  }

  /** The upload is approved under that number, and no other upload changes. */
  ghost predicate UploadApproved(r: Repository, r': Repository, up: Upload, n: int, now: Time) {
    && GetUpload(r', up.id)
       == Some(up.(status := "approved", errors := [], revision := Some(n), approvedAt := Some(now)))
    && forall i | i != up.id :: GetUpload(r', i) == GetUpload(r, i)
  }

  /** The package is published with the texts of its archive, and no other package changes. */
  ghost predicate PackagePublished(w: World, r: Repository, r': Repository, pkg: Package, archive: Archive, now: Time) {
    var published := pkg.(status := "published", texts := w.describe(archive, pkg.name, pkg.texts), updatedAt := now);
    && GetPackageByID(r', pkg.id) == Some(published) && GetPackageByName(r', pkg.name) == Some(published)
    && (forall q | q != pkg.id :: GetPackageByID(r', q) == GetPackageByID(r, q))
    && (forall name | name != pkg.name :: GetPackageByName(r', name) == GetPackageByName(r, name))
  }

  lemma ArchiveRecorded(w: World, r: Repository, who: Identity, name: string, pkg: Package, up: Upload,
                        archive: Archive, id: Id, order: seq<(string, Id)>, now: Time)
    requires Healthy(r) && GetPackageByID(r, pkg.id) == Some(pkg) && GetUpload(r, up.id) == Some(up)
    requires C.PushArchive(w, r, who, name, pkg, up, archive, id, order, now).1.Ok?
    ensures var (r', res) := C.PushArchive(w, r, who, name, pkg, up, archive, id, order, now);
      && RevisionStored(r, r', who, pkg.id, up, archive, id, now)
      && UploadApproved(r, r', up, NumberAfter(GetLatestRevision(r, pkg.id)), now)
      && PackagePublished(w, r, r', pkg, archive, now)
      && Defined(r, r', pkg.id, archive, order)
      && SameOthers(r, r')
      && res == Ok("/v1/charm/" + name + "/revisions/review?upload-id=" + up.id)
  {
    hide Healthy, Indexed, CreateRevision, ApproveUpload, UpdatePackage, C.UpsertAll, GetLatestRevision,
         GetRevisionByNumber, GetUpload, GetPackageByID, GetPackageByName, GetDefinition, SamePackages, SameUploads,
         SameRevisions, SameDefinitions, SameOthers, OnlyDefinitions;
    HealthyIndexed(r);
    var n := C.NextNumber(GetLatestRevision(r, pkg.id));
    var row := C.NewRevision(pkg.id, who, up, archive, n, id, now);
    var r1 := CreateRevision(r, row).0;
    RevisionAdded(r, row);
    SameLookups(r, r1);
    var r2 := ApproveUpload(r1, up.id, Some(n), [], now).0;
    UploadReviewed(r1, up.id, Some(n), [], now);
    SameLookups(r1, r2);
    var published := C.Published(w, pkg, archive, now);
    var r3 := UpdatePackage(r2, published).0;
    PackageUpdated(r2, pkg, published);
    SameLookups(r2, r3);
    var r4 := C.UpsertAll(r3, pkg.id, archive, order, now).0;
    AllDefined(r3, pkg.id, archive, order, now);
    OnlyDefinitionsKeeps(r3, r4);
    SameLookups(r3, r4);
    SameOthersTwice(r, r1, r2);
    SameOthersTwice(r, r2, r3);
    SameOthersTwice(r, r3, r4);
  }

  /** The upload whose archive cannot be parsed is rejected with that reason, and nothing else changes. */
  ghost predicate UploadRejected(r: Repository, r': Repository, up: Upload, now: Time) {
    && GetUpload(r', up.id) == Some(up.(status := "rejected", errors := ["archive cannot be parsed"], revision := None,
                                        approvedAt := Some(now)))
    && (forall i | i != up.id :: GetUpload(r', i) == GetUpload(r, i))
    && SamePackages(r, r') && SameRevisions(r, r') && SameDefinitions(r, r') && SameOthers(r, r')
  }

  /** Ids that no row of the tables has yet; Memory does not look. */
  ghost predicate Unused(r: Repository, id: Id, order: seq<(string, Id)>) {
    r.Postgres? ==>
      && (forall k | k in r.t.revisions :: r.t.revisions[k].id != id)
      && Sessions.Distinct(Sessions.Seconds(order))
      && (forall k | k in r.t.defs :: r.t.defs[k].id !in Sessions.OrderIds(order))
  }

  lemma AllUpsertsPass(r: Repository, p: Id, archive: Archive, order: seq<(string, Id)>, now: Time)
    requires r.Postgres? ==>
               && p in r.t.packages && Sessions.Distinct(Sessions.Seconds(order))
               && forall k | k in r.t.defs :: r.t.defs[k].id !in Sessions.OrderIds(order)
    ensures C.UpsertAll(r, p, archive, order, now).1.Pass?
  {
    match r {
      case InMemory(m) => SS.UpsertAllMemory(m, p, archive, order, now);
      case Postgres(t) =>
        var drawn := set k | k in t.defs :: t.defs[k].id;
        SS.UpsertAllTables(drawn, t, p, archive, order, now);
    }
  }

  lemma RevisionPasses(r: Repository, row: Revision)
    requires Healthy(r) && GetPackageByID(r, row.packageId).Some?
    requires row.number == NumberAfter(GetLatestRevision(r, row.packageId))
    requires r.Postgres? ==> forall k | k in r.t.revisions :: r.t.revisions[k].id != row.id
    ensures CreateRevision(r, row).1.Pass?
  {
    if r.Postgres? && Sql.Numbers(r.t, row.packageId) != {} {
      RowsNumbered(r.t, row.packageId, Sql.Largest(Sql.Numbers(r.t, row.packageId)));
      assert row.number !in Sql.Numbers(r.t, row.packageId);
    }
  }

  lemma ArchivePasses(w: World, r: Repository, who: Identity, name: string, pkg: Package, up: Upload, archive: Archive,
                      id: Id, order: seq<(string, Id)>, now: Time)
    requires Healthy(r) && GetPackageByID(r, pkg.id) == Some(pkg) && GetUpload(r, up.id) == Some(up)
    requires Unused(r, id, order)
    ensures C.PushArchive(w, r, who, name, pkg, up, archive, id, order, now).1.Ok?
  {
    hide Healthy, Indexed, CreateRevision, ApproveUpload, UpdatePackage, C.UpsertAll, GetLatestRevision,
         GetRevisionByNumber, GetUpload, GetPackageByID, GetPackageByName, GetDefinition, SamePackages, SameUploads,
         SameRevisions, SameDefinitions, SameOthers, Unused;
    HealthyIndexed(r);
    var n := C.NextNumber(GetLatestRevision(r, pkg.id));
    var row := C.NewRevision(pkg.id, who, up, archive, n, id, now);
    UnusedIds(r, id, order);
    RevisionPasses(r, row);
    var r1 := CreateRevision(r, row).0;
    RevisionAdded(r, row);
    SameLookups(r, r1);
    var r2 := ApproveUpload(r1, up.id, Some(n), [], now).0;
    UploadReviewed(r1, up.id, Some(n), [], now);
    SameLookups(r1, r2);
    var published := C.Published(w, pkg, archive, now);
    var r3 := UpdatePackage(r2, published).0;
    PackageUpdated(r2, pkg, published);
    UnusedStays(r, r1, r2, r3, pkg.id, order);
    AllUpsertsPass(r3, pkg.id, archive, order, now);
  }

  lemma UnusedIds(r: Repository, id: Id, order: seq<(string, Id)>)
    requires Unused(r, id, order)
    ensures r.Postgres? ==> forall k | k in r.t.revisions :: r.t.revisions[k].id != id
  {}

  lemma UnusedStays(a: Repository, b: Repository, c: Repository, d: Repository, p: Id, order: seq<(string, Id)>)
    requires SameDefinitions(a, b) && SameDefinitions(b, c) && SameDefinitions(c, d) && GetPackageByID(d, p).Some?
    requires exists id :: Unused(a, id, order)
    ensures d.Postgres? ==>
              && p in d.t.packages && Sessions.Distinct(Sessions.Seconds(order))
              && forall k | k in d.t.defs :: d.t.defs[k].id !in Sessions.OrderIds(order)
  {}

  /** Every way a charm push can end. A caller who may not push, an unknown upload and a missing blob change
      nothing; an archive that cannot be parsed is recorded as rejected; otherwise the push succeeds. */
  lemma PushDecided(w: World, r: Repository, blobs: C.Blobs, who: Identity, name: string, uploadId: Id, id: Id,
                    order: seq<(string, Id)>, now: Time)
    requires Healthy(r)
    ensures var (r', res) := C.PushRevision(w, r, blobs, who, name, uploadId, id, order, now);
      match CallRefusal(r, who, name, "package-manage-revisions")
      case Some(e) => r' == r && res == Err(e)
      case None =>
        match GetUpload(r, uploadId)
        case None => r' == r && res == Err(Api(404, "not-found", "upload not found"))
        case Some(up) =>
          if up.objectKey !in blobs then r' == r && res == Err(Storage)
          else if w.parse(blobs[up.objectKey]).None? then
            UploadRejected(r, r', up, now) && res == Err(Api(400, "invalid-archive", "archive cannot be parsed"))
          else Unused(r, id, order) ==> res.Ok?
  {
    hide Healthy, C.Managed, GetUpload, GetPackageByID, GetPackageByName, ApproveUpload, C.PushArchive, Unused,
         ManageRefusal, SamePackages, SameRevisions, SameDefinitions, SameOthers;
    if GetPackageByName(r, name).Some? {
      FoundByName(r, name);
    }
    ManagedDecided(r, who, name, "package-manage-revisions");
    if GetUpload(r, uploadId).Some? {
      var up := GetUpload(r, uploadId).value;
      UploadFiled(r, uploadId);
      UploadReviewed(r, uploadId, None, [C.INVALID_ARCHIVE], now);
      if C.Managed(r, who, name, MANAGE_REVISIONS).Ok? && up.objectKey in blobs
         && w.parse(blobs[up.objectKey]).Some? && Unused(r, id, order) {
        ArchivePasses(w, r, who, name, GetPackageByName(r, name).value, up, w.parse(blobs[up.objectKey]).value, id,
                      order, now);
      }
    }
  }

  /** A charm push that succeeds: the caller managed the package, the archive of the upload could be parsed,
      and exactly this is recorded. */
  lemma PushRecorded(w: World, r: Repository, blobs: C.Blobs, who: Identity, name: string, uploadId: Id, id: Id,
                     order: seq<(string, Id)>, now: Time)
    requires Healthy(r) && C.PushRevision(w, r, blobs, who, name, uploadId, id, order, now).1.Ok?
    ensures CallRefusal(r, who, name, "package-manage-revisions") == None
    ensures GetPackageByName(r, name).Some? && GetUpload(r, uploadId).Some?
    ensures GetUpload(r, uploadId).value.objectKey in blobs
    ensures w.parse(blobs[GetUpload(r, uploadId).value.objectKey]).Some?
    ensures var (r', res) := C.PushRevision(w, r, blobs, who, name, uploadId, id, order, now);
      var pkg, up := GetPackageByName(r, name).value, GetUpload(r, uploadId).value;
      var archive := w.parse(blobs[up.objectKey]).value;
      && up.id == uploadId
      && RevisionStored(r, r', who, pkg.id, up, archive, id, now)
      && UploadApproved(r, r', up, NumberAfter(GetLatestRevision(r, pkg.id)), now)
      && PackagePublished(w, r, r', pkg, archive, now)
      && Defined(r, r', pkg.id, archive, order)
      && SameOthers(r, r')
      && res == Ok("/v1/charm/" + name + "/revisions/review?upload-id=" + uploadId)
  {
    hide Healthy, C.Managed, GetUpload, GetPackageByID, GetPackageByName, ApproveUpload, C.PushArchive, ManageRefusal,
         RevisionStored, UploadApproved, PackagePublished, Defined, SameOthers;
    if GetPackageByName(r, name).Some? {
      FoundByName(r, name);
    }
    ManagedDecided(r, who, name, "package-manage-revisions");
    UploadFiled(r, uploadId);
    var up := GetUpload(r, uploadId).value;
    ArchiveRecorded(w, r, who, name, GetPackageByName(r, name).value, up, w.parse(blobs[up.objectKey]).value, id,
                    order, now);
  }

  // ---------- a resource push ----------

  /** Resource revisions are listed under `d` as before with `row` added: at the end of the list in Memory,
      under its number in the tables; the lists of other resources are as before. */
  ghost predicate RowAdded(r: Repository, r': Repository, d: Id, row: ResourceRevision) {
    match (r, r')
    case (InMemory(m), InMemory(m')) =>
      && M.ListResourceRevisions(m', d) == M.ListResourceRevisions(m, d) + [row]
      && forall q | q != d :: M.ListResourceRevisions(m', q) == M.ListResourceRevisions(m, q)
    case (Postgres(t), Postgres(t')) =>
      && (d, row.number) !in t.resourceRevs
      && t'.resourceRevs == t.resourceRevs[(d, row.number) := row]
    case _ => false
  }

  function ResourceNumberAfter(first: Option<ResourceRevision>): int {
    match first case None => 1 case Some(row) => row.number + 1
  }

  /** The kind that is asked for, or else the declared one. */
  function KindOf(push: C.ResourcePush, d: ResourceDefinition): string {
    if push.kind == "" then d.kind else push.kind
  }

  /** The new row: the next number and the artefact of the upload, kept in the row for an OCI image and
      under the key of the upload otherwise. */
  function ResourceRow(w: World, d: ResourceDefinition, up: Upload, payload: Bytes, n: int, push: C.ResourcePush,
                       id: Id, now: Time): ResourceRevision {
    var inline := KindOf(push, d) == "oci-image";
    ResourceRevision(id := id, resourceId := d.id, name := d.name, kind := KindOf(push, d),
                     description := d.description, filename := if d.filename == "" then up.filename else d.filename,
                     number := n, createdAt := now, size := |payload|, sha256 := up.sha256, sha384 := up.sha384,
                     sha512 := w.sha512(payload), sha3384 := w.sha384(payload),
                     objectKey := if inline then "" else up.objectKey, bases := push.bases,
                     architectures := push.architectures, ociBlob := if inline then payload else [],
                     download := None)
  }

  /** Every way a resource push can end; when it succeeds exactly the row and the review are recorded. */
  lemma ResourcePushDecided(w: World, r: Repository, blobs: C.Blobs, who: Identity, name: string, resource: string,
                            push: C.ResourcePush, id: Id, now: Time)
    requires Healthy(r)
    ensures var (r', res) := C.PushResource(w, r, blobs, who, name, resource, push, id, now);
      match CallRefusal(r, who, name, "package-manage-revisions")
      case Some(e) => r' == r && res == Err(e)
      case None =>
        match GetDefinition(r, GetPackageByName(r, name).value.id, resource)
        case None => r' == r && res == Err(Api(404, "not-found", "resource not declared"))
        case Some(d) =>
          match GetUpload(r, push.uploadId)
          case None => r' == r && res == Err(Api(404, "not-found", "upload not found"))
          case Some(up) =>
            if up.objectKey !in blobs then r' == r && res == Err(Storage)
            else
              var n := ResourceNumberAfter(FirstResourceRevision(r, d.id));
              && (res.Err? <==> r.Postgres? && exists k | k in r.t.resourceRevs :: r.t.resourceRevs[k].id == id)
              && (res.Err? ==> r' == r && res == Err(Storage))
              && (res.Ok? ==>
                    && RowAdded(r, r', d.id, ResourceRow(w, d, up, blobs[up.objectKey], n, push, id, now))
                    && UploadApproved(r, r', up, n, now)
                    && SamePackages(r, r') && SameRevisions(r, r') && SameDefinitions(r, r') && SameReleases(r, r')
                    && res == Ok("/v1/charm/" + name + "/revisions/review?upload-id=" + push.uploadId))
  {
    hide Healthy, C.Managed, GetUpload, GetPackageByName, GetDefinition, C.AddResourceRow, ManageRefusal,
         FirstResourceRevision, RowAdded, UploadApproved, SamePackages, SameRevisions, SameDefinitions, SameReleases;
    if GetPackageByName(r, name).Some? {
      FoundByName(r, name);
    }
    ManagedDecided(r, who, name, "package-manage-revisions");
    var found := C.Managed(r, who, name, MANAGE_REVISIONS);
    if found.Ok? && GetDefinition(r, found.value.id, resource).Some? && GetUpload(r, push.uploadId).Some? {
      UploadFiled(r, push.uploadId);
      var d, up := GetDefinition(r, found.value.id, resource).value, GetUpload(r, push.uploadId).value;
      if up.objectKey in blobs {
        var n := ResourceNumberAfter(FirstResourceRevision(r, d.id));
        RowIsNew(w, d, up, blobs[up.objectKey], n, push, id, now);
        DefinitionStored(r, found.value.id, resource);
        RowRecorded(r, name, up, ResourceRow(w, d, up, blobs[up.objectKey], n, push, id, now), now);
      }
    }
  }

  lemma RowIsNew(w: World, d: ResourceDefinition, up: Upload, payload: Bytes, n: int, push: C.ResourcePush, id: Id,
                 now: Time)
    ensures C.NewResourceRevision(w, d, up, payload, n, push.kind, push.bases, push.architectures, id, now)
            == ResourceRow(w, d, up, payload, n, push, id, now)
  {}

  predicate SameReleases(r: Repository, r': Repository) {
    match (r, r')
    case (InMemory(m), InMemory(m')) => m'.releases == m.releases
    case (Postgres(t), Postgres(t')) => t'.releases == t.releases
    case _ => false
  }

  lemma DefinitionStored(r: Repository, p: Id, name: string)
    requires GetDefinition(r, p, name).Some?
    ensures r.Postgres? ==> Sql.DefinitionId(r.t.defs, GetDefinition(r, p, name).value.id)
  {}

  lemma RowInserted(r: Repository, row: ResourceRevision)
    requires Healthy(r) && row.number == ResourceNumberAfter(FirstResourceRevision(r, row.resourceId))
    requires r.Postgres? ==> Sql.DefinitionId(r.t.defs, row.resourceId)
    ensures var (r', out) := CreateResourceRevision(r, row);
      && (out.Fail? <==> r.Postgres? && exists k | k in r.t.resourceRevs :: r.t.resourceRevs[k].id == row.id)
      && (out.Fail? ==> r' == r && out == Fail(Storage))
      && (out.Pass? ==>
            && RowAdded(r, r', row.resourceId, row)
            && SamePackages(r, r') && SameRevisions(r, r') && SameUploads(r, r') && SameDefinitions(r, r')
            && SameReleases(r, r'))
  {
    if r.Postgres? {
      NextIsFree(r.t, row);
    }
  }

  lemma NextIsFree(t: Sql.Tables, row: ResourceRevision)
    requires I.Consistent(t) && row.number == ResourceNumberAfter(Sql.FirstResourceRevision(t, row.resourceId))
    ensures (row.resourceId, row.number) !in t.resourceRevs
  {
    var d := row.resourceId;
    if Sql.ResourceNumbers(t, d) != {} {
      assert t.resourceRevs[(d, Sql.Largest(Sql.ResourceNumbers(t, d)))].number
             == Sql.Largest(Sql.ResourceNumbers(t, d));
      assert row.number !in Sql.ResourceNumbers(t, d);
    } else {
      assert row.number !in Sql.ResourceNumbers(t, d);
    }
  }

  lemma AddedStill(a: Repository, b: Repository, c: Repository, d: Id, row: ResourceRevision)
    requires RowAdded(a, b, d, row) && SameOthers(b, c)
    ensures RowAdded(a, c, d, row)
    ensures SameReleases(a, b) ==> SameReleases(a, c)
  {}

  lemma SameTwice(a: Repository, b: Repository, c: Repository)
    ensures SamePackages(a, b) && SamePackages(b, c) ==> SamePackages(a, c)
    ensures SameRevisions(a, b) && SameRevisions(b, c) ==> SameRevisions(a, c)
    ensures SameDefinitions(a, b) && SameDefinitions(b, c) ==> SameDefinitions(a, c)
  {}

  lemma RowRecorded(r: Repository, name: string, up: Upload, row: ResourceRevision, now: Time)
    requires Healthy(r) && GetUpload(r, up.id) == Some(up)
    requires row.number == ResourceNumberAfter(FirstResourceRevision(r, row.resourceId))
    requires r.Postgres? ==> Sql.DefinitionId(r.t.defs, row.resourceId)
    ensures var (r', res) := C.AddResourceRow(r, name, up, row, now);
      && (res.Err? <==> r.Postgres? && exists k | k in r.t.resourceRevs :: r.t.resourceRevs[k].id == row.id)
      && (res.Err? ==> r' == r && res == Err(Storage))
      && (res.Ok? ==>
            && RowAdded(r, r', row.resourceId, row) && UploadApproved(r, r', up, row.number, now)
            && SamePackages(r, r') && SameRevisions(r, r') && SameDefinitions(r, r') && SameReleases(r, r')
            && res == Ok("/v1/charm/" + name + "/revisions/review?upload-id=" + up.id))
  {
    hide Healthy, Indexed, CreateResourceRevision, ApproveUpload, GetUpload, FirstResourceRevision, RowAdded,
         SamePackages, SameUploads, SameRevisions, SameDefinitions, SameOthers, SameReleases;
    RowInserted(r, row);
    var (r1, out) := CreateResourceRevision(r, row);
    if out.Pass? {
      SameLookups(r, r1);
      UploadReviewed(r1, up.id, Some(row.number), [], now);
      var r2 := ApproveUpload(r1, up.id, Some(row.number), [], now).0;
      AddedStill(r, r1, r2, row.resourceId, row);
      SameTwice(r, r1, r2);
    }
  }
}
