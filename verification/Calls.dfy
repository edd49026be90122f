/** The service calls of internal/service that write, each as a function of the repository, the
    blobs and what the call draws from outside (fresh ids, the time, the order in which a map is
    ranged over). The methods of the class in Service.dfy implement these functions. */
module Calls {
  import opened Core
  import opened Repository
  import Repo = Repository
  import opened Access
  import Filenames

  type Blobs = map<string, Bytes>

  const NO_TEXTS := Texts(None, None, None, None, None, map[])
  const CHANNEL_REQUIRED := Api(400, "invalid-request", "channel is required")
  const HAS_REVISIONS := Api(400, "invalid-request", "cannot unregister a package with existing revisions")
  const INVALID_ARCHIVE := "archive cannot be parsed"

  // ---------- packages ----------

  function NewPackage(who: Identity, name: string, kind: string, isPrivate: bool, id: Id, now: Time): Package {
    Package(id, name, FirstNonEmpty(kind, "charm"), isPrivate, "registered", who.accountId, Some("latest"),
            NO_TEXTS, [Track("latest", None, now)], now, now)
  }

  function RegisterPackage(r: Repository, who: Identity, name: string, kind: string, isPrivate: bool, id: Id, now: Time)
    : (Repository, Result<Package>)
  {
    if RequirePermission(who, REGISTER_PACKAGE).Fail? then (r, Err(RequirePermission(who, REGISTER_PACKAGE).error))
    else
      var pkg := NewPackage(who, name, kind, isPrivate, id, now);
      var (r1, created) := CreatePackage(r, pkg);
      if created.Fail? then (r1, Err(Translate(created.error, "package already exists")))
      else
        var (r2, tracks) := CreateTracks(r1, id, pkg.tracks);
        if tracks.outcome.Fail? then (r2, Err(tracks.outcome.error)) else (r2, Ok(pkg))
  }

  datatype Patch = Patch(contact: Option<string>, defaultTrack: Option<string>, description: Option<string>,
                         links: Option<map<string, seq<string>>>, isPrivate: Option<bool>,
                         summary: Option<string>, title: Option<string>, website: Option<string>)

  function Override<T>(new_: Option<T>, old_: Option<T>): Option<T> {
    if new_.Some? then new_ else old_
  }

  function PatchTexts(texts: Texts, patch: Patch): Texts {
    Texts(Override(patch.contact, texts.contact),
          Override(patch.description, texts.description),
          Override(patch.summary, texts.summary),
          Override(patch.title, texts.title),
          Override(patch.website, texts.website),
          if patch.links.Some? then patch.links.value else texts.links)
  }

  function ApplyPatch(pkg: Package, patch: Patch, now: Time): Package {
    pkg.(defaultTrack := Override(patch.defaultTrack, pkg.defaultTrack),
         isPrivate := if patch.isPrivate.Some? then patch.isPrivate.value else pkg.isPrivate,
         texts := PatchTexts(pkg.texts, patch),
         updatedAt := now)
  }

  /** A package that the caller found by name and may manage under `permission`. */
  function Managed(r: Repository, who: Identity, name: string, permission: string): Result<Package> {
    match GetPackageByName(r, name)
    case None => Err(Translate(NotFound, "package not found"))
    case Some(pkg) =>
      match RequirePackageManage(r, who, pkg, permission)
      case Fail(e) => Err(e)
      case Pass => Ok(pkg)
  }

  /** The package with the tracks that the repository lists for it. */
  function EnrichPackage(w: World, r: Repository, pkg: Package): Result<Package> {
    match ListTracks(w, r, pkg.id)
    case Err(e) => Err(e)
    case Ok(tracks) => Ok(pkg.(tracks := tracks))
  }

  function PatchPackage(w: World, r: Repository, who: Identity, name: string, patch: Patch, now: Time)
    : (Repository, Result<Package>)
  {
    match Managed(r, who, name, MANAGE_METADATA)
    case Err(e) => (r, Err(e))
    case Ok(pkg) =>
      var (r1, out) := UpdatePackage(r, ApplyPatch(pkg, patch, now));
      if out.Fail? then (r1, Err(out.error)) else (r1, EnrichPackage(w, r1, ApplyPatch(pkg, patch, now)))
  }

  function UnregisterPackage(r: Repository, who: Identity, name: string): (Repository, Result<Id>) {
    match Managed(r, who, name, PACKAGE_MANAGE)
    case Err(e) => (r, Err(e))
    case Ok(pkg) =>
      if HasRevisions(r, pkg.id) then (r, Err(HAS_REVISIONS))
      else
        var (r1, out) := DeletePackage(r, pkg.id);
        if out.Fail? then (r1, Err(out.error)) else (r1, Ok(pkg.id))
  }

  function Stamped(track: Track, now: Time): Track {
    if track.createdAt == ZERO_TIME then track.(createdAt := now) else track
  }

  function StampTracks(tracks: seq<Track>, now: Time): seq<Track> {
    seq(|tracks|, i requires 0 <= i < |tracks| => Stamped(tracks[i], now))
  }

  function AddPackageTracks(r: Repository, who: Identity, name: string, tracks: seq<Track>, now: Time)
    : (Repository, Count)
  {
    match Managed(r, who, name, MANAGE_METADATA)
    case Err(e) => (r, Count(0, Fail(e)))
    case Ok(pkg) => CreateTracks(r, pkg.id, StampTracks(tracks, now))
  }

  // ---------- uploads and revisions ----------

  /** `filepath.Join("uploads", id, filename)` for a filename that is one path element. */
  function ObjectKey(id: Id, filename: string): string {
    "uploads/" + id + "/" + filename
  }

  function UploadKind(filename: string): string {
    var dot := Filenames.LastIndex(filename, '.');
    if dot >= 0 && filename[dot..] == ".charm" then "revision" else "resource"
  }

  function NewUpload(w: World, filename: string, payload: Bytes, id: Id, now: Time): Upload {
    Upload(id, filename, ObjectKey(id, filename), |payload|, w.sha256(payload), w.sha384(payload),
           "pending", UploadKind(filename), now, None, None, [])
  }

  function CreateUpload(w: World, r: Repository, blobs: Blobs, filename: string, payload: Bytes, id: Id, now: Time)
    : (Repository, Blobs, Result<Upload>)
  {
    var up := NewUpload(w, filename, payload, id, now);
    var (r1, out) := Repo.CreateUpload(r, up);
    (r1, blobs[up.objectKey := payload], if out.Fail? then Err(out.error) else Ok(up))
  }

  function NextNumber(latest: Option<Revision>): int {
    if latest.Some? then latest.value.number + 1 else 1
  }

  function NewRevision(p: Id, who: Identity, up: Upload, archive: Archive, n: int, id: Id, now: Time): Revision {
    Revision(id, p, n, Filenames.Itoa(n), "approved", now, who.accountId, up.size, up.sha256, up.sha384,
             up.objectKey, archive.texts, [])
  }

  function Published(w: World, pkg: Package, archive: Archive, now: Time): Package {
    pkg.(status := "published", texts := w.describe(archive, pkg.name, pkg.texts), updatedAt := now)
  }

  function Definition(p: Id, name: string, decl: ResourceDecl, id: Id, now: Time): ResourceDefinition {
    ResourceDefinition(id, p, name, decl.kind, decl.description, decl.filename, false, now)
  }

  /** The declared resources in the order the map is ranged over, each with the id drawn for it. */
  function UpsertAll(r: Repository, p: Id, archive: Archive, order: seq<(string, Id)>, now: Time): (Repository, Outcome)
    decreases |order|
  {
    if order == [] then (r, Pass)
    else
      var (name, id) := order[0];
      if name !in archive.resources then UpsertAll(r, p, archive, order[1..], now)
      else
        var (r1, out) := UpsertDefinition(r, Definition(p, name, archive.resources[name], id, now));
        if out.Fail? then (r1, out) else UpsertAll(r1, p, archive, order[1..], now)
  }

  function ReviewURL(name: string, uploadId: Id): string {
    "/v1/charm/" + name + "/revisions/review?upload-id=" + uploadId
  }

  function PushRevision(w: World, r: Repository, blobs: Blobs, who: Identity, name: string, uploadId: Id,
                        revisionId: Id, order: seq<(string, Id)>, now: Time): (Repository, Result<string>)
  {
    match Managed(r, who, name, MANAGE_REVISIONS)
    case Err(e) => (r, Err(e))
    case Ok(pkg) => PushManaged(w, r, blobs, who, name, pkg, uploadId, revisionId, order, now)
  }

  /** `PushRevision` once the caller is known to manage the package. */
  function PushManaged(w: World, r: Repository, blobs: Blobs, who: Identity, name: string, pkg: Package, uploadId: Id,
                       revisionId: Id, order: seq<(string, Id)>, now: Time): (Repository, Result<string>)
  {
    match GetUpload(r, uploadId)
    case None => (r, Err(Translate(NotFound, "upload not found")))
    case Some(up) =>
      if up.objectKey !in blobs then (r, Err(Storage))
      else
        match w.parse(blobs[up.objectKey])
        case None => (ApproveUpload(r, up.id, None, [INVALID_ARCHIVE], now).0,
                      Err(Api(400, "invalid-archive", INVALID_ARCHIVE)))
        case Some(archive) => PushArchive(w, r, who, name, pkg, up, archive, revisionId, order, now)
  }

  /** `PushRevision` from the moment the archive has been parsed. */
  function PushArchive(w: World, r: Repository, who: Identity, name: string, pkg: Package, up: Upload, archive: Archive,
                       revisionId: Id, order: seq<(string, Id)>, now: Time)
    : (Repository, Result<string>)
  {
    var n := NextNumber(GetLatestRevision(r, pkg.id));
    var (r1, out1) := CreateRevision(r, NewRevision(pkg.id, who, up, archive, n, revisionId, now));
    if out1.Fail? then (r1, Err(out1.error)) else FinishPush(w, r1, name, pkg, up, archive, n, order, now)
  }

  /** The rest of `PushRevision` once revision `n` is stored. */
  function FinishPush(w: World, r: Repository, name: string, pkg: Package, up: Upload, archive: Archive, n: int,
                      order: seq<(string, Id)>, now: Time): (Repository, Result<string>)
  {
    var (r1, out1) := ApproveUpload(r, up.id, Some(n), [], now);
    if out1.Fail? then (r1, Err(out1.error))
    else
      var (r2, out2) := UpdatePackage(r1, Published(w, pkg, archive, now));
      if out2.Fail? then (r2, Err(out2.error))
      else
        var (r3, out3) := UpsertAll(r2, pkg.id, archive, order, now);
        if out3.Fail? then (r3, Err(out3.error)) else (r3, Ok(ReviewURL(name, up.id)))
  }

  // ---------- resources ----------

  function NextResourceNumber(first: Option<ResourceRevision>): int {
    if first.Some? then first.value.number + 1 else 1
  }

  /** OCI images keep their bytes in the row and have no object key. The field for SHA3-384 is
      filled with SHA-384, as the code does. */
  function NewResourceRevision(w: World, d: ResourceDefinition, up: Upload, payload: Bytes, n: int, kind: string,
                               bases: seq<string>, architectures: seq<string>, id: Id, now: Time): ResourceRevision
  {
    var k := FirstNonEmpty(kind, d.kind);
    ResourceRevision(id, d.id, d.name, k, d.description, FirstNonEmpty(d.filename, up.filename), n, now,
                     |payload|, up.sha256, up.sha384, w.sha512(payload), w.sha384(payload),
                     if k == "oci-image" then "" else up.objectKey, bases, architectures,
                     if k == "oci-image" then payload else [], None)
  }

  datatype ResourcePush = ResourcePush(uploadId: Id, kind: string, bases: seq<string>, architectures: seq<string>)

  function PushResource(w: World, r: Repository, blobs: Blobs, who: Identity, name: string, resource: string,
                        push: ResourcePush, id: Id, now: Time): (Repository, Result<string>)
  {
    match Managed(r, who, name, MANAGE_REVISIONS)
    case Err(e) => (r, Err(e))
    case Ok(pkg) =>
      match GetDefinition(r, pkg.id, resource)
      case None => (r, Err(Translate(NotFound, "resource not declared")))
      case Some(d) => StoreResource(w, r, blobs, name, d, push, id, now)
  }

  /** `PushResource` once the definition is found. */
  function StoreResource(w: World, r: Repository, blobs: Blobs, name: string, d: ResourceDefinition, push: ResourcePush,
                         id: Id, now: Time): (Repository, Result<string>)
  {
    match GetUpload(r, push.uploadId)
    case None => (r, Err(Translate(NotFound, "upload not found")))
    case Some(up) =>
      if up.objectKey !in blobs then (r, Err(Storage))
      else
        var n := NextResourceNumber(FirstResourceRevision(r, d.id));
        var row := NewResourceRevision(w, d, up, blobs[up.objectKey], n, push.kind, push.bases,
                                       push.architectures, id, now);
        AddResourceRow(r, name, up, row, now)
  }

  /** The rest of `PushResource` once the new row is made up. */
  function AddResourceRow(r: Repository, name: string, up: Upload, row: ResourceRevision, now: Time)
    : (Repository, Result<string>)
  {
    var (r1, out1) := CreateResourceRevision(r, row);
    if out1.Fail? then (r1, Err(out1.error))
    else
      var (r2, out2) := ApproveUpload(r1, up.id, Some(row.number), [], now);
      if out2.Fail? then (r2, Err(out2.error)) else (r2, Ok(ReviewURL(name, up.id)))
  }

  datatype ResourceUpdate = ResourceUpdate(number: int, bases: seq<string>, architectures: seq<string>)

  function UpdateOne(r: Repository, d: Id, update: ResourceUpdate): (Repository, Outcome) {
    match GetResourceRevision(r, d, update.number)
    case None => (r, Fail(NotFound))
    case Some(item) =>
      UpdateResourceRevision(r, item.(bases := update.bases, architectures := update.architectures))
  }

  /** Applies the updates one by one; the count is that of the updates made before the first failure. */
  function UpdateEach(r: Repository, d: Id, updates: seq<ResourceUpdate>): (Repository, nat, Outcome)
    decreases |updates|
  {
    if updates == [] then (r, 0, Pass)
    else
      var (r1, out) := UpdateOne(r, d, updates[0]);
      if out.Fail? then (r1, 0, out)
      else
        var (r2, done, rest) := UpdateEach(r1, d, updates[1..]);
        (r2, 1 + done, rest)
  }

  function UpdateResources(r: Repository, who: Identity, name: string, resource: string, updates: seq<ResourceUpdate>)
    : (Repository, nat, Outcome)
  {
    match Managed(r, who, name, MANAGE_REVISIONS)
    case Err(e) => (r, 0, Fail(e))
    case Ok(pkg) =>
      match GetDefinition(r, pkg.id, resource)
      case None => (r, 0, Fail(Translate(NotFound, "resource not found")))
      case Some(d) => UpdateEach(r, d.id, updates)
  }

  // ---------- releases ----------

  function StampRelease(request: Release, id: Id, now: Time): Release {
    request.(when := if request.when == ZERO_TIME then now else request.when,
             id := if request.id == "" then id else request.id)
  }

  /** One round of the `Release` loop, up to the stored release. */
  function ReleaseOne(r: Repository, who: Identity, p: Id, request: Release, id: Id, now: Time): (Repository, Outcome) {
    if request.channel == "" then (r, Fail(CHANNEL_REQUIRED))
    else if GetRevisionByNumber(r, p, request.revision).None? then (r, Fail(Translate(NotFound, "revision not found")))
    else if EnforceChannel(who, request.channel).Fail? then (r, EnforceChannel(who, request.channel))
    else ReplaceRelease(r, p, StampRelease(request, id, now))
  }

  /** The loop: repository, number of rounds completed, and why it stopped. */
  function ReleaseEach(r: Repository, who: Identity, p: Id, requests: seq<Release>, ids: seq<Id>, now: Time)
    : (Repository, nat, Outcome)
    requires |ids| == |requests|
    decreases |requests|
  {
    if requests == [] then (r, 0, Pass)
    else
      var (r1, out) := ReleaseOne(r, who, p, requests[0], ids[0], now);
      if out.Fail? then (r1, 0, out)
      else
        var (r2, done, rest) := ReleaseEach(r1, who, p, requests[1..], ids[1..], now);
        (r2, 1 + done, rest)
  }

  function StampAll(requests: seq<Release>, ids: seq<Id>, now: Time): seq<Release>
    requires |ids| == |requests|
  {
    seq(|requests|, i requires 0 <= i < |requests| => StampRelease(requests[i], ids[i], now))
  }

  /** `Release` once the caller is known to manage the package. */
  function ReleaseManaged(r: Repository, who: Identity, pkg: Package, requests: seq<Release>, ids: seq<Id>, now: Time)
    : (Repository, Result<seq<Release>>)
    requires |ids| == |requests|
  {
    var (r1, _, out) := ReleaseEach(r, who, pkg.id, requests, ids, now);
    if out.Fail? then (r1, Err(out.error))
    else
      var (r2, out2) := UpdatePackage(r1, pkg.(status := "published", updatedAt := now));
      if out2.Fail? then (r2, Err(out2.error)) else (r2, Ok(StampAll(requests, ids, now)))
  }

  function Release(r: Repository, who: Identity, name: string, requests: seq<Release>, ids: seq<Id>, now: Time)
    : (Repository, Result<seq<Release>>)
    requires |ids| == |requests|
  {
    match Managed(r, who, name, MANAGE_RELEASES)
    case Err(e) => (r, Err(e))
    case Ok(pkg) => ReleaseManaged(r, who, pkg, requests, ids, now)
  }

  // ---------- downloads ----------

  /** A package looked up by id and shown to the caller by the shared visibility guard. */
  function Visible(r: Repository, who: Identity, p: Id): Result<Package> {
    match GetPackageByID(r, p)
    case None => Err(Translate(NotFound, "package not found"))
    case Some(pkg) =>
      match RequirePackageView(r, who, pkg, false)
      case Fail(e) => Err(e)
      case Pass => Ok(pkg)
  }

  function FetchBlob(blobs: Blobs, key: string): Result<Bytes> {
    if key in blobs then Ok(blobs[key]) else Err(Storage)
  }

  function DownloadCharm(r: Repository, blobs: Blobs, who: Identity, p: Id, n: int): Result<Bytes> {
    match Visible(r, who, p)
    case Err(e) => Err(e)
    case Ok(pkg) =>
      match GetRevisionByNumber(r, pkg.id, n)
      case None => Err(Translate(NotFound, "revision not found"))
      case Some(rev) => FetchBlob(blobs, rev.objectKey)
  }

  function DownloadResource(r: Repository, blobs: Blobs, who: Identity, p: Id, resource: string,
                            n: int): Result<Bytes> {
    match Visible(r, who, p)
    case Err(e) => Err(e)
    case Ok(pkg) =>
      match GetDefinition(r, pkg.id, resource)
      case None => Err(Translate(NotFound, "resource not found"))
      case Some(d) =>
        match GetResourceRevision(r, d.id, n)
        case None => Err(Translate(NotFound, "resource revision not found"))
        case Some(row) => if row.objectKey == "" then Ok(row.ociBlob) else FetchBlob(blobs, row.objectKey)
  }
}
