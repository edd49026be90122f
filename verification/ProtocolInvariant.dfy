/** The inductive invariant of the concurrent protocol: the tables are consistent, every stored
    artefact is the upload it was pushed from, and what each client in flight already knows is
    still true, unless the package or resource it is about has been deleted for good. */
module ProtocolInvariant {
  import opened Core
  import opened Invariants
  import opened Protocol
  import Sql = Tables
  import C = Calls
  import Filenames

  // ---------- blobs and artefacts ----------

  /** The upload id in an object key. */
  function KeyOwner(key: string): Id {
    if |key| < 8 then "" else key[8..][..Filenames.Index(key[8..], '/')]
  }

  lemma KeyOwnerOf(id: Id, filename: string)
    requires '/' !in id
    ensures KeyOwner(C.ObjectKey(id, filename)) == id && C.ObjectKey(id, filename) != ""
  {
    var key := C.ObjectKey(id, filename);
    var rest := id + "/" + filename;
    assert key[8..] == rest;
    assert rest[..|id|] == id;
    Filenames.IndexUnique(rest, '/', |id|);
  }

  ghost predicate UploadIntact(w: World, up: Upload, blobs: C.Blobs, payloads: map<Id, Bytes>) {
    && up.id in payloads && up.objectKey != ""
    && up.objectKey in blobs && blobs[up.objectKey] == payloads[up.id]
    && up.size == |payloads[up.id]|
    && up.sha256 == w.sha256(payloads[up.id]) && up.sha384 == w.sha384(payloads[up.id])
  }

  ghost predicate UploadsIntact(w: World, uploads: Uploads, blobs: C.Blobs, payloads: map<Id, Bytes>) {
    forall i | i in uploads :: UploadIntact(w, uploads[i], blobs, payloads)
  }

  /** `bytes` are what a download of this charm revision must return. */
  ghost predicate CharmIntact(w: World, rev: Revision, blobs: C.Blobs, bytes: Bytes) {
    && rev.objectKey in blobs && blobs[rev.objectKey] == bytes
    && rev.size == |bytes| && rev.sha256 == w.sha256(bytes) && rev.sha384 == w.sha384(bytes)
  }

  ghost predicate ResourceIntact(w: World, row: ResourceRevision, blobs: C.Blobs, bytes: Bytes) {
    && row.size == |bytes| && row.sha256 == w.sha256(bytes) && row.sha384 == w.sha384(bytes)
    && row.sha512 == w.sha512(bytes) && row.sha3384 == w.sha384(bytes)
    && (if row.objectKey == "" then row.ociBlob == bytes else row.objectKey in blobs && blobs[row.objectKey] == bytes)
  }

  ghost predicate HasOrigin(row: Id, origin: map<Id, Id>, payloads: map<Id, Bytes>) {
    row in origin && origin[row] in payloads
  }

  ghost predicate CharmsIntact(w: World, rows: Revisions, blobs: C.Blobs, origin: map<Id, Id>,
                               payloads: map<Id, Bytes>) {
    forall k | k in rows ::
      HasOrigin(rows[k].id, origin, payloads) && CharmIntact(w, rows[k], blobs, payloads[origin[rows[k].id]])
  }

  ghost predicate ResourcesIntact(w: World, rows: ResourceRevisions, blobs: C.Blobs, origin: map<Id, Id>,
                                  payloads: map<Id, Bytes>) {
    forall k | k in rows ::
      HasOrigin(rows[k].id, origin, payloads) && ResourceIntact(w, rows[k], blobs, payloads[origin[rows[k].id]])
  }

  /** Keys, payloads and origins are all filed under ids that have been drawn. */
  ghost predicate HistoryDrawn(st: Store) {
    && (forall k | k in st.blobs :: KeyOwner(k) in st.drawn)
    && st.payloads.Keys <= st.drawn
    && st.origin.Keys <= st.drawn
  }

  ghost predicate StoreOk(w: World, st: Store) {
    && Consistent(st.db)
    && IdsDrawn(st.drawn, st.db.packages, st.db.defs)
    && HistoryDrawn(st)
    && UploadsIntact(w, st.db.uploads, st.blobs, st.payloads)
    && CharmsIntact(w, st.db.revisions, st.blobs, st.origin, st.payloads)
    && ResourcesIntact(w, st.db.resourceRevs, st.blobs, st.origin, st.payloads)
  }

  // ---------- how the store moves on ----------

  ghost predicate Grows<K, V>(a: map<K, V>, b: map<K, V>) {
    forall k | k in a :: k in b && b[k] == a[k]
  }

  ghost predicate StoreEvolves(st: Store, st': Store) {
    && st.drawn <= st'.drawn
    && Evolves(st.drawn, st.db, st'.db)
    && Grows(st.blobs, st'.blobs)
    && Grows(st.payloads, st'.payloads)
    && Grows(st.origin, st'.origin)
  }

  ghost predicate Moves(w: World, st: Store, st': Store) {
    StoreOk(w, st') && StoreEvolves(st, st')
  }

  lemma StoreEvolvesRefl(st: Store)
    ensures StoreEvolves(st, st)
  {
    EvolvesRefl(st.drawn, st.db);
  }

  lemma StoreEvolvesTrans(w: World, a: Store, b: Store, c: Store)
    requires StoreOk(w, a) && StoreEvolves(a, b) && StoreEvolves(b, c)
    ensures StoreEvolves(a, c)
  {
    EvolvesTrans(a.drawn, b.drawn, a.db, b.db, c.db);
  }

  // ---------- what clients in flight know ----------

  /** A snapshot of an upload row: its bytes are still what they were. */
  ghost predicate KnowsUpload(st: Store, up: Upload) {
    up.id in st.db.uploads && SameUpload(up, st.db.uploads[up.id])
  }

  /** A snapshot of a definition: whoever has this id still has this name. */
  ghost predicate KnowsDefinition(st: Store, d: ResourceDefinition) {
    d.id in st.drawn && forall k | k in st.db.defs && st.db.defs[k].id == d.id :: k.1 == d.name
  }

  ghost predicate KnowsNumber(st: Store, p: Id, n: int) {
    p in st.db.packages ==> Follows(st.db.revisions, p, n)
  }

  ghost predicate KnowsResourceNumber(st: Store, d: Id, n: int) {
    Sql.DefinitionId(st.db.defs, d) ==> Follows(st.db.resourceRevs, d, n)
  }

  /** The revision this client created, if its package is still there. */
  ghost predicate KnowsRevision(st: Store, p: Id, n: int, row: Id, up: Upload) {
    && row in st.origin && st.origin[row] == up.id
    && (p in st.db.packages ==> (p, n) in st.db.revisions && st.db.revisions[(p, n)].id == row)
  }

  ghost predicate KnowsResource(st: Store, d: Id, n: int, row: Id, up: Upload) {
    && row in st.origin && st.origin[row] == up.id
    && (Sql.DefinitionId(st.db.defs, d) ==>
          (d, n) in st.db.resourceRevs && st.db.resourceRevs[(d, n)].id == row)
  }

  ghost predicate KnowsItem(st: Store, d: Id, item: ResourceRevision) {
    && item.resourceId == d
    && (Sql.DefinitionId(st.db.defs, d) ==>
          (d, item.number) in st.db.resourceRevs && SameArtefact(item, st.db.resourceRevs[(d, item.number)]))
  }

  ghost predicate KnowsPush(w: World, st: Store, pc: PushPc) {
    match pc
    case PushAuth(pkg) => pkg.id in st.drawn
    case PushAcl(pkg) => pkg.id in st.drawn
    case PushUpload(pkg) => pkg.id in st.drawn
    case PushBlob(pkg, up) => pkg.id in st.drawn && KnowsUpload(st, up)
    case PushReject(up) => true
    case PushNumber(pkg, up, _) => pkg.id in st.drawn && KnowsUpload(st, up)
    case PushCreate(pkg, up, _, n) => pkg.id in st.drawn && KnowsUpload(st, up) && KnowsNumber(st, pkg.id, n)
    case PushApprove(pkg, up, _, n, row) => pkg.id in st.drawn && KnowsRevision(st, pkg.id, n, row, up)
    case PushPublish(pkg, up, _, n, row) => pkg.id in st.drawn && KnowsRevision(st, pkg.id, n, row, up)
    case PushDefine(pkg, up, n, row, _) => pkg.id in st.drawn && KnowsRevision(st, pkg.id, n, row, up)
    case PushDone(pkg, up, n, row) => pkg.id in st.drawn && KnowsRevision(st, pkg.id, n, row, up)
    case _ => true
  }

  ghost predicate KnowsResourcePush(w: World, st: Store, pc: ResourcePc) {
    match pc
    case ResourceAuth(pkg) => pkg.id in st.drawn
    case ResourceAcl(pkg) => pkg.id in st.drawn
    case ResourceDef(pkg) => pkg.id in st.drawn
    case ResourceUpload(d) => KnowsDefinition(st, d)
    case ResourceBlob(d, up) => KnowsDefinition(st, d) && KnowsUpload(st, up)
    case ResourceNumber(d, up, payload) =>
      KnowsDefinition(st, d) && KnowsUpload(st, up) && up.id in st.payloads && payload == st.payloads[up.id]
    case ResourceCreate(d, up, payload, n) =>
      && KnowsDefinition(st, d) && KnowsUpload(st, up) && up.id in st.payloads && payload == st.payloads[up.id]
      && KnowsResourceNumber(st, d.id, n)
    case ResourceApprove(d, up, n, row) => KnowsDefinition(st, d) && KnowsResource(st, d.id, n, row, up)
    case ResourceDone(d, up, n, row) => KnowsDefinition(st, d) && KnowsResource(st, d.id, n, row, up)
    case _ => true
  }

  ghost predicate KnowsRelease(st: Store, requests: seq<Release>, pc: ReleasePc) {
    match pc
    case ReleaseAuth(pkg) => pkg.id in st.drawn
    case ReleaseAcl(pkg) => pkg.id in st.drawn
    case ReleaseCheck(pkg, i) => pkg.id in st.drawn && i <= |requests|
    case ReleaseStore(pkg, i) =>
      && pkg.id in st.drawn && i < |requests|
      && (pkg.id in st.db.packages ==> (pkg.id, requests[i].revision) in st.db.revisions)
    case _ => true
  }

  ghost predicate KnowsUploading(w: World, st: Store, filename: string, payload: Bytes, pc: UploadPc) {
    match pc
    case UploadPut => PlainElement(filename)
    case UploadInsert(up) => UploadIntact(w, up, st.blobs, st.payloads)
    case _ => true
  }

  ghost predicate KnowsUpdate(st: Store, pc: UpdatePc) {
    match pc
    case UpdateRead(d, _) => KnowsDefinition(st, d)
    case UpdateWrite(d, _, item) => KnowsDefinition(st, d) && KnowsItem(st, d.id, item)
    case _ => true
  }

  ghost predicate Knows(w: World, st: Store, c: Client) {
    match c
    case Pusher(_, _, _, pc) => KnowsPush(w, st, pc)
    case ResourcePusher(_, _, _, _, pc) => KnowsResourcePush(w, st, pc)
    case Releaser(_, _, requests, pc) => KnowsRelease(st, requests, pc)
    case Unregisterer(_, _, _) => true
    case Uploader(filename, payload, pc) => KnowsUploading(w, st, filename, payload, pc)
    case Updater(_, _, _, _, pc) => KnowsUpdate(st, pc)
  }

  ghost predicate Inv(w: World, s: State) {
    StoreOk(w, s.st) && forall c | c in s.clients :: Knows(w, s.st, s.clients[c])
  }

  // ---------- knowledge lasts ----------

  lemma DefinitionLasts(st: Store, st': Store, d: Id)
    requires StoreEvolves(st, st') && d in st.drawn && Sql.DefinitionId(st'.db.defs, d)
    ensures Sql.DefinitionId(st.db.defs, d)
    ensures forall n | (d, n) in st.db.resourceRevs ::
      (d, n) in st'.db.resourceRevs && SameArtefact(st.db.resourceRevs[(d, n)], st'.db.resourceRevs[(d, n)])
  {
    var k :| k in st'.db.defs && st'.db.defs[k].id == d;
    assert k in st.db.defs && st.db.defs[k].id == d;
  }

  lemma PushKnowledgeLasts(w: World, st: Store, st': Store, pc: PushPc)
    requires Moves(w, st, st') && KnowsPush(w, st, pc)
    ensures KnowsPush(w, st', pc)
  {}

  lemma ResourceKnowledgeLasts(w: World, st: Store, st': Store, pc: ResourcePc)
    requires Moves(w, st, st') && KnowsResourcePush(w, st, pc)
    ensures KnowsResourcePush(w, st', pc)
  {
    if (pc.ResourceCreate? || pc.ResourceApprove? || pc.ResourceDone?) && Sql.DefinitionId(st'.db.defs, pc.d.id) {
      DefinitionLasts(st, st', pc.d.id);
    }
  }

  lemma UpdateKnowledgeLasts(w: World, st: Store, st': Store, pc: UpdatePc)
    requires Moves(w, st, st') && KnowsUpdate(st, pc)
    ensures KnowsUpdate(st', pc)
  {
    if pc.UpdateWrite? && Sql.DefinitionId(st'.db.defs, pc.d.id) {
      DefinitionLasts(st, st', pc.d.id);
    }
  }

  lemma KnowledgeLasts(w: World, st: Store, st': Store, c: Client)
    requires Moves(w, st, st') && Knows(w, st, c)
    ensures Knows(w, st', c)
  {
    match c {
      case Pusher(_, _, _, pc) => PushKnowledgeLasts(w, st, st', pc);
      case ResourcePusher(_, _, _, _, pc) => ResourceKnowledgeLasts(w, st, st', pc);
      case Releaser(_, _, _, _) =>
      case Unregisterer(_, _, _) =>
      case Uploader(_, _, _) =>
      case Updater(_, _, _, _, pc) => UpdateKnowledgeLasts(w, st, st', pc);
    }
  }
}
