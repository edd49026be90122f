/** Any number of clients running the service's calls at the same time over the Postgres tables.
    A client is a service call with its local variables; one step of a client is one repository or
    blob-store call together with the local work up to the next one. Nothing is locked between two
    steps, a client may crash at any point, and other traffic changes packages, tracks and access
    lists with single statements. */
module Protocol {
  import opened Core
  import opened Access
  import Sql = Tables
  import C = Calls
  import Filenames

  type ClientId = nat

  /** The database and the blobs, with three records of the past that no step reads: the ids ever
      drawn, the bytes uploaded under each upload id, and the upload each stored row was pushed from. */
  datatype Store = Store(db: Sql.Tables, blobs: C.Blobs, drawn: set<Id>, payloads: map<Id, Bytes>, origin: map<Id, Id>)

  // ---------- program counters with the local variables known there ----------

  datatype PushPc =
    | PushFind
    | PushAuth(pkg: Package)
    | PushAcl(pkg: Package)
    | PushUpload(pkg: Package)
    | PushBlob(pkg: Package, up: Upload)
    | PushReject(up: Upload)
    | PushNumber(pkg: Package, up: Upload, archive: Archive)
    | PushCreate(pkg: Package, up: Upload, archive: Archive, n: int)
    | PushApprove(pkg: Package, up: Upload, archive: Archive, n: int, row: Id)
    | PushPublish(pkg: Package, up: Upload, archive: Archive, n: int, row: Id)
    | PushDefine(pkg: Package, up: Upload, n: int, row: Id, todo: map<string, ResourceDecl>)
    | PushDone(pkg: Package, up: Upload, n: int, row: Id)
    | PushFailed(error: Error)

  datatype ResourcePc =
    | ResourceFind
    | ResourceAuth(pkg: Package)
    | ResourceAcl(pkg: Package)
    | ResourceDef(pkg: Package)
    | ResourceUpload(d: ResourceDefinition)
    | ResourceBlob(d: ResourceDefinition, up: Upload)
    | ResourceNumber(d: ResourceDefinition, up: Upload, payload: Bytes)
    | ResourceCreate(d: ResourceDefinition, up: Upload, payload: Bytes, n: int)
    | ResourceApprove(d: ResourceDefinition, up: Upload, n: int, row: Id)
    | ResourceDone(d: ResourceDefinition, up: Upload, n: int, row: Id)
    | ResourceFailed(error: Error)

  datatype ReleasePc =
    | ReleaseFind
    | ReleaseAuth(pkg: Package)
    | ReleaseAcl(pkg: Package)
    | ReleaseCheck(pkg: Package, i: nat)
    | ReleaseStore(pkg: Package, i: nat)
    | ReleasePublish(pkg: Package)
    | ReleaseDone(pkg: Package)
    | ReleaseFailed(error: Error)

  datatype UnregisterPc =
    | UnregisterFind
    | UnregisterAuth(pkg: Package)
    | UnregisterAcl(pkg: Package)
    | UnregisterList(pkg: Package)
    | UnregisterDelete(pkg: Package)
    | UnregisterDone(p: Id)
    | UnregisterFailed(error: Error)

  datatype UploadPc =
    | UploadPut
    | UploadInsert(up: Upload)
    | UploadDone(up: Upload)
    | UploadFailed(error: Error)

  datatype UpdatePc =
    | UpdateFind
    | UpdateAuth(pkg: Package)
    | UpdateAcl(pkg: Package)
    | UpdateDef(pkg: Package)
    | UpdateRead(d: ResourceDefinition, i: nat)
    | UpdateWrite(d: ResourceDefinition, i: nat, item: ResourceRevision)
    | UpdateDone(i: nat)
    | UpdateFailed(i: nat, error: Error)

  datatype Client =
    | Pusher(who: Identity, name: string, uploadId: Id, push: PushPc)
    | ResourcePusher(who: Identity, name: string, resource: string, request: C.ResourcePush, res: ResourcePc)
    | Releaser(who: Identity, name: string, requests: seq<Release>, rel: ReleasePc)
    | Unregisterer(who: Identity, name: string, unreg: UnregisterPc)
    | Uploader(filename: string, payload: Bytes, upl: UploadPc)
    | Updater(who: Identity, name: string, resource: string, updates: seq<C.ResourceUpdate>, upd: UpdatePc)

  /** A plain path element: what `filepath.Join` keeps as it is. */
  predicate PlainElement(s: string) {
    s != "" && s != "." && s != ".." && '/' !in s
  }

  predicate Starting(c: Client) {
    match c
    case Pusher(_, _, _, pc) => pc == PushFind
    case ResourcePusher(_, _, _, _, pc) => pc == ResourceFind
    case Releaser(_, _, _, pc) => pc == ReleaseFind
    case Unregisterer(_, _, pc) => pc == UnregisterFind
    case Uploader(filename, _, pc) => pc == UploadPut && PlainElement(filename)
    case Updater(_, _, _, _, pc) => pc == UpdateFind
  }

  // ---------- one step of each kind of client ----------

  /** `requirePackageManage` issues two queries: the first reads the package row and mostly settles the
      matter, the second asks the access list. */
  datatype Permit = Settled(verdict: Outcome) | NeedsAcl

  function FirstRead(db: Sql.Tables, who: Identity, pkg: Package, permission: string): Permit {
    if RequirePermission(who, permission).Fail? then Settled(RequirePermission(who, permission))
    else if pkg.id !in db.packages then Settled(Fail(NotFound))
    else if who.accountId == "" then Settled(Fail(NO_MANAGEMENT))
    else if db.packages[pkg.id].owner == who.accountId then Settled(TokenPackageGuard(who, pkg))
    else NeedsAcl
  }

  function AclRead(db: Sql.Tables, who: Identity, pkg: Package): Outcome {
    if Sql.HasRole(db, pkg.id, who.accountId, {"editor", "owner"}) then TokenPackageGuard(who, pkg)
    else Fail(NO_MANAGEMENT)
  }

  /** On one and the same state the two queries give the verdict of the guard. */
  lemma TwoReads(db: Sql.Tables, who: Identity, pkg: Package, permission: string)
    ensures ManageVerdict(who, pkg, permission, Sql.CanAccess(db, pkg.id, who.accountId, true))
            == match FirstRead(db, who, pkg, permission)
               case Settled(verdict) => verdict
               case NeedsAcl => AclRead(db, who, pkg)
  {}

  const NO_PACKAGE := Api(404, "not-found", "package not found")

  function StepPush(w: World, st: Store, who: Identity, name: string, uploadId: Id, pc: PushPc, newId: Id, pick: string,
                    now: Time)
    : (Store, PushPc)
  {
    match pc
    case PushFind =>
      var found := Sql.GetPackageByName(st.db, name);
      (st, if found.None? then PushFailed(NO_PACKAGE) else PushAuth(found.value))
    case PushAuth(pkg) =>
      var permit := FirstRead(st.db, who, pkg, MANAGE_REVISIONS);
      (st, if permit.NeedsAcl? then PushAcl(pkg)
           else if permit.verdict.Fail? then PushFailed(permit.verdict.error)
           else PushUpload(pkg))
    case PushAcl(pkg) =>
      var verdict := AclRead(st.db, who, pkg);
      (st, if verdict.Fail? then PushFailed(verdict.error) else PushUpload(pkg))
    case PushUpload(pkg) =>
      var up := Sql.GetUpload(st.db, uploadId);
      (st, if up.None? then PushFailed(Api(404, "not-found", "upload not found")) else PushBlob(pkg, up.value))
    case PushBlob(pkg, up) =>
      if up.objectKey !in st.blobs then (st, PushFailed(Storage))
      else
        var archive := w.parse(st.blobs[up.objectKey]);
        (st, if archive.None? then PushReject(up) else PushNumber(pkg, up, archive.value))
    case PushReject(up) =>
      (st.(db := Sql.ApproveUpload(st.db, up.id, None, [C.INVALID_ARCHIVE], now).0),
       PushFailed(Api(400, "invalid-archive", C.INVALID_ARCHIVE)))
    case PushNumber(pkg, up, archive) =>
      (st, PushCreate(pkg, up, archive, C.NextNumber(Sql.GetLatestRevision(st.db, pkg.id))))
    case PushCreate(pkg, up, archive, n) =>
      var (db, out) := Sql.CreateRevision(st.db, C.NewRevision(pkg.id, who, up, archive, n, newId, now));
      if out.Fail? then (st, PushFailed(out.error))
      else (st.(db := db, origin := st.origin[newId := up.id]), PushApprove(pkg, up, archive, n, newId))
    case PushApprove(pkg, up, archive, n, row) =>
      var (db, out) := Sql.ApproveUpload(st.db, up.id, Some(n), [], now);
      (st.(db := db), if out.Fail? then PushFailed(out.error) else PushPublish(pkg, up, archive, n, row))
    case PushPublish(pkg, up, archive, n, row) =>
      var (db, out) := Sql.UpdatePackage(st.db, C.Published(w, pkg, archive, now));
      (st.(db := db), if out.Fail? then PushFailed(out.error) else PushDefine(pkg, up, n, row, archive.resources))
    case PushDefine(pkg, up, n, row, todo) =>
      if todo == map[] then (st, PushDone(pkg, up, n, row))
      else if pick !in todo then (st, pc)
      else
        var (db, out) := Sql.UpsertDefinition(st.db, C.Definition(pkg.id, pick, todo[pick], newId, now));
        (st.(db := db), if out.Fail? then PushFailed(out.error) else PushDefine(pkg, up, n, row, todo - {pick}))
    case _ => (st, pc)
  }

  function StepResource(w: World, st: Store, who: Identity, name: string, resource: string, request: C.ResourcePush,
                        pc: ResourcePc, newId: Id, now: Time)
    : (Store, ResourcePc)
  {
    match pc
    case ResourceFind =>
      var found := Sql.GetPackageByName(st.db, name);
      (st, if found.None? then ResourceFailed(NO_PACKAGE) else ResourceAuth(found.value))
    case ResourceAuth(pkg) =>
      var permit := FirstRead(st.db, who, pkg, MANAGE_REVISIONS);
      (st, if permit.NeedsAcl? then ResourceAcl(pkg)
           else if permit.verdict.Fail? then ResourceFailed(permit.verdict.error)
           else ResourceDef(pkg))
    case ResourceAcl(pkg) =>
      var verdict := AclRead(st.db, who, pkg);
      (st, if verdict.Fail? then ResourceFailed(verdict.error) else ResourceDef(pkg))
    case ResourceDef(pkg) =>
      var d := Sql.GetDefinition(st.db, pkg.id, resource);
      (st, if d.None? then ResourceFailed(Api(404, "not-found", "resource not declared")) else ResourceUpload(d.value))
    case ResourceUpload(d) =>
      var up := Sql.GetUpload(st.db, request.uploadId);
      (st, if up.None? then ResourceFailed(Api(404, "not-found", "upload not found")) else ResourceBlob(d, up.value))
    case ResourceBlob(d, up) =>
      (st, if up.objectKey !in st.blobs then ResourceFailed(Storage)
           else ResourceNumber(d, up, st.blobs[up.objectKey]))
    case ResourceNumber(d, up, payload) =>
      (st, ResourceCreate(d, up, payload, C.NextResourceNumber(Sql.FirstResourceRevision(st.db, d.id))))
    case ResourceCreate(d, up, payload, n) =>
      var row := C.NewResourceRevision(w, d, up, payload, n, request.kind, request.bases, request.architectures, newId,
                                       now);
      var (db, out) := Sql.CreateResourceRevision(st.db, row);
      if out.Fail? then (st, ResourceFailed(out.error))
      else (st.(db := db, origin := st.origin[newId := up.id]), ResourceApprove(d, up, n, newId))
    case ResourceApprove(d, up, n, row) =>
      var (db, out) := Sql.ApproveUpload(st.db, up.id, Some(n), [], now);
      (st.(db := db), if out.Fail? then ResourceFailed(out.error) else ResourceDone(d, up, n, row))
    case _ => (st, pc)
  }

  function StepRelease(st: Store, who: Identity, name: string, requests: seq<Release>, pc: ReleasePc, newId: Id,
                       now: Time)
    : (Store, ReleasePc)
  {
    match pc
    case ReleaseFind =>
      var found := Sql.GetPackageByName(st.db, name);
      (st, if found.None? then ReleaseFailed(NO_PACKAGE) else ReleaseAuth(found.value))
    case ReleaseAuth(pkg) =>
      var permit := FirstRead(st.db, who, pkg, MANAGE_RELEASES);
      (st, if permit.NeedsAcl? then ReleaseAcl(pkg)
           else if permit.verdict.Fail? then ReleaseFailed(permit.verdict.error)
           else ReleaseCheck(pkg, 0))
    case ReleaseAcl(pkg) =>
      var verdict := AclRead(st.db, who, pkg);
      (st, if verdict.Fail? then ReleaseFailed(verdict.error) else ReleaseCheck(pkg, 0))
    case ReleaseCheck(pkg, i) =>
      if i >= |requests| then (st, ReleasePublish(pkg))
      else if requests[i].channel == "" then (st, ReleaseFailed(C.CHANNEL_REQUIRED))
      else if Sql.GetRevisionByNumber(st.db, pkg.id, requests[i].revision).None? then
        (st, ReleaseFailed(Api(404, "not-found", "revision not found")))
      else if EnforceChannel(who, requests[i].channel).Fail? then
        (st, ReleaseFailed(EnforceChannel(who, requests[i].channel).error))
      else (st, ReleaseStore(pkg, i))
    case ReleaseStore(pkg, i) =>
      if i >= |requests| then (st, pc)
      else
        var (db, out) := Sql.ReplaceRelease(st.db, pkg.id, C.StampRelease(requests[i], newId, now));
        (st.(db := db), if out.Fail? then ReleaseFailed(out.error) else ReleaseCheck(pkg, i + 1))
    case ReleasePublish(pkg) =>
      var (db, out) := Sql.UpdatePackage(st.db, pkg.(status := "published", updatedAt := now));
      (st.(db := db), if out.Fail? then ReleaseFailed(out.error) else ReleaseDone(pkg))
    case _ => (st, pc)
  }

  function StepUnregister(st: Store, who: Identity, name: string, pc: UnregisterPc): (Store, UnregisterPc) {
    match pc
    case UnregisterFind =>
      var found := Sql.GetPackageByName(st.db, name);
      (st, if found.None? then UnregisterFailed(NO_PACKAGE) else UnregisterAuth(found.value))
    case UnregisterAuth(pkg) =>
      var permit := FirstRead(st.db, who, pkg, PACKAGE_MANAGE);
      (st, if permit.NeedsAcl? then UnregisterAcl(pkg)
           else if permit.verdict.Fail? then UnregisterFailed(permit.verdict.error)
           else UnregisterList(pkg))
    case UnregisterAcl(pkg) =>
      var verdict := AclRead(st.db, who, pkg);
      (st, if verdict.Fail? then UnregisterFailed(verdict.error) else UnregisterList(pkg))
    case UnregisterList(pkg) =>
      (st, if Sql.Numbers(st.db, pkg.id) != {} then UnregisterFailed(C.HAS_REVISIONS) else UnregisterDelete(pkg))
    case UnregisterDelete(pkg) =>
      var (db, out) := Sql.DeletePackage(st.db, pkg.id);
      (st.(db := db), if out.Fail? then UnregisterFailed(out.error) else UnregisterDone(pkg.id))
    case _ => (st, pc)
  }

  function StepUpload(w: World, st: Store, filename: string, payload: Bytes, pc: UploadPc, newId: Id, now: Time)
    : (Store, UploadPc)
  {
    match pc
    case UploadPut =>
      var up := C.NewUpload(w, filename, payload, newId, now);
      (st.(blobs := st.blobs[up.objectKey := payload], payloads := st.payloads[newId := payload]), UploadInsert(up))
    case UploadInsert(up) =>
      var (db, out) := Sql.CreateUpload(st.db, up);
      (st.(db := db), if out.Fail? then UploadFailed(out.error) else UploadDone(up))
    case _ => (st, pc)
  }

  function StepUpdate(st: Store, who: Identity, name: string, resource: string, updates: seq<C.ResourceUpdate>,
                      pc: UpdatePc)
    : (Store, UpdatePc)
  {
    match pc
    case UpdateFind =>
      var found := Sql.GetPackageByName(st.db, name);
      (st, if found.None? then UpdateFailed(0, NO_PACKAGE) else UpdateAuth(found.value))
    case UpdateAuth(pkg) =>
      var permit := FirstRead(st.db, who, pkg, MANAGE_REVISIONS);
      (st, if permit.NeedsAcl? then UpdateAcl(pkg)
           else if permit.verdict.Fail? then UpdateFailed(0, permit.verdict.error)
           else UpdateDef(pkg))
    case UpdateAcl(pkg) =>
      var verdict := AclRead(st.db, who, pkg);
      (st, if verdict.Fail? then UpdateFailed(0, verdict.error) else UpdateDef(pkg))
    case UpdateDef(pkg) =>
      var d := Sql.GetDefinition(st.db, pkg.id, resource);
      (st, if d.None? then UpdateFailed(0, Api(404, "not-found", "resource not found")) else UpdateRead(d.value, 0))
    case UpdateRead(d, i) =>
      if i >= |updates| then (st, UpdateDone(i))
      else
        var item := Sql.GetResourceRevision(st.db, d.id, updates[i].number);
        (st, if item.None? then UpdateFailed(i, NotFound) else UpdateWrite(d, i, item.value))
    case UpdateWrite(d, i, item) =>
      if i >= |updates| then (st, pc)
      else
        var (db, out) := Sql.UpdateResourceRevision(
          st.db, item.(bases := updates[i].bases, architectures := updates[i].architectures));
        (st.(db := db), if out.Fail? then UpdateFailed(i, out.error) else UpdateRead(d, i + 1))
    case _ => (st, pc)
  }

  /** One step of a client: `newId` is the fresh id the step may draw, `pick` the next map key it ranges over. */
  function StepClient(w: World, st: Store, c: Client, newId: Id, pick: string, now: Time): (Store, Client) {
    match c
    case Pusher(who, name, uploadId, pc) =>
      var (st', pc') := StepPush(w, st, who, name, uploadId, pc, newId, pick, now); (st', c.(push := pc'))
    case ResourcePusher(who, name, resource, request, pc) =>
      var (st', pc') := StepResource(w, st, who, name, resource, request, pc, newId, now); (st', c.(res := pc'))
    case Releaser(who, name, requests, pc) =>
      var (st', pc') := StepRelease(st, who, name, requests, pc, newId, now); (st', c.(rel := pc'))
    case Unregisterer(who, name, pc) =>
      var (st', pc') := StepUnregister(st, who, name, pc); (st', c.(unreg := pc'))
    case Uploader(filename, payload, pc) =>
      var (st', pc') := StepUpload(w, st, filename, payload, pc, newId, now); (st', c.(upl := pc'))
    case Updater(who, name, resource, updates, pc) =>
      var (st', pc') := StepUpdate(st, who, name, resource, updates, pc); (st', c.(upd := pc'))
  }

  // ---------- the system ----------

  datatype State = State(st: Store, clients: map<ClientId, Client>)

  datatype Event =
    | Start(c: ClientId, client: Client)
    | Act(c: ClientId, newId: Id, pick: string, now: Time)
    | Crash(c: ClientId)
    | Register(pkg: Package)                        // CREATE of RegisterPackage
    | Edit(pkg: Package)                            // UPDATE of UpdatePackage, whatever the patch
    | AddTrack(p: Id, track: Track)                 // one INSERT of CreateTracks
    | AccessLists(accounts: set<Id>, members: set<(Id, Id)>, acl: map<(Id, string, Id), string>)

  const INITIAL := State(Store(Sql.EMPTY, map[], {}, map[], map[]), map[])

  /** Ids are drawn fresh and without "/"; accounts are never removed. */
  predicate Enabled(s: State, e: Event) {
    match e
    case Start(c, client) => c !in s.clients && Starting(client)
    case Act(c, newId, _, _) => c in s.clients && newId !in s.st.drawn && '/' !in newId
    case Crash(c) => c in s.clients
    case Register(pkg) => pkg.id !in s.st.drawn
    case Edit(_) => true
    case AddTrack(_, _) => true
    case AccessLists(accounts, _, _) => s.st.db.accounts <= accounts
  }

  function StepStore(w: World, s: State, e: Event): Store {
    match e
    case Act(c, newId, pick, now) =>
      if c !in s.clients then s.st
      else
        StepClient(w, s.st, s.clients[c], newId, pick, now).0.(drawn := s.st.drawn + {newId})
    case Register(pkg) => s.st.(db := Sql.CreatePackage(s.st.db, pkg).0, drawn := s.st.drawn + {pkg.id})
    case Edit(pkg) => s.st.(db := Sql.UpdatePackage(s.st.db, pkg).0)
    case AddTrack(p, track) => s.st.(db := Sql.CreateTrack(s.st.db, p, track).0)
    case AccessLists(accounts, members, acl) =>
      s.st.(db := s.st.db.(accounts := accounts, members := members, acl := acl))
    case _ => s.st
  }

  function StepClients(w: World, s: State, e: Event): map<ClientId, Client> {
    match e
    case Start(c, client) => s.clients[c := client]
    case Act(c, newId, pick, now) =>
      if c !in s.clients then s.clients
      else s.clients[c := StepClient(w, s.st, s.clients[c], newId, pick, now).1]
    case Crash(c) => s.clients - {c}
    case _ => s.clients
  }

  function Step(w: World, s: State, e: Event): State {
    State(StepStore(w, s, e), StepClients(w, s, e))
  }

  /** Every event of the interleaving is possible when its turn comes. */
  predicate Legal(w: World, s: State, events: seq<Event>)
    decreases |events|
  {
    events == [] || (Enabled(s, events[0]) && Legal(w, Step(w, s, events[0]), events[1..]))
  }

  function Run(w: World, s: State, events: seq<Event>): State
    decreases |events|
  {
    if events == [] then s else Run(w, Step(w, s, events[0]), events[1..])
  }
}
