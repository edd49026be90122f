/** `repo.Repository` (internal/repo/interface.go) and its two implementations. Every function
    dispatches one interface method; service code is written once against these. */
module Repository {
  import opened Core
  import Sql = Tables
  import Mem = MemoryModel

  datatype Repository = InMemory(m: Mem.Mem) | Postgres(t: Sql.Tables)

  function GetPackageByName(r: Repository, name: string): Option<Package> {
    match r
    case InMemory(m) => Mem.GetPackageByName(m, name)
    case Postgres(t) => Sql.GetPackageByName(t, name)
  }

  function GetPackageByID(r: Repository, p: Id): Option<Package> {
    match r
    case InMemory(m) => Mem.GetPackageByID(m, p)
    case Postgres(t) => Sql.GetPackageByID(t, p)
  }

  function CanViewPackage(r: Repository, p: Id, account: Id): Result<bool> {
    match r
    case InMemory(m) => Mem.CanView(m, p, account)
    case Postgres(t) => Sql.CanAccess(t, p, account, false)
  }

  function CanManagePackage(r: Repository, p: Id, account: Id): Result<bool> {
    match r
    case InMemory(m) => Mem.CanManage(m, p, account)
    case Postgres(t) => Sql.CanAccess(t, p, account, true)
  }

  function CreatePackage(r: Repository, pkg: Package): (Repository, Outcome) {
    match r
    case InMemory(m) => var (m', out) := Mem.CreatePackage(m, pkg); (InMemory(m'), out)
    case Postgres(t) => var (t', out) := Sql.CreatePackage(t, pkg); (Postgres(t'), out)
  }

  function UpdatePackage(r: Repository, pkg: Package): (Repository, Outcome) {
    match r
    case InMemory(m) => var (m', out) := Mem.UpdatePackage(m, pkg); (InMemory(m'), out)
    case Postgres(t) => var (t', out) := Sql.UpdatePackage(t, pkg); (Postgres(t'), out)
  }

  function DeletePackage(r: Repository, p: Id): (Repository, Outcome) {
    match r
    case InMemory(m) => var (m', out) := Mem.DeletePackage(m, p); (InMemory(m'), out)
    case Postgres(t) => var (t', out) := Sql.DeletePackage(t, p); (Postgres(t'), out)
  }

  /** Postgres inserts track by track and adds up the affected rows until one insert fails. */
  function InsertTracks(t: Sql.Tables, p: Id, tracks: seq<Track>): (Sql.Tables, Count)
    decreases |tracks|
  {
    if tracks == [] then (t, Count(0, Pass))
    else
      var (t1, before) := InsertTracks(t, p, tracks[..|tracks| - 1]);
      if before.outcome.Fail? then (t1, before)
      else
        var (t2, one) := Sql.CreateTrack(t1, p, tracks[|tracks| - 1]);
        if one.Err? then (t2, Count(before.created, Fail(one.error))) else (t2, Count(before.created + one.value, Pass))
  }

  function ListTracks(w: World, r: Repository, p: Id): Result<seq<Track>> {
    match r
    case InMemory(m) => Mem.ListTracks(m, p)
    case Postgres(t) => Ok(w.byCreation(Sql.ListTracks(t, p)))
  }

  function CreateTracks(r: Repository, p: Id, tracks: seq<Track>): (Repository, Count) {
    match r
    case InMemory(m) => var (m', out) := Mem.CreateTracks(m, p, tracks); (InMemory(m'), out)
    case Postgres(t) => var (t', out) := InsertTracks(t, p, tracks); (Postgres(t'), out)
  }

  function CreateUpload(r: Repository, u: Upload): (Repository, Outcome) {
    match r
    case InMemory(m) => (InMemory(Mem.CreateUpload(m, u)), Pass)
    case Postgres(t) => var (t', out) := Sql.CreateUpload(t, u); (Postgres(t'), out)
  }

  function GetUpload(r: Repository, id: Id): Option<Upload> {
    match r
    case InMemory(m) => Mem.GetUpload(m, id)
    case Postgres(t) => Sql.GetUpload(t, id)
  }

  function ApproveUpload(r: Repository, id: Id, n: Option<int>, errors: seq<string>, now: Time): (Repository, Outcome) {
    match r
    case InMemory(m) => var (m', out) := Mem.ApproveUpload(m, id, n, errors, now); (InMemory(m'), out)
    case Postgres(t) => var (t', out) := Sql.ApproveUpload(t, id, n, errors, now); (Postgres(t'), out)
  }

  function CreateRevision(r: Repository, row: Revision): (Repository, Outcome) {
    match r
    case InMemory(m) => (InMemory(Mem.CreateRevision(m, row)), Pass)
    case Postgres(t) => var (t', out) := Sql.CreateRevision(t, row); (Postgres(t'), out)
  }

  function GetRevisionByNumber(r: Repository, p: Id, n: int): Option<Revision> {
    match r
    case InMemory(m) => Mem.GetRevisionByNumber(m, p, n)
    case Postgres(t) => Sql.GetRevisionByNumber(t, p, n)
  }

  function GetLatestRevision(r: Repository, p: Id): Option<Revision> {
    match r
    case InMemory(m) => Mem.GetLatestRevision(m, p)
    case Postgres(t) => Sql.GetLatestRevision(t, p)
  }

  /** `len(ListRevisions(...)) > 0`. */
  predicate HasRevisions(r: Repository, p: Id) {
    match r
    case InMemory(m) => Mem.Get(m.revisions, p, []) != []
    case Postgres(t) => Sql.Numbers(t, p) != {}
  }

  function UpsertDefinition(r: Repository, d: ResourceDefinition): (Repository, Outcome) {
    match r
    case InMemory(m) => (InMemory(Mem.UpsertDefinition(m, d)), Pass)
    case Postgres(t) => var (t', out) := Sql.UpsertDefinition(t, d); (Postgres(t'), out)
  }

  function GetDefinition(r: Repository, p: Id, name: string): Option<ResourceDefinition> {
    match r
    case InMemory(m) => Mem.GetDefinition(m, p, name)
    case Postgres(t) => Sql.GetDefinition(t, p, name)
  }

  function CreateResourceRevision(r: Repository, row: ResourceRevision): (Repository, Outcome) {
    match r
    case InMemory(m) => (InMemory(Mem.CreateResourceRevision(m, row)), Pass)
    case Postgres(t) => var (t', out) := Sql.CreateResourceRevision(t, row); (Postgres(t'), out)
  }

  function UpdateResourceRevision(r: Repository, row: ResourceRevision): (Repository, Outcome) {
    match r
    case InMemory(m) => var (m', out) := Mem.UpdateResourceRevision(m, row); (InMemory(m'), out)
    case Postgres(t) => var (t', out) := Sql.UpdateResourceRevision(t, row); (Postgres(t'), out)
  }

  /** `ListResourceRevisions(...)[0]`: insertion order in memory, highest number first in Postgres. */
  function FirstResourceRevision(r: Repository, d: Id): Option<ResourceRevision> {
    match r
    case InMemory(m) =>
      var rows := Mem.ListResourceRevisions(m, d);
      if rows == [] then None else Some(rows[0])
    case Postgres(t) => Sql.FirstResourceRevision(t, d)
  }

  function GetResourceRevision(r: Repository, d: Id, n: int): Option<ResourceRevision> {
    match r
    case InMemory(m) => Mem.GetResourceRevision(m, d, n)
    case Postgres(t) => Sql.GetResourceRevision(t, d, n)
  }

  function ReplaceRelease(r: Repository, p: Id, release: Release): (Repository, Outcome) {
    match r
    case InMemory(m) => (InMemory(Mem.ReplaceRelease(m, p, release)), Pass)
    case Postgres(t) => var (t', out) := Sql.ReplaceRelease(t, p, release); (Postgres(t'), out)
  }

  function ListReleases(r: Repository, p: Id): set<Release> {
    match r
    case InMemory(m) => Mem.ListReleases(m, p)
    case Postgres(t) => Sql.ListReleases(t, p)
  }

  function ResolveRelease(r: Repository, p: Id, channel: string): Option<Release> {
    match r
    case InMemory(m) => Mem.ResolveRelease(m, p, channel)
    case Postgres(t) => Sql.ResolveRelease(t, p, channel)
  }

  function ResolveDefaultRelease(w: World, r: Repository, p: Id): Option<Release> {
    match r
    case InMemory(m) => Mem.ResolveDefaultRelease(w, m, p)
    case Postgres(t) => Sql.ResolveDefaultRelease(w, t, p)
  }
}
