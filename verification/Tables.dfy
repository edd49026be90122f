/** The Postgres schema (internal/repo/migrations/0001_init.sql) and the statements the
    postgres_*.go files issue. Each function is one statement, hence one atomic step.

    A UNIQUE constraint is the key of a map; the primary keys that are not the map's key,
    and the foreign keys, are checked by each INSERT; ON DELETE CASCADE is `DeletePackage`. */
module Tables {
  import opened Core

  datatype Tables = Tables(
    accounts: set<Id>,
    members: set<(Id, Id)>,                        // account_group_members (group, account)
    acl: map<(Id, string, Id), string>,            // package_acl (package, type, principal) -> role
    packages: map<Id, Package>,
    names: map<string, Id>,                        // the UNIQUE index of packages.name
    tracks: map<(Id, string), Track>,
    uploads: map<Id, Upload>,
    revisions: map<(Id, int), Revision>,           // UNIQUE (package_id, revision)
    defs: map<(Id, string), ResourceDefinition>,   // UNIQUE (package_id, name)
    resourceRevs: map<(Id, int), ResourceRevision>, // UNIQUE (resource_id, revision)
    releases: map<(Id, string), Release>)          // UNIQUE (package_id, channel)

  const EMPTY := Tables({}, {}, map[], map[], map[], map[], map[], map[], map[], map[], map[])

  // ---------- packages ----------

  function CreatePackage(t: Tables, pkg: Package): (Tables, Outcome) {
    if pkg.id in t.packages || pkg.name in t.names then (t, Fail(Conflict))
    else if pkg.owner !in t.accounts then (t, Fail(Storage))
    else (t.(packages := t.packages[pkg.id := pkg.(tracks := [])], names := t.names[pkg.name := pkg.id]), Pass)
  }

  /** The columns `UPDATE packages` sets; name, type, owner and creation time stay. */
  function Patched(row: Package, pkg: Package): Package {
    row.(isPrivate := pkg.isPrivate, status := pkg.status, defaultTrack := pkg.defaultTrack,
         texts := pkg.texts, updatedAt := pkg.updatedAt)
  }

  function UpdatePackage(t: Tables, pkg: Package): (Tables, Outcome) {
    if pkg.id !in t.packages then (t, Fail(NotFound))
    else (t.(packages := t.packages[pkg.id := Patched(t.packages[pkg.id], pkg)]), Pass)
  }

  predicate DefinitionId(defs: map<(Id, string), ResourceDefinition>, d: Id) {
    exists k | k in defs :: defs[k].id == d
  }

  /** Some definition with this id belongs to a package other than `p`. */
  predicate KeptDefinition(defs: map<(Id, string), ResourceDefinition>, p: Id, d: Id) {
    exists k | k in defs :: k.0 != p && defs[k].id == d
  }

  function DeletePackage(t: Tables, p: Id): (Tables, Outcome) {
    if p !in t.packages then (t, Fail(NotFound))
    else
      (t.(packages := t.packages - {p},
          names := t.names - {t.packages[p].name},
          acl := map k | k in t.acl && k.0 != p :: t.acl[k],
          tracks := map k | k in t.tracks && k.0 != p :: t.tracks[k],
          revisions := map k | k in t.revisions && k.0 != p :: t.revisions[k],
          defs := map k | k in t.defs && k.0 != p :: t.defs[k],
          resourceRevs := map k | k in t.resourceRevs && KeptDefinition(t.defs, p, k.0) :: t.resourceRevs[k],
          releases := map k | k in t.releases && k.0 != p :: t.releases[k]), Pass)
  }

  function GetPackageByID(t: Tables, p: Id): Option<Package> {
    if p in t.packages then Some(t.packages[p]) else None
  }

  function GetPackageByName(t: Tables, name: string): Option<Package> {
    if name in t.names then GetPackageByID(t, t.names[name]) else None
  }

  /** The EXISTS query of `canAccess` over package_acl and account_group_members. */
  predicate HasRole(t: Tables, p: Id, account: Id, roles: set<string>) {
    exists k | k in t.acl ::
      && k.0 == p
      && t.acl[k] in roles
      && ((k.1 == "account" && k.2 == account) || (k.1 == "group" && (k.2, account) in t.members))
  }

  function CanAccess(t: Tables, p: Id, account: Id, manage: bool): Result<bool> {
    if p !in t.packages then Err(NotFound)
    else if !manage && !t.packages[p].isPrivate then Ok(true)
    else if account == "" then Ok(false)
    else if t.packages[p].owner == account then Ok(true)
    else Ok(HasRole(t, p, account, if manage then {"editor", "owner"} else {"viewer", "editor", "owner"}))
  }

  // ---------- tracks ----------

  function CreateTrack(t: Tables, p: Id, track: Track): (Tables, Result<nat>) {
    if (p, track.name) in t.tracks then (t, Ok(0))
    else if p !in t.packages then (t, Err(Storage))
    else (t.(tracks := t.tracks[(p, track.name) := track]), Ok(1))
  }

  function ListTracks(t: Tables, p: Id): set<Track> {
    set k | k in t.tracks && k.0 == p :: t.tracks[k]
  }

  // ---------- uploads ----------

  function CreateUpload(t: Tables, u: Upload): (Tables, Outcome) {
    if u.id in t.uploads then (t, Fail(Storage))
    else (t.(uploads := t.uploads[u.id := u]), Pass)
  }

  function Reviewed(u: Upload, revision: Option<int>, errors: seq<string>, now: Time): Upload {
    u.(approvedAt := Some(now), errors := errors, revision := revision,
       status := if errors == [] then "approved" else "rejected")
  }

  function ApproveUpload(t: Tables, id: Id, revision: Option<int>, errors: seq<string>, now: Time)
    : (Tables, Outcome)
  {
    if id !in t.uploads then (t, Fail(NotFound))
    else (t.(uploads := t.uploads[id := Reviewed(t.uploads[id], revision, errors, now)]), Pass)
  }

  function GetUpload(t: Tables, id: Id): Option<Upload> {
    if id in t.uploads then Some(t.uploads[id]) else None
  }

  // ---------- revisions ----------

  function CreateRevision(t: Tables, r: Revision): (Tables, Outcome) {
    if (exists k | k in t.revisions :: t.revisions[k].id == r.id) then (t, Fail(Storage))
    else if (r.packageId, r.number) in t.revisions then (t, Fail(Storage))
    else if r.packageId !in t.packages then (t, Fail(Storage))
    else (t.(revisions := t.revisions[(r.packageId, r.number) := r]), Pass)
  }

  function Numbers(t: Tables, p: Id): (ns: set<int>)
    ensures forall n :: n in ns <==> (p, n) in t.revisions
  {
    set k | k in t.revisions && k.0 == p :: k.1
  }

  function GetRevisionByNumber(t: Tables, p: Id, n: int): Option<Revision> {
    if (p, n) in t.revisions then Some(t.revisions[(p, n)]) else None
  }

  /** First row of `ORDER BY revision DESC`. */
  function GetLatestRevision(t: Tables, p: Id): Option<Revision> {
    if Numbers(t, p) == {} then None else Some(t.revisions[(p, Largest(Numbers(t, p)))])
  }

  // ---------- resources ----------

  function UpsertDefinition(t: Tables, d: ResourceDefinition): (Tables, Outcome) {
    var k := (d.packageId, d.name);
    if k in t.defs then
      (t.(defs := t.defs[k := t.defs[k].(kind := d.kind, description := d.description,
                                         filename := d.filename, optional := d.optional)]), Pass)
    else if DefinitionId(t.defs, d.id) || d.packageId !in t.packages then (t, Fail(Storage))
    else (t.(defs := t.defs[k := d]), Pass)
  }

  function GetDefinition(t: Tables, p: Id, name: string): Option<ResourceDefinition> {
    if (p, name) in t.defs then Some(t.defs[(p, name)]) else None
  }

  function CreateResourceRevision(t: Tables, r: ResourceRevision): (Tables, Outcome) {
    if (exists k | k in t.resourceRevs :: t.resourceRevs[k].id == r.id) then (t, Fail(Storage))
    else if (r.resourceId, r.number) in t.resourceRevs then (t, Fail(Storage))
    else if !DefinitionId(t.defs, r.resourceId) then (t, Fail(Storage))
    else (t.(resourceRevs := t.resourceRevs[(r.resourceId, r.number) := r]), Pass)
  }

  /** Sets the updatable columns of the row with this resource id, number and row id. */
  function UpdateResourceRevision(t: Tables, r: ResourceRevision): (Tables, Outcome) {
    var k := (r.resourceId, r.number);
    if k !in t.resourceRevs || t.resourceRevs[k].id != r.id then (t, Fail(NotFound))
    else (t.(resourceRevs := t.resourceRevs[k := t.resourceRevs[k].(
               bases := r.bases, architectures := r.architectures, ociBlob := r.ociBlob)]), Pass)
  }

  function ResourceNumbers(t: Tables, d: Id): (ns: set<int>)
    ensures forall n :: n in ns <==> (d, n) in t.resourceRevs
  {
    set k | k in t.resourceRevs && k.0 == d :: k.1
  }

  function GetResourceRevision(t: Tables, d: Id, n: int): Option<ResourceRevision> {
    if (d, n) in t.resourceRevs then Some(t.resourceRevs[(d, n)]) else None
  }

  /** `ListResourceRevisions(...)[0]`: the list is `ORDER BY revision DESC`. */
  function FirstResourceRevision(t: Tables, d: Id): Option<ResourceRevision> {
    if ResourceNumbers(t, d) == {} then None
    else Some(t.resourceRevs[(d, Largest(ResourceNumbers(t, d)))])
  }

  // ---------- releases ----------

  function ReplaceRelease(t: Tables, p: Id, r: Release): (Tables, Outcome) {
    var k := (p, r.channel);
    if k in t.releases then
      (t.(releases := t.releases[k := r.(id := t.releases[k].id, packageId := p)]), Pass)
    else if (exists j | j in t.releases :: t.releases[j].id == r.id) || p !in t.packages then (t, Fail(Storage))
    else (t.(releases := t.releases[k := r.(packageId := p)]), Pass)
  }

  function ListReleases(t: Tables, p: Id): set<Release> {
    set k | k in t.releases && k.0 == p :: t.releases[k]
  }

  function ResolveRelease(t: Tables, p: Id, channel: string): Option<Release> {
    if (p, channel) in t.releases then Some(t.releases[(p, channel)]) else None
  }

  function DefaultChannel(pkg: Package): string {
    match pkg.defaultTrack
    case Some(track) => track + "/stable"
    case None => "latest/stable"
  }

  function ResolveDefaultRelease(w: World, t: Tables, p: Id): Option<Release> {
    if p in t.packages && (p, DefaultChannel(t.packages[p])) in t.releases then
      Some(t.releases[(p, DefaultChannel(t.packages[p]))])
    else if ListReleases(t, p) == {} then None
    else Some(w.newest(ListReleases(t, p)))
  }

  // ---------- the largest of a set of numbers ----------

  lemma Element(s: set<int>) returns (x: int)
    requires |s| > 0
    ensures x in s
  {
    assert (forall y: int :: y !in s) ==> s == {};
    x :| x in s;
  }

  lemma {:induction false} LargestExists(s: set<int>)
    requires |s| > 0
    ensures exists m :: m in s && forall x | x in s :: x <= m
    decreases |s|
  {
    var x := Element(s);
    var rest := s - {x};
    if |rest| > 0 {
      LargestExists(rest);
      var m :| m in rest && forall y | y in rest :: y <= m;
      assert forall y | y in s :: y in rest || y == x;
      assert (if x <= m then m else x) in s;
    } else {
      assert forall y | y in s :: y in rest || y == x;
    }
  }

  function Largest(s: set<int>): (m: int)
    requires s != {}
    ensures m in s && forall x | x in s :: x <= m
  {
    LargestExists(s);
    var m :| m in s && forall x | x in s :: x <= m;
    m
  }
}
