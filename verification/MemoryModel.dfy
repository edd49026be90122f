/** What each method of `repo.Memory` (internal/repo/memory.go) computes, as a function of the
    ten maps it keeps. The class in MemoryRepo.dfy implements these functions. */
module MemoryModel {
  import opened Core

  datatype Mem = Mem(
    accounts: map<string, Account>,
    accountsById: map<Id, Account>,
    tokens: map<string, StoreToken>,
    packages: map<string, Package>,
    packagesById: map<Id, Package>,
    uploads: map<Id, Upload>,
    revisions: map<Id, seq<Revision>>,
    defs: map<Id, map<string, ResourceDefinition>>,
    resourceRevs: map<Id, seq<ResourceRevision>>,
    releases: map<Id, map<string, Release>>)

  const EMPTY := Mem(map[], map[], map[], map[], map[], map[], map[], map[], map[], map[])

  function Get<V>(m: map<Id, V>, k: Id, default: V): V {
    if k in m then m[k] else default
  }

  // ---------- accounts and tokens ----------

  function EnsureAccount(m: Mem, account: Account, now: Time): (Mem, Account) {
    var stored :=
      if account.subject in m.accounts then
        m.accounts[account.subject].(email := account.email, displayName := account.displayName,
                                     username := account.username)
      else account.(createdAt := now);
    (m.(accounts := m.accounts[account.subject := stored],
        accountsById := m.accountsById[stored.id := stored]), stored)
  }

  function CreateStoreToken(m: Mem, token: StoreToken): Mem {
    m.(tokens := m.tokens[token.hash := token])
  }

  function FindStoreTokenByHash(m: Mem, hash: string): Option<(StoreToken, Account)> {
    if hash in m.tokens && m.tokens[hash].accountId in m.accountsById
    then Some((m.tokens[hash], m.accountsById[m.tokens[hash].accountId]))
    else None
  }

  predicate Selects(m: Mem, h: string, account: Id, session: Id) {
    h in m.tokens && m.tokens[h].accountId == account && m.tokens[h].sessionId == session
  }

  /** The token stored under `h` marked as revoked. */
  function Revoke(m: Mem, h: string, who: Id, now: Time): Mem
    requires h in m.tokens
  {
    m.(tokens := m.tokens[h := m.tokens[h].(revokedAt := Some(now), revokedBy := Some(who))])
  }

  // ---------- packages and tracks ----------

  function PutPackage(m: Mem, pkg: Package): Mem {
    m.(packages := m.packages[pkg.name := pkg], packagesById := m.packagesById[pkg.id := pkg])
  }

  function CreatePackage(m: Mem, pkg: Package): (Mem, Outcome) {
    if pkg.name in m.packages then (m, Fail(Conflict)) else (PutPackage(m, pkg), Pass)
  }

  function UpdatePackage(m: Mem, pkg: Package): (Mem, Outcome) {
    if pkg.name !in m.packages then (m, Fail(NotFound)) else (PutPackage(m, pkg), Pass)
  }

  function DeletePackage(m: Mem, p: Id): (Mem, Outcome) {
    if p !in m.packagesById then (m, Fail(NotFound))
    else (m.(packagesById := m.packagesById - {p}, packages := m.packages - {m.packagesById[p].name}), Pass)
  }

  function GetPackageByName(m: Mem, name: string): Option<Package> {
    if name in m.packages then Some(m.packages[name]) else None
  }

  function GetPackageByID(m: Mem, p: Id): Option<Package> {
    if p in m.packagesById then Some(m.packagesById[p]) else None
  }

  function CanView(m: Mem, p: Id, account: Id): Result<bool> {
    if p !in m.packagesById then Err(NotFound)
    else Ok(!m.packagesById[p].isPrivate || m.packagesById[p].owner == account)
  }

  function CanManage(m: Mem, p: Id, account: Id): Result<bool> {
    if p !in m.packagesById then Err(NotFound)
    else Ok(m.packagesById[p].owner == account)
  }

  predicate HasTrack(tracks: seq<Track>, name: string) {
    exists i | 0 <= i < |tracks| :: tracks[i].name == name
  }

  /** Appends the tracks whose name is new, one after the other. */
  function AddTracks(have: seq<Track>, tracks: seq<Track>): seq<Track>
    decreases |tracks|
  {
    if tracks == [] then have
    else
      var init := AddTracks(have, tracks[..|tracks| - 1]);
      var track := tracks[|tracks| - 1];
      if HasTrack(init, track.name) then init else init + [track]
  }

  function CreateTracks(m: Mem, p: Id, tracks: seq<Track>): (Mem, Count) {
    if p !in m.packagesById then (m, Count(0, Fail(NotFound)))
    else
      var pkg := m.packagesById[p];
      var all := AddTracks(pkg.tracks, tracks);
      AddTracksGrows(pkg.tracks, tracks);
      (PutPackageUnder(m, p, pkg.(tracks := all)), Count(|all| - |pkg.tracks|, Pass))
  }

  /** `packagesByID[p] = pkg; packages[pkg.Name] = pkg`. */
  function PutPackageUnder(m: Mem, p: Id, pkg: Package): Mem {
    m.(packages := m.packages[pkg.name := pkg], packagesById := m.packagesById[p := pkg])
  }

  lemma AddTracksGrows(have: seq<Track>, tracks: seq<Track>)
    ensures have <= AddTracks(have, tracks)
    decreases |tracks|
  {}

  function ListTracks(m: Mem, p: Id): Result<seq<Track>> {
    if p in m.packagesById then Ok(m.packagesById[p].tracks) else Err(NotFound)
  }

  // ---------- uploads and revisions ----------

  function CreateUpload(m: Mem, u: Upload): Mem {
    m.(uploads := m.uploads[u.id := u])
  }

  function GetUpload(m: Mem, id: Id): Option<Upload> {
    if id in m.uploads then Some(m.uploads[id]) else None
  }

  function ApproveUpload(m: Mem, id: Id, revision: Option<int>, errors: seq<string>, now: Time): (Mem, Outcome) {
    if id !in m.uploads then (m, Fail(NotFound))
    else
      (m.(uploads := m.uploads[id := m.uploads[id].(
            approvedAt := Some(now), errors := errors, revision := revision,
            status := if |errors| == 0 then "approved" else "rejected")]), Pass)
  }

  function CreateRevision(m: Mem, r: Revision): Mem {
    m.(revisions := m.revisions[r.packageId := Get(m.revisions, r.packageId, []) + [r]])
  }

  /** First revision with this number, scanning in insertion order. */
  function FirstNumbered(rows: seq<Revision>, n: int): Option<Revision> {
    if rows == [] then None
    else if rows[0].number == n then Some(rows[0])
    else FirstNumbered(rows[1..], n)
  }

  lemma FirstNumberedIs(rows: seq<Revision>, n: int, first: int)
    requires forall i | 0 <= i < |rows| :: rows[i].number == first + i
    ensures FirstNumbered(rows, n) == if first <= n < first + |rows| then Some(rows[n - first]) else None
    decreases |rows|
  {
    if rows != [] {
      FirstNumberedIs(rows[1..], n, first + 1);
    }
  }

  function GetRevisionByNumber(m: Mem, p: Id, n: int): Option<Revision> {
    FirstNumbered(Get(m.revisions, p, []), n)
  }

  function GetLatestRevision(m: Mem, p: Id): Option<Revision> {
    var rows := Get(m.revisions, p, []);
    if |rows| == 0 then None else Some(rows[|rows| - 1])
  }

  // ---------- resources ----------

  function UpsertDefinition(m: Mem, d: ResourceDefinition): Mem {
    m.(defs := m.defs[d.packageId := Get(m.defs, d.packageId, map[])[d.name := d]])
  }

  function GetDefinition(m: Mem, p: Id, name: string): Option<ResourceDefinition> {
    if p in m.defs && name in m.defs[p] then Some(m.defs[p][name]) else None
  }

  function CreateResourceRevision(m: Mem, r: ResourceRevision): Mem {
    m.(resourceRevs := m.resourceRevs[r.resourceId := Get(m.resourceRevs, r.resourceId, []) + [r]])
  }

  /** Index of the first resource revision with this number, or the length. */
  function IndexOf(rows: seq<ResourceRevision>, n: int): (i: nat)
    ensures i <= |rows|
    ensures i < |rows| ==> rows[i].number == n
    ensures forall j | 0 <= j < i :: rows[j].number != n
  {
    if rows == [] || rows[0].number == n then 0 else 1 + IndexOf(rows[1..], n)
  }

  function UpdateResourceRevision(m: Mem, r: ResourceRevision): (Mem, Outcome) {
    var rows := Get(m.resourceRevs, r.resourceId, []);
    var i := IndexOf(rows, r.number);
    if i == |rows| then (m, Fail(NotFound))
    else (m.(resourceRevs := m.resourceRevs[r.resourceId := rows[i := r]]), Pass)
  }

  function ListResourceRevisions(m: Mem, d: Id): seq<ResourceRevision> {
    Get(m.resourceRevs, d, [])
  }

  function GetResourceRevision(m: Mem, d: Id, n: int): Option<ResourceRevision> {
    var rows := Get(m.resourceRevs, d, []);
    var i := IndexOf(rows, n);
    if i == |rows| then None else Some(rows[i])
  }

  // ---------- releases ----------

  function ReplaceRelease(m: Mem, p: Id, r: Release): Mem {
    m.(releases := m.releases[p := Get(m.releases, p, map[])[r.channel := r]])
  }

  function ListReleases(m: Mem, p: Id): set<Release> {
    Get(m.releases, p, map[]).Values
  }

  function ResolveRelease(m: Mem, p: Id, channel: string): Option<Release> {
    if p in m.releases && channel in m.releases[p] then Some(m.releases[p][channel]) else None
  }

  function ResolveDefaultRelease(w: World, m: Mem, p: Id): Option<Release> {
    var releases := Get(m.releases, p, map[]);
    if "latest/stable" in releases then Some(releases["latest/stable"])
    else if releases.Values == {} then None
    else Some(w.any(releases.Values))
  }
}
