/** `repo.Memory` against the Postgres tables: when the two hold the same registry, and that every
    statement the charm calls issue gives the same outcome on both and keeps it so. */
module Simulation {
  import opened Core
  import opened Invariants
  import opened Repository
  import opened Access
  import M = MemoryModel
  import Sql = Tables
  import C = Calls
  import MS = MemorySessions
  import RT = ReleaseTheorems

  type Mem = M.Mem

  // ---------- the relation, table by table ----------

  /** A package without the tracks that Memory embeds and Postgres keeps in a table of their own. */
  function Bare(pkg: Package): Package {
    pkg.(tracks := [])
  }

  ghost predicate SamePackages(packages: map<Id, Package>, rows: map<Id, Package>) {
    packages.Keys == rows.Keys && forall p | p in rows :: rows[p] == Bare(packages[p])
  }

  ghost predicate SameTracks(packages: map<Id, Package>, rows: map<(Id, string), Track>) {
    && (forall p, i | p in packages && 0 <= i < |packages[p].tracks| ::
          (p, packages[p].tracks[i].name) in rows && rows[(p, packages[p].tracks[i].name)] == packages[p].tracks[i])
    && (forall k | k in rows :: k.0 in packages && M.HasTrack(packages[k.0].tracks, k.1))
  }

  /** Revision number `n` of a package is the `n`th of its list. */
  ghost predicate SameRevisions(lists: map<Id, seq<Revision>>, rows: Revisions) {
    forall p, n :: SameRevision(M.Get(lists, p, []), rows, p, n)
  }

  ghost predicate SameRevision(list: seq<Revision>, rows: Revisions, p: Id, n: int) {
    if 1 <= n <= |list| then (p, n) in rows && rows[(p, n)] == list[n - 1] && list[n - 1].number == n
    else (p, n) !in rows
  }

  /** Equal up to the row id and the package id of a release. */
  ghost predicate SameReleases(maps: map<Id, map<string, Release>>, rows: Releases) {
    && (forall p, c | p in maps && c in maps[p] :: (p, c) in rows && RT.Shown(rows[(p, c)]) == RT.Shown(maps[p][c]))
    && (forall k | k in rows :: k.0 in maps && k.1 in maps[k.0])
  }

  ghost predicate Agree(m: Mem, t: Sql.Tables) {
    && SamePackages(m.packagesById, t.packages)
    && SameTracks(m.packagesById, t.tracks)
    && SameRevisions(m.revisions, t.revisions)
    && SameReleases(m.releases, t.releases)
    && m.uploads == t.uploads
  }

  /** All ids in use, those of uploads, revisions and releases included, have been handed out. */
  ghost predicate RowIdsDrawn(drawn: set<Id>, t: Sql.Tables) {
    && t.uploads.Keys <= drawn
    && (forall k | k in t.revisions :: t.revisions[k].id in drawn)
    && (forall k | k in t.releases :: t.releases[k].id in drawn)
  }

  /** Nobody but the owner has been granted anything, and every owner has a non-empty id. */
  ghost predicate OwnersOnly(t: Sql.Tables) {
    t.acl == map[] && OwnersNamed(t.packages)
  }

  ghost predicate OwnersNamed(packages: Packages) {
    forall p | p in packages :: packages[p].owner != ""
  }

  ghost predicate Simulates(drawn: set<Id>, m: Mem, t: Sql.Tables) {
    && Consistent(t) && IdsDrawn(drawn, t.packages, t.defs) && RowIdsDrawn(drawn, t) && OwnersOnly(t)
    && MS.PackagesAgree(m.packages, m.packagesById)
    && Agree(m, t)
  }

  // ---------- lookups ----------

  function BareOption(pkg: Option<Package>): Option<Package> {
    match pkg
    case None => None
    case Some(p) => Some(Bare(p))
  }

  function BareResult(pkg: Result<Package>): Result<Package> {
    match pkg
    case Err(e) => Err(e)
    case Ok(p) => Ok(Bare(p))
  }

  lemma SameByName(m: Mem, t: Sql.Tables, name: string)
    requires IndexAgrees(t.packages, t.names) && MS.PackagesAgree(m.packages, m.packagesById)
    requires SamePackages(m.packagesById, t.packages)
    ensures BareOption(M.GetPackageByName(m, name)) == Sql.GetPackageByName(t, name)
    ensures M.GetPackageByName(m, name).Some? ==>
              var pkg := M.GetPackageByName(m, name).value;
              pkg.name == name && name in m.packages && pkg.id in t.packages && t.packages[pkg.id] == Bare(pkg)
              && pkg.id in m.packagesById && m.packagesById[pkg.id] == pkg
  {
    if name in m.packages {
      var p := m.packages[name].id;
      assert t.packages[p].name == name;
    }
    if name in t.names {
      var p := t.names[name];
      assert m.packagesById[p].name == name;
    }
  }

  lemma Indexed(t: Sql.Tables)
    requires Consistent(t)
    ensures IndexAgrees(t.packages, t.names) && Owned(t.packages, t.accounts)
  {}

  lemma SameById(m: Mem, t: Sql.Tables, p: Id)
    requires SamePackages(m.packagesById, t.packages)
    ensures BareOption(M.GetPackageByID(m, p)) == Sql.GetPackageByID(t, p)
  {}

  lemma SameAccess(m: Mem, t: Sql.Tables, p: Id, account: Id)
    requires SamePackages(m.packagesById, t.packages) && OwnersOnly(t)
    ensures M.CanView(m, p, account) == Sql.CanAccess(t, p, account, false)
    ensures M.CanManage(m, p, account) == Sql.CanAccess(t, p, account, true)
  {}

  lemma ListNumbered(lists: map<Id, seq<Revision>>, rows: Revisions, p: Id)
    requires SameRevisions(lists, rows)
    ensures forall i | 0 <= i < |M.Get(lists, p, [])| :: M.Get(lists, p, [])[i].number == 1 + i
  {
    var list := M.Get(lists, p, []);
    forall i | 0 <= i < |list| ensures list[i].number == 1 + i {
      assert SameRevision(list, rows, p, i + 1);
    }
  }

  lemma SameNumbered(m: Mem, t: Sql.Tables, p: Id, n: int)
    requires SameRevisions(m.revisions, t.revisions)
    ensures M.GetRevisionByNumber(m, p, n) == Sql.GetRevisionByNumber(t, p, n)
  {
    var list := M.Get(m.revisions, p, []);
    ListNumbered(m.revisions, t.revisions, p);
    M.FirstNumberedIs(list, n, 1);
    assert SameRevision(list, t.revisions, p, n);
  }

  lemma SameLatest(m: Mem, t: Sql.Tables, p: Id)
    requires SameRevisions(m.revisions, t.revisions)
    ensures M.GetLatestRevision(m, p) == Sql.GetLatestRevision(t, p)
    ensures C.NextNumber(M.GetLatestRevision(m, p)) == |M.Get(m.revisions, p, [])| + 1
    ensures M.Get(m.revisions, p, []) == [] <==> Sql.Numbers(t, p) == {}
  {
    var list := M.Get(m.revisions, p, []);
    forall n ensures n in Sql.Numbers(t, p) <==> 1 <= n <= |list| {
      assert SameRevision(list, t.revisions, p, n);
    }
    assert SameRevision(list, t.revisions, p, |list|);
    if list != [] {
      assert |list| in Sql.Numbers(t, p);
      assert Sql.Largest(Sql.Numbers(t, p)) == |list|;
    } else {
      assert forall n :: n !in Sql.Numbers(t, p);
    }
  }

  lemma SameResolved(m: Mem, t: Sql.Tables, p: Id, c: string)
    requires SameReleases(m.releases, t.releases)
    ensures M.ResolveRelease(m, p, c).Some? <==> Sql.ResolveRelease(t, p, c).Some?
    ensures M.ResolveRelease(m, p, c).Some? ==>
              RT.Shown(M.ResolveRelease(m, p, c).value) == RT.Shown(Sql.ResolveRelease(t, p, c).value)
  {}

  // ---------- the guards ----------

  lemma SameManaged(drawn: set<Id>, m: Mem, t: Sql.Tables, who: Identity, name: string, permission: string)
    requires Simulates(drawn, m, t)
    ensures BareResult(C.Managed(InMemory(m), who, name, permission)) == C.Managed(Postgres(t), who, name, permission)
    ensures C.Managed(InMemory(m), who, name, permission).Ok? ==>
              var pkg := C.Managed(InMemory(m), who, name, permission).value;
              pkg.name == name && name in m.packages && pkg.id in t.packages && t.packages[pkg.id] == Bare(pkg)
              && pkg.id in m.packagesById && m.packagesById[pkg.id] == pkg
  {
    hide Consistent, IdsDrawn, RowIdsDrawn, SameTracks, SameRevisions, SameReleases, RequirePermission;
    Indexed(t);
    SameByName(m, t, name);
    if M.GetPackageByName(m, name).Some? {
      var pkg := M.GetPackageByName(m, name).value;
      SameAccess(m, t, pkg.id, who.accountId);
    }
  }

  lemma SameSeen(drawn: set<Id>, m: Mem, t: Sql.Tables, who: Identity, p: Id, needs: bool)
    requires Simulates(drawn, m, t) && p in t.packages
    ensures RequirePackageView(InMemory(m), who, m.packagesById[p], needs)
            == RequirePackageView(Postgres(t), who, t.packages[p], needs)
  {
    hide Consistent, IdsDrawn, RowIdsDrawn, SameTracks, SameRevisions, SameReleases, RequirePermission;
    SameAccess(m, t, t.packages[p].id, who.accountId);
  }
}
