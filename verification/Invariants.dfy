/** What the tables satisfy at every moment, and how they may change from one moment to a
    later one. Each statement is shown to keep the first and to be an instance of the second;
    the concurrent and the sequential theorems are both built from these lemmas. */
module Invariants {
  import opened Core
  import opened Tables
  import C = Calls

  type Packages = map<Id, Package>
  type Revisions = map<(Id, int), Revision>
  type Definitions = map<(Id, string), ResourceDefinition>
  type ResourceRevisions = map<(Id, int), ResourceRevision>
  type Releases = map<(Id, string), Release>
  type Uploads = map<Id, Upload>

  // ---------- one moment ----------

  ghost predicate IndexAgrees(packages: Packages, names: map<string, Id>) {
    && (forall n | n in names :: names[n] in packages && packages[names[n]].name == n)
    && (forall p | p in packages ::
          packages[p].id == p && packages[p].name in names && names[packages[p].name] == p)
  }

  ghost predicate Owned(packages: Packages, accounts: set<Id>) {
    forall p | p in packages :: packages[p].owner in accounts
  }

  ghost predicate UploadsKeyed(uploads: Uploads) {
    forall i | i in uploads :: uploads[i].id == i
  }

  ghost predicate RevisionsOk(revisions: Revisions, packages: Packages) {
    forall k | k in revisions :: k.0 in packages && revisions[k].packageId == k.0 && revisions[k].number == k.1
  }

  ghost predicate DefinitionsOk(defs: Definitions, packages: Packages) {
    && (forall k | k in defs :: k.0 in packages && defs[k].packageId == k.0 && defs[k].name == k.1)
    && (forall j, k | j in defs && k in defs && defs[j].id == defs[k].id :: j == k)
  }

  /** Foreign key, and a resource revision carries the name of its definition. */
  ghost predicate ResourcesOk(rows: ResourceRevisions, defs: Definitions) {
    && (forall k | k in rows :: DefinitionId(defs, k.0) && rows[k].resourceId == k.0 && rows[k].number == k.1)
    && (forall k, j | k in rows && j in defs && defs[j].id == k.0 :: rows[k].name == j.1)
  }

  /** A release belongs to a live package and to a revision of that package. */
  ghost predicate ReleasesOk(releases: Releases, packages: Packages, revisions: Revisions) {
    && (forall k | k in releases ::
          k.0 in packages && releases[k].packageId == k.0 && releases[k].channel == k.1)
    && (forall k | k in releases :: (k.0, releases[k].revision) in revisions)
  }

  /** `n` may be the next number of `p`: it is positive and everything below is taken. */
  ghost predicate Follows<T>(rows: map<(Id, int), T>, p: Id, n: int) {
    n >= 1 && forall j | 1 <= j < n :: (p, j) in rows
  }

  ghost predicate Dense<T>(rows: map<(Id, int), T>) {
    forall k | k in rows :: Follows(rows, k.0, k.1)
  }

  ghost predicate TracksOk(tracks: map<(Id, string), Track>, packages: Packages) {
    forall k | k in tracks :: k.0 in packages && tracks[k].name == k.1
  }

  ghost predicate Consistent(t: Tables) {
    && IndexAgrees(t.packages, t.names)
    && Owned(t.packages, t.accounts)
    && UploadsKeyed(t.uploads)
    && TracksOk(t.tracks, t.packages)
    && RevisionsOk(t.revisions, t.packages)
    && DefinitionsOk(t.defs, t.packages)
    && ResourcesOk(t.resourceRevs, t.defs)
    && ReleasesOk(t.releases, t.packages, t.revisions)
    && Dense(t.revisions)
    && Dense(t.resourceRevs)
  }

  /** All package and definition ids in use have been handed out. */
  ghost predicate IdsDrawn(drawn: set<Id>, packages: Packages, defs: Definitions) {
    && packages.Keys <= drawn
    && (forall k | k in defs :: defs[k].id in drawn)
  }

  // ---------- two moments ----------

  /** Same row up to the two columns a publisher may edit. */
  ghost predicate SameArtefact(a: ResourceRevision, b: ResourceRevision) {
    a.(bases := b.bases, architectures := b.architectures) == b
  }

  /** Same upload up to its review. */
  ghost predicate SameUpload(a: Upload, b: Upload) {
    a.(status := b.status, approvedAt := b.approvedAt, revision := b.revision, errors := b.errors) == b
  }

  /** A package id that was drawn and is dead stays dead; a live package keeps its name. */
  ghost predicate PackagesEvolve(drawn: set<Id>, old_: Packages, new_: Packages) {
    && (forall p | p in new_ && p in drawn :: p in old_)
    && (forall p | p in old_ && p in new_ :: new_[p].name == old_[p].name)
  }

  /** A dead definition id stays dead; while its package lives a definition keeps its id. */
  ghost predicate DefinitionsEvolve(drawn: set<Id>, old_: Definitions, new_: Definitions, packages: Packages) {
    && (forall k | k in new_ && new_[k].id in drawn :: k in old_ && old_[k].id == new_[k].id)
    && (forall k | k in old_ && k.0 in packages :: k in new_ && new_[k].id == old_[k].id)
  }

  ghost predicate RevisionsEvolve(old_: Revisions, new_: Revisions, packages: Packages) {
    forall k | k in old_ && k.0 in packages :: k in new_ && new_[k] == old_[k]
  }

  ghost predicate ResourcesEvolve(old_: ResourceRevisions, new_: ResourceRevisions, defs: Definitions) {
    forall k, j | k in old_ && j in defs && defs[j].id == k.0 :: k in new_ && SameArtefact(old_[k], new_[k])
  }

  ghost predicate ReleasesEvolve(old_: Releases, new_: Releases, packages: Packages) {
    forall k | k in old_ && k.0 in packages :: k in new_
  }

  ghost predicate UploadsEvolve(old_: Uploads, new_: Uploads) {
    forall i | i in old_ :: i in new_ && SameUpload(old_[i], new_[i])
  }

  /** `u` may follow `t`, given that all of `drawn` has been handed out as ids by then:
      nothing dead comes back, and whatever belongs to a package that is alive is still there. */
  ghost predicate Evolves(drawn: set<Id>, t: Tables, u: Tables) {
    && PackagesEvolve(drawn, t.packages, u.packages)
    && DefinitionsEvolve(drawn, t.defs, u.defs, u.packages)
    && RevisionsEvolve(t.revisions, u.revisions, u.packages)
    && ResourcesEvolve(t.resourceRevs, u.resourceRevs, u.defs)
    && ReleasesEvolve(t.releases, u.releases, u.packages)
    && UploadsEvolve(t.uploads, u.uploads)
  }

  ghost predicate Steps(drawn: set<Id>, t: Tables, u: Tables, drawn': set<Id>) {
    Consistent(u) && Evolves(drawn, t, u) && IdsDrawn(drawn', u.packages, u.defs)
  }

  lemma EvolvesRefl(drawn: set<Id>, t: Tables)
    ensures Evolves(drawn, t, t)
  {}

  lemma PackagesEvolveTrans(d1: set<Id>, d2: set<Id>, a: Packages, b: Packages, c: Packages)
    requires d1 <= d2 && a.Keys <= d1
    requires PackagesEvolve(d1, a, b) && PackagesEvolve(d2, b, c)
    ensures PackagesEvolve(d1, a, c)
  {}

  lemma DefinitionsEvolveTrans(d1: set<Id>, d2: set<Id>, a: Definitions, b: Definitions, c: Definitions, ps: Packages,
                               qs: Packages, rs: Packages)
    requires d1 <= d2 && IdsDrawn(d1, ps, a) && DefinitionsOk(a, ps) && PackagesEvolve(d2, qs, rs)
    requires DefinitionsEvolve(d1, a, b, qs) && DefinitionsEvolve(d2, b, c, rs)
    ensures DefinitionsEvolve(d1, a, c, rs)
  {}

  lemma RowsEvolveTrans(d1: set<Id>, d2: set<Id>, t: Tables, u: Tables, v: Tables)
    requires d1 <= d2 && t.packages.Keys <= d1
    requires RevisionsOk(t.revisions, t.packages) && ReleasesOk(t.releases, t.packages, t.revisions)
    requires PackagesEvolve(d2, u.packages, v.packages)
    requires RevisionsEvolve(t.revisions, u.revisions, u.packages)
    requires RevisionsEvolve(u.revisions, v.revisions, v.packages)
    requires ReleasesEvolve(t.releases, u.releases, u.packages)
    requires ReleasesEvolve(u.releases, v.releases, v.packages)
    ensures RevisionsEvolve(t.revisions, v.revisions, v.packages)
    ensures ReleasesEvolve(t.releases, v.releases, v.packages)
  {}

  lemma ResourcesEvolveTrans(d1: set<Id>, d2: set<Id>, a: ResourceRevisions, b: ResourceRevisions, c: ResourceRevisions,
                             ds: Definitions, es: Definitions, fs: Definitions, rs: Packages)
    requires d1 <= d2 && (forall k | k in ds :: ds[k].id in d1) && ResourcesOk(a, ds)
    requires DefinitionsEvolve(d2, es, fs, rs)
    requires ResourcesEvolve(a, b, es) && ResourcesEvolve(b, c, fs)
    ensures ResourcesEvolve(a, c, fs)
  {
    forall k, j | k in a && j in fs && fs[j].id == k.0
      ensures k in c && SameArtefact(a[k], c[k])
    {
      assert DefinitionId(ds, k.0);
      assert j in es && es[j].id == k.0;
    }
  }

  lemma EvolvesTrans(d1: set<Id>, d2: set<Id>, t: Tables, u: Tables, v: Tables)
    requires d1 <= d2 && IdsDrawn(d1, t.packages, t.defs) && Consistent(t)
    requires Evolves(d1, t, u) && Evolves(d2, u, v)
    ensures Evolves(d1, t, v)
  {
    PackagesEvolveTrans(d1, d2, t.packages, u.packages, v.packages);
    DefinitionsEvolveTrans(d1, d2, t.defs, u.defs, v.defs, t.packages, u.packages, v.packages);
    RowsEvolveTrans(d1, d2, t, u, v);
    ResourcesEvolveTrans(d1, d2, t.resourceRevs, u.resourceRevs, v.resourceRevs, t.defs, u.defs, v.defs, v.packages);
  }

  // ---------- what one written row does to its table ----------

  lemma AddDefinition(drawn: set<Id>, defs: Definitions, packages: Packages, k: (Id, string), d: ResourceDefinition,
                      id: Id)
    requires DefinitionsOk(defs, packages) && IdsDrawn(drawn, packages, defs)
    requires d.packageId == k.0 && d.name == k.1 && k.0 in packages && id !in drawn
    requires d.id == if k in defs then defs[k].id else id
    ensures DefinitionsOk(defs[k := d], packages) && IdsDrawn(drawn + {id}, packages, defs[k := d])
    ensures DefinitionsEvolve(drawn, defs, defs[k := d], packages)
  {}

  lemma DefinitionOwned(defs: Definitions, packages: Packages, k: (Id, string))
    requires DefinitionsOk(defs, packages)
    ensures k in defs ==> k.0 in packages && defs[k].packageId == k.0 && defs[k].name == k.1
  {}

  lemma ReleaseOwned(releases: Releases, packages: Packages, revisions: Revisions, k: (Id, string))
    requires ReleasesOk(releases, packages, revisions)
    ensures k in releases ==> k.0 in packages
  {}

  lemma DrawnMore(drawn: set<Id>, more: set<Id>, packages: Packages, defs: Definitions)
    requires IdsDrawn(drawn, packages, defs)
    ensures IdsDrawn(drawn + more, packages, defs)
  {}

  lemma AddRelease(releases: Releases, packages: Packages, revisions: Revisions, k: (Id, string), r: Release)
    requires ReleasesOk(releases, packages, revisions)
    requires r.packageId == k.0 && r.channel == k.1 && k.0 in packages && (k.0, r.revision) in revisions
    ensures ReleasesOk(releases[k := r], packages, revisions) && ReleasesEvolve(releases, releases[k := r], packages)
  {}

  lemma WriteResource(rows: ResourceRevisions, defs: Definitions, r: ResourceRevision)
    requires ResourcesOk(rows, defs) && Dense(rows)
    requires DefinitionId(defs, r.resourceId) && Follows(rows, r.resourceId, r.number)
    requires forall k | k in defs && defs[k].id == r.resourceId :: r.name == k.1
    requires (r.resourceId, r.number) in rows ==> SameArtefact(rows[(r.resourceId, r.number)], r)
    ensures var rows' := rows[(r.resourceId, r.number) := r];
      ResourcesOk(rows', defs) && Dense(rows') && ResourcesEvolve(rows, rows', defs)
  {}

  lemma AddPackage(drawn: set<Id>, packages: Packages, names: map<string, Id>, defs: Definitions, pkg: Package)
    requires IndexAgrees(packages, names) && IdsDrawn(drawn, packages, defs) && DefinitionsOk(defs, packages)
    requires pkg.id !in drawn && pkg.name !in names
    ensures var packages' := packages[pkg.id := pkg];
      && IndexAgrees(packages', names[pkg.name := pkg.id]) && PackagesEvolve(drawn, packages, packages')
      && IdsDrawn(drawn + {pkg.id}, packages', defs) && DefinitionsOk(defs, packages')
  {}

  /** Rows of a package that is not there: nothing to keep when it appears. */
  lemma GrowPackages(t: Tables, packages: Packages)
    requires Consistent(t) && t.packages.Keys <= packages.Keys
    ensures RevisionsOk(t.revisions, packages) && ReleasesOk(t.releases, packages, t.revisions)
    ensures TracksOk(t.tracks, packages)
    ensures RevisionsEvolve(t.revisions, t.revisions, packages) && ReleasesEvolve(t.releases, t.releases, packages)
    ensures forall drawn :: DefinitionsEvolve(drawn, t.defs, t.defs, packages)
  {}

  lemma DropDefinitions(drawn: set<Id>, t: Tables, p: Id)
    requires DefinitionsOk(t.defs, t.packages) && ResourcesOk(t.resourceRevs, t.defs) && Dense(t.resourceRevs)
    requires p in t.packages
    ensures var u := DeletePackage(t, p).0;
      && DefinitionsOk(u.defs, u.packages) && ResourcesOk(u.resourceRevs, u.defs) && Dense(u.resourceRevs)
      && DefinitionsEvolve(drawn, t.defs, u.defs, u.packages) && ResourcesEvolve(t.resourceRevs, u.resourceRevs, u.defs)
  {
    var u := DeletePackage(t, p).0;
    forall k | k in u.resourceRevs ensures DefinitionId(u.defs, k.0) {
      var j :| j in t.defs && j.0 != p && t.defs[j].id == k.0;
      assert j in u.defs;
    }
  }

  lemma WriteUpload(uploads: Uploads, up: Upload)
    requires UploadsKeyed(uploads) && (up.id in uploads ==> SameUpload(uploads[up.id], up))
    ensures UploadsKeyed(uploads[up.id := up]) && UploadsEvolve(uploads, uploads[up.id := up])
  {}

  lemma WriteReview(uploads: Uploads, id: Id, n: Option<int>, errors: seq<string>, now: Time)
    requires UploadsKeyed(uploads) && id in uploads
    ensures var uploads' := uploads[id := Reviewed(uploads[id], n, errors, now)];
      UploadsKeyed(uploads') && UploadsEvolve(uploads, uploads')
  {
    assert uploads[id].id == id;
    WriteUpload(uploads, Reviewed(uploads[id], n, errors, now));
  }

  lemma EditPackage(drawn: set<Id>, t: Tables, p: Id, row: Package)
    requires IndexAgrees(t.packages, t.names) && Owned(t.packages, t.accounts) && DefinitionsOk(t.defs, t.packages)
    requires IdsDrawn(drawn, t.packages, t.defs) && p in t.packages
    requires row.id == t.packages[p].id && row.name == t.packages[p].name && row.owner == t.packages[p].owner
    ensures var packages' := t.packages[p := row];
      && IndexAgrees(packages', t.names) && Owned(packages', t.accounts) && DefinitionsOk(t.defs, packages')
      && IdsDrawn(drawn, packages', t.defs) && PackagesEvolve(drawn, t.packages, packages')
      && t.packages.Keys <= packages'.Keys
  {}

  lemma DropPackage(drawn: set<Id>, t: Tables, p: Id)
    requires IndexAgrees(t.packages, t.names) && Owned(t.packages, t.accounts)
    requires IdsDrawn(drawn, t.packages, t.defs) && p in t.packages
    ensures var u := DeletePackage(t, p).0;
      && IndexAgrees(u.packages, u.names) && Owned(u.packages, u.accounts)
      && IdsDrawn(drawn, u.packages, u.defs) && PackagesEvolve(drawn, t.packages, u.packages)
  {}

  lemma DropRows(t: Tables, p: Id)
    requires RevisionsOk(t.revisions, t.packages) && TracksOk(t.tracks, t.packages) && Dense(t.revisions)
    requires p in t.packages
    ensures var u := DeletePackage(t, p).0;
      && RevisionsOk(u.revisions, u.packages) && TracksOk(u.tracks, u.packages) && Dense(u.revisions)
      && RevisionsEvolve(t.revisions, u.revisions, u.packages)
  {}

  lemma DropReleases(t: Tables, p: Id)
    requires ReleasesOk(t.releases, t.packages, t.revisions) && p in t.packages
    ensures var u := DeletePackage(t, p).0;
      && ReleasesOk(u.releases, u.packages, u.revisions)
      && ReleasesEvolve(t.releases, u.releases, u.packages)
  {}

  // ---------- one lemma per statement ----------

  lemma CreatePackageSteps(drawn: set<Id>, t: Tables, pkg: Package)
    requires Consistent(t) && IdsDrawn(drawn, t.packages, t.defs) && pkg.id !in drawn
    ensures Steps(drawn, t, CreatePackage(t, pkg).0, drawn + {pkg.id})
  {
    hide IndexAgrees, UploadsKeyed, TracksOk, RevisionsOk, DefinitionsOk, ResourcesOk, ReleasesOk, Dense,
         PackagesEvolve, DefinitionsEvolve, RevisionsEvolve, ResourcesEvolve, ReleasesEvolve, UploadsEvolve;
    EvolvesRefl(drawn, t);
    if CreatePackage(t, pkg).1.Pass? {
      AddPackage(drawn, t.packages, t.names, t.defs, pkg.(tracks := []));
      GrowPackages(t, CreatePackage(t, pkg).0.packages);
    }
  }

  lemma UpdatePackageSteps(drawn: set<Id>, t: Tables, pkg: Package)
    requires Consistent(t) && IdsDrawn(drawn, t.packages, t.defs)
    ensures Steps(drawn, t, UpdatePackage(t, pkg).0, drawn)
  {
    hide IndexAgrees, Owned, UploadsKeyed, TracksOk, RevisionsOk, DefinitionsOk, ResourcesOk, ReleasesOk,
         Dense, IdsDrawn, PackagesEvolve, DefinitionsEvolve, RevisionsEvolve, ResourcesEvolve, ReleasesEvolve,
         UploadsEvolve;
    EvolvesRefl(drawn, t);
    if pkg.id in t.packages {
      EditPackage(drawn, t, pkg.id, Patched(t.packages[pkg.id], pkg));
      GrowPackages(t, UpdatePackage(t, pkg).0.packages);
    }
  }

  lemma DeletePackageSteps(drawn: set<Id>, t: Tables, p: Id)
    requires Consistent(t) && IdsDrawn(drawn, t.packages, t.defs)
    ensures Steps(drawn, t, DeletePackage(t, p).0, drawn)
  {
    hide IndexAgrees, Owned, UploadsKeyed, TracksOk, RevisionsOk, DefinitionsOk, ResourcesOk, ReleasesOk,
         Dense, IdsDrawn, PackagesEvolve, DefinitionsEvolve, RevisionsEvolve, ResourcesEvolve, ReleasesEvolve,
         UploadsEvolve;
    EvolvesRefl(drawn, t);
    if p in t.packages {
      DropPackage(drawn, t, p);
      DropRows(t, p);
      DropReleases(t, p);
      DropDefinitions(drawn, t, p);
    }
  }

  lemma CreateTrackSteps(drawn: set<Id>, t: Tables, p: Id, track: Track)
    requires Consistent(t) && IdsDrawn(drawn, t.packages, t.defs)
    ensures Steps(drawn, t, CreateTrack(t, p, track).0, drawn)
  {
    hide IndexAgrees, Owned, UploadsKeyed, RevisionsOk, DefinitionsOk, ResourcesOk, ReleasesOk, Dense,
         IdsDrawn, PackagesEvolve, DefinitionsEvolve, RevisionsEvolve, ResourcesEvolve, ReleasesEvolve, UploadsEvolve;
    EvolvesRefl(drawn, t);
  }

  lemma CreateUploadSteps(drawn: set<Id>, t: Tables, up: Upload)
    requires Consistent(t) && IdsDrawn(drawn, t.packages, t.defs)
    ensures Steps(drawn, t, CreateUpload(t, up).0, drawn)
  {
    hide IndexAgrees, Owned, UploadsKeyed, TracksOk, RevisionsOk, DefinitionsOk, ResourcesOk, ReleasesOk,
         Dense, IdsDrawn, PackagesEvolve, DefinitionsEvolve, RevisionsEvolve, ResourcesEvolve, ReleasesEvolve,
         UploadsEvolve;
    EvolvesRefl(drawn, t);
    if up.id !in t.uploads {
      WriteUpload(t.uploads, up);
    }
  }

  lemma ApproveUploadSteps(drawn: set<Id>, t: Tables, id: Id, n: Option<int>, errors: seq<string>, now: Time)
    requires Consistent(t) && IdsDrawn(drawn, t.packages, t.defs)
    ensures Steps(drawn, t, ApproveUpload(t, id, n, errors, now).0, drawn)
  {
    hide IndexAgrees, Owned, UploadsKeyed, TracksOk, RevisionsOk, DefinitionsOk, ResourcesOk, ReleasesOk,
         Dense, IdsDrawn, PackagesEvolve, DefinitionsEvolve, RevisionsEvolve, ResourcesEvolve, ReleasesEvolve,
         UploadsEvolve;
    EvolvesRefl(drawn, t);
    if id in t.uploads {
      WriteReview(t.uploads, id, n, errors, now);
    }
  }

  lemma CreateRevisionSteps(drawn: set<Id>, t: Tables, r: Revision)
    requires Consistent(t) && IdsDrawn(drawn, t.packages, t.defs)
    requires r.packageId in t.packages ==> Follows(t.revisions, r.packageId, r.number)
    ensures Steps(drawn, t, CreateRevision(t, r).0, drawn)
  {
    hide IndexAgrees, Owned, UploadsKeyed, TracksOk, DefinitionsOk, ResourcesOk, IdsDrawn, PackagesEvolve,
         DefinitionsEvolve, ResourcesEvolve, ReleasesEvolve, UploadsEvolve;
    EvolvesRefl(drawn, t);
  }

  lemma UpsertedResources(drawn: set<Id>, t: Tables, k: (Id, string), d: ResourceDefinition, id: Id)
    requires ResourcesOk(t.resourceRevs, t.defs) && IdsDrawn(drawn, t.packages, t.defs) && id !in drawn
    requires d.id == if k in t.defs then t.defs[k].id else id
    ensures ResourcesOk(t.resourceRevs, t.defs[k := d])
      && ResourcesEvolve(t.resourceRevs, t.resourceRevs, t.defs[k := d])
  {
    forall r | r in t.resourceRevs ensures DefinitionId(t.defs[k := d], r.0) {
      var j :| j in t.defs && t.defs[j].id == r.0;
      assert j in t.defs[k := d] && t.defs[k := d][j].id == r.0;
    }
  }

  lemma UpsertedRow(t: Tables, d: ResourceDefinition)
    requires DefinitionsOk(t.defs, t.packages)
    ensures var (u, out) := UpsertDefinition(t, d);
      var k := (d.packageId, d.name);
      if out.Fail? then u == t
      else
        && k in u.defs && u == t.(defs := t.defs[k := u.defs[k]]) && k.0 in t.packages
        && u.defs[k].packageId == k.0 && u.defs[k].name == k.1
        && u.defs[k].id == if k in t.defs then t.defs[k].id else d.id
  {
    DefinitionOwned(t.defs, t.packages, (d.packageId, d.name));
  }

  lemma UpsertDefinitionSteps(drawn: set<Id>, t: Tables, d: ResourceDefinition)
    requires Consistent(t) && IdsDrawn(drawn, t.packages, t.defs) && d.id !in drawn
    ensures Steps(drawn, t, UpsertDefinition(t, d).0, drawn + {d.id})
  {
    hide UpsertDefinition, IndexAgrees, Owned, UploadsKeyed, TracksOk, RevisionsOk, DefinitionsOk, ResourcesOk,
         ReleasesOk, Dense,
         IdsDrawn, PackagesEvolve, DefinitionsEvolve, RevisionsEvolve, ResourcesEvolve, ReleasesEvolve, UploadsEvolve;
    EvolvesRefl(drawn, t);
    DrawnMore(drawn, {d.id}, t.packages, t.defs);
    UpsertedRow(t, d);
    var (u, out) := UpsertDefinition(t, d);
    var k := (d.packageId, d.name);
    if out.Pass? {
      AddDefinition(drawn, t.defs, t.packages, k, u.defs[k], d.id);
      UpsertedResources(drawn, t, k, u.defs[k], d.id);
    }
  }

  lemma CreateResourceRevisionSteps(drawn: set<Id>, t: Tables, r: ResourceRevision)
    requires Consistent(t) && IdsDrawn(drawn, t.packages, t.defs)
    requires DefinitionId(t.defs, r.resourceId) ==> Follows(t.resourceRevs, r.resourceId, r.number)
    requires forall k | k in t.defs && t.defs[k].id == r.resourceId :: r.name == k.1
    ensures Steps(drawn, t, CreateResourceRevision(t, r).0, drawn)
  {
    hide IndexAgrees, Owned, UploadsKeyed, TracksOk, RevisionsOk, DefinitionsOk, ResourcesOk, ReleasesOk,
         Dense, IdsDrawn, PackagesEvolve, DefinitionsEvolve, RevisionsEvolve, ResourcesEvolve, ReleasesEvolve,
         UploadsEvolve;
    EvolvesRefl(drawn, t);
    if CreateResourceRevision(t, r).1.Pass? {
      WriteResource(t.resourceRevs, t.defs, r);
    }
  }

  lemma UpdateResourceRevisionSteps(drawn: set<Id>, t: Tables, r: ResourceRevision)
    requires Consistent(t) && IdsDrawn(drawn, t.packages, t.defs)
    requires (r.resourceId, r.number) in t.resourceRevs && t.resourceRevs[(r.resourceId, r.number)].id == r.id
             ==> t.resourceRevs[(r.resourceId, r.number)].ociBlob == r.ociBlob
    ensures Steps(drawn, t, UpdateResourceRevision(t, r).0, drawn)
  {
    hide IndexAgrees, Owned, UploadsKeyed, TracksOk, RevisionsOk, DefinitionsOk, ReleasesOk, IdsDrawn,
         PackagesEvolve, DefinitionsEvolve, RevisionsEvolve, ResourcesEvolve, ReleasesEvolve, UploadsEvolve;
    EvolvesRefl(drawn, t);
    var k := (r.resourceId, r.number);
    if UpdateResourceRevision(t, r).1.Pass? {
      WriteResource(t.resourceRevs, t.defs, UpdateResourceRevision(t, r).0.resourceRevs[k]);
    }
  }

  lemma ReplaceReleaseSteps(drawn: set<Id>, t: Tables, p: Id, r: Release)
    requires Consistent(t) && IdsDrawn(drawn, t.packages, t.defs)
    requires p in t.packages ==> (p, r.revision) in t.revisions
    ensures Steps(drawn, t, ReplaceRelease(t, p, r).0, drawn)
  {
    hide IndexAgrees, Owned, UploadsKeyed, TracksOk, RevisionsOk, DefinitionsOk, ResourcesOk, ReleasesOk,
         Dense, IdsDrawn, PackagesEvolve, DefinitionsEvolve, RevisionsEvolve, ResourcesEvolve, ReleasesEvolve,
         UploadsEvolve;
    EvolvesRefl(drawn, t);
    var k := (p, r.channel);
    var (u, out) := ReplaceRelease(t, p, r);
    if out.Pass? {
      ReleaseOwned(t.releases, t.packages, t.revisions, k);
      assert u == t.(releases := t.releases[k := u.releases[k]]);
      AddRelease(t.releases, t.packages, t.revisions, k, u.releases[k]);
    }
  }

  // ---------- the numbers the service computes ----------

  lemma NextRevision(t: Tables, p: Id)
    requires Dense(t.revisions) && RevisionsOk(t.revisions, t.packages)
    ensures Follows(t.revisions, p, C.NextNumber(GetLatestRevision(t, p)))
  {
    if Numbers(t, p) != {} {
      assert Follows(t.revisions, p, Largest(Numbers(t, p)));
    }
  }

  lemma NextResource(t: Tables, d: Id)
    requires Dense(t.resourceRevs) && ResourcesOk(t.resourceRevs, t.defs)
    ensures Follows(t.resourceRevs, d, C.NextResourceNumber(FirstResourceRevision(t, d)))
  {
    if ResourceNumbers(t, d) != {} {
      assert Follows(t.resourceRevs, d, Largest(ResourceNumbers(t, d)));
    }
  }
}
