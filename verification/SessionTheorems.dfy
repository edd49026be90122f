/** Whole sessions of atomic calls over Postgres: what a release makes permanent. */
module SessionTheorems {
  import opened Core
  import opened Invariants
  import opened Repository
  import opened Sessions
  import opened Sequential
  import opened Access
  import Sql = Tables
  import C = Calls
  import ReleaseTheorems

  function DrawnAfter(drawn: set<Id>, calls: seq<Call>): set<Id>
    decreases |calls|
  {
    if calls == [] then drawn else DrawnAfter(drawn + Draws(calls[0]), calls[1..])
  }

  lemma {:induction false} SessionKeeps(w: World, drawn: set<Id>, t: Sql.Tables, blobs: C.Blobs, calls: seq<Call>)
    requires Sane(drawn, t) && AllFresh(drawn, calls)
    requires forall c | c in calls :: WellFormed(c)
    ensures var g := ServeAll(w, Registry(Postgres(t), blobs), calls);
      && g.repo.Postgres?
      && Sane(DrawnAfter(drawn, calls), g.repo.t)
      && Evolves(drawn, t, g.repo.t)
      && (forall p | p in t.packages && Sql.Numbers(t, p) != {} :: p in g.repo.t.packages)
    decreases |calls|
  {
    hide Consistent;
    if calls == [] {
      EvolvesRefl(drawn, t);
    } else {
      CallProgress(w, drawn, t, blobs, calls[0]);
      var g := Serve(w, Registry(Postgres(t), blobs), calls[0]).0;
      SessionKeeps(w, drawn + Draws(calls[0]), g.repo.t, g.blobs, calls[1..]);
      var v := ServeAll(w, g, calls[1..]).repo.t;
      EvolvesTrans(drawn, drawn + Draws(calls[0]), t, g.repo.t, v);
      forall p | p in t.packages && Sql.Numbers(t, p) != {} ensures p in v.packages {
        assert p in g.repo.t.packages;
        RevisionsLast(drawn, t, g.repo.t, p);
      }
    }
  }

  lemma RevisionsLast(drawn: set<Id>, t: Sql.Tables, u: Sql.Tables, p: Id)
    requires Evolves(drawn, t, u) && p in u.packages
    ensures Sql.Numbers(t, p) <= Sql.Numbers(u, p)
  {}

  /** A successful release leaves every requested channel pointing at a stored revision. */
  lemma {:induction false} ReleaseStored(drawn: set<Id>, t: Sql.Tables, who: Identity, p: Id, requests: seq<Release>,
                                         ids: seq<Id>, now: Time)
    requires Sane(drawn, t) && |ids| == |requests| && p in t.packages
    requires C.ReleaseEach(Postgres(t), who, p, requests, ids, now).2.Pass?
    ensures var u := C.ReleaseEach(Postgres(t), who, p, requests, ids, now).0;
      && u.Postgres?
      && (forall i | 0 <= i < |requests| :: (p, requests[i].channel) in u.t.releases)
      && (requests != [] ==> Sql.Numbers(u.t, p) != {})
    decreases |requests|
  {
    hide Consistent, Evolves, IdsDrawn;
    if requests != [] {
      var r1 := C.ReleaseOne(Postgres(t), who, p, requests[0], ids[0], now).0;
      Replace(drawn, t, p, C.StampRelease(requests[0], ids[0], now));
      ReleaseStored(drawn, r1.t, who, p, requests[1..], ids[1..], now);
      ReleaseEachProgress(drawn, r1.t, who, p, requests[1..], ids[1..], now);
      var u := C.ReleaseEach(Postgres(t), who, p, requests, ids, now).0.t;
      ReleasesLast(drawn, r1.t, u, p);
      RevisionsLast(drawn, r1.t, u, p);
      assert requests[0].revision in Sql.Numbers(r1.t, p);
    }
  }

  lemma ReleasesLast(drawn: set<Id>, t: Sql.Tables, u: Sql.Tables, p: Id)
    requires Evolves(drawn, t, u) && p in u.packages
    ensures forall channel | (p, channel) in t.releases :: (p, channel) in u.releases
  {}

  lemma NameLasts(drawn: set<Id>, t: Sql.Tables, u: Sql.Tables, p: Id)
    requires Evolves(drawn, t, u) && Consistent(u) && p in t.packages && p in u.packages
    ensures var name := t.packages[p].name;
      Sql.GetPackageByName(u, name) == Some(u.packages[p]) && u.packages[p].id == p && u.packages[p].name == name
  {}

  /** A package with a release has a default release, and its revision exists. */
  lemma DefaultFound(w: World, t: Sql.Tables, p: Id, channel: string)
    requires Sound(w) && Consistent(t) && (p, channel) in t.releases
    ensures Sql.ResolveDefaultRelease(w, t, p).Some?
    ensures Sql.GetRevisionByNumber(t, p, Sql.ResolveDefaultRelease(w, t, p).value.revision).Some?
  {
    ListedDangleNot(t, p);
    hide Consistent;
    assert t.releases[(p, channel)] in Sql.ListReleases(t, p);
    assert Sql.ResolveDefaultRelease(w, t, p).value in Sql.ListReleases(t, p);
  }

  lemma ListedDangleNot(t: Sql.Tables, p: Id)
    requires Consistent(t)
    ensures forall release | release in Sql.ListReleases(t, p) :: (p, release.revision) in t.revisions
  {}

  lemma ReleasedFacts(drawn: set<Id>, t: Sql.Tables, who: Identity, name: string, requests: seq<Release>, ids: seq<Id>,
                      now: Time)
    requires Sane(drawn, t) && |ids| == |requests| > 0 && name in t.names
    requires C.Release(Postgres(t), who, name, requests, ids, now).1.Ok?
    ensures var u := C.Release(Postgres(t), who, name, requests, ids, now).0;
      var p := t.names[name];
      && u.Postgres? && Sane(drawn, u.t) && Evolves(drawn, t, u.t)
      && p in t.packages && t.packages[p].name == name && p in u.t.packages && Sql.Numbers(u.t, p) != {}
      && (forall i | 0 <= i < |requests| :: (p, requests[i].channel) in u.t.releases)
  {
    hide Consistent, Evolves, IdsDrawn, C.Release;
    var p := t.names[name];
    ReleaseTheorems.ReleaseParts(Postgres(t), who, name, requests, ids, now);
    Found(drawn, t, who, name, MANAGE_RELEASES);
    ReleaseStored(drawn, t, who, p, requests, ids, now);
    PublishProgress(drawn, t, who, name, requests, ids, now);
    var each := C.ReleaseEach(Postgres(t), who, p, requests, ids, now).0;
    assert Sql.Numbers(C.Release(Postgres(t), who, name, requests, ids, now).0.t, p) == Sql.Numbers(each.t, p);
  }

  lemma NoUnregister(t: Sql.Tables, who: Identity, name: string)
    requires Sql.GetPackageByName(t, name).Some? && Sql.Numbers(t, Sql.GetPackageByName(t, name).value.id) != {}
    ensures C.UnregisterPackage(Postgres(t), who, name).0 == Postgres(t)
    ensures C.UnregisterPackage(Postgres(t), who, name).1.Err?
  {}

  /** Once a release of at least one request has succeeded, whatever calls follow: the name still
      maps to the same package, nobody can unregister it, every released channel resolves, and the
      default release and its revision are found. */
  lemma ReleasedForGood(w: World, drawn: set<Id>, t: Sql.Tables, blobs: C.Blobs, who: Identity, name: string,
                        requests: seq<Release>, ids: seq<Id>, now: Time, calls: seq<Call>, other: Identity)
    requires Sound(w) && Sane(drawn, t) && |ids| == |requests| > 0
    requires C.Release(Postgres(t), who, name, requests, ids, now).1.Ok?
    requires AllFresh(drawn, calls) && forall c | c in calls :: WellFormed(c)
    requires name in t.names
    ensures var released := C.Release(Postgres(t), who, name, requests, ids, now).0;
      var p := t.names[name];
      var later := ServeAll(w, Registry(released, blobs), calls).repo;
      && later.Postgres?
      && Sql.GetPackageByName(later.t, name).Some? && Sql.GetPackageByName(later.t, name).value.id == p
      && C.UnregisterPackage(later, other, name).0 == later && C.UnregisterPackage(later, other, name).1.Err?
      && (forall i | 0 <= i < |requests| :: Sql.ResolveRelease(later.t, p, requests[i].channel).Some?)
      && Sql.ResolveDefaultRelease(w, later.t, p).Some?
      && Sql.GetRevisionByNumber(later.t, p, Sql.ResolveDefaultRelease(w, later.t, p).value.revision).Some?
  {
    hide Consistent, Evolves, IdsDrawn, C.Release;
    var p := t.names[name];
    var released := C.Release(Postgres(t), who, name, requests, ids, now).0;
    ReleasedFacts(drawn, t, who, name, requests, ids, now);
    SessionKeeps(w, drawn, released.t, blobs, calls);
    var v := ServeAll(w, Registry(released, blobs), calls).repo.t;
    EvolvesTrans(drawn, drawn, t, released.t, v);
    NameLasts(drawn, t, v, p);
    RevisionsLast(drawn, released.t, v, p);
    ReleasesLast(drawn, released.t, v, p);
    DefaultFound(w, v, p, requests[0].channel);
    NoUnregister(v, other, name);
  }
}
