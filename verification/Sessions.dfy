/** Service calls one after the other, each running to its end before the next begins. */
module Sessions {
  import opened Core
  import opened Repository
  import C = Calls

  datatype Call =
    | Register(who: Identity, name: string, kind: string, isPrivate: bool, id: Id, now: Time)
    | PatchMetadata(who: Identity, name: string, patch: C.Patch, now: Time)
    | Unregister(who: Identity, name: string)
    | Tracks(who: Identity, name: string, tracks: seq<Track>, now: Time)
    | Upload(filename: string, payload: Bytes, id: Id, now: Time)
    | PushRevision(who: Identity, name: string, uploadId: Id, id: Id, order: seq<(string, Id)>, now: Time)
    | PushResource(who: Identity, name: string, resource: string, push: C.ResourcePush, id: Id, now: Time)
    | UpdateResources(who: Identity, name: string, resource: string, updates: seq<C.ResourceUpdate>)
    | Publish(who: Identity, name: string, requests: seq<Release>, ids: seq<Id>, now: Time)

  datatype Answer =
    | PackageAnswer(package: Result<Package>)
    | IdAnswer(id: Result<Id>)
    | CountAnswer(count: Count)
    | UploadAnswer(upload: Result<Core.Upload>)
    | UrlAnswer(url: Result<string>)
    | UpdatedAnswer(updated: nat, outcome: Outcome)
    | ReleasesAnswer(releases: Result<seq<Release>>)

  predicate Succeeded(a: Answer) {
    match a
    case PackageAnswer(r) => r.Ok?
    case IdAnswer(r) => r.Ok?
    case CountAnswer(c) => c.outcome.Pass?
    case UploadAnswer(r) => r.Ok?
    case UrlAnswer(r) => r.Ok?
    case UpdatedAnswer(_, out) => out.Pass?
    case ReleasesAnswer(r) => r.Ok?
  }

  datatype Registry = Registry(repo: Repository, blobs: C.Blobs)

  /** One fresh id per release request. */
  predicate WellFormed(c: Call) {
    c.Publish? ==> |c.ids| == |c.requests|
  }

  function Serve(w: World, g: Registry, c: Call): (Registry, Answer)
    requires WellFormed(c)
  {
    match c
    case Register(who, name, kind, isPrivate, id, now) =>
      var (r, a) := C.RegisterPackage(g.repo, who, name, kind, isPrivate, id, now);
      (g.(repo := r), PackageAnswer(a))
    case PatchMetadata(who, name, patch, now) =>
      var (r, a) := C.PatchPackage(w, g.repo, who, name, patch, now);
      (g.(repo := r), PackageAnswer(a))
    case Unregister(who, name) =>
      var (r, a) := C.UnregisterPackage(g.repo, who, name);
      (g.(repo := r), IdAnswer(a))
    case Tracks(who, name, tracks, now) =>
      var (r, a) := C.AddPackageTracks(g.repo, who, name, tracks, now);
      (g.(repo := r), CountAnswer(a))
    case Upload(filename, payload, id, now) =>
      var (r, b, a) := C.CreateUpload(w, g.repo, g.blobs, filename, payload, id, now);
      (Registry(r, b), UploadAnswer(a))
    case PushRevision(who, name, uploadId, id, order, now) =>
      var (r, a) := C.PushRevision(w, g.repo, g.blobs, who, name, uploadId, id, order, now);
      (g.(repo := r), UrlAnswer(a))
    case PushResource(who, name, resource, push, id, now) =>
      var (r, a) := C.PushResource(w, g.repo, g.blobs, who, name, resource, push, id, now);
      (g.(repo := r), UrlAnswer(a))
    case UpdateResources(who, name, resource, updates) =>
      var (r, n, out) := C.UpdateResources(g.repo, who, name, resource, updates);
      (g.(repo := r), UpdatedAnswer(n, out))
    case Publish(who, name, requests, ids, now) =>
      var (r, a) := C.Release(g.repo, who, name, requests, ids, now);
      (g.(repo := r), ReleasesAnswer(a))
  }

  function ServeAll(w: World, g: Registry, calls: seq<Call>): Registry
    requires forall c | c in calls :: WellFormed(c)
    decreases |calls|
  {
    if calls == [] then g else ServeAll(w, Serve(w, g, calls[0]).0, calls[1..])
  }

  function Answers(w: World, g: Registry, calls: seq<Call>): (answers: seq<Answer>)
    requires forall c | c in calls :: WellFormed(c)
    ensures |answers| == |calls|
    decreases |calls|
  {
    if calls == [] then [] else [Serve(w, g, calls[0]).1] + Answers(w, Serve(w, g, calls[0]).0, calls[1..])
  }

  // ---------- the ids a call draws ----------

  function OrderIds(order: seq<(string, Id)>): set<Id> {
    set i | 0 <= i < |order| :: order[i].1
  }

  function Draws(c: Call): set<Id> {
    match c
    case Register(_, _, _, _, id, _) => {id}
    case Upload(_, _, id, _) => {id}
    case PushRevision(_, _, _, id, order, _) => {id} + OrderIds(order)
    case PushResource(_, _, _, _, id, _) => {id}
    case Publish(_, _, _, ids, _) => set i | 0 <= i < |ids| :: ids[i]
    case _ => {}
  }

  predicate Distinct<T(==)>(xs: seq<T>) {
    forall i, j | 0 <= i < j < |xs| :: xs[i] != xs[j]
  }

  function Seconds(order: seq<(string, Id)>): seq<Id> {
    seq(|order|, i requires 0 <= i < |order| => order[i].1)
  }

  /** The first id of an order and the rest of it. */
  lemma OrderTail(order: seq<(string, Id)>)
    requires order != [] && Distinct(Seconds(order))
    ensures Distinct(Seconds(order[1..]))
    ensures order[0].1 !in OrderIds(order[1..]) && OrderIds(order) == OrderIds(order[1..]) + {order[0].1}
  {
    var rest, ids := order[1..], Seconds(order);
    assert forall i | 0 <= i < |rest| :: rest[i] == order[i + 1] && Seconds(rest)[i] == ids[i + 1];
    assert ids[0] == order[0].1;
    forall id | id in OrderIds(order) ensures id in OrderIds(rest) + {order[0].1} {
      var i :| 0 <= i < |order| && order[i].1 == id;
      assert i > 0 ==> rest[i - 1].1 == id;
    }
  }

  /** What the call draws has never been drawn, and it draws no id twice. */
  predicate Fresh(drawn: set<Id>, c: Call) {
    && WellFormed(c)
    && Draws(c) !! drawn
    && (c.PushRevision? ==> Distinct(Seconds(c.order)) && c.id !in OrderIds(c.order))
    && (c.Publish? ==> Distinct(c.ids))
  }

  predicate AllFresh(drawn: set<Id>, calls: seq<Call>)
    decreases |calls|
  {
    calls == [] || (Fresh(drawn, calls[0]) && AllFresh(drawn + Draws(calls[0]), calls[1..]))
  }

  lemma {:induction false} AllWellFormed(drawn: set<Id>, calls: seq<Call>)
    requires AllFresh(drawn, calls)
    ensures forall c | c in calls :: WellFormed(c)
    decreases |calls|
  {
    if calls != [] {
      AllWellFormed(drawn + Draws(calls[0]), calls[1..]);
      assert forall c | c in calls :: c == calls[0] || c in calls[1..];
    }
  }
}
