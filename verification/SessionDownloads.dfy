/** Bytes in, bytes out: what was uploaded and then pushed is what a download returns, however many
    calls come in between and afterwards, over the tables and over `repo.Memory`. */
module SessionDownloads {
  import opened Core
  import opened Invariants
  import opened Repository
  import opened Access
  import opened Sessions
  import opened Sequential
  import opened SessionTheorems
  import PI = ProtocolInvariant
  import M = MemoryModel
  import Sql = Tables
  import C = Calls
  import S = Simulation
  import ST = SimulationTheorems

  // ---------- sessions in pieces ----------

  predicate AllWellFormedCalls(calls: seq<Call>) {
    forall c | c in calls :: WellFormed(c)
  }

  lemma {:induction false} SplitSession(w: World, drawn: set<Id>, g: Registry, a: seq<Call>, b: seq<Call>)
    requires AllFresh(drawn, a + b)
    ensures AllFresh(drawn, a) && AllFresh(DrawnAfter(drawn, a), b)
    ensures AllWellFormedCalls(a) && AllWellFormedCalls(b) && AllWellFormedCalls(a + b)
    ensures ServeAll(w, g, a + b) == ServeAll(w, ServeAll(w, g, a), b)
    ensures drawn <= DrawnAfter(drawn, a)
    decreases |a|
  {
    AllWellFormed(drawn, a + b);
    assert forall c | c in a :: c in a + b;
    assert forall c | c in b :: c in a + b;
    if a == [] {
      assert a + b == b;
    } else {
      assert (a + b)[1..] == a[1..] + b;
      SplitSession(w, drawn + Draws(a[0]), Serve(w, g, a[0]).0, a[1..], b);
    }
  }

  // ---------- blobs ----------

  /** Upload ids are UUIDs: no "/" in them. */
  predicate PlainIds(calls: seq<Call>) {
    forall c | c in calls :: c.Upload? ==> '/' !in c.id
  }

  lemma ServeKeepsBlob(w: World, drawn: set<Id>, g: Registry, c: Call, key: string)
    requires Fresh(drawn, c) && (c.Upload? ==> '/' !in c.id) && PI.KeyOwner(key) in drawn && key in g.blobs
    ensures key in Serve(w, g, c).0.blobs && Serve(w, g, c).0.blobs[key] == g.blobs[key]
  {
    hide C.RegisterPackage, C.PatchPackage, C.UnregisterPackage, C.AddPackageTracks, C.PushRevision, C.PushResource,
         C.UpdateResources, C.Release, CreateUpload;
    if c.Upload? {
      assert c.id in Draws(c);
      PI.KeyOwnerOf(c.id, c.filename);
    }
  }

  /** A blob filed under an id that is already drawn is never overwritten. */
  lemma {:induction false} BlobLasts(w: World, drawn: set<Id>, g: Registry, calls: seq<Call>, key: string)
    requires AllFresh(drawn, calls) && AllWellFormedCalls(calls) && PlainIds(calls)
    requires PI.KeyOwner(key) in drawn && key in g.blobs
    ensures key in ServeAll(w, g, calls).blobs && ServeAll(w, g, calls).blobs[key] == g.blobs[key]
    decreases |calls|
  {
    hide Serve, Fresh;
    if calls != [] {
      ServeKeepsBlob(w, drawn, g, calls[0], key);
      BlobLasts(w, drawn + Draws(calls[0]), Serve(w, g, calls[0]).0, calls[1..], key);
    }
  }

  // ---------- rows ----------

  lemma UploadStored(w: World, t: Sql.Tables, blobs: C.Blobs, c: Call)
    requires c.Upload? && Succeeded(Serve(w, Registry(Postgres(t), blobs), c).1)
    ensures var g := Serve(w, Registry(Postgres(t), blobs), c).0;
      var up := C.NewUpload(w, c.filename, c.payload, c.id, c.now);
      && g.repo.Postgres? && c.id in g.repo.t.uploads && g.repo.t.uploads[c.id] == up
      && up.objectKey in g.blobs && g.blobs[up.objectKey] == c.payload
  {}

  lemma {:induction false} UpsertKeepsRows(t: Sql.Tables, p: Id, archive: Archive, order: seq<(string, Id)>, now: Time)
    ensures var r := C.UpsertAll(Postgres(t), p, archive, order, now).0;
      r.Postgres? && r.t == t.(defs := r.t.defs)
    decreases |order|
  {
    if order != [] && order[0].0 in archive.resources {
      var d := C.Definition(p, order[0].0, archive.resources[order[0].0], order[0].1, now);
      UpsertKeepsRows(Sql.UpsertDefinition(t, d).0, p, archive, order[1..], now);
    } else if order != [] {
      UpsertKeepsRows(t, p, archive, order[1..], now);
    }
  }

  /** A push that succeeds has stored its upload as the next revision. */
  lemma PushStores(w: World, t: Sql.Tables, blobs: C.Blobs, c: Call)
    requires c.PushRevision? && Succeeded(Serve(w, Registry(Postgres(t), blobs), c).1)
    ensures var g := Serve(w, Registry(Postgres(t), blobs), c).0;
      var found := C.Managed(Postgres(t), c.who, c.name, MANAGE_REVISIONS);
      && found.Ok? && c.uploadId in t.uploads && g.repo.Postgres?
      && var p := found.value.id;
         var n := C.NextNumber(Sql.GetLatestRevision(t, p));
         var up := t.uploads[c.uploadId];
         (p, n) in g.repo.t.revisions
         && var rev := g.repo.t.revisions[(p, n)];
            rev.objectKey == up.objectKey && rev.size == up.size && rev.sha256 == up.sha256 && rev.sha384 == up.sha384
  {
    hide C.UpsertAll, C.Managed, Sql.GetLatestRevision;
    var found := C.Managed(Postgres(t), c.who, c.name, MANAGE_REVISIONS);
    var up := t.uploads[c.uploadId];
    var archive := w.parse(blobs[up.objectKey]).value;
    var n := C.NextNumber(Sql.GetLatestRevision(t, found.value.id));
    var rev := C.NewRevision(found.value.id, c.who, up, archive, n, c.id, c.now);
    var t1 := Sql.CreateRevision(t, rev).0;
    var t2 := Sql.ApproveUpload(t1, up.id, Some(n), [], c.now).0;
    var t3 := Sql.UpdatePackage(t2, C.Published(w, found.value, archive, c.now)).0;
    UpsertKeepsRows(t3, found.value.id, archive, c.order, c.now);
  }

  /** A resource push that succeeds has stored its upload as the next revision of the resource. */
  lemma ResourcePushStores(w: World, t: Sql.Tables, blobs: C.Blobs, c: Call)
    requires c.PushResource? && Succeeded(Serve(w, Registry(Postgres(t), blobs), c).1)
    ensures var g := Serve(w, Registry(Postgres(t), blobs), c).0;
      var found := C.Managed(Postgres(t), c.who, c.name, MANAGE_REVISIONS);
      && found.Ok? && c.push.uploadId in t.uploads && g.repo.Postgres? && (found.value.id, c.resource) in t.defs
      && g.repo.t.defs == t.defs && g.repo.t.packages == t.packages
      && var d, up := t.defs[(found.value.id, c.resource)], t.uploads[c.push.uploadId];
         var n := C.NextResourceNumber(Sql.FirstResourceRevision(t, d.id));
         && up.objectKey in blobs && (d.id, n) in g.repo.t.resourceRevs
         && g.repo.t.resourceRevs[(d.id, n)]
            == C.NewResourceRevision(w, d, up, blobs[up.objectKey], n, c.push.kind, c.push.bases, c.push.architectures,
                                     c.id, c.now)
  {
    hide C.Managed, Sql.FirstResourceRevision;
  }

  // ---------- calls of a session by their index ----------

  /** The registry when call `i` begins. */
  function StateAt(w: World, g: Registry, calls: seq<Call>, i: nat): Registry
    requires AllWellFormedCalls(calls) && i <= |calls|
  {
    assert forall c | c in calls[..i] :: c in calls;
    ServeAll(w, g, calls[..i])
  }

  lemma {:induction false} AnswerAt(w: World, g: Registry, calls: seq<Call>, i: nat)
    requires i < |calls| && AllWellFormedCalls(calls)
    ensures AllWellFormedCalls(calls[..i])
    ensures Answers(w, g, calls)[i] == Serve(w, ServeAll(w, g, calls[..i]), calls[i]).1
    ensures ServeAll(w, g, calls[..i + 1]) == Serve(w, ServeAll(w, g, calls[..i]), calls[i]).0
    decreases |calls|
  {
    hide Serve;
    if i > 0 {
      assert calls[1..][..i - 1] == calls[..i][1..];
      assert calls[1..][..i] == calls[..i + 1][1..];
      AnswerAt(w, Serve(w, g, calls[0]).0, calls[1..], i - 1);
    } else {
      assert calls[..1][1..] == [];
    }
  }

  /** What a session of fresh calls has done by call `i` and keeps from there on. */
  lemma FromThere(w: World, drawn: set<Id>, t: Sql.Tables, blobs: C.Blobs, calls: seq<Call>, i: nat)
    requires Sane(drawn, t) && AllFresh(drawn, calls) && i <= |calls|
    ensures AllWellFormedCalls(calls) && AllWellFormedCalls(calls[..i]) && AllWellFormedCalls(calls[i..])
    ensures var g := ServeAll(w, Registry(Postgres(t), blobs), calls[..i]);
      var d := DrawnAfter(drawn, calls[..i]);
      && g.repo.Postgres? && Sane(d, g.repo.t) && AllFresh(d, calls[i..]) && drawn <= d
      && ServeAll(w, Registry(Postgres(t), blobs), calls) == ServeAll(w, g, calls[i..])
      && ServeAll(w, g, calls[i..]).repo.Postgres?
      && Sane(DrawnAfter(d, calls[i..]), ServeAll(w, g, calls[i..]).repo.t)
      && Evolves(d, g.repo.t, ServeAll(w, g, calls[i..]).repo.t)
      && (forall p | p in g.repo.t.packages && Sql.Numbers(g.repo.t, p) != {} ::
          p in ServeAll(w, g, calls[i..]).repo.t.packages)
  {
    hide Sane, Evolves, AllFresh, ServeAll;
    var a, b := calls[..i], calls[i..];
    assert calls == a + b;
    SplitSession(w, drawn, Registry(Postgres(t), blobs), a, b);
    SessionKeeps(w, drawn, t, blobs, a);
    var g := ServeAll(w, Registry(Postgres(t), blobs), a);
    SessionKeeps(w, DrawnAfter(drawn, a), g.repo.t, g.blobs, b);
  }

  lemma {:induction false} DrawnInSession(drawn: set<Id>, calls: seq<Call>, i: nat)
    requires i < |calls|
    ensures drawn <= DrawnAfter(drawn, calls) && Draws(calls[i]) <= DrawnAfter(drawn, calls)
    decreases |calls|
  {
    hide Draws;
    if i > 0 {
      DrawnInSession(drawn + Draws(calls[0]), calls[1..], i - 1);
    } else if |calls| > 1 {
      DrawnInSession(drawn + Draws(calls[0]), calls[1..], 0);
    }
  }

  /** The row and the blob of an upload, as they were first stored. */
  ghost predicate HasUpload(w: World, g: Registry, c: Call)
    requires c.Upload?
  {
    var up := C.NewUpload(w, c.filename, c.payload, c.id, c.now);
    && g.repo.Postgres? && c.id in g.repo.t.uploads && SameUpload(up, g.repo.t.uploads[c.id])
    && up.objectKey in g.blobs && g.blobs[up.objectKey] == c.payload
  }

  lemma UploadsLast(drawn: set<Id>, t: Sql.Tables, u: Sql.Tables, i: Id)
    requires Evolves(drawn, t, u) && i in t.uploads
    ensures i in u.uploads && SameUpload(t.uploads[i], u.uploads[i])
  {}

  lemma UploadReaches(w: World, drawn: set<Id>, t: Sql.Tables, blobs: C.Blobs, calls: seq<Call>, i: nat)
    requires Sane(drawn, t) && AllFresh(drawn, calls) && PlainIds(calls) && AllWellFormedCalls(calls)
    requires i < |calls| && calls[i].Upload?
    requires Succeeded(Answers(w, Registry(Postgres(t), blobs), calls)[i])
    ensures HasUpload(w, ServeAll(w, Registry(Postgres(t), blobs), calls), calls[i])
  {
    hide Sane, Evolves, AllFresh, ServeAll, Serve, Answers, Draws;
    var g := Registry(Postgres(t), blobs);
    FromThere(w, drawn, t, blobs, calls, i);
    FromThere(w, drawn, t, blobs, calls, i + 1);
    AnswerAt(w, g, calls, i);
    var before, after := ServeAll(w, g, calls[..i]), ServeAll(w, g, calls[..i + 1]);
    UploadStored(w, before.repo.t, before.blobs, calls[i]);
    var up := C.NewUpload(w, calls[i].filename, calls[i].payload, calls[i].id, calls[i].now);
    var d := DrawnAfter(drawn, calls[..i + 1]);
    UploadIdDrawn(drawn, calls, i);
    PI.KeyOwnerOf(calls[i].id, calls[i].filename);
    BlobLasts(w, d, after, calls[i + 1..], up.objectKey);
    UploadsLast(d, after.repo.t, ServeAll(w, after, calls[i + 1..]).repo.t, calls[i].id);
  }

  lemma UploadIdDrawn(drawn: set<Id>, calls: seq<Call>, i: nat)
    requires i < |calls| && calls[i].Upload?
    ensures calls[i].id in DrawnAfter(drawn, calls[..i + 1])
  {
    assert calls[i].id in Draws(calls[i]);
    DrawnInSession(drawn, calls[..i + 1], i);
  }

  // ---------- the theorems ----------

  /** Call `i` uploads some bytes, a later call `j` pushes that upload as a charm revision, and both
      succeed: in the end the revision is there with the size and hashes of those bytes, and whoever
      may see the package downloads exactly those bytes. */
  lemma PushedCharmComesBack(w: World, drawn: set<Id>, t: Sql.Tables, blobs: C.Blobs, calls: seq<Call>, i: nat, j: nat,
                             reader: Identity)
    requires Sane(drawn, t) && AllFresh(drawn, calls) && PlainIds(calls) && AllWellFormedCalls(calls)
    requires i < j < |calls| && calls[i].Upload? && calls[j].PushRevision? && calls[j].uploadId == calls[i].id
    requires Succeeded(Answers(w, Registry(Postgres(t), blobs), calls)[i])
    requires Succeeded(Answers(w, Registry(Postgres(t), blobs), calls)[j])
    ensures var before := StateAt(w, Registry(Postgres(t), blobs), calls, j);
      var end := ServeAll(w, Registry(Postgres(t), blobs), calls);
      var found := C.Managed(before.repo, calls[j].who, calls[j].name, MANAGE_REVISIONS);
      && found.Ok? && end.repo.Postgres?
      && var p, n := found.value.id, C.NextNumber(GetLatestRevision(before.repo, found.value.id));
         && (p, n) in end.repo.t.revisions
         && var rev, bytes := end.repo.t.revisions[(p, n)], calls[i].payload;
            && rev.size == |bytes| && rev.sha256 == w.sha256(bytes) && rev.sha384 == w.sha384(bytes)
            && (C.Visible(end.repo, reader, p).Ok? ==>
                  C.DownloadCharm(end.repo, end.blobs, reader, p, n) == Ok(bytes))
  {
    var g := Registry(Postgres(t), blobs);
    hide Sane, Evolves, AllFresh, ServeAll, Serve, Answers, Draws, C.Managed, C.Visible;
    FromThere(w, drawn, t, blobs, calls, j);
    FromThere(w, drawn, t, blobs, calls, j + 1);
    AnswerAt(w, g, calls, i);
    AnswerAt(w, g, calls, j);
    PrefixAnswers(w, g, drawn, calls, i, j);
    UploadReaches(w, drawn, t, blobs, calls[..j], i);
    UploadReaches(w, drawn, t, blobs, calls, i);
    var before, after := ServeAll(w, g, calls[..j]), ServeAll(w, g, calls[..j + 1]);
    PushStores(w, before.repo.t, before.blobs, calls[j]);
    var p := C.Managed(before.repo, calls[j].who, calls[j].name, MANAGE_REVISIONS).value.id;
    var n := C.NextNumber(GetLatestRevision(before.repo, p));
    RevisionStays(DrawnAfter(drawn, calls[..j + 1]), after.repo.t, ServeAll(w, g, calls).repo.t, p, n);
    VisibleId(DrawnAfter(DrawnAfter(drawn, calls[..j]), calls[j..]), ServeAll(w, g, calls).repo.t, reader, p);
  }

  lemma PrefixAnswers(w: World, g: Registry, drawn: set<Id>, calls: seq<Call>, i: nat, j: nat)
    requires AllFresh(drawn, calls) && i < j <= |calls| && AllWellFormedCalls(calls)
    ensures AllWellFormedCalls(calls[..j]) && AllFresh(drawn, calls[..j]) && (PlainIds(calls) ==> PlainIds(calls[..j]))
    ensures Answers(w, g, calls[..j])[i] == Answers(w, g, calls)[i]
  {
    hide AllFresh, Answers, Serve, ServeAll;
    assert calls == calls[..j] + calls[j..];
    SplitSession(w, drawn, g, calls[..j], calls[j..]);
    AnswerAt(w, g, calls, i);
    AnswerAt(w, g, calls[..j], i);
    assert calls[..j][..i] == calls[..i];
  }

  lemma RevisionStays(drawn: set<Id>, t: Sql.Tables, u: Sql.Tables, p: Id, n: int)
    requires Evolves(drawn, t, u) && (p, n) in t.revisions && Sane(drawn, t)
    requires forall q | q in t.packages && Sql.Numbers(t, q) != {} :: q in u.packages
    ensures (p, n) in u.revisions && u.revisions[(p, n)] == t.revisions[(p, n)]
  {
    assert n in Sql.Numbers(t, p);
  }

  lemma VisibleId(drawn: set<Id>, t: Sql.Tables, who: Identity, p: Id)
    requires Sane(drawn, t)
    ensures C.Visible(Postgres(t), who, p).Ok? ==> p in t.packages && C.Visible(Postgres(t), who, p).value.id == p
  {}

  lemma ResourceStays(drawn: set<Id>, t: Sql.Tables, u: Sql.Tables, p: Id, name: string, n: int)
    requires Evolves(drawn, t, u) && Sane(drawn, t) && (p, name) in t.defs && p in u.packages
    requires (t.defs[(p, name)].id, n) in t.resourceRevs
    ensures var k := (t.defs[(p, name)].id, n);
      && (p, name) in u.defs && u.defs[(p, name)].id == k.0
      && k in u.resourceRevs && SameArtefact(t.resourceRevs[k], u.resourceRevs[k])
  {}

  /** Size and hashes of the row are those of the bytes. */
  predicate Describes(w: World, row: ResourceRevision, bytes: Bytes) {
    && row.size == |bytes| && row.sha256 == w.sha256(bytes) && row.sha384 == w.sha384(bytes)
    && row.sha512 == w.sha512(bytes) && row.sha3384 == w.sha384(bytes)
  }

  /** The same for a resource, whether its bytes went into the blob store or, for an OCI image,
      into the row. */
  lemma PushedResourceComesBack(w: World, drawn: set<Id>, t: Sql.Tables, blobs: C.Blobs, calls: seq<Call>, i: nat,
                                j: nat, reader: Identity)
    requires Sane(drawn, t) && AllFresh(drawn, calls) && PlainIds(calls) && AllWellFormedCalls(calls)
    requires i < j < |calls| && calls[i].Upload? && calls[j].PushResource? && calls[j].push.uploadId == calls[i].id
    requires Succeeded(Answers(w, Registry(Postgres(t), blobs), calls)[i])
    requires Succeeded(Answers(w, Registry(Postgres(t), blobs), calls)[j])
    ensures var before := StateAt(w, Registry(Postgres(t), blobs), calls, j);
      var end := ServeAll(w, Registry(Postgres(t), blobs), calls);
      var found := C.Managed(before.repo, calls[j].who, calls[j].name, MANAGE_REVISIONS);
      && found.Ok? && before.repo.Postgres? && (found.value.id, calls[j].resource) in before.repo.t.defs
      && var p, d := found.value.id, before.repo.t.defs[(found.value.id, calls[j].resource)].id;
         var n, bytes := C.NextResourceNumber(Sql.FirstResourceRevision(before.repo.t, d)), calls[i].payload;
         && end.repo.Postgres?
         && (p in end.repo.t.packages ==>
               && (p, calls[j].resource) in end.repo.t.defs && end.repo.t.defs[(p, calls[j].resource)].id == d
               && (d, n) in end.repo.t.resourceRevs
               && Describes(w, end.repo.t.resourceRevs[(d, n)], bytes))
         && (C.Visible(end.repo, reader, p).Ok? ==>
               C.DownloadResource(end.repo, end.blobs, reader, p, calls[j].resource, n) == Ok(bytes))
  {
    var g := Registry(Postgres(t), blobs);
    hide Sane, Evolves, AllFresh, ServeAll, Serve, Answers, Draws, C.Managed, C.Visible;
    FromThere(w, drawn, t, blobs, calls, j);
    FromThere(w, drawn, t, blobs, calls, j + 1);
    AnswerAt(w, g, calls, j);
    PrefixAnswers(w, g, drawn, calls, i, j);
    UploadReaches(w, drawn, t, blobs, calls[..j], i);
    UploadReaches(w, drawn, t, blobs, calls, i);
    PI.KeyOwnerOf(calls[i].id, calls[i].filename);
    var before, after, end := ServeAll(w, g, calls[..j]), ServeAll(w, g, calls[..j + 1]), ServeAll(w, g, calls);
    ResourcePushStores(w, before.repo.t, before.blobs, calls[j]);
    var p := C.Managed(before.repo, calls[j].who, calls[j].name, MANAGE_REVISIONS).value.id;
    var d := before.repo.t.defs[(p, calls[j].resource)].id;
    var n := C.NextResourceNumber(Sql.FirstResourceRevision(before.repo.t, d));
    VisibleId(DrawnAfter(DrawnAfter(drawn, calls[..j]), calls[j..]), end.repo.t, reader, p);
    if p in end.repo.t.packages {
      ResourceStays(DrawnAfter(drawn, calls[..j + 1]), after.repo.t, end.repo.t, p, calls[j].resource, n);
    }
  }

  lemma SucceededBare(a: Answer, b: Answer)
    requires ST.BareAnswer(a) == ST.BareAnswer(b)
    ensures Succeeded(a) <==> Succeeded(b)
  {}

  lemma ManagedAgrees(drawn: set<Id>, m: M.Mem, t: Sql.Tables, who: Identity, name: string, permission: string)
    requires S.Simulates(drawn, m, t)
    ensures var a, b := C.Managed(InMemory(m), who, name, permission), C.Managed(Postgres(t), who, name, permission);
      (a.Ok? <==> b.Ok?)
      && (a.Ok? ==> a.value.id == b.value.id
                    && M.GetLatestRevision(m, a.value.id) == Sql.GetLatestRevision(t, a.value.id))
  {
    S.SameManaged(drawn, m, t, who, name, permission);
    ST.SimulatesArtefactViews(drawn, m, t);
    hide S.Simulates, C.Managed;
  }

  /** And over `repo.Memory`, from an empty registry on, for the calls that have to do with charms. */
  lemma MemoryCharmComesBack(w: World, accounts: set<Id>, calls: seq<Call>, i: nat, j: nat, reader: Identity)
    requires AllFresh({}, calls) && PlainIds(calls) && AllWellFormedCalls(calls)
    requires forall c | c in calls :: ST.CharmCall(accounts, c)
    requires i < j < |calls| && calls[i].Upload? && calls[j].PushRevision? && calls[j].uploadId == calls[i].id
    requires Succeeded(Answers(w, Registry(InMemory(M.EMPTY), map[]), calls)[i])
    requires Succeeded(Answers(w, Registry(InMemory(M.EMPTY), map[]), calls)[j])
    ensures var before := StateAt(w, Registry(InMemory(M.EMPTY), map[]), calls, j);
      var end := ServeAll(w, Registry(InMemory(M.EMPTY), map[]), calls);
      var found := C.Managed(before.repo, calls[j].who, calls[j].name, MANAGE_REVISIONS);
      && found.Ok?
      && var p, n := found.value.id, C.NextNumber(GetLatestRevision(before.repo, found.value.id));
         var rev, bytes := GetRevisionByNumber(end.repo, p, n), calls[i].payload;
         && rev.Some? && rev.value.size == |bytes|
         && rev.value.sha256 == w.sha256(bytes) && rev.value.sha384 == w.sha384(bytes)
         && (C.Visible(end.repo, reader, p).Ok? ==> C.DownloadCharm(end.repo, end.blobs, reader, p, n) == Ok(bytes))
  {
    hide AllFresh, ServeAll, Serve, Answers, S.Simulates, C.Managed, C.Visible, C.DownloadCharm, ST.CharmCall,
         Succeeded, ST.BareAnswer;
    var t := Sql.EMPTY.(accounts := accounts);
    var inMemory, inTables := Registry(InMemory(M.EMPTY), map[]), Registry(Postgres(t), map[]);
    ST.EmptySimulates(accounts);
    ST.SimulatesSane({}, M.EMPTY, t);
    ST.SessionSimulates(w, {}, M.EMPTY, t, map[], calls);
    SucceededBare(Answers(w, inMemory, calls)[i], Answers(w, inTables, calls)[i]);
    SucceededBare(Answers(w, inMemory, calls)[j], Answers(w, inTables, calls)[j]);
    PushedCharmComesBack(w, {}, t, map[], calls, i, j, reader);
    PrefixAnswers(w, inTables, {}, calls, i, j);
    ST.SessionSimulates(w, {}, M.EMPTY, t, map[], calls[..j]);
    var bm, bt := ServeAll(w, inMemory, calls[..j]), ServeAll(w, inTables, calls[..j]);
    var em, et := ServeAll(w, inMemory, calls), ServeAll(w, inTables, calls);
    var d0 :| S.Simulates(d0, bm.repo.m, bt.repo.t);
    var d1 :| S.Simulates(d1, em.repo.m, et.repo.t);
    ManagedAgrees(d0, bm.repo.m, bt.repo.t, calls[j].who, calls[j].name, MANAGE_REVISIONS);
    var p := C.Managed(bt.repo, calls[j].who, calls[j].name, MANAGE_REVISIONS).value.id;
    var n := C.NextNumber(GetLatestRevision(bt.repo, p));
    ST.SimulatesArtefactViews(d1, em.repo.m, et.repo.t);
    ST.VisibleAgrees(d1, em.repo.m, et.repo.t, reader, p);
    ST.DownloadsAgree(d1, em.repo.m, et.repo.t, em.blobs, reader, p, n);
  }
}
