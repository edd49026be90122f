/** A concrete interleaving: the state from which an unregistering client deletes a revision that a
    pushing client has just stored is reachable from an empty registry. */
module LostPush {
  import opened Core
  import opened Protocol
  import opened ProtocolTheorems
  import opened Repository
  import Access
  import Sql = Tables
  import C = Calls

  const OWNER := Identity("owner", None, true)
  const PACKAGE := C.NewPackage(OWNER, "charm", "charm", false, "p", 1)

  /** The pusher has computed its number, the unregisterer has seen an empty revision list. */
  predicate AboutToLose(s: State) {
    && 1 in s.clients && s.clients[1].Pusher? && s.clients[1].push.PushCreate?
    && 2 in s.clients && s.clients[2].Unregisterer? && s.clients[2].unreg.UnregisterDelete?
    && s.clients[1].push.pkg == s.clients[2].unreg.pkg && s.clients[1].push.pkg.id in s.st.db.packages
    && (s.clients[1].push.pkg.id, s.clients[1].push.n) !in s.st.db.revisions
  }

  function Registered(): Sql.Tables {
    Sql.EMPTY.(accounts := {"owner"}, packages := map["p" := PACKAGE.(tracks := [])], names := map["charm" := "p"])
  }

  function Stored(w: World, payload: Bytes): Store {
    var up := C.NewUpload(w, "c.charm", payload, "u", 1);
    Store(Registered().(uploads := map["u" := up]), map[up.objectKey := payload], {"p", "u", "uu"}, map["u" := payload],
          map[])
  }

  lemma Registry(w: World) returns (s: State)
    ensures Reachable(w, s) && s.clients == map[] && s.st == Store(Registered(), map[], {"p"}, map[], map[])
  {
    s := INITIAL;
    assert Legal(w, INITIAL, []) && s == Run(w, INITIAL, []);
    var e := AccessLists({"owner"}, {}, map[]);
    ReachStep(w, s, e);
    s := Step(w, s, e);
    ReachStep(w, s, Register(PACKAGE));
    s := Step(w, s, Register(PACKAGE));
  }

  lemma UploadFirst(w: World, payload: Bytes) returns (s: State)
    ensures Reachable(w, s) && StoredWith(w, payload, s.st) && DrawnBefore(3, s.st) && s.clients.Keys == {0}
  {
    hide Reachable, StepPush, StepResource, StepRelease, StepUnregister, StepUpdate;
    s := Registry(w);
    var e := Start(0, Uploader("c.charm", payload, UploadPut));
    ReachStep(w, s, e);
    s := Step(w, s, e);
    s := UploadOn(w, payload, s);
  }

  lemma UploadOn(w: World, payload: Bytes, s: State) returns (s': State)
    requires Reachable(w, s) && s.clients == map[0 := Uploader("c.charm", payload, UploadPut)]
    requires s.st == Store(Registered(), map[], {"p"}, map[], map[])
    ensures Reachable(w, s') && StoredWith(w, payload, s'.st) && DrawnBefore(3, s'.st) && s'.clients.Keys == {0}
  {
    hide Reachable, StepPush, StepResource, StepRelease, StepUnregister, StepUpdate;
    var e := Act(0, "u", "", 1);
    ReachStep(w, s, e);
    s' := Step(w, s, e);
    e := Act(0, "uu", "", 1);
    ReachStep(w, s', e);
    s' := Step(w, s', e);
  }

  const ROW := PACKAGE.(tracks := [])

  lemma OwnerManages(w: World, payload: Bytes, permission: string)
    requires permission == Access.MANAGE_REVISIONS || permission == Access.PACKAGE_MANAGE
    ensures FirstRead(Stored(w, payload).db, OWNER, ROW, permission) == Settled(Pass)
  {}

  /** One step of a client that only reads. */
  lemma Read(w: World, s: State, c: ClientId, id: Id, next: Client) returns (s': State)
    requires Reachable(w, s) && c in s.clients && id !in s.st.drawn && '/' !in id
    requires StepClient(w, s.st, s.clients[c], id, "", 1) == (s.st, next)
    ensures Reachable(w, s') && s'.st == s.st.(drawn := s.st.drawn + {id}) && s'.clients == s.clients[c := next]
  {
    hide Reachable, StepClient;
    var e := Act(c, id, "", 1);
    ReachStep(w, s, e);
    s' := Step(w, s, e);
  }

  /** Same tables and blobs as after the upload, whatever ids have been drawn since. */
  predicate StoredWith(w: World, payload: Bytes, st: Store) {
    st.(drawn := {}) == Stored(w, payload).(drawn := {})
  }

  /** A client of the owner that pushes the upload, and one that unregisters the package. */
  function Pushing(pc: PushPc): Client {
    Pusher(OWNER, "charm", "u", pc)
  }

  function Unregistering(pc: UnregisterPc): Client {
    Unregisterer(OWNER, "charm", pc)
  }

  /** Where the pusher is when the `k`th id is drawn, on its way to its number. */
  function PushAt(w: World, payload: Bytes, k: nat): PushPc
    requires w.parse(payload).Some?
  {
    var up, archive := C.NewUpload(w, "c.charm", payload, "u", 1), w.parse(payload).value;
    if k == 3 then PushFind
    else if k == 4 then PushAuth(ROW)
    else if k == 5 then PushUpload(ROW)
    else if k == 6 then PushBlob(ROW, up)
    else if k == 7 then PushNumber(ROW, up, archive)
    else PushCreate(ROW, up, archive, 1)
  }

  /** And the unregisterer on its way to its delete. */
  function UnregisterAt(k: nat): UnregisterPc {
    if k == 8 then UnregisterFind
    else if k == 9 then UnregisterAuth(ROW)
    else if k == 10 then UnregisterList(ROW)
    else UnregisterDelete(ROW)
  }

  lemma PushReads(w: World, payload: Bytes, st: Store, id: Id, k: nat)
    requires StoredWith(w, payload, st) && w.parse(payload).Some? && 3 <= k < 8
    ensures StepClient(w, st, Pushing(PushAt(w, payload, k)), id, "", 1) == (st, Pushing(PushAt(w, payload, k + 1)))
  {
    OwnerManages(w, payload, Access.MANAGE_REVISIONS);
    assert st.db == Stored(w, payload).db && st.blobs == Stored(w, payload).blobs;
    assert Sql.Numbers(st.db, "p") == {};
    hide FirstRead;
  }

  lemma UnregisterReads(w: World, payload: Bytes, st: Store, id: Id, k: nat)
    requires StoredWith(w, payload, st) && 8 <= k < 11
    ensures StepClient(w, st, Unregistering(UnregisterAt(k)), id, "", 1) == (st, Unregistering(UnregisterAt(k + 1)))
  {
    OwnerManages(w, payload, Access.PACKAGE_MANAGE);
    assert st.db == Stored(w, payload).db;
    assert Sql.Numbers(st.db, "p") == {};
    hide FirstRead;
  }

  /** The `k`th id: longer than all before it. */
  function Tick(k: nat): (id: Id)
    ensures |id| == k && '/' !in id
  {
    seq(k, _ => 'x')
  }

  ghost predicate DrawnBefore(k: nat, st: Store) {
    forall id | id in st.drawn :: |id| < k
  }

  /** Client `c` is at `next`, everybody else where they were. */
  ghost predicate Moved(clients: map<ClientId, Client>, clients': map<ClientId, Client>, c: ClientId, next: Client) {
    && c in clients' && clients'[c] == next && clients'.Keys == clients.Keys + {c}
    && forall d | d in clients && d != c :: clients'[d] == clients[d]
  }

  /** Where a run has come to: `k` is the length of the next id, client `c` is at `client`. */
  ghost predicate At(w: World, payload: Bytes, was: map<ClientId, Client>, s: State, k: nat, c: ClientId,
                     client: Client) {
    Reachable(w, s) && DrawnBefore(k, s.st) && StoredWith(w, payload, s.st) && Moved(was, s.clients, c, client)
  }

  lemma Begin(w: World, payload: Bytes, s: State, k: nat, c: ClientId, client: Client) returns (s': State)
    requires Reachable(w, s) && c !in s.clients && Starting(client) && StoredWith(w, payload, s.st)
      && DrawnBefore(k, s.st)
    ensures At(w, payload, s.clients, s', k, c, client)
  {
    hide Reachable, Starting, StoredWith, DrawnBefore, StepClient;
    ReachStep(w, s, Start(c, client));
    s' := Step(w, s, Start(c, client));
  }

  /** A client that only reads takes the step with the `k`th id. */
  lemma ReadOn(w: World, payload: Bytes, was: map<ClientId, Client>, s: State, k: nat, c: ClientId, client: Client,
               next: Client)
    returns (s': State)
    requires At(w, payload, was, s, k, c, client)
    requires StepClient(w, s.st, client, Tick(k), "", 1) == (s.st, next)
    ensures At(w, payload, was, s', k + 1, c, next)
  {
    hide Reachable, StepClient;
    s' := Read(w, s, c, Tick(k), next);
  }

  lemma AtParts(w: World, payload: Bytes, was: map<ClientId, Client>, s: State, k: nat, c: ClientId, client: Client)
    requires At(w, payload, was, s, k, c, client)
    ensures Reachable(w, s) && StoredWith(w, payload, s.st) && DrawnBefore(k, s.st) && s.clients.Keys == was.Keys + {c}
  {}

  lemma {:induction false} PushFar(w: World, payload: Bytes, was: map<ClientId, Client>, s: State,
                                   k: nat) returns (s': State)
    requires w.parse(payload).Some? && 3 <= k <= 8
    requires At(w, payload, was, s, k, 1, Pushing(PushAt(w, payload, k)))
    ensures At(w, payload, was, s', 8, 1, Pushing(PushAt(w, payload, 8)))
    decreases 8 - k
  {
    hide *;
    s' := s;
    if k < 8 {
      AtParts(w, payload, was, s, k, 1, Pushing(PushAt(w, payload, k)));
      PushReads(w, payload, s.st, Tick(k), k);
      s' := ReadOn(w, payload, was, s, k, 1, Pushing(PushAt(w, payload, k)), Pushing(PushAt(w, payload, k + 1)));
      s' := PushFar(w, payload, was, s', k + 1);
    }
  }

  lemma {:induction false} UnregisterFar(w: World, payload: Bytes, was: map<ClientId, Client>, s: State,
                                         k: nat) returns (s': State)
    requires 8 <= k <= 11 && At(w, payload, was, s, k, 2, Unregistering(UnregisterAt(k)))
    ensures At(w, payload, was, s', 11, 2, Unregistering(UnregisterAt(11)))
    decreases 11 - k
  {
    hide *;
    s' := s;
    if k < 11 {
      AtParts(w, payload, was, s, k, 2, Unregistering(UnregisterAt(k)));
      UnregisterReads(w, payload, s.st, Tick(k), k);
      s' := ReadOn(w, payload, was, s, k, 2, Unregistering(UnregisterAt(k)), Unregistering(UnregisterAt(k + 1)));
      s' := UnregisterFar(w, payload, was, s', k + 1);
    }
  }

  lemma Ready(w: World, payload: Bytes, was: map<ClientId, Client>, s: State, s': State)
    requires w.parse(payload).Some?
    requires At(w, payload, was, s, 8, 1, Pushing(PushAt(w, payload, 8)))
    requires At(w, payload, s.clients, s', 11, 2, Unregistering(UnregisterAt(11)))
    ensures Reachable(w, s') && AboutToLose(s') && DrawnBefore(11, s'.st)
  {
    hide Reachable;
    assert s'.st.db == Stored(w, payload).db;
  }

  lemma PushStarts(w: World, payload: Bytes)
    requires w.parse(payload).Some?
    ensures Starting(Pushing(PushAt(w, payload, 3)))
  {}

  lemma UnregisterStarts()
    ensures Starting(Unregistering(UnregisterAt(8)))
  {}

  lemma PushUpToItsNumber(w: World, payload: Bytes, s: State) returns (s': State)
    requires w.parse(payload).Some?
    requires Reachable(w, s) && StoredWith(w, payload, s.st) && DrawnBefore(3, s.st) && s.clients.Keys == {0}
    ensures At(w, payload, s.clients, s', 8, 1, Pushing(PushAt(w, payload, 8)))
  {
    hide *;
    PushStarts(w, payload);
    s' := Begin(w, payload, s, 3, 1, Pushing(PushAt(w, payload, 3)));
    s' := PushFar(w, payload, s.clients, s', 3);
  }

  lemma UnregisterUpToItsDelete(w: World, payload: Bytes, s: State) returns (s': State)
    requires Reachable(w, s) && StoredWith(w, payload, s.st) && DrawnBefore(8, s.st) && 2 !in s.clients
    ensures At(w, payload, s.clients, s', 11, 2, Unregistering(UnregisterAt(11)))
  {
    hide *;
    UnregisterStarts();
    s' := Begin(w, payload, s, 8, 2, Unregistering(UnregisterAt(8)));
    s' := UnregisterFar(w, payload, s.clients, s', 8);
  }

  /** For any archive parser that accepts some payload, an empty registry gets to a state where the
      pusher has computed its number and the unregisterer has seen an empty revision list. */
  lemma PushCanBeLost(w: World, payload: Bytes) returns (s: State)
    requires w.parse(payload).Some?
    ensures Reachable(w, s) && AboutToLose(s) && DrawnBefore(11, s.st)
  {
    hide *;
    var s0 := UploadFirst(w, payload);
    var s1 := PushUpToItsNumber(w, payload, s0);
    AtParts(w, payload, s0.clients, s1, 8, 1, Pushing(PushAt(w, payload, 8)));
    s := UnregisterUpToItsDelete(w, payload, s1);
    Ready(w, payload, s0.clients, s1, s);
  }

  lemma Awake(s: State, k: nat, c: ClientId, now: Time)
    requires DrawnBefore(k, s.st) && c in s.clients
    ensures Enabled(s, Act(c, Tick(k), "", now)) && Enabled(s, Act(c, Tick(k + 1), "", now))
  {}

  lemma Losers(s: State)
    requires AboutToLose(s)
    ensures 1 in s.clients && s.clients[1].Pusher? && s.clients[1].push.PushCreate? && 2 in s.clients
    ensures s.clients[2].Unregisterer? && s.clients[2].unreg.UnregisterDelete?
    ensures s.clients[1].push.pkg == s.clients[2].unreg.pkg && s.clients[1].push.pkg.id in s.st.db.packages
    ensures (s.clients[1].push.pkg.id, s.clients[1].push.n) !in s.st.db.revisions
  {}

  /** A legal run from an empty registry: after all its events but the last, a revision is stored; the
      last event deletes it together with its package. */
  lemma RevisionVanishes(w: World, payload: Bytes) returns (events: seq<Event>, last: Event, p: Id, n: int)
    requires w.parse(payload).Some?
    ensures Legal(w, INITIAL, events + [last])
    ensures Run(w, INITIAL, events + [last]) == Step(w, Run(w, INITIAL, events), last)
    ensures Sql.GetRevisionByNumber(Run(w, INITIAL, events).st.db, p, n).Some?
    ensures Sql.GetRevisionByNumber(Run(w, INITIAL, events + [last]).st.db, p, n).None?
    ensures p !in Run(w, INITIAL, events + [last]).st.db.packages
  {
    hide AboutToLose, DrawnBefore, Tick, Enabled, Step, Legal, Run, Sql.GetRevisionByNumber;
    var s := PushCanBeLost(w, payload);
    var earlier :| Legal(w, INITIAL, earlier) && s == Run(w, INITIAL, earlier);
    Losers(s);
    Awake(s, 11, 1, 1);
    Awake(s, 11, 2, 1);
    var push := Act(1, Tick(11), "", 1);
    last := Act(2, Tick(12), "", 1);
    p, n := s.clients[1].push.pkg.id, s.clients[1].push.n;
    UnregisterLosesPush(w, s, 1, 2, Tick(11), Tick(12), 1);
    RunAppend(w, INITIAL, earlier, push);
    events := earlier + [push];
    RunAppend(w, INITIAL, events, last);
  }
}
