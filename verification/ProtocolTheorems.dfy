/** What holds in every interleaving, from an empty registry on. */
module ProtocolTheorems {
  import opened Core
  import opened Invariants
  import opened Protocol
  import opened ProtocolInvariant
  import opened ProtocolSteps
  import opened Repository
  import Sql = Tables
  import C = Calls

  lemma {:induction false} RunKeepsInv(w: World, s: State, events: seq<Event>)
    requires Inv(w, s) && Legal(w, s, events)
    ensures Inv(w, Run(w, s, events)) && StoreEvolves(s.st, Run(w, s, events).st)
    decreases |events|
  {
    if events == [] {
      StoreEvolvesRefl(s.st);
    } else {
      StepKeepsInv(w, s, events[0]);
      RunKeepsInv(w, Step(w, s, events[0]), events[1..]);
      StoreEvolvesTrans(w, s.st, Step(w, s, events[0]).st, Run(w, s, events).st);
    }
  }

  lemma InitialInv(w: World)
    ensures Inv(w, INITIAL)
  {}

  ghost predicate Reachable(w: World, s: State) {
    exists events :: Legal(w, INITIAL, events) && s == Run(w, INITIAL, events)
  }

  lemma ReachableInv(w: World, s: State)
    requires Reachable(w, s)
    ensures Inv(w, s)
  {
    var events :| Legal(w, INITIAL, events) && s == Run(w, INITIAL, events);
    InitialInv(w);
    RunKeepsInv(w, INITIAL, events);
  }

  lemma {:induction false} RunAppend(w: World, s: State, events: seq<Event>, e: Event)
    requires Legal(w, s, events) && Enabled(Run(w, s, events), e)
    ensures Legal(w, s, events + [e]) && Run(w, s, events + [e]) == Step(w, Run(w, s, events), e)
    decreases |events|
  {
    hide Step, Enabled;
    if events == [] {
      assert (events + [e])[1..] == [];
    } else {
      assert (events + [e])[1..] == events[1..] + [e];
      RunAppend(w, Step(w, s, events[0]), events[1..], e);
    }
  }

  lemma ReachStep(w: World, s: State, e: Event)
    requires Reachable(w, s) && Enabled(s, e)
    ensures Reachable(w, Step(w, s, e))
  {
    var events :| Legal(w, INITIAL, events) && s == Run(w, INITIAL, events);
    RunAppend(w, INITIAL, events, e);
  }

  // ---------- numbering ----------

  function OneTo(n: nat): (s: set<int>)
    ensures forall i :: i in s <==> 1 <= i <= n
    ensures |s| == n
  {
    if n == 0 then {} else OneTo(n - 1) + {n}
  }

  /** A finite set that holds, with each member, every positive number below it. */
  lemma DenseSet(s: set<int>)
    requires forall n | n in s :: n >= 1
    requires forall n, j | n in s && 1 <= j < n :: j in s
    ensures s == OneTo(|s|)
  {
    if s != {} {
      assert s == OneTo(Sql.Largest(s));
    } else {
      assert OneTo(0) == {};
    }
  }

  /** Each package's revision numbers are exactly 1..n: no gap, no duplicate, whoever raced. */
  lemma RevisionNumbersDense(w: World, s: State, p: Id)
    requires Reachable(w, s)
    ensures var numbers := Sql.Numbers(s.st.db, p);
      numbers == OneTo(|numbers|) && (numbers != {} ==> p in s.st.db.packages)
  {
    ReachableInv(w, s);
    var t := s.st.db;
    forall n | n in Sql.Numbers(t, p) ensures Follows(t.revisions, p, n) {
      assert (p, n) in t.revisions;
    }
    DenseSet(Sql.Numbers(t, p));
  }

  lemma ResourceNumbersDense(w: World, s: State, d: Id)
    requires Reachable(w, s)
    ensures var numbers := Sql.ResourceNumbers(s.st.db, d);
      numbers == OneTo(|numbers|) && (numbers != {} ==> Sql.DefinitionId(s.st.db.defs, d))
  {
    ReachableInv(w, s);
    var t := s.st.db;
    forall n | n in Sql.ResourceNumbers(t, d) ensures Follows(t.resourceRevs, d, n) {
      assert (d, n) in t.resourceRevs;
    }
    DenseSet(Sql.ResourceNumbers(t, d));
  }

  // ---------- the race for a number ----------

  lemma RowIdFree(w: World, s: State, id: Id)
    requires Inv(w, s) && id !in s.st.drawn
    ensures forall k | k in s.st.db.revisions :: s.st.db.revisions[k].id != id
  {
    hide Consistent, UploadsIntact, ResourcesIntact, Knows, CharmIntact;
    forall k | k in s.st.db.revisions ensures s.st.db.revisions[k].id != id {
      assert HasOrigin(s.st.db.revisions[k].id, s.st.origin, s.st.payloads);
    }
  }

  /** A client about to insert wins exactly when its package is alive and its number is still
      free. The winner adds one row; the loser fails and the database is left as it was. */
  lemma PushRace(w: World, s: State, c: ClientId, id: Id, pick: string, now: Time)
    requires Reachable(w, s) && Enabled(s, Act(c, id, pick, now))
    requires s.clients[c].Pusher? && s.clients[c].push.PushCreate?
    ensures var pc := s.clients[c].push;
      var s' := Step(w, s, Act(c, id, pick, now));
      var row := C.NewRevision(pc.pkg.id, s.clients[c].who, pc.up, pc.archive, pc.n, id, now);
      if pc.pkg.id in s.st.db.packages && (pc.pkg.id, pc.n) !in s.st.db.revisions
      then s'.clients[c].push == PushApprove(pc.pkg, pc.up, pc.archive, pc.n, id)
           && s'.st.db == s.st.db.(revisions := s.st.db.revisions[(pc.pkg.id, pc.n) := row])
      else s'.clients[c].push.PushFailed? && s'.st.db == s.st.db
  {
    hide Reachable, Inv, StepResource, StepRelease, StepUnregister, StepUpload, StepUpdate;
    ReachableInv(w, s);
    RowIdFree(w, s, id);
  }

  /** The row a pushing client has created. */
  function Created(c: Client): Option<(Id, int, Id)> {
    if !c.Pusher? then None
    else
      match c.push
      case PushApprove(pkg, _, _, n, row) => Some((pkg.id, n, row))
      case PushPublish(pkg, _, _, n, row) => Some((pkg.id, n, row))
      case PushDefine(pkg, _, n, row, _) => Some((pkg.id, n, row))
      case PushDone(pkg, _, n, row) => Some((pkg.id, n, row))
      case _ => None
  }

  /** Creators of revisions of one package have different numbers. */
  ghost predicate NumbersApart(s: State) {
    forall c, d | c in s.clients && d in s.clients && c != d
                  && Created(s.clients[c]).Some? && Created(s.clients[d]).Some?
                  && Created(s.clients[c]).value.0 == Created(s.clients[d]).value.0 ::
      Created(s.clients[c]).value.1 != Created(s.clients[d]).value.1
  }

  /** What a client has created it had created before, or its package is alive and the number was
      still free when this event began. */
  lemma CreatedStep(w: World, s: State, e: Event, c: ClientId)
    requires Enabled(s, e) && c in Step(w, s, e).clients && Created(Step(w, s, e).clients[c]).Some?
    ensures var made := Created(Step(w, s, e).clients[c]);
      || (c in s.clients && made == Created(s.clients[c]))
      || (e.Act? && e.c == c && made.value.0 in s.st.db.packages && (made.value.0, made.value.1) !in s.st.db.revisions)
  {
    hide StepResource, StepRelease, StepUnregister, StepUpload, StepUpdate, StepStore;
  }

  lemma CreatedStored(w: World, s: State, c: ClientId)
    requires Inv(w, s) && c in s.clients && Created(s.clients[c]).Some?
    ensures var made := Created(s.clients[c]).value;
      made.0 in s.st.db.packages ==>
        (made.0, made.1) in s.st.db.revisions && s.st.db.revisions[(made.0, made.1)].id == made.2
  {
    hide StoreOk;
    assert Knows(w, s.st, s.clients[c]);
  }

  lemma StepKeepsApart(w: World, s: State, e: Event)
    requires Inv(w, s) && Enabled(s, e) && NumbersApart(s)
    ensures NumbersApart(Step(w, s, e))
  {
    hide Inv, Step, Created, Enabled;
    var s' := Step(w, s, e);
    forall c, d | c in s'.clients && d in s'.clients && c != d
                  && Created(s'.clients[c]).Some? && Created(s'.clients[d]).Some?
                  && Created(s'.clients[c]).value.0 == Created(s'.clients[d]).value.0
      ensures Created(s'.clients[c]).value.1 != Created(s'.clients[d]).value.1
    {
      CreatedStep(w, s, e, c);
      CreatedStep(w, s, e, d);
      if c in s.clients && Created(s.clients[c]).Some? { CreatedStored(w, s, c); }
      if d in s.clients && Created(s.clients[d]).Some? { CreatedStored(w, s, d); }
    }
  }

  lemma {:induction false} RunKeepsApart(w: World, s: State, events: seq<Event>)
    requires Inv(w, s) && NumbersApart(s) && Legal(w, s, events)
    ensures NumbersApart(Run(w, s, events))
    decreases |events|
  {
    if events != [] {
      StepKeepsInv(w, s, events[0]);
      StepKeepsApart(w, s, events[0]);
      RunKeepsApart(w, Step(w, s, events[0]), events[1..]);
    }
  }

  /** Two clients that both got their revision in never got the same number, whatever has become of
      the package since. */
  lemma WinnersGetDistinctNumbers(w: World, s: State, c: ClientId, d: ClientId)
    requires Reachable(w, s) && c in s.clients && d in s.clients && c != d
    requires Created(s.clients[c]).Some? && Created(s.clients[d]).Some?
    requires Created(s.clients[c]).value.0 == Created(s.clients[d]).value.0
    ensures Created(s.clients[c]).value.1 != Created(s.clients[d]).value.1
  {
    hide Inv, Created, Legal, Run;
    var events :| Legal(w, INITIAL, events) && s == Run(w, INITIAL, events);
    InitialInv(w);
    RunKeepsApart(w, INITIAL, events);
  }

  // ---------- releases ----------

  /** No release row dangles, although no foreign key links it to a revision. */
  lemma NoReleaseDangles(w: World, s: State, p: Id, channel: string)
    requires Reachable(w, s) && Sql.ResolveRelease(s.st.db, p, channel).Some?
    ensures Sql.GetRevisionByNumber(s.st.db, p, Sql.ResolveRelease(s.st.db, p, channel).value.revision).Some?
    ensures p in s.st.db.packages
  {
    ReachableInv(w, s);
    assert (p, channel) in s.st.db.releases;
  }

  // ---------- permanence ----------

  /** Across any further events: while the package lives, a revision number stands for the same
      row, a definition keeps its id, a resource number stands for the same artefact, and a channel
      keeps resolving; and a package that has died never comes back. */
  lemma StoredForGood(w: World, s: State, events: seq<Event>, p: Id)
    requires Reachable(w, s) && Legal(w, s, events) && p in s.st.db.packages
    ensures var t, u := s.st.db, Run(w, s, events).st.db;
      p in u.packages ==>
        && (forall n :: Sql.GetRevisionByNumber(t, p, n).Some? ==>
              Sql.GetRevisionByNumber(u, p, n) == Sql.GetRevisionByNumber(t, p, n))
        && (forall name :: Sql.GetDefinition(t, p, name).Some? ==>
              Sql.GetDefinition(u, p, name).Some?
              && Sql.GetDefinition(u, p, name).value.id == Sql.GetDefinition(t, p, name).value.id)
        && (forall channel :: Sql.ResolveRelease(t, p, channel).Some? ==> Sql.ResolveRelease(u, p, channel).Some?)
  {
    hide StoreOk;
    ReachableInv(w, s);
    RunKeepsInv(w, s, events);
  }

  lemma ResourceStoredForGood(w: World, s: State, events: seq<Event>, p: Id, name: string, n: int)
    requires Reachable(w, s) && Legal(w, s, events)
    requires p in s.st.db.packages && p in Run(w, s, events).st.db.packages
    requires Sql.GetDefinition(s.st.db, p, name).Some?
    requires Sql.GetResourceRevision(s.st.db, Sql.GetDefinition(s.st.db, p, name).value.id, n).Some?
    ensures var t, u := s.st.db, Run(w, s, events).st.db;
      && Sql.GetDefinition(u, p, name).Some?
      && var d := Sql.GetDefinition(u, p, name).value.id;
         d == Sql.GetDefinition(t, p, name).value.id
         && Sql.GetResourceRevision(u, d, n).Some?
         && SameArtefact(Sql.GetResourceRevision(t, d, n).value, Sql.GetResourceRevision(u, d, n).value)
  {
    hide StoreOk;
    ReachableInv(w, s);
    RunKeepsInv(w, s, events);
  }

  lemma DeadStaysDead(w: World, s: State, events: seq<Event>, p: Id)
    requires Reachable(w, s) && Legal(w, s, events) && p in s.st.drawn && p !in s.st.db.packages
    ensures p !in Run(w, s, events).st.db.packages
  {
    ReachableInv(w, s);
    RunKeepsInv(w, s, events);
  }

  /** The two steps that lose a revision: a push inserts it, then a client that had seen none deletes the
      package. When such a delete loses one, and when not, is in Unregistration.dfy. */
  lemma UnregisterLosesPush(w: World, s: State, a: ClientId, b: ClientId, id1: Id, id2: Id, now: Time)
    requires Reachable(w, s) && a != b
    requires Enabled(s, Act(a, id1, "", now)) && Enabled(s, Act(b, id2, "", now)) && id1 != id2
    requires s.clients[a].Pusher? && s.clients[a].push.PushCreate?
    requires s.clients[b].Unregisterer? && s.clients[b].unreg.UnregisterDelete?
    requires s.clients[a].push.pkg == s.clients[b].unreg.pkg && s.clients[a].push.pkg.id in s.st.db.packages
    requires (s.clients[a].push.pkg.id, s.clients[a].push.n) !in s.st.db.revisions
    ensures var p, n := s.clients[a].push.pkg.id, s.clients[a].push.n;
      var pushed := Step(w, s, Act(a, id1, "", now));
      var s' := Step(w, pushed, Act(b, id2, "", now));
      && Enabled(pushed, Act(b, id2, "", now))
      && Sql.GetRevisionByNumber(pushed.st.db, p, n).Some?
      && s'.clients[b].unreg == UnregisterDone(p)
      && p !in s'.st.db.packages && Sql.GetRevisionByNumber(s'.st.db, p, n).None?
  {
    PushRace(w, s, a, id1, "", now);
  }

  // ---------- artefacts ----------

  lemma VisibleIsStored(w: World, st: Store, who: Identity, p: Id)
    requires StoreOk(w, st) && C.Visible(Postgres(st.db), who, p).Ok?
    ensures C.Visible(Postgres(st.db), who, p).value.id == p
  {}

  lemma CharmStored(w: World, st: Store, p: Id, n: int)
    requires StoreOk(w, st) && (p, n) in st.db.revisions
    ensures var rev := st.db.revisions[(p, n)];
      && HasOrigin(rev.id, st.origin, st.payloads)
      && CharmIntact(w, rev, st.blobs, st.payloads[st.origin[rev.id]])
  {
    hide Consistent, UploadsIntact, ResourcesIntact;
  }

  lemma ResourceStored(w: World, st: Store, k: (Id, int))
    requires StoreOk(w, st) && k in st.db.resourceRevs
    ensures var row := st.db.resourceRevs[k];
      && HasOrigin(row.id, st.origin, st.payloads)
      && ResourceIntact(w, row, st.blobs, st.payloads[st.origin[row.id]])
  {
    hide Consistent, UploadsIntact, CharmsIntact;
  }

  /** Downloading a stored charm revision gives the bytes of the upload it was pushed from, and the
      recorded size and hashes are theirs. */
  lemma DownloadCharmIsUpload(w: World, s: State, who: Identity, p: Id, n: int)
    requires Reachable(w, s) && (p, n) in s.st.db.revisions
    requires C.Visible(Postgres(s.st.db), who, p).Ok?
    ensures var rev := s.st.db.revisions[(p, n)];
      && rev.id in s.st.origin && s.st.origin[rev.id] in s.st.payloads
      && var bytes := s.st.payloads[s.st.origin[rev.id]];
         C.DownloadCharm(Postgres(s.st.db), s.st.blobs, who, p, n) == Ok(bytes)
         && rev.size == |bytes| && rev.sha256 == w.sha256(bytes) && rev.sha384 == w.sha384(bytes)
  {
    hide Reachable, StoreOk, C.Visible;
    ReachableInv(w, s);
    VisibleIsStored(w, s.st, who, p);
    CharmStored(w, s.st, p, n);
  }

  /** The same for a resource revision, whether its bytes are in the blob store or in the row. */
  lemma DownloadResourceIsUpload(w: World, s: State, who: Identity, p: Id, name: string, n: int)
    requires Reachable(w, s) && (p, name) in s.st.db.defs && (s.st.db.defs[(p, name)].id, n) in s.st.db.resourceRevs
    requires C.Visible(Postgres(s.st.db), who, p).Ok?
    ensures var row := s.st.db.resourceRevs[(s.st.db.defs[(p, name)].id, n)];
      && row.id in s.st.origin && s.st.origin[row.id] in s.st.payloads
      && var bytes := s.st.payloads[s.st.origin[row.id]];
         C.DownloadResource(Postgres(s.st.db), s.st.blobs, who, p, name, n) == Ok(bytes)
         && row.size == |bytes| && row.sha256 == w.sha256(bytes) && row.sha384 == w.sha384(bytes)
         && row.sha512 == w.sha512(bytes) && row.sha3384 == w.sha384(bytes)
  {
    hide Reachable, StoreOk, C.Visible;
    ReachableInv(w, s);
    VisibleIsStored(w, s.st, who, p);
    ResourceStored(w, s.st, (s.st.db.defs[(p, name)].id, n));
  }
}
