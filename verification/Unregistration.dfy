/** Exactly when an unregistration destroys a revision. Between the moment it sees an empty revision list
    and its delete anything may happen; a stored revision is lost if and only if the package still
    lives then and some push has stored a revision of it in between. */
module Unregistration {
  import opened Access
  import opened Core
  import opened Invariants
  import opened Protocol
  import opened ProtocolInvariant
  import opened ProtocolSteps
  import opened ProtocolTheorems
  import Sql = Tables
  import C = Calls

  /** The event is the insert of a push on package `p` whose number is free. */
  predicate StoresRevision(s: State, e: Event, p: Id) {
    && e.Act? && e.c in s.clients && s.clients[e.c].Pusher? && s.clients[e.c].push.PushCreate?
    && s.clients[e.c].push.pkg.id == p && p in s.st.db.packages
    && (p, s.clients[e.c].push.n) !in s.st.db.revisions
  }

  predicate StoredDuring(w: World, s: State, events: seq<Event>, p: Id)
    decreases |events|
  {
    events != [] && (StoresRevision(s, events[0], p) || StoredDuring(w, Step(w, s, events[0]), events[1..], p))
  }

  // ---------- one event ----------

  /** Every row of `p` was there before. */
  ghost predicate NoneAdded(t: Sql.Tables, u: Sql.Tables, p: Id) {
    forall n | (p, n) in u.revisions :: (p, n) in t.revisions
  }

  lemma PushCreateAdds(w: World, st: Store, who: Identity, name: string, uploadId: Id, pc: PushPc, id: Id, pick: string,
                       now: Time, p: Id)
    requires pc.PushCreate?
    ensures var u := StepPush(w, st, who, name, uploadId, pc, id, pick, now).0.db;
      NoneAdded(st.db, u, p) || (pc.pkg.id == p && p in st.db.packages && (p, pc.n) !in st.db.revisions)
  {}

  lemma PushKeeps(w: World, st: Store, who: Identity, name: string, uploadId: Id, pc: PushPc, id: Id, pick: string,
                  now: Time)
    requires !pc.PushCreate?
    ensures StepPush(w, st, who, name, uploadId, pc, id, pick, now).0.db.revisions == st.db.revisions
  {
    hide FirstRead, AclRead;
    match pc {
      case PushApprove(_, up, _, n, _) => ReviewKeeps(st.db, up.id, Some(n), [], now);
      case PushReject(up) => ReviewKeeps(st.db, up.id, None, [C.INVALID_ARCHIVE], now);
      case PushPublish(pkg, _, archive, _, _) => EditKeeps(st.db, C.Published(w, pkg, archive, now));
      case PushDefine(pkg, _, _, _, todo) =>
        if pick in todo { DefineKeeps(st.db, C.Definition(pkg.id, pick, todo[pick], id, now)); }
      case _ =>
    }
    hide Sql.ApproveUpload, Sql.UpdatePackage, Sql.UpsertDefinition, C.Published, C.Definition, Sql.GetLatestRevision;
  }

  lemma ReviewKeeps(t: Sql.Tables, u: Id, n: Option<int>, errors: seq<string>, now: Time)
    ensures Sql.ApproveUpload(t, u, n, errors, now).0.revisions == t.revisions
  {}

  lemma EditKeeps(t: Sql.Tables, pkg: Package)
    ensures Sql.UpdatePackage(t, pkg).0.revisions == t.revisions
  {}

  lemma DefineKeeps(t: Sql.Tables, d: ResourceDefinition)
    ensures Sql.UpsertDefinition(t, d).0.revisions == t.revisions
  {
    hide Sql.DefinitionId;
  }

  lemma ReplaceKeeps(t: Sql.Tables, p: Id, r: Release)
    ensures Sql.ReplaceRelease(t, p, r).0.revisions == t.revisions
  {}

  lemma PushAdds(w: World, st: Store, who: Identity, name: string, uploadId: Id, pc: PushPc, id: Id, pick: string,
                 now: Time, p: Id)
    ensures var u := StepPush(w, st, who, name, uploadId, pc, id, pick, now).0.db;
      NoneAdded(st.db, u, p)
      || (pc.PushCreate? && pc.pkg.id == p && p in st.db.packages && (p, pc.n) !in st.db.revisions)
  {
    hide StepPush;
    if pc.PushCreate? {
      PushCreateAdds(w, st, who, name, uploadId, pc, id, pick, now, p);
    } else {
      PushKeeps(w, st, who, name, uploadId, pc, id, pick, now);
    }
  }

  lemma ResourceAdds(w: World, st: Store, who: Identity, name: string, resource: string, request: C.ResourcePush,
                     pc: ResourcePc, id: Id, now: Time)
    ensures StepResource(w, st, who, name, resource, request, pc, id, now).0.db.revisions == st.db.revisions
  {
    hide FirstRead, AclRead;
    match pc {
      case ResourceApprove(_, up, n, _) => ReviewKeeps(st.db, up.id, Some(n), [], now);
      case _ =>
    }
    hide Sql.ApproveUpload, C.NewResourceRevision, Sql.DefinitionId, Sql.FirstResourceRevision;
  }

  lemma ReleaseAdds(st: Store, who: Identity, name: string, requests: seq<Release>, pc: ReleasePc, id: Id, now: Time)
    ensures StepRelease(st, who, name, requests, pc, id, now).0.db.revisions == st.db.revisions
  {
    hide FirstRead, AclRead, EnforceChannel;
    match pc {
      case ReleaseStore(pkg, i) =>
        if i < |requests| { ReplaceKeeps(st.db, pkg.id, C.StampRelease(requests[i], id, now)); }
      case ReleasePublish(pkg) => EditKeeps(st.db, pkg.(status := "published", updatedAt := now));
      case _ =>
    }
    hide Sql.ReplaceRelease, Sql.UpdatePackage, C.StampRelease;
  }

  lemma UnregisterAdds(st: Store, who: Identity, name: string, pc: UnregisterPc, p: Id)
    ensures NoneAdded(st.db, StepUnregister(st, who, name, pc).0.db, p)
  {
    hide FirstRead, AclRead;
  }

  lemma UploadAdds(w: World, st: Store, filename: string, payload: Bytes, pc: UploadPc, id: Id, now: Time)
    ensures StepUpload(w, st, filename, payload, pc, id, now).0.db.revisions == st.db.revisions
  {}

  lemma UpdateAdds(st: Store, who: Identity, name: string, resource: string, updates: seq<C.ResourceUpdate>,
                   pc: UpdatePc)
    ensures StepUpdate(st, who, name, resource, updates, pc).0.db.revisions == st.db.revisions
  {
    hide FirstRead, AclRead;
  }

  lemma ClientAdds(w: World, st: Store, c: Client, id: Id, pick: string, now: Time, p: Id)
    ensures NoneAdded(st.db, StepClient(w, st, c, id, pick, now).0.db, p)
            || (c.Pusher? && c.push.PushCreate? && c.push.pkg.id == p && p in st.db.packages
                && (p, c.push.n) !in st.db.revisions)
  {
    hide StepPush, StepResource, StepRelease, StepUnregister, StepUpload, StepUpdate;
    match c {
      case Pusher(who, name, uploadId, pc) => PushAdds(w, st, who, name, uploadId, pc, id, pick, now, p);
      case ResourcePusher(who, name, resource, request, pc) =>
        ResourceAdds(w, st, who, name, resource, request, pc, id, now);
      case Releaser(who, name, requests, pc) => ReleaseAdds(st, who, name, requests, pc, id, now);
      case Unregisterer(who, name, pc) => UnregisterAdds(st, who, name, pc, p);
      case Uploader(filename, payload, pc) => UploadAdds(w, st, filename, payload, pc, id, now);
      case Updater(who, name, resource, updates, pc) => UpdateAdds(st, who, name, resource, updates, pc);
    }
  }

  /** Nothing but such an insert adds a revision of `p`. */
  lemma OnlyPushesStore(w: World, s: State, e: Event, p: Id)
    requires Enabled(s, e) && !StoresRevision(s, e, p)
    ensures NoneAdded(s.st.db, Step(w, s, e).st.db, p)
  {
    hide StepClient;
    if e.Act? {
      ActStore(w, s, e.c, e.newId, e.pick, e.now);
      ClientAdds(w, s.st, s.clients[e.c], e.newId, e.pick, e.now, p);
    }
  }

  /** And such an insert does. */
  lemma PushStores(w: World, s: State, e: Event, p: Id)
    requires Reachable(w, s) && Enabled(s, e) && StoresRevision(s, e, p)
    ensures Sql.Numbers(Step(w, s, e).st.db, p) != {}
  {
    hide Reachable, Enabled;
    PushRace(w, s, e.c, e.newId, e.pick, e.now);
    assert s.clients[e.c].push.n in Sql.Numbers(Step(w, s, e).st.db, p);
  }

  // ---------- whole runs ----------

  lemma NumbersLast(w: World, s: State, events: seq<Event>, p: Id)
    requires Reachable(w, s) && Legal(w, s, events)
    requires Sql.Numbers(s.st.db, p) != {} && p in Run(w, s, events).st.db.packages
    ensures Sql.Numbers(Run(w, s, events).st.db, p) != {}
  {
    hide Reachable, Legal, Run;
    RevisionNumbersDense(w, s, p);
    StoredForGood(w, s, events, p);
    var n := Sql.Largest(Sql.Numbers(s.st.db, p));
    assert Sql.GetRevisionByNumber(s.st.db, p, n).Some?;
    assert n in Sql.Numbers(Run(w, s, events).st.db, p);
  }

  lemma EmptyStays(t: Sql.Tables, u: Sql.Tables, p: Id)
    requires NoneAdded(t, u, p) && Sql.Numbers(t, p) == {}
    ensures Sql.Numbers(u, p) == {}
  {
    assert forall n :: n in Sql.Numbers(u, p) ==> n in Sql.Numbers(t, p);
  }

  /** After any run a package has revisions exactly when it lives and had some before, or some push
      stored one on the way. */
  lemma {:induction false} HasRevisionsExactly(w: World, s: State, events: seq<Event>, p: Id)
    requires Reachable(w, s) && Legal(w, s, events)
    ensures var u := Run(w, s, events).st.db;
      Sql.Numbers(u, p) != {}
      <==> p in u.packages && (Sql.Numbers(s.st.db, p) != {} || StoredDuring(w, s, events, p))
    decreases |events|
  {
    hide Reachable, Step, Enabled, StoresRevision, Sql.Numbers;
    if events == [] {
      RevisionNumbersDense(w, s, p);
    } else {
      var e := events[0];
      var s1 := Step(w, s, e);
      ReachStep(w, s, e);
      HasRevisionsExactly(w, s1, events[1..], p);
      if Sql.Numbers(s.st.db, p) != {} {
        if p in Run(w, s, events).st.db.packages {
          NumbersLast(w, s, events, p);
        }
      } else if StoresRevision(s, e, p) {
        PushStores(w, s, e, p);
      } else {
        OnlyPushesStore(w, s, e, p);
        EmptyStays(s.st.db, s1.st.db, p);
      }
    }
  }

  // ---------- the unregistration ----------

  /** Client `b` neither moves nor crashes. */
  predicate Bystander(b: ClientId, events: seq<Event>) {
    forall i | 0 <= i < |events| :: !(events[i].Act? && events[i].c == b) && !(events[i].Crash? && events[i].c == b)
  }

  lemma {:induction false} BystanderStays(w: World, s: State, events: seq<Event>, b: ClientId)
    requires Legal(w, s, events) && b in s.clients && Bystander(b, events)
    ensures b in Run(w, s, events).clients && Run(w, s, events).clients[b] == s.clients[b]
    decreases |events|
  {
    hide StepStore, StepClient;
    if events != [] {
      assert forall i | 0 <= i < |events[1..]| :: events[1..][i] == events[i + 1];
      BystanderStays(w, Step(w, s, events[0]), events[1..], b);
    }
  }

  /** The check: the client goes on to its delete exactly when it sees no revision. */
  lemma UnregisterChecks(w: World, s: State, b: ClientId, id: Id, pick: string, now: Time)
    requires Enabled(s, Act(b, id, pick, now)) && s.clients[b].Unregisterer? && s.clients[b].unreg.UnregisterList?
    ensures var s' := Step(w, s, Act(b, id, pick, now));
      && s'.st.db == s.st.db
      && (s'.clients[b].unreg == UnregisterDelete(s.clients[b].unreg.pkg)
          <==> Sql.Numbers(s.st.db, s.clients[b].unreg.pkg.id) == {})
  {
    hide StepPush, StepResource, StepRelease, StepUpload, StepUpdate;
  }

  /** Some stored revision of `p` is gone. */
  ghost predicate LosesRevision(t: Sql.Tables, u: Sql.Tables, p: Id) {
    exists n :: Sql.GetRevisionByNumber(t, p, n).Some? && Sql.GetRevisionByNumber(u, p, n).None?
  }

  lemma DeleteLoses(t: Sql.Tables, p: Id)
    ensures LosesRevision(t, Sql.DeletePackage(t, p).0, p) <==> p in t.packages && Sql.Numbers(t, p) != {}
    ensures forall q | q != p :: !LosesRevision(t, Sql.DeletePackage(t, p).0, q)
  {
    if p in t.packages && Sql.Numbers(t, p) != {} {
      var n := Sql.Largest(Sql.Numbers(t, p));
      assert Sql.GetRevisionByNumber(t, p, n).Some? && Sql.GetRevisionByNumber(Sql.DeletePackage(t, p).0, p, n).None?;
    }
    if LosesRevision(t, Sql.DeletePackage(t, p).0, p) {
      var n :| Sql.GetRevisionByNumber(t, p, n).Some? && Sql.GetRevisionByNumber(Sql.DeletePackage(t, p).0, p, n).None?;
      assert n in Sql.Numbers(t, p);
    }
  }

  lemma DeleteStep(w: World, s: State, b: ClientId, id: Id, pick: string, now: Time)
    requires b in s.clients && s.clients[b].Unregisterer? && s.clients[b].unreg.UnregisterDelete?
    ensures Step(w, s, Act(b, id, pick, now)).st.db == Sql.DeletePackage(s.st.db, s.clients[b].unreg.pkg.id).0
  {
    hide StepPush, StepResource, StepRelease, StepUpload, StepUpdate;
  }

  /** Client `b` has seen an empty revision list and is about to delete; then others run. Its delete
      destroys a stored revision of its package if and only if the package still lives and one of the
      others has stored a revision of it since; it never destroys one of another package. */
  lemma UnregisterLosesExactly(w: World, s: State, events: seq<Event>, b: ClientId, id: Id, pick: string, now: Time)
    requires Reachable(w, s) && b in s.clients && s.clients[b].Unregisterer? && s.clients[b].unreg.UnregisterDelete?
    requires Sql.Numbers(s.st.db, s.clients[b].unreg.pkg.id) == {}
    requires Legal(w, s, events) && Bystander(b, events) && Enabled(Run(w, s, events), Act(b, id, pick, now))
    ensures var p := s.clients[b].unreg.pkg.id;
      var before := Run(w, s, events);
      var after := Step(w, before, Act(b, id, pick, now));
      && (LosesRevision(before.st.db, after.st.db, p)
          <==> p in before.st.db.packages && StoredDuring(w, s, events, p))
      && (forall q | q != p :: !LosesRevision(before.st.db, after.st.db, q))
  {
    hide Reachable, Legal, Run, Step, StoredDuring, LosesRevision, Enabled, Bystander, Sql.DeletePackage, Sql.Numbers;
    var p := s.clients[b].unreg.pkg.id;
    BystanderStays(w, s, events, b);
    HasRevisionsExactly(w, s, events, p);
    DeleteStep(w, Run(w, s, events), b, id, pick, now);
    DeleteLoses(Run(w, s, events).st.db, p);
  }
}
