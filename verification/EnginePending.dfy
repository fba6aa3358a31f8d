/** No new snapshot is forgotten: one that is pending is on its way through the reconciler until it
    has been handed to the pool or failed. */
module EnginePending {
  import opened Options
  import opened Snapshots
  import opened Versioned
  import opened Engine
  import opened EngineInvariants
  import opened EngineEffects
  import opened EngineFull
  import opened EngineHistory
  import opened EngineNotify
  import opened EngineOnce
  import opened EngineRecovery
  import opened EngineStopped
  import opened EngineTheorems

  /** Pending, not handed to the pool since the start, and not given up. */
  predicate Untaken(s: State, id: Id) {
    && id in s.snaps && s.snaps[id].spec.phase.Pending? && s.snaps[id].spec.backup in s.backups
    && id !in s.submitted && id !in s.unfixed
  }

  /** The worker holds the key in a way that ends in the pool, or in a Failed write. */
  predicate Handled(s: State, id: Id) {
    match s.worker
    case Taken(k) => k == id
    case Read(k, obj) => k == id && obj.spec.phase.Pending?
    case Ready(k, obj) => k == id && obj.spec.phase.Pending?
    case Fixing(k) => k == id
    case FixWriting(w) => w.id == id
    case _ => false
  }

  ghost predicate PendingInv(s: State) {
    forall id :: Untaken(s, id) ==> id in s.queue || Undelivered(s, id) || Handled(s, id)
  }

  lemma StillUndelivered(s: State, t: State, id: Id)
    requires s.events <= t.events && Undelivered(s, id)
    ensures Undelivered(t, id)
  {
    var i :| 0 <= i < |s.events| && s.events[i].id == id && Passes(s.events[i]);
    assert t.events[i] == s.events[i];
  }

  /** Steps that lose no key and add no pending snapshot. */
  lemma PendingQuiet(s: State, t: State)
    requires PendingInv(s)
    requires s.queue <= t.queue && t.worker == s.worker && s.events <= t.events
    requires forall id :: Untaken(t, id) ==> Untaken(s, id)
    ensures PendingInv(t)
  {
    hide Undelivered, Untaken;
    forall id | Untaken(t, id) ensures id in t.queue || Undelivered(t, id) || Handled(t, id) {
      if Undelivered(s, id) { StillUndelivered(s, t, id); }
    }
  }

  /** No write leaves its snapshot pending. */
  lemma PendingCommits(s: State, actor: Actor, w: Update, t: State)
    requires PendingInv(s) && Commits(s, actor, w, t)
    requires t.worker == s.worker
      || (t.worker.Idle? && (s.worker.FlagWriting? || (s.worker.FixWriting? && s.worker.w == w)))
    ensures PendingInv(t)
  {
    hide Passes;
    assert !w.next.phase.Pending?;
    forall id | Untaken(t, id) ensures id in t.queue || Undelivered(t, id) || Handled(t, id) {
      assert Untaken(s, id);
      if Undelivered(s, id) { StillUndelivered(s, t, id); }
    }
  }

  lemma PendingAdd(s: State, x: Id, b: Id, created: int, rest: int)
    requires PendingInv(s)
    ensures PendingInv(AddSnapshot(s, x, b, created, rest))
  {
    var t := AddSnapshot(s, x, b, created, rest);
    if t != s {
      assert t.events[|s.events|] == Created(x, NewSnapshot(b, rest));
      forall id | Untaken(t, id) ensures id in t.queue || Undelivered(t, id) || Handled(t, id) {
        if id != x {
          assert Untaken(s, id);
          if Undelivered(s, id) { StillUndelivered(s, t, id); }
        }
      }
    }
  }

  lemma PendingStore(s: State, a: StoreAction)
    requires Sound(s) && PendingInv(s)
    ensures PendingInv(StoreStep(s, a))
  {
    assert forall id :: id in s.snaps ==> s.snaps[id].spec.backup in s.owner;
    hide Sound, PendingInv;
    if a.DoAddSnapshot? {
      PendingAdd(s, a.id, a.b, a.created, a.rest);
    } else {
      PendingQuiet(s, StoreStep(s, a));
    }
  }

  lemma PendingClient(s: State, n: nat, a: ClientAction)
    requires Sound(s) && PendingInv(s)
    ensures PendingInv(ClientStep(s, n, a))
  {
    var t := ClientStep(s, n, a);
    ClientEffect(s, n, a);
    hide ClientStep, Sound, PendingInv, Commits;
    if ClientCommits(s, n, t) {
      PendingCommits(s, s.clients[n].actor, s.clients[n].w, t);
    } else {
      PendingQuiet(s, t);
    }
  }

  lemma PendingTaskCalm(s: State, o: Owner, t: State)
    requires PendingInv(s) && TaskCalm(s, o, t)
    ensures PendingInv(t)
  {
    hide PendingInv, LaneNext;
    PendingQuiet(s, t);
  }

  lemma PendingTask(s: State, o: Owner, a: TaskAction)
    requires Sound(s) && PendingInv(s)
    ensures PendingInv(TaskStep(s, o, a))
  {
    var t := TaskStep(s, o, a);
    TaskEffect(s, o, a);
    hide TaskStep, Sound, PendingInv, Commits, TaskCalm;
    if TaskStarts(s, o, t) {
      PendingCommits(s, ByStart(TaskOf(s, o).id), TaskOf(s, o).pc.w, t);
    } else if TaskFinishes(s, o, t) {
      PendingCommits(s, ByFinish(TaskOf(s, o).id), TaskOf(s, o).pc.w, t);
    } else if TaskCalm(s, o, t) {
      PendingTaskCalm(s, o, t);
    }
  }

  lemma PendingDeliver(s: State)
    requires PendingInv(s)
    ensures PendingInv(Deliver(s))
  {
    hide Passes;
    var t := Deliver(s);
    forall id | Untaken(t, id) ensures id in t.queue || Undelivered(t, id) || Handled(t, id) {
      assert Untaken(s, id);
      if Undelivered(s, id) && id !in t.queue {
        var i :| 0 <= i < |s.events| && s.events[i].id == id && Passes(s.events[i]);
        assert t.events[i - 1] == s.events[i];
      }
    }
  }

  /** The steps of Reconcile itself: events stay, the key in hand is passed on. */
  lemma PendingHand(s: State, t: State)
    requires PendingInv(s) && t.events == s.events
    requires forall id :: Untaken(t, id) ==> Untaken(s, id)
    requires forall id :: Untaken(t, id) && (id in s.queue || Handled(s, id)) ==> id in t.queue || Handled(t, id)
    ensures PendingInv(t)
  {
    hide Untaken, Handled;
    forall id | Untaken(t, id) ensures id in t.queue || Undelivered(t, id) || Handled(t, id) {
      if Undelivered(s, id) { assert Undelivered(t, id); }
    }
  }

  lemma PendingTake(s: State, k: Id)
    requires PendingInv(s)
    ensures PendingInv(Take(s, k)) && PendingInv(Retry(s))
  {
    hide PendingInv;
    PendingHand(s, Take(s, k));
    PendingHand(s, Retry(s));
  }

  lemma PendingReadSnapshot(s: State)
    requires PendingInv(s)
    ensures PendingInv(ReadSnapshot(s))
  {
    hide PendingInv;
    PendingHand(s, ReadSnapshot(s));
  }

  lemma PendingReadBackup(s: State)
    requires Shape(s) && PendingInv(s)
    ensures PendingInv(ReadBackup(s))
  {
    hide PendingInv, LaneShape;
    PendingHand(s, ReadBackup(s));
  }

  /** The key that the worker holds for a snapshot. */
  function KeyInHand(k: Worker): Id {
    match k
    case Idle => ""
    case FixWriting(w) => w.id
    case FlagWriting(w) => w.id
    case _ => k.id
  }

  /** The worker lets go of its key, or goes on with it. */
  lemma PendingMove(s: State, t: State)
    requires PendingInv(s) && t.events == s.events && t.snaps == s.snaps && t.backups == s.backups
    requires s.queue <= t.queue && s.submitted <= t.submitted && s.unfixed <= t.unfixed
    requires
      var k := KeyInHand(s.worker);
      Handled(s, k) && Untaken(t, k) ==> k in t.queue || Handled(t, k)
    ensures PendingInv(t)
  {
    hide PendingInv;
    assert forall id :: Untaken(t, id) ==> Untaken(s, id);
    assert forall id :: Handled(s, id) ==> id == KeyInHand(s.worker);
    hide Untaken, Handled, KeyInHand;
    PendingHand(s, t);
  }

  lemma PendingFixing(s: State)
    requires PendingInv(s) && s.worker.Ready?
    ensures PendingInv(s.(worker := Fixing(s.worker.id)))
  {
    hide PendingInv;
    PendingMove(s, s.(worker := Fixing(s.worker.id)));
  }

  lemma PendingLetGo(s: State)
    requires PendingInv(s) && s.worker.Ready? && !s.worker.obj.spec.phase.Pending?
    ensures PendingInv(s.(worker := Idle))
  {
    hide PendingInv;
    PendingMove(s, s.(worker := Idle));
  }

  lemma PendingSubmit(s: State, o: Owner)
    requires PendingInv(s) && s.worker.Ready?
    ensures
      var l := LaneOf(s, o);
      var id := s.worker.id;
      PendingInv(SetLane(s, o, l.(queue := l.queue + [id])).(worker := Idle, submitted := s.submitted + {id}))
  {
    var l := LaneOf(s, o);
    hide PendingInv, LaneOf;
    PendingMove(s, SetLane(s, o, l.(queue := l.queue + [s.worker.id])).(worker := Idle, submitted := s.submitted + {s.worker.id}));
  }

  lemma PendingDispatch(s: State, accepted: bool)
    requires PendingInv(s)
    ensures PendingInv(Dispatch(s, accepted))
  {
    hide PendingInv, NewlyCreated, LaneOf, SetLane;
    if s.worker.Ready? {
      var b := s.worker.obj.spec.backup;
      PendingFixing(s);
      if !s.worker.obj.spec.phase.Pending? { PendingLetGo(s); }
      if b in s.owner { PendingSubmit(s, s.owner[b]); }
    }
  }

  lemma PendingFix(s: State, rest: int)
    requires PendingInv(s)
    ensures PendingInv(FixRead(s, rest))
  {
    hide PendingInv;
    PendingMove(s, FixRead(s, rest));
  }

  lemma PendingGiveUp(s: State)
    requires PendingInv(s)
    ensures PendingInv(GiveUp(s))
  {
    hide PendingInv;
    match s.worker
    case Fixing(id) => PendingMove(s, s.(worker := Idle, unfixed := s.unfixed + {id}));
    case FixWriting(w) => PendingMove(s, s.(worker := Idle, unfixed := s.unfixed + {w.id}));
    case FlagWriting(w) => PendingMove(s, s.(worker := Idle, unflagged := s.unflagged + {w.id}));
    case _ =>
  }

  lemma PendingSeek(s: State)
    requires PendingInv(s)
    ensures PendingInv(Seek(s))
  {
    hide PendingInv, InRun;
    PendingMove(s, Seek(s));
  }

  lemma PendingStop(s: State)
    requires PendingInv(s)
    ensures PendingInv(StopFound(s))
  {
    hide PendingInv, InRun;
    PendingMove(s, s.(stopped := s.stopped + if s.worker.Seeking? then {s.worker.id} else {}));
  }

  lemma PendingReport(s: State, ok: bool)
    requires PendingInv(s)
    ensures PendingInv(Report(s, ok))
  {
    hide PendingInv;
    if Notifies(s.worker) { PendingMove(s, Report(s, ok)); }
  }

  lemma PendingNotify(s: State, ok: bool)
    requires PendingInv(s)
    ensures PendingInv(Notify(s, ok))
  {
    hide PendingInv, Report, StopFound;
    PendingStop(s);
    PendingReport(StopFound(s), ok);
  }

  lemma PendingWorkerCommit(s: State, a: WorkerAction)
    requires Sound(s) && PendingInv(s) && (a.DoFixCommit? || a.DoFlagCommit?)
    ensures PendingInv(WorkerStep(s, a))
  {
    var t := WorkerStep(s, a);
    assert HeldByWorker(s, s.worker);
    hide Sound, PendingInv, Held;
    if t != s { PendingCommits(s, if a.DoFixCommit? then ByRecovery else ByNotify, s.worker.w, t); }
  }

  lemma PendingWorker(s: State, a: WorkerAction)
    requires Sound(s) && PendingInv(s)
    ensures PendingInv(WorkerStep(s, a))
  {
    hide Shape, AllHeld, PendingInv;
    match a
    case DoDeliver => PendingDeliver(s);
    case DoTake(k) => PendingTake(s, k);
    case DoRetry => PendingTake(s, "");
    case DoReadSnapshot => PendingReadSnapshot(s);
    case DoReadBackup => PendingReadBackup(s);
    case DoDispatch(accepted) => PendingDispatch(s, accepted);
    case DoFixRead(rest) => PendingFix(s, rest);
    case DoGiveUp => PendingGiveUp(s);
    case DoSeek => PendingSeek(s);
    case DoNotify(ok) => PendingNotify(s, ok);
    case _ => PendingWorkerCommit(s, a);
  }

  lemma PendingRestart(s: State, order: seq<Id>)
    requires PendingInv(s)
    ensures PendingInv(Restart(s, order))
  {
    var t := Restart(s, order);
    if Lists(order, s.snaps.Keys) {
      forall id | Untaken(t, id) ensures Undelivered(t, id) {
        assert id in order;
        var i :| 0 <= i < |order| && order[i] == id;
        assert t.events[i] == Created(id, s.snaps[id].spec);
      }
    }
  }

  lemma PendingStep(s: State, a: Action)
    requires Sound(s) && PendingInv(s)
    ensures PendingInv(Step(s, a))
  {
    hide Sound, PendingInv, StoreStep, ClientStep, TaskStep, WorkerStep, Restart;
    match a
    case OnStore(b) => PendingStore(s, b);
    case OnClient(n, b) => PendingClient(s, n, b);
    case OnTask(o, b) => PendingTask(s, o, b);
    case OnWorker(b) => PendingWorker(s, b);
    case OnRestart(order) => PendingRestart(s, order);
  }

  lemma {:induction false} PendingRun(s: State, steps: seq<Action>)
    requires Sound(s) && PendingInv(s)
    ensures PendingInv(Run(s, steps))
    decreases |steps|
  {
    hide Sound, Step, PendingInv, Later;
    if steps != [] {
      PendingStep(s, steps[0]);
      StepSound(s, steps[0]);
      PendingRun(Step(s, steps[0]), steps[1..]);
    }
  }

  lemma ReachedPending(s: State)
    requires Reachable(s)
    ensures PendingInv(s)
  {
    var steps :| s == Run(Initial, steps);
    InvInitial();
    hide Run;
    PendingRun(Initial, steps);
  }

  /** When the controller has nothing left to do, every pending snapshot of an existing backup has
      been handed to the pool, unless it was refused and the write of its failure was given up. */
  lemma PendingIsSubmitted(s: State, id: Id)
    requires Reachable(s) && Quiescent(s)
    requires id in s.snaps && s.snaps[id].spec.phase.Pending? && s.snaps[id].spec.backup in s.backups
    ensures id in s.submitted || id in s.unfixed
  {
    ReachedPending(s);
    hide Reachable;
    assert !Undelivered(s, id);
  }
}
