/** After a restart every interrupted snapshot ends, and none of them runs again. */
module EngineRecovery {
  import opened Options
  import opened Snapshots
  import opened Versioned
  import opened Engine
  import opened EngineInvariants
  import opened EngineEffects
  import opened EngineOnce

  predicate BeforeStart(s: State, id: Id) {
    id in s.created && s.created[id] <= s.start
  }

  /** Created before the start, not finished, and nothing but the reconciler to finish it. */
  predicate Stuck(s: State, id: Id) {
    && id in s.snaps && BeforeStart(s, id)
    && !Terminal(s.snaps[id].spec.phase)
    && s.snaps[id].spec.backup in s.backups
    && id !in s.unfixed
  }

  /** The worker holds the key in a way that ends in a Failed write or is recorded as given up. */
  predicate BeingFixed(s: State, id: Id) {
    match s.worker
    case Taken(k) => k == id
    case Read(k, obj) => k == id
    case Ready(k, obj) => k == id
    case Seeking(k, _, _) => k == id
    case Fixing(k) => k == id
    case FixWriting(w) => w.id == id
    case _ => false
  }

  predicate Replayed(s: State, id: Id) {
    exists i :: 0 <= i < |s.events| && s.events[i].id == id && Passes(s.events[i])
  }

  ghost predicate AllHandled(s: State) {
    forall id :: Stuck(s, id) ==> id in s.queue || Replayed(s, id) || BeingFixed(s, id)
  }

  /** What the reconciler read of an old snapshot does not come back to life. */
  predicate ReadStays(s: State) {
    HasRead(s.worker) && BeforeStart(s, s.worker.id) && s.worker.id in s.snaps && Terminal(s.worker.obj.spec.phase)
    ==> Terminal(s.snaps[s.worker.id].spec.phase)
  }

  predicate Interrupted(s: State) {
    forall id :: id in s.interrupted && id in s.snaps ==>
      BeforeStart(s, id) && !s.snaps[id].spec.phase.Completed? && !s.snaps[id].spec.phase.Rejected?
  }

  predicate NotSubmitted(s: State) {
    forall id :: id in s.submitted ==> id in s.created && !BeforeStart(s, id)
  }

  ghost predicate RecoveryInv(s: State) {
    AllHandled(s) && ReadStays(s) && NotSubmitted(s) && Interrupted(s) && s.interrupted <= s.home.Keys
  }

  /** Steps that touch neither the queue nor the worker. */
  lemma RecoveryQuiet(s: State, t: State)
    requires Shape(s) && RecoveryInv(s)
    requires t.queue == s.queue && t.worker == s.worker && s.events <= t.events && t.start == s.start
    requires t.submitted == s.submitted && t.unfixed == s.unfixed && t.interrupted == s.interrupted
    requires s.home.Keys <= t.home.Keys
    requires forall id :: id in s.created ==> id in t.created && t.created[id] == s.created[id]
    requires forall id :: id in s.home && id in t.snaps ==> id in s.snaps && t.snaps[id].spec == s.snaps[id].spec
    requires forall id :: id in t.snaps && id !in s.home ==> Replayed(t, id)
    requires t.backups * s.owner.Keys <= s.backups
    ensures RecoveryInv(t)
  {
    forall id | Stuck(t, id) ensures id in t.queue || Replayed(t, id) || BeingFixed(t, id) {
      if id in s.home {
        assert Stuck(s, id);
        if Replayed(s, id) {
          var i :| 0 <= i < |s.events| && s.events[i].id == id && Passes(s.events[i]);
          assert t.events[i] == s.events[i];
        }
      }
    }
  }

  /** Writes bring no old snapshot back to life: only a task writes Running, and the tasks
      belong to snapshots submitted after the start. */
  lemma RecoveryCommits(s: State, actor: Actor, w: Update, t: State)
    requires Shape(s) && RecoveryInv(s) && Commits(s, actor, w, t)
    requires t.worker == s.worker
      || (t.worker.Idle? && (s.worker.FlagWriting? || (s.worker.FixWriting? && Terminal(w.next.phase) && s.worker.w == w)))
    requires actor.ByStart? || actor.ByFinish? ==> w.id in s.submitted
    ensures RecoveryInv(t)
  {
    forall id | Stuck(t, id) ensures id in t.queue || Replayed(t, id) || BeingFixed(t, id) {
      assert Stuck(s, id);
      if Replayed(s, id) {
        var i :| 0 <= i < |s.events| && s.events[i].id == id && Passes(s.events[i]);
        assert t.events[i] == s.events[i];
      }
    }
  }

  lemma RecoveryStore(s: State, a: StoreAction)
    requires Sound(s) && RecoveryInv(s)
    ensures RecoveryInv(StoreStep(s, a))
  {
    var t := StoreStep(s, a);
    hide AllHeld, RecoveryInv;
    if a.DoAddSnapshot? {
      RecoveryAdd(s, a.id, a.b, a.created, a.rest);
    } else {
      assert s.snaps.Keys <= s.home.Keys && s.backups <= s.owner.Keys;
      hide Shape, Replayed;
      RecoveryQuiet(s, t);
    }
  }

  lemma RecoveryAdd(s: State, id: Id, b: Id, created: int, rest: int)
    requires Shape(s) && RecoveryInv(s)
    ensures RecoveryInv(AddSnapshot(s, id, b, created, rest))
  {
    var t := AddSnapshot(s, id, b, created, rest);
    if t != s { assert t.events[|s.events|] == Created(id, NewSnapshot(b, rest)); }
    hide RecoveryInv;
    RecoveryQuiet(s, t);
  }

  lemma RecoveryClient(s: State, n: nat, a: ClientAction)
    requires Sound(s) && RecoveryInv(s)
    ensures RecoveryInv(ClientStep(s, n, a))
  {
    var t := ClientStep(s, n, a);
    ClientEffect(s, n, a);
    hide ClientStep, AllHeld, Passes;
    if ClientCommits(s, n, t) {
      RecoveryCommits(s, s.clients[n].actor, s.clients[n].w, t);
    } else {
      RecoveryQuiet(s, t);
    }
  }

  lemma RecoveryTaskCalm(s: State, o: Owner, t: State)
    requires Shape(s) && RecoveryInv(s) && TaskCalm(s, o, t)
    ensures RecoveryInv(t)
  {
    hide Passes;
    RecoveryQuiet(s, t);
  }

  lemma RecoveryTask(s: State, o: Owner, a: TaskAction)
    requires Sound(s) && OnceInv(s) && RecoveryInv(s)
    ensures RecoveryInv(TaskStep(s, o, a))
  {
    var t := TaskStep(s, o, a);
    TaskEffect(s, o, a);
    assert Runs(s, o) ==> TaskOf(s, o).id in s.submitted by {
      if Runs(s, o) { assert LaneOnce(s, s.lanes[o]); }
    }
    hide TaskStep, AllHeld, Shape, OnceInv, RecoveryInv, TaskCalm, Commits, Held, HeldByTask;
    if TaskStarts(s, o, t) {
      TaskWriteId(s, o);
      RecoveryCommits(s, ByStart(TaskOf(s, o).id), TaskOf(s, o).pc.w, t);
    } else if TaskFinishes(s, o, t) {
      TaskWriteId(s, o);
      RecoveryCommits(s, ByFinish(TaskOf(s, o).id), TaskOf(s, o).pc.w, t);
    } else if TaskCalm(s, o, t) {
      RecoveryTaskCalm(s, o, t);
    }
  }

  lemma TaskWriteId(s: State, o: Owner)
    requires Sound(s) && Runs(s, o)
    ensures TaskOf(s, o).pc.Starting? || TaskOf(s, o).pc.Saving? ==> TaskOf(s, o).pc.w.id == TaskOf(s, o).id
  {
    assert HeldByTask(s, TaskOf(s, o));
  }

  lemma RecoveryDeliver(s: State)
    requires Sound(s) && RecoveryInv(s)
    ensures RecoveryInv(Deliver(s))
  {
    var t := Deliver(s);
    forall id | Stuck(t, id) ensures id in t.queue || Replayed(t, id) || BeingFixed(t, id) {
      assert Stuck(s, id);
      if Replayed(s, id) && id !in t.queue {
        var i :| 0 <= i < |s.events| && s.events[i].id == id && Passes(s.events[i]);
        assert t.events[i - 1] == s.events[i];
      }
    }
  }

  /** Steps of Reconcile pass the stuck key on. */
  lemma RecoveryReconcile(s: State, t: State)
    requires RecoveryInv(s)
    requires t == s.(queue := t.queue, worker := t.worker, lanes := t.lanes, stopped := t.stopped, sent := t.sent,
                     told := t.told, sentAs := t.sentAs, submitted := t.submitted, unfixed := t.unfixed, unflagged := t.unflagged)
    requires forall id :: Stuck(t, id) ==> Stuck(s, id)
    requires forall id :: Stuck(t, id) && (id in s.queue || BeingFixed(s, id)) ==> id in t.queue || BeingFixed(t, id)
    requires NotSubmitted(t) && ReadStays(t)
    ensures RecoveryInv(t)
  {
    forall id | Stuck(t, id) ensures id in t.queue || Replayed(t, id) || BeingFixed(t, id) {
      assert Stuck(s, id);
      if Replayed(s, id) { assert Replayed(t, id); }
    }
  }

  lemma RecoveryDispatch(s: State, accepted: bool)
    requires Sound(s) && RecoveryInv(s)
    ensures RecoveryInv(Dispatch(s, accepted))
  {
    hide AllHeld, Passes;
    RecoveryReconcile(s, Dispatch(s, accepted));
  }

  lemma RecoveryReading(s: State, a: WorkerAction)
    requires Sound(s) && RecoveryInv(s)
    requires a.DoReadSnapshot? || a.DoReadBackup?
    ensures RecoveryInv(WorkerStep(s, a))
  {
    hide AllHeld, Passes;
    RecoveryReconcile(s, WorkerStep(s, a));
  }

  lemma RecoveryTake(s: State, id: Id)
    requires RecoveryInv(s)
    ensures RecoveryInv(Take(s, id))
  {
    hide Passes, AllHandled, Interrupted;
    RecoveryReconcile(s, Take(s, id));
  }

  lemma RecoveryFixRead(s: State, rest: int)
    requires RecoveryInv(s)
    ensures RecoveryInv(FixRead(s, rest))
  {
    hide Passes, AllHandled, Interrupted;
    RecoveryReconcile(s, FixRead(s, rest));
  }

  lemma RecoveryRetry(s: State)
    requires Sound(s) && RecoveryInv(s)
    ensures RecoveryInv(Retry(s))
  {
    hide AllHeld, Passes;
    RecoveryReconcile(s, Retry(s));
  }

  lemma RecoveryGiveUp(s: State)
    requires Sound(s) && RecoveryInv(s)
    ensures RecoveryInv(GiveUp(s))
  {
    hide AllHeld, Passes;
    if s.worker.Fixing? || s.worker.FixWriting? || s.worker.FlagWriting? {
      RecoveryReconcile(s, GiveUp(s));
    }
  }

  lemma RecoverySeek(s: State)
    requires Sound(s) && RecoveryInv(s)
    ensures RecoveryInv(Seek(s))
  {
    hide AllHeld, Passes, InRun;
    RecoveryReconcile(s, Seek(s));
  }

  lemma RecoveryNotify(s: State, ok: bool)
    requires Sound(s) && RecoveryInv(s)
    ensures RecoveryInv(Notify(s, ok))
  {
    assert s.worker.Seeking? ==> s.worker.obj.spec.phase.Canceled?;
    hide AllHeld, Passes, InRun;
    RecoveryReconcile(s, Notify(s, ok));
  }

  lemma RecoveryWorkerCommit(s: State, a: WorkerAction)
    requires Sound(s) && RecoveryInv(s)
    requires a.DoFixCommit? || a.DoFlagCommit?
    ensures RecoveryInv(WorkerStep(s, a))
  {
    var t := WorkerStep(s, a);
    if t != s {
      RecoveryCommits(s, if a.DoFixCommit? then ByRecovery else ByNotify, s.worker.w, t);
    }
  }

  lemma RecoveryWorker(s: State, a: WorkerAction)
    requires Sound(s) && RecoveryInv(s)
    ensures RecoveryInv(WorkerStep(s, a))
  {
    hide Sound, RecoveryInv;
    match a
    case DoDeliver => RecoveryDeliver(s);
    case DoDispatch(accepted) => RecoveryDispatch(s, accepted);
    case DoFixCommit => RecoveryWorkerCommit(s, a);
    case DoFlagCommit => RecoveryWorkerCommit(s, a);
    case DoReadSnapshot => RecoveryReading(s, a);
    case DoReadBackup => RecoveryReading(s, a);
    case DoSeek => RecoverySeek(s);
    case DoNotify(ok) => RecoveryNotify(s, ok);
    case DoRetry => RecoveryRetry(s);
    case DoGiveUp => RecoveryGiveUp(s);
    case DoTake(id) => RecoveryTake(s, id);
    case DoFixRead(rest) => RecoveryFixRead(s, rest);
  }

  lemma RecoveryRestart(s: State, order: seq<Id>)
    requires Sound(s) && RecoveryInv(s)
    ensures RecoveryInv(Restart(s, order))
  {
    var t := Restart(s, order);
    if Lists(order, s.snaps.Keys) {
      forall id | Stuck(t, id) ensures Replayed(t, id) {
        assert id in order;
        var i :| 0 <= i < |order| && order[i] == id;
        assert t.events[i] == Created(id, s.snaps[id].spec);
      }
    }
  }

  lemma RecoveryStep(s: State, a: Action)
    requires Sound(s) && OnceInv(s) && RecoveryInv(s)
    ensures RecoveryInv(Step(s, a))
  {
    hide Sound, OnceInv, RecoveryInv;
    match a
    case OnStore(b) => RecoveryStore(s, b);
    case OnClient(n, b) => RecoveryClient(s, n, b);
    case OnTask(o, b) => RecoveryTask(s, o, b);
    case OnWorker(b) => RecoveryWorker(s, b);
    case OnRestart(order) => RecoveryRestart(s, order);
  }
}
