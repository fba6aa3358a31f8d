/** How final a phase is: which updates can still change it, and when a snapshot that is past
    Pending can still complete. */
module EngineFinality {
  import opened Options
  import opened Snapshots
  import opened Versioned
  import opened Engine
  import opened EngineInvariants
  import opened EngineEffects
  import opened EngineHistory
  import opened EngineWrites
  import opened EngineTheorems
  import opened EngineFull
  import opened EngineNotify
  import opened EngineOnce
  import opened EngineRecovery
  import opened EngineStopped

  /** The next step can change the phase exactly when an update with another phase waits for the
      snapshot, read at its present version. */
  lemma PhaseChangesIff(s: State, id: Id)
    requires Reachable(s) && id in s.snaps
    ensures
      (exists a :: id in Step(s, a).snaps && Step(s, a).snaps[id].spec.phase != s.snaps[id].spec.phase)
        <==> exists at :: Armed(s, at, id) && Written(s, at).phase != s.snaps[id].spec.phase
  {
    hide Reachable, Step, Written, WriteAt, AllHeld;
    ReachedInv(s);
    if a :| id in Step(s, a).snaps && Step(s, a).snaps[id].spec.phase != s.snaps[id].spec.phase {
      var at := ChangeWasArmed(s, a, id);
    }
    if at :| Armed(s, at, id) && Written(s, at).phase != s.snaps[id].spec.phase {
      SendCommits(s, at, id);
    }
  }

  /** Three writers read the snapshot again and do not look at its phase: a cancel past its check,
      the start of a task, and the recovery take it over from any phase. */
  lemma NobodyLooksAgain(s: State, n: nat, o: Owner, id: Id, rest: int)
    requires id in s.snaps
    ensures n in s.clients && s.clients[n] == Checked(id) ==>
      var t := ClientCommit(CancelRead(s, n, rest), n);
      id in t.snaps && t.snaps[id].spec.phase.Canceled? && n !in t.clients
    ensures Runs(s, o) && TaskOf(s, o).id == id && TaskOf(s, o).pc.Typed? && id !in s.stopped ==>
      var t := TaskStartCommit(TaskStartRead(s, o, rest), o);
      id in t.snaps && t.snaps[id].spec.phase.Running? && TaskOf(t, o).pc == Executing(TaskOf(s, o).pc.kind)
    ensures s.worker == Fixing(id) ==>
      var t := FixCommit(FixRead(s, rest));
      id in t.snaps && t.snaps[id].spec.phase.Failed? && t.worker.Idle?
  {
    CancelLooksNoMore(s, n, id, rest);
    StartLooksNoMore(s, o, id, rest);
    RecoveryLooksNoMore(s, id, rest);
    hide ClientCommit, CancelRead, TaskStartCommit, TaskStartRead, FixCommit, FixRead;
  }

  lemma CancelLooksNoMore(s: State, n: nat, id: Id, rest: int)
    requires id in s.snaps
    ensures n in s.clients && s.clients[n] == Checked(id) ==>
      var t := ClientCommit(CancelRead(s, n, rest), n);
      id in t.snaps && t.snaps[id].spec.phase.Canceled? && n !in t.clients
  {
  }

  lemma StartLooksNoMore(s: State, o: Owner, id: Id, rest: int)
    requires id in s.snaps
    ensures Runs(s, o) && TaskOf(s, o).id == id && TaskOf(s, o).pc.Typed? && id !in s.stopped ==>
      var t := TaskStartCommit(TaskStartRead(s, o, rest), o);
      id in t.snaps && t.snaps[id].spec.phase.Running? && TaskOf(t, o).pc == Executing(TaskOf(s, o).pc.kind)
  {
  }

  lemma RecoveryLooksNoMore(s: State, id: Id, rest: int)
    requires id in s.snaps
    ensures s.worker == Fixing(id) ==>
      var t := FixCommit(FixRead(s, rest));
      id in t.snaps && t.snaps[id].spec.phase.Failed? && t.worker.Idle?
  {
  }

  lemma ArmedPlace(s: State, at: Place, id: Id)
    requires Armed(s, at, id)
    ensures WriteAt(s, at).Some?
  {
  }

  // ---- completing ----

  /** The task can still store its snapshot as completed. */
  predicate Promising(s: State, r: Task) {
    && r.id !in s.stopped
    && match r.pc
       case Begin => false
       case Loaded(phase) => phase.Pending?
       case Typed(_) => true
       case Starting(_, w) => Fresh(s.snaps, w)
       case Executing(_) => true
       case Result(ok, kind) => ok && kind.Some?
       case Saving(_, _, w) => w.next.phase.Completed? && Fresh(s.snaps, w)
       case Done => false
  }

  predicate PromiseAt(s: State, o: Owner, id: Id) {
    Runs(s, o) && TaskOf(s, o).id == id && Promising(s, TaskOf(s, o))
  }

  /** The snapshot is past Pending, not completed, and no task can complete it. */
  predicate Settled(s: State, id: Id) {
    && id in s.home
    && (id in s.snaps ==> !s.snaps[id].spec.phase.Pending? && !s.snaps[id].spec.phase.Completed?)
    && (forall o :: o in s.lanes ==> !PromiseAt(s, o, id))
  }

  // ---- nobody gets into a promising place but from one ----

  lemma EarlyPromise(s: State, o: Owner, id: Id, dropped: bool, rest: int)
    requires id in s.snaps ==> !s.snaps[id].spec.phase.Pending?
    ensures !PromiseAt(TaskStart(s, o, dropped), o, id) || PromiseAt(s, o, id)
    ensures !PromiseAt(TaskLoad(s, o), o, id) || PromiseAt(s, o, id)
    ensures !PromiseAt(TaskStartRead(s, o, rest), o, id) || PromiseAt(s, o, id)
  {
  }

  lemma TypePromise(s: State, o: Owner, id: Id)
    ensures !PromiseAt(TaskType(s, o), o, id) || PromiseAt(s, o, id)
    ensures !PromiseAt(TaskFail(s, o), o, id) || PromiseAt(s, o, id)
  {
    hide HasCompleted;
  }

  lemma LatePromise(s: State, o: Owner, id: Id, ok: bool, canceled: bool, rest: int, failed: bool)
    ensures !PromiseAt(TaskExecuted(s, o, ok), o, id) || PromiseAt(s, o, id)
    ensures !PromiseAt(TaskResultRead(s, o, canceled, rest, failed), o, id) || PromiseAt(s, o, id)
  {
  }

  lemma CommitPromise(s: State, o: Owner, id: Id)
    ensures !PromiseAt(TaskStartCommit(s, o), o, id) || PromiseAt(s, o, id)
    ensures !PromiseAt(TaskResultCommit(s, o), o, id) || PromiseAt(s, o, id)
    ensures !PromiseAt(TaskEnd(s, o), o, id) || PromiseAt(s, o, id)
  {
  }

  lemma TaskPromise(s: State, o: Owner, a: TaskAction, id: Id)
    requires id in s.snaps ==> !s.snaps[id].spec.phase.Pending?
    ensures !PromiseAt(TaskStep(s, o, a), o, id) || PromiseAt(s, o, id)
  {
    hide PromiseAt, TaskStart, TaskLoad, TaskType, TaskFail, TaskStartRead, TaskStartCommit, TaskExecuted,
      TaskResultRead, TaskResultCommit, TaskEnd;
    match a
    case DoStart(dropped) => EarlyPromise(s, o, id, dropped, 0);
    case DoLoad => EarlyPromise(s, o, id, false, 0);
    case DoStartRead(rest) => EarlyPromise(s, o, id, false, rest);
    case DoType => TypePromise(s, o, id);
    case DoFailure => TypePromise(s, o, id);
    case DoExecuted(ok) => LatePromise(s, o, id, ok, false, 0, false);
    case DoResultRead(canceled, rest, failed) => LatePromise(s, o, id, false, canceled, rest, failed);
    case _ => CommitPromise(s, o, id);
  }

  /** The same task in a later state promises no more than before. */
  lemma PromiseKept(s: State, t: State, r: Task)
    requires HeldByTask(s, r) && Later(s, t) && s.stopped <= t.stopped && Promising(t, r)
    ensures Promising(s, r)
  {
  }

  /** What a step leaves of the other lanes, of the ended contexts and of the backups. */
  predicate Aside(s: State, t: State, o: Owner) {
    && s.stopped <= t.stopped
    && (Runs(t, o) ==> Runs(s, o) && TaskOf(t, o) == TaskOf(s, o))
    && (forall b :: b in s.owner && b in t.backups ==> b in s.backups)
  }

  lemma AsideOf(s: State, a: Action, o: Owner)
    requires Sound(s) && !(a.OnTask? && a.o == o)
    ensures Aside(s, Step(s, a), o)
  {
    hide Sound, StoreStep, ClientStep, TaskStep, WorkerStep, Restart, NewlyCreated;
    match a
    case OnClient(n, b) => ClientStepLeaves(s, n, b);
    case OnTask(p, b) => TaskStepLeaves(s, p, b);
    case OnWorker(b) => WorkerStepLeaves(s, b);
    case OnStore(b) => StoreStepLeaves(s, b);
    case OnRestart(order) => RestartStepLeaves(s, order);
  }

  lemma AsidePromise(s: State, t: State, o: Owner, id: Id)
    requires Sound(s) && Later(s, t) && Aside(s, t, o) && PromiseAt(t, o, id)
    ensures PromiseAt(s, o, id)
  {
    hide Promising;
    assert HeldByTask(s, TaskOf(s, o));
    PromiseKept(s, t, TaskOf(s, o));
  }

  lemma StepPromise(s: State, a: Action, o: Owner, id: Id)
    requires Sound(s) && PromiseAt(Step(s, a), o, id)
    requires id in s.snaps ==> !s.snaps[id].spec.phase.Pending?
    ensures PromiseAt(s, o, id)
  {
    hide Sound, Later, PromiseAt, TaskStep;
    StepSound(s, a);
    if a.OnTask? && a.o == o {
      TaskPromise(s, o, a.task, id);
    } else {
      AsideOf(s, a, o);
      hide Step, Aside;
      AsidePromise(s, Step(s, a), o, id);
    }
  }

  lemma ClientCompletesNothing(s: State, n: nat, id: Id)
    requires Sound(s) && Armed(s, AtClient(n), id)
    ensures !Written(s, AtClient(n)).phase.Completed?
  {
    assert HeldByClient(s, s.clients[n]);
  }

  lemma WorkerCompletesNothing(s: State, id: Id)
    requires Sound(s) && Armed(s, AtWorker, id)
    ensures Written(s, AtWorker).phase.Completed? ==> s.snaps[id].spec.phase.Completed?
  {
    assert HeldByWorker(s, s.worker);
  }

  lemma LaneCompletes(s: State, o: Owner, id: Id)
    requires Sound(s) && Armed(s, AtLane(o), id)
    ensures Written(s, AtLane(o)).phase.Completed? ==> PromiseAt(s, o, id)
  {
    assert HeldByTask(s, TaskOf(s, o));
  }

  /** Only the result write of a task completes a snapshot. */
  lemma CompletingPlace(s: State, at: Place, id: Id)
    requires Sound(s) && id in s.snaps && !s.snaps[id].spec.phase.Completed?
    requires Armed(s, at, id) && WriteAt(s, at).Some? && Written(s, at).phase.Completed?
    ensures at.AtLane? && PromiseAt(s, at.o, id)
  {
    hide Sound, Armed, WriteAt, PromiseAt;
    match at
    case AtClient(n) => ClientCompletesNothing(s, n, id);
    case AtLane(o) => LaneCompletes(s, o, id);
    case AtWorker => WorkerCompletesNothing(s, id);
  }

  lemma SettledStep(s: State, a: Action, id: Id)
    requires Sound(s) && Settled(s, id)
    ensures Settled(Step(s, a), id)
  {
    hide Sound, Step, Logged, PromiseAt, Armed, Written;
    var t := Step(s, a);
    OnwardStep(s, a);
    if id in t.snaps && t.snaps[id].spec.phase.Completed? {
      var at := ChangeWasArmed(s, a, id);
      ArmedPlace(s, at, id);
      CompletingPlace(s, at, id);
      PromiseRuns(s, at.o, id);
    }
    forall o | o in t.lanes ensures !PromiseAt(t, o, id) {
      if PromiseAt(t, o, id) {
        StepPromise(s, a, o, id);
        PromiseRuns(s, o, id);
      }
    }
  }

  lemma PromiseRuns(s: State, o: Owner, id: Id)
    requires PromiseAt(s, o, id)
    ensures o in s.lanes
  {
  }

  lemma {:induction false} SettledRun(s: State, steps: seq<Action>, id: Id)
    requires Sound(s) && Settled(s, id)
    ensures Settled(Run(s, steps), id)
    decreases |steps|
  {
    hide Sound, Step, Settled, Later, Onward;
    if steps != [] {
      SettledStep(s, steps[0], id);
      OnwardStep(s, steps[0]);
      SettledRun(Step(s, steps[0]), steps[1..], id);
    }
  }

  // ---- a promising task can keep its promise ----

  function StepsLeft(pc: Pc): nat {
    match pc
    case Begin => 7
    case Loaded(_) => 6
    case Typed(_) => 5
    case Starting(_, _) => 4
    case Executing(_) => 3
    case Result(_, _) => 2
    case Saving(_, _, _) => 1
    case Done => 0
  }

  function NextStep(s: State, r: Task): TaskAction {
    match r.pc
    case Begin => DoLoad
    case Loaded(_) => DoType
    case Typed(_) => DoStartRead(0)
    case Starting(_, _) => DoStartCommit
    case Executing(_) => DoExecuted(true)
    case Result(_, _) => DoResultRead(false, 0, r.backup !in s.backups)
    case Saving(_, _, _) => DoResultCommit
    case Done => DoEnd
  }

  predicate Advances(s: State, t: State, o: Owner, id: Id) {
    id in t.snaps && PromiseAt(t, o, id) && Runs(s, o) && StepsLeft(TaskOf(t, o).pc) < StepsLeft(TaskOf(s, o).pc)
  }

  lemma StartAdvances(s: State, o: Owner, id: Id)
    requires id in s.snaps && PromiseAt(s, o, id)
    ensures TaskOf(s, o).pc.Loaded? ==> Advances(s, TaskType(s, o), o, id)
    ensures TaskOf(s, o).pc.Typed? ==> Advances(s, TaskStartRead(s, o, 0), o, id)
    ensures TaskOf(s, o).pc.Starting? ==> Advances(s, TaskStartCommit(s, o), o, id)
  {
    hide HasCompleted;
  }

  lemma ResultAdvances(s: State, o: Owner, id: Id)
    requires id in s.snaps && PromiseAt(s, o, id)
    ensures TaskOf(s, o).pc.Executing? ==> Advances(s, TaskExecuted(s, o, true), o, id)
    ensures TaskOf(s, o).pc.Result? ==> Advances(s, TaskResultRead(s, o, false, 0, TaskOf(s, o).backup !in s.backups), o, id)
  {
  }

  lemma PromiseAdvances(s: State, o: Owner, id: Id)
    requires id in s.snaps && PromiseAt(s, o, id) && !TaskOf(s, o).pc.Saving?
    ensures Advances(s, TaskStep(s, o, NextStep(s, TaskOf(s, o))), o, id)
  {
    StartAdvances(s, o, id);
    ResultAdvances(s, o, id);
    hide Advances, TaskType, TaskStartRead, TaskStartCommit, TaskExecuted, TaskResultRead;
  }

  lemma PromiseEnds(s: State, o: Owner, id: Id)
    requires Sound(s) && PromiseAt(s, o, id) && TaskOf(s, o).pc.Saving?
    ensures
      var t := Step(s, OnTask(o, DoResultCommit));
      id in t.snaps && t.snaps[id].spec.phase.Completed?
  {
    assert HeldByTask(s, TaskOf(s, o));
    hide Sound, Held;
  }

  lemma {:induction false} PromiseCompletes(s: State, o: Owner, id: Id) returns (steps: seq<Action>)
    requires Sound(s) && id in s.snaps && PromiseAt(s, o, id)
    ensures id in Run(s, steps).snaps && Run(s, steps).snaps[id].spec.phase.Completed?
    decreases StepsLeft(TaskOf(s, o).pc)
  {
    assert Runs(s, o);
    var a := OnTask(o, NextStep(s, TaskOf(s, o)));
    var t := Step(s, a);
    if TaskOf(s, o).pc.Saving? {
      PromiseEnds(s, o, id);
      hide Sound, Step, PromiseAt;
      steps := [a];
      assert steps[1..] == [] && Run(s, steps) == Run(t, []);
    } else {
      PromiseAdvances(s, o, id);
      StepSound(s, a);
      assert Runs(t, o);
      hide Sound, Step, PromiseAt, Later;
      var rest := PromiseCompletes(t, o, id);
      steps := [a] + rest;
      assert steps[1..] == rest;
    }
  }

  /** A snapshot that is past Pending and not completed, whatever its phase, can still be stored
      as completed if and only if the context of its task has not ended and the task stands at a
      promising place: loaded as Pending, before or in execution, after it with success, or with
      a Completed write under way; and a write it has under way was read at the present version. */
  lemma CompletesIff(s: State, id: Id)
    requires Reachable(s) && id in s.snaps
    requires !s.snaps[id].spec.phase.Pending? && !s.snaps[id].spec.phase.Completed?
    ensures
      (exists steps :: id in Run(s, steps).snaps && Run(s, steps).snaps[id].spec.phase.Completed?)
        <==> exists o :: PromiseAt(s, o, id)
  {
    hide Reachable, Run, PromiseAt, AllHeld, FullInv, InOrder, NotifyInv, OnceInv, RecoveryInv, StoppedOut;
    ReachedInv(s);
    if o :| PromiseAt(s, o, id) {
      var steps := PromiseCompletes(s, o, id);
    } else {
      forall steps ensures Settled(Run(s, steps), id) { SettledRun(s, steps, id); }
    }
  }
}
