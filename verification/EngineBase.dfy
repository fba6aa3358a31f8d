/** What a completed snapshot stands for: an incremental one has a base, and its progress is full. */
module EngineBase {
  import opened Options
  import opened Snapshots
  import opened Versioned
  import opened Engine
  import opened EngineInvariants
  import opened EngineEffects
  import opened EngineHistory
  import opened EngineTheorems

  /** Before entry n, some snapshot of the backup was completed. */
  predicate HasBase(log: seq<Entry>, n: nat, b: Id)
    requires n <= |log|
  {
    exists j :: 0 <= j < n && log[j].now.phase.Completed? && log[j].now.backup == b
  }

  predicate Recorded(s: State) {
    forall id :: id in s.snaps && s.snaps[id].spec.phase.Completed? ==>
      s.snaps[id].spec.progress == PROGRESS_DONE && HasBase(s.log, |s.log|, s.snaps[id].spec.backup)
  }

  predicate Based(s: State, r: Task) {
    Chosen(r.pc) == Some(Incremental) ==> HasBase(s.log, |s.log|, r.backup)
  }

  predicate AllBased(s: State) {
    forall o :: o in s.lanes && s.lanes[o].run.Some? ==> Based(s, s.lanes[o].run.value)
  }

  predicate EntryBased(log: seq<Entry>, i: nat)
    requires i < |log|
  {
    log[i].actor.ByFinish? && log[i].now.phase.Completed? && log[i].now.kind.Incremental? ==>
      HasBase(log, i, log[i].now.backup)
  }

  predicate LogBased(log: seq<Entry>) {
    forall i :: 0 <= i < |log| ==> EntryBased(log, i)
  }

  predicate BaseInv(s: State) {
    Recorded(s) && AllBased(s) && LogBased(s.log)
  }

  lemma BaseGrows(log: seq<Entry>, more: seq<Entry>, n: nat, m: nat, b: Id)
    requires n <= |log| <= |more| && log == more[..|log|] && n <= m <= |more| && HasBase(log, n, b)
    ensures HasBase(more, m, b)
  {
    var j :| 0 <= j < n && log[j].now.phase.Completed? && log[j].now.backup == b;
    assert more[j] == log[j];
  }

  // ---- the store and its history ----

  /** Snapshots that appear are pending. */
  predicate NewPending(s: State, t: State) {
    forall id :: id in t.snaps && id !in s.home ==> t.snaps[id].spec.phase.Pending?
  }

  lemma RecordedGrows(s: State, t: State)
    requires Recorded(s) && Shape(s) && Logged(s, t) && NewPending(s, t)
    ensures Recorded(t)
  {
    assert s.log == t.log[..|s.log|];
    forall id | id in t.snaps && t.snaps[id].spec.phase.Completed?
      ensures t.snaps[id].spec.progress == PROGRESS_DONE && HasBase(t.log, |t.log|, t.snaps[id].spec.backup)
    {
      if |t.log| > |s.log| && id == t.log[|s.log|].id {
        assert t.log[|s.log|].now == t.snaps[id].spec;
      } else {
        BaseGrows(s.log, t.log, |s.log|, |t.log|, s.snaps[id].spec.backup);
      }
    }
  }

  lemma LogGrows(s: State, t: State)
    requires LogBased(s.log) && Logged(s, t)
    requires |t.log| > |s.log| ==> EntryBased(t.log, |s.log|)
    ensures LogBased(t.log)
  {
    assert s.log == t.log[..|s.log|];
    forall i | 0 <= i < |s.log| ensures EntryBased(t.log, i) {
      assert EntryBased(s.log, i) && t.log[i] == s.log[i];
      if HasBase(s.log, i, s.log[i].now.backup) { BaseGrows(s.log, t.log, i, i, s.log[i].now.backup); }
    }
  }

  /** A task keeps its base, and a new choice is made on what is stored. */
  lemma BasedGrows(s: State, t: State, r: Task, q: Task)
    requires Recorded(s) && Logged(s, t) && Based(s, r) && q.backup == r.backup
    requires Chosen(q.pc).None? || Chosen(q.pc) == Chosen(r.pc)
      || q.pc == Typed(if HasCompleted(s, r.backup) then Incremental else Fully)
    ensures Based(t, q)
  {
    assert s.log == t.log[..|s.log|];
    if Chosen(q.pc) == Some(Incremental) { BaseGrows(s.log, t.log, |s.log|, |t.log|, r.backup); }
  }

  lemma LanesGrow(s: State, t: State)
    requires AllBased(s) && Recorded(s) && Logged(s, t)
    requires forall o :: o in t.lanes && t.lanes[o].run.Some? ==> Runs(s, o) && t.lanes[o].run == s.lanes[o].run
    ensures AllBased(t)
  {
    hide Logged, Recorded, Based;
    forall o | o in t.lanes && t.lanes[o].run.Some? ensures Based(t, t.lanes[o].run.value) {
      BasedGrows(s, t, s.lanes[o].run.value, s.lanes[o].run.value);
    }
  }

  /** Steps that finish nothing and run nothing new. */
  lemma BaseQuiet(s: State, t: State)
    requires BaseInv(s) && Shape(s) && Logged(s, t) && NewPending(s, t)
    requires |t.log| > |s.log| ==> !t.log[|s.log|].actor.ByFinish?
    requires forall o :: o in t.lanes && t.lanes[o].run.Some? ==> Runs(s, o) && t.lanes[o].run == s.lanes[o].run
    ensures BaseInv(t)
  {
    RecordedGrows(s, t);
    assert |t.log| > |s.log| ==> EntryBased(t.log, |s.log|);
    hide Recorded, HasBase, NewPending, Shape, Based;
    LogGrows(s, t);
    LanesGrow(s, t);
  }

  lemma StoreNewPending(s: State, a: StoreAction)
    requires Shape(s)
    ensures NewPending(s, StoreStep(s, a))
    ensures StoreStep(s, a).lanes == s.lanes && StoreStep(s, a).log == s.log
  {
    hide LaneShape;
  }

  lemma BaseStore(s: State, a: StoreAction)
    requires Sound(s) && BaseInv(s)
    ensures BaseInv(StoreStep(s, a))
  {
    StoreLogged(s, a);
    StoreNewPending(s, a);
    hide AllHeld, Shape, BaseInv, Logged, NewPending, StoreStep;
    BaseQuiet(s, StoreStep(s, a));
  }

  /** Updates concern stored snapshots only. */
  lemma CommitsOld(s: State, actor: Actor, w: Update, t: State)
    requires Shape(s) && Commits(s, actor, w, t)
    ensures NewPending(s, t) && |t.log| == |s.log| + 1 && t.log[|s.log|].actor == actor
  {
    hide LaneShape;
  }

  lemma SameOld(s: State, t: State)
    requires Shape(s) && t.snaps == s.snaps && t.log == s.log
    ensures NewPending(s, t)
  {
  }

  lemma BaseClient(s: State, n: nat, a: ClientAction)
    requires Sound(s) && BaseInv(s)
    ensures BaseInv(ClientStep(s, n, a))
  {
    var t := ClientStep(s, n, a);
    ClientEffect(s, n, a);
    ClientLogged(s, n, a);
    hide ClientStep, AllHeld, Shape, BaseInv, Commits, Logged, NewPending;
    if ClientCommits(s, n, t) {
      CommitsOld(s, s.clients[n].actor, s.clients[n].w, t);
    } else {
      SameOld(s, t);
    }
    BaseQuiet(s, t);
  }

  lemma WorkerRuns(s: State, t: State)
    requires WorkerCalm(s, t)
    ensures forall o :: o in t.lanes && t.lanes[o].run.Some? ==> Runs(s, o) && t.lanes[o].run == s.lanes[o].run
    ensures t.snaps == s.snaps && t.log == s.log
  {
  }

  lemma BaseWorker(s: State, a: WorkerAction)
    requires Sound(s) && BaseInv(s)
    ensures BaseInv(WorkerStep(s, a))
  {
    var t := WorkerStep(s, a);
    WorkerEffect(s, a);
    WorkerLogged(s, a);
    hide WorkerStep, AllHeld, Shape, BaseInv, Commits, Logged, NewPending, WorkerCalm;
    if WorkerCommits(s, t) {
      CommitsOld(s, if s.worker.FixWriting? then ByRecovery else ByNotify, s.worker.w, t);
      BaseQuiet(s, t);
    } else if WorkerCalm(s, t) {
      WorkerRuns(s, t);
      SameOld(s, t);
      BaseQuiet(s, t);
    }
  }

  lemma BaseRestart(s: State, order: seq<Id>)
    requires Sound(s) && BaseInv(s)
    ensures BaseInv(Restart(s, order))
  {
    RestartLogged(s, order);
    SameOld(s, Restart(s, order));
    hide AllHeld, Shape, BaseInv, Logged, NewPending;
    BaseQuiet(s, Restart(s, order));
  }

  // ---- the tasks ----

  lemma OtherLanes(s: State, o: Owner, t: State)
    requires AllBased(s) && Recorded(s) && Logged(s, t)
    requires forall p :: p in t.lanes && p != o ==> p in s.lanes && t.lanes[p] == s.lanes[p]
    requires Runs(t, o) ==> Based(t, TaskOf(t, o))
    ensures AllBased(t)
  {
    hide Logged, Recorded, Based;
    forall p | p in t.lanes && t.lanes[p].run.Some? ensures Based(t, t.lanes[p].run.value) {
      if p != o { BasedGrows(s, t, s.lanes[p].run.value, s.lanes[p].run.value); }
    }
  }

  lemma CalmBased(s: State, o: Owner, t: State)
    requires AllBased(s) && Recorded(s) && Logged(s, t) && TaskCalm(s, o, t)
    ensures AllBased(t)
  {
    if Runs(t, o) && Runs(s, o) && TaskOf(t, o).backup == TaskOf(s, o).backup && t.lanes[o].queue == s.lanes[o].queue {
      assert PcNext(s, TaskOf(s, o), TaskOf(t, o).pc);
      hide Logged, Recorded, Based;
      BasedGrows(s, t, TaskOf(s, o), TaskOf(t, o));
    }
    hide Logged, Recorded;
    OtherLanes(s, o, t);
  }

  lemma StartBased(s: State, o: Owner, t: State)
    requires AllBased(s) && Recorded(s) && Logged(s, t) && TaskStarts(s, o, t)
    ensures AllBased(t)
  {
    hide Logged, Recorded, Based, Commits;
    BasedGrows(s, t, TaskOf(s, o), TaskOf(t, o));
    OtherLanes(s, o, t);
  }

  lemma FinishBased(s: State, o: Owner, t: State)
    requires AllBased(s) && Recorded(s) && Logged(s, t) && TaskFinishes(s, o, t)
    ensures AllBased(t)
  {
    assert Chosen(TaskOf(t, o).pc).None?;
    hide Logged, Recorded, Commits;
    OtherLanes(s, o, t);
  }

  /** A task that chose Incremental found a base, and its result goes to the same backup. */
  lemma FinishEntry(s: State, o: Owner, t: State)
    requires Sound(s) && AllBased(s) && Logged(s, t) && TaskFinishes(s, o, t)
    ensures |t.log| == |s.log| + 1 && EntryBased(t.log, |s.log|)
  {
    var r := TaskOf(s, o);
    CommitsLogged(s, ByFinish(r.id), r.pc.w, t);
    assert LaneShape(s, o, s.lanes[o]) && HeldByTask(s, r) && Based(s, r);
    hide AllHeld, Shape;
    if EntryIncremental(t.log[|s.log|]) {
      assert t.log[..|s.log|] == s.log;
      BaseGrows(s.log, t.log, |s.log|, |s.log|, r.backup);
    }
  }

  predicate EntryIncremental(e: Entry) {
    e.now.phase.Completed? && e.now.kind.Incremental?
  }

  lemma BaseTask(s: State, o: Owner, a: TaskAction)
    requires Sound(s) && BaseInv(s)
    ensures BaseInv(TaskStep(s, o, a))
  {
    var t := TaskStep(s, o, a);
    TaskEffect(s, o, a);
    TaskLogged(s, o, a);
    hide TaskStep, AllHeld, Shape, Recorded, AllBased, LogBased, Logged, TaskCalm, TaskStarts, TaskFinishes;
    if TaskStarts(s, o, t) {
      TaskCommitBase(s, o, t);
      StartBased(s, o, t);
    } else if TaskFinishes(s, o, t) {
      FinishEntry(s, o, t);
      TaskCommitBase(s, o, t);
      FinishBased(s, o, t);
    } else if TaskCalm(s, o, t) {
      CalmSame(s, o, t);
      SameOld(s, t);
      RecordedGrows(s, t);
      CalmBased(s, o, t);
    }
  }

  lemma CalmSame(s: State, o: Owner, t: State)
    requires TaskCalm(s, o, t)
    ensures t.snaps == s.snaps && t.log == s.log
  {
    hide LaneNext;
  }

  lemma TaskCommitBase(s: State, o: Owner, t: State)
    requires Shape(s) && Recorded(s) && LogBased(s.log) && Logged(s, t)
    requires TaskStarts(s, o, t) || (TaskFinishes(s, o, t) && |t.log| == |s.log| + 1 && EntryBased(t.log, |s.log|))
    ensures Recorded(t) && LogBased(t.log)
  {
    hide Shape, Recorded, LogBased, Logged, Commits;
    CommitsOld(s, if TaskOf(s, o).pc.Starting? then ByStart(TaskOf(s, o).id) else ByFinish(TaskOf(s, o).id),
      TaskOf(s, o).pc.w, t);
    RecordedGrows(s, t);
    LogGrows(s, t);
  }

  // ---- every run ----

  lemma BaseStep(s: State, a: Action)
    requires Sound(s) && BaseInv(s)
    ensures BaseInv(Step(s, a))
  {
    hide Sound, BaseInv, StoreStep, ClientStep, TaskStep, WorkerStep, Restart;
    match a
    case OnStore(b) => BaseStore(s, b);
    case OnClient(n, b) => BaseClient(s, n, b);
    case OnTask(o, b) => BaseTask(s, o, b);
    case OnWorker(b) => BaseWorker(s, b);
    case OnRestart(order) => BaseRestart(s, order);
  }

  lemma {:induction false} BaseRun(s: State, steps: seq<Action>)
    requires Sound(s) && BaseInv(s)
    ensures BaseInv(Run(s, steps))
    decreases |steps|
  {
    hide Sound, Step, BaseInv, Later;
    if steps != [] {
      BaseStep(s, steps[0]);
      StepSound(s, steps[0]);
      BaseRun(Step(s, steps[0]), steps[1..]);
    }
  }

  lemma ReachedBase(s: State)
    requires Reachable(s)
    ensures BaseInv(s)
  {
    var steps :| s == Run(Initial, steps);
    InvInitial();
    hide Run;
    BaseRun(Initial, steps);
  }

  /** No incremental backup without something to build on: when the result of a task completes its
      snapshot as incremental, a snapshot of the same backup was completed before. */
  lemma IncrementalHasBase(s: State, i: nat)
    requires Reachable(s) && i < |s.log|
    requires s.log[i].actor.ByFinish? && s.log[i].now.phase.Completed? && s.log[i].now.kind.Incremental?
    ensures exists j :: 0 <= j < i && s.log[j].now.phase.Completed? && s.log[j].now.backup == s.log[i].now.backup
  {
    ReachedBase(s);
    hide Reachable;
    assert EntryBased(s.log, i);
  }

  /** What each writer changes, field by field, over the whole history: everything else of a stored
      snapshot is as it was. */
  lemma WritesAreNarrow(s: State, i: nat)
    requires Reachable(s) && i < |s.log|
    ensures
      var was, now := s.log[i].was, s.log[i].now;
      && now.backup == was.backup
      && (now.pushed != was.pushed ==> s.log[i].actor.ByNotify?)
      && (now.kind != was.kind ==> s.log[i].actor.ByFinish?)
      && match s.log[i].actor
         case ByCancel => now.phase.Canceled? && now.progress == was.progress
         case ByRecovery => now.phase.Failed? && now.progress == was.progress
         case ByStart(_) => now.phase.Running? && now.progress == was.progress
         case ByProgress => was.phase.Running? && now == was.(progress := now.progress)
         case ByNotify => Terminal(was.phase) && now == was.(pushed := true)
         case ByFinish(_) =>
           || (now.phase.Completed? && now.progress == PROGRESS_DONE)
           || ((now.phase.Failed? || now.phase.Canceled?) && now.progress == was.progress)
  {
    hide Reachable;
    ReachedInv(s);
    assert EntryInOrder(s.log, i);
  }

  /** The result of a run that nothing overtakes: completed with the type of the run when it
      succeeded, else failed or, when the error says so, cancelled, with the type as far as it was
      determined. */
  lemma ResultIsStored(s: State, o: Owner, canceled: bool, rest: int, failed: bool)
    requires Runs(s, o) && TaskOf(s, o).pc.Result? && TaskOf(s, o).id in s.snaps && TaskOf(s, o).id !in s.stopped
    requires TaskOf(s, o).backup in s.backups || failed
    ensures
      var id, pc := TaskOf(s, o).id, TaskOf(s, o).pc;
      var t := TaskResultCommit(TaskResultRead(s, o, canceled, rest, failed), o);
      && id in t.snaps && TaskOf(t, o).pc.Done?
      && var was, now := s.snaps[id].spec, t.snaps[id].spec;
      && now.backup == was.backup && now.pushed == was.pushed
      && (if pc.ok && pc.found.Some?
          then now.phase.Completed? && now.kind == pc.found.value && now.progress == PROGRESS_DONE
          else && now.phase == (if canceled then Canceled else Failed) && now.progress == was.progress
               && now.kind == if pc.found.Some? then pc.found.value else was.kind)
  {
  }

  /** A completed snapshot shows full progress. */
  lemma CompletedIsDone(s: State, id: Id)
    requires Reachable(s) && id in s.snaps && s.snaps[id].spec.phase.Completed?
    ensures s.snaps[id].spec.progress == PROGRESS_DONE
  {
    ReachedBase(s);
    hide Reachable;
  }
}
