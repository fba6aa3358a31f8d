/** What it means that the context of a task has ended: its writes are over, and a cancel that
    found it in execution is final. */
module EngineContexts {
  import opened Options
  import opened Snapshots
  import opened Versioned
  import opened Engine
  import opened EngineInvariants
  import opened EngineEffects
  import opened EngineHistory
  import opened EngineWrites
  import opened EngineFull
  import opened EngineNotify
  import opened EngineOnce
  import opened EngineRecovery
  import opened EngineStopped
  import opened EngineTheorems
  import opened EngineFinality
  import opened EngineOrphans

  /** The write was made by the task of the snapshot: its start, its result, or its progress. */
  predicate OfTask(e: Entry, id: Id) {
    e.actor == ByStart(id) || e.actor == ByFinish(id) || (e.actor.ByProgress? && e.id == id)
  }

  /** The history goes on, and the task of the snapshot adds nothing to it. */
  predicate Silent(s: State, t: State, id: Id) {
    && id in t.stopped
    && |s.log| <= |t.log| && t.log[..|s.log|] == s.log
    && (forall i :: |s.log| <= i < |t.log| ==> !OfTask(t.log[i], id))
  }

  lemma CommitSilent(s: State, actor: Actor, w: Update, t: State, id: Id)
    requires Commits(s, actor, w, t) && id in s.stopped
    requires actor != ByStart(id) && actor != ByFinish(id) && (actor.ByProgress? ==> w.id != id)
    ensures Silent(s, t, id)
  {
  }

  lemma CalmSilent(s: State, t: State, id: Id)
    requires t.log == s.log && id in s.stopped && s.stopped <= t.stopped
    ensures Silent(s, t, id)
  {
  }

  lemma ClientSilent(s: State, n: nat, a: ClientAction, id: Id)
    requires Sound(s) && id in s.stopped
    ensures Silent(s, ClientStep(s, n, a), id)
  {
    var t := ClientStep(s, n, a);
    ClientEffect(s, n, a);
    hide ClientStep, Sound, Silent, Commits;
    if ClientCommits(s, n, t) {
      CommitSilent(s, s.clients[n].actor, s.clients[n].w, t, id);
    } else {
      CalmSilent(s, t, id);
    }
  }

  lemma TaskSilent(s: State, o: Owner, a: TaskAction, id: Id)
    requires Sound(s) && id in s.stopped
    ensures Silent(s, TaskStep(s, o, a), id)
  {
    var t := TaskStep(s, o, a);
    TaskEffect(s, o, a);
    hide TaskStep, Sound, Silent, Commits, LaneNext;
    if TaskStarts(s, o, t) {
      CommitSilent(s, ByStart(TaskOf(s, o).id), TaskOf(s, o).pc.w, t, id);
    } else if TaskFinishes(s, o, t) {
      CommitSilent(s, ByFinish(TaskOf(s, o).id), TaskOf(s, o).pc.w, t, id);
    } else {
      CalmSilent(s, t, id);
    }
  }

  lemma WorkerSilent(s: State, a: WorkerAction, id: Id)
    requires Sound(s) && id in s.stopped
    ensures Silent(s, WorkerStep(s, a), id)
  {
    var t := WorkerStep(s, a);
    WorkerEffect(s, a);
    hide WorkerStep, Sound, Silent, Commits;
    if WorkerCommits(s, t) {
      CommitSilent(s, if s.worker.FixWriting? then ByRecovery else ByNotify, s.worker.w, t, id);
    } else {
      CalmSilent(s, t, id);
    }
  }

  lemma SilentStep(s: State, a: Action, id: Id)
    requires Sound(s) && id in s.stopped
    ensures Silent(s, Step(s, a), id)
  {
    hide Sound, ClientStep, TaskStep, WorkerStep, Restart;
    match a
    case OnClient(n, b) => ClientSilent(s, n, b, id);
    case OnTask(o, b) => TaskSilent(s, o, b, id);
    case OnWorker(b) => WorkerSilent(s, b, id);
    case OnStore(b) => CalmSilent(s, StoreStep(s, b), id);
    case OnRestart(order) => RestartSilent(s, order, id);
  }

  lemma RestartSilent(s: State, order: seq<Id>, id: Id)
    requires id in s.stopped
    ensures Silent(s, Restart(s, order), id)
  {
  }

  lemma SilentSilent(s: State, t: State, u: State, id: Id)
    requires Silent(s, t, id) && Silent(t, u, id)
    ensures Silent(s, u, id)
  {
    assert forall i :: 0 <= i < |t.log| ==> u.log[i] == u.log[..|t.log|][i];
    assert forall i :: 0 <= i < |s.log| ==> t.log[i] == t.log[..|s.log|][i];
  }

  lemma {:induction false} SilentRun(s: State, steps: seq<Action>, id: Id)
    requires Sound(s) && id in s.stopped
    ensures Silent(s, Run(s, steps), id)
    decreases |steps|
  {
    if steps == [] {
      assert s.log[..|s.log|] == s.log;
    } else {
      hide Sound, Step, Later, OfTask;
      SilentStep(s, steps[0], id);
      StepSound(s, steps[0]);
      SilentRun(Step(s, steps[0]), steps[1..], id);
      SilentSilent(s, Step(s, steps[0]), Run(s, steps), id);
    }
  }

  /** Once the context of a snapshot's task has ended, no write of that task is committed any
      more, along every run: not its start, not its result, and no progress. */
  lemma StoppedIsSilent(s: State, steps: seq<Action>, id: Id)
    requires Reachable(s) && id in s.stopped
    ensures
      var t := Run(s, steps);
      && |s.log| <= |t.log| && t.log[..|s.log|] == s.log
      && (forall i :: |s.log| <= i < |t.log| ==> !OfTask(t.log[i], id))
  {
    hide Reachable, Shape, AllHeld;
    ReachedInv(s);
    SilentRun(s, steps, id);
  }

  lemma StoppedStepCompletesNothing(s: State, a: Action, id: Id)
    requires Sound(s) && id in s.stopped && id in s.home
    requires id in s.snaps ==> !s.snaps[id].spec.phase.Completed?
    ensures var t := Step(s, a); id in t.snaps ==> !t.snaps[id].spec.phase.Completed?
  {
    hide Sound, Step, Logged, PromiseAt, Armed, Written;
    var t := Step(s, a);
    OnwardStep(s, a);
    if id in t.snaps && t.snaps[id].spec.phase.Completed? {
      var at := ChangeWasArmed(s, a, id);
      ArmedPlace(s, at, id);
      CompletingPlace(s, at, id);
      PromiseNotStopped(s, at.o, id);
    }
  }

  lemma PromiseNotStopped(s: State, o: Owner, id: Id)
    requires PromiseAt(s, o, id)
    ensures id !in s.stopped
  {
  }

  /** In particular, a snapshot whose task has lost its context never completes. */
  lemma {:induction false} StoppedNeverCompletes(s: State, steps: seq<Action>, id: Id)
    requires Sound(s) && id in s.stopped && id in s.home
    requires id in s.snaps ==> !s.snaps[id].spec.phase.Completed?
    ensures var t := Run(s, steps); id in t.snaps ==> !t.snaps[id].spec.phase.Completed?
    decreases |steps|
  {
    hide Sound, Step, Later, Onward, Silent;
    if steps != [] {
      StoppedStepCompletesNothing(s, steps[0], id);
      StoppedStays(s, steps[0]);
      OnwardStep(s, steps[0]);
      HomeStays(s, Step(s, steps[0]), id);
      StoppedNeverCompletes(Step(s, steps[0]), steps[1..], id);
    }
  }

  lemma HomeStays(s: State, t: State, id: Id)
    requires Later(s, t) && id in s.home
    ensures id in t.home
  {
  }

  // ---- a cancel that found the task ----

  /** The Canceled branch finds the task exactly when it is the one that runs, in whichever lane;
      and a task that it has not found keeps its context. */
  lemma FoundIff(s: State, ok: bool)
    requires Reachable(s) && s.worker.Ready? && s.worker.obj.spec.phase.Canceled?
    ensures Seek(s).worker.Seeking?
    ensures Seek(s).worker.found <==> exists o :: Runs(s, o) && TaskOf(s, o).id == s.worker.id
    ensures !Seek(s).worker.found ==> Notify(Seek(s), ok).stopped == s.stopped
  {
    hide Reachable, AllHeld;
    ReachedInv(s);
    var id := s.worker.id;
    assert id in s.home && s.worker.obj.spec.backup == s.home[id];
    forall o | Runs(s, o) && TaskOf(s, o).id == id ensures InRun(s, id, s.home[id]) {
      assert LaneShape(s, o, s.lanes[o]) && TaskHome(s, o, id);
    }
    if InRun(s, id, s.home[id]) { assert Runs(s, s.owner[s.home[id]]); }
  }

  /** After the Canceled branch has found the task in execution, the task is gone or stopped. */
  lemma FoundIsStopped(s: State, ok: bool, o: Owner)
    requires Sound(s) && s.worker.Seeking? && s.worker.found
    requires var t := Notify(s, ok); Runs(t, o) && TaskOf(t, o).id == s.worker.id
    ensures s.worker.id in Notify(s, ok).stopped
  {
    assert LaneShape(s, o, s.lanes[o]) && TaskHome(s, o, s.worker.id);
    hide AllHeld, LaneShape;
  }

  /** So a cancel that found the task in execution is final: a snapshot that was not completed by
      then never will be. */
  lemma CancelFoundIsFinal(s: State, ok: bool, steps: seq<Action>)
    requires Reachable(s) && s.worker.Seeking? && s.worker.found
    requires
      var id := s.worker.id;
      id in s.snaps && !s.snaps[id].spec.phase.Pending? && !s.snaps[id].spec.phase.Completed?
    ensures
      var t := Run(Notify(s, ok), steps);
      s.worker.id in t.snaps ==> !t.snaps[s.worker.id].spec.phase.Completed?
  {
    var id := s.worker.id;
    var t := Notify(s, ok);
    ReachableNotify(s, ok);
    FoundSettled(s, ok);
    hide Reachable, Notify, Sound;
    SettledRun(t, steps, id);
  }

  lemma ReachableNotify(s: State, ok: bool)
    requires Reachable(s)
    ensures Reachable(Notify(s, ok)) && Sound(s) && Sound(Notify(s, ok))
  {
    hide Reachable, Notify, Shape, AllHeld, FullInv, InOrder, NotifyInv, OnceInv, RecoveryInv, StoppedOut;
    ReachableStep(s, OnWorker(DoNotify(ok)));
    ReachedInv(s);
    ReachedInv(Notify(s, ok));
  }

  lemma FoundSettled(s: State, ok: bool)
    requires Sound(s) && s.worker.Seeking? && s.worker.found
    requires
      var id := s.worker.id;
      id in s.snaps && !s.snaps[id].spec.phase.Pending? && !s.snaps[id].spec.phase.Completed?
    ensures Settled(Notify(s, ok), s.worker.id)
  {
    var id := s.worker.id;
    var t := Notify(s, ok);
    assert id in s.home;
    assert t.snaps == s.snaps && t.home == s.home;
    hide Sound, Notify;
    forall o | o in t.lanes ensures !PromiseAt(t, o, id) {
      if Runs(t, o) && TaskOf(t, o).id == id { FoundIsStopped(s, ok, o); }
    }
  }

  /** Deleting a backup stops what runs for it, in the same way. */
  lemma DeletionStops(s: State, o: Owner)
    requires Reachable(s) && Runs(s, o)
    ensures TaskOf(s, o).id in StopBackup(s, TaskOf(s, o).backup).stopped
  {
    hide Reachable;
    ReachedInv(s);
    assert LaneShape(s, o, s.lanes[o]) && TaskHome(s, o, TaskOf(s, o).id);
  }
}
