/** A finished phase is not final: who can write over it, and a run in which a cancelled
    snapshot completes. */
module EngineCancel {
  import opened Options
  import opened Snapshots
  import opened Versioned
  import opened Engine
  import opened EngineInvariants
  import opened EngineHistory
  import opened EngineTheorems

  /** What takes a snapshot out of a finished phase, and into which phase: a cancel, the
      recovery after a restart, or a task's start or result; never progress or notification.
      When such a write can still come is the subject of EngineFinality. */
  lemma WhoLeavesTerminal(s: State, i: nat)
    requires Reachable(s) && i < |s.log|
    requires Terminal(s.log[i].was.phase) && s.log[i].now.phase != s.log[i].was.phase
    ensures
      var e := s.log[i];
      match e.actor
      case ByCancel => e.now.phase.Canceled?
      case ByRecovery => e.now.phase.Failed?
      case ByStart(_) => e.now.phase.Running?
      case ByFinish(_) => e.now.phase.Completed? || e.now.phase.Failed? || e.now.phase.Canceled?
      case ByProgress => false
      case ByNotify => false
  {
    hide Reachable;
    ReachedInv(s);
    assert EntryInOrder(s.log, i);
  }

  /** One snapshot "s" of backup "b" of owner "o", with its task at `pc`. */
  predicate Scene(s: State, spec: Spec, pc: Pc) {
    && s.snaps.Keys == {"s"} && s.snaps["s"].spec == spec && spec.backup == "b"
    && s.backups == {"b"} && s.stopped == {}
    && "o" in s.lanes && s.lanes["o"].run == Some(Task("s", "b", pc))
  }

  predicate Stored(s: State) {
    && s.snaps.Keys == {"s"} && s.snaps["s"].spec == NewSnapshot("b", 0)
    && s.home == map["s" := "b"] && s.backups == {"b"} && s.clients == map[] && s.stopped == {} && s.log == []
  }

  lemma Ticked() returns (s: State)
    ensures Reachable(s) && s == Initial.(owner := map["b" := "o"], backups := {"b"}, clock := 1)
  {
    assert Initial == Run(Initial, []);
    ReachableStep(Initial, OnStore(DoAddBackup("b", "o")));
    s := AddBackup(Initial, "b", "o");
    hide Reachable, Run;
    ReachableStep(s, OnStore(DoTick(1)));
    s := Tick(s, 1);
  }

  lemma Announced() returns (s: State)
    ensures Reachable(s) && Stored(s) && s.owner == map["b" := "o"] && s.lanes == map[]
    ensures NewlyCreated(s, "s") && s.worker.Idle? && "s" in s.queue
  {
    s := Ticked();
    hide Reachable;
    ReachableStep(s, OnStore(DoAddSnapshot("s", "b", 1, 0)));
    s := AddSnapshot(s, "s", "b", 1, 0);
    ReachableStep(s, OnWorker(DoDeliver));
    s := Deliver(s);
  }

  lemma Submitted() returns (s: State)
    ensures Reachable(s) && Stored(s) && "o" in s.lanes && s.lanes["o"] == Lane(["s"], None)
  {
    s := Announced();
    hide Reachable;
    ReachableStep(s, OnWorker(DoTake("s")));
    s := Take(s, "s");
    ReachableStep(s, OnWorker(DoReadSnapshot));
    s := ReadSnapshot(s);
    ReachableStep(s, OnWorker(DoReadBackup));
    s := ReadBackup(s);
    ReachableStep(s, OnWorker(DoDispatch(true)));
    s := Dispatch(s, true);
  }

  lemma TypeChosen() returns (s: State)
    ensures Reachable(s) && Scene(s, NewSnapshot("b", 0), Typed(Fully)) && s.clients == map[]
  {
    s := Submitted();
    hide Reachable;
    ReachableStep(s, OnTask("o", DoStart(false)));
    s := TaskStart(s, "o", false);
    ReachableStep(s, OnTask("o", DoLoad));
    s := TaskLoad(s, "o");
    ReachableStep(s, OnTask("o", DoType));
    s := TaskType(s, "o");
  }

  lemma Executes() returns (s: State)
    ensures Reachable(s) && Scene(s, WithPhase(NewSnapshot("b", 0), Running, 0), Executing(Fully))
    ensures s.clients == map[]
  {
    s := TypeChosen();
    hide Reachable;
    ReachableStep(s, OnTask("o", DoStartRead(0)));
    s := TaskStartRead(s, "o", 0);
    ReachableStep(s, OnTask("o", DoStartCommit));
    s := TaskStartCommit(s, "o");
  }

  lemma Cancelled() returns (s: State, i: nat)
    ensures Reachable(s) && Scene(s, WithPhase(NewSnapshot("b", 0), Canceled, 0), Executing(Fully))
    ensures i < |s.log| && s.log[i].id == "s" && s.log[i].actor.ByCancel? && s.log[i].now.phase.Canceled?
  {
    s := Executes();
    hide Reachable;
    ReachableStep(s, OnClient(0, DoCancelCheck("b", "s")));
    s := CancelCheck(s, 0, "b", "s");
    ReachableStep(s, OnClient(0, DoCancelRead(0)));
    s := CancelRead(s, 0, 0);
    i := |s.log|;
    ReachableStep(s, OnClient(0, DoCommit));
    s := ClientCommit(s, 0);
  }

  /** The task does not look at the phase again: a snapshot whose cancellation is committed
      while it executes can still be stored as Completed. */
  lemma CancelledCanComplete()
    ensures exists s, i: nat ::
      && Reachable(s) && i < |s.log| && s.log[i].id == "s" && s.log[i].now.phase.Canceled?
      && "s" in s.snaps && IsFull(s.snaps["s"].spec)
  {
    var s, i := Cancelled();
    hide Reachable;
    ReachableStep(s, OnTask("o", DoExecuted(true)));
    s := TaskExecuted(s, "o", true);
    ReachableStep(s, OnTask("o", DoResultRead(false, 0, false)));
    s := TaskResultRead(s, "o", false, 0, false);
    ReachableStep(s, OnTask("o", DoResultCommit));
    s := TaskResultCommit(s, "o");
    assert Reachable(s) && s.log[i].now.phase.Canceled?;
  }
}
