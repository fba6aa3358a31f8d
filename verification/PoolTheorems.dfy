/** The results about the pool, over every interleaving of its steps. */
module PoolTheorems {
  import opened Options
  import opened WorkerPool
  import opened PoolInvariants
  import opened PoolCancel

  ghost predicate Reachable(p: Pool) {
    exists steps :: p == Run(Empty, steps)
  }

  lemma {:induction false} RunInv(p: Pool, steps: seq<Action>)
    requires PoolInv(p) && CancelInv(p)
    ensures PoolInv(Run(p, steps)) && CancelInv(Run(p, steps))
    decreases |steps|
  {
    if steps != [] {
      hide PoolInv, CancelInv, Step;
      var a := steps[0];
      StepInv(p, a);
      if a.DoCancelBegin? || a.DoCancelVisit? || a.DoCancelLoad? || a.DoCancelEnd? {
        CancelStepInv(p, a);
      } else {
        OtherStepInv(p, a);
      }
      RunInv(Step(p, a), steps[1..]);
    }
  }

  lemma ReachedInv(p: Pool)
    requires Reachable(p)
    ensures PoolInv(p) && CancelInv(p)
  {
    var steps :| p == Run(Empty, steps);
    RunInv(Empty, steps);
  }

  lemma {:induction false} RunMore(p: Pool, steps: seq<Action>, a: Action)
    ensures Run(p, steps + [a]) == Step(Run(p, steps), a)
    decreases |steps|
  {
    hide Step;
    if steps == [] {
      assert steps + [a] == [a];
      assert [a][1..] == [];
    } else {
      assert (steps + [a])[1..] == steps[1..] + [a];
      RunMore(Step(p, steps[0]), steps[1..], a);
    }
  }

  lemma ReachableStep(p: Pool, a: Action)
    requires Reachable(p)
    ensures Reachable(Step(p, a))
  {
    hide Step;
    var steps :| p == Run(Empty, steps);
    RunMore(Empty, steps, a);
  }

  /** The map holds exactly the tasks that are submitted or being submitted and not yet past
      their deferred delete; a refused submission leaves nothing in it. */
  lemma MapHoldsLiveTasks(p: Pool, h: Handle)
    requires Reachable(p)
    ensures (Live(p, h) <==> InMap(p, h)) && (h in p.rejected ==> !InMap(p, h))
  {
    ReachedInv(p);
  }

  /** The active cell is empty or holds the one task that is past its start and before its end. */
  lemma ActiveIsTheRunningTask(p: Pool)
    requires Reachable(p)
    ensures p.worker.Active? ==> p.active == Some(p.worker.h)
    ensures p.active.Some? ==>
      (p.worker.Active? || p.worker.Ended? || p.worker.Removed?) && p.active == Some(p.worker.h)
  {
    ReachedInv(p);
  }

  /** One live task per backup, however many cancelled ones are still draining. */
  lemma OneLiveTaskPerBackup(p: Pool, g: Handle, h: Handle)
    requires Reachable(p)
    ensures Alive(p, g) && Alive(p, h) && p.heap[g].backup == p.heap[h].backup ==> g == h
  {
    ReachedInv(p);
  }

  /** Every task, and every submission past its check, names a snapshot or a restore, and a backup
      if it is a backup task: the empty names are turned away. */
  predicate Named(p: Pool) {
    && (forall h :: h in p.heap ==> p.heap[h].target != "" && (p.heap[h].kind.BackupTask? ==> p.heap[h].backup != ""))
    && (p.backups.Checked? ==> p.backups.backup != "" && p.backups.snapshot != "")
  }

  lemma NamedStep(p: Pool, a: Action)
    requires Named(p)
    ensures Named(Step(p, a))
  {
    hide LiveBackup, View, Expected, Hits, NewTask;
  }

  lemma {:induction false} NamedRun(p: Pool, steps: seq<Action>)
    requires Named(p)
    ensures Named(Run(p, steps))
    decreases |steps|
  {
    hide Named, Step;
    if steps != [] {
      NamedStep(p, steps[0]);
      NamedRun(Step(p, steps[0]), steps[1..]);
    }
  }

  lemma TasksAreNamed(p: Pool)
    requires Reachable(p)
    ensures Named(p)
  {
    var steps :| p == Run(Empty, steps);
    NamedRun(Empty, steps);
  }

  /** A refused submission has lost its context. */
  predicate RefusedOver(p: Pool) {
    forall h :: h in p.rejected ==> h in p.heap && p.heap[h].ctxDone
  }

  lemma RefusedStep(p: Pool, a: Action)
    requires RefusedOver(p)
    ensures RefusedOver(Step(p, a))
  {
    hide LiveBackup, View, Expected, Hits, StageOf;
  }

  lemma {:induction false} RefusedRun(p: Pool, steps: seq<Action>)
    requires RefusedOver(p)
    ensures RefusedOver(Run(p, steps))
    decreases |steps|
  {
    hide RefusedOver, Step;
    if steps != [] {
      RefusedStep(p, steps[0]);
      RefusedRun(Step(p, steps[0]), steps[1..]);
    }
  }

  lemma RefusedHasNoContext(p: Pool, h: Handle)
    requires Reachable(p) && h in p.rejected
    ensures h in p.heap && p.heap[h].ctxDone && !InMap(p, h)
  {
    var steps :| p == Run(Empty, steps);
    RefusedRun(Empty, steps);
    MapHoldsLiveTasks(p, h);
  }

  // ---- cancel ----

  /** A task flagged before its start check never enters Run. */
  lemma FlaggedInTimeNeverRuns(p: Pool, n: nat, h: Handle)
    requires Reachable(p) && MarkedBy(p, h, n)
    requires p.cancels[n].marks[h].Waiting? || p.cancels[n].marks[h].AtCheck?
    ensures h !in p.ran
  {
    hide Reachable, PoolInv, Ranges, RanOk, Blame;
    ReachedInv(p);
    assert MarkOk(p, p.cancels[n], h);
  }

  /** The context of a task that ran has ended exactly when some cancel that means it has come
      to its end and found it in the active cell. */
  lemma ContextEndsIff(p: Pool, h: Handle)
    requires Reachable(p) && h in p.ran
    ensures h in p.heap
    ensures p.heap[h].ctxDone <==> exists n :: StoppedBy(p, h, n)
  {
    hide Reachable, PoolInv, Marks, Ranges;
    ReachedInv(p);
    forall n | StoppedBy(p, h, n) ensures p.heap[h].ctxDone { assert CellOk(p, p.cancels[n]); }
  }

  /** A cancel that is through and has flagged a task which ran: the flag came after the check,
      and the cancel stopped the context unless it read the active cell in one of two gaps,
      before the task was entered there or after the cell was cleared. */
  lemma CancelMissesOnlyInGaps(p: Pool, n: nat, h: Handle)
    requires Reachable(p) && MarkedBy(p, h, n) && (p.cancels[n].pc.Finished? || p.cancels[n].pc.Panicked?)
    requires h in p.ran
    ensures
      var c := p.cancels[n];
      && h in c.loads && Rank(Gap) <= Rank(c.marks[h]) <= Rank(c.loads[h])
      && (StoppedBy(p, h, n) <==> !c.loads[h].Gap? && !c.loads[h].Over?)
  {
    hide Reachable, PoolInv, Ranges, RanOk, Blame;
    ReachedInv(p);
    assert MarkOk(p, p.cancels[n], h) && CellOk(p, p.cancels[n]);
  }

  /** A cancel past its Range has flagged every task it means that was in the map all along. */
  lemma CancelFlagsAll(p: Pool, n: nat, h: Handle)
    requires Reachable(p) && n in p.cancels && !p.cancels[n].pc.Ranging?
    requires h in p.cancels[n].began && InMap(p, h) && Means(p.cancels[n].target, p.heap[h])
    ensures p.heap[h].canceled
  {
    hide Reachable, PoolInv, RanOk, Blame;
    ReachedInv(p);
    assert Complete(p, p.cancels[n]);
    assert MarkOk(p, p.cancels[n], h);
  }

  /** No cancel touches a task it does not mean, and a context ends, outside a refused
      submission, only at the hands of a cancel that found the task in the active cell. */
  lemma OnlyMeantTasksChange(p: Pool, h: Handle)
    requires Reachable(p) && h in p.heap
    ensures p.heap[h].canceled ==> exists n :: MarkedBy(p, h, n) && Means(p.cancels[n].target, p.heap[h])
    ensures p.heap[h].ctxDone && h !in p.rejected ==> exists n :: StoppedBy(p, h, n)
  {
    ReachedInv(p);
    if p.heap[h].canceled {
      var n :| MarkedBy(p, h, n);
      assert MarkOk(p, p.cancels[n], h);
    }
  }

  /** The type assertion on the active task, over all runs: of the cancels that are through,
      those panicked, and only those, for which the active cell held a task of the other kind. */
  lemma CancelPanicsIff(p: Pool, n: nat)
    requires Reachable(p) && n in p.cancels && (p.cancels[n].pc.Finished? || p.cancels[n].pc.Panicked?)
    ensures
      var c := p.cancels[n];
      && (c.cell.Some? ==> c.cell.value in p.heap)
      && (c.pc.Panicked? <==> c.cell.Some? && (c.target.OfRestore? <==> p.heap[c.cell.value].kind.BackupTask?))
  {
    hide Reachable, PoolInv, Marks, Ranges, RanOk, Blame;
    ReachedInv(p);
    assert CellOk(p, p.cancels[n]);
  }

  /** A restore in Run. */
  lemma ActiveRestore(r: string) returns (p: Pool)
    requires r != ""
    ensures Reachable(p) && p.active == Some(0) && 0 in p.heap && p.heap[0].kind.RestoreTask? && p.cancels == map[]
    ensures p.tasks == map[r := 0]
  {
    assert Empty == Run(Empty, []);
    p := Step(Empty, DoStoreRestore(0, r));
    ReachableStep(Empty, DoStoreRestore(0, r));
    ReachableStep(p, DoSubmitRestore(true));
    p := Step(p, DoSubmitRestore(true));
    assert p.queue == [0] && p.tasks == map[r := 0];
    ReachableStep(p, DoPick);
    p := Step(p, DoPick);
    ReachableStep(p, DoCheck);
    p := Step(p, DoCheck);
    ReachableStep(p, DoActivate);
    p := Step(p, DoActivate);
  }

  /** A snapshot cancel that has gone through the map while a restore runs. */
  lemma CancelOverRestore(snapshot: string) returns (p: Pool)
    ensures Reachable(p) && p.active == Some(0) && 0 in p.heap && p.heap[0].kind.RestoreTask?
    ensures 0 in p.cancels && p.cancels[0].target == OfSnapshot(snapshot) && p.cancels[0].pc.Ranging?
      && p.cancels[0].todo == {}
  {
    p := ActiveRestore("r");
    hide Reachable;
    ReachableStep(p, DoCancelBegin(0, OfSnapshot(snapshot)));
    p := Step(p, DoCancelBegin(0, OfSnapshot(snapshot)));
    ReachableStep(p, DoCancelVisit(0, "r"));
    p := Step(p, DoCancelVisit(0, "r"));
  }

  /** It can happen: cancelling any snapshot while a restore of the same owner is active. */
  lemma SnapshotCancelCanPanic(snapshot: string)
    ensures exists p ::
      && Reachable(p) && 0 in p.cancels
      && p.cancels[0].target == OfSnapshot(snapshot) && p.cancels[0].pc.Panicked?
  {
    var p := CancelOverRestore(snapshot);
    hide Reachable;
    ReachableStep(p, DoCancelLoad(0));
    p := Step(p, DoCancelLoad(0));
    ReachableStep(p, DoCancelEnd(0));
    p := Step(p, DoCancelEnd(0));
    assert p.cancels[0].pc.Panicked?;
  }

  // ---- a cancel that misses ----

  /** A backup task that has passed its check and is not yet in the active cell. */
  lemma TaskInGap() returns (p: Pool)
    ensures Reachable(p) && p.worker == Passed(0) && p.active == None && p.cancels == map[]
    ensures p.tasks == map["b_s" := 0] && p.heap == map[0 := Task("b_s", BackupTask, "b", "s", false, false)]
  {
    assert Empty == Run(Empty, []);
    p := Step(Empty, DoCheckBackup("b", "s"));
    ReachableStep(Empty, DoCheckBackup("b", "s"));
    assert BackupKey("b", "s") == "b_s";
    hide Reachable;
    ReachableStep(p, DoStoreBackup(0));
    p := Step(p, DoStoreBackup(0));
    ReachableStep(p, DoSubmitBackup(true));
    p := Step(p, DoSubmitBackup(true));
    assert p.queue == [0];
    ReachableStep(p, DoPick);
    p := Step(p, DoPick);
    ReachableStep(p, DoCheck);
    p := Step(p, DoCheck);
  }

  lemma CancelInGap() returns (p: Pool)
    ensures Reachable(p) && p.worker == Passed(0) && 0 in p.heap && !p.heap[0].ctxDone
    ensures MarkedBy(p, 0, 0) && p.cancels[0].target == OfSnapshot("s") && p.cancels[0].pc.Finished?
  {
    p := TaskInGap();
    hide Reachable;
    ReachableStep(p, DoCancelBegin(0, OfSnapshot("s")));
    p := Step(p, DoCancelBegin(0, OfSnapshot("s")));
    ReachableStep(p, DoCancelVisit(0, "b_s"));
    p := Step(p, DoCancelVisit(0, "b_s"));
    assert p.cancels[0].todo == {};
    ReachableStep(p, DoCancelLoad(0));
    p := Step(p, DoCancelLoad(0));
    ReachableStep(p, DoCancelEnd(0));
    p := Step(p, DoCancelEnd(0));
  }

  /** It can happen: the whole cancel falls between the check and the entry into the active
      cell, and the snapshot runs to its end all the same. */
  lemma CancelCanMiss()
    ensures exists p ::
      && Reachable(p) && MarkedBy(p, 0, 0) && 0 in p.heap && 0 in p.ran
      && p.cancels[0].target == OfSnapshot("s") && p.cancels[0].pc.Finished?
      && p.worker == Ended(0) && !p.heap[0].ctxDone
  {
    var p := CancelInGap();
    hide Reachable;
    ReachableStep(p, DoActivate);
    p := Step(p, DoActivate);
    ReachableStep(p, DoFinish);
    p := Step(p, DoFinish);
    assert Reachable(p) && MarkedBy(p, 0, 0) && 0 in p.heap && 0 in p.ran;
  }
}
