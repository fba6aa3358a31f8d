/** At most one snapshot of a backup is both Completed and of type Fully. */
module EngineFull {
  import opened Options
  import opened Snapshots
  import opened Versioned
  import opened Engine
  import opened EngineInvariants
  import opened EngineEffects

  predicate OneFull(s: State) {
    forall a, b :: a in s.snaps && b in s.snaps && a != b && s.snaps[a].spec.backup == s.snaps[b].spec.backup ==>
      !(IsFull(s.snaps[a].spec) && IsFull(s.snaps[b].spec))
  }

  predicate ChoseFull(s: State, o: Owner) {
    Runs(s, o) && Chosen(TaskOf(s, o).pc) == Some(Fully)
  }

  /** While a task that found no completed snapshot runs, there still is none. */
  predicate StillFirst(s: State) {
    forall o :: o in s.lanes && ChoseFull(s, o) ==> !HasCompleted(s, TaskOf(s, o).backup)
  }

  predicate FullInv(s: State) {
    OneFull(s) && StillFirst(s)
  }

  /** Steps that complete nothing and choose nothing. */
  lemma FullQuiet(s: State, t: State)
    requires FullInv(s)
    requires forall id :: id in t.snaps && t.snaps[id].spec.phase.Completed? ==>
      id in s.snaps && s.snaps[id].spec.phase.Completed?
      && s.snaps[id].spec.kind == t.snaps[id].spec.kind && s.snaps[id].spec.backup == t.snaps[id].spec.backup
    requires forall o :: o in t.lanes && ChoseFull(t, o) ==>
      ChoseFull(s, o) && TaskOf(s, o).backup == TaskOf(t, o).backup
    ensures FullInv(t)
  {
  }

  /** Only updateBackupResult completes a snapshot. */
  lemma CommitQuiet(s: State, actor: Actor, w: Update)
    requires Held(s, actor, w) && Fresh(s.snaps, w) && (w.next.phase.Completed? ==> !actor.ByFinish?)
    ensures forall id :: id in Commit(s, actor, w).snaps && Commit(s, actor, w).snaps[id].spec.phase.Completed? ==>
      id in s.snaps && s.snaps[id].spec.phase.Completed?
      && s.snaps[id].spec.kind == Commit(s, actor, w).snaps[id].spec.kind
      && s.snaps[id].spec.backup == Commit(s, actor, w).snaps[id].spec.backup
  {
  }

  /** A calm task step may choose Fully only when nothing is completed. */
  lemma FullCalm(s: State, o: Owner, t: State)
    requires FullInv(s) && TaskCalm(s, o, t)
    ensures FullInv(t)
  {
  }

  lemma FullFailed(s: State, o: Owner, t: State)
    requires FullInv(s) && TaskFinishes(s, o, t) && !TaskOf(s, o).pc.w.next.phase.Completed?
    ensures FullInv(t)
  {
    hide FullInv;
    CommitQuiet(s, ByFinish(TaskOf(s, o).id), TaskOf(s, o).pc.w);
    FullQuiet(s, t);
  }

  /** It completes as the type that its task chose; and a task that chose Fully found nothing. */
  lemma CompletedIsOnly(s: State, o: Owner, t: State)
    requires Sound(s) && FullInv(s) && TaskFinishes(s, o, t) && TaskOf(s, o).pc.w.next.phase.Completed?
    ensures OneFull(t)
  {
    var r := TaskOf(s, o);
    assert Chosen(r.pc) == Some(r.pc.w.next.kind);
    assert LaneShape(s, o, s.lanes[o]);
    hide AllHeld, LaneShape;
  }

  lemma CompletedIsAlone(s: State, o: Owner, t: State)
    requires Sound(s) && FullInv(s) && TaskFinishes(s, o, t) && TaskOf(s, o).pc.w.next.phase.Completed?
    ensures StillFirst(t)
  {
    assert LaneShape(s, o, s.lanes[o]);
    var b := s.home[TaskOf(s, o).id];
    assert forall x :: x != b && HasCompleted(t, x) ==> HasCompleted(s, x) by { OthersCompleted(s, o, t, b); }
    forall p | p in t.lanes && ChoseFull(t, p) ensures !HasCompleted(t, TaskOf(t, p).backup) {
      assert LaneShape(s, p, s.lanes[p]);
    }
    hide AllHeld, HasCompleted;
  }

  /** Of other backups, no more snapshots are completed than before. */
  lemma OthersCompleted(s: State, o: Owner, t: State, b: Id)
    requires Shape(s) && TaskFinishes(s, o, t) && b == s.home[TaskOf(s, o).pc.w.id]
    ensures forall x :: x != b && HasCompleted(t, x) ==> HasCompleted(s, x)
  {
    hide LaneShape;
  }

  lemma FullFinish(s: State, o: Owner, t: State)
    requires Sound(s) && FullInv(s) && TaskFinishes(s, o, t)
    ensures FullInv(t)
  {
    hide Sound, OneFull, StillFirst, Commits;
    if TaskOf(s, o).pc.w.next.phase.Completed? {
      CompletedIsOnly(s, o, t);
      CompletedIsAlone(s, o, t);
    } else {
      FullFailed(s, o, t);
    }
  }

  lemma FullStart(s: State, o: Owner, t: State)
    requires FullInv(s) && TaskStarts(s, o, t)
    ensures FullInv(t)
  {
    hide FullInv;
    CommitQuiet(s, ByStart(TaskOf(s, o).id), TaskOf(s, o).pc.w);
    FullQuiet(s, t);
  }

  lemma FullStore(s: State, a: StoreAction)
    requires Sound(s) && FullInv(s)
    ensures FullInv(StoreStep(s, a))
  {
    assert s.snaps.Keys <= s.home.Keys;
    hide Sound, FullInv;
    FullQuiet(s, StoreStep(s, a));
  }

  lemma FullClient(s: State, n: nat, a: ClientAction)
    requires Sound(s) && FullInv(s)
    ensures FullInv(ClientStep(s, n, a))
  {
    var t := ClientStep(s, n, a);
    if a.DoCommit? && t != s {
      assert HeldByClient(s, s.clients[n]);
      CommitQuiet(s, s.clients[n].actor, s.clients[n].w);
    }
    FullQuiet(s, t);
  }

  lemma FullTask(s: State, o: Owner, a: TaskAction)
    requires Sound(s) && FullInv(s)
    ensures FullInv(TaskStep(s, o, a))
  {
    var t := TaskStep(s, o, a);
    TaskEffect(s, o, a);
    hide TaskStep, Sound, FullInv, TaskCalm, TaskFinishes, TaskStarts;
    if TaskCalm(s, o, t) {
      FullCalm(s, o, t);
    } else if TaskFinishes(s, o, t) {
      FullFinish(s, o, t);
    } else if TaskStarts(s, o, t) {
      FullStart(s, o, t);
    }
  }

  lemma FullWorkerCommit(s: State, t: State)
    requires FullInv(s) && WorkerCommits(s, t)
    ensures FullInv(t)
  {
    hide FullInv;
    CommitQuiet(s, if s.worker.FixWriting? then ByRecovery else ByNotify, s.worker.w);
    FullQuiet(s, t);
  }

  lemma FullWorkerCalm(s: State, t: State)
    requires FullInv(s) && WorkerCalm(s, t)
    ensures FullInv(t)
  {
    hide FullInv;
    FullQuiet(s, t);
  }

  lemma FullWorker(s: State, a: WorkerAction)
    requires Sound(s) && FullInv(s)
    ensures FullInv(WorkerStep(s, a))
  {
    var t := WorkerStep(s, a);
    WorkerEffect(s, a);
    hide WorkerStep, Sound, FullInv, WorkerCalm, WorkerCommits;
    if WorkerCommits(s, t) {
      FullWorkerCommit(s, t);
    } else if WorkerCalm(s, t) {
      FullWorkerCalm(s, t);
    }
  }

  lemma FullStep(s: State, a: Action)
    requires Sound(s) && FullInv(s)
    ensures FullInv(Step(s, a))
  {
    hide Sound, FullInv;
    match a
    case OnStore(b) => FullStore(s, b);
    case OnClient(n, b) => FullClient(s, n, b);
    case OnTask(o, b) => FullTask(s, o, b);
    case OnWorker(b) => FullWorker(s, b);
    case OnRestart(order) => FullRestart(s, order);
  }

  lemma FullRestart(s: State, order: seq<Id>)
    requires FullInv(s)
    ensures FullInv(Restart(s, order))
  {
  }
}
