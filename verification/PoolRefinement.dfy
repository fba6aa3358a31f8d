/** The fine-grained pool refines the lanes of the engine. What both have in common is a track:
    the snapshots that wait, the one in Run, and whether its context has ended. Every step of
    the pool moves the track as a step of the engine does, and so does every whole run. */
module PoolRefinement {
  import opened Options
  import WorkerPool
  import PoolInvariants
  import PoolCancel
  import PoolTheorems
  import Engine
  import EngineInvariants
  import EngineEffects
  import EngineTheorems
  import EngineStopped

  datatype Track = Track(queue: seq<string>, run: Option<string>, ended: bool)

  const Nothing := Track([], None, false)

  predicate Pushes(t: Track, u: Track) {
    |u.queue| == |t.queue| + 1 && u == Track(t.queue + [u.queue[|t.queue|]], t.run, t.ended)
  }

  predicate Drops(t: Track, u: Track) {
    t.run.None? && t.queue != [] && u == Track(t.queue[1..], None, false)
  }

  predicate Enters(t: Track, u: Track) {
    t.run.None? && t.queue != [] && u == Track(t.queue[1..], Some(t.queue[0]), false)
  }

  predicate Ends(t: Track, u: Track) {
    t.run.Some? && u == Track(t.queue, None, false)
  }

  predicate Stops(t: Track, u: Track) {
    t.run.Some? && u == t.(ended := true)
  }

  /** Moves that need no submission. */
  predicate Moves(t: Track, u: Track) {
    u == t || Drops(t, u) || Enters(t, u) || Ends(t, u) || Stops(t, u)
  }

  // ---- the track of the pool ----

  /** The snapshots that handles run, where they are backup tasks. */
  function Snapshots(p: WorkerPool.Pool, q: seq<WorkerPool.Handle>): seq<string> {
    if q == [] then []
    else if q[0] in p.heap && p.heap[q[0]].kind.BackupTask? then [p.heap[q[0]].target] + Snapshots(p, q[1..])
    else Snapshots(p, q[1..])
  }

  /** The worker's task before it enters Run still counts as waiting. */
  function Starting(p: WorkerPool.Pool): seq<WorkerPool.Handle> {
    if p.worker.Picked? || p.worker.Passed? then [p.worker.h] else []
  }

  function Waiting(p: WorkerPool.Pool): seq<string> {
    Snapshots(p, Starting(p) + p.queue)
  }

  predicate Running(p: WorkerPool.Pool) {
    p.worker.Active? && p.worker.h in p.heap && p.heap[p.worker.h].kind.BackupTask?
  }

  function Seen(p: WorkerPool.Pool): Track {
    if Running(p) then Track(Waiting(p), Some(p.heap[p.worker.h].target), p.heap[p.worker.h].ctxDone)
    else Track(Waiting(p), None, false)
  }

  ghost predicate Inv(p: WorkerPool.Pool) {
    PoolInvariants.PoolInv(p) && PoolCancel.CancelInv(p)
  }

  lemma {:induction false} SnapshotsAppend(p: WorkerPool.Pool, a: seq<WorkerPool.Handle>, b: seq<WorkerPool.Handle>)
    ensures Snapshots(p, a + b) == Snapshots(p, a) + Snapshots(p, b)
  {
    if a == [] {
      assert a + b == b;
    } else {
      assert (a + b)[1..] == a[1..] + b;
      SnapshotsAppend(p, a[1..], b);
    }
  }

  /** Flags and contexts do not matter to what waits, nor do objects outside the queue. */
  lemma {:induction false} SnapshotsSame(p: WorkerPool.Pool, r: WorkerPool.Pool, q: seq<WorkerPool.Handle>)
    requires forall h :: h in q ==>
      h in p.heap && h in r.heap && p.heap[h].kind == r.heap[h].kind && p.heap[h].target == r.heap[h].target
    ensures Snapshots(p, q) == Snapshots(r, q)
  {
    if q != [] { SnapshotsSame(p, r, q[1..]); }
  }

  lemma LiveInHeap(p: WorkerPool.Pool, h: WorkerPool.Handle)
    requires PoolInvariants.PoolInv(p) && PoolInvariants.Live(p, h)
    ensures h in p.heap
  {
    assert PoolInvariants.InMap(p, h);
  }

  lemma AllInHeap(p: WorkerPool.Pool)
    requires PoolInvariants.PoolInv(p)
    ensures forall h :: h in Starting(p) + p.queue ==> h in p.heap
    ensures p.worker.Active? ==> p.worker.h in p.heap
  {
    forall h | h in Starting(p) + p.queue ensures h in p.heap { LiveInHeap(p, h); }
    if p.worker.Active? { LiveInHeap(p, p.worker.h); }
  }

  /** The objects stay what they are, and no context but that of the task in Run ends, unless the
      task waits for its place no more. */
  predicate SameTasks(p: WorkerPool.Pool, r: WorkerPool.Pool) {
    forall h :: h in p.heap ==>
      h in r.heap && p.heap[h].kind == r.heap[h].kind && p.heap[h].target == r.heap[h].target
      && (p.heap[h].ctxDone ==> r.heap[h].ctxDone)
  }

  /** Queue and worker are left alone. */
  lemma AsideMoves(p: WorkerPool.Pool, r: WorkerPool.Pool)
    requires PoolInvariants.PoolInv(p) && SameTasks(p, r) && r.queue == p.queue && r.worker == p.worker
    ensures Moves(Seen(p), Seen(r))
  {
    AllInHeap(p);
    SnapshotsSame(p, r, Starting(p) + p.queue);
  }

  predicate QuietAction(a: WorkerPool.Action) {
    || a.DoCheckBackup? || a.DoStoreBackup? || a.DoStoreRestore?
    || a.DoCancelBegin? || a.DoCancelVisit? || a.DoCancelLoad? || a.DoCancelEnd?
  }

  lemma QuietAside(p: WorkerPool.Pool, a: WorkerPool.Action)
    requires QuietAction(a)
    ensures var r := WorkerPool.Step(p, a); SameTasks(p, r) && r.queue == p.queue && r.worker == p.worker
  {
  }

  /** An accepted backup task waits at the end; a restore, or a refusal, is not seen. */
  lemma SubmitMoves(p: WorkerPool.Pool, h: WorkerPool.Handle, ok: bool, r: WorkerPool.Pool)
    requires PoolInvariants.PoolInv(p) && h in p.heap
    requires r == WorkerPool.Submit(p, h, ok).(backups := r.backups, restores := r.restores)
    ensures
      if ok && p.heap[h].kind.BackupTask? then Pushes(Seen(p), Seen(r)) && Seen(r).queue[|Seen(p).queue|] == p.heap[h].target
      else Moves(Seen(p), Seen(r))
  {
    if ok {
      AcceptWaits(p, h, r);
      hide PoolInvariants.PoolInv, Waiting;
    } else {
      AsideMoves(p, r);
    }
  }

  lemma AcceptWaits(p: WorkerPool.Pool, h: WorkerPool.Handle, r: WorkerPool.Pool)
    requires PoolInvariants.PoolInv(p) && h in p.heap
    requires r == p.(queue := p.queue + [h], backups := r.backups, restores := r.restores)
    ensures Waiting(r) == Waiting(p) + if p.heap[h].kind.BackupTask? then [p.heap[h].target] else []
  {
    AllInHeap(p);
    hide PoolInvariants.PoolInv;
    assert Starting(r) + r.queue == (Starting(p) + p.queue) + [h];
    SnapshotsAppend(p, Starting(p) + p.queue, [h]);
    SnapshotsSame(p, r, (Starting(p) + p.queue) + [h]);
    assert [h][1..] == [];
  }

  lemma PickMoves(p: WorkerPool.Pool)
    requires PoolInvariants.PoolInv(p)
    ensures Seen(WorkerPool.Pick(p)) == Seen(p)
  {
    var r := WorkerPool.Pick(p);
    AllInHeap(p);
    if r != p {
      assert Starting(r) + r.queue == Starting(p) + p.queue;
      SnapshotsSame(p, r, Starting(p) + p.queue);
    }
  }

  /** The head leaves the waiting tasks. */
  lemma HeadLeaves(p: WorkerPool.Pool, r: WorkerPool.Pool)
    requires PoolInvariants.PoolInv(p) && (p.worker.Picked? || p.worker.Passed?)
    requires r.heap == p.heap && r.queue == p.queue && !r.worker.Picked? && !r.worker.Passed?
    ensures p.worker.h in p.heap
    ensures Waiting(p) == (if p.heap[p.worker.h].kind.BackupTask? then [p.heap[p.worker.h].target] else []) + Waiting(r)
  {
    hide PoolInvariants.PoolInv;
    AllInHeap(p);
    assert Starting(p) + p.queue == [p.worker.h] + p.queue && ([p.worker.h] + p.queue)[1..] == p.queue;
    assert (Starting(p) + p.queue)[0] == p.worker.h && Starting(r) + r.queue == p.queue;
    SnapshotsSame(p, r, p.queue);
  }

  /** Passing the check changes nothing yet; being turned away drops the head. */
  lemma CheckMoves(p: WorkerPool.Pool)
    requires PoolInvariants.PoolInv(p)
    ensures Moves(Seen(p), Seen(WorkerPool.Check(p)))
  {
    var r := WorkerPool.Check(p);
    if r.worker.Ended? && p.worker.Picked? {
      HeadLeaves(p, r);
    } else {
      AllInHeap(p);
      SnapshotsSame(p, r, Starting(p) + p.queue);
    }
  }

  /** Entering Run moves the head, with its context. */
  lemma ActivateMoves(p: WorkerPool.Pool)
    requires Inv(p)
    ensures Moves(Seen(p), Seen(WorkerPool.Activate(p)))
  {
    if p.worker.Passed? {
      PassedContext(p);
      hide PoolCancel.CancelInv;
      HeadLeaves(p, WorkerPool.Activate(p));
    }
  }

  lemma PassedContext(p: WorkerPool.Pool)
    requires Inv(p) && p.worker.Passed?
    ensures p.worker.h in p.heap && !p.heap[p.worker.h].ctxDone
  {
    PoolCancel.PassedHasContext(p);
  }

  lemma FinishMoves(p: WorkerPool.Pool)
    requires PoolInvariants.PoolInv(p)
    ensures Moves(Seen(p), Seen(WorkerPool.Finish(p)))
  {
    AllInHeap(p);
    hide PoolInvariants.PoolInv;
    SnapshotsEqual(p, WorkerPool.Finish(p), Starting(p) + p.queue);
  }

  /** What comes after Run is not seen. */
  lemma AfterMoves(p: WorkerPool.Pool)
    ensures Moves(Seen(p), Seen(WorkerPool.Remove(p))) && Moves(Seen(p), Seen(WorkerPool.Clear(p)))
  {
    SnapshotsEqual(p, WorkerPool.Remove(p), Starting(p) + p.queue);
    SnapshotsEqual(p, WorkerPool.Clear(p), Starting(p) + p.queue);
  }

  /** The handle that a step submits, and the pool takes. */
  function Submitted(p: WorkerPool.Pool, a: WorkerPool.Action): Option<WorkerPool.Handle> {
    match a
    case DoSubmitBackup(true) => if p.backups.Stored? then Some(p.backups.h) else None
    case DoSubmitRestore(true) => if p.restores.Stored? then Some(p.restores.h) else None
    case _ => None
  }

  /** The step hands a snapshot to the pool. */
  predicate Submits(p: WorkerPool.Pool, a: WorkerPool.Action) {
    var h := Submitted(p, a);
    h.Some? && h.value in p.heap && p.heap[h.value].kind.BackupTask?
  }

  /** Every step of the pool that submits no snapshot is a move of the track, and a submission is
      that snapshot at its end. */
  lemma StepRefines(p: WorkerPool.Pool, a: WorkerPool.Action)
    requires Inv(p)
    ensures
      var t, u := Seen(p), Seen(WorkerPool.Step(p, a));
      if Submits(p, a) then Pushes(t, u) && u.queue[|t.queue|] == p.heap[Submitted(p, a).value].target else Moves(t, u)
  {
    hide PoolCancel.CancelInv, PoolInvariants.PoolInv, Seen, Pushes, Moves;
    var r := WorkerPool.Step(p, a);
    match a
    case DoSubmitBackup(ok) => HandleMoves(p, p.backups, ok, r);
    case DoSubmitRestore(ok) => HandleMoves(p, p.restores, ok, r);
    case DoPick =>
      PickMoves(p);
      Stutter(Seen(p));
    case DoCheck => CheckMoves(p);
    case DoActivate => ActivateMoves(p);
    case DoFinish => FinishMoves(p);
    case DoRemove => AfterMoves(p);
    case DoClear => AfterMoves(p);
    case _ =>
      QuietAside(p, a);
      AsideMoves(p, r);
  }

  lemma Stutter(t: Track)
    ensures Moves(t, t)
  {
  }

  lemma HandleMoves(p: WorkerPool.Pool, k: WorkerPool.Submitter, ok: bool, r: WorkerPool.Pool)
    requires PoolInvariants.PoolInv(p)
    requires r == if !k.Stored? then p else WorkerPool.Submit(p, k.h, ok).(backups := r.backups, restores := r.restores)
    ensures
      if k.Stored? && ok && k.h in p.heap && p.heap[k.h].kind.BackupTask?
      then Pushes(Seen(p), Seen(r)) && Seen(r).queue[|Seen(p).queue|] == p.heap[k.h].target
      else Moves(Seen(p), Seen(r))
  {
    if k.Stored? && k.h in p.heap {
      SubmitMoves(p, k.h, ok, r);
    } else {
      SameMoves(p, r);
      Stutter(Seen(p));
    }
  }

  lemma SameMoves(p: WorkerPool.Pool, r: WorkerPool.Pool)
    requires r.heap == p.heap && r.queue == p.queue && r.worker == p.worker
    ensures Seen(r) == Seen(p)
  {
    SnapshotsEqual(p, r, Starting(p) + p.queue);
  }

  lemma {:induction false} SnapshotsEqual(p: WorkerPool.Pool, r: WorkerPool.Pool, q: seq<WorkerPool.Handle>)
    requires r.heap == p.heap
    ensures Snapshots(p, q) == Snapshots(r, q)
  {
    if q != [] { SnapshotsEqual(p, r, q[1..]); }
  }

  // ---- the track of the engine ----

  function TrackOf(s: Engine.State, o: Engine.Owner): Track {
    var l := Engine.LaneOf(s, o);
    if l.run.Some? then Track(l.queue, Some(l.run.value.id), l.run.value.id in s.stopped) else Track(l.queue, None, false)
  }

  /** Every move is a step of the engine: being turned away or starting, ending, and losing the
      context, here at the hands of a deletion. */
  lemma MoveIsEngineStep(s: Engine.State, o: Engine.Owner, u: Track) returns (a: Engine.Action)
    requires EngineTheorems.Reachable(s) && Moves(TrackOf(s, o), u) && u != TrackOf(s, o)
    ensures TrackOf(Engine.Step(s, a), o) == u
    ensures (a.OnStore? && a.store.DoStopBackup?) || (a.OnTask? && (a.task.DoStart? || a.task.DoEnd?))
  {
    var t := TrackOf(s, o);
    EngineLane(s, o);
    hide EngineTheorems.Reachable;
    if Drops(t, u) && !Enters(t, u) {
      a := Engine.OnTask(o, Engine.DoStart(true));
    } else if Enters(t, u) {
      a := Engine.OnTask(o, Engine.DoStart(false));
    } else if Ends(t, u) {
      a := Engine.OnTask(o, Engine.DoEnd);
    } else {
      a := Engine.OnStore(Engine.DoStopBackup(Engine.TaskOf(s, o).backup));
    }
  }

  lemma EngineLane(s: Engine.State, o: Engine.Owner)
    requires EngineTheorems.Reachable(s)
    ensures
      var l := Engine.LaneOf(s, o);
      && (l.queue != [] ==> l.queue[0] in s.home && l.queue[0] !in s.stopped)
      && (l.run.Some? ==> l.run.value.backup in s.owner && s.owner[l.run.value.backup] == o)
  {
    EngineTheorems.ReachedInv(s);
    var l := Engine.LaneOf(s, o);
    hide EngineTheorems.Reachable;
    if o in s.lanes {
      assert EngineInvariants.LaneShape(s, o, l);
      if l.queue != [] {
        assert EngineInvariants.TaskHome(s, o, l.queue[0]);
        EngineTheorems.WaitingHasContext(s, o, 0);
      }
    }
  }

  /** A submission of the pool is a step of the engine when its reconciler holds that snapshot,
      newly created and read as pending, for a backup of that owner. */
  lemma PushIsEngineStep(s: Engine.State, o: Engine.Owner, u: Track)
    requires Pushes(TrackOf(s, o), u)
    requires EngineInvariants.Submits(s, true) && s.owner[s.worker.obj.spec.backup] == o
    requires u.queue[|TrackOf(s, o).queue|] == s.worker.id
    ensures TrackOf(Engine.Step(s, Engine.OnWorker(Engine.DoDispatch(true))), o) == u
  {
  }

  // ---- whole runs ----

  /** No step hands a snapshot to the pool. */
  predicate NoSubmission(p: WorkerPool.Pool, steps: seq<WorkerPool.Action>)
    decreases |steps|
  {
    steps != [] ==> !Submits(p, steps[0]) && NoSubmission(WorkerPool.Step(p, steps[0]), steps[1..])
  }

  lemma InvStep(p: WorkerPool.Pool, a: WorkerPool.Action)
    requires Inv(p)
    ensures Inv(WorkerPool.Step(p, a))
  {
    hide PoolInvariants.PoolInv, PoolCancel.CancelInv;
    PoolInvariants.StepInv(p, a);
    if a.DoCancelBegin? || a.DoCancelVisit? || a.DoCancelLoad? || a.DoCancelEnd? {
      PoolCancel.CancelStepInv(p, a);
    } else {
      PoolCancel.OtherStepInv(p, a);
    }
  }

  /** Between submissions, whatever the pool does over a whole run is a run of the engine, from
      any reachable state that shows the same track. */
  lemma {:induction false} RunRefines(s: Engine.State, o: Engine.Owner, p: WorkerPool.Pool, steps: seq<WorkerPool.Action>)
    returns (moves: seq<Engine.Action>)
    requires EngineTheorems.Reachable(s) && Inv(p) && TrackOf(s, o) == Seen(p) && NoSubmission(p, steps)
    ensures TrackOf(Engine.Run(s, moves), o) == Seen(WorkerPool.Run(p, steps))
    decreases |steps|
  {
    hide EngineTheorems.Reachable, Inv, Seen, TrackOf, Moves, Submits, WorkerPool.Step, Engine.Step;
    if steps == [] {
      moves := [];
    } else {
      var q := WorkerPool.Step(p, steps[0]);
      StepRefines(p, steps[0]);
      InvStep(p, steps[0]);
      if Seen(q) == TrackOf(s, o) {
        moves := RunRefines(s, o, q, steps[1..]);
      } else {
        var a := MoveIsEngineStep(s, o, Seen(q));
        EngineTheorems.ReachableStep(s, a);
        var rest := RunRefines(Engine.Step(s, a), o, q, steps[1..]);
        moves := [a] + rest;
        assert moves[1..] == rest;
      }
    }
  }

  /** No part of the lane changes but the program counter. */
  lemma SameTrack(s: Engine.State, t: Engine.State, o: Engine.Owner)
    requires t.lanes == s.lanes && t.stopped == s.stopped
    ensures TrackOf(t, o) == TrackOf(s, o)
  {
  }

  /** One more context has ended: that of the task in the one lane where it can run. */
  lemma StopMoves(s: Engine.State, o: Engine.Owner, p: Engine.Owner)
    requires EngineInvariants.Shape(s) && Engine.Runs(s, p)
    ensures Moves(TrackOf(s, o), TrackOf(s.(stopped := s.stopped + {Engine.TaskOf(s, p).id}), o))
  {
    assert EngineInvariants.LaneShape(s, p, s.lanes[p]);
    if o in s.lanes { assert EngineInvariants.LaneShape(s, o, s.lanes[o]); }
  }

  lemma StoreMoves(s: Engine.State, o: Engine.Owner, a: Engine.StoreAction)
    requires EngineInvariants.Shape(s)
    ensures Moves(TrackOf(s, o), TrackOf(Engine.StoreStep(s, a), o))
  {
    if a.DoStopBackup? && Engine.StopBackup(s, a.b) != s {
      StopMoves(s, o, s.owner[a.b]);
    } else {
      SameTrack(s, Engine.StoreStep(s, a), o);
    }
  }

  lemma TaskMoves(s: Engine.State, o: Engine.Owner, p: Engine.Owner, a: Engine.TaskAction)
    requires EngineInvariants.Sound(s)
    requires var l := Engine.LaneOf(s, o); l.queue != [] ==> l.queue[0] !in s.stopped
    ensures Moves(TrackOf(s, o), TrackOf(Engine.TaskStep(s, p, a), o))
  {
    var t := Engine.TaskStep(s, p, a);
    EngineEffects.TaskEffect(s, p, a);
    EngineEffects.TaskStepLeaves(s, p, a);
    hide Engine.TaskStep, EngineInvariants.Sound, EngineEffects.Commits, EngineEffects.PcNext,
      EngineEffects.TaskCalm, EngineEffects.TaskStarts, EngineEffects.TaskFinishes, Moves;
    if t == s {
      Stutter(TrackOf(s, o));
    } else if EngineEffects.TaskCalm(s, p, t) {
      CalmMoves(s, o, p, t);
    } else {
      CommitMoves(s, o, p, t);
    }
  }

  lemma CalmMoves(s: Engine.State, o: Engine.Owner, p: Engine.Owner, t: Engine.State)
    requires EngineEffects.TaskCalm(s, p, t)
    requires var l := Engine.LaneOf(s, o); l.queue != [] ==> l.queue[0] !in s.stopped
    ensures Moves(TrackOf(s, o), TrackOf(t, o))
  {
    hide EngineEffects.PcNext;
  }

  lemma CommitMoves(s: Engine.State, o: Engine.Owner, p: Engine.Owner, t: Engine.State)
    requires EngineEffects.TaskStarts(s, p, t) || EngineEffects.TaskFinishes(s, p, t)
    ensures Moves(TrackOf(s, o), TrackOf(t, o))
  {
    hide EngineInvariants.Held, EngineInvariants.HeldByTask;
  }

  lemma DispatchMoves(s: Engine.State, o: Engine.Owner, accepted: bool)
    ensures var t, u := TrackOf(s, o), TrackOf(Engine.Dispatch(s, accepted), o); t == u || Pushes(t, u)
  {
  }

  lemma NotifyMoves(s: Engine.State, o: Engine.Owner, ok: bool)
    requires EngineInvariants.Shape(s)
    ensures Moves(TrackOf(s, o), TrackOf(Engine.Notify(s, ok), o))
  {
    var t := Engine.StopFound(s);
    if t != s { StopMoves(s, o, s.owner[s.worker.obj.spec.backup]); }
    hide EngineInvariants.Shape, Engine.StopFound;
    SameTrack(t, Engine.Report(t, ok), o);
  }

  lemma WorkerKeepsLanes(s: Engine.State, a: Engine.WorkerAction)
    requires !a.DoDispatch? && !a.DoNotify?
    ensures Engine.WorkerStep(s, a).lanes == s.lanes && Engine.WorkerStep(s, a).stopped == s.stopped
  {
    if a.DoFixCommit? || a.DoFlagCommit? { CommitKeepsLanes(s); } else { HandKeepsLanes(s, a); }
    hide Engine.FixCommit, Engine.FlagCommit, Engine.Seek, Engine.GiveUp, Engine.FixRead, Engine.Deliver, Engine.Take,
      Engine.Retry, Engine.ReadSnapshot, Engine.ReadBackup;
  }

  lemma CommitKeepsLanes(s: Engine.State)
    ensures Engine.FixCommit(s).lanes == s.lanes && Engine.FixCommit(s).stopped == s.stopped
    ensures Engine.FlagCommit(s).lanes == s.lanes && Engine.FlagCommit(s).stopped == s.stopped
  {
  }

  lemma HandKeepsLanes(s: Engine.State, a: Engine.WorkerAction)
    requires !a.DoDispatch? && !a.DoNotify? && !a.DoFixCommit? && !a.DoFlagCommit?
    ensures Engine.WorkerStep(s, a).lanes == s.lanes && Engine.WorkerStep(s, a).stopped == s.stopped
  {
    if a.DoFixRead? || a.DoSeek? || a.DoGiveUp? {
      BranchKeepsLanes(s, if a.DoFixRead? then a.rest else 0);
    } else {
      QueueKeepsLanes(s, if a.DoTake? then a.id else "");
    }
    hide Engine.Seek, Engine.GiveUp, Engine.FixRead, Engine.Deliver, Engine.Take, Engine.Retry, Engine.ReadSnapshot,
      Engine.ReadBackup;
  }

  predicate SameLanes(s: Engine.State, t: Engine.State) {
    t.lanes == s.lanes && t.stopped == s.stopped
  }

  lemma BranchKeepsLanes(s: Engine.State, rest: int)
    ensures SameLanes(s, Engine.Seek(s)) && SameLanes(s, Engine.GiveUp(s)) && SameLanes(s, Engine.FixRead(s, rest))
  {
    hide Engine.InRun;
  }

  lemma QueueKeepsLanes(s: Engine.State, id: string)
    ensures SameLanes(s, Engine.Deliver(s)) && SameLanes(s, Engine.Take(s, id)) && SameLanes(s, Engine.Retry(s))
    ensures SameLanes(s, Engine.ReadSnapshot(s)) && SameLanes(s, Engine.ReadBackup(s))
  {
  }

  /** The other way round: whatever the engine does to a lane over a step is a move of its track,
      or a submission, unless the process ends. */
  lemma EngineStepMoves(s: Engine.State, o: Engine.Owner, a: Engine.Action)
    requires EngineTheorems.Reachable(s) && !a.OnRestart?
    ensures
      var t, u := TrackOf(s, o), TrackOf(Engine.Step(s, a), o);
      Moves(t, u) || Pushes(t, u)
  {
    EngineLane(s, o);
    EngineTheorems.ReachedInv(s);
    hide EngineTheorems.Reachable, EngineInvariants.Shape, EngineInvariants.AllHeld, TrackOf,
      Engine.StoreStep, Engine.ClientStep, Engine.TaskStep, Engine.Dispatch, Engine.Notify;
    match a
    case OnStore(b) => StoreMoves(s, o, b);
    case OnClient(n, b) =>
      EngineEffects.ClientStepLeaves(s, n, b);
      SameTrack(s, Engine.ClientStep(s, n, b), o);
    case OnTask(p, b) => TaskMoves(s, o, p, b);
    case OnWorker(b) =>
      if b.DoDispatch? {
        DispatchMoves(s, o, b.accepted);
      } else if b.DoNotify? {
        NotifyMoves(s, o, b.ok);
      } else {
        WorkerKeepsLanes(s, b);
        hide Engine.WorkerStep;
        SameTrack(s, Engine.WorkerStep(s, b), o);
      }
  }
}
