/** Whole runs of the fine-grained pool, submissions included, are runs of the engine. */
module PoolRuns {
  import opened Options
  import opened Snapshots
  import opened Engine
  import opened EngineInvariants
  import opened EngineTheorems
  import opened PoolRefinement
  import WorkerPool
  import PoolInvariants
  import PoolCancel

  /** The reconciler of the engine is free, the watch has delivered everything, the backup `b` of
      owner `o` is stored, and every snapshot there ever was is among `used`. */
  predicate Calm(s: State, b: Id, o: Owner, used: set<Id>) {
    && s.worker.Idle? && s.events == [] && b in s.backups && b in s.owner && s.owner[b] == o
    && s.clock > s.start && s.home.Keys <= used
  }

  /** Every snapshot is handed to the pool at most once, and none of `used`. */
  predicate AtMostOnce(p: WorkerPool.Pool, steps: seq<WorkerPool.Action>, used: set<Id>)
    decreases |steps|
  {
    steps != [] ==>
      var more := HandedOver(p, steps[0]);
      more !! used && AtMostOnce(WorkerPool.Step(p, steps[0]), steps[1..], used + more)
  }

  function HandedOver(p: WorkerPool.Pool, a: WorkerPool.Action): set<Id> {
    if PoolRefinement.Submits(p, a) then {p.heap[Submitted(p, a).value].target} else {}
  }

  /** From this state the engine keeps step: after every action of the pool it can run to a state
      with the track that the pool then shows. */
  ghost predicate Mirrors(s: State, o: Owner, p: WorkerPool.Pool, steps: seq<WorkerPool.Action>)
    decreases |steps|
  {
    && TrackOf(s, o) == Seen(p)
    && (steps != [] ==> exists moves :: Mirrors(Engine.Run(s, moves), o, WorkerPool.Step(p, steps[0]), steps[1..]))
  }

  // ---- a submission ----

  /** The engine's state on the way of one snapshot into the lane. */
  predicate OnItsWay(s: State, t: State, b: Id, o: Owner, used: set<Id>, id: Id, k: Worker) {
    && t.lanes == s.lanes && t.stopped == s.stopped && t.start == s.start && t.clock == s.clock
    && t.owner == s.owner && t.backups == s.backups && t.home.Keys <= used + {id}
    && Calm(s, b, o, used)
    && id in t.snaps && t.snaps[id].spec == NewSnapshot(b, 0) && NewlyCreated(t, id)
    && t.worker == k
  }

  lemma Announce(s: State, b: Id, o: Owner, used: set<Id>, id: Id) returns (moves: seq<Action>, t: State)
    requires Reachable(s) && Calm(s, b, o, used) && id !in used
    ensures t == Engine.Run(s, moves) && Reachable(t)
    ensures OnItsWay(s, t, b, o, used, id, Taken(id)) && t.events == []
  {
    hide Reachable;
    var a := OnStore(DoAddSnapshot(id, b, s.clock, 0));
    ReachableStep(s, a);
    t := AddSnapshot(s, id, b, s.clock, 0);
    ReachableStep(t, OnWorker(DoDeliver));
    t := Deliver(t);
    ReachableStep(t, OnWorker(DoTake(id)));
    t := Take(t, id);
    moves := [a, OnWorker(DoDeliver), OnWorker(DoTake(id))];
    RunThree(s, a, OnWorker(DoDeliver), OnWorker(DoTake(id)));
  }

  lemma RunThree(s: State, a: Action, b: Action, c: Action)
    ensures Engine.Run(s, [a, b, c]) == Step(Step(Step(s, a), b), c)
  {
    hide Step;
    var x, y, z := Step(s, a), Step(Step(s, a), b), Step(Step(Step(s, a), b), c);
    assert [a, b, c][1..] == [b, c] && [b, c][1..] == [c] && [c][1..] == [];
    assert Engine.Run(z, []) == z && Engine.Run(y, [c]) == z && Engine.Run(x, [b, c]) == z;
  }

  lemma Accept(s: State, t: State, b: Id, o: Owner, used: set<Id>, id: Id) returns (moves: seq<Action>, u: State)
    requires Reachable(t) && OnItsWay(s, t, b, o, used, id, Taken(id)) && t.events == []
    ensures u == Engine.Run(t, moves) && Reachable(u) && Calm(u, b, o, used + {id})
    ensures TrackOf(u, o) == TrackOf(s, o).(queue := TrackOf(s, o).queue + [id])
  {
    hide Reachable;
    ReachableStep(t, OnWorker(DoReadSnapshot));
    var r := ReadSnapshot(t);
    ReachableStep(r, OnWorker(DoReadBackup));
    r := ReadBackup(r);
    ReachableStep(r, OnWorker(DoDispatch(true)));
    u := Dispatch(r, true);
    moves := [OnWorker(DoReadSnapshot), OnWorker(DoReadBackup), OnWorker(DoDispatch(true))];
    RunThree(t, OnWorker(DoReadSnapshot), OnWorker(DoReadBackup), OnWorker(DoDispatch(true)));
  }

  lemma {:induction false} RunBoth(s: State, a: seq<Action>, b: seq<Action>)
    ensures Engine.Run(s, a + b) == Engine.Run(Engine.Run(s, a), b)
    decreases |a|
  {
    hide Step;
    if a == [] {
      assert a + b == b;
    } else {
      assert (a + b)[1..] == a[1..] + b;
      RunBoth(Step(s, a[0]), a[1..], b);
    }
  }

  lemma Submit(s: State, b: Id, o: Owner, used: set<Id>, id: Id) returns (moves: seq<Action>)
    requires Reachable(s) && Calm(s, b, o, used) && id !in used
    ensures
      var u := Engine.Run(s, moves);
      && Reachable(u) && Calm(u, b, o, used + {id})
      && TrackOf(u, o) == TrackOf(s, o).(queue := TrackOf(s, o).queue + [id])
  {
    hide Reachable, Calm, OnItsWay, TrackOf, Engine.Run;
    var first, t := Announce(s, b, o, used, id);
    var rest, u := Accept(s, t, b, o, used, id);
    RunBoth(s, first, rest);
    moves := first + rest;
  }

  // ---- every other step ----

  lemma Move(s: State, b: Id, o: Owner, used: set<Id>, u: Track) returns (moves: seq<Action>)
    requires Reachable(s) && Calm(s, b, o, used) && Moves(TrackOf(s, o), u)
    ensures var t := Engine.Run(s, moves); Reachable(t) && Calm(t, b, o, used) && TrackOf(t, o) == u
  {
    if u == TrackOf(s, o) {
      moves := [];
    } else {
      hide Reachable, Moves, TrackOf, Calm, Step;
      var a := MoveIsEngineStep(s, o, u);
      StaysCalm(s, a, b, o, used);
      ReachableStep(s, a);
      moves := [a];
      assert moves[1..] == [];
    }
  }

  lemma StaysCalm(s: State, a: Action, b: Id, o: Owner, used: set<Id>)
    requires Calm(s, b, o, used)
    requires (a.OnStore? && a.store.DoStopBackup?) || (a.OnTask? && (a.task.DoStart? || a.task.DoEnd?))
    ensures Calm(Step(s, a), b, o, used)
  {
  }

  lemma Follow(s: State, b: Id, o: Owner, used: set<Id>, p: WorkerPool.Pool, a: WorkerPool.Action)
    returns (moves: seq<Action>)
    requires Reachable(s) && Calm(s, b, o, used) && PoolRefinement.Inv(p) && TrackOf(s, o) == Seen(p)
    requires HandedOver(p, a) !! used
    ensures
      var t := Engine.Run(s, moves);
      && Reachable(t) && Calm(t, b, o, used + HandedOver(p, a)) && TrackOf(t, o) == Seen(WorkerPool.Step(p, a))
  {
    hide Reachable, Calm, PoolRefinement.Inv, TrackOf, Seen, Moves, WorkerPool.Step, Engine.Run;
    StepRefines(p, a);
    if PoolRefinement.Submits(p, a) {
      moves := Submit(s, b, o, used, p.heap[Submitted(p, a).value].target);
    } else {
      moves := Move(s, b, o, used, Seen(WorkerPool.Step(p, a)));
      assert used + {} == used;
    }
  }

  // ---- whole runs ----

  lemma {:induction false} CalmMirrors(s: State, b: Id, o: Owner, used: set<Id>, p: WorkerPool.Pool,
                                       steps: seq<WorkerPool.Action>)
    requires Reachable(s) && Calm(s, b, o, used) && PoolRefinement.Inv(p) && TrackOf(s, o) == Seen(p)
    requires AtMostOnce(p, steps, used)
    ensures Mirrors(s, o, p, steps)
    decreases |steps|
  {
    hide Reachable, Calm, PoolRefinement.Inv, TrackOf, Seen, HandedOver, WorkerPool.Step, Engine.Run;
    if steps != [] {
      var moves := Follow(s, b, o, used, p, steps[0]);
      PoolRefinement.InvStep(p, steps[0]);
      CalmMirrors(Engine.Run(s, moves), b, o, used + HandedOver(p, steps[0]), WorkerPool.Step(p, steps[0]), steps[1..]);
    }
  }

  lemma EmptyInv()
    ensures PoolRefinement.Inv(WorkerPool.Empty) && Seen(WorkerPool.Empty) == Nothing
  {
  }

  lemma Stored(b: Id, o: Owner) returns (s: State)
    ensures Reachable(s) && Calm(s, b, o, {}) && TrackOf(s, o) == Nothing
  {
    assert Initial == Engine.Run(Initial, []);
    ReachableStep(Initial, OnStore(DoAddBackup(b, o)));
    s := AddBackup(Initial, b, o);
    hide Reachable, Engine.Run;
    ReachableStep(s, OnStore(DoTick(1)));
    s := Tick(s, 1);
  }

  /** Everything that the pool of an owner can do from its creation on, with submissions, refusals,
      cancels and ends in any order, the engine does too, from a reachable state and step by step:
      in every run in which no snapshot is submitted twice, which SubmittedOnce rules out. */
  lemma PoolRunIsEngineRun(b: Id, o: Owner, steps: seq<WorkerPool.Action>)
    requires AtMostOnce(WorkerPool.Empty, steps, {})
    ensures exists s :: Reachable(s) && Calm(s, b, o, {}) && Mirrors(s, o, WorkerPool.Empty, steps)
  {
    var s := Stored(b, o);
    EmptyInv();
    hide Reachable, Calm, PoolRefinement.Inv, TrackOf, Seen, AtMostOnce;
    CalmMirrors(s, b, o, {}, WorkerPool.Empty, steps);
  }
}
