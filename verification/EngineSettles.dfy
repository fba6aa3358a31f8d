/** Left alone with working calls, the snapshot controller comes to rest. */
module EngineSettles {
  import opened Options
  import opened Snapshots
  import opened Versioned
  import opened Engine
  import opened EngineInvariants
  import opened EngineTheorems

  /** A step of the watch or the reconciler that does something, with every call working: reads
      and notifications succeed, and a write is given up only when its snapshot is gone or its
      version was overtaken. */
  predicate Works(s: State, a: WorkerAction) {
    match a
    case DoDeliver => s.events != []
    case DoTake(id) => s.worker.Idle? && id in s.queue
    case DoRetry => false
    case DoReadSnapshot => s.worker.Taken?
    case DoReadBackup => s.worker.Read?
    case DoDispatch(_) => s.worker.Ready? && !Terminal(s.worker.obj.spec.phase)
    case DoSeek => s.worker.Ready? && s.worker.obj.spec.phase.Canceled?
    case DoNotify(ok) => ok && Notifies(s.worker)
    case DoFixRead(_) => s.worker.Fixing? && s.worker.id in s.snaps
    case DoFixCommit => s.worker.FixWriting? && Fresh(s.snaps, s.worker.w)
    case DoFlagCommit => s.worker.FlagWriting? && Fresh(s.snaps, s.worker.w)
    case DoGiveUp =>
      || (s.worker.Fixing? && s.worker.id !in s.snaps)
      || ((s.worker.FixWriting? || s.worker.FlagWriting?) && !Fresh(s.snaps, s.worker.w))
  }

  // ---- what is left to do ----

  function Unfinished(s: State): set<Id> {
    set id | id in s.snaps && !Terminal(s.snaps[id].spec.phase)
  }

  function EventLoad(events: seq<Event>): nat {
    if events == [] then 0 else (if Passes(events[0]) then 12 else 1) + EventLoad(events[1..])
  }

  /** The price of a Failed write over a phase that is finished already: its event sends the key
      round once more, and no snapshot gets finished for it. */
  function Rework(s: State, id: Id): nat {
    if id in s.snaps && Terminal(s.snaps[id].spec.phase) then 20 else 0
  }

  function HandLoad(s: State): nat {
    match s.worker
    case Idle => 0
    case Taken(_) => 9
    case Read(id, obj) => 8 + if Terminal(obj.spec.phase) then 0 else Rework(s, id)
    case Seeking(_, _, _) => 6
    case Ready(id, obj) => 7 + if Terminal(obj.spec.phase) then 0 else Rework(s, id)
    case Fixing(id) => 6 + Rework(s, id)
    case FixWriting(w) => 5 + Rework(s, w.id)
    case FlagWriting(_) => 3
  }

  function Load(s: State): nat {
    20 * |Unfinished(s)| + 10 * |s.queue| + EventLoad(s.events) + HandLoad(s)
  }

  lemma {:induction false} EventLoadMore(events: seq<Event>, e: Event)
    ensures EventLoad(events + [e]) == EventLoad(events) + if Passes(e) then 12 else 1
  {
    hide Passes;
    if events == [] {
      assert events + [e] == [e] && [e][1..] == [];
    } else {
      assert (events + [e])[1..] == events[1..] + [e];
      EventLoadMore(events[1..], e);
    }
  }

  lemma QueueSize(q: set<Id>, id: Id)
    ensures |q + {id}| <= |q| + 1
    ensures id in q ==> |q - {id}| == |q| - 1
  {
    if id in q { assert q + {id} == q; }
  }

  lemma DeliverWorks(s: State)
    requires s.events != []
    ensures Load(Deliver(s)) < Load(s)
  {
    hide Passes, HandLoad;
    assert Unfinished(Deliver(s)) == Unfinished(s);
    assert HandLoad(Deliver(s)) == HandLoad(s) by { SameHand(s); }
    QueueSize(s.queue, s.events[0].id);
  }

  lemma SameHand(s: State)
    ensures HandLoad(Deliver(s)) == HandLoad(s)
  {
    hide Passes;
  }

  lemma TakeWorks(s: State, id: Id)
    requires s.worker.Idle? && id in s.queue
    ensures Load(Take(s, id)) < Load(s)
  {
    hide EventLoad;
    assert Unfinished(Take(s, id)) == Unfinished(s);
    QueueSize(s.queue, id);
  }

  /** The steps that only move the key in hand. */
  lemma MoveLowersLoad(s: State, t: State)
    requires t.snaps == s.snaps && t.queue == s.queue && t.events == s.events && HandLoad(t) < HandLoad(s)
    ensures Load(t) < Load(s)
  {
    hide EventLoad, HandLoad;
    assert Unfinished(t) == Unfinished(s);
  }

  lemma ReadWorks(s: State)
    ensures s.worker.Taken? ==> Load(ReadSnapshot(s)) < Load(s)
    ensures s.worker.Read? ==> Load(ReadBackup(s)) < Load(s)
  {
    hide EventLoad, Load;
    if s.worker.Taken? { MoveLowersLoad(s, ReadSnapshot(s)); }
    if s.worker.Read? { MoveLowersLoad(s, ReadBackup(s)); }
  }

  lemma DispatchWorks(s: State, accepted: bool)
    requires s.worker.Ready? && !Terminal(s.worker.obj.spec.phase)
    ensures Load(Dispatch(s, accepted)) < Load(s)
  {
    hide EventLoad, Load;
    MoveLowersLoad(s, Dispatch(s, accepted));
  }

  lemma WriteWorks(s: State, a: WorkerAction)
    requires Works(s, a) && (a.DoSeek? || a.DoNotify? || a.DoFixRead? || a.DoGiveUp?)
    ensures Load(WorkerStep(s, a)) < Load(s)
  {
    hide EventLoad, Load;
    match a
    case DoSeek => MoveLowersLoad(s, Seek(s));
    case DoNotify(ok) => MoveLowersLoad(s, Notify(s, ok));
    case DoFixRead(rest) => MoveLowersLoad(s, FixRead(s, rest));
    case DoGiveUp =>
      match s.worker {
        case Fixing(id) => IdleWorks(s, s.unfixed + {id}, s.unflagged);
        case FixWriting(w) => IdleWorks(s, s.unfixed + {w.id}, s.unflagged);
        case FlagWriting(w) => IdleWorks(s, s.unfixed, s.unflagged + {w.id});
        case _ =>
      }
  }

  lemma IdleWorks(s: State, unfixed: set<Id>, unflagged: set<Id>)
    requires !s.worker.Idle?
    ensures Load(s.(worker := Idle, unfixed := unfixed, unflagged := unflagged)) < Load(s)
  {
    hide EventLoad, Load;
    assert HandLoad(s) > 0 by { hide Rework; }
    MoveLowersLoad(s, s.(worker := Idle, unfixed := unfixed, unflagged := unflagged));
  }

  /** A Failed write finishes a snapshot, or was paid for as rework. */
  lemma FixWorks(s: State)
    requires Sound(s) && s.worker.FixWriting? && Fresh(s.snaps, s.worker.w)
    ensures Load(FixCommit(s)) < Load(s)
  {
    var w := s.worker.w;
    var t := FixCommit(s);
    assert Held(s, ByRecovery, w);
    hide Sound, EventLoad, Passes;
    EventLoadMore(s.events, Updated(w.id, s.snaps[w.id].spec, w.next));
    assert Unfinished(t) == Unfinished(s) - {w.id};
    if w.id in Unfinished(s) { QueueSize(Unfinished(s), w.id); }
  }

  /** Setting the flag leaves an event that the filter drops. */
  lemma FlagWorks(s: State)
    requires Sound(s) && s.worker.FlagWriting? && Fresh(s.snaps, s.worker.w)
    ensures Load(FlagCommit(s)) < Load(s)
  {
    var w := s.worker.w;
    assert Held(s, ByNotify, w);
    hide Sound, EventLoad;
    EventLoadMore(s.events, Updated(w.id, s.snaps[w.id].spec, w.next));
    assert Unfinished(FlagCommit(s)) == Unfinished(s);
  }

  lemma WorkLowersLoad(s: State, a: WorkerAction)
    requires Sound(s) && Works(s, a)
    ensures Load(WorkerStep(s, a)) < Load(s)
  {
    hide Sound, Load, Deliver, Take, ReadSnapshot, ReadBackup, Dispatch, FixRead, FixCommit,
      Seek, Notify, FlagCommit, GiveUp;
    match a
    case DoDeliver => DeliverWorks(s);
    case DoTake(id) => TakeWorks(s, id);
    case DoReadSnapshot => ReadWorks(s);
    case DoReadBackup => ReadWorks(s);
    case DoDispatch(accepted) => DispatchWorks(s, accepted);
    case DoFixCommit => FixWorks(s);
    case DoFlagCommit => FlagWorks(s);
    case _ => WriteWorks(s, a);
  }

  // ---- whole runs ----

  function RunWork(s: State, steps: seq<WorkerAction>): State
    decreases |steps|
  {
    if steps == [] then s else RunWork(WorkerStep(s, steps[0]), steps[1..])
  }

  ghost predicate AllWork(s: State, steps: seq<WorkerAction>)
    decreases |steps|
  {
    steps != [] ==> Works(s, steps[0]) && AllWork(WorkerStep(s, steps[0]), steps[1..])
  }

  lemma ReachableWork(s: State, a: WorkerAction)
    requires Reachable(s)
    ensures Reachable(WorkerStep(s, a))
  {
    hide Reachable, WorkerStep;
    ReachableStep(s, OnWorker(a));
  }

  lemma ReachedSound(s: State)
    requires Reachable(s)
    ensures Sound(s)
  {
    hide Reachable, Shape, AllHeld;
    ReachedInv(s);
  }

  /** However the steps of watch and reconciler are ordered, their number is bounded, as long as
      neither requests nor tasks come in between. */
  lemma {:induction false} ControllerSettles(s: State, steps: seq<WorkerAction>)
    requires Reachable(s) && AllWork(s, steps)
    ensures |steps| <= Load(s) && Reachable(RunWork(s, steps))
    decreases |steps|
  {
    hide Reachable, Works, WorkerStep, Load, Sound;
    if steps != [] {
      ReachedSound(s);
      WorkLowersLoad(s, steps[0]);
      ReachableWork(s, steps[0]);
      ControllerSettles(WorkerStep(s, steps[0]), steps[1..]);
    }
  }

  /** When no step is left, the controller is at rest. */
  lemma SettledIsQuiescent(s: State)
    requires forall a :: !Works(s, a)
    ensures Quiescent(s)
  {
    assert !Works(s, DoDeliver) && !Works(s, DoReadSnapshot) && !Works(s, DoReadBackup);
    assert !Works(s, DoDispatch(true)) && !Works(s, DoSeek) && !Works(s, DoNotify(true));
    assert !Works(s, DoFixRead(0)) && !Works(s, DoFixCommit) && !Works(s, DoFlagCommit) && !Works(s, DoGiveUp);
    assert forall id :: id in s.queue ==> Works(s, DoTake(id));
  }

  /** And such a run always exists. */
  lemma {:induction false} CanSettle(s: State) returns (steps: seq<WorkerAction>)
    requires Reachable(s)
    ensures AllWork(s, steps) && forall a :: !Works(RunWork(s, steps), a)
    decreases Load(s)
  {
    hide Reachable, Works, WorkerStep, Load, Sound;
    steps := [];
    if a :| Works(s, a) {
      ReachedSound(s);
      WorkLowersLoad(s, a);
      ReachableWork(s, a);
      var rest := CanSettle(WorkerStep(s, a));
      steps := [a] + rest;
      assert steps[1..] == rest;
    }
  }

  /** So after at most Load(s) steps every finished snapshot of an existing backup has been
      notified and flagged, and nothing interrupted with an existing backup is left unfinished,
      unless the write in question was given up. */
  lemma EventuallyNotified(s: State, steps: seq<WorkerAction>, id: Id)
    requires Reachable(s) && AllWork(s, steps) && forall a :: !Works(RunWork(s, steps), a)
    ensures
      var t := RunWork(s, steps);
      && |steps| <= Load(s)
      && (id in t.snaps && t.snaps[id].spec.backup in t.backups ==>
            && (Terminal(t.snaps[id].spec.phase) ==> id in t.sent && (t.snaps[id].spec.pushed || id in t.unflagged))
            && (id in t.interrupted && id !in t.unfixed ==> Terminal(t.snaps[id].spec.phase)))
  {
    var t := RunWork(s, steps);
    ControllerSettles(s, steps);
    SettledIsQuiescent(t);
    hide Reachable, AllWork, RunWork, Works, Load;
    if id in t.snaps && t.snaps[id].spec.backup in t.backups {
      if Terminal(t.snaps[id].spec.phase) { NothingOwedAtRest(t, id); }
      if id in t.interrupted && id !in t.unfixed { InterruptedEnds(t, id); }
    }
  }
}
