/** What is finished and flagged stays quiet: a restart replays every stored snapshot, and those
    whose result was sent and flagged are neither looked at nor sent again. */
module EngineReplay {
  import opened Options
  import opened Snapshots
  import opened Versioned
  import opened Engine
  import opened EngineInvariants
  import opened EngineEffects
  import opened EngineFull
  import opened EngineHistory
  import opened EngineNotify
  import opened EngineOnce
  import opened EngineRecovery
  import opened EngineStopped
  import opened EngineTheorems

  /** The worker has to do with the snapshot. */
  predicate Holds(k: Worker, id: Id) {
    match k
    case Idle => false
    case Taken(j) => j == id
    case Read(j, _) => j == id
    case Ready(j, _) => j == id
    case Seeking(j, _, _) => j == id
    case Fixing(j) => j == id
    case FixWriting(w) => w.id == id
    case FlagWriting(w) => w.id == id
  }

  predicate NoneWakes(events: seq<Event>, id: Id) {
    forall i :: 0 <= i < |events| && events[i].id == id ==> !Passes(events[i])
  }

  /** Flagged, known, and nothing on its way to the worker. */
  predicate Quieted(s: State, id: Id) {
    && id in s.home && (id in s.snaps ==> s.snaps[id].spec.pushed)
    && id !in s.queue && !Holds(s.worker, id) && id !in s.told
    && NoneWakes(s.events, id)
  }

  lemma QuietedSame(s: State, t: State, id: Id)
    requires Quieted(s, id)
    requires t.home == s.home && t.snaps == s.snaps && t.queue == s.queue && t.worker == s.worker
    requires t.told == s.told && t.events == s.events
    ensures Quieted(t, id)
  {
  }

  /** Every writer keeps the flag, so the event of a write is dropped. */
  lemma QuietedCommits(s: State, actor: Actor, w: Update, t: State, id: Id)
    requires Quieted(s, id) && Commits(s, actor, w, t)
    requires t.worker == s.worker || t.worker.Idle?
    ensures Quieted(t, id)
  {
    var e := Updated(w.id, s.snaps[w.id].spec, w.next);
    assert t.events == s.events + [e];
    if w.id == id { assert w.next.pushed && !Passes(e); }
    forall i | 0 <= i < |t.events| && t.events[i].id == id ensures !Passes(t.events[i]) {
      if i < |s.events| { assert t.events[i] == s.events[i]; }
    }
    hide Passes, Held;
  }

  lemma QuietedAdd(s: State, x: Id, b: Id, created: int, rest: int, id: Id)
    requires Quieted(s, id)
    ensures Quieted(AddSnapshot(s, x, b, created, rest), id)
  {
    hide Passes;
    var t := AddSnapshot(s, x, b, created, rest);
    forall i | 0 <= i < |t.events| && t.events[i].id == id ensures !Passes(t.events[i]) {
      if i < |s.events| { assert t.events[i] == s.events[i]; }
    }
  }

  lemma QuietedStore(s: State, a: StoreAction, id: Id)
    requires Quieted(s, id)
    ensures Quieted(StoreStep(s, a), id)
  {
    match a
    case DoAddSnapshot(x, b, created, rest) => QuietedAdd(s, x, b, created, rest, id);
    case DoDropSnapshot(x) =>
    case _ =>
      hide Quieted;
      QuietedSame(s, StoreStep(s, a), id);
  }

  lemma QuietedClient(s: State, n: nat, a: ClientAction, id: Id)
    requires Sound(s) && Quieted(s, id)
    ensures Quieted(ClientStep(s, n, a), id)
  {
    var t := ClientStep(s, n, a);
    ClientEffect(s, n, a);
    hide ClientStep, Sound, Quieted, Commits;
    if ClientCommits(s, n, t) {
      QuietedCommits(s, s.clients[n].actor, s.clients[n].w, t, id);
    } else {
      QuietedSame(s, t, id);
    }
  }

  lemma QuietedTaskCalm(s: State, o: Owner, t: State, id: Id)
    requires Quieted(s, id) && TaskCalm(s, o, t)
    ensures Quieted(t, id)
  {
    hide Quieted, LaneNext;
    QuietedSame(s, t, id);
  }

  lemma QuietedTask(s: State, o: Owner, a: TaskAction, id: Id)
    requires Sound(s) && Quieted(s, id)
    ensures Quieted(TaskStep(s, o, a), id)
  {
    var t := TaskStep(s, o, a);
    TaskEffect(s, o, a);
    hide TaskStep, Sound, Quieted, Commits, TaskCalm;
    if TaskStarts(s, o, t) {
      QuietedCommits(s, ByStart(TaskOf(s, o).id), TaskOf(s, o).pc.w, t, id);
    } else if TaskFinishes(s, o, t) {
      QuietedCommits(s, ByFinish(TaskOf(s, o).id), TaskOf(s, o).pc.w, t, id);
    } else if TaskCalm(s, o, t) {
      QuietedTaskCalm(s, o, t, id);
    }
  }

  lemma QuietedDeliver(s: State, id: Id)
    requires Quieted(s, id)
    ensures Quieted(Deliver(s), id)
  {
    hide Passes;
    var t := Deliver(s);
    if s.events != [] {
      assert forall i :: 0 <= i < |t.events| ==> t.events[i] == s.events[i + 1];
      assert s.events[0].id == id ==> !Passes(s.events[0]);
    }
  }

  /** The worker goes on with the key that it holds, which is another one. */
  lemma QuietedHand(s: State, t: State, id: Id)
    requires Quieted(s, id)
    requires t.home == s.home && t.snaps == s.snaps && t.events == s.events
    requires id in t.queue ==> Holds(s.worker, id)
    requires Holds(t.worker, id) ==> Holds(s.worker, id) || id in s.queue
    requires id in t.told ==> id in s.told || Holds(s.worker, id)
    ensures Quieted(t, id)
  {
    hide Holds, NoneWakes;
  }

  lemma QuietedTake(s: State, k: Id, id: Id)
    requires Quieted(s, id)
    ensures Quieted(Take(s, k), id) && Quieted(Retry(s), id)
  {
    assert id !in s.queue;
    hide Quieted;
    QuietedHand(s, Take(s, k), id);
    QuietedHand(s, Retry(s), id);
  }

  lemma QuietedRead(s: State, id: Id)
    requires Quieted(s, id)
    ensures Quieted(ReadSnapshot(s), id) && Quieted(ReadBackup(s), id)
  {
    assert id !in s.queue;
    hide Quieted;
    QuietedHand(s, ReadSnapshot(s), id);
    QuietedHand(s, ReadBackup(s), id);
  }

  lemma QuietedDispatch(s: State, accepted: bool, id: Id)
    requires Quieted(s, id)
    ensures Quieted(Dispatch(s, accepted), id)
  {
    assert id !in s.queue;
    hide Quieted, NewlyCreated;
    QuietedHand(s, Dispatch(s, accepted), id);
  }

  lemma QuietedFix(s: State, rest: int, id: Id)
    requires Quieted(s, id)
    ensures Quieted(FixRead(s, rest), id) && Quieted(Seek(s), id)
  {
    assert id !in s.queue;
    hide Quieted, InRun;
    QuietedHand(s, FixRead(s, rest), id);
    QuietedHand(s, Seek(s), id);
  }

  lemma QuietedGiveUp(s: State, id: Id)
    requires Quieted(s, id)
    ensures Quieted(GiveUp(s), id)
  {
    assert id !in s.queue;
    hide Quieted;
    match s.worker
    case Fixing(k) => QuietedHand(s, s.(worker := Idle, unfixed := s.unfixed + {k}), id);
    case FixWriting(w) => QuietedHand(s, s.(worker := Idle, unfixed := s.unfixed + {w.id}), id);
    case FlagWriting(w) => QuietedHand(s, s.(worker := Idle, unflagged := s.unflagged + {w.id}), id);
    case _ =>
  }

  lemma QuietedNotify(s: State, ok: bool, id: Id)
    requires Quieted(s, id)
    ensures Quieted(Notify(s, ok), id)
  {
    QuietedHand(s, Notify(s, ok), id);
    hide NoneWakes, InRun;
  }

  lemma QuietedWorkerCommit(s: State, a: WorkerAction, id: Id)
    requires Sound(s) && Quieted(s, id) && (a.DoFixCommit? || a.DoFlagCommit?)
    ensures Quieted(WorkerStep(s, a), id)
  {
    var t := WorkerStep(s, a);
    assert HeldByWorker(s, s.worker);
    hide Sound, Quieted, Held;
    if t != s { QuietedCommits(s, if a.DoFixCommit? then ByRecovery else ByNotify, s.worker.w, t, id); }
  }

  lemma QuietedWorker(s: State, a: WorkerAction, id: Id)
    requires Sound(s) && Quieted(s, id)
    ensures Quieted(WorkerStep(s, a), id)
  {
    hide Sound, Quieted;
    match a
    case DoDeliver => QuietedDeliver(s, id);
    case DoDispatch(accepted) => QuietedDispatch(s, accepted, id);
    case DoNotify(ok) => QuietedNotify(s, ok, id);
    case DoFixCommit => QuietedWorkerCommit(s, a, id);
    case DoFlagCommit => QuietedWorkerCommit(s, a, id);
    case DoFixRead(rest) => QuietedFix(s, rest, id);
    case DoGiveUp => QuietedGiveUp(s, id);
    case DoSeek => QuietedFix(s, 0, id);
    case DoTake(k) => QuietedTake(s, k, id);
    case DoRetry => QuietedTake(s, "", id);
    case _ => QuietedRead(s, id);
  }

  lemma QuietedStep(s: State, a: Action, id: Id)
    requires Sound(s) && Quieted(s, id) && !a.OnRestart?
    ensures Quieted(Step(s, a), id)
  {
    hide Sound, Quieted, StoreStep, ClientStep, TaskStep, WorkerStep;
    match a
    case OnStore(b) => QuietedStore(s, b, id);
    case OnClient(n, b) => QuietedClient(s, n, b, id);
    case OnTask(o, b) => QuietedTask(s, o, b, id);
    case OnWorker(b) => QuietedWorker(s, b, id);
  }

  // ---- from one start to the next ----

  predicate NoRestart(steps: seq<Action>) {
    forall i :: 0 <= i < |steps| ==> !steps[i].OnRestart?
  }

  lemma {:induction false} QuietedRun(s: State, steps: seq<Action>, id: Id)
    requires Sound(s) && Quieted(s, id) && NoRestart(steps)
    ensures Quieted(Run(s, steps), id)
    decreases |steps|
  {
    if steps != [] {
      hide Sound, Step, Quieted, Later;
      assert !steps[0].OnRestart?;
      assert NoRestart(steps[1..]);
      QuietedStep(s, steps[0], id);
      StepSound(s, steps[0]);
      QuietedRun(Step(s, steps[0]), steps[1..], id);
    }
  }

  /** The replay of a snapshot that is finished and flagged is dropped by the filter. */
  lemma RestartQuiets(s: State, order: seq<Id>, id: Id)
    requires Shape(s) && Lists(order, s.snaps.Keys)
    requires id in s.snaps && Terminal(s.snaps[id].spec.phase) && s.snaps[id].spec.pushed
    ensures Quieted(Restart(s, order), id)
  {
    var t := Restart(s, order);
    assert forall i :: 0 <= i < |t.events| ==> t.events[i] == Created(order[i], s.snaps[order[i]].spec);
  }

  /** A result that was sent and flagged before a restart is not sent again: until the next one,
      whatever happens, its key is never queued, never in hand, and no result goes out for it. */
  lemma NotSentAgain(s: State, order: seq<Id>, steps: seq<Action>, id: Id)
    requires Reachable(s) && Lists(order, s.snaps.Keys) && NoRestart(steps)
    requires id in s.snaps && Terminal(s.snaps[id].spec.phase) && s.snaps[id].spec.pushed
    ensures
      var t := Run(Restart(s, order), steps);
      id !in t.queue && !Holds(t.worker, id) && id !in t.told
  {
    hide Reachable, AllHeld, FullInv, InOrder, NotifyInv, OnceInv, RecoveryInv, StoppedOut;
    ReachedInv(s);
    StepSound(s, OnRestart(order));
    RestartQuiets(s, order, id);
    hide Restart, Shape, Run;
    QuietedRun(Restart(s, order), steps, id);
  }

  // ---- the flag is for what was sent ----

  predicate FlagInHand(s: State) {
    s.worker.FlagWriting? ==> (s.worker.w.id, s.worker.w.base) in s.sentAs
  }

  predicate EntrySent(s: State, e: Entry) {
    e.actor.ByNotify? ==> (e.id, e.was) in s.sentAs
  }

  predicate FlagsSent(s: State) {
    FlagInHand(s) && forall i :: 0 <= i < |s.log| ==> EntrySent(s, s.log[i])
  }

  /** A step that sets no flag, and has none to set. */
  lemma FlagsSame(s: State, t: State)
    requires FlagsSent(s) && t.log == s.log && s.sentAs <= t.sentAs && FlagInHand(t)
    ensures FlagsSent(t)
  {
    hide FlagInHand;
    forall i | 0 <= i < |t.log| ensures EntrySent(t, t.log[i]) { assert EntrySent(s, s.log[i]); }
  }

  lemma FlagsCommit(s: State, actor: Actor, w: Update, t: State)
    requires FlagsSent(s) && Commits(s, actor, w, t)
    requires t.worker == s.worker || t.worker.Idle?
    requires actor.ByNotify? ==> s.worker.FlagWriting? && s.worker.w == w
    ensures FlagsSent(t)
  {
    var e := Entry(w.id, actor, s.snaps[w.id].spec, w.next);
    assert t.log == s.log + [e] && EntrySent(t, e);
    forall i | 0 <= i < |t.log| ensures EntrySent(t, t.log[i]) {
      if i < |s.log| { assert EntrySent(s, s.log[i]); }
    }
  }

  lemma FlagsClient(s: State, n: nat, a: ClientAction)
    requires Sound(s) && FlagsSent(s)
    ensures FlagsSent(ClientStep(s, n, a))
  {
    var t := ClientStep(s, n, a);
    ClientEffect(s, n, a);
    hide ClientStep, Sound, Commits;
    if ClientCommits(s, n, t) {
      FlagsCommit(s, s.clients[n].actor, s.clients[n].w, t);
    } else {
      FlagsSame(s, t);
    }
  }

  lemma FlagsTaskCalm(s: State, o: Owner, t: State)
    requires FlagsSent(s) && TaskCalm(s, o, t)
    ensures FlagsSent(t)
  {
    hide LaneNext;
    FlagsSame(s, t);
  }

  lemma FlagsTask(s: State, o: Owner, a: TaskAction)
    requires Sound(s) && FlagsSent(s)
    ensures FlagsSent(TaskStep(s, o, a))
  {
    var t := TaskStep(s, o, a);
    TaskEffect(s, o, a);
    hide TaskStep, Sound, FlagsSent, Commits, TaskCalm;
    if TaskStarts(s, o, t) {
      FlagsCommit(s, ByStart(TaskOf(s, o).id), TaskOf(s, o).pc.w, t);
    } else if TaskFinishes(s, o, t) {
      FlagsCommit(s, ByFinish(TaskOf(s, o).id), TaskOf(s, o).pc.w, t);
    } else if TaskCalm(s, o, t) {
      FlagsTaskCalm(s, o, t);
    }
  }

  /** The worker gets to the flag only by sending. */
  lemma OnlySendingLeadsToFlag(s: State, a: WorkerAction)
    requires !a.DoNotify? && WorkerStep(s, a).worker.FlagWriting?
    ensures WorkerStep(s, a).worker == s.worker
  {
    FlagFromReading(s, if a.DoTake? then a.id else "");
    FlagFromWriting(s, if a.DoFixRead? then a.rest else 0);
    FlagFromBranch(s, a.DoDispatch? && a.accepted);
    hide Deliver, Take, Retry, ReadSnapshot, ReadBackup, Dispatch, FixRead, FixCommit, Seek, FlagCommit, GiveUp, NewFlag;
  }

  /** The worker has come to the flag. */
  predicate NewFlag(s: State, t: State) {
    t.worker.FlagWriting? && t.worker != s.worker
  }

  lemma FlagFromReading(s: State, id: Id)
    ensures !NewFlag(s, Deliver(s)) && !NewFlag(s, Take(s, id)) && !NewFlag(s, Retry(s))
    ensures !NewFlag(s, ReadSnapshot(s)) && !NewFlag(s, ReadBackup(s))
  {
  }

  lemma FlagFromWriting(s: State, rest: int)
    ensures !NewFlag(s, FixRead(s, rest)) && !NewFlag(s, FixCommit(s))
    ensures !NewFlag(s, FlagCommit(s)) && !NewFlag(s, GiveUp(s))
  {
  }

  lemma FlagFromBranch(s: State, accepted: bool)
    ensures !NewFlag(s, Dispatch(s, accepted)) && !NewFlag(s, Seek(s))
  {
    hide InRun, NewlyCreated, LaneOf, SetLane;
  }

  lemma FlagsNotify(s: State, ok: bool)
    requires FlagsSent(s)
    ensures FlagsSent(Notify(s, ok))
  {
    assert FlagInHand(s);
    hide FlagsSent, InRun, Report;
    FlagsSame(s, StopFound(s));
    FlagsReport(StopFound(s), ok);
  }

  lemma FlagsReport(s: State, ok: bool)
    requires FlagsSent(s)
    ensures FlagsSent(Report(s, ok))
  {
    assert FlagInHand(s);
    hide FlagsSent;
    FlagsSame(s, Report(s, ok));
  }

  lemma FlagsWorker(s: State, a: WorkerAction)
    requires Sound(s) && FlagsSent(s)
    ensures FlagsSent(WorkerStep(s, a))
  {
    if a.DoNotify? {
      FlagsNotify(s, a.ok);
    } else {
      var t := WorkerStep(s, a);
      WorkerEffect(s, a);
      if t.worker.FlagWriting? { OnlySendingLeadsToFlag(s, a); }
      hide WorkerStep, Sound, Commits, WorkerCalm;
      if WorkerCommits(s, t) {
        FlagsCommit(s, if s.worker.FixWriting? then ByRecovery else ByNotify, s.worker.w, t);
      } else if t != s {
        CalmKeepsSent(s, t) by { assert WorkerCalm(s, t); }
      }
    }
  }

  lemma CalmKeepsSent(s: State, t: State)
    requires FlagsSent(s) && WorkerCalm(s, t) && (t.worker.FlagWriting? ==> t.worker == s.worker)
    ensures FlagsSent(t)
  {
    assert FlagInHand(s);
    hide FlagsSent;
    FlagsSame(s, t);
  }

  lemma FlagsStep(s: State, a: Action)
    requires Sound(s) && FlagsSent(s)
    ensures FlagsSent(Step(s, a))
  {
    hide Sound, FlagsSent, StoreStep, ClientStep, TaskStep, WorkerStep, Restart;
    match a
    case OnStore(b) => FlagsStore(s, b);
    case OnClient(n, b) => FlagsClient(s, n, b);
    case OnTask(o, b) => FlagsTask(s, o, b);
    case OnWorker(b) => FlagsWorker(s, b);
    case OnRestart(order) => FlagsRestart(s, order);
  }

  lemma FlagsStore(s: State, a: StoreAction)
    requires FlagsSent(s)
    ensures FlagsSent(StoreStep(s, a))
  {
    assert FlagInHand(s);
    hide FlagsSent;
    FlagsSame(s, StoreStep(s, a));
  }

  lemma FlagsRestart(s: State, order: seq<Id>)
    requires FlagsSent(s)
    ensures FlagsSent(Restart(s, order))
  {
    assert FlagInHand(s);
    hide FlagsSent;
    FlagsSame(s, Restart(s, order));
  }

  lemma {:induction false} FlagsRun(s: State, steps: seq<Action>)
    requires Sound(s) && FlagsSent(s)
    ensures FlagsSent(Run(s, steps))
    decreases |steps|
  {
    hide Sound, Step, FlagsSent, Later;
    if steps != [] {
      FlagsStep(s, steps[0]);
      StepSound(s, steps[0]);
      FlagsRun(Step(s, steps[0]), steps[1..]);
    }
  }

  /** The flag is only ever set on the very state of the snapshot that was sent. */
  lemma FlaggedAsSent(s: State, i: nat)
    requires Reachable(s) && i < |s.log| && s.log[i].actor.ByNotify?
    ensures (s.log[i].id, s.log[i].was) in s.sentAs
  {
    var steps :| s == Run(Initial, steps);
    InvInitial();
    assert FlagsSent(Initial);
    hide Run, FlagsSent;
    FlagsRun(Initial, steps);
    assert EntrySent(s, s.log[i]) by { EntryOf(s, i); }
  }

  lemma EntryOf(s: State, i: nat)
    requires FlagsSent(s) && i < |s.log|
    ensures EntrySent(s, s.log[i])
  {
  }

  // ---- who wakes the reconciler ----

  /** Delivering the event of a write queues the key. */
  predicate Wakes(s: State, id: Id, was: Spec, now: Spec) {
    id in Deliver(s.(events := [Updated(id, was, now)], queue := {})).queue
  }

  /** Of the six writers, progress and the flag never wake the reconciler; the others do as long
      as the result is not flagged and they change something, a start only when the snapshot was
      not running. */
  lemma WhoWakes(s: State, id: Id, actor: Actor, was: Spec, now: Spec)
    requires Lawful(actor, was, now)
    ensures Wakes(s, id, was, now) <==>
      match actor
      case ByProgress => false
      case ByNotify => false
      case ByStart(_) => !was.phase.Running? && !was.pushed
      case _ => now != was && !was.pushed
  {
  }
}
