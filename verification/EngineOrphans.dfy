/** Unfinished snapshots whose backup is gone: no reconciler and no new task will finish them.
    When their phase still moves, and a run in which one is left over after a restart. */
module EngineOrphans {
  import opened Options
  import opened Snapshots
  import opened Versioned
  import opened Engine
  import opened EngineInvariants
  import opened EngineEffects
  import opened EngineHistory
  import opened EngineWrites
  import opened EngineFull
  import opened EngineNotify
  import opened EngineOnce
  import opened EngineRecovery
  import opened EngineStopped
  import opened EngineTheorems
  import opened EngineFinality

  predicate Orphaned(s: State, id: Id) {
    id in s.home && s.home[id] !in s.backups && (id in s.snaps ==> !Terminal(s.snaps[id].spec.phase))
  }

  /** Something under way at this place will change the phase, or can: an accepted update with
      another phase, a cancel request past its check, a task in RunBackup that has loaded the
      snapshot and still has its context, or the reconciler about to write Failed. Whatever such
      a task goes through, it can come to a result, and it may store that without the backup. */
  predicate Stirs(s: State, at: Place, id: Id)
    requires id in s.snaps
  {
    || (Armed(s, at, id) && Written(s, at).phase != s.snaps[id].spec.phase)
    || match at
       case AtClient(n) => n in s.clients && s.clients[n] == Checked(id)
       case AtLane(o) =>
         && Runs(s, o) && TaskOf(s, o).id == id && id !in s.stopped
         && !TaskOf(s, o).pc.Begin? && !TaskOf(s, o).pc.Saving? && !TaskOf(s, o).pc.Done?
       case AtWorker =>
         || s.worker == Fixing(id)
         || (s.worker.Ready? && s.worker.id == id && !Terminal(s.worker.obj.spec.phase)
             && (s.worker.obj.spec.phase.Pending? || !NewlyCreated(s, id)))
  }

  ghost predicate Still(s: State, id: Id) {
    id in s.snaps ==> forall at :: !Stirs(s, at, id)
  }

  /** A cancel request for the snapshot that gets past its first test: the backup that it names
      is stored. */
  predicate Heard(s: State, a: Action, id: Id) {
    a.OnClient? && a.client.DoCancelCheck? && a.client.id == id && a.client.b in s.backups
  }

  /** No request for the snapshot names a stored backup. */
  predicate NoneHeard(s: State, steps: seq<Action>, id: Id)
    decreases |steps|
  {
    steps != [] ==> !Heard(s, steps[0], id) && NoneHeard(Step(s, steps[0]), steps[1..], id)
  }

  // ---- a still orphan stays as it is ----

  predicate SamePhase(s: State, t: State, id: Id) {
    id in s.snaps && id in t.snaps && t.snaps[id].spec.phase == s.snaps[id].spec.phase
  }

  lemma FreshWas(s: State, t: State, w: Update)
    requires Later(s, t) && w.id in s.home && w.version <= s.rv && Fresh(t.snaps, w)
    ensures Fresh(s.snaps, w)
  {
  }

  /** An update that waits where it waited before was accepted before, if it is now. */
  lemma ArmedWas(s: State, t: State, at: Place, id: Id)
    requires Sound(s) && Later(s, t) && WriteAt(s, at) == WriteAt(t, at) && Armed(t, at, id)
    requires Sendable(t, at) ==> Sendable(s, at)
    ensures Armed(s, at, id)
  {
    WriteHeld(s, at);
    hide Sound, WriteAt, Sendable;
    FreshWas(s, t, WriteAt(s, at).value);
  }

  lemma WriteHeld(s: State, at: Place)
    requires Sound(s) && WriteAt(s, at).Some?
    ensures WriteAt(s, at).value.id in s.home && WriteAt(s, at).value.version <= s.rv
  {
    match at
    case AtClient(n) => assert HeldByClient(s, s.clients[n]);
    case AtLane(o) => assert HeldByTask(s, TaskOf(s, o));
    case AtWorker => assert HeldByWorker(s, s.worker);
  }

  /** Nothing moved at the place. */
  predicate SamePlace(s: State, t: State, at: Place, id: Id) {
    match at
    case AtClient(n) => (n in t.clients ==> n in s.clients && t.clients[n] == s.clients[n])
    case AtLane(o) => (Runs(t, o) ==> Runs(s, o) && TaskOf(t, o) == TaskOf(s, o))
    case AtWorker => t.worker.Idle? || (t.worker == s.worker && NewlyCreated(t, id) == NewlyCreated(s, id))
  }

  lemma StirredSamePlace(s: State, t: State, at: Place, id: Id)
    requires Sound(s) && Later(s, t) && s.stopped <= t.stopped
    requires SamePhase(s, t, id) && SamePlace(s, t, at, id) && Stirs(t, at, id)
    ensures Stirs(s, at, id)
  {
    hide Sound, Later, NewlyCreated;
    if Armed(t, at, id) && Written(t, at).phase != t.snaps[id].spec.phase { ArmedWas(s, t, at, id); }
  }

  lemma OtherClient(s: State, a: Action, n: nat, id: Id)
    requires Sound(s) && !(a.OnClient? && a.n == n)
    ensures SamePlace(s, Step(s, a), AtClient(n), id)
  {
    hide Sound, StoreStep, ClientStep, TaskStep, WorkerStep, Restart, NewlyCreated;
    match a
    case OnClient(m, b) => ClientStepLeaves(s, m, b);
    case OnTask(p, b) => TaskStepLeaves(s, p, b);
    case OnWorker(b) => WorkerStepLeaves(s, b);
    case OnStore(b) => StoreStepLeaves(s, b);
    case OnRestart(order) => RestartStepLeaves(s, order);
  }

  lemma OtherWorker(s: State, a: Action, id: Id)
    requires Sound(s) && id in s.home && !a.OnWorker?
    ensures SamePlace(s, Step(s, a), AtWorker, id)
  {
    assert id in s.created;
    hide Sound, StoreStep, ClientStep, TaskStep, Restart;
    match a
    case OnClient(n, b) => ClientStepLeaves(s, n, b);
    case OnTask(p, b) => TaskStepLeaves(s, p, b);
    case OnStore(b) => StoreStepLeaves(s, b);
    case OnRestart(order) => RestartStepLeaves(s, order);
  }

  lemma ClientStirred(s: State, n: nat, a: ClientAction, id: Id)
    requires !Heard(s, OnClient(n, a), id) && id in s.snaps
    requires var t := ClientStep(s, n, a); SamePhase(s, t, id) && Stirs(t, AtClient(n), id)
    ensures Stirs(s, AtClient(n), id)
  {
  }

  /** Which task steps can make a place stir that did not. */
  lemma EarlyStirred(s: State, o: Owner, a: TaskAction, id: Id)
    requires Sound(s) && Orphaned(s, id) && (a.DoStart? || a.DoLoad? || a.DoType? || a.DoFailure? || a.DoStartRead?)
    requires var t := TaskStep(s, o, a); SamePhase(s, t, id) && Stirs(t, AtLane(o), id)
    ensures Stirs(s, AtLane(o), id)
  {
    if Runs(s, o) { assert LaneShape(s, o, s.lanes[o]); }
    hide Sound, HasCompleted;
  }

  lemma ResultStirred(s: State, o: Owner, a: TaskAction, id: Id)
    requires a.DoExecuted? || a.DoResultRead? || a.DoEnd?
    requires var t := TaskStep(s, o, a); SamePhase(s, t, id) && Stirs(t, AtLane(o), id)
    ensures Stirs(s, AtLane(o), id)
  {
    hide Terminal;
  }

  lemma CommitStirred(s: State, o: Owner, a: TaskAction, id: Id)
    requires a.DoStartCommit? || a.DoResultCommit?
    requires var t := TaskStep(s, o, a); SamePhase(s, t, id) && Stirs(t, AtLane(o), id)
    ensures Stirs(s, AtLane(o), id)
  {
    hide Terminal;
  }

  lemma LaneStirred(s: State, o: Owner, a: TaskAction, id: Id)
    requires Sound(s) && Orphaned(s, id)
    requires var t := TaskStep(s, o, a); SamePhase(s, t, id) && Stirs(t, AtLane(o), id)
    ensures Stirs(s, AtLane(o), id)
  {
    hide Sound, TaskStep, Stirs;
    if a.DoStart? || a.DoLoad? || a.DoType? || a.DoFailure? || a.DoStartRead? {
      EarlyStirred(s, o, a, id);
    } else if a.DoStartCommit? || a.DoResultCommit? {
      CommitStirred(s, o, a, id);
    } else {
      ResultStirred(s, o, a, id);
    }
  }

  lemma FixingStirred(s: State, a: WorkerAction, id: Id)
    requires a.DoFixRead? || a.DoDispatch?
    requires var t := WorkerStep(s, a); SamePhase(s, t, id) && Stirs(t, AtWorker, id)
    ensures Stirs(s, AtWorker, id)
  {
  }

  lemma ReadingStirred(s: State, a: WorkerAction, id: Id)
    requires Sound(s) && Orphaned(s, id)
    requires a.DoDeliver? || a.DoTake? || a.DoRetry? || a.DoReadSnapshot? || a.DoReadBackup?
    requires var t := WorkerStep(s, a); SamePhase(s, t, id) && Stirs(t, AtWorker, id)
    ensures Stirs(s, AtWorker, id)
  {
    assert HeldByWorker(s, s.worker);
    hide Sound;
  }

  lemma NotifyingStirred(s: State, a: WorkerAction, id: Id)
    requires Sound(s) && (a.DoSeek? || a.DoNotify?)
    requires var t := WorkerStep(s, a); SamePhase(s, t, id) && Stirs(t, AtWorker, id)
    ensures Stirs(s, AtWorker, id)
  {
    assert HeldByWorker(s, s.worker);
    hide Shape, InRun;
  }

  lemma EndingStirred(s: State, a: WorkerAction, id: Id)
    requires a.DoFixCommit? || a.DoFlagCommit? || a.DoGiveUp?
    requires var t := WorkerStep(s, a); SamePhase(s, t, id) && Stirs(t, AtWorker, id)
    ensures Stirs(s, AtWorker, id)
  {
  }

  lemma WorkerStirred(s: State, a: WorkerAction, id: Id)
    requires Sound(s) && Orphaned(s, id)
    requires var t := WorkerStep(s, a); SamePhase(s, t, id) && Stirs(t, AtWorker, id)
    ensures Stirs(s, AtWorker, id)
  {
    hide Sound, WorkerStep, Stirs;
    match a
    case DoFixRead(_) => FixingStirred(s, a, id);
    case DoDispatch(_) => FixingStirred(s, a, id);
    case DoSeek => NotifyingStirred(s, a, id);
    case DoNotify(_) => NotifyingStirred(s, a, id);
    case DoFixCommit => EndingStirred(s, a, id);
    case DoFlagCommit => EndingStirred(s, a, id);
    case DoGiveUp => EndingStirred(s, a, id);
    case _ => ReadingStirred(s, a, id);
  }

  lemma StoppedStays(s: State, a: Action)
    requires Sound(s)
    ensures s.stopped <= Step(s, a).stopped
  {
    hide Sound, StoreStep, ClientStep, TaskStep, WorkerStep, Restart;
    match a
    case OnClient(n, b) => ClientStepLeaves(s, n, b);
    case OnTask(o, b) => TaskStepLeaves(s, o, b);
    case OnWorker(b) => WorkerStepLeaves(s, b);
    case OnStore(b) => StoreStepLeaves(s, b);
    case OnRestart(order) => RestartStepLeaves(s, order);
  }

  lemma StirredBefore(s: State, a: Action, at: Place, id: Id)
    requires Sound(s) && Orphaned(s, id) && !Heard(s, a, id)
    requires SamePhase(s, Step(s, a), id) && Stirs(Step(s, a), at, id)
    ensures Stirs(s, at, id)
  {
    StepSound(s, a);
    StoppedStays(s, a);
    var t := Step(s, a);
    hide Sound, Later, Stirs, ClientStep, TaskStep, WorkerStep;
    if at.AtClient? && a.OnClient? && a.n == at.n {
      ClientStirred(s, a.n, a.client, id);
    } else if at.AtLane? && a.OnTask? && a.o == at.o {
      LaneStirred(s, a.o, a.task, id);
    } else if at.AtWorker? && a.OnWorker? {
      WorkerStirred(s, a.work, id);
    } else {
      match at {
        case AtClient(n) => OtherClient(s, a, n, id);
        case AtLane(o) => AsideOf(s, a, o);
        case AtWorker => OtherWorker(s, a, id);
      }
      hide Step;
      StirredSamePlace(s, t, at, id);
    }
  }

  lemma OrphanStep(s: State, a: Action, id: Id)
    requires Sound(s) && Orphaned(s, id) && Still(s, id) && !Heard(s, a, id)
    ensures
      var t := Step(s, a);
      && Orphaned(t, id) && Still(t, id)
      && (id in t.snaps ==> SamePhase(s, t, id))
  {
    hide Sound, Step, Stirs, Logged;
    var t := Step(s, a);
    OnwardStep(s, a);
    BackupsOnlyGo(s, a, id);
    if id in t.snaps {
      if t.snaps[id] != s.snaps[id] {
        var at := ChangeWasArmed(s, a, id);
        ArmedStirs(s, at, id);
      }
      forall at ensures !Stirs(t, at, id) {
        if Stirs(t, at, id) { StirredBefore(s, a, at, id); }
      }
    }
  }

  lemma ArmedStirs(s: State, at: Place, id: Id)
    requires Armed(s, at, id) && id in s.snaps && !Stirs(s, at, id)
    ensures Written(s, at).phase == s.snaps[id].spec.phase
  {
  }

  lemma BackupsOnlyGo(s: State, a: Action, id: Id)
    requires Sound(s) && id in s.home && s.home[id] !in s.backups
    ensures var t := Step(s, a); id in t.home ==> t.home[id] !in t.backups
  {
    AsideOf(s, a, if a.OnTask? && a.o == "" then "x" else "");
    StepSound(s, a);
    assert s.home[id] in s.owner;
    hide AllHeld, Step, LaneShape;
  }

  lemma {:induction false} OrphanRun(s: State, steps: seq<Action>, id: Id)
    requires Sound(s) && Orphaned(s, id) && Still(s, id) && NoneHeard(s, steps, id)
    ensures var t := Run(s, steps); id in t.snaps ==> SamePhase(s, t, id)
    decreases |steps|
  {
    hide Sound, Step, Still, Later, Onward;
    if steps != [] {
      OrphanStep(s, steps[0], id);
      OnwardStep(s, steps[0]);
      OrphanRun(Step(s, steps[0]), steps[1..], id);
    }
  }

  // ---- what stirs moves ----

  predicate Moved(s: State, steps: seq<Action>, id: Id)
    requires id in s.snaps
  {
    var t := Run(s, steps);
    NoneHeard(s, steps, id) && id in t.snaps && t.snaps[id].spec.phase != s.snaps[id].spec.phase
  }

  lemma RunOne(s: State, a: Action)
    ensures Run(s, [a]) == Step(s, a)
  {
    assert [a][1..] == [];
  }

  lemma ArmedMoves(s: State, at: Place, id: Id) returns (steps: seq<Action>)
    requires id in s.snaps && Armed(s, at, id) && Written(s, at).phase != s.snaps[id].spec.phase
    ensures Moved(s, steps, id)
  {
    SendCommits(s, at, id);
    assert WriteAt(s, at).Some?;
    var a := Send(s, at);
    assert !Heard(s, a, id);
    hide Step, Armed, WriteAt, Send;
    RunOne(s, a);
    steps := [a];
    assert steps[1..] == [] && NoneHeard(Step(s, a), [], id);
  }

  /** One step that leaves the phase alone, and then a run that moves it. */
  lemma StepThenMove(s: State, a: Action, rest: seq<Action>, id: Id)
    requires SamePhase(s, Step(s, a), id) && Moved(Step(s, a), rest, id)
    requires !Heard(s, a, id)
    ensures Moved(s, [a] + rest, id)
  {
    hide Step;
    assert ([a] + rest)[1..] == rest;
  }

  lemma ClientMoves(s: State, n: nat, id: Id) returns (steps: seq<Action>)
    requires id in s.snaps && n in s.clients && s.clients[n] == Checked(id)
    requires !s.snaps[id].spec.phase.Canceled?
    ensures Moved(s, steps, id)
  {
    var a := OnClient(n, DoCancelRead(0));
    var t := CancelRead(s, n, 0);
    assert Armed(t, AtClient(n), id) && Written(t, AtClient(n)).phase.Canceled? && Step(s, a) == t;
    hide Step, Armed, Written, Moved;
    var rest := ArmedMoves(t, AtClient(n), id);
    StepThenMove(s, a, rest, id);
    steps := [a] + rest;
  }

  lemma ResultMoves(s: State, o: Owner, id: Id) returns (steps: seq<Action>)
    requires id in s.snaps && !Terminal(s.snaps[id].spec.phase)
    requires Runs(s, o) && TaskOf(s, o).id == id && id !in s.stopped && TaskOf(s, o).pc.Result?
    ensures Moved(s, steps, id)
  {
    var a := OnTask(o, DoResultRead(false, 0, true));
    var t := TaskResultRead(s, o, false, 0, true);
    assert Armed(t, AtLane(o), id) && Terminal(Written(t, AtLane(o)).phase) && Step(s, a) == t;
    hide Step, Armed, Written, Moved, TaskResultRead;
    var rest := ArmedMoves(t, AtLane(o), id);
    StepThenMove(s, a, rest, id);
    steps := [a] + rest;
  }

  lemma LaneMoves(s: State, o: Owner, id: Id) returns (steps: seq<Action>)
    requires id in s.snaps && !Terminal(s.snaps[id].spec.phase)
    requires Runs(s, o) && TaskOf(s, o).id == id && id !in s.stopped
    requires !TaskOf(s, o).pc.Begin? && !TaskOf(s, o).pc.Saving? && !TaskOf(s, o).pc.Done?
    ensures Moved(s, steps, id)
  {
    if TaskOf(s, o).pc.Result? {
      steps := ResultMoves(s, o, id);
    } else {
      var a := OnTask(o, DoFailure);
      var t := TaskFail(s, o);
      assert Runs(t, o) && TaskOf(t, o).id == id && TaskOf(t, o).pc.Result?;
      assert t.snaps == s.snaps && t.stopped == s.stopped && Step(s, a) == t;
      hide Step, Moved, TaskFail;
      var rest := ResultMoves(t, o, id);
      StepThenMove(s, a, rest, id);
      steps := [a] + rest;
    }
  }

  lemma FixingMoves(s: State, id: Id) returns (steps: seq<Action>)
    requires id in s.snaps && s.worker == Fixing(id) && !s.snaps[id].spec.phase.Failed?
    ensures Moved(s, steps, id)
  {
    var a := OnWorker(DoFixRead(0));
    var t := FixRead(s, 0);
    assert Armed(t, AtWorker, id) && Written(t, AtWorker).phase.Failed? && Step(s, a) == t;
    hide Step, Armed, Written, Moved;
    var rest := ArmedMoves(t, AtWorker, id);
    StepThenMove(s, a, rest, id);
    steps := [a] + rest;
  }

  lemma ReadyMoves(s: State, id: Id) returns (steps: seq<Action>)
    requires id in s.snaps && !s.snaps[id].spec.phase.Failed?
    requires s.worker.Ready? && s.worker.id == id && !Terminal(s.worker.obj.spec.phase)
    requires s.worker.obj.spec.phase.Pending? || !NewlyCreated(s, id)
    ensures Moved(s, steps, id)
  {
    var a := OnWorker(DoDispatch(false));
    var t := Dispatch(s, false);
    assert t.worker == Fixing(id) && t.snaps == s.snaps && Step(s, a) == t;
    hide Step, Moved, Dispatch;
    var rest := FixingMoves(t, id);
    StepThenMove(s, a, rest, id);
    steps := [a] + rest;
  }

  lemma StirsMoves(s: State, at: Place, id: Id) returns (steps: seq<Action>)
    requires id in s.snaps && !Terminal(s.snaps[id].spec.phase) && Stirs(s, at, id)
    ensures Moved(s, steps, id)
  {
    if Armed(s, at, id) && Written(s, at).phase != s.snaps[id].spec.phase {
      steps := ArmedMoves(s, at, id);
    } else {
      hide Armed, Written, Moved, NewlyCreated;
      match at
      case AtClient(n) => steps := ClientMoves(s, n, id);
      case AtLane(o) => steps := LaneMoves(s, o, id);
      case AtWorker =>
        if s.worker.Fixing? { steps := FixingMoves(s, id); } else { steps := ReadyMoves(s, id); }
    }
  }

  /** An unfinished snapshot whose backup is gone can still change its phase, without a request
      that names a stored backup, if and only if something under way stirs it. In every other
      state it keeps its phase along every such run, for as long as it is stored. */
  lemma OrphanMovesIff(s: State, id: Id)
    requires Reachable(s) && id in s.snaps && Orphaned(s, id)
    ensures (exists steps :: Moved(s, steps, id)) <==> exists at :: Stirs(s, at, id)
  {
    hide Reachable, AllHeld, FullInv, InOrder, NotifyInv, OnceInv, RecoveryInv, StoppedOut, Stirs, Run;
    ReachedInv(s);
    if at :| Stirs(s, at, id) {
      var steps := StirsMoves(s, at, id);
    } else {
      forall steps | NoneHeard(s, steps, id) ensures !Moved(s, steps, id) { OrphanRun(s, steps, id); }
    }
  }

  // ---- a cancel request always gets through ----

  lemma {:induction false} Above(ns: set<nat>) returns (n: nat)
    ensures forall m :: m in ns ==> m < n
    decreases |ns|
  {
    n := 0;
    if ns != {} {
      var m :| m in ns;
      n := Above(ns - {m});
      if n <= m { n := m + 1; }
      assert forall k :: k in ns ==> k == m || k in ns - {m};
    }
  }

  /** The request is taken, and some run that goes on from there ends in Canceled. */
  predicate Cancels(s: State, n: nat, b: Id, rest: seq<Action>, id: Id) {
    var t := CancelCheck(s, n, b, id);
    t != s && id in Run(t, rest).snaps && Run(t, rest).snaps[id].spec.phase.Canceled?
  }

  lemma TakenCancels(s: State, b: Id, id: Id) returns (n: nat, rest: seq<Action>)
    requires id in s.snaps && !s.snaps[id].spec.phase.Completed? && !s.snaps[id].spec.phase.Failed? && b in s.backups
    ensures Cancels(s, n, b, rest, id)
  {
    n := Above(s.clients.Keys);
    var t := CancelCheck(s, n, b, id);
    assert n in t.clients && n !in s.clients && t.clients[n] == Checked(id) && t.snaps == s.snaps;
    var u := CancelRead(t, n, 0);
    var a := OnClient(n, DoCancelRead(0));
    assert Armed(u, AtClient(n), id) && Written(u, AtClient(n)).phase.Canceled? && Step(t, a) == u;
    var c := Send(u, AtClient(n));
    SendCommits(u, AtClient(n), id);
    hide Step, Armed, Written, CancelRead;
    rest := [a, c];
    assert rest[1..] == [c];
    RunOne(u, c);
  }

  /** A new cancel request can bring a snapshot to Canceled if and only if it is neither completed
      nor failed, and some backup is stored, which need not be its own: without one every request
      is refused. */
  lemma CancelGetsThrough(s: State, id: Id)
    requires id in s.snaps
    ensures (exists n, b, rest :: Cancels(s, n, b, rest, id)) <==>
      s.backups != {} && !s.snaps[id].spec.phase.Completed? && !s.snaps[id].spec.phase.Failed?
  {
    if s.backups != {} && !s.snaps[id].spec.phase.Completed? && !s.snaps[id].spec.phase.Failed? {
      var b :| b in s.backups;
      var n, rest := TakenCancels(s, b, id);
    }
  }

  // ---- after a restart ----

  /** The other half of InterruptedEnds. What a restart interrupted and the replay did not end,
      although no write was given up, has lost its backup; and only a cancel request that is
      already past its check can still move it, besides a new one that names a stored backup. */
  lemma InterruptedOrphan(s: State, id: Id)
    requires Reachable(s) && Quiescent(s)
    requires id in s.interrupted && id in s.snaps && id !in s.unfixed && !Terminal(s.snaps[id].spec.phase)
    ensures Orphaned(s, id)
    ensures (exists steps :: Moved(s, steps, id)) <==> exists n :: Stirs(s, AtClient(n), id)
  {
    InterruptedHome(s, id);
    if s.snaps[id].spec.backup in s.backups { InterruptedEnds(s, id); }
    OrphanMovesIff(s, id);
    forall at | Stirs(s, at, id) ensures at.AtClient? { OnlyClientsStir(s, at, id); }
    hide Reachable, Stirs, Moved;
    if at :| Stirs(s, at, id) { assert Stirs(s, AtClient(at.n), id); }
  }

  lemma InterruptedHome(s: State, id: Id)
    requires Reachable(s) && id in s.snaps
    ensures id in s.home && s.home[id] == s.snaps[id].spec.backup && Sound(s)
  {
    hide Reachable, AllHeld;
    ReachedInv(s);
  }

  lemma OnlyClientsStir(s: State, at: Place, id: Id)
    requires Reachable(s) && Quiescent(s) && id in s.interrupted && id in s.snaps && Stirs(s, at, id)
    ensures at.AtClient?
  {
    InterruptedHome(s, id);
    if at.AtLane? {
      assert HeldByTask(s, TaskOf(s, at.o));
      hide Reachable;
      InterruptedNeverRuns(s, at.o, -1, id);
    }
  }
  /** A pending snapshot whose backup is gone. */
  lemma Orphan() returns (s: State)
    ensures Reachable(s) && s.snaps.Keys == {"s"} && s.snaps["s"].spec == NewSnapshot("b", 0)
    ensures s.backups == {} && s.worker.Idle? && s.clock == 0 && s.clients == map[]
  {
    assert Initial == Run(Initial, []);
    ReachableStep(Initial, OnStore(DoAddBackup("b", "o")));
    s := AddBackup(Initial, "b", "o");
    hide Reachable;
    ReachableStep(s, OnStore(DoAddSnapshot("s", "b", 0, 0)));
    s := AddSnapshot(s, "s", "b", 0, 0);
    ReachableStep(s, OnStore(DoDropBackup("b")));
    s := DropBackup(s, "b");
  }

  lemma OrphanRestarted() returns (s: State)
    ensures Reachable(s) && s.snaps.Keys == {"s"} && s.snaps["s"].spec == NewSnapshot("b", 0)
    ensures s.backups == {} && s.worker == Taken("s") && s.interrupted == {"s"} && s.queue == {}
      && s.events == [] && s.unfixed == {} && s.clients == map[]
  {
    s := Orphan();
    hide Reachable;
    ReachableStep(s, OnRestart(["s"]));
    s := Restart(s, ["s"]);
    ReachableStep(s, OnWorker(DoDeliver));
    s := Deliver(s);
    ReachableStep(s, OnWorker(DoTake("s")));
    s := Take(s, "s");
  }

  /** It happens: a restart that meets a pending snapshot without a backup leaves it pending in
      a state at rest, and there it stays along every run in which no request to cancel it names
      a stored backup: its own cannot be named any more. */
  lemma OrphanStaysPending()
    ensures exists s ::
      && Reachable(s) && Quiescent(s) && "s" in s.interrupted && "s" in s.snaps && "s" !in s.unfixed
      && s.snaps["s"].spec.phase.Pending? && !exists steps :: Moved(s, steps, "s")
  {
    var s := OrphanAtRest();
    hide Reachable;
    InterruptedOrphan(s, "s");
  }

  lemma OrphanAtRest() returns (s: State)
    ensures Reachable(s) && Quiescent(s) && "s" in s.interrupted && "s" in s.snaps && "s" !in s.unfixed
    ensures s.snaps["s"].spec.phase.Pending? && s.clients == map[]
  {
    s := OrphanRestarted();
    hide Reachable;
    ReachableStep(s, OnWorker(DoReadSnapshot));
    s := ReadSnapshot(s);
    ReachableStep(s, OnWorker(DoReadBackup));
    s := ReadBackup(s);
  }
}
