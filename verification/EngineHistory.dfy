/** The history of every snapshot: which writes can follow which. */
module EngineHistory {
  import opened Options
  import opened Snapshots
  import opened Versioned
  import opened Engine
  import opened EngineInvariants
  import opened EngineEffects

  /** One step adds at most one entry, and a stored snapshot changes only with its entry. */
  predicate Logged(s: State, t: State) {
    if |t.log| == |s.log| then
      && t.log == s.log
      && (forall id :: id in s.home && id in t.snaps ==> id in s.snaps && t.snaps[id] == s.snaps[id])
    else
      && |t.log| == |s.log| + 1
      && t.log[..|s.log|] == s.log
      && var e := t.log[|s.log|];
      && Lawful(e.actor, e.was, e.now)
      && e.id in s.snaps && e.was == s.snaps[e.id].spec
      && e.id in t.snaps && e.now == t.snaps[e.id].spec
      && (forall id :: id in t.snaps && id != e.id ==> id in s.snaps && t.snaps[id] == s.snaps[id])
  }

  lemma CommitsLogged(s: State, actor: Actor, w: Update, t: State)
    requires Commits(s, actor, w, t)
    ensures Logged(s, t)
    ensures |t.log| == |s.log| + 1 && t.log[|s.log|] == Entry(w.id, actor, s.snaps[w.id].spec, w.next)
  {
  }

  lemma StoreLogged(s: State, a: StoreAction)
    requires Shape(s)
    ensures Logged(s, StoreStep(s, a))
  {
  }

  lemma ClientLogged(s: State, n: nat, a: ClientAction)
    requires Sound(s)
    ensures Logged(s, ClientStep(s, n, a))
  {
    var t := ClientStep(s, n, a);
    ClientEffect(s, n, a);
    hide ClientStep, AllHeld;
    if ClientCommits(s, n, t) { CommitsLogged(s, s.clients[n].actor, s.clients[n].w, t); }
  }

  lemma TaskLogged(s: State, o: Owner, a: TaskAction)
    requires Sound(s)
    ensures Logged(s, TaskStep(s, o, a))
  {
    var t := TaskStep(s, o, a);
    TaskEffect(s, o, a);
    hide TaskStep, AllHeld;
    if TaskStarts(s, o, t) { CommitsLogged(s, ByStart(TaskOf(s, o).id), TaskOf(s, o).pc.w, t); }
    if TaskFinishes(s, o, t) { CommitsLogged(s, ByFinish(TaskOf(s, o).id), TaskOf(s, o).pc.w, t); }
  }

  lemma WorkerLogged(s: State, a: WorkerAction)
    requires Sound(s)
    ensures Logged(s, WorkerStep(s, a))
  {
    var t := WorkerStep(s, a);
    WorkerEffect(s, a);
    hide WorkerStep, AllHeld;
    if WorkerCommits(s, t) { CommitsLogged(s, if s.worker.FixWriting? then ByRecovery else ByNotify, s.worker.w, t); }
  }

  lemma StepLogged(s: State, a: Action)
    requires Sound(s)
    ensures Logged(s, Step(s, a))
  {
    hide Logged, AllHeld;
    match a
    case OnStore(b) => StoreLogged(s, b);
    case OnClient(n, b) => ClientLogged(s, n, b);
    case OnTask(o, b) => TaskLogged(s, o, b);
    case OnWorker(b) => WorkerLogged(s, b);
    case OnRestart(order) => RestartLogged(s, order);
  }

  lemma RestartLogged(s: State, order: seq<Id>)
    requires Shape(s)
    ensures Logged(s, Restart(s, order))
  {
  }

  // ---- Completed comes after Running, by the same task ----

  predicate StartedBefore(log: seq<Entry>, n: nat, id: Id)
    requires n <= |log|
  {
    exists j :: 0 <= j < n && log[j].actor == ByStart(id) && log[j].id == id
  }

  predicate EntryInOrder(log: seq<Entry>, i: nat)
    requires i < |log|
  {
    && Lawful(log[i].actor, log[i].was, log[i].now)
    && (log[i].actor.ByFinish? && log[i].now.phase.Completed? ==>
          log[i].id == log[i].actor.task && StartedBefore(log, i, log[i].id))
  }

  /** The program counters that lead to Completed. */
  predicate Succeeding(pc: Pc) {
    pc.Executing? || (pc.Result? && pc.ok) || (pc.Saving? && pc.ok)
  }

  predicate InOrder(s: State) {
    && (forall i :: 0 <= i < |s.log| ==> EntryInOrder(s.log, i))
    && (forall o :: o in s.lanes && s.lanes[o].run.Some? && Succeeding(s.lanes[o].run.value.pc) ==>
          StartedBefore(s.log, |s.log|, s.lanes[o].run.value.id))
  }

  lemma StartedGrows(log: seq<Entry>, more: seq<Entry>, n: nat, m: nat, id: Id)
    requires n <= |log| <= |more| && log == more[..|log|] && n <= m <= |more|
    requires StartedBefore(log, n, id)
    ensures StartedBefore(more, m, id)
  {
    var j :| 0 <= j < n && log[j].actor == ByStart(id) && log[j].id == id;
    assert more[j] == log[j];
  }

  predicate InOrderTask(s: State, r: Task) {
    Succeeding(r.pc) ==> StartedBefore(s.log, |s.log|, r.id)
  }

  /** Older entries keep their order when the history grows; later ones see more of it. */
  lemma InOrderGrows(s: State, t: State)
    requires InOrder(s) && Logged(s, t)
    requires |t.log| > |s.log| ==> EntryInOrder(t.log, |s.log|)
    requires forall o :: o in t.lanes && t.lanes[o].run.Some? ==>
      || InOrderTask(t, t.lanes[o].run.value)
      || SameTask(s, o, t.lanes[o].run.value)
    ensures InOrder(t)
  {
    assert s.log == t.log[..|s.log|];
    forall i | 0 <= i < |s.log| ensures EntryInOrder(t.log, i) {
      assert EntryInOrder(s.log, i) && t.log[i] == s.log[i];
      if StartedBefore(s.log, i, s.log[i].id) { StartedGrows(s.log, t.log, i, i, s.log[i].id); }
    }
    forall o | o in t.lanes && t.lanes[o].run.Some? ensures InOrderTask(t, t.lanes[o].run.value) {
      var r := t.lanes[o].run.value;
      if SameTask(s, o, r) && Succeeding(r.pc) { StartedGrows(s.log, t.log, |s.log|, |t.log|, r.id); }
    }
  }

  /** The task was in the lane before, and was as close to success as it is now. */
  predicate SameTask(s: State, o: Owner, r: Task) {
    Runs(s, o) && TaskOf(s, o).id == r.id && (Succeeding(r.pc) ==> Succeeding(TaskOf(s, o).pc))
  }

  predicate Follows(s: State, o: Owner, t: State) {
    Runs(t, o) ==> SameTask(s, o, TaskOf(t, o)) || TaskOf(t, o).pc.Begin?
  }

  lemma EarlyFollows(s: State, o: Owner, rest: int, dropped: bool)
    ensures Follows(s, o, TaskStart(s, o, dropped)) && Follows(s, o, TaskLoad(s, o))
    ensures Follows(s, o, TaskType(s, o)) && Follows(s, o, TaskStartRead(s, o, rest))
  {
    hide HasCompleted;
  }

  lemma LateFollows(s: State, o: Owner, ok: bool, canceled: bool, rest: int, failed: bool)
    ensures Follows(s, o, TaskFail(s, o)) && Follows(s, o, TaskExecuted(s, o, ok))
    ensures Follows(s, o, TaskResultRead(s, o, canceled, rest, failed)) && Follows(s, o, TaskEnd(s, o))
  {
  }

  lemma SucceedingCalm(s: State, o: Owner, a: TaskAction)
    requires !a.DoStartCommit? && !a.DoResultCommit?
    ensures Follows(s, o, TaskStep(s, o, a))
  {
    hide Follows, TaskStart, TaskLoad, TaskType, TaskStartRead, TaskFail, TaskExecuted, TaskResultRead, TaskEnd;
    EarlyFollows(s, o, if a.DoStartRead? then a.rest else 0, a.DoStart? && a.dropped);
    LateFollows(s, o, a.DoExecuted? && a.ok, a.DoResultRead? && a.canceled, if a.DoResultRead? then a.rest else 0,
      a.DoResultRead? && a.failed);
  }

  lemma StartInOrder(s: State, o: Owner, t: State)
    requires InOrder(s) && TaskStarts(s, o, t)
    ensures InOrder(t)
  {
    var id := TaskOf(s, o).id;
    CommitsLogged(s, ByStart(id), TaskOf(s, o).pc.w, t);
    assert t.log[|s.log|].actor == ByStart(id) && t.log[|s.log|].id == id;
    assert InOrderTask(t, t.lanes[o].run.value);
    InOrderGrows(s, t);
  }

  lemma FinishInOrder(s: State, o: Owner, t: State)
    requires InOrder(s) && TaskFinishes(s, o, t)
    ensures InOrder(t)
  {
    var r := TaskOf(s, o);
    CommitsLogged(s, ByFinish(r.id), r.pc.w, t);
    if r.pc.w.next.phase.Completed? {
      assert Succeeding(r.pc);
      StartedGrows(s.log, t.log, |s.log|, |s.log|, r.id);
    }
    InOrderGrows(s, t);
  }

  lemma TaskInOrder(s: State, o: Owner, a: TaskAction)
    requires Sound(s) && InOrder(s)
    ensures InOrder(TaskStep(s, o, a))
  {
    var t := TaskStep(s, o, a);
    TaskEffect(s, o, a);
    TaskLogged(s, o, a);
    if !a.DoStartCommit? && !a.DoResultCommit? { SucceedingCalm(s, o, a); }
    hide Sound, TaskStep;
    if TaskStarts(s, o, t) {
      StartInOrder(s, o, t);
    } else if TaskFinishes(s, o, t) {
      FinishInOrder(s, o, t);
    } else {
      InOrderGrows(s, t);
    }
  }

  lemma ClientInOrder(s: State, n: nat, a: ClientAction)
    requires Sound(s) && InOrder(s)
    ensures InOrder(ClientStep(s, n, a))
  {
    ClientEffect(s, n, a);
    ClientLogged(s, n, a);
    hide Sound, ClientStep;
    InOrderGrows(s, ClientStep(s, n, a));
  }

  lemma WorkerInOrder(s: State, a: WorkerAction)
    requires Sound(s) && InOrder(s)
    ensures InOrder(WorkerStep(s, a))
  {
    WorkerEffect(s, a);
    WorkerLogged(s, a);
    hide Sound, WorkerStep;
    InOrderGrows(s, WorkerStep(s, a));
  }

  lemma StepInOrder(s: State, a: Action)
    requires Sound(s) && InOrder(s)
    ensures InOrder(Step(s, a))
  {
    hide Sound, InOrder, StartedBefore;
    match a
    case OnStore(b) => StoreInOrder(s, b);
    case OnClient(n, b) => ClientInOrder(s, n, b);
    case OnTask(o, b) => TaskInOrder(s, o, b);
    case OnWorker(b) => WorkerInOrder(s, b);
    case OnRestart(order) => RestartInOrder(s, order);
  }

  lemma StoreInOrder(s: State, a: StoreAction)
    requires Sound(s) && InOrder(s)
    ensures InOrder(StoreStep(s, a))
  {
    StoreLogged(s, a);
    hide Sound;
    InOrderGrows(s, StoreStep(s, a));
  }

  lemma RestartInOrder(s: State, order: seq<Id>)
    requires Sound(s) && InOrder(s)
    ensures InOrder(Restart(s, order))
  {
    RestartLogged(s, order);
    InOrderGrows(s, Restart(s, order));
  }
}
