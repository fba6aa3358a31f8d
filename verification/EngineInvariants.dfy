/** What every step of the engine keeps: the shape of the state, and the honesty of every
    update in flight. All later results about the engine rest on these two. */
module EngineInvariants {
  import opened Options
  import opened Snapshots
  import opened Versioned
  import opened Engine

  /** What each writer may do to a stored snapshot. */
  predicate Lawful(actor: Actor, was: Spec, now: Spec) {
    match actor
    case ByCancel => now == WithPhase(was, Canceled, now.rest)
    case ByProgress => was.phase.Running? && 0 <= now.progress < PROGRESS_DONE && now == WithProgress(was, now.progress)
    case ByStart(_) => now == WithPhase(was, Running, now.rest)
    case ByFinish(_) =>
      || now == WithSuccess(was, now.kind, now.rest)
      || ((now.phase.Failed? || now.phase.Canceled?)
            && now == was.(phase := now.phase, kind := now.kind, rest := now.rest))
    case ByRecovery => now == WithPhase(was, Failed, now.rest)
    case ByNotify => Terminal(was.phase) && now == WithPushed(was)
  }

  // ---- the shape of the state ----

  predicate TaskHome(s: State, o: Owner, id: Id) {
    id in s.home && s.home[id] in s.owner && s.owner[s.home[id]] == o
  }

  predicate LaneShape(s: State, o: Owner, l: Lane) {
    && (forall i :: 0 <= i < |l.queue| ==> TaskHome(s, o, l.queue[i]))
    && (l.run.Some? ==> TaskHome(s, o, l.run.value.id) && l.run.value.backup == s.home[l.run.value.id])
  }

  predicate Shape(s: State) {
    && s.snaps.Keys <= s.home.Keys
    && s.created.Keys == s.home.Keys
    && s.backups <= s.owner.Keys
    && s.start <= s.clock
    && (forall id :: id in s.home ==> s.home[id] in s.owner && s.created[id] <= s.clock)
    && (forall id :: id in s.snaps ==> s.snaps[id].version <= s.rv && s.snaps[id].spec.backup == s.home[id])
    && (forall o :: o in s.lanes ==> LaneShape(s, o, s.lanes[o]))
    && (forall i :: 0 <= i < |s.events| ==> s.events[i].id in s.home)
    && (HasRead(s.worker) ==> s.worker.id in s.home && s.worker.obj.spec.backup == s.home[s.worker.id])
    && (forall id :: id in s.snaps && s.snaps[id].spec.pushed ==> id in s.sent)
  }

  // ---- updates in flight ----

  predicate Held(s: State, actor: Actor, w: Update) {
    && Honest(s.snaps, w)
    && w.version <= s.rv
    && w.id in s.home
    && w.base.backup == s.home[w.id]
    && Lawful(actor, w.base, w.next)
    && (w.next.pushed ==> w.id in s.sent)
  }

  predicate HeldByTask(s: State, t: Task) {
    match t.pc
    case Starting(_, w) => w.id == t.id && Held(s, ByStart(t.id), w)
    case Saving(ok, k, w) =>
      && w.id == t.id
      && Held(s, ByFinish(t.id), w)
      && (w.next.phase.Completed? ==> ok && k == Some(w.next.kind))
    case _ => true
  }

  predicate HeldByClient(s: State, c: Client) {
    c.Writing? ==> (c.actor.ByCancel? || c.actor.ByProgress?) && Held(s, c.actor, c.w)
  }

  predicate HeldByWorker(s: State, k: Worker) {
    match k
    case Read(id, obj) => ReadOk(s, id, obj)
    case Ready(id, obj) => ReadOk(s, id, obj)
    case Seeking(id, obj, _) => ReadOk(s, id, obj) && obj.spec.phase.Canceled?
    case FixWriting(w) => Held(s, ByRecovery, w)
    case FlagWriting(w) => Held(s, ByNotify, w) && w.id in s.sent
    case _ => true
  }

  /** The object the worker read is the stored one as long as the version has not moved on. */
  predicate ReadOk(s: State, id: Id, obj: Obj<Spec>) {
    && obj.version <= s.rv
    && (id in s.snaps && s.snaps[id].version == obj.version ==> s.snaps[id] == obj)
    && (obj.spec.pushed ==> id in s.sent)
  }

  predicate AllHeld(s: State) {
    && (forall n :: n in s.clients ==> HeldByClient(s, s.clients[n]))
    && (forall o :: o in s.lanes && s.lanes[o].run.Some? ==> HeldByTask(s, s.lanes[o].run.value))
    && HeldByWorker(s, s.worker)
  }

  predicate Sound(s: State) {
    Shape(s) && AllHeld(s)
  }

  /** How the history moves: nothing that existed is forgotten, ids are never used again, and
      a stored snapshot is the same or carries a newer version. */
  predicate Later(s: State, t: State) {
    && s.rv <= t.rv
    && (forall id :: id in s.home ==> id in t.home && t.home[id] == s.home[id])
    && (forall b :: b in s.owner ==> b in t.owner && t.owner[b] == s.owner[b])
    && s.sent <= t.sent
    && (forall id :: id in s.home && id in t.snaps ==>
          id in s.snaps && (t.snaps[id] == s.snaps[id] || t.snaps[id].version > s.rv))
  }

  lemma HeldLater(s: State, t: State, actor: Actor, w: Update)
    requires Held(s, actor, w) && Later(s, t)
    ensures Held(t, actor, w)
  {
  }

  /** Whoever held an honest update before a step still does after it. */
  lemma AllHeldLater(s: State, t: State)
    requires AllHeld(s) && Later(s, t) && Shape(s)
    requires forall n :: n in t.clients ==> n in s.clients && t.clients[n] == s.clients[n]
    requires forall o :: o in t.lanes && t.lanes[o].run.Some? ==>
      || HeldByTask(t, t.lanes[o].run.value)
      || (o in s.lanes && t.lanes[o].run == s.lanes[o].run)
    requires t.worker == s.worker || HeldByWorker(t, t.worker)
    ensures AllHeld(t)
  {
    forall n | n in t.clients ensures HeldByClient(t, t.clients[n]) {
      var c := s.clients[n];
      assert HeldByClient(s, c);
      if c.Writing? { HeldLater(s, t, c.actor, c.w); }
    }
    forall o | o in t.lanes && t.lanes[o].run.Some? ensures HeldByTask(t, t.lanes[o].run.value) {
      var r := t.lanes[o].run.value;
      if !HeldByTask(t, r) {
        assert HeldByTask(s, r);
        match r.pc
        case Starting(_, w) => HeldLater(s, t, ByStart(r.id), w);
        case Saving(_, _, w) => HeldLater(s, t, ByFinish(r.id), w);
        case _ =>
      }
    }
    WorkerLater(s, t);
  }

  lemma WorkerLater(s: State, t: State)
    requires AllHeld(s) && Later(s, t) && Shape(s)
    requires t.worker == s.worker || HeldByWorker(t, t.worker)
    ensures HeldByWorker(t, t.worker)
  {
    if t.worker == s.worker {
      match s.worker
      case FixWriting(w) => HeldLater(s, t, ByRecovery, w);
      case FlagWriting(w) => HeldLater(s, t, ByNotify, w);
      case _ =>
    }
  }

  /** A committed update was made to exactly what was stored, and within the law of its writer. */
  lemma CommitSound(s: State, actor: Actor, w: Update)
    requires Shape(s) && Held(s, actor, w) && Fresh(s.snaps, w)
    ensures Shape(Commit(s, actor, w)) && Later(s, Commit(s, actor, w))
    ensures Lawful(actor, s.snaps[w.id].spec, w.next)
  {
    var t := Commit(s, actor, w);
    forall o | o in t.lanes ensures LaneShape(t, o, t.lanes[o]) {
      assert LaneShape(s, o, s.lanes[o]);
    }
  }

  lemma HeldBegun(s: State, actor: Actor, id: Id, next: Spec)
    requires Shape(s) && id in s.snaps
    requires Lawful(actor, s.snaps[id].spec, next) && (next.pushed ==> s.snaps[id].spec.pushed)
    ensures Held(s, actor, Begun(s, id, next))
  {
  }

  // ---- one lemma a step ----

  predicate Kept(s: State, t: State) {
    Sound(t) && Later(s, t)
  }

  predicate SameStore(s: State, t: State) {
    && t.clock == s.clock && t.start == s.start && t.rv == s.rv && t.snaps == s.snaps && t.backups == s.backups
    && t.owner == s.owner && t.home == s.home && t.created == s.created && t.sent == s.sent
  }

  /** Steps that leave the store alone only answer for what they changed. */
  lemma QuietSound(s: State, t: State)
    requires Sound(s) && SameStore(s, t)
    requires forall o :: o in t.lanes && !(o in s.lanes && t.lanes[o] == s.lanes[o]) ==>
      LaneShape(s, o, t.lanes[o]) && (t.lanes[o].run.Some? ==> HeldByTask(s, t.lanes[o].run.value))
    requires forall n :: n in t.clients && !(n in s.clients && t.clients[n] == s.clients[n]) ==>
      HeldByClient(s, t.clients[n])
    requires t.worker == s.worker || (HeldByWorker(s, t.worker)
      && (HasRead(t.worker) ==>
            t.worker.id in s.home && t.worker.obj.spec.backup == s.home[t.worker.id]))
    requires forall i :: 0 <= i < |t.events| ==> t.events[i].id in s.home
    ensures Kept(s, t)
  {
    forall o | o in t.lanes ensures LaneShape(t, o, t.lanes[o]) {
      assert LaneShape(s, o, t.lanes[o]);
    }
    forall o | o in t.lanes && t.lanes[o].run.Some? ensures HeldByTask(t, t.lanes[o].run.value) {
      HeldByTaskSame(s, t, t.lanes[o].run.value);
    }
    forall n | n in t.clients ensures HeldByClient(t, t.clients[n]) {
      if t.clients[n].Writing? { HeldSame(s, t, t.clients[n].actor, t.clients[n].w); }
    }
    WorkerLater(s, t) by {
      if t.worker != s.worker { WorkerSame(s, t); }
    }
  }

  lemma HeldSame(s: State, t: State, actor: Actor, w: Update)
    requires SameStore(s, t)
    ensures Held(s, actor, w) == Held(t, actor, w)
  {
  }

  lemma HeldByTaskSame(s: State, t: State, r: Task)
    requires SameStore(s, t) && HeldByTask(s, r)
    ensures HeldByTask(t, r)
  {
    match r.pc
    case Starting(_, w) => HeldSame(s, t, ByStart(r.id), w);
    case Saving(_, _, w) => HeldSame(s, t, ByFinish(r.id), w);
    case _ =>
  }

  lemma WorkerSame(s: State, t: State)
    requires SameStore(s, t) && HeldByWorker(s, t.worker)
    ensures HeldByWorker(t, t.worker)
  {
  }

  lemma AddBackupSound(s: State, b: Id, o: Owner)
    requires Sound(s)
    ensures Kept(s, AddBackup(s, b, o))
  {
    AddBackupShape(s, b, o);
    hide Shape, Later;
    AllHeldLater(s, AddBackup(s, b, o));
  }

  lemma AddBackupShape(s: State, b: Id, o: Owner)
    requires Shape(s)
    ensures Shape(AddBackup(s, b, o)) && Later(s, AddBackup(s, b, o))
  {
    AddBackupLater(s, b, o);
    LanesLater(s, AddBackup(s, b, o));
    hide LaneShape, Later;
  }

  lemma AddBackupLater(s: State, b: Id, o: Owner)
    ensures Later(s, AddBackup(s, b, o))
  {
  }

  lemma LanesLater(s: State, t: State)
    requires Shape(s) && Later(s, t) && t.lanes == s.lanes
    ensures forall o :: o in t.lanes ==> LaneShape(t, o, t.lanes[o])
  {
    forall o | o in t.lanes ensures LaneShape(t, o, t.lanes[o]) {
      assert LaneShape(s, o, s.lanes[o]);
    }
  }

  lemma StopBackupSound(s: State, b: Id)
    requires Sound(s)
    ensures Kept(s, StopBackup(s, b))
  {
    SameSound(s);
    if b in s.owner && Runs(s, s.owner[b]) { StoppedSound(s, s.stopped + {TaskOf(s, s.owner[b]).id}); }
    hide Sound, Kept;
  }

  lemma DropBackupSound(s: State, b: Id)
    requires Sound(s)
    ensures Kept(s, DropBackup(s, b))
  {
    LanesLater(s, DropBackup(s, b));
    AllHeldLater(s, DropBackup(s, b));
  }

  lemma AddSnapshotSound(s: State, id: Id, b: Id, created: int, rest: int)
    requires Sound(s)
    ensures Kept(s, AddSnapshot(s, id, b, created, rest))
  {
    var t := AddSnapshot(s, id, b, created, rest);
    if t != s {
      AddSnapshotShape(s, id, b, created, rest);
      AllHeldLater(s, t);
    } else {
      QuietSound(s, t);
    }
  }

  lemma AddSnapshotShape(s: State, id: Id, b: Id, created: int, rest: int)
    requires Shape(s) && AddSnapshot(s, id, b, created, rest) != s
    ensures Shape(AddSnapshot(s, id, b, created, rest)) && Later(s, AddSnapshot(s, id, b, created, rest))
  {
    var t := AddSnapshot(s, id, b, created, rest);
    assert Later(s, t);
    LanesLater(s, t);
  }

  lemma DropSnapshotSound(s: State, id: Id)
    requires Sound(s)
    ensures Kept(s, DropSnapshot(s, id))
  {
    LanesLater(s, DropSnapshot(s, id));
    AllHeldLater(s, DropSnapshot(s, id));
  }

  lemma TickSound(s: State, n: nat)
    requires Sound(s)
    ensures Kept(s, Tick(s, n))
  {
    LanesLater(s, Tick(s, n));
    AllHeldLater(s, Tick(s, n));
  }

  lemma CancelCheckSound(s: State, n: nat, b: Id, id: Id)
    requires Sound(s)
    ensures Kept(s, CancelCheck(s, n, b, id))
  {
    QuietSound(s, CancelCheck(s, n, b, id));
  }

  lemma ClientFailSound(s: State, n: nat)
    requires Sound(s)
    ensures Kept(s, ClientFail(s, n))
  {
    QuietSound(s, ClientFail(s, n));
  }

  lemma CancelReadSound(s: State, n: nat, rest: int)
    requires Sound(s)
    ensures Kept(s, CancelRead(s, n, rest))
  {
    if CancelRead(s, n, rest) != s {
      var id := s.clients[n].id;
      HeldBegun(s, ByCancel, id, WithPhase(s.snaps[id].spec, Canceled, rest));
    }
    QuietSound(s, CancelRead(s, n, rest));
  }

  lemma ProgressReadSound(s: State, n: nat, o: Owner, percent: int)
    requires Sound(s)
    ensures Kept(s, ProgressRead(s, n, o, percent))
  {
    if ProgressRead(s, n, o, percent) != s {
      var id := TaskOf(s, o).id;
      HeldBegun(s, ByProgress, id, WithProgress(s.snaps[id].spec, percent));
    }
    QuietSound(s, ProgressRead(s, n, o, percent));
  }

  /** The lane is the same, or its task has let go of its update. */
  predicate LetGo(l: Lane, m: Lane) {
    && m.queue == l.queue
    && (m.run.None? || m.run == l.run
        || (l.run.Some? && (m.run.value.pc.Executing? || m.run.value.pc.Done?) && m.run.value == l.run.value.(pc := m.run.value.pc)))
  }

  /** A commit by a holder that then lets go of the update. */
  lemma CommitKept(s: State, actor: Actor, w: Update, t: State)
    requires Sound(s) && Held(s, actor, w) && Fresh(s.snaps, w)
    requires t == Commit(s, actor, w).(clients := t.clients, lanes := t.lanes, worker := t.worker)
    requires forall n :: n in t.clients ==> n in s.clients && t.clients[n] == s.clients[n]
    requires t.lanes.Keys <= s.lanes.Keys
    requires forall o :: o in t.lanes ==> LetGo(s.lanes[o], t.lanes[o])
    requires t.worker == s.worker || t.worker.Idle?
    ensures Kept(s, t)
  {
    CommitShape(s, actor, w, t);
    hide Shape, Later, Held;
    AllHeldLater(s, t);
  }

  lemma CommitShape(s: State, actor: Actor, w: Update, t: State)
    requires Shape(s) && Held(s, actor, w) && Fresh(s.snaps, w)
    requires t == Commit(s, actor, w).(clients := t.clients, lanes := t.lanes, worker := t.worker)
    requires t.lanes.Keys <= s.lanes.Keys && forall o :: o in t.lanes ==> LetGo(s.lanes[o], t.lanes[o])
    requires t.worker == s.worker || t.worker.Idle?
    ensures Shape(t) && Later(s, t)
  {
    CommitSound(s, actor, w);
    CommitLanes(s, actor, w, t);
    hide LaneShape, LetGo, Held, Fresh, Commit;
    SameShape(Commit(s, actor, w), t);
    SameLater(s, Commit(s, actor, w), t);
  }

  lemma SameShape(s: State, t: State)
    requires Shape(s) && t == s.(clients := t.clients, lanes := t.lanes, worker := t.worker)
    requires t.worker == s.worker || t.worker.Idle?
    requires forall o :: o in t.lanes ==> LaneShape(t, o, t.lanes[o])
    ensures Shape(t)
  {
    hide LaneShape;
  }

  lemma SameLater(s: State, t: State, u: State)
    requires Later(s, t) && u == t.(clients := u.clients, lanes := u.lanes, worker := u.worker)
    ensures Later(s, u)
  {
  }

  lemma CommitLanes(s: State, actor: Actor, w: Update, t: State)
    requires Shape(s) && Fresh(s.snaps, w)
    requires t == Commit(s, actor, w).(clients := t.clients, lanes := t.lanes, worker := t.worker)
    requires t.lanes.Keys <= s.lanes.Keys && forall o :: o in t.lanes ==> LetGo(s.lanes[o], t.lanes[o])
    ensures forall o :: o in t.lanes ==> LaneShape(t, o, t.lanes[o])
  {
    forall o | o in t.lanes ensures LaneShape(t, o, t.lanes[o]) {
      assert LaneShape(s, o, s.lanes[o]);
    }
  }

  lemma ClientCommitSound(s: State, n: nat)
    requires Sound(s)
    ensures Kept(s, ClientCommit(s, n))
  {
    if ClientCommit(s, n) != s {
      assert HeldByClient(s, s.clients[n]);
      CommitKept(s, s.clients[n].actor, s.clients[n].w, ClientCommit(s, n));
    }
  }

  lemma TaskStartSound(s: State, o: Owner, dropped: bool)
    requires Sound(s)
    ensures Kept(s, TaskStart(s, o, dropped))
  {
    if TaskStart(s, o, dropped) != s {
      var l := s.lanes[o];
      assert LaneShape(s, o, l);
      assert TaskHome(s, o, l.queue[0]);
    }
    QuietSound(s, TaskStart(s, o, dropped));
  }

  /** Steps of a task that only move its program counter. */
  lemma SetPcSound(s: State, o: Owner, pc: Pc)
    requires Sound(s) && Runs(s, o) && HeldByTask(s, TaskOf(s, o).(pc := pc))
    ensures Kept(s, SetPc(s, o, pc))
  {
    assert LaneShape(s, o, s.lanes[o]);
    QuietSound(s, SetPc(s, o, pc));
  }

  lemma EndTaskSound(s: State, o: Owner)
    requires Sound(s) && Runs(s, o)
    ensures Kept(s, EndTask(s, o))
  {
    assert LaneShape(s, o, s.lanes[o]);
    QuietSound(s, EndTask(s, o));
  }

  lemma TaskLoadSound(s: State, o: Owner)
    requires Sound(s)
    ensures Kept(s, TaskLoad(s, o))
  {
    if TaskLoad(s, o) == s {
      QuietSound(s, s);
    } else {
      var r := TaskOf(s, o);
      SetPcSound(s, o, Done);
      if r.id in s.snaps { SetPcSound(s, o, Loaded(s.snaps[r.id].spec.phase)); }
    }
  }

  lemma TaskTypeSound(s: State, o: Owner)
    requires Sound(s)
    ensures Kept(s, TaskType(s, o))
  {
    EventsKnown(s);
    hide Sound, Kept, HasCompleted;
    if TaskType(s, o) == s {
      QuietSound(s, s);
    } else {
      SetPcSound(s, o, TaskOf(TaskType(s, o), o).pc);
    }
  }

  lemma TaskFailSound(s: State, o: Owner)
    requires Sound(s)
    ensures Kept(s, TaskFail(s, o))
  {
    if TaskFail(s, o) == s {
      QuietSound(s, s);
    } else {
      SetPcSound(s, o, Result(false, Chosen(TaskOf(s, o).pc)));
    }
  }

  lemma TaskExecutedSound(s: State, o: Owner, ok: bool)
    requires Sound(s)
    ensures Kept(s, TaskExecuted(s, o, ok))
  {
    if TaskExecuted(s, o, ok) == s {
      QuietSound(s, s);
    } else {
      SetPcSound(s, o, Result(ok, Some(TaskOf(s, o).pc.kind)));
    }
  }

  lemma TaskEndSound(s: State, o: Owner)
    requires Sound(s)
    ensures Kept(s, TaskEnd(s, o))
  {
    if Runs(s, o) { EndTaskSound(s, o); } else { QuietSound(s, s); }
  }

  lemma TaskStartReadSound(s: State, o: Owner, rest: int)
    requires Sound(s)
    ensures Kept(s, TaskStartRead(s, o, rest))
  {
    if TaskStartRead(s, o, rest) != s {
      var r := TaskOf(s, o);
      var next := WithPhase(s.snaps[r.id].spec, Running, rest);
      HeldBegun(s, ByStart(r.id), r.id, next);
      SetPcSound(s, o, Starting(r.pc.kind, Begun(s, r.id, next)));
    }
  }

  lemma TaskStartCommitSound(s: State, o: Owner)
    requires Sound(s)
    ensures Kept(s, TaskStartCommit(s, o))
  {
    if TaskStartCommit(s, o) != s {
      var r := TaskOf(s, o);
      assert HeldByTask(s, r);
      var t := TaskStartCommit(s, o);
      assert t.lanes[o].run.value == r.(pc := Executing(r.pc.kind));
      CommitKept(s, ByStart(r.id), r.pc.w, t);
    }
  }

  lemma TaskResultReadSound(s: State, o: Owner, canceled: bool, rest: int, failed: bool)
    requires Sound(s)
    ensures Kept(s, TaskResultRead(s, o, canceled, rest, failed))
  {
    if TaskResultRead(s, o, canceled, rest, failed) != s {
      var r := TaskOf(s, o);
      SetPcSound(s, o, Done);
      if r.id in s.snaps {
        var spec := s.snaps[r.id].spec;
        var k := r.pc.found;
        var next := if r.pc.ok && k.Some? then WithSuccess(spec, k.value, rest) else WithError(spec, k, canceled, rest);
        HeldBegun(s, ByFinish(r.id), r.id, next);
        SetPcSound(s, o, Saving(r.pc.ok, k, Begun(s, r.id, next)));
      }
    }
  }

  lemma TaskResultCommitSound(s: State, o: Owner)
    requires Sound(s)
    ensures Kept(s, TaskResultCommit(s, o))
  {
    if TaskResultCommit(s, o) != s {
      assert HeldByTask(s, TaskOf(s, o));
      CommitKept(s, ByFinish(TaskOf(s, o).id), TaskOf(s, o).pc.w, TaskResultCommit(s, o));
    }
  }

  lemma DeliverSound(s: State)
    requires Sound(s)
    ensures Kept(s, Deliver(s))
  {
    QuietSound(s, Deliver(s));
  }

  lemma TakeSound(s: State, id: Id)
    requires Sound(s)
    ensures Kept(s, Take(s, id))
  {
    EventsKnown(s);
    hide Sound, Kept;
    QuietSound(s, Take(s, id));
  }

  lemma RetrySound(s: State)
    requires Sound(s)
    ensures Kept(s, Retry(s))
  {
    QuietSound(s, Retry(s));
  }

  lemma ReadSnapshotSound(s: State)
    requires Sound(s)
    ensures Kept(s, ReadSnapshot(s))
  {
    QuietSound(s, ReadSnapshot(s));
  }

  lemma ReadBackupSound(s: State)
    requires Sound(s)
    ensures Kept(s, ReadBackup(s))
  {
    QuietSound(s, ReadBackup(s));
  }

  lemma EventsKnown(s: State)
    requires Sound(s)
    ensures forall i :: 0 <= i < |s.events| ==> s.events[i].id in s.home
  {
  }

  lemma IdleSound(s: State, unfixed: set<Id>, unflagged: set<Id>)
    requires Sound(s)
    ensures Kept(s, s.(worker := Idle, unfixed := unfixed, unflagged := unflagged))
  {
    EventsKnown(s);
    hide Sound, Kept;
    QuietSound(s, s.(worker := Idle, unfixed := unfixed, unflagged := unflagged));
  }

  lemma SameSound(s: State)
    requires Sound(s)
    ensures Kept(s, s)
  {
    EventsKnown(s);
    hide Sound, Kept;
    QuietSound(s, s);
  }

  lemma GiveUpSound(s: State)
    requires Sound(s)
    ensures Kept(s, GiveUp(s))
  {
    hide Sound, Kept;
    match s.worker
    case Fixing(id) => IdleSound(s, s.unfixed + {id}, s.unflagged);
    case FixWriting(w) => IdleSound(s, s.unfixed + {w.id}, s.unflagged);
    case FlagWriting(w) => IdleSound(s, s.unfixed, s.unflagged + {w.id});
    case _ => SameSound(s);
  }

  lemma DispatchLane(s: State, o: Owner, id: Id)
    requires Sound(s) && TaskHome(s, o, id)
    ensures LaneShape(s, o, LaneOf(s, o).(queue := LaneOf(s, o).queue + [id]))
    ensures LaneOf(s, o).run.Some? ==> HeldByTask(s, LaneOf(s, o).run.value)
  {
    assert o in s.lanes ==> LaneShape(s, o, s.lanes[o]);
  }

  lemma SubmitSound(s: State, o: Owner, id: Id, t: State)
    requires Sound(s) && TaskHome(s, o, id)
    requires t == SetLane(s, o, LaneOf(s, o).(queue := LaneOf(s, o).queue + [id])).(worker := Idle, submitted := t.submitted)
    ensures Kept(s, t)
  {
    DispatchLane(s, o, id);
    QuietSound(s, t);
  }

  predicate Submits(s: State, accepted: bool) {
    && s.worker.Ready? && s.worker.obj.spec.phase.Pending? && NewlyCreated(s, s.worker.id)
    && accepted && s.worker.obj.spec.backup in s.owner
  }

  lemma SubmitsHome(s: State, accepted: bool)
    requires Sound(s) && Submits(s, accepted)
    ensures TaskHome(s, s.owner[s.worker.obj.spec.backup], s.worker.id)
  {
  }

  lemma DispatchSound(s: State, accepted: bool)
    requires Sound(s)
    ensures Kept(s, Dispatch(s, accepted))
  {
    hide Sound, Later;
    if Submits(s, accepted) {
      SubmitsHome(s, accepted);
      SubmitSound(s, s.owner[s.worker.obj.spec.backup], s.worker.id, Dispatch(s, accepted));
    } else {
      WorkerOnlySound(s, Dispatch(s, accepted));
    }
  }

  lemma WorkerOnlySound(s: State, t: State)
    requires Sound(s) && t == s.(worker := t.worker)
    requires t.worker == s.worker || t.worker.Fixing? || t.worker.Idle?
    ensures Kept(s, t)
  {
    QuietSound(s, t);
  }

  lemma FixReadSound(s: State, rest: int)
    requires Sound(s)
    ensures Kept(s, FixRead(s, rest))
  {
    if FixRead(s, rest) != s {
      HeldBegun(s, ByRecovery, s.worker.id, WithPhase(s.snaps[s.worker.id].spec, Failed, rest));
    }
    QuietSound(s, FixRead(s, rest));
  }

  lemma FixCommitSound(s: State)
    requires Sound(s)
    ensures Kept(s, FixCommit(s))
  {
    if FixCommit(s) != s { CommitKept(s, ByRecovery, s.worker.w, FixCommit(s)); }
  }

  lemma FlagCommitSound(s: State)
    requires Sound(s)
    ensures Kept(s, FlagCommit(s))
  {
    if FlagCommit(s) != s { CommitKept(s, ByNotify, s.worker.w, FlagCommit(s)); }
  }

  lemma SeekSound(s: State)
    requires Sound(s)
    ensures Kept(s, Seek(s))
  {
    EventsKnown(s);
    QuietSound(s, Seek(s));
  }

  /** Contexts play no part in the shape of the state. */
  lemma StoppedSound(s: State, stopped: set<Id>)
    requires Sound(s)
    ensures Kept(s, s.(stopped := stopped))
  {
    EventsKnown(s);
    hide Sound, Kept;
    QuietSound(s, s.(stopped := stopped));
  }

  lemma ReportSound(s: State, ok: bool)
    requires Sound(s)
    ensures Kept(s, Report(s, ok))
  {
    var t := Report(s, ok);
    if ok && t != s {
      SentSound(s);
    } else {
      QuietSound(s, t);
    }
  }

  lemma SentSound(s: State)
    requires Sound(s) && Notifies(s.worker)
    ensures Kept(s, Report(s, true))
  {
    var t := Report(s, true);
    SentShape(s);
    hide Shape;
    assert HeldByWorker(t, t.worker);
    hide HeldByWorker, Later;
    AllHeldLater(s, t);
  }

  lemma SentShape(s: State)
    requires Shape(s) && Notifies(s.worker)
    ensures Shape(Report(s, true)) && Later(s, Report(s, true))
  {
    assert Later(s, Report(s, true));
    LanesLater(s, Report(s, true));
    hide LaneShape;
  }

  lemma NotifySound(s: State, ok: bool)
    requires Sound(s)
    ensures Kept(s, Notify(s, ok))
  {
    StoppedSound(s, s.stopped + if s.worker.Seeking? then {s.worker.id} else {});
    SameSound(s);
    hide Sound, InRun, Later;
    ReportSound(StopFound(s), ok);
    LaterLater(s, StopFound(s), Notify(s, ok));
  }

  lemma LaterLater(s: State, t: State, u: State)
    requires Later(s, t) && Later(t, u) && s.snaps == t.snaps && s.rv == t.rv
    ensures Later(s, u)
  {
  }

  lemma RestartSound(s: State, order: seq<Id>)
    requires Sound(s)
    ensures Kept(s, Restart(s, order))
  {
    var t := Restart(s, order);
    RestartShape(s, order);
    hide Shape, Later;
    AllHeldLater(s, t);
  }

  lemma RestartShape(s: State, order: seq<Id>)
    requires Shape(s)
    ensures Shape(Restart(s, order)) && Later(s, Restart(s, order))
  {
  }

  lemma StoreStepSound(s: State, a: StoreAction)
    requires Sound(s)
    ensures Kept(s, StoreStep(s, a))
  {
    hide Sound, Later;
    match a
    case DoAddBackup(b, o) => AddBackupSound(s, b, o);
    case DoStopBackup(b) => StopBackupSound(s, b);
    case DoDropBackup(b) => DropBackupSound(s, b);
    case DoAddSnapshot(id, b, created, rest) => AddSnapshotSound(s, id, b, created, rest);
    case DoDropSnapshot(id) => DropSnapshotSound(s, id);
    case DoTick(n) => TickSound(s, n);
  }

  lemma ClientStepSound(s: State, n: nat, a: ClientAction)
    requires Sound(s)
    ensures Kept(s, ClientStep(s, n, a))
  {
    hide Sound, Later;
    match a
    case DoCancelCheck(b, id) => CancelCheckSound(s, n, b, id);
    case DoCancelRead(rest) => CancelReadSound(s, n, rest);
    case DoProgressRead(o, percent) => ProgressReadSound(s, n, o, percent);
    case DoCommit => ClientCommitSound(s, n);
    case DoFail => ClientFailSound(s, n);
  }

  lemma TaskStepSound(s: State, o: Owner, a: TaskAction)
    requires Sound(s)
    ensures Kept(s, TaskStep(s, o, a))
  {
    hide Sound, Later;
    match a
    case DoStart(dropped) => TaskStartSound(s, o, dropped);
    case DoLoad => TaskLoadSound(s, o);
    case DoType => TaskTypeSound(s, o);
    case DoFailure => TaskFailSound(s, o);
    case DoStartRead(rest) => TaskStartReadSound(s, o, rest);
    case DoStartCommit => TaskStartCommitSound(s, o);
    case DoExecuted(ok) => TaskExecutedSound(s, o, ok);
    case DoResultRead(canceled, rest, failed) => TaskResultReadSound(s, o, canceled, rest, failed);
    case DoResultCommit => TaskResultCommitSound(s, o);
    case DoEnd => TaskEndSound(s, o);
  }

  lemma WorkerStepSound(s: State, a: WorkerAction)
    requires Sound(s)
    ensures Kept(s, WorkerStep(s, a))
  {
    hide Sound, Later;
    match a
    case DoDeliver => DeliverSound(s);
    case DoTake(id) => TakeSound(s, id);
    case DoRetry => RetrySound(s);
    case DoReadSnapshot => ReadSnapshotSound(s);
    case DoReadBackup => ReadBackupSound(s);
    case DoDispatch(accepted) => DispatchSound(s, accepted);
    case DoFixRead(rest) => FixReadSound(s, rest);
    case DoFixCommit => FixCommitSound(s);
    case DoSeek => SeekSound(s);
    case DoNotify(ok) => NotifySound(s, ok);
    case DoFlagCommit => FlagCommitSound(s);
    case DoGiveUp => GiveUpSound(s);
  }

  lemma StepSound(s: State, a: Action)
    requires Sound(s)
    ensures Kept(s, Step(s, a))
  {
    hide Sound, Later;
    match a
    case OnStore(b) => StoreStepSound(s, b);
    case OnClient(n, b) => ClientStepSound(s, n, b);
    case OnTask(o, b) => TaskStepSound(s, o, b);
    case OnWorker(b) => WorkerStepSound(s, b);
    case OnRestart(order) => RestartSound(s, order);
  }

}
