/** What a step can touch, class by class, so that the invariants need not look at every
    step again. A step commits an update, or it is calm: it leaves store and history alone. */
module EngineEffects {
  import opened Options
  import opened Snapshots
  import opened Versioned
  import opened Engine
  import opened EngineInvariants

  predicate Commits(s: State, actor: Actor, w: Update, t: State) {
    && Held(s, actor, w)
    && Fresh(s.snaps, w)
    && t == Commit(s, actor, w).(clients := t.clients, lanes := t.lanes, worker := t.worker)
  }

  // ---- clients ----

  predicate ClientCommits(s: State, n: nat, t: State) {
    && n in s.clients && s.clients[n].Writing?
    && (s.clients[n].actor.ByCancel? || s.clients[n].actor.ByProgress?)
    && (s.clients[n].actor.ByProgress? ==> s.clients[n].w.id !in s.stopped)
    && Commits(s, s.clients[n].actor, s.clients[n].w, t)
    && t.lanes == s.lanes && t.worker == s.worker
  }

  lemma ClientEffect(s: State, n: nat, a: ClientAction)
    requires Sound(s)
    ensures ClientStep(s, n, a) == s.(clients := ClientStep(s, n, a).clients)
      || ClientCommits(s, n, ClientStep(s, n, a))
  {
    if n in s.clients { assert HeldByClient(s, s.clients[n]); }
  }

  // ---- tasks ----

  predicate PcNext(s: State, r: Task, pc: Pc) {
    || Chosen(pc).None?
    || Chosen(pc) == Chosen(r.pc)
    || pc == Typed(if HasCompleted(s, r.backup) then Incremental else Fully)
  }

  predicate LaneNext(s: State, l: Lane, m: Lane) {
    || (l.run.None? && l.queue != [] && m.queue == l.queue[1..]
        && (m.run.None? || (l.queue[0] in s.home && m.run == Some(Task(l.queue[0], s.home[l.queue[0]], Begin)))))
    || (m.queue == l.queue && l.run.Some?
        && (m.run.None?
              || (m.run.value == l.run.value.(pc := m.run.value.pc) && PcNext(s, l.run.value, m.run.value.pc))))
  }

  predicate TaskCalm(s: State, o: Owner, t: State) {
    && o in s.lanes && o in t.lanes
    && t == s.(lanes := s.lanes[o := t.lanes[o]])
    && LaneNext(s, s.lanes[o], t.lanes[o])
  }

  /** prepareForRun goes through. */
  predicate TaskStarts(s: State, o: Owner, t: State) {
    && Runs(s, o) && TaskOf(s, o).pc.Starting?
    && TaskOf(s, o).pc.w.id == TaskOf(s, o).id && TaskOf(s, o).id !in s.stopped
    && Commits(s, ByStart(TaskOf(s, o).id), TaskOf(s, o).pc.w, t)
    && t.worker == s.worker && t.clients == s.clients
    && t.lanes == SetPc(s, o, Executing(TaskOf(s, o).pc.kind)).lanes
  }

  /** updateBackupResult goes through. */
  predicate TaskFinishes(s: State, o: Owner, t: State) {
    && Runs(s, o) && TaskOf(s, o).pc.Saving?
    && HeldByTask(s, TaskOf(s, o)) && TaskOf(s, o).id !in s.stopped
    && Commits(s, ByFinish(TaskOf(s, o).id), TaskOf(s, o).pc.w, t)
    && t.worker == s.worker && t.clients == s.clients
    && t.lanes == Leave(s, o).lanes
  }

  lemma TaskTypeEffect(s: State, o: Owner)
    ensures TaskType(s, o) == s || TaskCalm(s, o, TaskType(s, o))
  {
    hide HasCompleted;
  }

  lemma TaskFailEffect(s: State, o: Owner)
    ensures TaskFail(s, o) == s || TaskCalm(s, o, TaskFail(s, o))
  {
    hide HasCompleted;
  }

  lemma TaskLoadEffect(s: State, o: Owner)
    ensures TaskLoad(s, o) == s || TaskCalm(s, o, TaskLoad(s, o))
  {
  }

  lemma TaskStartEffect(s: State, o: Owner, dropped: bool, rest: int)
    ensures TaskStart(s, o, dropped) == s || TaskCalm(s, o, TaskStart(s, o, dropped))
    ensures TaskStartRead(s, o, rest) == s || TaskCalm(s, o, TaskStartRead(s, o, rest))
  {
    hide HasCompleted;
  }

  lemma TaskLateEffect(s: State, o: Owner, ok: bool, canceled: bool, rest: int, failed: bool)
    ensures TaskExecuted(s, o, ok) == s || TaskCalm(s, o, TaskExecuted(s, o, ok))
    ensures TaskResultRead(s, o, canceled, rest, failed) == s || TaskCalm(s, o, TaskResultRead(s, o, canceled, rest, failed))
    ensures TaskEnd(s, o) == s || TaskCalm(s, o, TaskEnd(s, o))
  {
    hide HasCompleted;
  }

  lemma TaskEffect(s: State, o: Owner, a: TaskAction)
    requires Sound(s)
    ensures var t := TaskStep(s, o, a);
            t == s || TaskCalm(s, o, t) || TaskStarts(s, o, t) || TaskFinishes(s, o, t)
  {
    if a.DoStartCommit? || a.DoResultCommit? {
      if Runs(s, o) { assert HeldByTask(s, TaskOf(s, o)); }
    } else if a.DoLoad? || a.DoType? || a.DoFailure? {
      TaskLoadEffect(s, o);
      TaskTypeEffect(s, o);
      TaskFailEffect(s, o);
    } else {
      hide TaskCalm;
      TaskStartEffect(s, o, a.DoStart? && a.dropped, if a.DoStartRead? then a.rest else 0);
      TaskLateEffect(s, o, a.DoExecuted? && a.ok, a.DoResultRead? && a.canceled, if a.DoResultRead? then a.rest else 0,
        a.DoResultRead? && a.failed);
    }
  }

  // ---- the reconciler ----

  predicate WorkerCalm(s: State, t: State) {
    && t == s.(events := t.events, queue := t.queue, worker := t.worker, lanes := t.lanes, stopped := t.stopped,
               sent := t.sent, told := t.told, sentAs := t.sentAs, submitted := t.submitted, unfixed := t.unfixed,
               unflagged := t.unflagged)
    && s.stopped <= t.stopped && s.sentAs <= t.sentAs
    && (forall o :: o in t.lanes ==> t.lanes[o].run == LaneOf(s, o).run)
  }

  predicate WorkerCommits(s: State, t: State) {
    && ((s.worker.FixWriting? && Commits(s, ByRecovery, s.worker.w, t))
        || (s.worker.FlagWriting? && Commits(s, ByNotify, s.worker.w, t)))
    && t.clients == s.clients && t.lanes == s.lanes && t.worker.Idle?
  }

  lemma MoveCalm(s: State, k: Worker)
    ensures WorkerCalm(s, s.(worker := k))
  {
  }

  lemma SubmitCalm(s: State, o: Owner, id: Id)
    ensures
      var l := LaneOf(s, o);
      WorkerCalm(s, SetLane(s, o, l.(queue := l.queue + [id])).(worker := Idle, submitted := s.submitted + {id}))
  {
  }

  lemma DispatchEffect(s: State, accepted: bool)
    ensures Dispatch(s, accepted) == s || WorkerCalm(s, Dispatch(s, accepted))
  {
    hide WorkerCalm, NewlyCreated, SetLane, LaneOf;
    if s.worker.Ready? {
      var id, b := s.worker.id, s.worker.obj.spec.backup;
      MoveCalm(s, Fixing(id));
      MoveCalm(s, Idle);
      if b in s.owner { SubmitCalm(s, s.owner[b], id); }
    }
  }

  lemma DeliverCalm(s: State)
    ensures WorkerCalm(s, Deliver(s))
  {
    hide Passes;
  }

  lemma TakeCalm(s: State, id: Id)
    ensures WorkerCalm(s, Take(s, id))
  {
  }

  lemma RetryCalm(s: State)
    ensures WorkerCalm(s, Retry(s))
  {
  }

  lemma QueueCalmEffect(s: State, id: Id)
    ensures WorkerCalm(s, Deliver(s)) && WorkerCalm(s, Take(s, id)) && WorkerCalm(s, Retry(s))
  {
    hide WorkerCalm, Deliver, Take, Retry;
    DeliverCalm(s);
    TakeCalm(s, id);
    RetryCalm(s);
  }

  lemma ReadCalmEffect(s: State)
    ensures WorkerCalm(s, ReadSnapshot(s)) && WorkerCalm(s, ReadBackup(s))
  {
  }

  lemma FixCalmEffect(s: State, rest: int)
    ensures WorkerCalm(s, FixRead(s, rest))
  {
  }

  lemma IdleCalm(s: State, unfixed: set<Id>, unflagged: set<Id>)
    ensures WorkerCalm(s, s.(worker := Idle, unfixed := unfixed, unflagged := unflagged))
  {
  }

  lemma GiveUpCalmEffect(s: State)
    ensures GiveUp(s) == s || WorkerCalm(s, GiveUp(s))
  {
    hide WorkerCalm;
    match s.worker
    case Fixing(id) => IdleCalm(s, s.unfixed + {id}, s.unflagged);
    case FixWriting(w) => IdleCalm(s, s.unfixed + {w.id}, s.unflagged);
    case FlagWriting(w) => IdleCalm(s, s.unfixed, s.unflagged + {w.id});
    case _ =>
  }

  lemma SeekCalmEffect(s: State)
    ensures WorkerCalm(s, Seek(s))
  {
  }

  lemma StopCalm(s: State)
    ensures WorkerCalm(s, StopFound(s))
  {
    hide InRun;
  }

  lemma ReportCalm(s: State, ok: bool)
    ensures WorkerCalm(s, Report(s, ok))
  {
  }

  lemma CalmCalm(s: State, t: State, u: State)
    requires WorkerCalm(s, t) && WorkerCalm(t, u) && t.lanes == s.lanes && u.lanes == t.lanes
    ensures WorkerCalm(s, u)
  {
  }

  lemma NotifyCalmEffect(s: State, ok: bool)
    ensures WorkerCalm(s, Notify(s, ok))
  {
    StopCalm(s);
    ReportCalm(StopFound(s), ok);
    NotifyKeepsLanes(s, ok);
    hide WorkerCalm, StopFound, Report;
    CalmCalm(s, StopFound(s), Notify(s, ok));
  }

  lemma NotifyKeepsLanes(s: State, ok: bool)
    ensures StopFound(s).lanes == s.lanes && Report(StopFound(s), ok).lanes == StopFound(s).lanes
  {
  }

  lemma WorkerCommitEffect(s: State, a: WorkerAction)
    requires Sound(s) && (a.DoFixCommit? || a.DoFlagCommit?)
    ensures WorkerStep(s, a) == s || WorkerCommits(s, WorkerStep(s, a))
  {
  }

  lemma WorkerEffect(s: State, a: WorkerAction)
    requires Sound(s)
    ensures WorkerStep(s, a) == s || WorkerCalm(s, WorkerStep(s, a)) || WorkerCommits(s, WorkerStep(s, a))
  {
    hide WorkerCalm, Deliver, Take, Retry, ReadSnapshot, ReadBackup, Dispatch, FixRead, Seek, Notify, GiveUp;
    match a
    case DoTake(id) => QueueCalmEffect(s, id);
    case DoDeliver => QueueCalmEffect(s, "");
    case DoRetry => QueueCalmEffect(s, "");
    case DoReadSnapshot => ReadCalmEffect(s);
    case DoReadBackup => ReadCalmEffect(s);
    case DoFixRead(rest) => FixCalmEffect(s, rest);
    case DoGiveUp => GiveUpCalmEffect(s);
    case DoSeek => SeekCalmEffect(s);
    case DoNotify(ok) => NotifyCalmEffect(s, ok);
    case DoDispatch(accepted) => DispatchEffect(s, accepted);
    case _ => WorkerCommitEffect(s, a);
  }

  // ---- what the steps of one part leave of the others ----

  predicate SameRuns(s: State, t: State) {
    forall o :: o in t.lanes && t.lanes[o].run.Some? ==> o in s.lanes && t.lanes[o].run == s.lanes[o].run
  }

  predicate SameTimes(s: State, t: State) {
    t.start == s.start && t.created == s.created && t.backups == s.backups && t.owner == s.owner
  }

  predicate ClientLeaves(s: State, n: nat, t: State) {
    && t.lanes == s.lanes && t.stopped == s.stopped && t.worker == s.worker && SameTimes(s, t)
    && (forall m :: m in t.clients && m != n ==> m in s.clients && t.clients[m] == s.clients[m])
  }

  lemma ClientStepLeaves(s: State, n: nat, a: ClientAction)
    ensures ClientLeaves(s, n, ClientStep(s, n, a))
  {
  }

  predicate StoreLeaves(s: State, t: State) {
    && t.clients == s.clients && t.lanes == s.lanes && t.worker == s.worker && t.start == s.start && s.stopped <= t.stopped
    && (forall id :: id in s.created ==> id in t.created && t.created[id] == s.created[id])
    && (forall b :: b in s.owner && b in t.backups ==> b in s.backups)
  }

  lemma StoreStepLeaves(s: State, a: StoreAction)
    requires Sound(s)
    ensures StoreLeaves(s, StoreStep(s, a))
  {
  }

  predicate RestartLeaves(s: State, t: State) {
    t == s || (t.clients == s.clients && t.lanes == map[] && t.stopped == s.stopped && t.worker.Idle? && t.backups == s.backups)
  }

  lemma RestartStepLeaves(s: State, order: seq<Id>)
    ensures RestartLeaves(s, Restart(s, order))
  {
  }

  predicate TaskLeaves(s: State, o: Owner, t: State) {
    && t.clients == s.clients && t.stopped == s.stopped && t.worker == s.worker && SameTimes(s, t)
    && (forall p :: p in t.lanes && p != o ==> p in s.lanes && t.lanes[p] == s.lanes[p])
  }

  lemma TaskStepLeaves(s: State, o: Owner, a: TaskAction)
    requires Sound(s)
    ensures TaskLeaves(s, o, TaskStep(s, o, a))
  {
    var t := TaskStep(s, o, a);
    TaskEffect(s, o, a);
    hide TaskStep, Sound, TaskCalm, TaskStarts, TaskFinishes, TaskLeaves;
    if TaskCalm(s, o, t) {
      CalmLeaves(s, o, t);
    } else if TaskStarts(s, o, t) || TaskFinishes(s, o, t) {
      CommitLeaves(s, o, t);
    } else {
      SameLeaves(s, o);
    }
  }

  lemma SameLeaves(s: State, o: Owner)
    ensures TaskLeaves(s, o, s)
  {
  }

  lemma CalmLeaves(s: State, o: Owner, t: State)
    requires TaskCalm(s, o, t)
    ensures TaskLeaves(s, o, t)
  {
    hide LaneNext;
  }

  lemma CommitLeaves(s: State, o: Owner, t: State)
    requires TaskStarts(s, o, t) || TaskFinishes(s, o, t)
    ensures TaskLeaves(s, o, t)
  {
    hide Held, HeldByTask, Fresh;
  }

  predicate WorkerLeaves(s: State, t: State) {
    t.clients == s.clients && s.stopped <= t.stopped && SameRuns(s, t) && SameTimes(s, t)
  }

  lemma WorkerStepLeaves(s: State, a: WorkerAction)
    requires Sound(s)
    ensures WorkerLeaves(s, WorkerStep(s, a))
  {
    var t := WorkerStep(s, a);
    WorkerEffect(s, a);
    hide WorkerStep, Sound, WorkerCalm, WorkerCommits, WorkerLeaves;
    if WorkerCalm(s, t) {
      WorkerCalmLeaves(s, t);
    } else if WorkerCommits(s, t) {
      WorkerCommitLeaves(s, t);
    } else {
      SameWorkerLeaves(s);
    }
  }

  lemma SameWorkerLeaves(s: State)
    ensures WorkerLeaves(s, s)
  {
  }

  lemma WorkerCalmLeaves(s: State, t: State)
    requires WorkerCalm(s, t)
    ensures WorkerLeaves(s, t)
  {
  }

  lemma WorkerCommitLeaves(s: State, t: State)
    requires WorkerCommits(s, t)
    ensures WorkerLeaves(s, t)
  {
    hide Held, Fresh;
    assert t.lanes == s.lanes && t.stopped == s.stopped;
  }
}
