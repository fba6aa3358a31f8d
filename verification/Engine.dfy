/** The backup task engine as one transition system: the snapshot store with its versioned
    writes, the watch stream, the snapshot reconciler, one lane of tasks per owner running the
    RunBackup pipeline, the progress callback and the cancel request of the API server.
    Every remote call may fail at any step, and the steps interleave freely. */
module Engine {
  import opened Options
  import opened Snapshots
  import opened Versioned

  type Owner = string
  type Update = Write<Spec>

  /** Who committed a write. */
  datatype Actor =
    | ByCancel               // cancelSnapshot of the API server
    | ByProgress             // progressCallback
    | ByStart(task: Id)      // prepareForRun
    | ByFinish(task: Id)     // updateBackupResult
    | ByRecovery             // the reconciler failing a snapshot
    | ByNotify               // the reconciler setting the result flag

  datatype Entry = Entry(id: Id, actor: Actor, was: Spec, now: Spec)

  /** A request outside the reconciler and the lanes: a cancel after its check, or a write. */
  datatype Client = Checked(id: Id) | Writing(actor: Actor, w: Update)

  /** Where RunBackup stands. */
  datatype Pc =
    | Begin
    | Loaded(phase: Phase)
    | Typed(kind: Kind)
    | Starting(kind: Kind, w: Update)
    | Executing(kind: Kind)
    | Result(ok: bool, found: Option<Kind>)
    | Saving(ok: bool, found: Option<Kind>, w: Update)
    | Done

  datatype Task = Task(id: Id, backup: Id, pc: Pc)

  /** The tasks of one owner: submitted and waiting, and the one in RunBackup. */
  datatype Lane = Lane(queue: seq<Id>, run: Option<Task>)

  /** The single reconcile worker. */
  datatype Worker =
    | Idle
    | Taken(id: Id)                  // key popped, nothing read
    | Read(id: Id, obj: Obj<Spec>)   // snapshot read
    | Ready(id: Id, obj: Obj<Spec>)  // backup found
    | Seeking(id: Id, obj: Obj<Spec>, found: bool)   // CancelSnapshot has read the active task
    | Fixing(id: Id)                 // about to write Failed
    | FixWriting(w: Update)
    | FlagWriting(w: Update)

  /** The worker holds a snapshot as it read it. */
  predicate HasRead(k: Worker) {
    k.Read? || k.Ready? || k.Seeking?
  }

  datatype State = State(
    clock: int,
    start: int,                      // controllerStartTime
    rv: nat,                         // the resource version counter of the server
    snaps: map<Id, Obj<Spec>>,
    backups: set<Id>,                // stored backups
    owner: map<Id, Owner>,           // of every backup that ever existed
    home: map<Id, Id>,               // the backup of every snapshot that ever existed
    created: map<Id, int>,           // creation time stamps
    clients: map<nat, Client>,
    lanes: map<Owner, Lane>,
    stopped: set<Id>,                // the context of the snapshot's task has ended
    events: seq<Event>,              // undelivered watch events
    queue: set<Id>,                  // the reconcile queue
    worker: Worker,
    // history
    log: seq<Entry>,                 // every committed update
    sent: set<Id>,                   // a result notification went out
    told: set<Id>,                   // the same, since the last start
    sentAs: set<(Id, Spec)>,         // and what the snapshot was like when it went out
    submitted: set<Id>,              // handed to the pool since the last start
    unfixed: set<Id>,                // writing Failed was given up since the last start
    unflagged: set<Id>,              // setting the result flag was given up since the last start
    interrupted: set<Id>             // Pending or Running at the last start
  )

  const Initial := State(0, 0, 0, map[], {}, map[], map[], map[], map[], map[], {}, [], {}, Idle, [], {}, {}, {}, {}, {}, {}, {})

  function LaneOf(s: State, o: Owner): Lane {
    if o in s.lanes then s.lanes[o] else Lane([], None)
  }

  predicate Runs(s: State, o: Owner) {
    o in s.lanes && s.lanes[o].run.Some?
  }

  function TaskOf(s: State, o: Owner): Task
    requires Runs(s, o)
  {
    s.lanes[o].run.value
  }

  function SetLane(s: State, o: Owner, l: Lane): State {
    s.(lanes := s.lanes[o := l])
  }

  function SetPc(s: State, o: Owner, pc: Pc): State
    requires Runs(s, o)
  {
    SetLane(s, o, s.lanes[o].(run := Some(TaskOf(s, o).(pc := pc))))
  }

  /** RunBackup is about to return. */
  function Leave(s: State, o: Owner): State
    requires Runs(s, o)
  {
    SetPc(s, o, Done)
  }

  /** The task of the snapshot is the one that runs for the owner of the backup. */
  predicate InRun(s: State, id: Id, b: Id) {
    b in s.owner && Runs(s, s.owner[b]) && TaskOf(s, s.owner[b]).id == id
  }

  function EndTask(s: State, o: Owner): State
    requires Runs(s, o)
  {
    SetLane(s, o, s.lanes[o].(run := None))
  }

  /** The update whose object was read just now. */
  function Begun(s: State, id: Id, next: Spec): Update
    requires id in s.snaps
  {
    Write(id, s.snaps[id].version, s.snaps[id].spec, next)
  }

  /** The server accepts `w`: new version, one watch event, one history entry. */
  function Commit(s: State, actor: Actor, w: Update): State
    requires Fresh(s.snaps, w)
  {
    var was := s.snaps[w.id].spec;
    s.(rv := s.rv + 1,
       snaps := s.snaps[w.id := Obj(s.rv + 1, w.next)],
       events := s.events + [Updated(w.id, was, w.next)],
       log := s.log + [Entry(w.id, actor, was, w.next)])
  }

  // ---- the store and the API server ----

  function AddBackup(s: State, b: Id, o: Owner): State {
    if b in s.owner then s else s.(owner := s.owner[b := o], backups := s.backups + {b})
  }

  function DropBackup(s: State, b: Id): State {
    s.(backups := s.backups - {b})
  }

  /** Deleting a backup cancels its tasks first: the one in RunBackup loses its context. The
      deletion itself is a step of its own, as a task can start in between. */
  function StopBackup(s: State, b: Id): State {
    if b !in s.owner || !Runs(s, s.owner[b]) || TaskOf(s, s.owner[b]).backup != b then s
    else s.(stopped := s.stopped + {TaskOf(s, s.owner[b]).id})
  }

  /** Create: by the API or by a cron job, which may outlive its backup. */
  function AddSnapshot(s: State, id: Id, b: Id, created: int, rest: int): State {
    if id in s.home || b !in s.owner || created > s.clock then s else
      var spec := NewSnapshot(b, rest);
      s.(rv := s.rv + 1,
         snaps := s.snaps[id := Obj(s.rv + 1, spec)],
         home := s.home[id := b],
         created := s.created[id := created],
         events := s.events + [Created(id, spec)])
  }

  function DropSnapshot(s: State, id: Id): State {
    s.(snaps := s.snaps - {id})
  }

  function Tick(s: State, seconds: nat): State {
    s.(clock := s.clock + seconds)
  }

  /** cancelSnapshot up to its check: the backup that the request names must be stored, whether
      or not it is the snapshot's own, and a finished snapshot needs no cancel. */
  function CancelCheck(s: State, n: nat, b: Id, id: Id): State {
    if n in s.clients || b !in s.backups || id !in s.snaps
      || s.snaps[id].spec.phase.Failed? || s.snaps[id].spec.phase.Completed?
    then s else s.(clients := s.clients[n := Checked(id)])
  }

  /** cancelSnapshot, UpdatePhase: it reads again and does not look at the phase. */
  function CancelRead(s: State, n: nat, rest: int): State {
    if n !in s.clients || !s.clients[n].Checked? || s.clients[n].id !in s.snaps then s else
      var id := s.clients[n].id;
      s.(clients := s.clients[n := Writing(ByCancel, Begun(s, id, WithPhase(s.snaps[id].spec, Canceled, rest)))])
  }

  /** UpdateProgress, called while the backup of owner `o` executes. */
  function ProgressRead(s: State, n: nat, o: Owner, percent: int): State {
    if n in s.clients || !Runs(s, o) || !TaskOf(s, o).pc.Executing? || !(0 <= percent < PROGRESS_DONE)
    then s else
      var id := TaskOf(s, o).id;
      if id in s.stopped || id !in s.snaps || !s.snaps[id].spec.phase.Running? then s else
        s.(clients := s.clients[n := Writing(ByProgress, Begun(s, id, WithProgress(s.snaps[id].spec, percent)))])
  }

  /** One turn of the retry loop; a conflict leaves everything as it is. Progress is sent on the
      context of the task. */
  function ClientCommit(s: State, n: nat): State {
    if n !in s.clients || !s.clients[n].Writing? || !Fresh(s.snaps, s.clients[n].w)
      || (s.clients[n].actor.ByProgress? && s.clients[n].w.id in s.stopped)
    then s else
      var c := s.clients[n];
      Commit(s, c.actor, c.w).(clients := s.clients - {n})
  }

  function ClientFail(s: State, n: nat): State {
    s.(clients := s.clients - {n})
  }

  // ---- the lanes ----

  /** The pool picks the next task; a cancelled one is dropped at its start check. */
  function TaskStart(s: State, o: Owner, dropped: bool): State {
    var l := LaneOf(s, o);
    if l.run.Some? || l.queue == [] || l.queue[0] !in s.home then s else
      var t := Task(l.queue[0], s.home[l.queue[0]], Begin);
      SetLane(s, o, Lane(l.queue[1..], if dropped then None else Some(t)))
  }

  /** checkBackupExists: a snapshot or backup that cannot be read ends the run without a write. */
  function TaskLoad(s: State, o: Owner): State {
    if !Runs(s, o) || !TaskOf(s, o).pc.Begin? then s else
      var t := TaskOf(s, o);
      if t.id in s.stopped || t.id !in s.snaps || t.backup !in s.backups then Leave(s, o)
      else SetPc(s, o, Loaded(s.snaps[t.id].spec.phase))
  }

  predicate HasCompleted(s: State, b: Id) {
    exists x :: x in s.snaps && s.snaps[x].spec.backup == b && s.snaps[x].spec.phase.Completed?
  }

  /** validateSnapshotPreconditions on the phase as it was loaded, then checkSnapshotType. */
  function TaskType(s: State, o: Owner): State {
    if !Runs(s, o) || !TaskOf(s, o).pc.Loaded? then s else
      var t := TaskOf(s, o);
      if !t.pc.phase.Pending? || t.id in s.stopped then SetPc(s, o, Result(false, None))
      else SetPc(s, o, Typed(if HasCompleted(s, t.backup) then Incremental else Fully))
  }

  function Chosen(pc: Pc): Option<Kind> {
    match pc
    case Begin => None
    case Loaded(_) => None
    case Typed(k) => Some(k)
    case Starting(k, _) => Some(k)
    case Executing(k) => Some(k)
    case Result(_, k) => k
    case Saving(_, k, _) => k
    case Done => None
  }

  /** Any preparation step fails. */
  function TaskFail(s: State, o: Owner): State {
    if !Runs(s, o) || TaskOf(s, o).pc.Begin? || TaskOf(s, o).pc.Result? || TaskOf(s, o).pc.Saving? || TaskOf(s, o).pc.Done? then s
    else SetPc(s, o, Result(false, Chosen(TaskOf(s, o).pc)))
  }

  /** prepareForRun: UpdatePhase(Running) reads again and does not look at the phase. */
  function TaskStartRead(s: State, o: Owner, rest: int): State {
    if !Runs(s, o) || !TaskOf(s, o).pc.Typed? || TaskOf(s, o).id in s.stopped || TaskOf(s, o).id !in s.snaps then s else
      var t := TaskOf(s, o);
      SetPc(s, o, Starting(t.pc.kind, Begun(s, t.id, WithPhase(s.snaps[t.id].spec, Running, rest))))
  }

  function TaskStartCommit(s: State, o: Owner): State {
    if !Runs(s, o) || !TaskOf(s, o).pc.Starting? || TaskOf(s, o).id in s.stopped || !Fresh(s.snaps, TaskOf(s, o).pc.w)
    then s else
      var t := TaskOf(s, o);
      SetPc(Commit(s, ByStart(t.id), t.pc.w), o, Executing(t.pc.kind))
  }

  /** The app preparation and execute return. */
  function TaskExecuted(s: State, o: Owner, ok: bool): State {
    if !Runs(s, o) || !TaskOf(s, o).pc.Executing? then s
    else SetPc(s, o, Result(ok, Some(TaskOf(s, o).pc.kind)))
  }

  /** updateBackupResult reads backup and snapshot: an ended context, or either one found
      missing, ends the run. When reading the backup fails in another way (`failed`), and not for
      want of a connection, which is tried again, the code goes on without it. */
  function TaskResultRead(s: State, o: Owner, canceled: bool, rest: int, failed: bool): State {
    if !Runs(s, o) || !TaskOf(s, o).pc.Result? then s else
      var t := TaskOf(s, o);
      if t.id in s.stopped || t.id !in s.snaps || (t.backup !in s.backups && !failed) then Leave(s, o) else
        var spec := s.snaps[t.id].spec;
        var k := t.pc.found;
        var next := if t.pc.ok && k.Some? then WithSuccess(spec, k.value, rest) else WithError(spec, k, canceled, rest);
        SetPc(s, o, Saving(t.pc.ok, k, Begun(s, t.id, next)))
  }

  function TaskResultCommit(s: State, o: Owner): State {
    if !Runs(s, o) || !TaskOf(s, o).pc.Saving? || TaskOf(s, o).id in s.stopped || !Fresh(s.snaps, TaskOf(s, o).pc.w)
    then s else
      var t := TaskOf(s, o);
      Leave(Commit(s, ByFinish(t.id), t.pc.w), o)
  }

  /** RunBackup returns or panics, wherever it stands, and the lane is free. */
  function TaskEnd(s: State, o: Owner): State {
    if !Runs(s, o) then s else EndTask(s, o)
  }

  // ---- the watch and the reconciler ----

  function Deliver(s: State): State {
    if s.events == [] then s else
      var e := s.events[0];
      s.(events := s.events[1..], queue := if Passes(e) then s.queue + {e.id} else s.queue)
  }

  function Take(s: State, id: Id): State {
    if !s.worker.Idle? || id !in s.queue then s else s.(queue := s.queue - {id}, worker := Taken(id))
  }

  /** A read fails with anything but NotFound: the key goes back to the queue. */
  function Retry(s: State): State {
    if s.worker.Taken? || s.worker.Read? then s.(queue := s.queue + {s.worker.id}, worker := Idle) else s
  }

  function ReadSnapshot(s: State): State {
    if !s.worker.Taken? then s else
      var id := s.worker.id;
      s.(worker := if id in s.snaps then Read(id, s.snaps[id]) else Idle)
  }

  function ReadBackup(s: State): State {
    if !s.worker.Read? then s else
      s.(worker := if s.worker.obj.spec.backup in s.backups then Ready(s.worker.id, s.worker.obj) else Idle)
  }

  predicate NewlyCreated(s: State, id: Id) {
    id in s.created && s.created[id] > s.start
  }

  /** The Pending and Running branches of Reconcile. */
  function Dispatch(s: State, accepted: bool): State {
    if !s.worker.Ready? || Terminal(s.worker.obj.spec.phase) then s else
      var id, spec := s.worker.id, s.worker.obj.spec;
      if !NewlyCreated(s, id) then s.(worker := Fixing(id))
      else if spec.phase.Running? then s.(worker := Idle)
      else if !accepted || spec.backup !in s.owner then s.(worker := Fixing(id))
      else
        var o := s.owner[spec.backup];
        var l := LaneOf(s, o);
        SetLane(s, o, l.(queue := l.queue + [id])).(worker := Idle, submitted := s.submitted + {id})
  }

  function FixRead(s: State, rest: int): State {
    if !s.worker.Fixing? || s.worker.id !in s.snaps then s else
      var id := s.worker.id;
      s.(worker := FixWriting(Begun(s, id, WithPhase(s.snaps[id].spec, Failed, rest))))
  }

  function FixCommit(s: State): State {
    if !s.worker.FixWriting? || !Fresh(s.snaps, s.worker.w) then s
    else Commit(s, ByRecovery, s.worker.w).(worker := Idle)
  }

  /** The Canceled branch of Reconcile: CancelSnapshot reads which task runs. */
  function Seek(s: State): State {
    if !s.worker.Ready? || !s.worker.obj.spec.phase.Canceled? then s
    else s.(worker := Seeking(s.worker.id, s.worker.obj, InRun(s, s.worker.id, s.worker.obj.spec.backup)))
  }

  /** A task that was found, and is still the one that runs, loses its context. */
  function StopFound(s: State): State {
    if s.worker.Seeking? && s.worker.found && InRun(s, s.worker.id, s.worker.obj.spec.backup)
    then s.(stopped := s.stopped + {s.worker.id}) else s
  }

  /** The result is sent, on the object as it was read, and the flag is about to be set. */
  function Report(s: State, ok: bool): State {
    if !Notifies(s.worker) then s else
      var id, obj := s.worker.id, s.worker.obj;
      if !ok then s.(queue := s.queue + {id}, worker := Idle)
      else s.(sent := s.sent + {id}, told := s.told + {id}, sentAs := s.sentAs + {(id, obj.spec)},
              worker := FlagWriting(Write(id, obj.version, obj.spec, WithPushed(obj.spec))))
  }

  /** The terminal branches of Reconcile; the Canceled one stops what it found first. */
  function Notify(s: State, ok: bool): State {
    Report(StopFound(s), ok)
  }

  predicate Notifies(k: Worker) {
    k.Seeking? || (k.Ready? && Terminal(k.obj.spec.phase) && !k.obj.spec.phase.Canceled?)
  }

  function FlagCommit(s: State): State {
    if !s.worker.FlagWriting? || !Fresh(s.snaps, s.worker.w) then s
    else Commit(s, ByNotify, s.worker.w).(worker := Idle)
  }

  /** The reconciler gives up a write; it only logs the error. */
  function GiveUp(s: State): State {
    match s.worker
    case Fixing(id) => s.(worker := Idle, unfixed := s.unfixed + {id})
    case FixWriting(w) => s.(worker := Idle, unfixed := s.unfixed + {w.id})
    case FlagWriting(w) => s.(worker := Idle, unflagged := s.unflagged + {w.id})
    case _ => s
  }

  predicate Lists(order: seq<Id>, ids: set<Id>) {
    && (forall id :: id in ids ==> id in order)
    && (forall i :: 0 <= i < |order| ==> order[i] in ids)
    && (forall i, j :: 0 <= i < j < |order| ==> order[i] != order[j])
  }

  /** The controller restarts: lanes, queue and undelivered events are lost, and the first
      list of the watch replays every stored snapshot as created. Requests of the API server,
      a separate process, go on. */
  function Restart(s: State, order: seq<Id>): State {
    if !Lists(order, s.snaps.Keys) then s else
      s.(start := s.clock,
         lanes := map[],
         queue := {},
         worker := Idle,
         events := seq(|order|, i requires 0 <= i < |order| => Created(order[i], s.snaps[order[i]].spec)),
         submitted := {},
         told := {},
         unfixed := {},
         unflagged := {},
         interrupted := set id | id in s.snaps && !Terminal(s.snaps[id].spec.phase))
  }

  datatype StoreAction =
    | DoAddBackup(b: Id, o: Owner)
    | DoStopBackup(b: Id)
    | DoDropBackup(b: Id)
    | DoAddSnapshot(id: Id, b: Id, created: int, rest: int)
    | DoDropSnapshot(id: Id)
    | DoTick(seconds: nat)

  datatype ClientAction =
    | DoCancelCheck(b: Id, id: Id)
    | DoCancelRead(rest: int)
    | DoProgressRead(o: Owner, percent: int)
    | DoCommit
    | DoFail

  datatype TaskAction =
    | DoStart(dropped: bool)
    | DoLoad
    | DoType
    | DoFailure
    | DoStartRead(rest: int)
    | DoStartCommit
    | DoExecuted(ok: bool)
    | DoResultRead(canceled: bool, rest: int, failed: bool)
    | DoResultCommit
    | DoEnd

  datatype WorkerAction =
    | DoDeliver
    | DoTake(id: Id)
    | DoRetry
    | DoReadSnapshot
    | DoReadBackup
    | DoDispatch(accepted: bool)
    | DoFixRead(rest: int)
    | DoFixCommit
    | DoSeek
    | DoNotify(ok: bool)
    | DoFlagCommit
    | DoGiveUp

  datatype Action =
    | OnStore(store: StoreAction)
    | OnClient(n: nat, client: ClientAction)
    | OnTask(o: Owner, task: TaskAction)
    | OnWorker(work: WorkerAction)
    | OnRestart(order: seq<Id>)

  function StoreStep(s: State, a: StoreAction): State {
    match a
    case DoAddBackup(b, o) => AddBackup(s, b, o)
    case DoStopBackup(b) => StopBackup(s, b)
    case DoDropBackup(b) => DropBackup(s, b)
    case DoAddSnapshot(id, b, created, rest) => AddSnapshot(s, id, b, created, rest)
    case DoDropSnapshot(id) => DropSnapshot(s, id)
    case DoTick(seconds) => Tick(s, seconds)
  }

  function ClientStep(s: State, n: nat, a: ClientAction): State {
    match a
    case DoCancelCheck(b, id) => CancelCheck(s, n, b, id)
    case DoCancelRead(rest) => CancelRead(s, n, rest)
    case DoProgressRead(o, percent) => ProgressRead(s, n, o, percent)
    case DoCommit => ClientCommit(s, n)
    case DoFail => ClientFail(s, n)
  }

  function TaskStep(s: State, o: Owner, a: TaskAction): State {
    match a
    case DoStart(dropped) => TaskStart(s, o, dropped)
    case DoLoad => TaskLoad(s, o)
    case DoType => TaskType(s, o)
    case DoFailure => TaskFail(s, o)
    case DoStartRead(rest) => TaskStartRead(s, o, rest)
    case DoStartCommit => TaskStartCommit(s, o)
    case DoExecuted(ok) => TaskExecuted(s, o, ok)
    case DoResultRead(canceled, rest, failed) => TaskResultRead(s, o, canceled, rest, failed)
    case DoResultCommit => TaskResultCommit(s, o)
    case DoEnd => TaskEnd(s, o)
  }

  function WorkerStep(s: State, a: WorkerAction): State {
    match a
    case DoDeliver => Deliver(s)
    case DoTake(id) => Take(s, id)
    case DoRetry => Retry(s)
    case DoReadSnapshot => ReadSnapshot(s)
    case DoReadBackup => ReadBackup(s)
    case DoDispatch(accepted) => Dispatch(s, accepted)
    case DoFixRead(rest) => FixRead(s, rest)
    case DoFixCommit => FixCommit(s)
    case DoSeek => Seek(s)
    case DoNotify(ok) => Notify(s, ok)
    case DoFlagCommit => FlagCommit(s)
    case DoGiveUp => GiveUp(s)
  }

  /** One step; an action that is not enabled changes nothing. */
  function Step(s: State, a: Action): State {
    match a
    case OnStore(b) => StoreStep(s, b)
    case OnClient(n, b) => ClientStep(s, n, b)
    case OnTask(o, b) => TaskStep(s, o, b)
    case OnWorker(b) => WorkerStep(s, b)
    case OnRestart(order) => Restart(s, order)
  }

  /** The state after a run of steps. */
  function Run(s: State, steps: seq<Action>): State
    decreases |steps|
  {
    if steps == [] then s else Run(Step(s, steps[0]), steps[1..])
  }
}
