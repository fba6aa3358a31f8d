/** The pool of one owner in fine-grained steps: the task map, the active cell, the cancel
    flags and contexts, one pool worker, the two submitters (snapshot and restore
    reconciler), and any number of cancel operations that interleave with them. */
module WorkerPool {
  import opened Options

  datatype TaskKind = BackupTask | RestoreTask

  /** A task object. `target` is the snapshot or the restore it runs, `key` its name in the map. */
  datatype Task = Task(key: string, kind: TaskKind, backup: string, target: string, canceled: bool, ctxDone: bool)

  /** Identity of a task object. */
  type Handle = nat

  datatype Target = OfBackup(id: string) | OfSnapshot(id: string) | OfRestore(id: string)

  /** The test inside the Range loop of the three cancel operations. */
  predicate Hits(t: Task, c: Target) {
    match c
    case OfBackup(id) => t.kind.BackupTask? && t.backup == id
    case OfSnapshot(id) => t.kind.BackupTask? && t.target == id
    case OfRestore(id) => t.kind.RestoreTask? && t.target == id
  }

  /** The type assertion on the active task succeeds. */
  predicate Expected(t: Task, c: Target) {
    c.OfRestore? <==> t.kind.RestoreTask?
  }

  /** ExistsTask finds a task. */
  predicate LiveBackup(view: map<string, Task>, backup: string) {
    exists k :: k in view && view[k].kind.BackupTask? && view[k].backup == backup && !view[k].canceled
  }

  /** The map after a Range loop has visited every key. */
  function Marked(view: map<string, Task>, c: Target): map<string, Task> {
    map k | k in view :: if Hits(view[k], c) then view[k].(canceled := true) else view[k]
  }

  function BackupKey(backup: string, snapshot: string): string {
    backup + "_" + snapshot
  }

  /** The pool worker in the task closure: after the pick, after the cancel check, inside Run,
      after Run or the early return, after the deferred delete. */
  datatype Worker = Free | Picked(h: Handle) | Passed(h: Handle) | Active(h: Handle) | Ended(h: Handle) | Removed(h: Handle)

  /** A submitter: after ExistsTask, after the store into the map. */
  datatype Submitter = NoTask | Checked(backup: string, snapshot: string) | Stored(h: Handle)

  /** How far a task has come: from its entry into the active cell until the cell is cleared it
      counts as InCell, and a task turned away at its check goes straight to Over. */
  datatype Stage = Waiting | AtCheck | Gap | InCell | Over

  function Rank(g: Stage): nat {
    match g case Waiting => 0 case AtCheck => 1 case Gap => 2 case InCell => 3 case Over => 4
  }

  /** Where a cancel operation stands: inside Range, after loading the active cell, at its end. */
  datatype CancelPc = Ranging | Loaded | Finished | Panicked

  /** `todo` are the keys present when Range began and not visited yet, `cell` is what the
      active cell held when it was read. History: `began` are the tasks in the map when Range
      began, `marks` and `loads` the stage each marked task was in when it was marked and when
      the active cell was read. */
  datatype Cancel = Cancel(
    target: Target,
    todo: set<string>,
    pc: CancelPc,
    cell: Option<Handle>,
    began: set<Handle>,
    marks: map<Handle, Stage>,
    loads: map<Handle, Stage>)

  datatype Pool = Pool(
    heap: map<Handle, Task>,
    tasks: map<string, Handle>,
    queue: seq<Handle>,
    worker: Worker,
    active: Option<Handle>,
    backups: Submitter,
    restores: Submitter,
    cancels: map<nat, Cancel>,
    // history
    ran: set<Handle>,
    rejected: set<Handle>
  )

  const Empty := Pool(map[], map[], [], Free, None, NoTask, NoTask, map[], {}, {})

  function View(p: Pool): map<string, Task> {
    map k | k in p.tasks && p.tasks[k] in p.heap :: p.heap[p.tasks[k]]
  }

  function StageOf(p: Pool, h: Handle): Stage {
    if p.worker == Picked(h) then AtCheck
    else if p.worker == Passed(h) then Gap
    else if p.active == Some(h) then InCell
    else if h in p.queue || p.backups == Stored(h) || p.restores == Stored(h) then Waiting
    else Over
  }

  // ---- submission ----

  /** AddBackupTask up to the store: ExistsTask, then the parameter check. */
  function CheckBackup(p: Pool, backup: string, snapshot: string): Pool {
    if !p.backups.NoTask? || LiveBackup(View(p), backup) || backup == "" || snapshot == "" then p
    else p.(backups := Checked(backup, snapshot))
  }

  /** A new task object under a key that was never used: a snapshot or a restore is submitted
      at most once. */
  function Store(p: Pool, h: Handle, t: Task): Pool {
    p.(heap := p.heap[h := t], tasks := p.tasks[t.key := h])
  }

  predicate NewTask(p: Pool, h: Handle, key: string) {
    h !in p.heap && forall g :: g in p.heap ==> p.heap[g].key != key
  }

  function StoreBackup(p: Pool, h: Handle): Pool {
    if !p.backups.Checked? then p else
      var key := BackupKey(p.backups.backup, p.backups.snapshot);
      if !NewTask(p, h, key) then p
      else Store(p, h, Task(key, BackupTask, p.backups.backup, p.backups.snapshot, false, false)).(backups := Stored(h))
  }

  function StoreRestore(p: Pool, h: Handle, restore: string): Pool {
    if !p.restores.NoTask? || restore == "" || !NewTask(p, h, restore) then p
    else Store(p, h, Task(restore, RestoreTask, "", restore, false, false)).(restores := Stored(h))
  }

  function Submit(p: Pool, h: Handle, ok: bool): Pool {
    if h !in p.heap then p
    else if ok then p.(queue := p.queue + [h])
    else p.(heap := p.heap[h := p.heap[h].(ctxDone := true)], tasks := p.tasks - {p.heap[h].key}, rejected := p.rejected + {h})
  }

  function SubmitBackup(p: Pool, ok: bool): Pool {
    if !p.backups.Stored? then p else Submit(p, p.backups.h, ok).(backups := NoTask)
  }

  function SubmitRestore(p: Pool, ok: bool): Pool {
    if !p.restores.Stored? then p else Submit(p, p.restores.h, ok).(restores := NoTask)
  }

  // ---- the task closure ----

  function Pick(p: Pool): Pool {
    if !p.worker.Free? || p.queue == [] then p else p.(queue := p.queue[1..], worker := Picked(p.queue[0]))
  }

  function Check(p: Pool): Pool {
    if !p.worker.Picked? || p.worker.h !in p.heap then p
    else p.(worker := if p.heap[p.worker.h].canceled then Ended(p.worker.h) else Passed(p.worker.h))
  }

  /** setActiveTask, and Run begins. */
  function Activate(p: Pool): Pool {
    if !p.worker.Passed? then p
    else p.(worker := Active(p.worker.h), active := Some(p.worker.h), ran := p.ran + {p.worker.h})
  }

  function Finish(p: Pool): Pool {
    if !p.worker.Active? then p else p.(worker := Ended(p.worker.h))
  }

  function Remove(p: Pool): Pool {
    if !p.worker.Ended? || p.worker.h !in p.heap then p
    else p.(worker := Removed(p.worker.h), tasks := p.tasks - {p.heap[p.worker.h].key})
  }

  function Clear(p: Pool): Pool {
    if !p.worker.Removed? then p else p.(worker := Free, active := None)
  }

  // ---- cancel operations ----

  function CancelBegin(p: Pool, n: nat, target: Target): Pool {
    if n in p.cancels then p
    else p.(cancels := p.cancels[n := Cancel(target, p.tasks.Keys, Ranging, None, p.tasks.Values, map[], map[])])
  }

  /** Range visits one key; a key that was stored meanwhile may be visited too. */
  function CancelVisit(p: Pool, n: nat, key: string): Pool {
    if n !in p.cancels || !p.cancels[n].pc.Ranging? then p else
      var c := p.cancels[n].(todo := p.cancels[n].todo - {key});
      if key !in p.tasks || p.tasks[key] !in p.heap || !Hits(p.heap[p.tasks[key]], c.target) then
        p.(cancels := p.cancels[n := c])
      else
        var h := p.tasks[key];
        p.(heap := p.heap[h := p.heap[h].(canceled := true)],
           cancels := p.cancels[n := c.(marks := if h in c.marks then c.marks else c.marks[h := StageOf(p, h)])])
  }

  /** Range is over: load the active cell. */
  function CancelLoad(p: Pool, n: nat): Pool {
    if n !in p.cancels || !p.cancels[n].pc.Ranging? || p.cancels[n].todo != {} then p else
      var c := p.cancels[n];
      p.(cancels := p.cancels[n := c.(pc := Loaded, cell := p.active, loads := map h | h in c.marks :: StageOf(p, h))])
  }

  /** The type assertion, the comparison, and the cancel of the context. */
  function CancelEnd(p: Pool, n: nat): Pool {
    if n !in p.cancels || !p.cancels[n].pc.Loaded? then p else
      var c := p.cancels[n];
      if c.cell.None? || c.cell.value !in p.heap then p.(cancels := p.cancels[n := c.(pc := Finished)])
      else
        var h := c.cell.value;
        if !Expected(p.heap[h], c.target) then p.(cancels := p.cancels[n := c.(pc := Panicked)])
        else p.(heap := if Hits(p.heap[h], c.target) then p.heap[h := p.heap[h].(ctxDone := true)] else p.heap,
                cancels := p.cancels[n := c.(pc := Finished)])
  }

  datatype Action =
    | DoCheckBackup(backup: string, snapshot: string)
    | DoStoreBackup(h: Handle)
    | DoStoreRestore(h: Handle, restore: string)
    | DoSubmitBackup(ok: bool)
    | DoSubmitRestore(ok: bool)
    | DoPick
    | DoCheck
    | DoActivate
    | DoFinish
    | DoRemove
    | DoClear
    | DoCancelBegin(n: nat, target: Target)
    | DoCancelVisit(n: nat, key: string)
    | DoCancelLoad(n: nat)
    | DoCancelEnd(n: nat)

  function Step(p: Pool, a: Action): Pool {
    match a
    case DoCheckBackup(backup, snapshot) => CheckBackup(p, backup, snapshot)
    case DoStoreBackup(h) => StoreBackup(p, h)
    case DoStoreRestore(h, restore) => StoreRestore(p, h, restore)
    case DoSubmitBackup(ok) => SubmitBackup(p, ok)
    case DoSubmitRestore(ok) => SubmitRestore(p, ok)
    case DoPick => Pick(p)
    case DoCheck => Check(p)
    case DoActivate => Activate(p)
    case DoFinish => Finish(p)
    case DoRemove => Remove(p)
    case DoClear => Clear(p)
    case DoCancelBegin(n, target) => CancelBegin(p, n, target)
    case DoCancelVisit(n, key) => CancelVisit(p, n, key)
    case DoCancelLoad(n) => CancelLoad(p, n)
    case DoCancelEnd(n) => CancelEnd(p, n)
  }

  function Run(p: Pool, steps: seq<Action>): Pool
    decreases |steps|
  {
    if steps == [] then p else Run(Step(p, steps[0]), steps[1..])
  }
}
