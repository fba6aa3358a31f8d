/** The backup controller as a transition system: the stored backups with their versioned
    writes, the watch stream and its filter, the single reconcile worker, and the cron table
    it keeps as a cache of the stored policies. */
module BackupControl {
  import opened Options
  import opened Versioned
  import opened Schedules
  import opened CronTable

  type Id = string

  /** `sizeUpdated` is the entry "size_updated" of the extra map; `rest` stands for the other
      fields, which no branch here looks at. */
  datatype Backup = Backup(policy: Policy, deleted: bool, notified: bool, sizeUpdated: Option<string>, rest: int)

  type Update = Write<Backup>

  datatype Event = Created(id: Id) | Updated(id: Id, was: Backup, now: Backup)

  /** The filter of the watch. Delete events never pass and are left out of the stream. */
  predicate Passes(e: Event) {
    match e
    case Created(_) => true
    case Updated(_, was, now) =>
      if was == now then false
      else if now.deleted then true
      else if was.sizeUpdated.None? || now.sizeUpdated.None? then false
      else if was.sizeUpdated != now.sizeUpdated then true
      else was.policy != now.policy
  }

  /** What the handlers of the API server and of the backup run change. */
  datatype Change =
    | Delete                                    // BackupHandler.Delete
    | Enable(on: bool)                          // BackupHandler.Enabled
    | SetPolicy(policy: Policy)                 // BackupPlan.update, after validBackupPolicy
    | SetSize(stamp: string, rest: int)         // UpdateTotalSize

  function Changed(b: Backup, c: Change): Backup {
    match c
    case Delete => b.(deleted := true)
    case Enable(on) => b.(policy := b.policy.(enabled := on))
    case SetPolicy(p) => b.(policy := p.(enabled := true))
    case SetSize(stamp, rest) => b.(sizeUpdated := Some(stamp), notified := false, rest := rest)
  }

  datatype Worker =
    | Idle
    | Taken(id: Id)                              // key popped, nothing read
    | Got(id: Id, read: Backup)
    | Deleting(id: Id)                           // unscheduled, deletion in progress
    | Notifying(id: Id, read: Backup)
    | FlagWriting(id: Id, read: Backup, w: Update)
    | Applying(id: Id, read: Backup)             // about to settle the schedule

  datatype State = State(
    rv: nat,
    backups: map<Id, Obj<Backup>>,
    used: set<Id>,                               // ids are never given out twice
    clients: seq<Update>,                        // updates in flight
    events: seq<Event>,
    queue: set<Id>,
    worker: Worker,
    entries: seq<Entry>,
    lastId: nat,
    // history
    muted: set<Id>)                              // the flag was taken back under the same stamp

  const Initial := State(0, map[], {}, [], [], {}, Idle, [], 0, {})

  function Commit(s: State, w: Update): State
    requires Fresh(s.backups, w)
  {
    var was := s.backups[w.id].spec;
    s.(rv := s.rv + 1,
       backups := s.backups[w.id := Obj(s.rv + 1, w.next)],
       events := s.events + [Updated(w.id, was, w.next)],
       muted := if w.next.notified then s.muted - {w.id}
                else if was.notified && was.sizeUpdated == w.next.sizeUpdated then s.muted + {w.id}
                else s.muted)
  }

  // ---- the API server ----

  /** mergeConfig sets the size stamp from the start. */
  function Create(s: State, id: Id, policy: Policy, stamp: string, rest: int): State {
    if id in s.used then s else
      var b := Backup(policy.(enabled := true), false, false, Some(stamp), rest);
      s.(rv := s.rv + 1,
         backups := s.backups[id := Obj(s.rv + 1, b)],
         used := s.used + {id},
         events := s.events + [Created(id)])
  }

  function ReadForChange(s: State, id: Id, c: Change): State {
    if id !in s.backups then s else
      var o := s.backups[id];
      s.(clients := s.clients + [Write(id, o.version, o.spec, Changed(o.spec, c))])
  }

  /** The k-th update in flight reaches the server: committed when fresh, else a conflict that
      is retried until the deadline. `ok` is false when the request is lost. */
  function SendChange(s: State, k: nat, ok: bool): State {
    if k >= |s.clients| then s else
      var w := s.clients[k];
      var t := s.(clients := s.clients[..k] + s.clients[k + 1..]);
      if ok && Fresh(s.backups, w) then Commit(t, w) else t
  }

  // ---- watch and queue ----

  function Deliver(s: State): State {
    if s.events == [] then s else
      var e := s.events[0];
      s.(events := s.events[1..], queue := if Passes(e) then s.queue + {e.id} else s.queue)
  }

  function Take(s: State, id: Id): State {
    if s.worker.Idle? && id in s.queue then s.(worker := Taken(id), queue := s.queue - {id}) else s
  }

  // ---- Reconcile ----

  /** Reconcile returned an error or asked to be called again. */
  function Requeue(s: State, id: Id): State {
    s.(worker := Idle, queue := s.queue + {id})
  }

  function Look(s: State, ok: bool): State {
    if !s.worker.Taken? then s
    else if !ok then Requeue(s, s.worker.id)
    else if s.worker.id !in s.backups then s.(worker := Idle)
    else s.(worker := Got(s.worker.id, s.backups[s.worker.id].spec))
  }

  function Branch(s: State): State {
    if !s.worker.Got? then s
    else
      var id := s.worker.id;
      var b := s.worker.read;
      if b.deleted then s.(worker := Deleting(id), entries := Without(s.entries, id))
      else if !b.notified then s.(worker := Notifying(id, b))
      else s.(worker := Applying(id, b))
  }

  function FinishDelete(s: State, ok: bool): State {
    if !s.worker.Deleting? then s
    else if !ok then Requeue(s, s.worker.id)
    else s.(worker := Idle, backups := s.backups - {s.worker.id})
  }

  /** UpdateNotifyState reads again before it writes. */
  function NotifyRead(s: State, ok: bool): State {
    if !s.worker.Notifying? then s
    else
      var id := s.worker.id;
      if !ok || id !in s.backups then Requeue(s, id)
      else
        var o := s.backups[id];
        s.(worker := FlagWriting(id, s.worker.read, Write(id, o.version, o.spec, o.spec.(notified := true))))
  }

  function NotifyWrite(s: State, ok: bool): State {
    if !s.worker.FlagWriting? then s
    else
      var w := s.worker.w;
      if ok && Fresh(s.backups, w) then Commit(s.(worker := Applying(s.worker.id, s.worker.read)), w)
      else Requeue(s, s.worker.id)
  }

  /** Settles the schedule by the backup as it was first read. */
  function Apply(accepts: string -> bool, s: State): State {
    if !s.worker.Applying? then s
    else
      var id := s.worker.id;
      var p := s.worker.read.policy;
      if !p.enabled then s.(worker := Idle, entries := Without(s.entries, id))
      else
        var ok := accepts(ParseToCron(p));
        var t := s.(entries := Rescheduled(s.entries, s.lastId + 1, id, ParseToCron(p), ok),
                    lastId := if ok then s.lastId + 1 else s.lastId);
        if ok then t.(worker := Idle) else Requeue(t, id)
  }

  predicate Lists(order: seq<Id>, ids: set<Id>) {
    (forall id :: id in ids ==> id in order) && (forall i :: 0 <= i < |order| ==> order[i] in ids)
  }

  /** The process starts again: memory is lost, and the watch replays what is stored. */
  function Restart(s: State, order: seq<Id>): State {
    if !Lists(order, s.backups.Keys) then s else
      s.(events := seq(|order|, i requires 0 <= i < |order| => Created(order[i])),
         queue := {}, worker := Idle, entries := [], lastId := 0)
  }

  datatype Action =
    | DoCreate(id: Id, policy: Policy, stamp: string, rest: int)
    | DoRead(id: Id, change: Change)
    | DoSend(k: nat, ok: bool)
    | DoDeliver
    | DoTake(id: Id)
    | DoLook(ok: bool)
    | DoBranch
    | DoFinishDelete(ok: bool)
    | DoNotifyRead(ok: bool)
    | DoNotifyWrite(ok: bool)
    | DoApply
    | DoRestart(order: seq<Id>)

  function Step(accepts: string -> bool, s: State, a: Action): State {
    match a
    case DoCreate(id, policy, stamp, rest) => Create(s, id, policy, stamp, rest)
    case DoRead(id, change) => ReadForChange(s, id, change)
    case DoSend(k, ok) => SendChange(s, k, ok)
    case DoDeliver => Deliver(s)
    case DoTake(id) => Take(s, id)
    case DoLook(ok) => Look(s, ok)
    case DoBranch => Branch(s)
    case DoFinishDelete(ok) => FinishDelete(s, ok)
    case DoNotifyRead(ok) => NotifyRead(s, ok)
    case DoNotifyWrite(ok) => NotifyWrite(s, ok)
    case DoApply => Apply(accepts, s)
    case DoRestart(order) => Restart(s, order)
  }

  function Run(accepts: string -> bool, s: State, steps: seq<Action>): State
    decreases |steps|
  {
    if steps == [] then s else Run(accepts, Step(accepts, s, steps[0]), steps[1..])
  }

  // ---- what the table should hold ----

  /** One entry with the policy's expression for a live, enabled backup; none otherwise. */
  function WantedOf(b: Backup): seq<string> {
    if b.deleted || !b.policy.enabled then [] else [ParseToCron(b.policy)]
  }

  function Wanted(s: State, id: Id): seq<string> {
    if id in s.backups then WantedOf(s.backups[id].spec) else []
  }

  predicate InHand(s: State, id: Id) {
    !s.worker.Idle? && s.worker.id == id
  }

  ghost predicate OnItsWay(s: State, id: Id) {
    id in s.queue || exists i :: 0 <= i < |s.events| && s.events[i].id == id && Passes(s.events[i])
  }

  /** The key will be looked at again. */
  ghost predicate Pending(s: State, id: Id) {
    OnItsWay(s, id) || InHand(s, id)
  }
}
