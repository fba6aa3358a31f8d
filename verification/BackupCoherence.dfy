/** The cron table agrees with the stored backups wherever nothing is pending: an invariant of
    every step of the backup controller. */
module BackupCoherence {
  import opened Options
  import opened Versioned
  import opened Schedules
  import opened CronTable
  import opened BackupControl

  // ---- what the writers keep ----

  predicate Stamped(b: Backup) {
    b.sizeUpdated.Some?
  }

  /** Every writer keeps the size stamp and never takes back a deletion. */
  predicate LawfulChange(was: Backup, now: Backup) {
    Stamped(was) && Stamped(now) && (was.deleted ==> now.deleted)
  }

  predicate SoundWrite(s: State, w: Update) {
    LawfulChange(w.base, w.next) && Honest(s.backups, w) && w.version <= s.rv && w.id in s.used
  }

  ghost predicate StoreSound(s: State) {
    && s.backups.Keys <= s.used
    && (forall id :: id in s.backups ==> Stamped(s.backups[id].spec) && s.backups[id].version <= s.rv)
    && (forall k :: 0 <= k < |s.clients| ==> SoundWrite(s, s.clients[k]))
    && (s.worker.FlagWriting? ==>
          SoundWrite(s, s.worker.w) && s.worker.w.id == s.worker.id
          && s.worker.w.next == s.worker.w.base.(notified := true))
  }

  /** A dropped event leaves the wanted entry as it was. */
  lemma DroppedIsHarmless(id: Id, was: Backup, now: Backup)
    requires LawfulChange(was, now) && !Passes(Updated(id, was, now))
    ensures WantedOf(was) == WantedOf(now)
  {
    hide ParseToCron;
  }

  lemma ChangeIsLawful(b: Backup, c: Change)
    requires Stamped(b)
    ensures LawfulChange(b, Changed(b, c))
  {
  }

  lemma CommitSound(s: State, w: Update)
    requires StoreSound(s) && SoundWrite(s, w) && Fresh(s.backups, w) && !s.worker.FlagWriting?
    ensures StoreSound(Commit(s, w))
  {
    var t := Commit(s, w);
    forall k | 0 <= k < |t.clients| ensures SoundWrite(t, t.clients[k]) {
      assert SoundWrite(s, s.clients[k]);
    }
  }

  lemma SendSound(s: State, k: nat, ok: bool)
    requires StoreSound(s)
    ensures StoreSound(SendChange(s, k, ok))
  {
    if k < |s.clients| {
      var w := s.clients[k];
      var t := s.(clients := s.clients[..k] + s.clients[k + 1..]);
      assert SoundWrite(s, w);
      assert forall j :: 0 <= j < |t.clients| ==> t.clients[j] == s.clients[if j < k then j else j + 1];
      if ok && Fresh(s.backups, w) {
        var u := Commit(t, w);
        forall j | 0 <= j < |u.clients| ensures SoundWrite(u, u.clients[j]) {
          assert SoundWrite(s, s.clients[if j < k then j else j + 1]);
        }
      }
    }
  }

  lemma ReadSound(s: State, id: Id, c: Change)
    requires StoreSound(s)
    ensures StoreSound(ReadForChange(s, id, c))
  {
    if id in s.backups { ChangeIsLawful(s.backups[id].spec, c); }
  }

  lemma CreateSound(s: State, id: Id, policy: Policy, stamp: string, rest: int)
    requires StoreSound(s)
    ensures StoreSound(Create(s, id, policy, stamp, rest))
  {
    if id !in s.used {
      var t := Create(s, id, policy, stamp, rest);
      forall k | 0 <= k < |t.clients| ensures SoundWrite(t, t.clients[k]) {
        assert SoundWrite(s, s.clients[k]);
      }
    }
  }

  lemma DeleteSound(s: State, ok: bool)
    requires StoreSound(s)
    ensures StoreSound(FinishDelete(s, ok))
  {
    var t := FinishDelete(s, ok);
    forall k | 0 <= k < |t.clients| ensures SoundWrite(t, t.clients[k]) {
      assert SoundWrite(s, s.clients[k]);
    }
  }

  lemma NotifySound(s: State, ok: bool)
    requires StoreSound(s)
    ensures StoreSound(NotifyWrite(s, ok))
  {
    if s.worker.FlagWriting? && ok && Fresh(s.backups, s.worker.w) {
      CommitSound(s.(worker := Applying(s.worker.id, s.worker.read)), s.worker.w);
    }
  }

  lemma StoreStep(accepts: string -> bool, s: State, a: Action)
    requires StoreSound(s)
    ensures StoreSound(Step(accepts, s, a))
  {
    hide Without, Rescheduled, ParseToCron, SendChange, Create, ReadForChange, FinishDelete, NotifyWrite;
    match a
    case DoCreate(id, policy, stamp, rest) => CreateSound(s, id, policy, stamp, rest);
    case DoRead(id, change) => ReadSound(s, id, change);
    case DoSend(k, ok) => SendSound(s, k, ok);
    case DoFinishDelete(ok) => DeleteSound(s, ok);
    case DoNotifyWrite(ok) => NotifySound(s, ok);
    case _ =>
  }

  // ---- the table ----

  ghost predicate Agrees(s: State, id: Id) {
    Of(s.entries, id) == Wanted(s, id)
  }

  /** The backup in hand is stored, and what was read of it is current or will be read again. */
  ghost predicate HandSound(s: State) {
    match s.worker
    case Idle => true
    case Taken(_) => true
    case Deleting(id) => id in s.backups && s.backups[id].spec.deleted && Of(s.entries, id) == []
    case Got(id, read) => Known(s, id, read) && (read.deleted ==> s.backups[id].spec.deleted)
    case Notifying(id, read) => Known(s, id, read) && !read.deleted
    case FlagWriting(id, read, _) => Known(s, id, read) && !read.deleted
    case Applying(id, read) => Known(s, id, read) && !read.deleted
  }

  ghost predicate Known(s: State, id: Id, read: Backup) {
    id in s.backups && (OnItsWay(s, id) || WantedOf(read) == Wanted(s, id))
  }

  ghost predicate TableSound(s: State) {
    && Distinct(s.entries)
    && (forall e :: e in s.entries ==> e.id <= s.lastId)
    && (forall id :: |Of(s.entries, id)| <= 1)
    && (forall id :: id !in s.backups ==> Of(s.entries, id) == [])
    && (forall id :: Agrees(s, id) || Pending(s, id))
    && HandSound(s)
  }

  /** Nothing that is on its way gets lost. */
  ghost predicate Onward(s: State, t: State) {
    forall id :: OnItsWay(s, id) ==> OnItsWay(t, id)
  }

  lemma AppendOnward(s: State, t: State, e: Event)
    requires t.events == s.events + [e] && t.queue == s.queue
    ensures Onward(s, t)
    ensures Passes(e) ==> OnItsWay(t, e.id)
  {
    forall id | OnItsWay(s, id) ensures OnItsWay(t, id) {
      if id !in s.queue {
        var i :| 0 <= i < |s.events| && s.events[i].id == id && Passes(s.events[i]);
        assert t.events[i] == s.events[i];
      }
    }
    assert t.events[|s.events|] == e;
  }

  lemma CommitTable(s: State, w: Update)
    requires TableSound(s) && Fresh(s.backups, w)
    requires LawfulChange(s.backups[w.id].spec, w.next)
    ensures TableSound(Commit(s, w))
  {
    hide Of, ParseToCron, WantedOf, Passes, OnItsWay;
    var t := Commit(s, w);
    var was := s.backups[w.id].spec;
    AppendOnward(s, t, Updated(w.id, was, w.next));
    if !Passes(Updated(w.id, was, w.next)) { DroppedIsHarmless(w.id, was, w.next); }
    assert forall id :: id != w.id ==> Wanted(t, id) == Wanted(s, id);
    assert Wanted(t, w.id) == Wanted(s, w.id) || OnItsWay(t, w.id);
    forall id ensures Agrees(t, id) || Pending(t, id) { assert Agrees(s, id) || Pending(s, id); }
  }

  lemma SendTable(s: State, k: nat, ok: bool)
    requires StoreSound(s) && TableSound(s)
    ensures TableSound(SendChange(s, k, ok))
  {
    hide Of, ParseToCron, WantedOf, Passes;
    if k < |s.clients| {
      var w := s.clients[k];
      var t := s.(clients := s.clients[..k] + s.clients[k + 1..]);
      assert SoundWrite(s, w);
      SameTable(s, t);
      if ok && Fresh(s.backups, w) { CommitTable(t, w); }
    }
  }

  /** Only the store's bookkeeping moved. */
  lemma SameTable(s: State, t: State)
    requires TableSound(s)
    requires t.backups == s.backups && t.events == s.events && t.queue == s.queue && t.worker == s.worker
    requires t.entries == s.entries && t.lastId == s.lastId
    ensures TableSound(t)
  {
    hide Of, ParseToCron, WantedOf, Passes;
    assert forall id :: OnItsWay(s, id) == OnItsWay(t, id);
    forall id ensures Agrees(t, id) || Pending(t, id) { assert Agrees(s, id) || Pending(s, id); }
  }

  lemma CreateTable(s: State, id: Id, policy: Policy, stamp: string, rest: int)
    requires StoreSound(s) && TableSound(s)
    ensures TableSound(Create(s, id, policy, stamp, rest))
  {
    hide Of, ParseToCron, WantedOf, OnItsWay, StoreSound;
    if id !in s.used {
      var t := Create(s, id, policy, stamp, rest);
      AppendOnward(s, t, Created(id));
      assert s.backups.Keys <= s.used by { FreshId(s); }
      assert forall j :: j != id ==> Wanted(t, j) == Wanted(s, j);
      forall j ensures Agrees(t, j) || Pending(t, j) { assert Agrees(s, j) || Pending(s, j); }
    }
  }

  lemma FreshId(s: State)
    requires StoreSound(s)
    ensures s.backups.Keys <= s.used
  {
  }

  lemma DeliverTable(s: State)
    requires TableSound(s)
    ensures TableSound(Deliver(s))
  {
    hide Of, ParseToCron, WantedOf, Passes;
    if s.events != [] {
      var t := Deliver(s);
      forall id | OnItsWay(s, id) ensures OnItsWay(t, id) {
        if id !in s.queue {
          var i :| 0 <= i < |s.events| && s.events[i].id == id && Passes(s.events[i]);
          if i > 0 { assert t.events[i - 1] == s.events[i]; }
        }
      }
      forall id ensures Agrees(t, id) || Pending(t, id) { assert Agrees(s, id) || Pending(s, id); }
    }
  }

  lemma TakeTable(s: State, id: Id)
    requires TableSound(s)
    ensures TableSound(Take(s, id))
  {
    hide Of, ParseToCron, WantedOf, Passes;
    var t := Take(s, id);
    forall j | OnItsWay(s, j) ensures Pending(t, j) {
      if j !in s.queue {
        var i :| 0 <= i < |s.events| && s.events[i].id == j && Passes(s.events[i]);
        assert t.events[i] == s.events[i];
      }
    }
    forall j ensures Agrees(t, j) || Pending(t, j) { assert Agrees(s, j) || Pending(s, j); }
  }

  /** The worker moves on, keeping its key in hand or putting it back, or nothing is owed. */
  lemma WorkerTable(s: State, t: State, id: Id)
    requires TableSound(s) && InHand(s, id)
    requires t.backups == s.backups && t.events == s.events && t.entries == s.entries && t.lastId == s.lastId
    requires t.queue == s.queue || t.queue == s.queue + {id}
    requires InHand(t, id) || id in t.queue || Agrees(s, id)
    requires HandSound(t)
    ensures TableSound(t)
  {
    hide Of, ParseToCron, WantedOf, Passes;
    QueueOnward(s, t);
    forall j ensures Agrees(t, j) || Pending(t, j) { assert Agrees(s, j) || Pending(s, j); }
  }

  lemma QueueOnward(s: State, t: State)
    requires t.events == s.events && s.queue <= t.queue
    ensures Onward(s, t)
  {
  }

  lemma LookTable(s: State, ok: bool)
    requires TableSound(s)
    ensures TableSound(Look(s, ok))
  {
    hide Of, ParseToCron, WantedOf, Passes;
    if s.worker.Taken? { WorkerTable(s, Look(s, ok), s.worker.id); }
  }

  /** The table changes for one backup, whose key stays in hand or queued, or is settled. */
  lemma SettleTable(s: State, t: State, id: Id)
    requires TableSound(s) && InHand(s, id) && id in s.backups
    requires t.backups == s.backups && t.events == s.events && s.queue <= t.queue <= s.queue + {id}
    requires Distinct(t.entries) && forall e :: e in t.entries ==> e.id <= t.lastId
    requires |Of(t.entries, id)| <= 1
    requires forall j :: j != id ==> Of(t.entries, j) == Of(s.entries, j)
    requires InHand(t, id) || OnItsWay(t, id) || Agrees(t, id)
    requires HandSound(t)
    ensures TableSound(t)
  {
    hide Of, ParseToCron, WantedOf, Passes;
    QueueOnward(s, t);
    forall j ensures Agrees(t, j) || Pending(t, j) { assert Agrees(s, j) || Pending(s, j); }
  }

  lemma UnscheduleTable(s: State, t: State, id: Id)
    requires TableSound(s) && InHand(s, id) && id in s.backups
    requires t == s.(worker := t.worker, entries := Without(s.entries, id))
    requires InHand(t, id) || OnItsWay(s, id) || Wanted(s, id) == []
    requires t.worker.Idle? || (t.worker == Deleting(id) && s.backups[id].spec.deleted)
    ensures TableSound(t)
  {
    hide ParseToCron, WantedOf, Passes;
    forall j ensures Of(t.entries, j) == if j == id then [] else Of(s.entries, j) {
      OfWithout(s.entries, id, j);
    }
    WithoutDistinct(s.entries, id);
    forall e | e in t.entries ensures e.id <= t.lastId { WithoutFewer(s.entries, id, e); }
    QueueOnward(s, t);
    SettleTable(s, t, id);
  }

  lemma BranchTable(s: State)
    requires TableSound(s)
    ensures TableSound(Branch(s))
  {
    hide Of, ParseToCron, Passes;
    if s.worker.Got? {
      var id := s.worker.id;
      QueueOnward(s, Branch(s));
      if s.worker.read.deleted { UnscheduleTable(s, Branch(s), id); } else { WorkerTable(s, Branch(s), id); }
    }
  }

  lemma ApplyTable(accepts: string -> bool, s: State)
    requires TableSound(s)
    ensures TableSound(Apply(accepts, s))
  {
    hide ParseToCron, Passes, Without, Rescheduled;
    if s.worker.Applying? {
      var id := s.worker.id;
      var p := s.worker.read.policy;
      var t := Apply(accepts, s);
      QueueOnward(s, t);
      if !p.enabled {
        UnscheduleTable(s, t, id);
      } else {
        var ok := accepts(ParseToCron(p));
        forall j ensures Of(t.entries, j) == if j != id then Of(s.entries, j) else if ok then [ParseToCron(p)] else [] {
          OfRescheduled(s.entries, s.lastId + 1, id, ParseToCron(p), ok, j);
        }
        RescheduledIds(s.entries, s.lastId, id, ParseToCron(p), ok);
        SettleTable(s, t, id);
      }
    }
  }

  lemma RescheduledIds(entries: seq<Entry>, lastId: nat, name: string, schedule: string, ok: bool)
    requires Distinct(entries) && forall e :: e in entries ==> e.id <= lastId
    ensures
      var next := Rescheduled(entries, lastId + 1, name, schedule, ok);
      Distinct(next) && forall e :: e in next ==> e.id <= if ok then lastId + 1 else lastId
  {
    WithoutDistinct(entries, name);
    forall e | e in Without(entries, name) ensures e.id <= lastId { WithoutFewer(entries, name, e); }
  }

  lemma DeleteTable(s: State, ok: bool)
    requires TableSound(s)
    ensures TableSound(FinishDelete(s, ok))
  {
    hide Of, ParseToCron, WantedOf, Passes;
    if s.worker.Deleting? {
      var id := s.worker.id;
      var t := FinishDelete(s, ok);
      QueueOnward(s, t);
      if !ok {
        WorkerTable(s, t, id);
      } else {
        assert forall j :: j != id ==> Wanted(t, j) == Wanted(s, j);
        forall j ensures Agrees(t, j) || Pending(t, j) { assert Agrees(s, j) || Pending(s, j); }
      }
    }
  }

  lemma NotifyReadTable(s: State, ok: bool)
    requires TableSound(s)
    ensures TableSound(NotifyRead(s, ok))
  {
    hide Of, ParseToCron, WantedOf, Passes;
    if s.worker.Notifying? {
      QueueOnward(s, NotifyRead(s, ok));
      WorkerTable(s, NotifyRead(s, ok), s.worker.id);
    }
  }

  lemma NotifyWriteTable(s: State, ok: bool)
    requires StoreSound(s) && TableSound(s)
    ensures TableSound(NotifyWrite(s, ok))
  {
    hide Of, ParseToCron, WantedOf, Passes;
    if s.worker.FlagWriting? {
      var w := s.worker.w;
      var id := s.worker.id;
      if ok && Fresh(s.backups, w) {
        var t := s.(worker := Applying(id, s.worker.read));
        QueueOnward(s, t);
        WorkerTable(s, t, id);
        CommitTable(t, w);
      } else {
        WorkerTable(s, NotifyWrite(s, ok), id);
      }
    }
  }

  lemma RestartTable(s: State, order: seq<Id>)
    requires TableSound(s)
    ensures TableSound(Restart(s, order))
  {
    hide ParseToCron, WantedOf;
    if Lists(order, s.backups.Keys) {
      var t := Restart(s, order);
      forall id | id in s.backups ensures OnItsWay(t, id) {
        var i :| 0 <= i < |order| && order[i] == id;
        assert t.events[i] == Created(id);
      }
    }
  }

  lemma TableStep(accepts: string -> bool, s: State, a: Action)
    requires StoreSound(s) && TableSound(s)
    ensures TableSound(Step(accepts, s, a))
  {
    hide StoreSound, TableSound, Create, SendChange, Deliver, Take, Look, Branch, FinishDelete,
      NotifyRead, NotifyWrite, Apply, Restart;
    match a
    case DoCreate(id, policy, stamp, rest) => CreateTable(s, id, policy, stamp, rest);
    case DoRead(id, change) => SameTable(s, ReadForChange(s, id, change));
    case DoSend(k, ok) => SendTable(s, k, ok);
    case DoDeliver => DeliverTable(s);
    case DoTake(id) => TakeTable(s, id);
    case DoLook(ok) => LookTable(s, ok);
    case DoBranch => BranchTable(s);
    case DoFinishDelete(ok) => DeleteTable(s, ok);
    case DoNotifyRead(ok) => NotifyReadTable(s, ok);
    case DoNotifyWrite(ok) => NotifyWriteTable(s, ok);
    case DoApply => ApplyTable(accepts, s);
    case DoRestart(order) => RestartTable(s, order);
  }
}
