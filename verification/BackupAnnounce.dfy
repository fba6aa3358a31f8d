/** Every live backup is announced, and every deleted one is removed: what the reconciler owes to
    the stored backups besides their cron entries. */
module BackupAnnounce {
  import opened Options
  import opened Versioned
  import opened Schedules
  import opened CronTable
  import opened BackupControl
  import opened BackupCoherence
  import opened BackupTheorems

  /** Live and not announced, with no size update under an old stamp to blame. */
  predicate Unannounced(s: State, id: Id) {
    id in s.backups && !s.backups[id].spec.deleted && !s.backups[id].spec.notified && id !in s.muted
  }

  /** Marked deleted and still stored. */
  predicate Leftover(s: State, id: Id) {
    id in s.backups && s.backups[id].spec.deleted
  }

  /** The worker holds the key in a way that ends in an announcement or back in the queue. */
  predicate Announcing(s: State, id: Id) {
    match s.worker
    case Taken(k) => k == id
    case Got(k, read) => k == id && !read.deleted && !read.notified
    case Notifying(k, _) => k == id
    case FlagWriting(k, _, _) => k == id
    case _ => false
  }

  predicate Removing(s: State, id: Id) {
    match s.worker
    case Taken(k) => k == id
    case Got(k, read) => k == id && read.deleted
    case Deleting(k) => k == id
    case _ => false
  }

  ghost predicate Owes(s: State, id: Id) {
    && (Unannounced(s, id) ==> OnItsWay(s, id) || Announcing(s, id))
    && (Leftover(s, id) ==> OnItsWay(s, id) || Removing(s, id))
    && (id in s.muted && id in s.backups ==> !s.backups[id].spec.notified)
  }

  ghost predicate AnnounceInv(s: State) {
    forall id :: Owes(s, id)
  }

  // ---- the steps ----

  /** The store is the same, and nothing on its way is lost. */
  lemma OwesSame(s: State, t: State)
    requires AnnounceInv(s) && Onward(s, t)
    requires t.backups == s.backups && t.muted == s.muted
    requires forall id :: Unannounced(s, id) && Announcing(s, id) ==> OnItsWay(t, id) || Announcing(t, id)
    requires forall id :: Leftover(s, id) && Removing(s, id) ==> OnItsWay(t, id) || Removing(t, id)
    ensures AnnounceInv(t)
  {
    hide OnItsWay, Announcing, Removing;
    forall id ensures Owes(t, id) { assert Owes(s, id); }
  }

  lemma OwesCommit(s: State, w: Update)
    requires AnnounceInv(s) && Fresh(s.backups, w) && LawfulChange(s.backups[w.id].spec, w.next)
    ensures AnnounceInv(Commit(s, w))
  {
    var t := Commit(s, w);
    AppendOnward(s, t, Updated(w.id, s.backups[w.id].spec, w.next));
    hide OnItsWay;
    forall id ensures Owes(t, id) { assert Owes(s, id); }
  }

  lemma OwesSend(s: State, k: nat, ok: bool)
    requires StoreSound(s) && AnnounceInv(s)
    ensures AnnounceInv(SendChange(s, k, ok))
  {
    if k < |s.clients| {
      var w := s.clients[k];
      var t := s.(clients := s.clients[..k] + s.clients[k + 1..]);
      assert SoundWrite(s, w);
      hide AnnounceInv, OnItsWay;
      assert Onward(s, t) by { QueueOnward(s, t); }
      OwesSame(s, t);
      if ok && Fresh(s.backups, w) { OwesCommit(t, w); }
    }
  }

  lemma OwesCreate(s: State, id: Id, policy: Policy, stamp: string, rest: int)
    requires StoreSound(s) && AnnounceInv(s)
    ensures AnnounceInv(Create(s, id, policy, stamp, rest))
  {
    if id !in s.used {
      var t := Create(s, id, policy, stamp, rest);
      AppendOnward(s, t, Created(id));
      hide OnItsWay, StoreSound;
      forall j ensures Owes(t, j) { assert Owes(s, j); }
    }
  }

  lemma DeliverOnward(s: State)
    ensures Onward(s, Deliver(s))
  {
    hide Passes;
    var t := Deliver(s);
    forall id | OnItsWay(s, id) ensures OnItsWay(t, id) {
      if id !in s.queue {
        var i :| 0 <= i < |s.events| && s.events[i].id == id && Passes(s.events[i]);
        if i > 0 { assert t.events[i - 1] == s.events[i]; }
      }
    }
  }

  /** The key that is taken is in hand. */
  lemma OwesTake(s: State, id: Id)
    requires AnnounceInv(s)
    ensures AnnounceInv(Take(s, id))
  {
    hide Passes;
    var t := Take(s, id);
    forall j ensures Owes(t, j) {
      assert Owes(s, j);
      if OnItsWay(s, j) && j !in s.queue {
        var i :| 0 <= i < |s.events| && s.events[i].id == j && Passes(s.events[i]);
        assert t.events[i] == s.events[i];
      }
    }
  }

  lemma OwesHand(s: State, a: Action)
    requires HandSound(s) && AnnounceInv(s)
    requires a.DoLook? || a.DoBranch? || a.DoNotifyRead?
    ensures
      var t := match a case DoLook(ok) => Look(s, ok) case DoNotifyRead(ok) => NotifyRead(s, ok) case _ => Branch(s);
      AnnounceInv(t)
  {
    var t := match a case DoLook(ok) => Look(s, ok) case DoNotifyRead(ok) => NotifyRead(s, ok) case _ => Branch(s);
    QueueOnward(s, t);
    assert forall id :: id in t.queue ==> OnItsWay(t, id);
    hide AnnounceInv, OnItsWay, Without, Of, WantedOf, Onward;
    OwesSame(s, t);
  }

  lemma OwesDelete(s: State, ok: bool)
    requires AnnounceInv(s)
    ensures AnnounceInv(FinishDelete(s, ok))
  {
    var t := FinishDelete(s, ok);
    QueueOnward(s, t);
    assert forall id :: id in t.queue ==> OnItsWay(t, id);
    hide OnItsWay;
    forall id ensures Owes(t, id) { assert Owes(s, id); }
  }

  lemma OwesNotifyWrite(s: State, ok: bool)
    requires StoreSound(s) && AnnounceInv(s)
    ensures AnnounceInv(NotifyWrite(s, ok))
  {
    if s.worker.FlagWriting? {
      var w := s.worker.w;
      var t := NotifyWrite(s, ok);
      if ok && Fresh(s.backups, w) {
        AppendOnward(s, t, Updated(w.id, s.backups[w.id].spec, w.next));
      } else {
        QueueOnward(s, t);
        assert forall id :: id in t.queue ==> OnItsWay(t, id);
      }
      hide OnItsWay, Passes;
      forall id ensures Owes(t, id) { assert Owes(s, id); }
    }
  }

  lemma OwesApply(accepts: string -> bool, s: State)
    requires AnnounceInv(s)
    ensures AnnounceInv(Apply(accepts, s))
  {
    var t := Apply(accepts, s);
    hide AnnounceInv, ParseToCron, Without, Rescheduled;
    QueueOnward(s, t);
    OwesSame(s, t);
  }

  lemma OwesRestart(s: State, order: seq<Id>)
    requires AnnounceInv(s)
    ensures AnnounceInv(Restart(s, order))
  {
    if Lists(order, s.backups.Keys) {
      var t := Restart(s, order);
      forall id ensures Owes(t, id) {
        assert Owes(s, id);
        if id in s.backups {
          var i :| 0 <= i < |order| && order[i] == id;
          assert t.events[i] == Created(id);
        }
      }
    }
  }

  lemma AnnounceStep(accepts: string -> bool, s: State, a: Action)
    requires StoreSound(s) && TableSound(s) && AnnounceInv(s)
    ensures AnnounceInv(Step(accepts, s, a))
  {
    HandOf(s);
    hide StoreSound, TableSound, AnnounceInv, HandSound, Create, SendChange, Deliver, Take, Look, Branch, FinishDelete,
      NotifyRead, NotifyWrite, Apply, Restart;
    match a
    case DoCreate(id, policy, stamp, rest) => OwesCreate(s, id, policy, stamp, rest);
    case DoRead(id, change) => OwesRead(s, id, change);
    case DoSend(k, ok) => OwesSend(s, k, ok);
    case DoDeliver => OwesDeliver(s);
    case DoTake(id) => OwesTake(s, id);
    case DoFinishDelete(ok) => OwesDelete(s, ok);
    case DoNotifyWrite(ok) => OwesNotifyWrite(s, ok);
    case DoApply => OwesApply(accepts, s);
    case DoRestart(order) => OwesRestart(s, order);
    case _ => OwesHand(s, a);
  }

  lemma OwesRead(s: State, id: Id, c: Change)
    requires AnnounceInv(s)
    ensures AnnounceInv(ReadForChange(s, id, c))
  {
    hide AnnounceInv;
    var t := ReadForChange(s, id, c);
    QueueOnward(s, t);
    OwesSame(s, t);
  }

  lemma OwesDeliver(s: State)
    requires AnnounceInv(s)
    ensures AnnounceInv(Deliver(s))
  {
    DeliverOnward(s);
    hide AnnounceInv, Passes, OnItsWay;
    OwesSame(s, Deliver(s));
  }

  lemma {:induction false} AnnounceRun(accepts: string -> bool, s: State, steps: seq<Action>)
    requires Inv(accepts, s) && AnnounceInv(s)
    ensures AnnounceInv(Run(accepts, s, steps))
    decreases |steps|
  {
    hide StoreSound, TableSound, AnnounceInv, AllAccepted, Step;
    if steps != [] {
      InvStep(accepts, s, steps[0]);
      AnnounceStep(accepts, s, steps[0]);
      AnnounceRun(accepts, Step(accepts, s, steps[0]), steps[1..]);
    }
  }

  lemma ReachedAnnounce(accepts: string -> bool, s: State)
    requires Reachable(accepts, s)
    ensures AnnounceInv(s)
  {
    var steps :| s == Run(accepts, Initial, steps);
    hide Run;
    assert Initial == Run(accepts, Initial, []) by { EmptyRun(accepts); }
    ReachedInv(accepts, Initial);
    assert AnnounceInv(Initial);
    hide AnnounceInv, Inv;
    AnnounceRun(accepts, Initial, steps);
  }

  lemma EmptyRun(accepts: string -> bool)
    ensures Run(accepts, Initial, []) == Initial
  {
  }

  // ---- at rest ----

  /** When no step of watch and worker is left to take, every stored backup is live, and it has
      been announced exactly unless a size update took its flag back under the stamp that was
      stored already: the filter drops the event of such an update. */
  lemma SettledIsAnnounced(accepts: string -> bool, s: State, id: Id)
    requires Reachable(accepts, s) && (forall a :: !Works(s, a)) && id in s.backups
    ensures !s.backups[id].spec.deleted
    ensures s.backups[id].spec.notified <==> id !in s.muted
  {
    ReachedAnnounce(accepts, s);
    SettledTableIsWanted(accepts, s, id);
    hide Reachable, Works;
    assert Owes(s, id);
  }

  /** The mark is set by such an update alone: one that is committed over an announced backup,
      with the stamp that is stored. */
  lemma MutedBySameStamp(accepts: string -> bool, s: State, a: Action, id: Id)
    requires Reachable(accepts, s) && id !in s.muted && id in Step(accepts, s, a).muted
    ensures id in s.backups && id in Step(accepts, s, a).backups
    ensures
      var was, now := s.backups[id].spec, Step(accepts, s, a).backups[id].spec;
      was.notified && !now.notified && was.sizeUpdated == now.sizeUpdated
  {
    hide Reachable, ParseToCron, Without, Rescheduled, Passes;
  }

  /** A backup that is announced and at rest, scheduled or not. */
  lemma Announced(accepts: string -> bool, policy: Policy, stamp: string) returns (s: State)
    requires accepts(ParseToCron(policy.(enabled := true)))
    ensures Reachable(accepts, s) && s.events == [] && s.queue == {} && s.worker.Idle? && s.clients == []
    ensures s.backups.Keys == {"b"} && s.backups["b"].spec == Backup(policy.(enabled := true), false, true, Some(stamp), 0)
  {
    s := ToBeAnnounced(accepts, policy, stamp);
    hide Reachable, ParseToCron, Rescheduled;
    ReachableStep(accepts, s, DoNotifyRead(true));
    s := NotifyRead(s, true);
    ReachableStep(accepts, s, DoNotifyWrite(true));
    s := NotifyWrite(s, true);
    ReachableStep(accepts, s, DoApply);
    s := Apply(accepts, s);
    ReachableStep(accepts, s, DoDeliver);
    s := Deliver(s);
  }

  lemma ToBeAnnounced(accepts: string -> bool, policy: Policy, stamp: string) returns (s: State)
    ensures Reachable(accepts, s) && s.events == [] && s.queue == {} && s.clients == []
    ensures s.backups.Keys == {"b"} && s.backups["b"].spec == Backup(policy.(enabled := true), false, false, Some(stamp), 0)
    ensures s.worker == Notifying("b", s.backups["b"].spec)
  {
    EmptyRun(accepts);
    ReachableStep(accepts, Initial, DoCreate("b", policy, stamp, 0));
    s := Create(Initial, "b", policy, stamp, 0);
    hide Reachable, ParseToCron;
    ReachableStep(accepts, s, DoDeliver);
    s := Deliver(s);
    ReachableStep(accepts, s, DoTake("b"));
    s := Take(s, "b");
    ReachableStep(accepts, s, DoLook(true));
    s := Look(s, true);
    ReachableStep(accepts, s, DoBranch);
    s := Branch(s);
  }

  /** It happens: a size update within the same second leaves the backup without its flag, and
      nobody looks at it any more. */
  lemma SameStampIsMuted(accepts: string -> bool, policy: Policy, stamp: string)
    requires accepts(ParseToCron(policy.(enabled := true)))
    ensures exists s ::
      && Reachable(accepts, s) && (forall a :: !Works(s, a))
      && "b" in s.backups && !s.backups["b"].spec.notified && s.backups["b"].spec.sizeUpdated == Some(stamp)
  {
    var s := Announced(accepts, policy, stamp);
    hide Reachable, ParseToCron;
    ReachableStep(accepts, s, DoRead("b", SetSize(stamp, 1)));
    s := ReadForChange(s, "b", SetSize(stamp, 1));
    ReachableStep(accepts, s, DoSend(0, true));
    s := SendChange(s, 0, true);
    ReachableStep(accepts, s, DoDeliver);
    s := Deliver(s);
    assert forall a :: !Works(s, a);
  }
}
