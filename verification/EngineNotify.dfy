/** A result notification is sent and flagged at least once: a finished snapshot that does not
    carry the flag is still on its way through the reconciler. */
module EngineNotify {
  import opened Options
  import opened Snapshots
  import opened Versioned
  import opened Engine
  import opened EngineInvariants
  import opened EngineEffects

  /** Finished, not flagged, and not because the write of the flag was given up. */
  predicate Owed(s: State, id: Id) {
    && id in s.snaps && Terminal(s.snaps[id].spec.phase)
    && s.snaps[id].spec.backup in s.backups
    && !s.snaps[id].spec.pushed && id !in s.unflagged
  }

  predicate Undelivered(s: State, id: Id) {
    exists i :: 0 <= i < |s.events| && s.events[i].id == id && Passes(s.events[i])
  }

  /** The worker holds the key in a way that ends in a notification, in the flag of one, or back
      in the queue. */
  predicate InHand(s: State, id: Id) {
    match s.worker
    case Taken(k) => k == id
    case Read(k, obj) => k == id && Terminal(obj.spec.phase)
    case Ready(k, obj) => k == id && Terminal(obj.spec.phase)
    case Seeking(k, _, _) => k == id
    case FlagWriting(w) => w.id == id
    case _ => false
  }

  predicate OnItsWay(s: State, id: Id) {
    id in s.queue || Undelivered(s, id) || InHand(s, id)
  }

  ghost predicate NotifyInv(s: State) {
    (forall id :: Owed(s, id) ==> OnItsWay(s, id)) && s.unflagged <= s.sent
  }

  /** Steps that lose no key and make nothing new owed. */
  lemma NotifyQuiet(s: State, t: State)
    requires NotifyInv(s)
    requires s.queue <= t.queue && t.worker == s.worker && s.events <= t.events
    requires t.unflagged == s.unflagged && t.sent == s.sent
    requires forall id :: Owed(t, id) ==> Owed(s, id)
    ensures NotifyInv(t)
  {
    forall id | Owed(t, id) ensures OnItsWay(t, id) {
      if Undelivered(s, id) {
        var i :| 0 <= i < |s.events| && s.events[i].id == id && Passes(s.events[i]);
        assert t.events[i] == s.events[i];
      }
    }
  }

  /** A write that finishes a snapshot raises an event that the filter lets through, unless
      nothing changed or the result carries its flag. */
  lemma NotifyCommits(s: State, actor: Actor, w: Update, t: State)
    requires NotifyInv(s) && Commits(s, actor, w, t) && Shape(s)
    requires t.worker == s.worker
      || (t.worker.Idle? && (s.worker.FixWriting? || (s.worker.FlagWriting? && s.worker.w == w && actor.ByNotify?)))
    ensures NotifyInv(t)
  {
    forall id | Owed(t, id) ensures OnItsWay(t, id) {
      assert t.events[|s.events|] == Updated(w.id, s.snaps[w.id].spec, w.next);
      if id != w.id || w.next == s.snaps[w.id].spec {
        assert Owed(s, id);
        if Undelivered(s, id) {
          var i :| 0 <= i < |s.events| && s.events[i].id == id && Passes(s.events[i]);
          assert t.events[i] == s.events[i];
        }
      }
    }
  }

  lemma NotifyStore(s: State, a: StoreAction)
    requires Sound(s) && NotifyInv(s)
    ensures NotifyInv(StoreStep(s, a))
  {
    hide Passes;
    NotifyQuiet(s, StoreStep(s, a));
  }

  lemma NotifyClient(s: State, n: nat, a: ClientAction)
    requires Sound(s) && NotifyInv(s)
    ensures NotifyInv(ClientStep(s, n, a))
  {
    var t := ClientStep(s, n, a);
    ClientEffect(s, n, a);
    hide ClientStep, AllHeld, Passes;
    if ClientCommits(s, n, t) {
      NotifyCommits(s, s.clients[n].actor, s.clients[n].w, t);
    } else {
      NotifyQuiet(s, t);
    }
  }

  lemma NotifyTask(s: State, o: Owner, a: TaskAction)
    requires Sound(s) && NotifyInv(s)
    ensures NotifyInv(TaskStep(s, o, a))
  {
    var t := TaskStep(s, o, a);
    TaskEffect(s, o, a);
    hide TaskStep, AllHeld, Passes;
    if TaskStarts(s, o, t) {
      NotifyCommits(s, ByStart(TaskOf(s, o).id), TaskOf(s, o).pc.w, t);
    } else if TaskFinishes(s, o, t) {
      NotifyCommits(s, ByFinish(TaskOf(s, o).id), TaskOf(s, o).pc.w, t);
    } else {
      NotifyQuiet(s, t);
    }
  }

  lemma NotifyDeliver(s: State)
    requires NotifyInv(s)
    ensures NotifyInv(Deliver(s))
  {
    var t := Deliver(s);
    forall id | Owed(t, id) ensures OnItsWay(t, id) {
      assert Owed(s, id);
      if Undelivered(s, id) && id !in t.queue {
        var i :| 0 <= i < |s.events| && s.events[i].id == id && Passes(s.events[i]);
        assert t.events[i - 1] == s.events[i];
      }
    }
  }

  /** The steps of Reconcile itself: events stay, the key in hand is passed on. */
  lemma NotifyReconcile(s: State, t: State)
    requires NotifyInv(s) && t.events == s.events && t.unflagged <= t.sent
    requires forall id :: Owed(t, id) ==> Owed(s, id)
    requires forall id :: Owed(t, id) && (id in s.queue || InHand(s, id)) ==> id in t.queue || InHand(t, id)
    ensures NotifyInv(t)
  {
    forall id | Owed(t, id) ensures OnItsWay(t, id) {
      assert Owed(s, id);
      if Undelivered(s, id) {
        assert Undelivered(t, id);
      }
    }
  }

  lemma NotifyDispatch(s: State, accepted: bool)
    requires NotifyInv(s)
    ensures NotifyInv(Dispatch(s, accepted))
  {
    assert s.unflagged <= s.sent;
    hide NotifyInv, NewlyCreated;
    NotifyReconcile(s, Dispatch(s, accepted));
  }

  lemma NotifyTake(s: State, id: Id)
    requires NotifyInv(s)
    ensures NotifyInv(Take(s, id)) && NotifyInv(Retry(s))
  {
    assert s.unflagged <= s.sent;
    hide NotifyInv;
    NotifyReconcile(s, Take(s, id));
    NotifyReconcile(s, Retry(s));
  }

  lemma NotifyRead(s: State)
    requires Sound(s) && NotifyInv(s)
    ensures NotifyInv(ReadSnapshot(s)) && NotifyInv(ReadBackup(s))
  {
    assert s.unflagged <= s.sent;
    hide NotifyInv, AllHeld, LaneShape;
    NotifyReconcile(s, ReadSnapshot(s));
    NotifyReconcile(s, ReadBackup(s));
  }

  lemma NotifyWriting(s: State, a: WorkerAction)
    requires Sound(s) && NotifyInv(s)
    requires a.DoFixRead? || a.DoGiveUp?
    ensures NotifyInv(WorkerStep(s, a))
  {
    FlagOfSent(s);
    hide Passes, NotifyInv, Sound;
    match a
    case DoFixRead(rest) => NotifyReconcile(s, FixRead(s, rest));
    case DoGiveUp => NotifyReconcile(s, GiveUp(s));
  }

  /** The flag is written for results that were sent. */
  lemma FlagOfSent(s: State)
    requires Sound(s) && NotifyInv(s)
    ensures s.unflagged <= s.sent && (s.worker.FlagWriting? ==> s.worker.w.id in s.sent)
  {
    assert HeldByWorker(s, s.worker);
  }

  lemma NotifySeek(s: State)
    requires Sound(s) && NotifyInv(s)
    ensures NotifyInv(Seek(s))
  {
    FlagOfSent(s);
    hide Passes, NotifyInv, InRun;
    NotifyReconcile(s, Seek(s));
  }

  lemma NotifyNotify(s: State, ok: bool)
    requires NotifyInv(s)
    ensures NotifyInv(Notify(s, ok))
  {
    assert s.unflagged <= s.sent;
    hide NotifyInv, InRun;
    NotifyReconcile(s, Notify(s, ok));
  }

  lemma NotifyWorker(s: State, a: WorkerAction)
    requires Sound(s) && NotifyInv(s)
    ensures NotifyInv(WorkerStep(s, a))
  {
    var t := WorkerStep(s, a);
    match a
    case DoDeliver => NotifyDeliver(s);
    case DoDispatch(accepted) => NotifyDispatch(s, accepted);
    case DoFixCommit => NotifyWorkerCommit(s, a);
    case DoFlagCommit => NotifyWorkerCommit(s, a);
    case DoFixRead(_) => NotifyWriting(s, a);
    case DoSeek => NotifySeek(s);
    case DoNotify(ok) => NotifyNotify(s, ok);
    case DoGiveUp => NotifyWriting(s, a);
    case DoTake(id) => NotifyTake(s, id);
    case DoRetry => NotifyTake(s, "");
    case DoReadSnapshot => NotifyRead(s);
    case DoReadBackup => NotifyRead(s);
  }

  lemma NotifyWorkerCommit(s: State, a: WorkerAction)
    requires Sound(s) && NotifyInv(s)
    requires a.DoFixCommit? || a.DoFlagCommit?
    ensures NotifyInv(WorkerStep(s, a))
  {
    var t := WorkerStep(s, a);
    if t != s {
      NotifyCommits(s, if a.DoFixCommit? then ByRecovery else ByNotify, s.worker.w, t);
    }
  }

  /** The replay lists every owed snapshot again. */
  lemma NotifyRestart(s: State, order: seq<Id>)
    requires Sound(s) && NotifyInv(s)
    ensures NotifyInv(Restart(s, order))
  {
    var t := Restart(s, order);
    if Lists(order, s.snaps.Keys) {
      forall id | Owed(t, id) ensures OnItsWay(t, id) {
        assert id in order;
        var i :| 0 <= i < |order| && order[i] == id;
        assert t.events[i] == Created(id, s.snaps[id].spec);
      }
    }
  }

  lemma NotifyStep(s: State, a: Action)
    requires Sound(s) && NotifyInv(s)
    ensures NotifyInv(Step(s, a))
  {
    hide Sound, NotifyInv;
    match a
    case OnStore(b) => NotifyStore(s, b);
    case OnClient(n, b) => NotifyClient(s, n, b);
    case OnTask(o, b) => NotifyTask(s, o, b);
    case OnWorker(b) => NotifyWorker(s, b);
    case OnRestart(order) => NotifyRestart(s, order);
  }
}
