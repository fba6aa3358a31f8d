/** A snapshot is handed to the pool at most once, and stands in one lane at one place. */
module EngineOnce {
  import opened Options
  import opened Snapshots
  import opened Versioned
  import opened Engine
  import opened EngineInvariants
  import opened EngineEffects

  predicate StillPending(s: State, id: Id) {
    id in s.snaps && s.snaps[id].spec.phase.Pending?
  }

  /** The worker may still submit the key it holds. */
  predicate MaySubmit(s: State, id: Id) {
    match s.worker
    case Taken(k) => k == id
    case Read(k, obj) => k == id
    case Ready(k, obj) => k == id
    case Seeking(k, _, _) => k == id
    case _ => false
  }

  /** The one ticket a pending snapshot has: its create event, its key in the queue, the
      worker holding it, or having been submitted. */
  predicate Tickets(s: State) {
    && (forall i :: 0 <= i < |s.events| && StillPending(s, s.events[i].id) ==>
          && s.events[i].Created?
          && s.events[i].id !in s.queue && !MaySubmit(s, s.events[i].id) && s.events[i].id !in s.submitted)
    && (forall i, j :: 0 <= i < j < |s.events| && StillPending(s, s.events[i].id) ==> s.events[i].id != s.events[j].id)
    && (forall id :: id in s.queue && StillPending(s, id) ==> !MaySubmit(s, id) && id !in s.submitted)
    && (MaySubmit(s, KeyOf(s)) && StillPending(s, KeyOf(s)) ==> KeyOf(s) !in s.submitted)
    && (HasRead(s.worker) && s.worker.obj.spec.phase.Pending? ==> s.worker.id !in s.submitted)
  }

  function KeyOf(s: State): Id {
    match s.worker
    case Taken(k) => k
    case Read(k, obj) => k
    case Ready(k, obj) => k
    case Seeking(k, _, _) => k
    case _ => ""
  }

  predicate Known(s: State) {
    && s.queue <= s.home.Keys
    && s.submitted <= s.home.Keys
    && (MaySubmit(s, KeyOf(s)) ==> KeyOf(s) in s.home)
  }

  predicate LaneOnce(s: State, l: Lane) {
    && (forall i :: 0 <= i < |l.queue| ==> l.queue[i] in s.submitted)
    && (forall i, j :: 0 <= i < j < |l.queue| ==> l.queue[i] != l.queue[j])
    && (l.run.Some? ==> l.run.value.id in s.submitted && l.run.value.id !in l.queue)
  }

  predicate LanesOnce(s: State) {
    forall o :: o in s.lanes ==> LaneOnce(s, s.lanes[o])
  }

  predicate OnceInv(s: State) {
    Known(s) && Tickets(s) && LanesOnce(s)
  }

  /** Steps that hand out no ticket. */
  lemma OnceQuiet(s: State, t: State)
    requires OnceInv(s)
    requires t.queue == s.queue && t.submitted == s.submitted && t.events == s.events && t.worker == s.worker
    requires s.home.Keys <= t.home.Keys
    requires forall id :: StillPending(t, id) ==> StillPending(s, id)
    requires forall o :: o in t.lanes ==> LaneOnce(s, t.lanes[o])
    ensures OnceInv(t)
  {
    forall o | o in t.lanes ensures LaneOnce(t, t.lanes[o]) {
      assert LaneOnce(s, t.lanes[o]);
    }
  }

  /** No write leaves a snapshot pending. */
  lemma OnceCommits(s: State, actor: Actor, w: Update, t: State)
    requires Shape(s) && OnceInv(s) && Commits(s, actor, w, t)
    requires t.worker == s.worker || t.worker.Idle?
    requires forall o :: o in t.lanes ==> LaneOnce(s, t.lanes[o])
    ensures OnceInv(t)
  {
    CommitTickets(s, actor, w, t);
    forall o | o in t.lanes ensures LaneOnce(t, t.lanes[o]) {
      assert LaneOnce(s, t.lanes[o]);
    }
    hide Shape, Tickets, Held, Fresh;
  }

  lemma CommitTickets(s: State, actor: Actor, w: Update, t: State)
    requires Tickets(s) && Commits(s, actor, w, t)
    requires t.worker == s.worker || t.worker.Idle?
    ensures Tickets(t)
  {
    assert !StillPending(t, w.id);
    assert forall i :: 0 <= i < |s.events| ==> t.events[i] == s.events[i];
  }

  lemma LaneOnceNext(s: State, o: Owner, t: State)
    requires OnceInv(s) && o in s.lanes && o in t.lanes && LaneNext(s, s.lanes[o], t.lanes[o])
    ensures LaneOnce(s, t.lanes[o])
  {
    assert LaneOnce(s, s.lanes[o]);
  }

  lemma OnceStore(s: State, a: StoreAction)
    requires Sound(s) && OnceInv(s)
    ensures OnceInv(StoreStep(s, a))
  {
    if a.DoAddSnapshot? {
      OnceAddSnapshot(s, a.id, a.b, a.created, a.rest);
    } else {
      hide AllHeld;
      OnceQuiet(s, StoreStep(s, a));
    }
  }

  lemma TicketsAdd(s: State, id: Id, b: Id, created: int, rest: int)
    requires Known(s) && Tickets(s) && id !in s.home
    requires forall i :: 0 <= i < |s.events| ==> s.events[i].id in s.home
    ensures Tickets(AddSnapshot(s, id, b, created, rest))
  {
    var t := AddSnapshot(s, id, b, created, rest);
    assert forall k :: k != id ==> StillPending(t, k) == StillPending(s, k);
    assert forall i :: 0 <= i < |s.events| ==> t.events[i] == s.events[i] && t.events[i].id != id;
  }

  lemma OnceAddSnapshot(s: State, id: Id, b: Id, created: int, rest: int)
    requires Sound(s) && OnceInv(s)
    ensures OnceInv(AddSnapshot(s, id, b, created, rest))
  {
    var t := AddSnapshot(s, id, b, created, rest);
    if t != s {
      forall o | o in t.lanes ensures LaneOnce(t, t.lanes[o]) {
        assert LaneOnce(s, t.lanes[o]);
      }
      EventsKnown(s);
      hide LaneOnce, Shape, AllHeld;
      TicketsAdd(s, id, b, created, rest);
    }
  }

  lemma OnceClient(s: State, n: nat, a: ClientAction)
    requires Sound(s) && OnceInv(s)
    ensures OnceInv(ClientStep(s, n, a))
  {
    var t := ClientStep(s, n, a);
    ClientEffect(s, n, a);
    hide ClientStep, AllHeld, Tickets;
    if ClientCommits(s, n, t) {
      OnceCommits(s, s.clients[n].actor, s.clients[n].w, t);
    } else {
      OnceQuiet(s, t);
    }
  }

  lemma OnceTaskStarts(s: State, o: Owner, t: State)
    requires Shape(s) && OnceInv(s) && TaskStarts(s, o, t)
    ensures OnceInv(t)
  {
    assert LaneOnce(s, s.lanes[o]);
    OnceCommits(s, ByStart(TaskOf(s, o).id), TaskOf(s, o).pc.w, t);
  }

  lemma OnceTaskFinishes(s: State, o: Owner, t: State)
    requires Shape(s) && OnceInv(s) && TaskFinishes(s, o, t)
    ensures OnceInv(t)
  {
    assert LaneOnce(s, s.lanes[o]);
    OnceCommits(s, ByFinish(TaskOf(s, o).id), TaskOf(s, o).pc.w, t);
  }

  lemma OnceTaskCalm(s: State, o: Owner, t: State)
    requires OnceInv(s) && TaskCalm(s, o, t)
    ensures OnceInv(t)
  {
    LaneOnceNext(s, o, t);
    OnceQuiet(s, t);
  }

  lemma OnceTask(s: State, o: Owner, a: TaskAction)
    requires Sound(s) && OnceInv(s)
    ensures OnceInv(TaskStep(s, o, a))
  {
    var t := TaskStep(s, o, a);
    TaskEffect(s, o, a);
    hide TaskStep, AllHeld, OnceInv, TaskStarts, TaskFinishes, TaskCalm;
    if TaskStarts(s, o, t) {
      OnceTaskStarts(s, o, t);
    } else if TaskFinishes(s, o, t) {
      OnceTaskFinishes(s, o, t);
    } else if TaskCalm(s, o, t) {
      OnceTaskCalm(s, o, t);
    }
  }

  lemma OnceDeliver(s: State)
    requires Sound(s) && OnceInv(s)
    ensures OnceInv(Deliver(s))
  {
    var t := Deliver(s);
    if s.events != [] {
      assert forall i :: 0 <= i < |t.events| ==> t.events[i] == s.events[i + 1];
      forall o | o in t.lanes ensures LaneOnce(t, t.lanes[o]) {
        assert LaneOnce(s, t.lanes[o]);
      }
    }
  }

  /** The heart of it: what the worker submits was not submitted before. */
  lemma SubmitOnce(s: State, accepted: bool)
    requires OnceInv(s) && Submits(s, accepted)
    ensures s.worker.id !in s.submitted
  {
  }

  lemma LaneOncePush(s: State, l: Lane, id: Id, t: State)
    requires LaneOnce(s, l) && id !in s.submitted && t.submitted == s.submitted + {id}
    ensures LaneOnce(t, l.(queue := l.queue + [id])) && LaneOnce(t, l)
  {
  }

  lemma OnceSubmit(s: State, accepted: bool)
    requires Sound(s) && OnceInv(s) && Submits(s, accepted)
    ensures OnceInv(Dispatch(s, accepted))
  {
    var t := Dispatch(s, accepted);
    var id := s.worker.id;
    SubmitOnce(s, accepted);
    SubmitTickets(s, accepted);
    hide Tickets, Sound;
    forall o | o in t.lanes ensures LaneOnce(t, t.lanes[o]) {
      LaneOncePush(s, LaneOf(s, o), id, t);
    }
  }

  lemma SubmitTickets(s: State, accepted: bool)
    requires Shape(s) && Known(s) && Tickets(s) && Submits(s, accepted)
    ensures Known(Dispatch(s, accepted)) && Tickets(Dispatch(s, accepted))
  {
    hide LaneShape;
  }

  lemma OnceDispatch(s: State, accepted: bool)
    requires Sound(s) && OnceInv(s)
    ensures OnceInv(Dispatch(s, accepted))
  {
    if Submits(s, accepted) {
      OnceSubmit(s, accepted);
    } else {
      NoSubmission(s, accepted);
      hide Sound, OnceInv, Dispatch, Submits;
      OnceWorker(s, Dispatch(s, accepted));
    }
  }

  lemma NoSubmission(s: State, accepted: bool)
    requires !Submits(s, accepted)
    ensures
      var t := Dispatch(s, accepted);
      t == s.(worker := t.worker) && (t.worker == s.worker || t.worker.Idle? || t.worker.Fixing?)
  {
  }

  /** Steps of the worker that only move the key it holds. */
  lemma OnceWorker(s: State, t: State)
    requires OnceInv(s)
    requires t.home == s.home && t.events == s.events && t.snaps == s.snaps && t.lanes == s.lanes
      && t.submitted == s.submitted
    requires forall id :: id in t.queue || MaySubmit(t, id) ==> id in s.queue || MaySubmit(s, id)
    requires forall id :: id in t.queue && MaySubmit(t, id) ==> id in s.queue && MaySubmit(s, id)
    requires HasRead(t.worker) && t.worker.obj.spec.phase.Pending? ==>
      || (s.worker.Taken? && StillPending(s, t.worker.id))
      || (HasRead(s.worker) && s.worker.obj == t.worker.obj && s.worker.id == t.worker.id)
    ensures OnceInv(t)
  {
    forall o | o in t.lanes ensures LaneOnce(t, t.lanes[o]) {
      assert LaneOnce(s, t.lanes[o]);
    }
  }

  lemma OnceTake(s: State, id: Id)
    requires OnceInv(s)
    ensures OnceInv(Take(s, id))
  {
    hide OnceInv;
    OnceWorker(s, Take(s, id));
  }

  lemma OnceRetry(s: State)
    requires OnceInv(s)
    ensures OnceInv(Retry(s))
  {
    hide OnceInv;
    OnceWorker(s, Retry(s));
  }

  lemma OnceFixRead(s: State, rest: int)
    requires OnceInv(s)
    ensures OnceInv(FixRead(s, rest))
  {
    hide OnceInv;
    OnceWorker(s, FixRead(s, rest));
  }

  lemma OnceReadSnapshot(s: State)
    requires OnceInv(s)
    ensures OnceInv(ReadSnapshot(s))
  {
    hide OnceInv;
    OnceWorker(s, ReadSnapshot(s));
  }

  lemma OnceReadBackup(s: State)
    requires OnceInv(s)
    ensures OnceInv(ReadBackup(s))
  {
    hide OnceInv;
    OnceWorker(s, ReadBackup(s));
  }

  lemma OnceSeek(s: State)
    requires OnceInv(s)
    ensures OnceInv(Seek(s))
  {
    hide OnceInv, InRun;
    OnceWorker(s, Seek(s));
  }

  lemma OnceNotify(s: State, ok: bool)
    requires Sound(s) && OnceInv(s)
    ensures OnceInv(Notify(s, ok))
  {
    hide OnceInv, Sound;
    OnceWorker(s, Notify(s, ok));
  }

  lemma OnceGiveUp(s: State)
    requires Sound(s) && OnceInv(s)
    ensures OnceInv(GiveUp(s))
  {
    hide OnceInv, Sound;
    if s.worker.Fixing? || s.worker.FixWriting? || s.worker.FlagWriting? {
      OnceWorker(s, GiveUp(s));
    }
  }

  lemma OnceWorkerCommit(s: State, a: WorkerAction)
    requires Sound(s) && OnceInv(s)
    requires a.DoFixCommit? || a.DoFlagCommit?
    ensures OnceInv(WorkerStep(s, a))
  {
    var t := WorkerStep(s, a);
    if t != s {
      OnceCommits(s, if a.DoFixCommit? then ByRecovery else ByNotify, s.worker.w, t);
    }
  }

  lemma OnceWork(s: State, a: WorkerAction)
    requires Sound(s) && OnceInv(s)
    ensures OnceInv(WorkerStep(s, a))
  {
    hide Sound, OnceInv;
    match a
    case DoDeliver => OnceDeliver(s);
    case DoDispatch(accepted) => OnceDispatch(s, accepted);
    case DoFixCommit => OnceWorkerCommit(s, a);
    case DoFlagCommit => OnceWorkerCommit(s, a);
    case DoReadSnapshot => OnceReadSnapshot(s);
    case DoReadBackup => OnceReadBackup(s);
    case DoSeek => OnceSeek(s);
    case DoNotify(ok) => OnceNotify(s, ok);
    case DoGiveUp => OnceGiveUp(s);
    case DoTake(id) => OnceTake(s, id);
    case DoRetry => OnceRetry(s);
    case DoFixRead(rest) => OnceFixRead(s, rest);
  }

  lemma OnceRestart(s: State, order: seq<Id>)
    requires Sound(s) && OnceInv(s)
    ensures OnceInv(Restart(s, order))
  {
  }

  lemma OnceStep(s: State, a: Action)
    requires Sound(s) && OnceInv(s)
    ensures OnceInv(Step(s, a))
  {
    hide Sound, OnceInv;
    match a
    case OnStore(b) => OnceStore(s, b);
    case OnClient(n, b) => OnceClient(s, n, b);
    case OnTask(o, b) => OnceTask(s, o, b);
    case OnWorker(b) => OnceWork(s, b);
    case OnRestart(order) => OnceRestart(s, order);
  }
}
