/** A task that has lost its context is past its start: its snapshot waits in no lane, and is
    never submitted again. */
module EngineStopped {
  import opened Options
  import opened Snapshots
  import opened Versioned
  import opened Engine
  import opened EngineInvariants
  import opened EngineEffects
  import opened EngineOnce
  import opened EngineRecovery

  /** Not waiting in any lane, and not to be submitted. */
  predicate Past(s: State, id: Id) {
    && id in s.created && (id in s.submitted || BeforeStart(s, id))
    && (forall o :: o in s.lanes ==> id !in s.lanes[o].queue)
  }

  predicate StoppedOut(s: State) {
    forall id :: id in s.stopped ==> Past(s, id)
  }

  /** Nothing enters a queue, and nothing that was handed out comes back. */
  predicate NoNew(s: State, t: State) {
    && t.start == s.start && t.submitted == s.submitted
    && (forall id :: id in s.created ==> id in t.created && t.created[id] == s.created[id])
    && (forall o, id :: o in t.lanes && id in t.lanes[o].queue ==> o in s.lanes && id in s.lanes[o].queue)
  }

  lemma QuietStopped(s: State, t: State)
    requires StoppedOut(s) && NoNew(s, t) && t.stopped == s.stopped
    ensures StoppedOut(t)
  {
    forall id | id in t.stopped ensures Past(t, id) { assert Past(s, id); }
  }

  lemma RunningIsPast(s: State, o: Owner)
    requires Sound(s) && OnceInv(s) && Runs(s, o)
    ensures Past(s, TaskOf(s, o).id)
  {
    var id := TaskOf(s, o).id;
    assert LaneShape(s, o, s.lanes[o]) && LaneOnce(s, s.lanes[o]);
    forall p | p in s.lanes ensures id !in s.lanes[p].queue {
      assert LaneShape(s, p, s.lanes[p]) && LaneOnce(s, s.lanes[p]);
      assert TaskHome(s, o, id);
    }
  }

  lemma MoreStopped(s: State, o: Owner)
    requires Sound(s) && OnceInv(s) && StoppedOut(s) && Runs(s, o)
    ensures StoppedOut(s.(stopped := s.stopped + {TaskOf(s, o).id}))
  {
    RunningIsPast(s, o);
    var t := s.(stopped := s.stopped + {TaskOf(s, o).id});
    hide Sound, OnceInv;
    forall id | id in t.stopped ensures Past(t, id) { assert Past(s, id); }
  }

  lemma StoreStopped(s: State, a: StoreAction)
    requires Sound(s) && OnceInv(s) && StoppedOut(s)
    ensures StoppedOut(StoreStep(s, a))
  {
    if a.DoStopBackup? {
      if a.b in s.owner && Runs(s, s.owner[a.b]) { MoreStopped(s, s.owner[a.b]); }
    } else {
      hide AllHeld, OnceInv, StoppedOut;
      QuietStopped(s, StoreStep(s, a));
    }
  }

  lemma ClientStopped(s: State, n: nat, a: ClientAction)
    requires StoppedOut(s)
    ensures StoppedOut(ClientStep(s, n, a))
  {
    hide StoppedOut;
    QuietStopped(s, ClientStep(s, n, a));
  }

  lemma CalmNoNew(s: State, o: Owner, t: State)
    requires TaskCalm(s, o, t)
    ensures NoNew(s, t) && t.stopped == s.stopped
  {
    hide PcNext;
  }

  lemma CommitNoNew(s: State, o: Owner, t: State)
    requires TaskStarts(s, o, t) || TaskFinishes(s, o, t)
    ensures NoNew(s, t) && t.stopped == s.stopped
  {
    hide Held, HeldByTask, Fresh;
  }

  lemma TaskStopped(s: State, o: Owner, a: TaskAction)
    requires Sound(s) && StoppedOut(s)
    ensures StoppedOut(TaskStep(s, o, a))
  {
    var t := TaskStep(s, o, a);
    TaskEffect(s, o, a);
    hide TaskStep, Sound, StoppedOut, TaskCalm, TaskStarts, TaskFinishes, NoNew;
    if t != s {
      if TaskCalm(s, o, t) { CalmNoNew(s, o, t); } else { CommitNoNew(s, o, t); }
      QuietStopped(s, t);
    }
  }

  lemma SubmitStopped(s: State, accepted: bool)
    requires Sound(s) && OnceInv(s) && StoppedOut(s)
    ensures StoppedOut(Dispatch(s, accepted))
  {
    var t := Dispatch(s, accepted);
    if Submits(s, accepted) {
      SubmitOnce(s, accepted);
      hide Sound, OnceInv;
      assert s.worker.id !in s.stopped by { assert s.worker.id in s.stopped ==> Past(s, s.worker.id); }
      forall id | id in t.stopped ensures Past(t, id) { PastPush(s, accepted, id); }
    } else {
      hide Sound, OnceInv, StoppedOut;
      QuietStopped(s, t);
    }
  }

  lemma PastPush(s: State, accepted: bool, id: Id)
    requires StoppedOut(s) && id in s.stopped && Submits(s, accepted) && id != s.worker.id
    ensures Past(Dispatch(s, accepted), id)
  {
    assert Past(s, id);
    hide StoppedOut;
  }

  lemma NotifyStopped(s: State, ok: bool)
    requires Sound(s) && OnceInv(s) && StoppedOut(s)
    ensures StoppedOut(Notify(s, ok))
  {
    var t := StopFound(s);
    if t != s { MoreStopped(s, s.owner[s.worker.obj.spec.backup]); }
    hide Sound, OnceInv, StoppedOut, StopFound;
    QuietStopped(t, Notify(s, ok));
  }

  lemma WorkerStopped(s: State, a: WorkerAction)
    requires Sound(s) && OnceInv(s) && StoppedOut(s)
    ensures StoppedOut(WorkerStep(s, a))
  {
    if a.DoDispatch? {
      SubmitStopped(s, a.accepted);
    } else if a.DoNotify? {
      NotifyStopped(s, a.ok);
    } else if a.DoFixCommit? || a.DoFlagCommit? {
      hide Sound, OnceInv, StoppedOut;
      QuietStopped(s, WorkerStep(s, a));
    } else {
      hide Sound, OnceInv, StoppedOut;
      HandStopped(s, a);
    }
  }

  predicate SameOut(s: State, t: State) {
    && t.start == s.start && t.created == s.created && t.submitted == s.submitted
    && t.lanes == s.lanes && t.stopped == s.stopped
  }

  lemma SameStopped(s: State, t: State)
    requires StoppedOut(s) && SameOut(s, t)
    ensures StoppedOut(t)
  {
    hide StoppedOut;
    QuietStopped(s, t);
  }

  lemma QueueStopped(s: State, id: Id)
    requires StoppedOut(s)
    ensures StoppedOut(Deliver(s)) && StoppedOut(Take(s, id)) && StoppedOut(Retry(s))
  {
    hide StoppedOut, NoNew;
    SameStopped(s, Deliver(s));
    SameStopped(s, Take(s, id));
    SameStopped(s, Retry(s));
  }

  lemma ReadStopped(s: State, rest: int)
    requires StoppedOut(s)
    ensures StoppedOut(ReadSnapshot(s)) && StoppedOut(ReadBackup(s)) && StoppedOut(FixRead(s, rest))
  {
    hide StoppedOut, NoNew;
    SameStopped(s, ReadSnapshot(s));
    SameStopped(s, ReadBackup(s));
    SameStopped(s, FixRead(s, rest));
  }

  lemma SeekStopped(s: State)
    requires StoppedOut(s)
    ensures StoppedOut(Seek(s))
  {
    hide StoppedOut, NoNew, InRun;
    SameStopped(s, Seek(s));
  }

  lemma GiveUpStopped(s: State)
    requires StoppedOut(s)
    ensures StoppedOut(GiveUp(s))
  {
    hide StoppedOut, NoNew;
    match s.worker
    case Fixing(id) => SameStopped(s, s.(worker := Idle, unfixed := s.unfixed + {id}));
    case FixWriting(w) => SameStopped(s, s.(worker := Idle, unfixed := s.unfixed + {w.id}));
    case FlagWriting(w) => SameStopped(s, s.(worker := Idle, unflagged := s.unflagged + {w.id}));
    case _ =>
  }

  lemma HandStopped(s: State, a: WorkerAction)
    requires StoppedOut(s) && !a.DoDispatch? && !a.DoNotify? && !a.DoFixCommit? && !a.DoFlagCommit?
    ensures StoppedOut(WorkerStep(s, a))
  {
    hide StoppedOut, Deliver, Take, Retry, ReadSnapshot, ReadBackup, FixRead, Seek, GiveUp;
    match a
    case DoDeliver => QueueStopped(s, "");
    case DoTake(id) => QueueStopped(s, id);
    case DoRetry => QueueStopped(s, "");
    case DoReadSnapshot => ReadStopped(s, 0);
    case DoReadBackup => ReadStopped(s, 0);
    case DoFixRead(rest) => ReadStopped(s, rest);
    case DoSeek => SeekStopped(s);
    case DoGiveUp => GiveUpStopped(s);
  }

  lemma RestartStopped(s: State, order: seq<Id>)
    requires Shape(s) && StoppedOut(s)
    ensures StoppedOut(Restart(s, order))
  {
    var t := Restart(s, order);
    if t.stopped != {} && Lists(order, s.snaps.Keys) {
      forall id | id in t.stopped ensures Past(t, id) { assert Past(s, id); }
    }
  }

  lemma StoppedStep(s: State, a: Action)
    requires Sound(s) && OnceInv(s) && StoppedOut(s)
    ensures StoppedOut(Step(s, a))
  {
    hide Shape, AllHeld, OnceInv, StoppedOut;
    match a
    case OnStore(b) => StoreStopped(s, b);
    case OnClient(n, b) => ClientStopped(s, n, b);
    case OnTask(o, b) => TaskStopped(s, o, b);
    case OnWorker(b) => WorkerStopped(s, b);
    case OnRestart(order) => RestartStopped(s, order);
  }
}
