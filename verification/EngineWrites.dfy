/** The updates in flight, place by place, and what one step can do to a stored snapshot. */
module EngineWrites {
  import opened Options
  import opened Snapshots
  import opened Versioned
  import opened Engine
  import opened EngineInvariants
  import opened EngineEffects
  import opened EngineHistory

  /** Where an update can wait to be sent. */
  datatype Place = AtClient(n: nat) | AtLane(o: Owner) | AtWorker

  function WriteAt(s: State, at: Place): Option<Update> {
    match at
    case AtClient(n) => if n in s.clients && s.clients[n].Writing? then Some(s.clients[n].w) else None
    case AtLane(o) =>
      if !Runs(s, o) then None
      else (match TaskOf(s, o).pc
            case Starting(_, w) => Some(w)
            case Saving(_, _, w) => Some(w)
            case _ => None)
    case AtWorker =>
      match s.worker
      case FixWriting(w) => Some(w)
      case FlagWriting(w) => Some(w)
      case _ => None
  }

  /** The context that it is sent on has not ended: progress and the writes of a task go out on
      the context of the task. */
  predicate Sendable(s: State, at: Place) {
    match at
    case AtClient(n) =>
      n in s.clients && s.clients[n].Writing? && s.clients[n].actor.ByProgress? ==> s.clients[n].w.id !in s.stopped
    case AtLane(o) => Runs(s, o) ==> TaskOf(s, o).id !in s.stopped
    case AtWorker => true
  }

  /** An update of the snapshot waits there, can be sent, and the server would accept it. */
  predicate Armed(s: State, at: Place, id: Id) {
    && WriteAt(s, at).Some? && WriteAt(s, at).value.id == id
    && Sendable(s, at) && Fresh(s.snaps, WriteAt(s, at).value)
  }

  function Written(s: State, at: Place): Spec
    requires WriteAt(s, at).Some?
  {
    WriteAt(s, at).value.next
  }

  /** The step that sends it. */
  function Send(s: State, at: Place): Action
    requires WriteAt(s, at).Some?
  {
    match at
    case AtClient(n) => OnClient(n, DoCommit)
    case AtLane(o) => OnTask(o, if TaskOf(s, o).pc.Starting? then DoStartCommit else DoResultCommit)
    case AtWorker => OnWorker(if s.worker.FixWriting? then DoFixCommit else DoFlagCommit)
  }

  lemma ClientSends(s: State, n: nat, id: Id)
    requires Armed(s, AtClient(n), id)
    ensures id in ClientCommit(s, n).snaps && ClientCommit(s, n).snaps[id].spec == Written(s, AtClient(n))
  {
  }

  lemma LaneStarts(s: State, o: Owner, id: Id)
    requires Armed(s, AtLane(o), id) && TaskOf(s, o).pc.Starting?
    ensures id in TaskStartCommit(s, o).snaps && TaskStartCommit(s, o).snaps[id].spec == Written(s, AtLane(o))
  {
  }

  lemma LaneFinishes(s: State, o: Owner, id: Id)
    requires Armed(s, AtLane(o), id) && TaskOf(s, o).pc.Saving?
    ensures id in TaskResultCommit(s, o).snaps && TaskResultCommit(s, o).snaps[id].spec == Written(s, AtLane(o))
  {
  }

  lemma WorkerSends(s: State, id: Id)
    requires Armed(s, AtWorker, id)
    ensures s.worker.FixWriting? ==> id in FixCommit(s).snaps && FixCommit(s).snaps[id].spec == Written(s, AtWorker)
    ensures s.worker.FlagWriting? ==> id in FlagCommit(s).snaps && FlagCommit(s).snaps[id].spec == Written(s, AtWorker)
  {
  }

  lemma SendCommits(s: State, at: Place, id: Id)
    requires Armed(s, at, id)
    ensures
      var t := Step(s, Send(s, at));
      id in t.snaps && t.snaps[id].spec == Written(s, at)
  {
    assert WriteAt(s, at).Some?;
    hide Armed, Written, ClientCommit, TaskStartCommit, TaskResultCommit, FixCommit, FlagCommit;
    match at
    case AtClient(n) => ClientSends(s, n, id);
    case AtLane(o) =>
      if TaskOf(s, o).pc.Starting? { LaneStarts(s, o, id); } else { LaneFinishes(s, o, id); }
    case AtWorker => WorkerSends(s, id);
  }

  lemma CommitChange(s: State, actor: Actor, w: Update, t: State, id: Id)
    requires Commits(s, actor, w, t) && id in s.snaps && (id in t.snaps ==> t.snaps[id] != s.snaps[id])
    ensures w.id == id && Fresh(s.snaps, w) && id in t.snaps && t.snaps[id].spec == w.next
  {
  }

  lemma ClientChange(s: State, n: nat, a: ClientAction, id: Id)
    requires Sound(s)
    requires var t := ClientStep(s, n, a); id in s.snaps && (id in t.snaps ==> t.snaps[id] != s.snaps[id])
    ensures Armed(s, AtClient(n), id) && ClientStep(s, n, a).snaps[id].spec == Written(s, AtClient(n))
  {
    var t := ClientStep(s, n, a);
    ClientEffect(s, n, a);
    hide ClientStep, Sound, Commits;
    if ClientCommits(s, n, t) { CommitChange(s, s.clients[n].actor, s.clients[n].w, t, id); }
  }

  lemma TaskChange(s: State, o: Owner, a: TaskAction, id: Id)
    requires Sound(s)
    requires var t := TaskStep(s, o, a); id in s.snaps && (id in t.snaps ==> t.snaps[id] != s.snaps[id])
    ensures Armed(s, AtLane(o), id) && TaskStep(s, o, a).snaps[id].spec == Written(s, AtLane(o))
  {
    var t := TaskStep(s, o, a);
    TaskEffect(s, o, a);
    hide TaskStep, Sound, TaskCalm, TaskStarts, TaskFinishes, Armed, WriteAt;
    if TaskCalm(s, o, t) {
      CalmKeeps(s, o, t);
    } else if TaskStarts(s, o, t) {
      StartChange(s, o, t, id);
    } else if TaskFinishes(s, o, t) {
      FinishChange(s, o, t, id);
    }
  }

  lemma CalmKeeps(s: State, o: Owner, t: State)
    requires TaskCalm(s, o, t)
    ensures t.snaps == s.snaps
  {
    hide LaneNext;
  }

  lemma StartChange(s: State, o: Owner, t: State, id: Id)
    requires TaskStarts(s, o, t) && id in s.snaps && (id in t.snaps ==> t.snaps[id] != s.snaps[id])
    ensures Armed(s, AtLane(o), id) && id in t.snaps && t.snaps[id].spec == Written(s, AtLane(o))
  {
    hide Commits;
    CommitChange(s, ByStart(TaskOf(s, o).id), TaskOf(s, o).pc.w, t, id);
  }

  lemma FinishChange(s: State, o: Owner, t: State, id: Id)
    requires TaskFinishes(s, o, t) && id in s.snaps && (id in t.snaps ==> t.snaps[id] != s.snaps[id])
    ensures Armed(s, AtLane(o), id) && id in t.snaps && t.snaps[id].spec == Written(s, AtLane(o))
  {
    hide Commits;
    CommitChange(s, ByFinish(TaskOf(s, o).id), TaskOf(s, o).pc.w, t, id);
  }

  lemma WorkerChange(s: State, a: WorkerAction, id: Id)
    requires Sound(s)
    requires var t := WorkerStep(s, a); id in s.snaps && (id in t.snaps ==> t.snaps[id] != s.snaps[id])
    ensures Armed(s, AtWorker, id) && WorkerStep(s, a).snaps[id].spec == Written(s, AtWorker)
  {
    var t := WorkerStep(s, a);
    WorkerEffect(s, a);
    hide WorkerStep, Sound, WorkerCommits, WorkerCalm, Armed, WriteAt;
    if WorkerCommits(s, t) {
      WorkerWriteChange(s, t, id);
    } else if WorkerCalm(s, t) {
      WorkerKeeps(s, t);
    }
  }

  lemma WorkerKeeps(s: State, t: State)
    requires WorkerCalm(s, t)
    ensures t.snaps == s.snaps
  {
  }

  lemma WorkerWriteChange(s: State, t: State, id: Id)
    requires WorkerCommits(s, t) && id in s.snaps && (id in t.snaps ==> t.snaps[id] != s.snaps[id])
    ensures Armed(s, AtWorker, id) && id in t.snaps && t.snaps[id].spec == Written(s, AtWorker)
  {
    hide Commits;
    CommitChange(s, if s.worker.FixWriting? then ByRecovery else ByNotify, s.worker.w, t, id);
  }

  lemma StoreKeeps(s: State, a: StoreAction, id: Id)
    requires id in s.snaps && id in s.home && id in StoreStep(s, a).snaps
    ensures StoreStep(s, a).snaps[id] == s.snaps[id]
  {
  }

  lemma RestartKeeps(s: State, order: seq<Id>)
    ensures Restart(s, order).snaps == s.snaps
  {
  }

  /** A stored snapshot changes only by an update that was waiting for it. */
  lemma ChangeWasArmed(s: State, a: Action, id: Id) returns (at: Place)
    requires Sound(s) && id in s.snaps && id in s.home
    requires id in Step(s, a).snaps && Step(s, a).snaps[id] != s.snaps[id]
    ensures Armed(s, at, id) && Step(s, a).snaps[id].spec == Written(s, at)
  {
    hide Sound, StoreStep, ClientStep, TaskStep, WorkerStep, Restart, Armed, WriteAt, Written;
    match a
    case OnClient(n, b) =>
      ClientChange(s, n, b, id);
      at := AtClient(n);
    case OnTask(o, b) =>
      TaskChange(s, o, b, id);
      at := AtLane(o);
    case OnWorker(b) =>
      WorkerChange(s, b, id);
      at := AtWorker;
    case OnStore(b) => StoreKeeps(s, b, id);
    case OnRestart(order) => RestartKeeps(s, order);
  }
}
