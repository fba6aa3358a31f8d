/** The results about the cron table, for every state that any interleaving can reach. */
module BackupTheorems {
  import opened Options
  import opened Versioned
  import opened Schedules
  import opened CronTable
  import opened BackupControl
  import opened BackupCoherence

  ghost predicate Reachable(accepts: string -> bool, s: State) {
    exists steps :: s == Run(accepts, Initial, steps)
  }

  ghost predicate AllAccepted(accepts: string -> bool, entries: seq<Entry>) {
    forall e :: e in entries ==> accepts(e.schedule)
  }

  ghost predicate Inv(accepts: string -> bool, s: State) {
    StoreSound(s) && TableSound(s) && AllAccepted(accepts, s.entries)
  }

  lemma AcceptedStep(accepts: string -> bool, s: State, a: Action)
    requires AllAccepted(accepts, s.entries)
    ensures AllAccepted(accepts, Step(accepts, s, a).entries)
  {
    hide ParseToCron, Passes;
    var t := Step(accepts, s, a);
    if !s.worker.Idle? {
      forall e | e in Without(s.entries, s.worker.id) ensures e in s.entries { WithoutFewer(s.entries, s.worker.id, e); }
    }
  }

  lemma InvStep(accepts: string -> bool, s: State, a: Action)
    requires Inv(accepts, s)
    ensures Inv(accepts, Step(accepts, s, a))
  {
    hide StoreSound, TableSound, AllAccepted, Step;
    StoreStep(accepts, s, a);
    TableStep(accepts, s, a);
    AcceptedStep(accepts, s, a);
  }

  lemma {:induction false} InvRun(accepts: string -> bool, s: State, steps: seq<Action>)
    requires Inv(accepts, s)
    ensures Inv(accepts, Run(accepts, s, steps))
    decreases |steps|
  {
    hide Inv, Step;
    if steps != [] {
      InvStep(accepts, s, steps[0]);
      InvRun(accepts, Step(accepts, s, steps[0]), steps[1..]);
    }
  }

  lemma ReachedInv(accepts: string -> bool, s: State)
    requires Reachable(accepts, s)
    ensures Inv(accepts, s)
  {
    hide Run, StoreSound;
    var steps :| s == Run(accepts, Initial, steps);
    assert StoreSound(Initial) by { InitialStore(); }
    InvRun(accepts, Initial, steps);
  }

  lemma InitialStore()
    ensures StoreSound(Initial)
  {
  }

  /** The table is a cache of the stored policies: a backup whose key is neither queued, nor in
      hand, nor announced by an undelivered event has exactly its wanted entry. */
  lemma TableIsCache(accepts: string -> bool, s: State, id: Id)
    requires Reachable(accepts, s) && !Pending(s, id)
    ensures Of(s.entries, id) == Wanted(s, id)
  {
    hide Reachable, StoreSound, Of, Wanted, Pending;
    ReachedInv(accepts, s);
    assert Agrees(s, id);
  }

  /** Even while it is being changed, the table never holds two entries of one backup, and
      none of a backup that is gone. */
  lemma NeverTwoEntries(accepts: string -> bool, s: State, id: Id)
    requires Reachable(accepts, s)
    ensures |Of(s.entries, id)| <= 1
    ensures id !in s.backups ==> Of(s.entries, id) == []
  {
    hide Reachable, StoreSound, Of;
    ReachedInv(accepts, s);
  }

  /** A backup whose expression the cron library refuses is never given up: its key is queued,
      in hand or announced in every state. */
  lemma RefusedStaysPending(accepts: string -> bool, s: State, id: Id)
    requires Reachable(accepts, s) && id in s.backups
    requires !s.backups[id].spec.deleted && s.backups[id].spec.policy.enabled
    requires !accepts(ParseToCron(s.backups[id].spec.policy))
    ensures Pending(s, id)
  {
    hide Reachable, ParseToCron, Pending;
    if !Pending(s, id) {
      var c := ParseToCron(s.backups[id].spec.policy);
      TableIsCache(accepts, s, id);
      ReachedInv(accepts, s);
      OfHolds(s.entries, id, c);
    }
  }

  lemma {:induction false} OfHolds(entries: seq<Entry>, id: Id, c: string)
    requires c in Of(entries, id)
    ensures exists e :: e in entries && e.name == id && e.schedule == c
  {
    if entries[0].name != id || entries[0].schedule != c {
      assert c in Of(entries[1..], id);
      OfHolds(entries[1..], id, c);
      var e :| e in entries[1..] && e.name == id && e.schedule == c;
      assert e in entries;
    } else {
      assert entries[0] in entries;
    }
  }

  // ---- deletion is final ----

  /** Marked deleted or gone, and nothing older is in the worker's hand. */
  predicate Doomed(s: State, id: Id) {
    && id in s.used
    && (id in s.backups ==> s.backups[id].spec.deleted)
    && (InHand(s, id) ==> match s.worker
                          case Got(_, read) => read.deleted
                          case Taken(_) => true
                          case Deleting(_) => true
                          case _ => false)
  }

  lemma DoomedStep(accepts: string -> bool, s: State, a: Action, id: Id)
    requires StoreSound(s) && Doomed(s, id)
    ensures Doomed(Step(accepts, s, a), id)
    ensures
      var t := Step(accepts, s, a);
      Of(t.entries, id) == [] || Of(t.entries, id) == Of(s.entries, id)
  {
    hide ParseToCron, Passes, Without, Rescheduled, Of;
    assert Of([], id) == [] by { EmptyOf(id); }
    if !s.worker.Idle? { OfWithout(s.entries, s.worker.id, id); }
    if a.DoSend? && a.k < |s.clients| {
      assert SoundWrite(s, s.clients[a.k]);
    }
    if s.worker.Applying? {
      var c := ParseToCron(s.worker.read.policy);
      OfRescheduled(s.entries, s.lastId + 1, s.worker.id, c, accepts(c), id);
    }
  }

  lemma EmptyOf(id: Id)
    ensures Of([], id) == []
  {
  }

  /** From then on, whatever happens, a deleted backup stays deleted and gets no new entry. */
  lemma {:induction false} DeletedStaysUnscheduled(accepts: string -> bool, s: State, steps: seq<Action>, id: Id)
    requires Reachable(accepts, s) && Doomed(s, id)
    ensures
      var t := Run(accepts, s, steps);
      Doomed(t, id) && (Of(t.entries, id) == [] || Of(t.entries, id) == Of(s.entries, id))
    decreases |steps|
  {
    hide Doomed, Of, Step, Reachable;
    if steps != [] {
      ReachedInv(accepts, s);
      DoomedStep(accepts, s, steps[0], id);
      ReachableStep(accepts, s, steps[0]);
      DeletedStaysUnscheduled(accepts, Step(accepts, s, steps[0]), steps[1..], id);
    }
  }

  lemma {:induction false} RunMore(accepts: string -> bool, s: State, steps: seq<Action>, a: Action)
    ensures Run(accepts, s, steps + [a]) == Step(accepts, Run(accepts, s, steps), a)
    decreases |steps|
  {
    hide Step;
    if steps == [] {
      assert steps + [a] == [a] && [a][1..] == [];
    } else {
      assert (steps + [a])[1..] == steps[1..] + [a];
      RunMore(accepts, Step(accepts, s, steps[0]), steps[1..], a);
    }
  }

  lemma ReachableStep(accepts: string -> bool, s: State, a: Action)
    requires Reachable(accepts, s)
    ensures Reachable(accepts, Step(accepts, s, a))
  {
    hide Step, Run;
    var steps :| s == Run(accepts, Initial, steps);
    RunMore(accepts, Initial, steps, a);
  }

  /** A restart begins with an empty table, and looks at every stored backup again. */
  lemma RestartRebuilds(s: State, order: seq<Id>, id: Id)
    requires Lists(order, s.backups.Keys)
    ensures Of(Restart(s, order).entries, id) == []
    ensures id in s.backups ==> OnItsWay(Restart(s, order), id)
  {
    var t := Restart(s, order);
    if id in s.backups {
      var i :| 0 <= i < |order| && order[i] == id;
      assert t.events[i] == Created(id);
    }
  }

  // ---- what a request asks for ----

  /** The entry that a committed request leaves wanted, by the request: a deletion and a
      disabling want none, enabling wants the old policy's again, a new policy its own, and a size
      update what was wanted before. No other backup is concerned. */
  lemma RequestTakesEffect(s: State, id: Id, c: Change)
    requires id in s.backups
    ensures
      var was := s.backups[id].spec;
      var t := SendChange(ReadForChange(s, id, c), |s.clients|, true);
      && id in t.backups
      && (forall other :: other != id ==> Wanted(t, other) == Wanted(s, other))
      && match c
         case Delete => Wanted(t, id) == [] && t.backups[id].spec.deleted
         case Enable(on) => Wanted(t, id) == if on && !was.deleted then [ParseToCron(was.policy)] else []
         case SetPolicy(p) => Wanted(t, id) == if was.deleted then [] else [ParseToCron(p)]
         case SetSize(stamp, _) =>
           Wanted(t, id) == Wanted(s, id) && t.backups[id].spec.sizeUpdated == Some(stamp) && !t.backups[id].spec.notified
  {
  }

  /** Which committed requests the filter lets through: a deletion of a live backup, every other
      request that changes the policy, a size update under a new stamp; and, of a deleted backup,
      whatever changes it. Announcing wakes nobody. */
  lemma WhichRequestsWake(id: Id, was: Backup, c: Change)
    requires Stamped(was)
    ensures Passes(Updated(id, was, Changed(was, c))) <==>
      match c
      case Delete => !was.deleted
      case Enable(on) => was.policy.enabled != on
      case SetPolicy(p) => was.policy != p.(enabled := true)
      case SetSize(stamp, rest) =>
        was.sizeUpdated != Some(stamp) || (was.deleted && (was.notified || was.rest != rest))
    ensures !was.deleted ==> !Passes(Updated(id, was, was.(notified := true)))
  {
  }

  // ---- the size stamp is needed ----

  /** With a deletion that is never taken back, the filter loses a change of the wanted entry
      exactly when a size stamp is missing: it gives up before it compares the policies. */
  lemma FilterLosesOnlyUnstamped(id: Id, was: Backup, now: Backup)
    requires was.deleted ==> now.deleted
    requires WantedOf(was) != WantedOf(now)
    ensures Passes(Updated(id, was, now)) <==> now.deleted || (Stamped(was) && Stamped(now))
  {
    hide ParseToCron;
  }

  // ---- the controller settles ----

  /** A step of the watch or the worker that does something, with every remote call succeeding. */
  predicate Works(s: State, a: Action) {
    match a
    case DoDeliver => s.events != []
    case DoTake(id) => s.worker.Idle? && id in s.queue
    case DoLook(ok) => ok && s.worker.Taken?
    case DoBranch => s.worker.Got?
    case DoFinishDelete(ok) => ok && s.worker.Deleting?
    case DoNotifyRead(ok) => ok && s.worker.Notifying?
    case DoNotifyWrite(ok) => ok && s.worker.FlagWriting?
    case DoApply => s.worker.Applying?
    case _ => false
  }

  predicate Schedulable(accepts: string -> bool, b: Backup) {
    b.policy.enabled ==> accepts(ParseToCron(b.policy))
  }

  ghost predicate AllSchedulable(accepts: string -> bool, s: State) {
    forall id :: id in s.backups ==> Schedulable(accepts, s.backups[id].spec)
  }

  function EventLoad(events: seq<Event>): nat {
    if events == [] then 0 else (if Passes(events[0]) then 12 else 1) + EventLoad(events[1..])
  }

  /** The price of an outdated read: a refused expression, or a deletion missed, sends the key
      back once more. */
  function Penalty(accepts: string -> bool, b: Backup): nat {
    if Schedulable(accepts, b) then 0 else 20
  }

  function MissedDeletion(s: State, id: Id, read: Backup): nat {
    if id in s.backups && s.backups[id].spec.deleted && !read.deleted then 20 else 0
  }

  /** How many more steps the key in hand can cost. */
  function HandLoad(accepts: string -> bool, s: State): nat {
    match s.worker
    case Idle => 0
    case Taken(_) => 10
    case Got(id, read) => 9 + Penalty(accepts, read) + MissedDeletion(s, id, read)
    case Deleting(_) => 1
    case Notifying(id, read) => 8 + Penalty(accepts, read) + MissedDeletion(s, id, read)
    case FlagWriting(id, read, w) =>
      (if Fresh(s.backups, w) then 7 else 20) + Penalty(accepts, read) + MissedDeletion(s, id, read)
    case Applying(_, read) => 1 + Penalty(accepts, read)
  }

  function Load(accepts: string -> bool, s: State): nat {
    11 * |s.queue| + EventLoad(s.events) + HandLoad(accepts, s)
  }

  lemma {:induction false} EventLoadMore(events: seq<Event>, e: Event)
    ensures EventLoad(events + [e]) == EventLoad(events) + if Passes(e) then 12 else 1
  {
    hide Passes;
    if events == [] {
      assert events + [e] == [e] && [e][1..] == [];
    } else {
      assert (events + [e])[1..] == events[1..] + [e];
      EventLoadMore(events[1..], e);
    }
  }

  lemma QueueSize(q: set<Id>, id: Id)
    ensures |q + {id}| <= |q| + 1
    ensures id in q ==> |q - {id}| == |q| - 1
  {
    if id in q { assert q + {id} == q; }
  }

  /** Setting the flag leaves an event that the filter drops. */
  lemma NotifyWorks(accepts: string -> bool, s: State)
    requires StoreSound(s) && HandSound(s) && s.worker.FlagWriting?
    ensures Load(accepts, NotifyWrite(s, true)) < Load(accepts, s)
  {
    hide ParseToCron, EventLoad;
    var w := s.worker.w;
    QueueSize(s.queue, s.worker.id);
    if Fresh(s.backups, w) {
      EventLoadMore(s.events, Updated(w.id, s.backups[w.id].spec, w.next));
    }
  }

  lemma QueueWorks(accepts: string -> bool, s: State, id: Id)
    ensures s.events != [] ==> Load(accepts, Deliver(s)) < Load(accepts, s)
    ensures s.worker.Idle? && id in s.queue ==> Load(accepts, Take(s, id)) < Load(accepts, s)
  {
    hide ParseToCron, Passes;
    QueueSize(s.queue, id);
    if s.events != [] { QueueSize(s.queue, s.events[0].id); }
  }

  lemma HandWorks(accepts: string -> bool, s: State)
    requires HandSound(s) && AllSchedulable(accepts, s)
    ensures s.worker.Taken? ==> Load(accepts, Look(s, true)) < Load(accepts, s)
    ensures s.worker.Got? ==> Load(accepts, Branch(s)) < Load(accepts, s)
    ensures s.worker.Deleting? ==> Load(accepts, FinishDelete(s, true)) < Load(accepts, s)
  {
    hide ParseToCron, Passes, Without, Of, EventLoad;
  }

  lemma SettleWorks(accepts: string -> bool, s: State)
    requires HandSound(s)
    ensures s.worker.Notifying? ==> Load(accepts, NotifyRead(s, true)) < Load(accepts, s)
    ensures s.worker.Applying? ==> Load(accepts, Apply(accepts, s)) < Load(accepts, s)
  {
    hide ParseToCron, Passes, Without, Rescheduled, Of, EventLoad;
    if !s.worker.Idle? { QueueSize(s.queue, s.worker.id); }
  }

  lemma WorkLowersLoad(accepts: string -> bool, s: State, a: Action)
    requires StoreSound(s) && TableSound(s) && AllSchedulable(accepts, s) && Works(s, a)
    ensures Load(accepts, Step(accepts, s, a)) < Load(accepts, s)
  {
    hide Load, TableSound, StoreSound, AllSchedulable, Deliver, Take, Look, Branch, FinishDelete, NotifyRead, NotifyWrite, Apply;
    HandOf(s);
    match a
    case DoDeliver => QueueWorks(accepts, s, "");
    case DoTake(id) => QueueWorks(accepts, s, id);
    case DoNotifyWrite(_) => NotifyWorks(accepts, s);
    case DoNotifyRead(_) => SettleWorks(accepts, s);
    case DoApply => SettleWorks(accepts, s);
    case _ => HandWorks(accepts, s);
  }

  lemma HandOf(s: State)
    requires TableSound(s)
    ensures HandSound(s)
  {
  }

  lemma WorkKeepsSchedulable(accepts: string -> bool, s: State, a: Action)
    requires StoreSound(s) && AllSchedulable(accepts, s) && Works(s, a)
    ensures AllSchedulable(accepts, Step(accepts, s, a))
  {
    hide ParseToCron, Passes, Without, Rescheduled;
    if a.DoNotifyWrite? { assert SoundWrite(s, s.worker.w); }
  }

  ghost predicate AllWork(accepts: string -> bool, s: State, steps: seq<Action>)
    decreases |steps|
  {
    steps != [] ==> Works(s, steps[0]) && AllWork(accepts, Step(accepts, s, steps[0]), steps[1..])
  }

  /** Left alone with working remote calls, the controller cannot be busy for ever: the number
      of steps is bounded, in whatever order they are taken. */
  lemma {:induction false} ControllerSettles(accepts: string -> bool, s: State, steps: seq<Action>)
    requires Reachable(accepts, s) && AllSchedulable(accepts, s) && AllWork(accepts, s, steps)
    ensures |steps| <= Load(accepts, s)
    decreases |steps|
  {
    hide Reachable, AllSchedulable, Works, Step, Load;
    if steps != [] {
      var a := steps[0];
      ReachedInv(accepts, s);
      WorkLowersLoad(accepts, s, a);
      WorkKeepsSchedulable(accepts, s, a);
      ReachableStep(accepts, s, a);
      ControllerSettles(accepts, Step(accepts, s, a), steps[1..]);
    }
  }

  /** And when no step is left to take, the whole table is exactly what the store asks for. */
  lemma SettledTableIsWanted(accepts: string -> bool, s: State, id: Id)
    requires Reachable(accepts, s) && forall a :: !Works(s, a)
    ensures s.events == [] && s.queue == {} && s.worker.Idle?
    ensures Of(s.entries, id) == Wanted(s, id)
  {
    hide Reachable, Of, Wanted;
    assert !Works(s, DoDeliver) && !Works(s, DoLook(true)) && !Works(s, DoBranch) && !Works(s, DoFinishDelete(true));
    assert !Works(s, DoNotifyRead(true)) && !Works(s, DoNotifyWrite(true)) && !Works(s, DoApply);
    assert forall k :: k in s.queue ==> Works(s, DoTake(k));
    TableIsCache(accepts, s, id);
  }
}
