/** The results about the backup engine, for every state that any interleaving can reach. */
module EngineTheorems {
  import opened Options
  import opened Snapshots
  import opened Versioned
  import opened Engine
  import opened EngineInvariants
  import opened EngineEffects
  import opened EngineFull
  import opened EngineHistory
  import opened EngineNotify
  import opened EngineOnce
  import opened EngineRecovery
  import opened EngineStopped

  ghost predicate Reachable(s: State) {
    exists steps :: s == Run(Initial, steps)
  }

  ghost predicate Inv(s: State) {
    Sound(s) && FullInv(s) && InOrder(s) && NotifyInv(s) && OnceInv(s) && RecoveryInv(s) && StoppedOut(s)
  }

  lemma InvStep(s: State, a: Action)
    requires Inv(s)
    ensures Inv(Step(s, a))
  {
    hide Sound, FullInv, InOrder, NotifyInv, OnceInv, RecoveryInv, StoppedOut, Step, Later;
    StepSound(s, a);
    FullStep(s, a);
    StepInOrder(s, a);
    NotifyStep(s, a);
    OnceStep(s, a);
    RecoveryStep(s, a);
    StoppedStep(s, a);
  }

  lemma {:induction false} InvRun(s: State, steps: seq<Action>)
    requires Inv(s)
    ensures Inv(Run(s, steps))
    decreases |steps|
  {
    hide Inv, Step;
    if steps != [] {
      InvStep(s, steps[0]);
      InvRun(Step(s, steps[0]), steps[1..]);
    }
  }

  lemma InvInitial()
    ensures Inv(Initial)
  {
  }

  lemma ReachedInv(s: State)
    requires Reachable(s)
    ensures Inv(s)
  {
    hide Inv, Run;
    var steps :| s == Run(Initial, steps);
    InvInitial();
    InvRun(Initial, steps);
  }

  // ---- one full backup ----

  lemma AtMostOneFull(s: State, a: Id, b: Id)
    requires Reachable(s)
    requires a in s.snaps && b in s.snaps && s.snaps[a].spec.backup == s.snaps[b].spec.backup
    requires IsFull(s.snaps[a].spec) && IsFull(s.snaps[b].spec)
    ensures a == b
  {
    hide Reachable;
    ReachedInv(s);
  }

  // ---- notification ----

  /** A finished snapshot of an existing backup whose result has not been sent is on its way to
      the reconciler; and so is one that was sent and not flagged, unless the flag is being
      written or its write was given up. */
  lemma ResultOnItsWay(s: State, id: Id)
    requires Reachable(s)
    requires id in s.snaps && Terminal(s.snaps[id].spec.phase) && s.snaps[id].spec.backup in s.backups
    ensures id !in s.sent ==> id in s.queue || Undelivered(s, id) || (InHand(s, id) && !s.worker.FlagWriting?)
    ensures !s.snaps[id].spec.pushed && id !in s.unflagged ==> OnItsWay(s, id)
  {
    hide Reachable;
    ReachedInv(s);
    FlagOfSent(s);
    assert id !in s.sent ==> Owed(s, id);
  }

  predicate Quiescent(s: State) {
    s.queue == {} && s.events == [] && s.worker.Idle?
  }

  /** When the controller has nothing left to do, every finished snapshot of an existing
      backup has been notified, and carries the flag unless the write of it was given up. */
  lemma NothingOwedAtRest(s: State, id: Id)
    requires Reachable(s) && Quiescent(s)
    requires id in s.snaps && Terminal(s.snaps[id].spec.phase) && s.snaps[id].spec.backup in s.backups
    ensures id in s.sent && (s.snaps[id].spec.pushed || id in s.unflagged)
  {
    hide Reachable;
    ReachedInv(s);
    assert !OnItsWay(s, id);
  }

  // ---- history ----

  lemma ProgressOnlyWhileRunning(s: State, i: nat)
    requires Reachable(s) && i < |s.log| && s.log[i].actor.ByProgress?
    ensures var e := s.log[i];
            e.was.phase.Running? && e.now == e.was.(progress := e.now.progress) && 0 <= e.now.progress < PROGRESS_DONE
  {
    hide Reachable;
    ReachedInv(s);
    assert EntryInOrder(s.log, i);
  }

  lemma CompletedOnlyAfterRunning(s: State, i: nat)
    requires Reachable(s) && i < |s.log| && !s.log[i].was.phase.Completed? && s.log[i].now.phase.Completed?
    ensures s.log[i].actor == ByFinish(s.log[i].id)
    ensures exists j ::
      && 0 <= j < i && s.log[j].id == s.log[i].id
      && s.log[j].actor == ByStart(s.log[i].id) && s.log[j].now.phase.Running?
  {
    hide Reachable;
    ReachedInv(s);
    assert EntryInOrder(s.log, i);
    var j :| 0 <= j < i && s.log[j].actor == ByStart(s.log[i].id) && s.log[j].id == s.log[i].id;
    assert EntryInOrder(s.log, j);
  }

  lemma DoneOnlyWhenCompleted(s: State, i: nat)
    requires Reachable(s) && i < |s.log| && s.log[i].was.progress != PROGRESS_DONE
      && s.log[i].now.progress == PROGRESS_DONE
    ensures s.log[i].actor.ByFinish? && s.log[i].now.phase.Completed?
  {
    hide Reachable;
    ReachedInv(s);
    assert EntryInOrder(s.log, i);
  }

  /** What later states owe to an earlier one. */
  predicate Onward(s: State, t: State) {
    forall id :: id in s.home && id in t.snaps ==>
      && id in s.snaps
      && (!s.snaps[id].spec.phase.Pending? ==> !t.snaps[id].spec.phase.Pending?)
      && (s.snaps[id].spec.pushed ==> t.snaps[id].spec.pushed)
      && s.snaps[id].spec.backup == t.snaps[id].spec.backup
      && s.snaps[id].version <= t.snaps[id].version
  }

  lemma LoggedOnward(s: State, t: State)
    requires Sound(s) && Later(s, t) && Logged(s, t)
    ensures Onward(s, t)
  {
    hide AllHeld, LaneShape;
  }

  lemma OnwardTransitive(s: State, t: State, u: State)
    requires Onward(s, t) && Onward(t, u) && Later(s, t) && Later(t, u)
    ensures Onward(s, u) && Later(s, u)
  {
  }

  lemma OnwardStep(s: State, a: Action)
    requires Sound(s)
    ensures Onward(s, Step(s, a)) && Later(s, Step(s, a)) && Sound(Step(s, a))
  {
    hide Sound, Step, Logged, Onward, Later;
    StepLogged(s, a);
    StepSound(s, a);
    LoggedOnward(s, Step(s, a));
  }

  /** No snapshot returns to Pending, the result flag stays set, and a deleted snapshot stays
      deleted, along every run. */
  lemma {:induction false} OnwardRun(s: State, steps: seq<Action>)
    requires Sound(s)
    ensures Onward(s, Run(s, steps)) && Later(s, Run(s, steps))
    decreases |steps|
  {
    if steps != [] {
      hide Step, Sound;
      OnwardStep(s, steps[0]);
      hide Onward, Later;
      OnwardRun(Step(s, steps[0]), steps[1..]);
      OnwardTransitive(s, Step(s, steps[0]), Run(s, steps));
    }
  }

  /** The retry loop sends the version it read once; a newer write shuts it out for good. */
  lemma StaleNeverCommits(s: State, steps: seq<Action>, w: Update)
    requires Reachable(s) && w.id in s.home && w.version <= s.rv && !Fresh(s.snaps, w)
    ensures !Fresh(Run(s, steps).snaps, w)
  {
    hide Reachable;
    ReachedInv(s);
    OnwardRun(s, steps);
  }

  // ---- submission ----

  lemma SubmittedOnce(s: State, accepted: bool)
    requires Reachable(s) && Submits(s, accepted)
    ensures s.worker.id !in s.submitted && s.worker.id in Dispatch(s, accepted).submitted
  {
    hide Reachable;
    ReachedInv(s);
  }

  predicate StandsAt(s: State, o: Owner, i: int, id: Id) {
    && o in s.lanes
    && -1 <= i < |s.lanes[o].queue|
    && (if i == -1 then s.lanes[o].run.Some? && s.lanes[o].run.value.id == id else s.lanes[o].queue[i] == id)
  }

  /** A submitted snapshot waits or runs at one place only. */
  lemma OnePlace(s: State, o: Owner, i: int, p: Owner, j: int, id: Id)
    requires Reachable(s) && StandsAt(s, o, i, id) && StandsAt(s, p, j, id)
    ensures o == p && i == j && id in s.submitted
  {
    hide Reachable;
    ReachedInv(s);
    assert LaneOnce(s, s.lanes[o]) && LaneShape(s, o, s.lanes[o]) && LaneShape(s, p, s.lanes[p]);
  }

  /** A task that has lost its context waits in no lane: every task starts with its context. */
  lemma WaitingHasContext(s: State, o: Owner, i: nat)
    requires Reachable(s) && o in s.lanes && i < |s.lanes[o].queue|
    ensures s.lanes[o].queue[i] !in s.stopped
  {
    hide Reachable;
    ReachedInv(s);
    assert s.lanes[o].queue[i] in s.stopped ==> Past(s, s.lanes[o].queue[i]);
  }

  // ---- restart ----

  /** When the replay has been worked off, a snapshot that a restart interrupted is Failed, or
      Canceled by a request, provided its backup exists and the write was not given up. */
  lemma InterruptedEnds(s: State, id: Id)
    requires Reachable(s) && Quiescent(s)
    requires id in s.interrupted && id in s.snaps && s.snaps[id].spec.backup in s.backups && id !in s.unfixed
    ensures s.snaps[id].spec.phase.Failed? || s.snaps[id].spec.phase.Canceled?
  {
    hide Reachable;
    ReachedInv(s);
    assert !Stuck(s, id);
  }

  /** Nothing from before the start stands in a lane. */
  lemma InterruptedNeverRuns(s: State, o: Owner, i: int, id: Id)
    requires Reachable(s) && StandsAt(s, o, i, id)
    ensures id in s.created && s.created[id] > s.start
    ensures id in s.snaps ==> id !in s.interrupted
  {
    hide Reachable;
    ReachedInv(s);
    assert LaneOnce(s, s.lanes[o]);
  }

  // ---- longer runs ----

  lemma {:induction false} RunMore(s: State, steps: seq<Action>, a: Action)
    ensures Run(s, steps + [a]) == Step(Run(s, steps), a)
    decreases |steps|
  {
    hide Step;
    if steps == [] {
      assert steps + [a] == [a] && [a][1..] == [];
    } else {
      assert (steps + [a])[1..] == steps[1..] + [a];
      RunMore(Step(s, steps[0]), steps[1..], a);
    }
  }

  lemma ReachableStep(s: State, a: Action)
    requires Reachable(s)
    ensures Reachable(Step(s, a))
  {
    hide Step;
    var steps :| s == Run(Initial, steps);
    RunMore(Initial, steps, a);
  }
}
