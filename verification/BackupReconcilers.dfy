/** The part of Reconcile that works on the cron table, on the table itself, and the steps of the
    controller that stand for it. */
module BackupReconcilers {
  import opened Versioned
  import opened Schedules
  import opened CronTable
  import opened BackupControl

  /** What one call does to the table for the backup it read; `notified` says whether announcing
      it works, where it is still to be announced. When that fails, the table is not touched.
      Otherwise the backup ends with the entry it should have, or, when the expression is refused,
      with none and an error; no other backup's entries move. */
  ghost predicate Settles(accepts: string -> bool, before: seq<Entry>, after: seq<Entry>, id: Id, backup: Backup,
                          notified: bool, ok: bool) {
    var unannounced := !backup.deleted && !backup.notified && !notified;
    var refused := WantedOf(backup) != [] && !accepts(ParseToCron(backup.policy));
    && (!ok <==> unannounced || refused)
    && (ok ==> Of(after, id) == WantedOf(backup))
    && (unannounced ==> after == before)
    && (!unannounced && refused ==> Of(after, id) == [])
    && (forall other :: other != id ==> Of(after, other) == Of(before, other))
  }

  class BackupReconciler {
    const cron: Cron

    constructor (cron: Cron)
      ensures this.cron == cron
    {
      this.cron := cron;
    }

    method ReconcileBackupPolicies(id: Id, policy: Policy) returns (ok: bool)
      requires cron.Valid()
      modifies cron
      ensures cron.Valid()
      ensures ok == cron.accepts(ParseToCron(policy))
      ensures cron.entries == Rescheduled(old(cron.entries), cron.lastId, id, ParseToCron(policy), ok)
    {
      ok := cron.CreateSchedule(id, ParseToCron(policy));
    }

    method Reconcile(id: Id, backup: Backup, notified: bool) returns (ok: bool)
      requires cron.Valid()
      modifies cron
      ensures cron.Valid()
      ensures Settles(cron.accepts, old(cron.entries), cron.entries, id, backup, notified, ok)
    {
      ok := true;
      ghost var before := cron.entries;
      if !backup.deleted && !backup.notified && !notified { return false; }
      if backup.deleted || !backup.policy.enabled {
        cron.RemoveFromSchedule(id);
        forall other ensures Of(cron.entries, other) == if other == id then [] else Of(before, other) {
          OfWithout(before, id, other);
        }
      } else {
        ok := ReconcileBackupPolicies(id, backup.policy);
        var schedule := ParseToCron(backup.policy);
        forall other
          ensures Of(cron.entries, other)
               == if other != id then Of(before, other) else if ok then [schedule] else []
        {
          OfRescheduled(before, cron.lastId, id, schedule, ok, other);
        }
      }
    }
  }

  // ---- the steps of the controller ----

  /** The steps after the read, when nothing comes in between. */
  function Uninterrupted(accepts: string -> bool, s: State, notified: bool): State {
    var t := Branch(s);
    Apply(accepts, if t.worker.Notifying? then NotifyWrite(NotifyRead(t, notified), true) else t)
  }

  /** Announcing leads to the same place, or back into the queue. */
  lemma AnnouncedNext(s: State, notified: bool)
    requires s.worker.Notifying? && s.worker.id in s.backups
    ensures
      var t := NotifyWrite(NotifyRead(s, notified), true);
      && t.entries == s.entries && t.lastId == s.lastId
      && if notified then t.queue == s.queue && t.worker == Applying(s.worker.id, s.worker.read)
         else t.worker.Idle? && s.worker.id in t.queue
  {
  }

  lemma ApplySettles(accepts: string -> bool, s: State, notified: bool)
    requires s.worker.Applying? && s.worker.id !in s.queue && !s.worker.read.deleted
    requires s.worker.read.notified || notified
    ensures
      var id := s.worker.id;
      Settles(accepts, s.entries, Apply(accepts, s).entries, id, s.worker.read, notified, id !in Apply(accepts, s).queue)
  {
    hide ParseToCron, Without, Rescheduled, Of;
    var id := s.worker.id;
    var c := ParseToCron(s.worker.read.policy);
    var t := Apply(accepts, s);
    if s.worker.read.policy.enabled {
      forall other ensures Of(t.entries, other) == if other != id then Of(s.entries, other) else if accepts(c) then [c] else [] {
        OfRescheduled(s.entries, s.lastId + 1, id, c, accepts(c), other);
      }
      assert id in t.queue <==> !accepts(c);
    } else {
      forall other ensures Of(t.entries, other) == if other == id then [] else Of(s.entries, other) {
        OfWithout(s.entries, id, other);
      }
    }
  }

  /** They do what the call does: an error is a key that is queued again. */
  lemma StepsSettle(accepts: string -> bool, s: State, notified: bool)
    requires s.worker.Got? && s.worker.id in s.backups && s.backups[s.worker.id].spec == s.worker.read
    requires s.worker.id !in s.queue
    ensures
      var id := s.worker.id;
      var t := Uninterrupted(accepts, s, notified);
      Settles(accepts, s.entries, t.entries, id, s.worker.read, notified, id !in t.queue)
  {
    hide ParseToCron, Without, Of, NotifyRead, NotifyWrite, Apply;
    var id := s.worker.id;
    var t := Branch(s);
    if s.worker.read.deleted {
      assert Apply(accepts, t) == t by { IdleApply(accepts, t); }
      forall other ensures Of(t.entries, other) == if other == id then [] else Of(s.entries, other) {
        OfWithout(s.entries, id, other);
      }
    } else if s.worker.read.notified {
      ApplySettles(accepts, t, notified);
    } else {
      AnnouncedNext(t, notified);
      var u := NotifyWrite(NotifyRead(t, notified), true);
      if notified { ApplySettles(accepts, u, notified); } else { IdleApply(accepts, u); }
    }
  }

  lemma IdleApply(accepts: string -> bool, s: State)
    requires !s.worker.Applying?
    ensures Apply(accepts, s) == s
  {
  }
}
