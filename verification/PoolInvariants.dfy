/** What every step of the pool keeps, over all interleavings. */
module PoolInvariants {
  import opened Options
  import opened WorkerPool

  /** Submitted, or being submitted, and not yet past the deferred delete. */
  predicate Live(p: Pool, h: Handle) {
    || h in p.queue
    || p.backups == Stored(h) || p.restores == Stored(h)
    || p.worker == Picked(h) || p.worker == Passed(h) || p.worker == Active(h) || p.worker == Ended(h)
  }

  predicate InMap(p: Pool, h: Handle) {
    h in p.heap && p.heap[h].key in p.tasks && p.tasks[p.heap[h].key] == h
  }

  /** Keys are never shared, and the map holds exactly the live tasks. */
  ghost predicate MapExact(p: Pool) {
    && (forall g, h :: g in p.heap && h in p.heap && p.heap[g].key == p.heap[h].key ==> g == h)
    && (forall k :: k in p.tasks ==> p.tasks[k] in p.heap && p.heap[p.tasks[k]].key == k)
    && (forall h :: Live(p, h) <==> InMap(p, h))
    && (p.worker.Removed? ==> p.worker.h in p.heap)
  }

  /** A live task stands at one place. */
  predicate OnePlace(p: Pool) {
    && (forall i, j :: 0 <= i < j < |p.queue| ==> p.queue[i] != p.queue[j])
    && (!p.worker.Free? ==>
          p.worker.h !in p.queue && p.backups != Stored(p.worker.h) && p.restores != Stored(p.worker.h))
    && (p.backups.Stored? ==> p.backups.h !in p.queue && p.restores != Stored(p.backups.h))
    && (p.restores.Stored? ==> p.restores.h !in p.queue)
  }

  /** The active cell is empty, or holds the task between its start and its deferred end. */
  predicate ActiveExact(p: Pool) {
    && (p.worker.Active? ==> p.active == Some(p.worker.h))
    && (p.active.Some? ==>
          (p.worker.Active? || p.worker.Ended? || p.worker.Removed?) && p.active.value == p.worker.h && p.worker.h in p.ran)
  }

  /** A backup task in the map that is not cancelled. */
  predicate Alive(p: Pool, h: Handle) {
    InMap(p, h) && p.heap[h].kind.BackupTask? && !p.heap[h].canceled
  }

  /** At most one task of a backup is in the map and not cancelled. */
  predicate SingleLive(p: Pool) {
    && (forall g, h :: g in p.heap && h in p.heap && Alive(p, g) && Alive(p, h) && p.heap[g].backup == p.heap[h].backup ==>
          g == h)
    && (p.backups.Checked? ==> forall h :: h in p.heap && Alive(p, h) ==> p.heap[h].backup != p.backups.backup)
  }

  ghost predicate PoolInv(p: Pool) {
    MapExact(p) && OnePlace(p) && ActiveExact(p) && SingleLive(p)
  }

  lemma TailMembers(q: seq<Handle>)
    requires q != [] && forall i, j :: 0 <= i < j < |q| ==> q[i] != q[j]
    ensures forall h :: h in q[1..] <==> h in q && h != q[0]
  {
    forall h | h in q && h != q[0] ensures h in q[1..] {
      var i :| 0 <= i < |q| && q[i] == h;
      assert q[1..][i - 1] == h;
    }
  }

  /** ExistsTask sees every task that is alive. */
  lemma NoLiveBackup(p: Pool, backup: string)
    requires MapExact(p) && !LiveBackup(View(p), backup)
    ensures forall h :: h in p.heap && Alive(p, h) ==> p.heap[h].backup != backup
  {
    forall h | h in p.heap && Alive(p, h) ensures p.heap[h].backup != backup {
      var k := p.heap[h].key;
      assert k in View(p) && View(p)[k] == p.heap[h];
    }
  }

  lemma NewHandleIsNowhere(p: Pool, h: Handle)
    requires PoolInv(p) && h !in p.heap
    ensures !Live(p, h) && p.worker != Removed(h) && h !in p.tasks.Values
  {
    assert !InMap(p, h);
  }

  lemma CheckBackupInv(p: Pool, backup: string, snapshot: string)
    requires PoolInv(p)
    ensures PoolInv(CheckBackup(p, backup, snapshot))
  {
    var q := CheckBackup(p, backup, snapshot);
    if q != p { NoLiveBackup(p, backup); }
    forall h ensures Live(q, h) <==> InMap(q, h) { assert Live(p, h) <==> InMap(p, h); }
  }

  /** The map stays exact when one object is stored and its submitter points to it. */
  lemma StoreMapExact(p: Pool, h: Handle, t: Task, q: Pool)
    requires PoolInv(p) && NewTask(p, h, t.key)
    requires q == Store(p, h, t).(backups := q.backups, restores := q.restores)
    requires forall g :: Live(q, g) <==> Live(p, g) || g == h
    ensures MapExact(q)
  {
    NewHandleIsNowhere(p, h);
    hide OnePlace, ActiveExact, SingleLive;
    forall g ensures Live(q, g) <==> InMap(q, g) { assert Live(p, g) <==> InMap(p, g); }
  }

  lemma StoreLive(p: Pool, h: Handle, t: Task, q: Pool)
    requires PoolInv(p) && NewTask(p, h, t.key)
    requires q == Store(p, h, t).(backups := q.backups, restores := q.restores)
    requires q.backups == p.backups || (p.backups == Checked(t.backup, t.target) && q.backups == Stored(h))
    requires t.kind.BackupTask? ==> q.backups != p.backups
    ensures SingleLive(q)
  {
    StoreAlive(p, h, t, q);
    if !t.kind.BackupTask? { NotAlive(q, h); }
    hide MapExact, OnePlace, ActiveExact, Alive, NewTask;
    StoreSingle(p, h, t, q);
  }

  lemma StoreSingle(p: Pool, h: Handle, t: Task, q: Pool)
    requires SingleLive(p) && h !in p.heap && q.heap == p.heap[h := t]
    requires forall g :: g in p.heap ==> Alive(q, g) == Alive(p, g)
    requires q.backups == p.backups || (p.backups == Checked(t.backup, t.target) && q.backups == Stored(h))
    requires if t.kind.BackupTask? then q.backups != p.backups else !Alive(q, h)
    ensures SingleLive(q)
  {
    hide Alive;
    forall f, g | f in q.heap && g in q.heap && Alive(q, f) && Alive(q, g) && q.heap[f].backup == q.heap[g].backup
      ensures f == g
    {
    }
  }

  lemma NotAlive(q: Pool, h: Handle)
    requires h in q.heap && !q.heap[h].kind.BackupTask?
    ensures !Alive(q, h)
  {
  }

  lemma StoreAlive(p: Pool, h: Handle, t: Task, q: Pool)
    requires PoolInv(p) && NewTask(p, h, t.key)
    requires q == Store(p, h, t).(backups := q.backups, restores := q.restores)
    ensures forall g :: g in p.heap ==> Alive(q, g) == Alive(p, g)
  {
    NewHandleIsNowhere(p, h);
    hide OnePlace, ActiveExact, SingleLive, Live;
  }

  lemma StoreBackupInv(p: Pool, h: Handle)
    requires PoolInv(p)
    ensures PoolInv(StoreBackup(p, h))
  {
    var q := StoreBackup(p, h);
    if q != p {
      NewHandleIsNowhere(p, h);
      StoreMapExact(p, h, q.heap[h], q);
      StoreLive(p, h, q.heap[h], q);
      hide MapExact, SingleLive;
    }
  }

  lemma StoreRestoreInv(p: Pool, h: Handle, restore: string)
    requires PoolInv(p)
    ensures PoolInv(StoreRestore(p, h, restore))
  {
    var q := StoreRestore(p, h, restore);
    if q != p {
      NewHandleIsNowhere(p, h);
      StoreMapExact(p, h, q.heap[h], q);
      StoreLive(p, h, q.heap[h], q);
      hide MapExact, SingleLive;
    }
  }

  /** An accepted task moves into the queue, a rejected one leaves no trace in the map. */
  lemma SubmitMapExact(p: Pool, h: Handle, ok: bool, q: Pool)
    requires PoolInv(p) && Live(p, h)
    requires q == Submit(p, h, ok).(backups := q.backups, restores := q.restores)
    requires forall g :: Live(q, g) <==> Live(p, g) && (ok || g != h)
    ensures MapExact(q)
  {
    assert Live(p, h) <==> InMap(p, h);
    hide OnePlace, ActiveExact, SingleLive;
    forall g ensures Live(q, g) <==> InMap(q, g) { assert Live(p, g) <==> InMap(p, g); }
  }

  lemma SubmitLive(p: Pool, h: Handle, ok: bool, q: Pool)
    requires PoolInv(p) && Live(p, h)
    requires q == Submit(p, h, ok).(backups := q.backups, restores := q.restores)
    requires q.backups == p.backups || q.backups.NoTask?
    ensures SingleLive(q)
  {
    hide OnePlace, ActiveExact;
    forall g | g in p.heap ensures Alive(q, g) ==> Alive(p, g) {}
  }

  lemma SubmitBackupInv(p: Pool, ok: bool)
    requires PoolInv(p)
    ensures PoolInv(SubmitBackup(p, ok))
  {
    var q := SubmitBackup(p, ok);
    if q != p {
      assert Live(p, p.backups.h) && InMap(p, p.backups.h);
      SubmitMapExact(p, p.backups.h, ok, q);
      SubmitLive(p, p.backups.h, ok, q);
      hide MapExact, SingleLive;
    }
  }

  lemma SubmitRestoreInv(p: Pool, ok: bool)
    requires PoolInv(p)
    ensures PoolInv(SubmitRestore(p, ok))
  {
    var q := SubmitRestore(p, ok);
    if q != p {
      assert Live(p, p.restores.h) && InMap(p, p.restores.h);
      SubmitMapExact(p, p.restores.h, ok, q);
      SubmitLive(p, p.restores.h, ok, q);
      hide MapExact, SingleLive;
    }
  }

  lemma PickInv(p: Pool)
    requires PoolInv(p)
    ensures PoolInv(Pick(p))
  {
    var q := Pick(p);
    if q != p {
      TailMembers(p.queue);
      assert p.queue[0] in p.queue;
      forall g ensures Live(q, g) <==> InMap(q, g) { assert Live(p, g) <==> InMap(p, g); }
    }
  }

  /** The worker moves on and the task stays live. */
  lemma RunInv(p: Pool, q: Pool)
    requires PoolInv(p) && (q == Check(p) || q == Activate(p) || q == Finish(p))
    ensures PoolInv(q)
  {
    RunMapExact(p, q);
    RunSingleLive(p, q);
    hide MapExact, Live, SingleLive;
  }

  lemma RunSingleLive(p: Pool, q: Pool)
    requires SingleLive(p) && (q == Check(p) || q == Activate(p) || q == Finish(p))
    ensures SingleLive(q)
  {
  }

  lemma RunMapExact(p: Pool, q: Pool)
    requires MapExact(p) && (q == Check(p) || q == Activate(p) || q == Finish(p))
    ensures MapExact(q)
  {
    forall g ensures Live(q, g) <==> InMap(q, g) { assert Live(p, g) <==> InMap(p, g); }
  }

  lemma EndInv(p: Pool)
    requires PoolInv(p)
    ensures PoolInv(Remove(p)) && PoolInv(Clear(p))
  {
    if p.worker.Ended? { assert Live(p, p.worker.h); }
    forall g ensures Live(Remove(p), g) <==> InMap(Remove(p), g) { assert Live(p, g) <==> InMap(p, g); }
    forall g ensures Live(Clear(p), g) <==> InMap(Clear(p), g) { assert Live(p, g) <==> InMap(p, g); }
  }

  /** A cancel operation writes flags and contexts only. */
  predicate FlagsOnly(p: Pool, q: Pool) {
    && q == p.(heap := q.heap, cancels := q.cancels)
    && q.heap.Keys == p.heap.Keys
    && (forall h :: h in p.heap ==>
          && q.heap[h] == p.heap[h].(canceled := q.heap[h].canceled, ctxDone := q.heap[h].ctxDone)
          && (p.heap[h].canceled ==> q.heap[h].canceled) && (p.heap[h].ctxDone ==> q.heap[h].ctxDone))
  }

  lemma FlagsOnlyInv(p: Pool, q: Pool)
    requires PoolInv(p) && FlagsOnly(p, q)
    ensures PoolInv(q)
  {
    forall g ensures Live(q, g) <==> InMap(q, g) { assert Live(p, g) <==> InMap(p, g); }
  }

  lemma StepInv(p: Pool, a: Action)
    requires PoolInv(p)
    ensures PoolInv(Step(p, a))
  {
    hide PoolInv;
    match a
    case DoCheckBackup(backup, snapshot) => CheckBackupInv(p, backup, snapshot);
    case DoStoreBackup(h) => StoreBackupInv(p, h);
    case DoStoreRestore(h, restore) => StoreRestoreInv(p, h, restore);
    case DoSubmitBackup(ok) => SubmitBackupInv(p, ok);
    case DoSubmitRestore(ok) => SubmitRestoreInv(p, ok);
    case DoPick => PickInv(p);
    case DoCheck => RunInv(p, Check(p));
    case DoActivate => RunInv(p, Activate(p));
    case DoFinish => RunInv(p, Finish(p));
    case DoRemove => EndInv(p);
    case DoClear => EndInv(p);
    case _ => FlagsOnlyInv(p, Step(p, a));
  }
}
