/** How precise a cancel is when it interleaves with the task closure. */
module PoolCancel {
  import opened Options
  import opened WorkerPool
  import opened PoolInvariants

  /** Whom a cancel is for, by the names in the task: a backup task by its backup or by its
      snapshot, a restore task by its restore. */
  predicate Means(c: Target, t: Task) {
    if t.kind.BackupTask? then c in {OfBackup(t.backup), OfSnapshot(t.target)} else c == OfRestore(t.target)
  }

  /** The loop's test finds out just that. */
  lemma HitsIsMeans(t: Task, c: Target)
    ensures Hits(t, c) <==> Means(c, t)
  {
  }

  /** The task is not in Run, never was, and has not passed its check. */
  predicate KeptOut(p: Pool, h: Handle) {
    h !in p.ran && !StageOf(p, h).Gap? && !StageOf(p, h).InCell?
  }

  /** What is known of a task that a cancel operation marked. */
  predicate MarkOk(p: Pool, c: Cancel, h: Handle)
    requires h in c.marks
  {
    && h in p.heap && p.heap[h].canceled && Hits(p.heap[h], c.target)
    && Rank(c.marks[h]) <= Rank(StageOf(p, h))
    && (Rank(c.marks[h]) < Rank(Gap) ==> KeptOut(p, h))
    && (!c.pc.Ranging? ==>
          && h in c.loads && Rank(c.marks[h]) <= Rank(c.loads[h]) <= Rank(StageOf(p, h))
          && (c.loads[h].InCell? <==> c.cell == Some(h)))
  }

  /** What a cancel operation does with the task that it read from the active cell. */
  predicate CellOk(p: Pool, c: Cancel) {
    && (c.pc.Ranging? ==> c.cell.None?)
    && (c.cell.Some? ==> c.cell.value in p.heap && c.cell.value in p.ran)
    && (c.pc.Panicked? ==> c.cell.Some? && !Expected(p.heap[c.cell.value], c.target))
    && (c.pc.Finished? && c.cell.Some? ==>
          && Expected(p.heap[c.cell.value], c.target)
          && (Hits(p.heap[c.cell.value], c.target) ==> p.heap[c.cell.value].ctxDone))
  }

  predicate Cells(p: Pool) {
    forall n :: n in p.cancels ==> CellOk(p, p.cancels[n])
  }

  /** Range leaves out no task that was there from its beginning. */
  predicate Complete(p: Pool, c: Cancel) {
    forall h :: h in c.began && h in p.heap && InMap(p, h) && Hits(p.heap[h], c.target) ==>
      (c.pc.Ranging? && p.heap[h].key in c.todo) || h in c.marks
  }

  predicate Marks(p: Pool) {
    forall n, h :: n in p.cancels && h in p.cancels[n].marks ==> MarkOk(p, p.cancels[n], h)
  }

  predicate Ranges(p: Pool) {
    forall n :: n in p.cancels ==> p.cancels[n].began <= p.heap.Keys && Complete(p, p.cancels[n])
  }

  /** Whoever ran has passed its check, and whoever was refused is in the map no more. */
  predicate RanOk(p: Pool) {
    && (forall h :: h in p.ran ==> h in p.heap && h !in p.rejected && Rank(StageOf(p, h)) >= Rank(InCell))
    && (forall h :: h in p.rejected ==> h in p.heap && !InMap(p, h))
  }

  predicate MarkedBy(p: Pool, h: Handle, n: nat) {
    n in p.cancels && h in p.cancels[n].marks
  }

  /** Cancel `n` is through, means the task, and found it in the active cell. */
  predicate StoppedBy(p: Pool, h: Handle, n: nat) {
    && n in p.cancels && p.cancels[n].pc.Finished? && p.cancels[n].cell == Some(h)
    && h in p.heap && Means(p.cancels[n].target, p.heap[h])
  }

  /** A flag or a context changes only at the hands of a cancel operation that means the task,
      or of the submission that was refused. */
  ghost predicate Blame(p: Pool) {
    && (forall h :: h in p.heap && p.heap[h].canceled ==> exists n :: MarkedBy(p, h, n))
    && (forall h :: h in p.heap && p.heap[h].ctxDone ==> h in p.rejected || exists n :: StoppedBy(p, h, n))
  }

  ghost predicate CancelInv(p: Pool) {
    Marks(p) && Cells(p) && Ranges(p) && RanOk(p) && Blame(p)
  }

  predicate Onward(p: Pool, q: Pool) {
    forall h :: h in p.heap ==> h in q.heap && Rank(StageOf(p, h)) <= Rank(StageOf(q, h))
  }

  lemma SubmitterOnward(p: Pool, a: Action)
    requires PoolInv(p)
    requires a.DoCheckBackup? || a.DoStoreBackup? || a.DoStoreRestore? || a.DoSubmitBackup? || a.DoSubmitRestore?
    ensures Onward(p, Step(p, a))
  {
    hide MapExact, ActiveExact, SingleLive, LiveBackup;
  }

  lemma ClosureOnward(p: Pool, a: Action)
    requires PoolInv(p)
    requires a.DoPick? || a.DoCheck? || a.DoActivate? || a.DoFinish? || a.DoRemove? || a.DoClear?
    ensures Onward(p, Step(p, a))
  {
    hide MapExact, SingleLive;
  }

  lemma CancelOnward(p: Pool, a: Action)
    requires a.DoCancelBegin? || a.DoCancelVisit? || a.DoCancelLoad? || a.DoCancelEnd?
    ensures Onward(p, Step(p, a))
  {
  }

  lemma StepOnward(p: Pool, a: Action)
    requires PoolInv(p)
    ensures Onward(p, Step(p, a))
  {
    hide PoolInv, Onward;
    if a.DoCheckBackup? || a.DoStoreBackup? || a.DoStoreRestore? || a.DoSubmitBackup? || a.DoSubmitRestore? {
      SubmitterOnward(p, a);
    } else if a.DoCancelBegin? || a.DoCancelVisit? || a.DoCancelLoad? || a.DoCancelEnd? {
      CancelOnward(p, a);
    } else {
      ClosureOnward(p, a);
    }
  }

  /** A step that is no cancel step: nobody is flagged, nobody flagged gets past its check, and
      only a refused submission stops a context. */
  predicate Quiet(p: Pool, q: Pool) {
    && q.cancels == p.cancels && p.rejected <= q.rejected && p.ran <= q.ran
    && (forall h :: h in p.heap ==> QuietTask(p, q, h))
    && (forall h :: h in q.heap && h !in p.heap ==> !q.heap[h].canceled && !q.heap[h].ctxDone)
    && (forall h :: h in q.ran ==> h in p.ran || (h in q.heap && h !in p.rejected && StageOf(q, h).InCell?))
    && (forall h :: h in q.rejected ==> h in p.rejected || (h in p.heap && h !in p.ran && q.ran == p.ran && !InMap(q, h)))
  }

  predicate QuietTask(p: Pool, q: Pool, h: Handle)
    requires h in p.heap
  {
    && h in q.heap
    && q.heap[h].(ctxDone := p.heap[h].ctxDone) == p.heap[h]
    && (p.heap[h].ctxDone ==> q.heap[h].ctxDone)
    && (q.heap[h].ctxDone ==> p.heap[h].ctxDone || h in q.rejected)
    && (InMap(q, h) ==> InMap(p, h))
    && (p.heap[h].canceled && KeptOut(p, h) ==> KeptOut(q, h))
  }

  lemma QuietMarks(p: Pool, q: Pool)
    requires CancelInv(p) && Onward(p, q) && Quiet(p, q)
    ensures Marks(q)
  {
    hide Ranges, RanOk, Blame;
    forall n, h | n in q.cancels && h in q.cancels[n].marks ensures MarkOk(q, q.cancels[n], h) {
      assert MarkOk(p, p.cancels[n], h) && QuietTask(p, q, h);
    }
  }

  lemma QuietCells(p: Pool, q: Pool)
    requires Cells(p) && Quiet(p, q)
    ensures Cells(q)
  {
    forall n | n in q.cancels ensures CellOk(q, q.cancels[n]) {
      var c := p.cancels[n];
      assert CellOk(p, c);
      if c.cell.Some? { assert QuietTask(p, q, c.cell.value); }
    }
  }

  lemma QuietBlame(p: Pool, q: Pool)
    requires CancelInv(p) && Onward(p, q) && Quiet(p, q)
    ensures Blame(q) && RanOk(q)
  {
    forall h | h in q.heap && q.heap[h].canceled ensures exists n :: MarkedBy(q, h, n) {
      var n :| MarkedBy(p, h, n);
      assert MarkedBy(q, h, n);
    }
    forall h | h in q.heap && q.heap[h].ctxDone && h !in q.rejected ensures exists n :: StoppedBy(q, h, n) {
      var n :| StoppedBy(p, h, n);
      assert StoppedBy(q, h, n);
    }
  }

  lemma QuietCancelInv(p: Pool, q: Pool)
    requires CancelInv(p) && Onward(p, q) && Quiet(p, q)
    ensures CancelInv(q)
  {
    QuietMarks(p, q);
    QuietCells(p, q);
    QuietBlame(p, q);
    forall n | n in q.cancels ensures Complete(q, q.cancels[n]) {
      assert Complete(p, p.cancels[n]);
    }
  }

  lemma CheckBackupQuiet(p: Pool, backup: string, snapshot: string)
    requires PoolInv(p)
    ensures Quiet(p, CheckBackup(p, backup, snapshot))
  {
    hide ActiveExact, SingleLive, LiveBackup;
  }

  lemma StoreBackupQuiet(p: Pool, h: Handle)
    requires PoolInv(p)
    ensures Quiet(p, StoreBackup(p, h))
  {
    hide ActiveExact, SingleLive, LiveBackup;
  }

  lemma StoreRestoreQuiet(p: Pool, h: Handle, restore: string)
    requires PoolInv(p)
    ensures Quiet(p, StoreRestore(p, h, restore))
  {
    hide ActiveExact, SingleLive, LiveBackup;
  }

  lemma AcceptQuiet(p: Pool, q: Pool, h: Handle)
    requires PoolInv(p) && RanOk(p) && h in p.heap
    requires q == p.(queue := p.queue + [h], backups := q.backups, restores := q.restores)
    requires (p.backups == Stored(h) && q.backups == NoTask && q.restores == p.restores)
          || (p.restores == Stored(h) && q.restores == NoTask && q.backups == p.backups)
    ensures Quiet(p, q)
  {
    hide SingleLive, MapExact;
  }

  lemma RefuseQuiet(p: Pool, q: Pool, h: Handle)
    requires PoolInv(p) && RanOk(p) && h in p.heap
    requires q == Submit(p, h, false).(backups := q.backups, restores := q.restores)
    requires (p.backups == Stored(h) && q.backups == NoTask && q.restores == p.restores)
          || (p.restores == Stored(h) && q.restores == NoTask && q.backups == p.backups)
    ensures Quiet(p, q)
  {
    hide SingleLive, MapExact;
  }

  lemma SubmitBackupQuiet(p: Pool, ok: bool)
    requires PoolInv(p) && RanOk(p)
    ensures Quiet(p, SubmitBackup(p, ok))
  {
    if p.backups.Stored? {
      LiveKnown(p, p.backups.h);
      hide PoolInv, RanOk, Quiet;
      if ok { AcceptQuiet(p, SubmitBackup(p, ok), p.backups.h); } else { RefuseQuiet(p, SubmitBackup(p, ok), p.backups.h); }
    } else {
      hide SingleLive, MapExact;
    }
  }

  lemma SubmitRestoreQuiet(p: Pool, ok: bool)
    requires PoolInv(p) && RanOk(p)
    ensures Quiet(p, SubmitRestore(p, ok))
  {
    if p.restores.Stored? {
      LiveKnown(p, p.restores.h);
      hide PoolInv, RanOk, Quiet;
      if ok { AcceptQuiet(p, SubmitRestore(p, ok), p.restores.h); } else { RefuseQuiet(p, SubmitRestore(p, ok), p.restores.h); }
    } else {
      hide SingleLive, MapExact;
    }
  }

  lemma LiveKnown(p: Pool, h: Handle)
    requires PoolInv(p) && (p.backups == Stored(h) || p.restores == Stored(h))
    ensures h in p.heap
  {
    assert Live(p, h) && InMap(p, h);
  }

  lemma PickQuiet(p: Pool)
    requires PoolInv(p)
    ensures Quiet(p, Pick(p))
  {
    hide SingleLive, MapExact;
  }

  /** A flagged task is turned away at its check; a task in the gap is not kept out any more. */
  lemma CheckQuiet(p: Pool)
    requires PoolInv(p)
    ensures Quiet(p, Check(p))
  {
    hide SingleLive, MapExact;
  }

  lemma ActivateQuiet(p: Pool)
    requires PoolInv(p) && RanOk(p)
    ensures Quiet(p, Activate(p))
  {
    if p.worker.Passed? { assert Live(p, p.worker.h) && InMap(p, p.worker.h); }
    hide SingleLive, MapExact;
  }

  lemma FinishQuiet(p: Pool)
    requires PoolInv(p)
    ensures Quiet(p, Finish(p))
  {
    hide SingleLive, MapExact;
  }

  lemma RemoveQuiet(p: Pool)
    requires PoolInv(p)
    ensures Quiet(p, Remove(p))
  {
    hide SingleLive, MapExact;
  }

  lemma ClearQuiet(p: Pool)
    requires PoolInv(p)
    ensures Quiet(p, Clear(p))
  {
    hide SingleLive, MapExact;
  }

  /** A task enters Run with its context: whoever could have ended it was refused its place, or
      found the task in the active cell. */
  lemma PassedHasContext(p: Pool)
    requires PoolInv(p) && CancelInv(p) && p.worker.Passed?
    ensures p.worker.h in p.heap && !p.heap[p.worker.h].ctxDone
  {
    var h := p.worker.h;
    assert Live(p, h) && InMap(p, h);
    assert h !in p.ran && h !in p.rejected;
    hide PoolInv, Marks, Ranges, RanOk;
    forall n ensures !StoppedBy(p, h, n) {
      if n in p.cancels { assert CellOk(p, p.cancels[n]); }
    }
  }

  // ---- the steps of a cancel operation ----

  lemma FlagsMark(p: Pool, q: Pool, c: Cancel, h: Handle)
    requires FlagsOnly(p, q) && h in c.marks && MarkOk(p, c, h)
    ensures MarkOk(q, c, h)
  {
  }

  /** Operation `n` moved from `p` to `q` and is now `c`; it answers for the flags it changed. */
  predicate Moves(p: Pool, q: Pool, n: nat, c: Cancel) {
    && FlagsOnly(p, q) && q.cancels == p.cancels[n := c]
    && (n in p.cancels ==>
          c.target == p.cancels[n].target && p.cancels[n].marks.Keys <= c.marks.Keys && !p.cancels[n].pc.Finished?)
    && (forall h :: h in c.marks ==> MarkOk(q, c, h))
    && c.began <= p.heap.Keys && Complete(q, c) && CellOk(q, c)
    && (forall h :: h in p.heap && q.heap[h].canceled && !p.heap[h].canceled ==> h in c.marks)
    && (forall h :: h in p.heap && q.heap[h].ctxDone && !p.heap[h].ctxDone ==>
          c.pc.Finished? && c.cell == Some(h) && Hits(q.heap[h], c.target))
  }

  lemma FlagsCell(p: Pool, q: Pool, c: Cancel)
    requires FlagsOnly(p, q) && CellOk(p, c)
    ensures CellOk(q, c)
  {
  }

  lemma FlagsComplete(p: Pool, q: Pool, c: Cancel)
    requires FlagsOnly(p, q) && Complete(p, c)
    ensures Complete(q, c)
  {
  }

  lemma MovesMarks(p: Pool, q: Pool, n: nat, c: Cancel)
    requires CancelInv(p) && Moves(p, q, n, c)
    ensures Marks(q) && Cells(q) && Ranges(q)
  {
    forall m | m in q.cancels ensures CellOk(q, q.cancels[m]) {
      if m != n { FlagsCell(p, q, p.cancels[m]); }
    }
    forall m, h | m in q.cancels && h in q.cancels[m].marks ensures MarkOk(q, q.cancels[m], h) {
      if m != n { FlagsMark(p, q, p.cancels[m], h); }
    }
    forall m | m in q.cancels ensures q.cancels[m].began <= q.heap.Keys && Complete(q, q.cancels[m]) {
      if m != n { FlagsComplete(p, q, p.cancels[m]); }
    }
  }

  lemma MovesBlame(p: Pool, q: Pool, n: nat, c: Cancel)
    requires Blame(p) && Moves(p, q, n, c)
    ensures Blame(q)
  {
    forall h | h in q.heap && q.heap[h].canceled ensures exists m :: MarkedBy(q, h, m) {
      if p.heap[h].canceled {
        var m :| MarkedBy(p, h, m);
        assert MarkedBy(q, h, m);
      } else {
        assert MarkedBy(q, h, n);
      }
    }
    forall h | h in q.heap && q.heap[h].ctxDone && h !in q.rejected ensures exists m :: StoppedBy(q, h, m) {
      if p.heap[h].ctxDone {
        var m :| StoppedBy(p, h, m);
        assert StoppedBy(q, h, m);
      } else {
        assert StoppedBy(q, h, n);
      }
    }
  }

  lemma BeginMoves(p: Pool, n: nat, target: Target)
    requires PoolInv(p) && CancelInv(p) && n !in p.cancels
    ensures Moves(p, CancelBegin(p, n, target), n, CancelBegin(p, n, target).cancels[n])
  {
    hide OnePlace, ActiveExact, SingleLive;
  }

  lemma VisitComplete(p: Pool, n: nat, key: string)
    requires MapExact(p) && n in p.cancels && p.cancels[n].pc.Ranging? && Complete(p, p.cancels[n])
    ensures Complete(CancelVisit(p, n, key), CancelVisit(p, n, key).cancels[n])
  {
  }

  lemma VisitMark(p: Pool, n: nat, key: string, h: Handle)
    requires PoolInv(p) && CancelInv(p) && n in p.cancels && p.cancels[n].pc.Ranging?
    requires h in CancelVisit(p, n, key).cancels[n].marks
    ensures MarkOk(CancelVisit(p, n, key), CancelVisit(p, n, key).cancels[n], h)
  {
    hide OnePlace, ActiveExact, SingleLive, Blame, Complete, MapExact;
    if h in p.cancels[n].marks { assert MarkOk(p, p.cancels[n], h); }
  }

  lemma VisitFlags(p: Pool, n: nat, key: string)
    requires n in p.cancels && p.cancels[n].pc.Ranging?
    ensures var q := CancelVisit(p, n, key); var c := q.cancels[n];
            && FlagsOnly(p, q) && q.cancels == p.cancels[n := c]
            && c.target == p.cancels[n].target && c.began == p.cancels[n].began
            && p.cancels[n].marks.Keys <= c.marks.Keys
            && (forall h :: h in p.heap ==> q.heap[h].ctxDone == p.heap[h].ctxDone)
            && (forall h :: h in p.heap && q.heap[h].canceled && !p.heap[h].canceled ==> h in c.marks)
  {
  }

  lemma VisitMoves(p: Pool, n: nat, key: string)
    requires PoolInv(p) && CancelInv(p) && n in p.cancels && p.cancels[n].pc.Ranging?
    ensures Moves(p, CancelVisit(p, n, key), n, CancelVisit(p, n, key).cancels[n])
  {
    var q := CancelVisit(p, n, key);
    VisitFlags(p, n, key);
    forall h | h in q.cancels[n].marks ensures MarkOk(q, q.cancels[n], h) { VisitMark(p, n, key, h); }
    VisitComplete(p, n, key);
    hide PoolInv, Marks, RanOk, Blame, MarkOk, Complete, CancelVisit, FlagsOnly;
  }

  lemma LoadMoves(p: Pool, n: nat)
    requires PoolInv(p) && CancelInv(p) && n in p.cancels && p.cancels[n].pc.Ranging? && p.cancels[n].todo == {}
    ensures Moves(p, CancelLoad(p, n), n, CancelLoad(p, n).cancels[n])
  {
    hide OnePlace, MapExact, SingleLive, Blame;
    var q := CancelLoad(p, n);
    var c := q.cancels[n];
    assert Complete(p, p.cancels[n]);
    forall h | h in c.marks ensures MarkOk(q, c, h) {
      assert MarkOk(p, p.cancels[n], h);
    }
  }

  /** The end of a cancel: the context of the task it loaded is stopped when it means that
      task, and the type assertion fails when the task is of the other kind. */
  predicate Ends(p: Pool, q: Pool, n: nat)
    requires n in p.cancels && n in q.cancels && p.cancels[n].pc.Loaded?
  {
    var c := p.cancels[n];
    var d := q.cancels[n];
    && FlagsOnly(p, q) && q.cancels == p.cancels[n := d]
    && d == c.(pc := d.pc)
    && (if c.cell.Some? && c.cell.value in p.heap && !Expected(p.heap[c.cell.value], c.target)
        then d.pc.Panicked? else d.pc.Finished?)
    && (forall h :: h in p.heap ==> q.heap[h].canceled == p.heap[h].canceled)
    && (forall h :: h in p.heap && q.heap[h].ctxDone && !p.heap[h].ctxDone ==>
          d.pc.Finished? && c.cell == Some(h) && Hits(q.heap[h], c.target))
    && (d.pc.Finished? && c.cell.Some? && c.cell.value in p.heap
          && Hits(p.heap[c.cell.value], c.target) ==>
          q.heap[c.cell.value].ctxDone)
  }

  lemma EndEnds(p: Pool, n: nat)
    requires n in p.cancels && p.cancels[n].pc.Loaded?
    ensures n in CancelEnd(p, n).cancels && Ends(p, CancelEnd(p, n), n)
  {
  }

  lemma EndMark(p: Pool, q: Pool, n: nat, h: Handle)
    requires n in p.cancels && n in q.cancels && p.cancels[n].pc.Loaded? && Ends(p, q, n)
    requires h in p.cancels[n].marks && MarkOk(p, p.cancels[n], h)
    ensures MarkOk(q, q.cancels[n], h)
  {
  }

  lemma EndMoves(p: Pool, n: nat)
    requires PoolInv(p) && CancelInv(p) && n in p.cancels && p.cancels[n].pc.Loaded?
    ensures n in CancelEnd(p, n).cancels && Moves(p, CancelEnd(p, n), n, CancelEnd(p, n).cancels[n])
  {
    EndEnds(p, n);
    var q := CancelEnd(p, n);
    forall h | h in q.cancels[n].marks ensures MarkOk(q, q.cancels[n], h) { EndMark(p, q, n, h); }
    assert Complete(p, p.cancels[n]);
    FlagsComplete(p, q, p.cancels[n]);
    hide PoolInv, Marks, RanOk, Blame, MarkOk, CancelEnd, FlagsOnly;
  }

  lemma MovesCancelInv(p: Pool, q: Pool, n: nat, c: Cancel)
    requires CancelInv(p) && Moves(p, q, n, c)
    ensures CancelInv(q)
  {
    MovesMarks(p, q, n, c);
    MovesBlame(p, q, n, c);
  }

  lemma CancelStepInv(p: Pool, a: Action)
    requires PoolInv(p) && CancelInv(p)
    requires a.DoCancelBegin? || a.DoCancelVisit? || a.DoCancelLoad? || a.DoCancelEnd?
    ensures CancelInv(Step(p, a))
  {
    var q := Step(p, a);
    if q != p {
      hide PoolInv, CancelInv, Moves;
      match a
      case DoCancelBegin(n, target) =>
        BeginMoves(p, n, target);
        MovesCancelInv(p, q, n, q.cancels[n]);
      case DoCancelVisit(n, key) =>
        VisitMoves(p, n, key);
        MovesCancelInv(p, q, n, q.cancels[n]);
      case DoCancelLoad(n) =>
        LoadMoves(p, n);
        MovesCancelInv(p, q, n, q.cancels[n]);
      case DoCancelEnd(n) =>
        EndMoves(p, n);
        MovesCancelInv(p, q, n, q.cancels[n]);
    }
  }

  lemma OtherStepInv(p: Pool, a: Action)
    requires PoolInv(p) && CancelInv(p)
    requires !(a.DoCancelBegin? || a.DoCancelVisit? || a.DoCancelLoad? || a.DoCancelEnd?)
    ensures CancelInv(Step(p, a))
  {
    StepOnward(p, a);
    hide PoolInv, Quiet, Onward, Marks, Cells, Ranges, RanOk, Blame;
    match a {
      case DoSubmitBackup(ok) => SubmitBackupQuiet(p, ok);
      case DoSubmitRestore(ok) => SubmitRestoreQuiet(p, ok);
      case DoPick => PickQuiet(p);
      case DoCheck => CheckQuiet(p);
      case DoActivate => ActivateQuiet(p);
      case DoFinish => FinishQuiet(p);
      case DoRemove => RemoveQuiet(p);
      case DoClear => ClearQuiet(p);
      case DoCheckBackup(backup, snapshot) => CheckBackupQuiet(p, backup, snapshot);
      case DoStoreBackup(h) => StoreBackupQuiet(p, h);
      case DoStoreRestore(h, restore) => StoreRestoreQuiet(p, h, restore);
    }
    QuietCancelInv(p, Step(p, a));
  }
}
