/** The stored snapshot object and the decisions that only look at it: what each writer of
    the handler changes, and which watch events the snapshot controller lets through. */
module Snapshots {
  import opened Options

  type Id = string

  datatype Phase = Pending | Running | Completed | Failed | Canceled | Rejected

  datatype Kind = Fully | Incremental | Unknown

  /** `rest` stands for the fields nothing here branches on (time stamps, messages, sizes,
      restic output): two specs are deeply equal only when it agrees as well.
      `pushed` is the result flag inside the extra entry "push". */
  datatype Spec = Spec(backup: Id, phase: Phase, kind: Kind, progress: int, pushed: bool, rest: int)

  const PROGRESS_DONE := 10000

  predicate Terminal(p: Phase) {
    p.Completed? || p.Failed? || p.Canceled? || p.Rejected?
  }

  function NewSnapshot(backup: Id, rest: int): Spec {
    Spec(backup, Pending, Unknown, 0, false, rest)
  }

  /** UpdatePhase: phase, message and one of the two time stamps. */
  function WithPhase(s: Spec, p: Phase, rest: int): Spec {
    s.(phase := p, rest := rest)
  }

  function WithProgress(s: Spec, percent: int): Spec {
    s.(progress := percent)
  }

  /** UpdateNotifyResultState. */
  function WithPushed(s: Spec): Spec {
    s.(pushed := true)
  }

  /** The successful branch of updateBackupResult. */
  function WithSuccess(s: Spec, kind: Kind, rest: int): Spec {
    s.(phase := Completed, kind := kind, progress := PROGRESS_DONE, rest := rest)
  }

  /** The error branch of updateBackupResult: the type is written only when it was determined,
      and the phase is Canceled exactly when the error text mentions it. */
  function WithError(s: Spec, kind: Option<Kind>, canceled: bool, rest: int): Spec {
    s.(phase := if canceled then Canceled else Failed,
       kind := if kind.Some? then kind.value else s.kind,
       rest := rest)
  }

  predicate IsFull(s: Spec) {
    s.phase.Completed? && s.kind.Fully?
  }

  /** What the watch delivers to the controller. Deletions are delivered as well, but the
      controller drops every one of them. */
  datatype Event = Created(id: Id, now: Spec) | Updated(id: Id, was: Spec, now: Spec)

  /** The create and update predicates of the snapshot controller. The push entry is always
      present (see the engine), so the error branches of the flag check are never taken. */
  predicate Passes(e: Event) {
    match e
    case Created(_, now) => Terminal(now.phase) ==> !now.pushed
    case Updated(_, was, now) =>
      && was != now
      && !(was.phase == now.phase && now.phase.Running?)
      && !now.pushed
  }

  /** GetSnapshotType scans the snapshots of one backup for a completed one. */
  method SnapshotType(items: seq<Spec>) returns (kind: Kind)
    ensures kind == if exists s :: s in items && s.phase.Completed? then Incremental else Fully
  {
    kind := Fully;
    for i := 0 to |items|
      invariant kind.Fully?
      invariant forall j :: 0 <= j < i ==> !items[j].phase.Completed?
    {
      if items[i].phase.Completed? {
        return Incremental;
      }
    }
  }
}
