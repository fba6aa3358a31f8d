/** The pool of one owner as the object it is: a map of shared task objects whose flags are set
    in place. Each operation runs here without interference; the interleavings are in WorkerPool. */
module TaskPools {
  import opened WorkerPool
  import opened PoolCancel

  class BaseTask {
    const key: string
    const kind: TaskKind
    const backup: string
    const target: string
    var canceled: bool
    var ctxDone: bool

    constructor (key: string, kind: TaskKind, backup: string, target: string)
      ensures View() == Task(key, kind, backup, target, false, false)
    {
      this.key, this.kind, this.backup, this.target := key, kind, backup, target;
      canceled, ctxDone := false, false;
    }

    function View(): Task
      reads this
    {
      Task(key, kind, backup, target, canceled, ctxDone)
    }
  }

  class TaskPool {
    var tasks: map<string, BaseTask>
    var queue: seq<BaseTask>
    var active: BaseTask?

    /** Every task is stored under its own key. */
    ghost predicate Valid()
      reads this
    {
      forall k :: k in tasks ==> tasks[k].key == k
    }

    function Contents(): map<string, Task>
      reads this, tasks.Values
    {
      map k | k in tasks :: tasks[k].View()
    }

    constructor ()
      ensures Valid() && Contents() == map[] && queue == [] && active == null
    {
      tasks, queue, active := map[], [], null;
    }

    /** ExistsTask: the Range loop stops at the first live task of the backup. */
    method ExistsTask(backup: string) returns (found: bool)
      ensures found <==> LiveBackup(Contents(), backup)
    {
      var todo := tasks.Keys;
      while todo != {}
        invariant todo <= tasks.Keys
        invariant forall k :: k in tasks && k !in todo ==>
          !(tasks[k].kind.BackupTask? && tasks[k].backup == backup && !tasks[k].canceled)
      {
        var k :| k in todo;
        if tasks[k].kind.BackupTask? && tasks[k].backup == backup && !tasks[k].canceled {
          assert k in Contents() && Contents()[k] == tasks[k].View();
          return true;
        }
        todo := todo - {k};
      }
      return false;
    }

    /** The Range loop of a cancel. */
    method MarkAll(c: Target)
      requires Valid()
      modifies tasks.Values
      ensures Contents() == Marked(old(Contents()), c)
      ensures forall k :: k in tasks ==> tasks[k].canceled == (old(tasks[k].canceled) || Means(c, old(tasks[k].View())))
      ensures forall t :: t in tasks.Values ==> t.ctxDone == old(t.ctxDone)
    {
      var todo := tasks.Keys;
      while todo != {}
        invariant todo <= tasks.Keys
        invariant forall k :: k in tasks ==> tasks[k].ctxDone == old(tasks[k].ctxDone)
        invariant forall k :: k in tasks && k in todo ==> tasks[k].canceled == old(tasks[k].canceled)
        invariant forall k :: k in tasks && k !in todo ==>
          tasks[k].View() == if Hits(old(tasks[k].View()), c) then old(tasks[k].View()).(canceled := true) else old(tasks[k].View())
      {
        var k :| k in todo;
        assert k in tasks && tasks[k] in tasks.Values;
        assert tasks[k].View() == old(tasks[k].View());
        if Hits(tasks[k].View(), c) {
          tasks[k].canceled := true;
        }
        todo := todo - {k};
      }
    }

    /** CancelBackup, CancelSnapshot and CancelRestore: flag what is meant, then stop the active
        task when it is meant; a task of the other kind makes the type assertion panic. */
    method Cancel(c: Target) returns (panicked: bool)
      requires Valid()
      modifies tasks.Values, active
      ensures panicked <==> active != null && !Expected(old(active.View()), c)
      ensures forall k :: k in tasks ==> tasks[k].canceled == (old(tasks[k].canceled) || Means(c, old(tasks[k].View())))
      ensures active != null && active !in tasks.Values ==> active.canceled == old(active.canceled)
      ensures active != null ==> active.ctxDone == (old(active.ctxDone) || Means(c, old(active.View())))
      ensures forall t :: t in tasks.Values && t != active ==> t.ctxDone == old(t.ctxDone)
    {
      MarkAll(c);
      assert forall k :: k in tasks ==> Contents()[k] == tasks[k].View();
      panicked := false;
      if active != null {
        if !Expected(active.View(), c) {
          panicked := true;
        } else if Hits(active.View(), c) {
          active.ctxDone := true;
        }
      }
    }

    /** addTask: store, then try to submit; a refusal takes the entry out again. */
    method AddTask(t: BaseTask, ok: bool)
      requires Valid() && t !in tasks.Values && t.key !in tasks
      modifies this`tasks, this`queue, t`ctxDone
      ensures Valid()
      ensures ok ==> tasks == old(tasks)[t.key := t] && queue == old(queue) + [t] && t.View() == old(t.View())
      ensures !ok ==> tasks == old(tasks) && queue == old(queue) && t.View() == old(t.View()).(ctxDone := true)
    {
      tasks := tasks[t.key := t];
      if ok {
        queue := queue + [t];
      } else {
        t.ctxDone := true;
        tasks := tasks - {t.key};
      }
    }

    /** The task closure, with Run as a black box that only this pool's cancels interrupt. */
    method RunNext() returns (ran: bool)
      requires Valid() && queue != []
      modifies this
      ensures Valid()
      ensures ran <==> !old(queue[0].canceled)
      ensures queue == old(queue)[1..] && tasks == old(tasks) - {old(queue)[0].key} && active == null
    {
      var t := queue[0];
      queue := queue[1..];
      ran := !t.canceled;
      if ran {
        active := t;
      }
      tasks := tasks - {t.key};
      active := null;
    }
  }

  /** Flagging is order-free and idempotent, and leaves no live task of a cancelled backup. */
  lemma MarkedLeavesNoneAlive(view: map<string, Task>, backup: string)
    ensures !LiveBackup(Marked(view, OfBackup(backup)), backup)
    ensures Marked(Marked(view, OfBackup(backup)), OfBackup(backup)) == Marked(view, OfBackup(backup))
  {
  }

  /** Visiting one key in the interleaved model is one turn of the loop. */
  lemma VisitIsOneTurn(p: Pool, n: nat, key: string)
    requires n in p.cancels && p.cancels[n].pc.Ranging?
    requires forall k :: k in p.tasks ==> p.tasks[k] in p.heap && p.heap[p.tasks[k]].key == k
    ensures var c := p.cancels[n].target;
            View(CancelVisit(p, n, key)) == map k | k in View(p) :: if k == key then Marked(View(p), c)[k] else View(p)[k]
  {
  }
}
