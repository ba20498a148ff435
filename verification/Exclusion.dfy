/**
 Who may run a handler: the semaphore of the unordered kinds, the item mutex of the synchronized ones.
 */
module Exclusion {
  import opened Machine

  function One(t: Task): nat {
    if t.phase.Running? then 1 else 0
  }

  /** The number of handlers running. */
  function Busy(tasks: seq<Task>): nat {
    if tasks == [] then 0 else Busy(tasks[..|tasks| - 1]) + One(tasks[|tasks| - 1])
  }

  lemma BusySpawn(tasks: seq<Task>, t: Task)
    ensures Busy(tasks + [t]) == Busy(tasks) + One(t)
  {
    assert (tasks + [t])[..|tasks + [t]| - 1] == tasks;
  }

  lemma {:induction false} BusyUpdate(tasks: seq<Task>, i: nat, t: Task)
    requires i < |tasks|
    ensures Busy(tasks[i := t]) + One(tasks[i]) == Busy(tasks) + One(t)
  {
    var n := |tasks| - 1;
    if i < n {
      assert tasks[i := t][..n] == tasks[..n][i := t];
      BusyUpdate(tasks[..n], i, t);
    } else {
      assert tasks[i := t][..n] == tasks[..n];
    }
  }

  lemma {:induction false} BusyZero(tasks: seq<Task>)
    ensures Busy(tasks) == 0 <==> NoneRunning(tasks)
  {
    if tasks != [] {
      var n := |tasks| - 1;
      BusyZero(tasks[..n]);
      assert forall t :: 0 <= t < n ==> tasks[t] == tasks[..n][t];
    }
  }

  /** Every permit is free, with a running handler, or with `sync`; no handler waits for a lock. */
  ghost predicate Metered(c: Config, w: Work) {
    c.Gated() ==>
      && w.avail + Busy(w.tasks) + (if w.poller.InSync? then c.Drain() else 0) == c.maxParallel
      && forall t :: 0 <= t < |w.tasks| ==> !w.tasks[t].phase.Waiting?
  }

  /** One holder of the item's mutex at a time. */
  ghost predicate Mutual(c: Config, w: Work) {
    !c.Gated() ==> Busy(w.tasks) + (if w.poller.InSync? then 1 else 0) <= 1
  }

  /** The synchronized poller joins each task before it goes on. */
  ghost predicate OneByOne(c: Config, w: Work) {
    c.kind.Synchronized? ==>
      forall t :: 0 <= t < |w.tasks| ==>
        w.tasks[t].phase == Emitting([]) || (w.poller.AtJoin? && w.poller.task == t && t == |w.tasks| - 1)
  }

  ghost predicate Exclusive(c: Config, w: Work) {
    Metered(c, w) && Mutual(c, w) && OneByOne(c, w)
  }

  lemma RecvExclusive(c: Config, w: Work, item: Item)
    requires Exclusive(c, w) && w.poller.AtRecv?
    ensures Exclusive(c, RecvStep(c, w, item))
  {
    var w' := RecvStep(c, w, item);
    if w'.tasks != w.tasks {
      BusySpawn(w.tasks, w'.tasks[|w.tasks|]);
      assert w'.tasks == w.tasks + [w'.tasks[|w.tasks|]];
    }
  }

  lemma WorkMetered(c: Config, w: Work, a: WorkAct)
    requires Metered(c, w) && EnabledWork(c, w, a)
    ensures Metered(c, WorkStep(c, w, a))
  {
    var w' := WorkStep(c, w, a);
    match a {
      case Acquire => BusySpawn(w.tasks, w'.tasks[|w.tasks|]);
      case Lock(t) => BusyUpdate(w.tasks, t, w'.tasks[t]);
      case Handle(t, _) => BusyUpdate(w.tasks, t, w'.tasks[t]);
      case Emit(t) => BusyUpdate(w.tasks, t, w'.tasks[t]);
      case _ =>
    }
  }

  lemma WorkMutual(c: Config, w: Work, a: WorkAct)
    requires Mutual(c, w) && EnabledWork(c, w, a) && (a.Acquire? ==> c.Gated())
    ensures Mutual(c, WorkStep(c, w, a))
  {
    var w' := WorkStep(c, w, a);
    BusyZero(w.tasks);
    match a {
      case Lock(t) => BusyUpdate(w.tasks, t, w'.tasks[t]);
      case Handle(t, _) => BusyUpdate(w.tasks, t, w'.tasks[t]);
      case Emit(t) => BusyUpdate(w.tasks, t, w'.tasks[t]);
      case _ =>
    }
  }

  lemma WorkOneByOne(c: Config, w: Work, a: WorkAct)
    requires OneByOne(c, w) && EnabledWork(c, w, a) && (a.Acquire? ==> c.Gated())
    ensures OneByOne(c, WorkStep(c, w, a))
  {
  }

  lemma WorkExclusive(c: Config, w: Work, a: WorkAct)
    requires Exclusive(c, w) && EnabledWork(c, w, a) && (a.Acquire? ==> c.Gated())
    ensures Exclusive(c, WorkStep(c, w, a))
  {
    WorkMetered(c, w, a);
    WorkMutual(c, w, a);
    WorkOneByOne(c, w, a);
  }
}
