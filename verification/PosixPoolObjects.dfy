/** The objects of posix/threadpool.cpp and their methods, as imperative code.

    A method holds its own locks throughout.  What it does not hold is the lock of a
    manager between two calls on it, so every such gap is a call of `Interfere`, which lets
    the workers run for any number of steps. */
module PosixPoolObjects {
  import opened Prelude
  import opened PosixPool
  import opened PosixPoolControl

  /** What any number of worker steps may do to a manager that others look at. */
  ghost predicate MayBecome(m: Manager, m': Manager)
  {
    && ManagerOk(m') && m'.go == m.go && (m'.task == m.task || m'.task.None?) && (m.pc.Exited? ==> m' == m)
    && (!m.go && m.pc != Asleep(false) ==> m'.pc != Asleep(false))
  }

  lemma NoneMoves(ms: seq<Manager>)
    requires forall j :: 0 <= j < |ms| ==> ManagerOk(ms[j])
    ensures MayAllBecome(ms, ms)
  {
  }

  ghost predicate MayAllBecome(ms: seq<Manager>, ms': seq<Manager>)
  {
    |ms| == |ms'| && forall i :: 0 <= i < |ms| ==> MayBecome(ms[i], ms'[i])
  }

  lemma OneAfterTheOther(ms: seq<Manager>, ms': seq<Manager>, ms'': seq<Manager>)
    requires MayAllBecome(ms, ms') && MayAllBecome(ms', ms'')
    ensures MayAllBecome(ms, ms'')
  {
  }

  lemma StillFree(ms: seq<Manager>, ms': seq<Manager>, i: nat)
    requires MayAllBecome(ms, ms') && i < |ms|
    ensures ms'[i].go == ms[i].go && (ms[i].task.None? ==> ms'[i].task.None?)
  {
  }

  lemma OneMoves(ms: seq<Manager>, ms': seq<Manager>, i: nat)
    requires (forall j :: 0 <= j < |ms| ==> ManagerOk(ms[j])) && i < |ms| == |ms'| && MayBecome(ms[i], ms'[i])
    requires forall j :: 0 <= j < |ms| && j != i ==> ms'[j] == ms[j]
    ensures MayAllBecome(ms, ms')
  {
  }

  class TaskManager {
    var pc: WorkerPc
    var task: Option<Task>
    var go: bool

    function State(): Manager
      reads this
    {
      Manager(pc, task, go)
    }

    constructor ()
      ensures State() == STARTED
    {
      pc, task, go := Ready, None, true;
    }

    /** Wakes the worker if it sleeps; a notification that finds nobody is lost. */
    method Notify()
      modifies this`pc
      ensures State() == Notified(old(State()))
    {
      if pc.Asleep? {
        pc := Asleep(true);
      }
    }

    method IsIdle() returns (idle: bool)
      ensures idle <==> task.None? && !pc.Exited?
    {
      idle := task.None? && !pc.Exited?;
    }

    method SetTask(t: Task) returns (ok: bool)
      modifies this
      ensures State() == PosixPool.SetTask(old(State()), t)
      ensures ok <==> old(task).None?
      ensures task == if ok then Some(t) else old(task)
    {
      ok := task.None?;
      if ok {
        task := Some(t);
        Notify();
      }
    }

    method Stop()
      modifies this`go
      ensures State() == PosixPool.Stop(old(State()))
    {
      go := false;
    }

    /** The locked section of the destructor. */
    method Retire()
      modifies this
      ensures State() == PosixPool.Retire(old(State()))
    {
      go := false;
      Notify();
    }

    /** One step of the worker thread's run(), and the task that it deletes, if any. */
    method WorkerAct() returns (deleted: Option<Task>)
      requires WorkerEnabled(State()) && ManagerOk(State())
      modifies this
      ensures State() == WorkerNext(old(State())) && deleted == Deletes(old(State()))
      ensures Bag(task) + Bag(deleted) == Bag(old(task)) && MayBecome(old(State()), State())
    {
      deleted := None;
      if pc.Asleep? {
        pc := Ready;
      } else if pc.Running? {
        deleted, task := task, None;
        pc := Notifying;
      } else if go && task.Some? {
        pc := Running;
      } else if go {
        pc := Asleep(false);
      } else {
        deleted, task := task, None;
        pc := Exited;
      }
    }
  }

  class QueuedThreadPool {
    var taskList: seq<TaskManager>
    var queue: seq<Task>
    var go: bool
    var alive: bool              // the dispatcher's thread

    ghost function States(): (ms: seq<Manager>)
      reads this, taskList
    {
      seq(|taskList|, i requires 0 <= i < |taskList| reads this, taskList => taskList[i].State())
    }

    ghost predicate Valid()
      reads this, taskList
    {
      && (forall i, j :: 0 <= i < j < |taskList| ==> taskList[i] != taskList[j])
      && (forall i :: 0 <= i < |taskList| ==> ManagerOk(States()[i]))
    }

    twostate predicate Interfered()
      reads this, taskList
    {
      taskList == old(taskList) && MayAllBecome(old(States()), States())
    }

    /** A call on one manager leaves the others alone. */
    twostate lemma Only(i: nat)
      requires taskList == old(taskList) && i < |taskList|
      requires forall j :: 0 <= j < |taskList| && j != i ==> taskList[j].State() == old(taskList[j].State())
      ensures States() == old(States())[i := taskList[i].State()]
    {
    }

    /** The worker of manager `i` takes one step. */
    method Step(i: nat)
      requires Valid() && i < |taskList| && WorkerEnabled(taskList[i].State())
      modifies taskList[i]
      ensures Valid() && Interfered() && taskList[i].State() == WorkerNext(old(taskList[i].State()))
    {
      hide MayAllBecome, MayBecome, WorkerNext;
      assert ManagerOk(States()[i]);
      var deleted := taskList[i].WorkerAct();
      OneMoves(old(States()), States(), i);
    }

    /** Any of the workers take any number of steps. */
    method Interfere()
      requires Valid()
      modifies taskList
      ensures Valid() && Interfered()
    {
      hide MayAllBecome, ManagerOk, WorkerNext;
      NoneMoves(States());
      var steps: int := *;
      while 0 < steps
        invariant Valid() && Interfered()
      {
        var i: int := *;
        if 0 <= i < |taskList| && WorkerEnabled(taskList[i].State()) {
          ghost var was := States();
          Step(i);
          OneAfterTheOther(old(States()), was, States());
        }
        steps := steps - 1;
      }
    }

    /** Blocks until manager `i` can be locked, that is until its task has ended. */
    method Lock(i: nat)
      requires Valid() && i < |taskList|
      modifies taskList
      ensures Valid() && Interfered() && !HoldsLock(taskList[i].State())
    {
      hide MayAllBecome;
      Interfere();
      while HoldsLock(taskList[i].State())
        invariant Valid() && Interfered()
        decreases if taskList[i].pc.Running? then 2 else if taskList[i].pc.Notifying? then 1 else 0
      {
        ghost var was := States();
        assert ManagerOk(was[i]);
        Step(i);
        OneAfterTheOther(old(States()), was, States());
      }
    }

    /** is_idle and set_task of one manager.  `seen` is what the workers have made of the
        managers when the call ends, the assignment left aside. */
    method TryAssign(i: nat, t: Task) returns (ok: bool, ghost seen: seq<Manager>)
      requires Valid() && i < |taskList| && taskList[i].go
      modifies taskList
      ensures Valid() && taskList == old(taskList) && MayAllBecome(old(States()), seen)
      ensures States() == if ok then seen[i := PosixPool.SetTask(seen[i], t)] else seen
      ensures ok ==> seen[i].task.None?
      ensures old(taskList[i].task).None? ==> ok
    {
      Lock(i);
      var idle := taskList[i].IsIdle();
      assert ManagerOk(States()[i]) && MayBecome(old(States())[i], States()[i]);
      seen := States();
      if idle {
        Lock(i);
        OneAfterTheOther(old(States()), seen, States());
        seen := States();
        assert MayBecome(old(States())[i], seen[i]);
        label L:
        ok := taskList[i].SetTask(t);
        Only@L(i);
        assert ManagerOk(seen[i]);
        return;
      }
      return false, seen;
    }

    /** The dispatcher's scan.  Whatever the workers do meanwhile, a manager that was idle at
        the start is found, and the task goes to one manager or to none. */
    method Assign(t: Task) returns (ok: bool, at: nat)
      requires Valid() && forall i :: 0 <= i < |taskList| ==> taskList[i].go
      modifies taskList
      ensures Valid() && taskList == old(taskList)
      ensures (exists i :: 0 <= i < |taskList| && old(taskList[i].task).None?) ==> ok
      ensures ok ==> at < |taskList| && taskList[at].task == Some(t)
      ensures forall i :: 0 <= i < |taskList| && !(ok && i == at) ==>
                MayBecome(old(taskList[i].State()), taskList[i].State())
    {
      hide ManagerOk, MayBecome;
      NoneMoves(States());
      assert forall i :: 0 <= i < |taskList| ==> States()[i] == taskList[i].State();
      for cur := 0 to |taskList|
        invariant Valid() && Interfered()
        invariant forall i :: 0 <= i < cur ==> old(States())[i].task.Some?
      {
        ghost var was := States();
        StillFree(old(States()), was, cur);
        ghost var seen;
        ok, seen := TryAssign(cur, t);
        OneAfterTheOther(old(States()), was, seen);
        assert forall i :: 0 <= i < |taskList| ==> States()[i] == taskList[i].State();
        if ok {
          return true, cur;
        }
      }
      return false, 0;
    }

    /** The fields as the step system sees them, when nothing else has happened. */
    ghost function Fields(): State
      reads this, taskList
    {
      Init(0, 0).(queue := queue, go := go, ms := States())
    }

    /** execute does what its step does: a running pool takes every task, a stopped one none. */
    method Execute(t: Task) returns (accepted: bool)
      modifies this`queue
      ensures accepted <==> go
      ensures queue == if accepted then old(queue) + [t] else old(queue)
      ensures queue == Effect(old(Fields()), Exec(t)).queue
      ensures accepted <==> t in Effect(old(Fields()), Exec(t)).h.accepted
      ensures !accepted <==> t in Effect(old(Fields()), Exec(t)).h.rejected
    {
      accepted := go;
      if accepted {
        queue := queue + [t];
      }
    }

    /** The scan of is_idle.  A positive answer holds of all managers at its return, though
        each was looked at under its own lock and at its own time. */
    method IsIdle() returns (idle: bool)
      requires Valid()
      modifies taskList
      ensures Valid() && Interfered()
      ensures idle ==> alive && queue == [] && taskList != []
      ensures idle ==> forall i :: 0 <= i < |taskList| ==> taskList[i].task.None?
      ensures alive && queue == [] && taskList != [] && old(AllIdle()) ==> idle
    {
      NoneMoves(States());
      if !alive || queue != [] || taskList == [] {
        return false;
      }
      for cur := 0 to |taskList|
        invariant Valid() && Interfered() && forall i :: 0 <= i < cur ==> States()[i].task.None?
      {
        ghost var was := States();
        Lock(cur);
        OneAfterTheOther(old(States()), was, States());
        assert MayBecome(old(States())[cur], States()[cur]);
        var free := taskList[cur].IsIdle();
        if !free {
          return false;
        }
      }
      assert forall i :: 0 <= i < |taskList| ==> States()[i].task == taskList[i].task;
      return true;
    }

    /** No manager has a task, and none has been stopped. */
    ghost predicate AllIdle()
      reads this, taskList
    {
      forall i :: 0 <= i < |taskList| ==> States()[i].task.None? && States()[i].go
    }

    /** The first loop of ThreadPool::terminate: no worker is stopped in the middle of a task. */
    method StopAll()
      requires Valid() && forall i :: 0 <= i < |taskList| ==> taskList[i].go
      modifies taskList
      ensures Valid() && taskList == old(taskList) && forall i :: 0 <= i < |taskList| ==> !taskList[i].go
      ensures forall i :: 0 <= i < |taskList| ==> taskList[i].task == old(taskList[i].task) || taskList[i].task.None?
    {
      for cur := 0 to |taskList|
        invariant Valid() && taskList == old(taskList)
        invariant forall i :: 0 <= i < |taskList| ==> (States()[i].go <==> cur <= i)
        invariant forall i :: 0 <= i < |taskList| ==>
                    States()[i].task == old(States()[i].task) || States()[i].task.None?
      {
        ghost var was := States();
        Lock(cur);
        assert MayAllBecome(was, States()) && ManagerOk(States()[cur]);
        label L:
        taskList[cur].Stop();
        Only@L(cur);
      }
      assert forall i :: 0 <= i < |taskList| ==> States()[i] == taskList[i].State();
    }

    /** Blocks until the worker of a retired manager has ended, deleting what it still has. */
    method Join(i: nat)
      requires Valid() && i < |taskList| && !taskList[i].go && taskList[i].pc != Asleep(false)
      modifies taskList
      ensures Valid() && Interfered() && States()[i].pc.Exited? && States()[i].task.None?
    {
      Interfere();
      assert MayBecome(old(States())[i], States()[i]);
      while !taskList[i].pc.Exited?
        invariant Valid() && Interfered() && !taskList[i].go && taskList[i].pc != Asleep(false)
        decreases match taskList[i].pc
                  case Asleep(_) => 4
                  case Ready => 3
                  case Running => 2
                  case Notifying => 1
                  case Exited => 0
      {
        ghost var was := States();
        Step(i);
        OneAfterTheOther(old(States()), was, States());
        assert MayBecome(was[i], States()[i]);
      }
      assert ManagerOk(States()[i]);
    }

    /** The second: deleting a manager joins its worker. */
    method RetireOne(i: nat)
      requires Valid() && i < |taskList| && forall j :: 0 <= j < |taskList| ==> !States()[j].go
      modifies taskList
      ensures Valid() && taskList == old(taskList) && forall j :: 0 <= j < |taskList| ==> !States()[j].go
      ensures States()[i].pc.Exited? && States()[i].task.None?
      ensures forall j :: 0 <= j < |taskList| && old(States()[j]).pc.Exited? ==> States()[j] == old(States()[j])
    {
      Lock(i);
      assert MayAllBecome(old(States()), States()) && ManagerOk(States()[i]);
      label L:
      taskList[i].Retire();
      Only@L(i);
      ghost var was := States();
      Join(i);
      assert MayAllBecome(was, States());
    }

    /** ThreadPool::terminate: no worker is left, no task in any slot, and no manager. */
    method TerminateManagers()
      requires Valid() && forall i :: 0 <= i < |taskList| ==> taskList[i].go
      modifies taskList, this`taskList
      ensures taskList == []
      ensures forall m :: m in old(taskList) ==> m.pc.Exited? && m.task.None?
    {
      hide MayAllBecome, MayBecome, ManagerOk;
      StopAll();
      assert forall i :: 0 <= i < |taskList| ==> !States()[i].go;
      for cur := 0 to |taskList|
        invariant taskList == old(taskList) && Valid() && forall i :: 0 <= i < |taskList| ==> !States()[i].go
        invariant forall i :: 0 <= i < cur ==> States()[i].pc.Exited? && States()[i].task.None?
      {
        RetireOne(cur);
      }
      assert forall i :: 0 <= i < |taskList| ==> States()[i] == taskList[i].State();
      taskList := [];
    }

    /** EmptyQueue: delete the queued tasks from the front. */
    method EmptyQueue() returns (deleted: seq<Task>)
      modifies this`queue
      ensures queue == [] && deleted == old(queue)
    {
      deleted := [];
      while queue != []
        invariant deleted + queue == old(queue)
        decreases |queue|
      {
        deleted := deleted + [queue[0]];
        queue := queue[1..];
      }
    }
  }
}
