/** The methods of threadpool.cpp's ThreadPool as imperative code.  They hold the pool lock
    throughout, so only workers come in between, at every call of `Interfere`. */
module TryLockPoolObjects {
  import opened Prelude
  import opened TryLockPool

  /** What any number of steps of a worker that wants no pool lock makes of its manager. */
  ghost predicate MayBecome(m: Manager, m': Manager)
  {
    && ManagerOk(m') && m'.go == m.go && (m'.task == m.task || m'.task.None?)
    && (m.pc.Exited? ==> m' == m) && (m == Manager(Asleep(false), None, m.go) ==> m' == m)
    && (m.go && Takes(m) ==> Takes(m'))
  }

  predicate Found(m: Manager) { (m.go && Takes(m)) || m.pc == Asleep(false) }

  class ThreadPool {
    var taskList: seq<Manager>

    ghost predicate Valid()
      reads this
    {
      forall i :: 0 <= i < |taskList| ==> ManagerOk(taskList[i])
    }

    constructor (size: nat)
      ensures Valid() && taskList == Init(size, 0).ms
    {
      taskList := seq(size, i => STARTED);
    }

    twostate predicate Interfered()
      reads this
    {
      |taskList| == |old(taskList)| && forall i :: 0 <= i < |taskList| ==> MayBecome(old(taskList[i]), taskList[i])
    }

    /** Any of the workers take any number of steps, up to asking for the pool lock. */
    method Interfere()
      requires Valid()
      modifies this
      ensures Valid() && Interfered()
    {
      var steps: int := *;
      while 0 < steps
        invariant Valid() && Interfered()
      {
        var i: int := *;
        if 0 <= i < |taskList| {
          var pc := taskList[i].pc;
          if pc != Asleep(false) && !pc.Exited? && !pc.Notifying? {
            taskList := taskList[i := WorkerNext(taskList[i])];
          }
        }
        steps := steps - 1;
      }
    }

    /** set_task: look at the slot without its lock, try the lock once, look again.  It succeeds
        if slot and lock were free at the start, and fails only if they are not at the end; a
        failure leaves every slot to its worker. */
    method SetTask(i: nat, t: Task) returns (ok: bool)
      requires Valid() && i < |taskList|
      modifies this
      ensures Valid() && |taskList| == |old(taskList)|
      ensures forall j :: 0 <= j < |taskList| && !(ok && j == i) ==> MayBecome(old(taskList[j]), taskList[j])
      ensures ok ==> old(taskList[i].task).None?
      ensures ok ==> exists m :: MayBecome(old(taskList[i]), m) && Takes(m) && taskList[i] == TryLockPool.SetTask(m, t)
      ensures !ok ==> !Takes(taskList[i])
      ensures old(taskList[i].go && Takes(taskList[i])) || old(taskList[i].pc) == Asleep(false) ==> ok
    {
      if taskList[i].task.Some? {
        return false;
      }
      Interfere();
      if HoldsLock(taskList[i]) {
        return false;
      }
      var m := taskList[i];
      ok := m.task.None?;
      if ok {
        taskList := taskList[i := Notified(m.(task := Some(t)))];
      }
    }

    /** One scan of execute.  The task goes to one manager or to none; a running manager whose
        slot and lock are free at the start of the scan, or one that sleeps, is found. */
    method TryAll(t: Task) returns (at: Option<nat>)
      requires Valid()
      modifies this
      ensures Valid() && |taskList| == |old(taskList)|
      ensures at.Some? ==> at.value < |taskList| && taskList[at.value].task == Some(t)
      ensures forall i :: 0 <= i < |taskList| && Some(i) != at ==> MayBecome(old(taskList[i]), taskList[i])
      ensures (exists i :: 0 <= i < |taskList| && old(Found(taskList[i]))) ==> at.Some?
    {
      var cur := 0;
      while cur < |taskList|
        invariant cur <= |taskList| && Valid() && Interfered()
        invariant forall i :: 0 <= i < cur ==> !old(Found(taskList[i]))
      {
        Interfere();
        if IsIdle(taskList[cur]) {
          Interfere();
          var ok := SetTask(cur, t);
          if ok {
            return Some(cur);
          }
        }
        cur := cur + 1;
      }
      return None;
    }

    /** The scan of is_idle: a positive answer holds of all managers at its return, and is given
        if no manager had a task, or was stopped, at the start. */
    method IsPoolIdle() returns (idle: bool)
      requires Valid()
      modifies this
      ensures Valid() && Interfered()
      ensures idle ==> forall i :: 0 <= i < |taskList| ==> taskList[i].task.None?
      ensures (forall i :: 0 <= i < |taskList| ==> old(taskList[i].task).None? && old(taskList[i].go)) ==> idle
    {
      var cur := 0;
      while cur < |taskList|
        invariant cur <= |taskList| && Valid() && Interfered()
        invariant forall i :: 0 <= i < cur ==> taskList[i].task.None?
      {
        Interfere();
        if !IsIdle(taskList[cur]) {
          return false;
        }
        cur := cur + 1;
      }
      return true;
    }
  }
}
