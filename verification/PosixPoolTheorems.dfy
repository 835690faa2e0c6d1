/** What every run of the queued pool guarantees to those who submit tasks. */
module PosixPoolTheorems {
  import opened Prelude
  import opened PosixPool
  import opened PosixPoolControl
  import opened PosixPoolSafety

  /** Every task in the pool's care, once for each place in which it is. */
  function Places(s: State): multiset<Task>
  {
    Filled(Pending(s.clients)) + multiset(s.queue) + Filled(Slots(s.ms)) + multiset(s.h.finished)
    + multiset(s.h.discarded) + multiset(s.h.rejected) + multiset(s.h.drained)
  }

  lemma PlacesAre(s: State)
    requires Ledger(s)
    ensures Places(s) == multiset(s.h.submitted)
  {
    var h := s.h;
    assert multiset(h.accepted) == multiset(h.dispatched) + multiset(h.drained) + multiset(s.queue);
  }

  /** In every reachable state the queue is what has been accepted and not yet dispatched,
      in order, and every submitted task is in exactly one place: waiting in its client's
      call, queued, in one slot, run and deleted, or deleted without a run. */
  lemma ExactlyOnePlace(size: nat, clients: nat, acts: seq<Action>, t: Task)
    requires IsRun(size, clients, acts)
    ensures var s := After(size, clients, acts); (
      && s.h.accepted == s.h.dispatched + s.h.drained + s.queue
      && Places(s)[t] == if t in s.h.submitted then 1 else 0)
  {
    RunGood(size, clients, acts);
    PlacesAre(After(size, clients, acts));
  }

  /** The front that the dispatcher peeked at, however long it slept since, is what it
      pops, and the set_task that follows a positive is_idle never fails. */
  lemma PeekedTaskIsPopped(size: nat, clients: nat, acts: seq<Action>)
    requires IsRun(size, clients, acts)
    ensures var s := After(size, clients, acts); (
      && (s.disp.DScan? ==> s.queue != [] && s.queue[0] == s.disp.t)
      && (s.disp.DScan? && s.disp.idle ==>
            s.disp.i < |s.ms| && SetTask(s.ms[s.disp.i], s.disp.t).task == Some(s.disp.t))
      && ((s.disp.DAsleep? || s.disp.DReady?) && s.disp.peek.Some? ==>
            s.queue != [] && s.queue[0] == s.disp.peek.value))
  {
    RunControl(size, clients, acts);
  }

  // ---- is_idle ----

  /** While is_idle scans, no shutdown has begun, so no worker has thrown a task away. */
  lemma ScanSeesNoExit(s: State, c: nat)
    requires Good(s) && c < |s.clients| && s.clients[c].QueryScan?
    ensures s.h.discarded == []
  {
    assert ClientOk(s, s.clients[c]);
    assert PhaseOf(s) == Live;
    forall i | 0 <= i < |s.ms| ensures ExitFlags(s.ms)[i] == 0 {
      assert ManagerOk(s.ms[i]);
    }
    SumBound(ExitFlags(s.ms), 0);
  }

  ghost predicate AllDone(s: State)
  {
    && multiset(s.h.finished) == multiset(s.h.accepted) && s.queue == []
    && forall i :: 0 <= i < |s.ms| ==> s.ms[i].task.None?
  }

  lemma ScanEndsDone(s: State, c: nat)
    requires Good(s) && c < |s.clients| && s.clients[c] == QueryScan(|s.ms|)
    ensures AllDone(s)
  {
    assert ClientOk(s, s.clients[c]);
    FilledNone(Slots(s.ms));
    ScanSeesNoExit(s, c);
    assert s.h.accepted == s.h.dispatched;
  }

  lemma AnswersTrue(s: State, c: nat)
    requires Control(s) && ClientEnabled(s, c) && ClientStep(s, c).clients[c] == Answered(true)
    ensures s.clients[c] == QueryScan(|s.ms|)
    ensures var s' := ClientStep(s, c); s'.h == s.h && s'.queue == s.queue && s'.ms == s.ms
  {
    assert ClientOk(s, s.clients[c]);
  }

  /** is_idle locks the managers one after the other, yet a positive answer is a correct
      snapshot: when it is given, every accepted task has been run and deleted. */
  lemma IdleIsASnapshot(size: nat, clients: nat, acts: seq<Action>, c: nat)
    requires IsRun(size, clients, acts)
    requires ClientEnabled(After(size, clients, acts), c)
    requires ClientStep(After(size, clients, acts), c).clients[c] == Answered(true)
    ensures AllDone(ClientStep(After(size, clients, acts), c))
  {
    RunGood(size, clients, acts);
    AnswersTrue(After(size, clients, acts), c);
    ScanEndsDone(After(size, clients, acts), c);
  }

  // ---- Wake-ups ----

  /** Whoever sleeps without a pending signal has a reason to: a worker has no task, the
      dispatcher has not been stopped, and in its idle wait it has nothing to dispatch. */
  lemma SleepersHaveAReason(size: nat, clients: nat, acts: seq<Action>)
    requires IsRun(size, clients, acts)
    ensures var s := After(size, clients, acts); (
      && (forall i :: 0 <= i < |s.ms| && s.ms[i].pc == Asleep(false) ==> s.ms[i].task.None?)
      && (s.disp.DAsleep? && !s.disp.signalled ==> s.go)
      && (s.disp == DAsleep(None, false) ==> s.queue == []))
  {
    RunControl(size, clients, acts);
    var s := After(size, clients, acts);
    forall i | 0 <= i < |s.ms| && s.ms[i].pc == Asleep(false) ensures s.ms[i].task.None? {
      assert ManagerOk(s.ms[i]);
    }
  }

  // ---- Destruction ----

  ghost predicate AllDeletedOnce(h: History, size: nat)
  {
    && multiset(h.finished) + multiset(h.discarded) + multiset(h.rejected) + multiset(h.drained)
       == multiset(h.submitted)
    && h.accepted == h.dispatched + h.drained
    && multiset(h.dispatched) == multiset(h.finished) + multiset(h.discarded)
    && |h.discarded| <= size
  }

  lemma EmptyLedger(h: History, ms: seq<Manager>, cs: seq<Client>)
    requires InOrder(h, [], true) && DispatchedKept(h, ms) && SubmittedKept(h, cs) && DiscardsOk(h, ms)
    requires Filled(Slots(ms)) == Filled(Pending(cs)) == multiset{}
    ensures AllDeletedOnce(h, |ms|)
  {
    SumBound(ExitFlags(ms), 1);
    assert multiset(h.accepted) == multiset(h.dispatched) + multiset(h.drained);
  }

  lemma DestroyedIsEmpty(s: State, c: nat)
    requires Good(s) && c < |s.clients| && s.clients[c].Destroyed?
    ensures Filled(Slots(s.ms)) == Filled(Pending(s.clients)) == multiset{} && s.queue == [] && s.joined
  {
    assert ClientOk(s, s.clients[c]);
    DestroyerActs(s, c);
    forall i | 0 <= i < |s.ms| ensures Slots(s.ms)[i].None? {
      assert ManagerOk(s.ms[i]);
    }
    FilledNone(Slots(s.ms));
    FilledNone(Pending(s.clients));
  }

  /** When the destructor has returned, every task ever passed to execute has been deleted
      exactly once.  Those accepted but never run are at most one per worker, taken from a
      slot, and a suffix of the acceptance order, taken from the queue. */
  lemma DestructionIsComplete(size: nat, clients: nat, acts: seq<Action>, c: nat)
    requires IsRun(size, clients, acts)
    requires c < |After(size, clients, acts).clients| && After(size, clients, acts).clients[c].Destroyed?
    ensures AllDeletedOnce(After(size, clients, acts).h, size)
  {
    hide Control, InOrder, DispatchedKept, SubmittedKept, DiscardsOk, AllDeletedOnce;
    var s := After(size, clients, acts);
    RunGood(size, clients, acts);
    RunSize(size, clients, acts);
    DestroyedIsEmpty(s, c);
    EmptyLedger(s.h, s.ms, s.clients);
  }

  ghost predicate Sized(s: State, size: nat, clients: nat) { |s.ms| == size && |s.clients| == clients }

  lemma EffectSize(s: State, k: Client)
    ensures Sized(Effect(s, k), |s.ms|, |s.clients|)
  {
  }

  lemma DispatcherSize(s: State)
    requires DispatcherEnabled(s)
    ensures Sized(DispatcherStep(s), |s.ms|, |s.clients|)
  {
    hide SetTask;
  }

  lemma StepSize(s: State, a: Action)
    requires Enabled(s, a)
    ensures Sized(Step(s, a), |s.ms|, |s.clients|)
  {
    hide Effect, Next, LoopHead, Notified, SetTask, Delete, Signal, Resume;
    match a
    case ClientAct(c) => EffectSize(s, s.clients[c]);
    case DispatcherAct => DispatcherSize(s);
    case _ =>
  }

  lemma RunSize(size: nat, clients: nat, acts: seq<Action>)
    requires IsRun(size, clients, acts)
    ensures Sized(After(size, clients, acts), size, clients)
  {
    hide Step, Enabled;
    forall s, a | Sized(s, size, clients) && Enabled(s, a) ensures Sized(Step(s, a), size, clients) {
      StepSize(s, a);
    }
    RunKeeps(Enabled, Step, (s: State) => Sized(s, size, clients), Init(size, clients), acts);
  }

  /** A pool of one worker runs a prefix of what it accepted, in the order of acceptance,
      at every moment and also after shutdown. */
  lemma LoneWorkerKeepsOrder(clients: nat, acts: seq<Action>)
    requires IsRun(1, clients, acts)
    ensures After(1, clients, acts).h.finished <= After(1, clients, acts).h.accepted
  {
    RunGood(1, clients, acts);
    RunSize(1, clients, acts);
  }
}
