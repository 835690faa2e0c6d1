/** The executes of the pool without a queue that nobody wakes: what wakes them otherwise,
    exactly when there can be one, and when terminate can leave one behind. */
module PosixDirectPoolHanging {
  import opened Prelude
  import opened PosixDirectPool

  // ---- What a sleeping execute can hope for ----

  /** Something that will lead to a notification, or to an execute that will: a task in a
      slot, or an execute that is awake and has not passed a manager yet. */
  ghost predicate Hope(s: State)
  {
    || (exists i :: 0 <= i < |s.slots| && !s.slots[i].Free?)
    || (exists c :: 0 <= c < |s.clients| && Awake(s.clients[c]))
  }

  predicate Awake(k: Client) { k.Want? || k == Asleep(true) || (k.Scan? && k.i == 0) }

  /** One sleep of client `d` in a pool that is not closed. */
  ghost predicate SleepsOn(s: State, d: nat)
  {
    && s.slots != [] && d < |s.clients| && s.clients[d].Asleep? && (s.clients[d] == Asleep(false) ==> Hope(s))
    && (s.pl.Some? ==> s.pl.value < |s.clients| && HoldsPool(s.clients[s.pl.value]))
  }

  predicate Undisturbed(s: State, d: nat, a: Action)
  {
    Enabled(s, a) && !a.Close? && a != Act(d) && a != Spurious(d)
  }

  lemma HopeRemains(s: State, d: nat, a: Action)
    requires SleepsOn(s, d) && Undisturbed(s, d, a)
    ensures SleepsOn(Step(s, a), d)
  {
    var s' := Step(s, a);
    if s'.clients[d] == Asleep(false) {
      match a
      case Act(c) => ActHope(s, d, c);
      case Finish(i, w) =>
        assert s.clients[d] == Asleep(false);
        assert s'.clients[w] == Asleep(true);
      case Start(i) => assert !s'.slots[i].Free?;
      case Execute(c) => assert Awake(s'.clients[c]);
      case Spurious(c) => assert Awake(s'.clients[c]);
      case Terminate(c) =>
        if e :| 0 <= e < |s.clients| && Awake(s.clients[e]) {
          assert Awake(s'.clients[e]);
        }
    }
  }

  lemma ActHope(s: State, d: nat, c: nat)
    requires s.slots != [] && Hope(s) && ActEnabled(s, c) && d != c && d < |s.clients| && s.clients[d] == Asleep(false)
    ensures Hope(ActStep(s, c))
  {
    var s' := ActStep(s, c);
    if s.clients[c].Scan? && s.clients[c].i < |s.slots| && !s.slots[s.clients[c].i].Free? {
      assert !s'.slots[s.clients[c].i].Free?;
    } else if s.clients[c].Scan? && s.clients[c].i < |s.slots| && s.clients[c].idle {
      assert !s'.slots[s.clients[c].i].Free?;
    } else if Awake(s.clients[c]) && !s.clients[c].Scan? {
      assert Awake(s'.clients[c]);
    } else if s.clients[c].Scan? && s.clients[c].i == 0 {
      assert Awake(s'.clients[c]);
    } else if i :| 0 <= i < |s.slots| && !s.slots[i].Free? {
      assert !s'.slots[i].Free?;
    } else {
      var e :| 0 <= e < |s.clients| && Awake(s.clients[e]);
      assert Awake(s'.clients[e]);
    }
  }

  /** The pool lock is held by the one whose position says so. */
  ghost predicate LockOk(s: State)
  {
    s.pl.Some? ==> s.pl.value < |s.clients| && HoldsPool(s.clients[s.pl.value])
  }

  lemma HopeMoves(s: State)
    requires s.slots != [] && Hope(s) && LockOk(s)
    ensures !Quiet(s)
  {
    if (forall i :: 0 <= i < |s.slots| ==> s.slots[i].Free?) && s.pl.None? {
      var c :| 0 <= c < |s.clients| && Awake(s.clients[c]);
      assert s.clients[c].Scan? || ActEnabled(s, c);
    }
  }

  lemma StepLock(s: State, a: Action)
    requires LockOk(s) && Enabled(s, a)
    ensures LockOk(Step(s, a))
  {
  }

  /** An execute that has fallen asleep while there is hope, and sleeps on without a signal
      in a pool that is not closed, does not sleep in a pool at rest.  So an execute hangs in
      an open pool only if all managers were free when it went to sleep. */
  lemma HopefulSleeperIsWoken(size: nat, clients: nat, acts: seq<Action>, d: nat, more: seq<Action>)
    requires CanRun(Enabled, Step, Init(size, clients), acts)
    requires var s := Run(Step, Init(size, clients), acts);
      s.slots != [] && d < |s.clients| && s.clients[d].Asleep? && Hope(s)
    requires CanRun((s: State, a: Action) => Undisturbed(s, d, a), Step, Run(Step, Init(size, clients), acts), more)
    ensures var s := Run(Step, Run(Step, Init(size, clients), acts), more); (
      d < |s.clients| && s.clients[d].Asleep? && (!s.clients[d].signalled ==> Hope(s) && !Quiet(s)))
  {
    hide Step, Enabled, Quiet, Hope;
    var s := Run(Step, Init(size, clients), acts);
    forall s, a | LockOk(s) && Enabled(s, a) ensures LockOk(Step(s, a)) {
      StepLock(s, a);
    }
    RunKeeps(Enabled, Step, LockOk, Init(size, clients), acts);
    var undisturbed := (s: State, a: Action) => Undisturbed(s, d, a);
    forall s, a | SleepsOn(s, d) && undisturbed(s, a) ensures SleepsOn(Step(s, a), d) {
      HopeRemains(s, d, a);
    }
    RunKeeps(undisturbed, Step, (s: State) => SleepsOn(s, d), s, more);
    var s' := Run(Step, s, more);
    if !s'.clients[d].signalled {
      HopeMoves(s');
    }
  }

  /** A running task leaves its slot by its own worker alone: terminate, too, waits for it. */
  lemma TasksRunToTheirEnd(s: State, a: Action, i: nat)
    requires Enabled(s, a) && i < |s.slots| && s.slots[i].Running? && (a.Finish? ==> a.i != i)
    ensures i < |Step(s, a).slots| && Step(s, a).slots[i].Running?
  {
  }

  /** A scan waits for running tasks: it passes only slots whose task has not been noticed. */
  lemma ScanWaitsForTasks(s: State, c: nat)
    requires ActEnabled(s, c) && s.clients[c].Scan? && s.clients[c].i < |s.slots|
    requires ActStep(s, c).clients[c] == Scan(s.clients[c].i + 1, false)
    ensures s.slots[s.clients[c].i].Given?
  {
  }

  /** An execute returns only in the step that fills a free slot, or from a closed pool. */
  lemma ExecuteFillsOneSlot(s: State, c: nat)
    requires ActEnabled(s, c) && Executes(s.clients[c]) && !Executes(ActStep(s, c).clients[c])
    ensures var s' := ActStep(s, c);
      s.slots == [] || exists i :: 0 <= i < |s.slots| && s.slots[i].Free? && s'.slots == s.slots[i := Given]
  {
    if s.clients[c].Scan? {
      assert s.slots[s.clients[c].i].Free?;
    }
  }

  // ---- With one task more an execute can sleep for ever ----

  ghost predicate LimitedRun(size: nat, limit: nat, acts: seq<Action>)
  {
    CanRun(Limited(limit), Step, Init(size, 3), acts)
  }

  function After(size: nat, acts: seq<Action>): State { Run(Step, Init(size, 3), acts) }

  lemma Extend(size: nat, limit: nat, acts: seq<Action>, a: Action)
    requires LimitedRun(size, limit, acts) && Limited(limit)(After(size, acts), a)
    ensures LimitedRun(size, limit, acts + [a]) && After(size, acts + [a]) == Step(After(size, acts), a)
  {
    RunExtend(Limited(limit), Step, Init(size, 3), acts, a);
  }

  /** The slots from `from` to `to` have a task that nobody has noticed, the rest are free. */
  function Dealt(size: nat, from: nat, to: nat): seq<Slot> { seq(size, i => if from <= i < to then Given else Free) }

  lemma {:induction false} DealtLoad(size: nat, to: nat)
    requires to <= size
    ensures Sum(Taken(Dealt(size, 0, to))) == to
  {
    if to == 0 {
      AllOnes(Taken(Dealt(size, 0, 0)));
    } else {
      DealtLoad(size, to - 1);
      assert Dealt(size, 0, to) == Dealt(size, 0, to - 1)[to - 1 := Given];
      SlotLoad(Dealt(size, 0, to - 1), to - 1, Given);
    }
  }

  lemma ScanPasses(size: nat, limit: nat, acts0: seq<Action>, k: nat, cs: seq<Client>, c: nat)
    returns (acts: seq<Action>)
    requires k <= size && c < |cs| && LimitedRun(size, limit, acts0)
    requires After(size, acts0) == State(Dealt(size, 0, k), cs[c := Scan(0, false)], Some(c))
    ensures LimitedRun(size, limit, acts)
    ensures After(size, acts) == State(Dealt(size, 0, k), cs[c := Scan(k, false)], Some(c))
  {
    hide CanRun, Run, Load;
    acts := acts0;
    for i := 0 to k
      invariant LimitedRun(size, limit, acts)
      invariant After(size, acts) == State(Dealt(size, 0, k), cs[c := Scan(i, false)], Some(c))
    {
      Extend(size, limit, acts, Act(c));
      acts := acts + [Act(c)];
    }
  }

  /** An execute comes and passes the managers that have been given a task. */
  lemma ExecuteComes(size: nat, limit: nat, acts0: seq<Action>, k: nat, cs: seq<Client>, c: nat)
    returns (acts: seq<Action>)
    requires 0 < size && k <= size && k + Sum(Inside(cs)) < limit && LimitedRun(size, limit, acts0)
    requires c < |cs| && cs[c].Out? && After(size, acts0) == State(Dealt(size, 0, k), cs, None)
    ensures LimitedRun(size, limit, acts)
    ensures After(size, acts) == State(Dealt(size, 0, k), cs[c := Scan(k, false)], Some(c))
  {
    hide CanRun, Run;
    DealtLoad(size, k);
    Extend(size, limit, acts0, Execute(c));
    acts := acts0 + [Execute(c)];
    Extend(size, limit, acts, Act(c));
    acts := acts + [Act(c)];
    acts := ScanPasses(size, limit, acts, k, cs, c);
  }

  const NOBODY := [Out, Out, Out]

  lemma EveryoneIsDealt(size: nat, limit: nat) returns (acts: seq<Action>)
    requires 0 < size < limit
    ensures LimitedRun(size, limit, acts) && After(size, acts) == State(Dealt(size, 0, size), NOBODY, None)
  {
    hide CanRun, Run, Load;
    AllOnes(Inside(NOBODY));
    acts := [];
    assert LimitedRun(size, limit, acts) && After(size, acts) == State(Dealt(size, 0, 0), NOBODY, None) by {
      EmptyRun(size, limit);
    }
    for k := 0 to size
      invariant LimitedRun(size, limit, acts) && After(size, acts) == State(Dealt(size, 0, k), NOBODY, None)
    {
      acts := ExecuteComes(size, limit, acts, k, NOBODY, 0);
      Extend(size, limit, acts, Act(0));
      acts := acts + [Act(0)];
      Extend(size, limit, acts, Act(0));
      acts := acts + [Act(0)];
      assert After(size, acts).slots == Dealt(size, 0, k + 1);
    }
  }

  lemma EmptyRun(size: nat, limit: nat)
    ensures LimitedRun(size, limit, []) && After(size, []) == State(Dealt(size, 0, 0), NOBODY, None)
  {
  }

  /** While the scan that found nobody has not yet gone to sleep, all workers finish and
      announce it to nobody. */
  lemma EveryoneFinishes(size: nat, limit: nat, acts0: seq<Action>) returns (acts: seq<Action>)
    requires LimitedRun(size, limit, acts0)
    requires After(size, acts0) == State(Dealt(size, 0, size), [Scan(size, false), Out, Out], Some(0))
    ensures LimitedRun(size, limit, acts)
    ensures After(size, acts) == State(Dealt(size, size, size), [Scan(size, false), Out, Out], Some(0))
  {
    hide CanRun, Run, Load;
    acts := acts0;
    for n := 0 to size
      invariant LimitedRun(size, limit, acts)
      invariant After(size, acts) == State(Dealt(size, n, size), [Scan(size, false), Out, Out], Some(0))
    {
      Extend(size, limit, acts, Start(n));
      acts := acts + [Start(n)];
      Extend(size, limit, acts, Finish(n, 0));
      acts := acts + [Finish(n, 0)];
      assert After(size, acts).slots == Dealt(size, n + 1, size);
    }
  }

  lemma ExecuteHangs(size: nat, limit: nat) returns (acts: seq<Action>)
    requires 0 < size < limit
    ensures LimitedRun(size, limit, acts) && Hung(After(size, acts))
  {
    hide CanRun, Run, Load;
    AllOnes(Inside(NOBODY));
    acts := EveryoneIsDealt(size, limit);
    acts := ExecuteComes(size, limit, acts, size, NOBODY, 0);
    acts := EveryoneFinishes(size, limit, acts);
    Extend(size, limit, acts, Act(0));
    acts := acts + [Act(0)];
    assert After(size, acts).clients[0] == Asleep(false);
  }

  /** An execute can sleep for ever in an idle pool exactly when the callers let the tasks in
      their care outnumber the workers of a pool that has any. */
  lemma HangingThreshold(size: nat, limit: nat)
    ensures CanHang(size, limit) <==> 0 < size < limit
  {
    hide CanRun, Run, Hung;
    if 0 < size < limit {
      var acts := ExecuteHangs(size, limit);
    } else {
      forall clients: nat, acts: seq<Action> | CanRun(Limited(limit), Step, Init(size, clients), acts)
        ensures !Hung(Run(Step, Init(size, clients), acts))
      {
        if size == 0 {
          EmptyPool(limit, clients, acts);
        } else {
          RunCalm(size, 0, limit, clients, acts);
          CalmIsNotHung(Run(Step, Init(size, clients), acts), size);
        }
      }
    }
  }

  lemma CalmIsNotHung(s: State, size: nat)
    requires Calm(s, size, 0)
    ensures !Hung(s)
  {
  }

  // ---- With two more, terminate can leave one behind ----

  /** Two executes come while all workers have a task, and go to sleep. */
  lemma TwoFallAsleep(size: nat, limit: nat) returns (acts: seq<Action>)
    requires 0 < size && size + 1 < limit
    ensures LimitedRun(size, limit, acts)
    ensures After(size, acts) == State(Dealt(size, 0, size), [Asleep(false), Asleep(false), Out], None)
  {
    hide CanRun, Run, Load;
    AllOnes(Inside(NOBODY));
    ClientLoad(NOBODY, 0, Asleep(false));
    acts := EveryoneIsDealt(size, limit);
    acts := ExecuteComes(size, limit, acts, size, NOBODY, 0);
    Extend(size, limit, acts, Act(0));
    acts := acts + [Act(0)];
    acts := ExecuteComes(size, limit, acts, size, NOBODY[0 := Asleep(false)], 1);
    Extend(size, limit, acts, Act(1));
    acts := acts + [Act(1)];
  }

  /** terminate wakes one of them; it deletes its task and returns.  Nobody wakes the other. */
  lemma TerminateWakesOne(size: nat, limit: nat) returns (acts: seq<Action>)
    requires 0 < size && size + 1 < limit
    ensures LimitedRun(size, limit, acts) && Abandoned(After(size, acts))
  {
    hide CanRun, Run, Load;
    acts := TwoFallAsleep(size, limit);
    Extend(size, limit, acts, Terminate(2));
    acts := acts + [Terminate(2)];
    Extend(size, limit, acts, Act(2));
    acts := acts + [Act(2)];
    assert After(size, acts).clients[0] == Asleep(false);
    Extend(size, limit, acts, Close(2, 0));
    acts := acts + [Close(2, 0)];
    Extend(size, limit, acts, Act(0));
    acts := acts + [Act(0)];
    Extend(size, limit, acts, Act(0));
    acts := acts + [Act(0)];
    assert After(size, acts) == State([], [Out, Asleep(false), Out], None);
    assert After(size, acts).clients[1] == Asleep(false);
  }

  /** terminate, which notifies once, can leave an execute asleep in the closed pool exactly
      when the callers let the tasks in their care outnumber the workers by two. */
  lemma AbandoningThreshold(size: nat, limit: nat)
    ensures CanAbandon(size, limit) <==> 0 < size && size + 1 < limit
  {
    hide CanRun, Run, Hung, Calm;
    if 0 < size && size + 1 < limit {
      var acts := TerminateWakesOne(size, limit);
    } else {
      forall clients: nat, acts: seq<Action> | CanRun(Limited(limit), Step, Init(size, clients), acts)
        ensures !Abandoned(Run(Step, Init(size, clients), acts))
      {
        if size == 0 {
          EmptyPool(limit, clients, acts);
        } else {
          RunCalm(size, 1, limit, clients, acts);
          CalmIsNotAbandoned(Run(Step, Init(size, clients), acts), size);
        }
      }
    }
  }

  lemma CalmIsNotAbandoned(s: State, size: nat)
    requires Calm(s, size, 1)
    ensures !Abandoned(s)
  {
  }
}
