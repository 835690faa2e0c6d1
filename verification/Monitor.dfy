/** The owner-tracking monitor of threadpool.cpp: a mutex, and beside it an atomic `tid_`
    that names the thread by which it believes itself to be locked.

    Every access to the one or the other is a step of its own, so that threads can come
    between the check of tid_ and the operation on the mutex. */
module Monitor {
  import opened Prelude

  type Thread = nat

  datatype TryLockResult = LOCKED | BUSY | OWNED

  /** What a finished call returned, and whether its caller owned the mutex when it began. */
  datatype Returned =
    | Nothing
    | FromLock(ok: bool, owned: bool)
    | FromUnlock(ok: bool, owned: bool)
    | FromTryLock(result: TryLockResult, owned: bool)

  /** Where a thread is between two accesses. */
  datatype Pc =
    | Out(r: Returned)
    | LockCheck(owned: bool)       // lock: about to read tid_
    | LockMutex                    // about to lock the mutex
    | LockSet                      // about to write tid_
    | TimedTry                     // lock(timeout): about to try the mutex
    | TimedSet
    | UnlockCheck(owned: bool)     // unlock: about to read tid_
    | UnlockClear                  // about to clear tid_
    | UnlockMutex                  // about to unlock the mutex
    | TryCheck(owned: bool)        // trylock: about to read tid_
    | TryMutex                     // about to try the mutex
    | TrySet
    | WaitClear                    // wait: about to clear tid_
    | WaitSleep                    // about to give the mutex back and sleep
    | Sleeping
    | WaitMutex                    // woken, about to lock the mutex again
    | WaitSet

  datatype State = State(tid: Option<Thread>, owner: Option<Thread>, pcs: seq<Pc>)

  datatype Operation = Lock | TimedLock | Unlock | TryLock | Wait

  /** `again` decides what the model leaves open: whether the condition of a wait still fails
      and whether a timed lock tries once more. */
  datatype Action = Call(t: Thread, op: Operation) | Act(t: Thread, again: bool)

  function Init(threads: nat): State { State(None, None, seq(threads, i => Out(Nothing))) }

  predicate Owns(s: State, t: Thread) { s.owner == Some(t) }

  /** A wait is called by owners, a timed lock by others; the rest by anybody. */
  predicate CallEnabled(s: State, t: Thread, op: Operation)
  {
    && t < |s.pcs| && s.pcs[t].Out?
    && (op == Wait ==> Owns(s, t)) && (op == TimedLock ==> !Owns(s, t))
  }

  function Called(op: Operation, owned: bool): Pc
  {
    match op
    case Lock => LockCheck(owned)
    case TimedLock => TimedTry
    case Unlock => UnlockCheck(owned)
    case TryLock => TryCheck(owned)
    case Wait => WaitClear
  }

  /** Only the two blocking locks of the mutex can be held up. */
  predicate ActEnabled(s: State, t: Thread)
  {
    t < |s.pcs| && !s.pcs[t].Out? && (s.pcs[t].LockMutex? || s.pcs[t].WaitMutex? ==> s.owner.None?)
  }

  function To(s: State, t: Thread, pc: Pc): State
    requires t < |s.pcs|
  {
    s.(pcs := s.pcs[t := pc])
  }

  function ActStep(s: State, t: Thread, again: bool): State
    requires ActEnabled(s, t)
  {
    var mine := s.tid == Some(t);
    match s.pcs[t]
    case Out(_) => s
    case LockCheck(owned) => To(s, t, if mine then Out(FromLock(false, owned)) else LockMutex)
    case LockMutex => To(s, t, LockSet).(owner := Some(t))
    case LockSet => To(s, t, Out(FromLock(true, false))).(tid := Some(t))
    case TimedTry =>
      if s.owner.None? then To(s, t, TimedSet).(owner := Some(t))
      else To(s, t, if again then TimedTry else Out(FromLock(false, false)))
    case TimedSet => To(s, t, Out(FromLock(true, false))).(tid := Some(t))
    case UnlockCheck(owned) => To(s, t, if mine then UnlockClear else Out(FromUnlock(false, owned)))
    case UnlockClear => To(s, t, UnlockMutex).(tid := None)
    case UnlockMutex => To(s, t, Out(FromUnlock(true, true))).(owner := None)
    case TryCheck(owned) => To(s, t, if mine then Out(FromTryLock(OWNED, owned)) else TryMutex)
    case TryMutex =>
      if s.owner.None? then To(s, t, TrySet).(owner := Some(t))
      else To(s, t, Out(FromTryLock(BUSY, false)))
    case TrySet => To(s, t, Out(FromTryLock(LOCKED, false))).(tid := Some(t))
    case WaitClear => To(s, t, WaitSleep).(tid := None)
    case WaitSleep => To(s, t, Sleeping).(owner := None)
    case Sleeping => To(s, t, WaitMutex)
    case WaitMutex => To(s, t, WaitSet).(owner := Some(t))
    case WaitSet => To(s, t, if again then WaitClear else Out(Nothing)).(tid := Some(t))
  }

  predicate Enabled(s: State, a: Action)
  {
    match a
    case Call(t, op) => CallEnabled(s, t, op)
    case Act(t, _) => ActEnabled(s, t)
  }

  function Step(s: State, a: Action): State
  {
    if !Enabled(s, a) then s else
    match a
    case Call(t, op) => To(s, t, Called(op, Owns(s, t)))
    case Act(t, again) => ActStep(s, t, again)
  }

  predicate IsRun(threads: nat, acts: seq<Action>) { CanRun(Enabled, Step, Init(threads), acts) }

  function After(threads: nat, acts: seq<Action>): State { Run(Step, Init(threads), acts) }

  // ---- The invariant ----

  /** What a thread's position says about the mutex and about tid_. */
  ghost predicate PcOk(s: State, t: Thread, pc: Pc)
  {
    var owns, named := Owns(s, t), s.tid == Some(t);
    match pc
    case Out(r) => (owns <==> named) && ReturnedOk(r, owns)
    case LockCheck(owned) => (owns <==> named) && owned == owns
    case UnlockCheck(owned) => (owns <==> named) && owned == owns
    case TryCheck(owned) => (owns <==> named) && owned == owns
    case LockMutex => !owns
    case TimedTry => !owns
    case TryMutex => !owns
    case Sleeping => !owns
    case WaitMutex => !owns
    case LockSet => owns && !named
    case TimedSet => owns && !named
    case TrySet => owns && !named
    case WaitSet => owns && !named
    case UnlockClear => owns && named
    case WaitClear => owns && named
    case UnlockMutex => owns && !named
    case WaitSleep => owns && !named
  }

  ghost predicate ReturnedOk(r: Returned, owns: bool)
  {
    match r
    case Nothing => true
    case FromLock(ok, owned) => (ok ==> !owned) && (owns <==> ok || owned)
    case FromUnlock(ok, owned) => (ok <==> owned) && !owns
    case FromTryLock(result, owned) => (result == OWNED <==> owned) && (owns <==> result != BUSY)
  }

  ghost predicate Inv(s: State)
  {
    (s.tid.Some? ==> s.owner == s.tid) && forall t :: 0 <= t < |s.pcs| ==> PcOk(s, t, s.pcs[t])
  }

  lemma ActInv(s: State, t: Thread, again: bool)
    requires Inv(s) && ActEnabled(s, t)
    ensures Inv(ActStep(s, t, again))
  {
    assert PcOk(s, t, s.pcs[t]);
    var s' := ActStep(s, t, again);
    forall u | 0 <= u < |s.pcs| && u != t ensures PcOk(s', u, s'.pcs[u]) {
      assert s'.pcs[u] == s.pcs[u] && PcOk(s, u, s.pcs[u]);
      assert (Owns(s', u) <==> Owns(s, u)) && (s'.tid == Some(u) <==> s.tid == Some(u));
    }
    assert s'.pcs[t] == s'.pcs[t] && PcOk(s', t, s'.pcs[t]);
  }

  lemma StepInv(s: State, a: Action)
    requires Inv(s) && Enabled(s, a)
    ensures Inv(Step(s, a))
  {
    match a
    case Call(t, op) =>
      var s' := Step(s, a);
      assert PcOk(s, t, s.pcs[t]);
      forall u | 0 <= u < |s.pcs| && u != t ensures PcOk(s', u, s'.pcs[u]) {
        assert PcOk(s, u, s.pcs[u]);
      }
    case Act(t, again) => ActInv(s, t, again);
  }

  lemma RunInv(threads: nat, acts: seq<Action>)
    requires IsRun(threads, acts)
    ensures Inv(After(threads, acts))
  {
    hide Step, Enabled, PcOk;
    assert Inv(Init(threads)) by {
      InitInv(threads);
    }
    forall s, a | Inv(s) && Enabled(s, a) ensures Inv(Step(s, a)) {
      StepInv(s, a);
    }
    RunKeeps(Enabled, Step, Inv, Init(threads), acts);
  }

  lemma InitInv(threads: nat)
    ensures Inv(Init(threads))
  {
  }

  // ---- What every run guarantees ----

  /** tid_ never names a thread that does not own the mutex, the mutex is unlocked and left
      for a wait by its owner alone, and nobody waits for a mutex of their own. */
  lemma OwnershipIsNeverForged(threads: nat, acts: seq<Action>, t: Thread)
    requires IsRun(threads, acts) && t < |After(threads, acts).pcs|
    ensures var s := After(threads, acts); (
      && (s.tid == Some(t) ==> s.owner == Some(t))
      && (s.pcs[t].UnlockMutex? || s.pcs[t].WaitSleep? ==> s.owner == Some(t))
      && (s.pcs[t].LockMutex? || s.pcs[t].WaitMutex? ==> s.owner != Some(t)))
  {
    RunInv(threads, acts);
    var s := After(threads, acts);
    assert PcOk(s, t, s.pcs[t]);
  }

  /** unlock returns true exactly to those who owned the lock when they called it, trylock
      returns OWNED exactly to them, lock refuses exactly them, and what was returned still
      describes the caller's ownership until its next call. */
  lemma AnswersAreTrue(threads: nat, acts: seq<Action>, t: Thread)
    requires IsRun(threads, acts) && t < |After(threads, acts).pcs| && After(threads, acts).pcs[t].Out?
    ensures var s := After(threads, acts); var r := s.pcs[t].r; (
      && (r.FromUnlock? ==> (r.ok <==> r.owned) && !Owns(s, t))
      && (r.FromTryLock? ==> (r.result == OWNED <==> r.owned) && (r.result != BUSY <==> Owns(s, t)))
      && (r.FromLock? ==> (r.ok ==> !r.owned) && (r.ok || r.owned <==> Owns(s, t))))
  {
    RunInv(threads, acts);
    var s := After(threads, acts);
    assert PcOk(s, t, s.pcs[t]);
  }

  /** Some thread inside a call can always move: the only ones held up are those that want a
      mutex owned by another, who is not. */
  lemma NoDeadlock(threads: nat, acts: seq<Action>, t: Thread)
    requires IsRun(threads, acts) && t < |After(threads, acts).pcs| && !After(threads, acts).pcs[t].Out?
    requires !ActEnabled(After(threads, acts), t)
    ensures var s := After(threads, acts); (
      && s.owner.Some? && s.owner.value != t
      && (s.owner.value < |s.pcs| && !s.pcs[s.owner.value].Out? ==> ActEnabled(s, s.owner.value)))
  {
    RunInv(threads, acts);
    var s := After(threads, acts);
    assert PcOk(s, t, s.pcs[t]);
    if s.owner.value < |s.pcs| {
      assert PcOk(s, s.owner.value, s.pcs[s.owner.value]);
    }
  }

  /** Nobody is refused without a reason: trylock answers BUSY, and a timed lock gives up, in
      a step in which another thread owns the mutex. */
  lemma RefusalHasAReason(threads: nat, acts: seq<Action>, t: Thread, again: bool)
    requires IsRun(threads, acts) && ActEnabled(After(threads, acts), t)
    requires var pc := ActStep(After(threads, acts), t, again).pcs[t];
      pc == Out(FromTryLock(BUSY, false)) || pc == Out(FromLock(false, false))
    ensures var owner := After(threads, acts).owner; owner.Some? && owner.value != t
  {
    RunInv(threads, acts);
    var s := After(threads, acts);
    assert PcOk(s, t, s.pcs[t]);
  }

  /** The steps of a call that no other thread disturbs. */
  function Alone(t: Thread, op: Operation, owned: bool): (acts: seq<Action>)
  {
    [Call(t, op)] +
    match op
    case Lock => if owned then [Act(t, false)] else [Act(t, false), Act(t, false), Act(t, false)]
    case TryLock => if owned then [Act(t, false)] else [Act(t, false), Act(t, false), Act(t, false)]
    case TimedLock => [Act(t, false), Act(t, false)]
    case Unlock => if owned then [Act(t, false), Act(t, false), Act(t, false)] else [Act(t, false)]
    case Wait => [Act(t, false), Act(t, false)]
  }

  /** Where such a call leads: to the lock and the answer that its caller expects, and in a
      wait to a sleep without the mutex. */
  ghost predicate Succeeded(s: State, t: Thread, op: Operation, owned: bool)
    requires t < |s.pcs|
  {
    match op
    case Lock => s.pcs[t] == Out(FromLock(!owned, owned)) && Owns(s, t)
    case TryLock => s.pcs[t] == Out(FromTryLock(if owned then OWNED else LOCKED, owned)) && Owns(s, t)
    case TimedLock => s.pcs[t] == Out(FromLock(true, false)) && Owns(s, t)
    case Unlock => s.pcs[t] == Out(FromUnlock(owned, owned)) && (owned ==> s.owner.None?)
    case Wait => s.pcs[t].Sleeping? && s.owner.None?
  }

  lemma Unfold(s: State, acts: seq<Action>)
    requires acts != []
    ensures CanRun(Enabled, Step, s, acts)
            <==> Enabled(s, acts[0]) && CanRun(Enabled, Step, Step(s, acts[0]), acts[1..])
    ensures Run(Step, s, acts) == Run(Step, Step(s, acts[0]), acts[1..])
  {
  }

  /** A call on a mutex that is free, or the caller's own, succeeds if it is left alone. */
  lemma AloneItSucceeds(threads: nat, acts: seq<Action>, t: Thread, op: Operation)
    requires IsRun(threads, acts) && CallEnabled(After(threads, acts), t, op)
    requires After(threads, acts).owner.None? || Owns(After(threads, acts), t)
    ensures var s := After(threads, acts); var alone := Alone(t, op, Owns(s, t)); (
      && CanRun(Enabled, Step, s, alone)
      && t < |Run(Step, s, alone).pcs| && Succeeded(Run(Step, s, alone), t, op, Owns(s, t)))
  {
    hide CanRun, Run;
    RunInv(threads, acts);
    var s := After(threads, acts);
    assert PcOk(s, t, s.pcs[t]);
    AloneFrom(s, t, op);
  }

  lemma AloneFrom(s: State, t: Thread, op: Operation)
    requires CallEnabled(s, t, op) && (s.owner.None? || Owns(s, t)) && (Owns(s, t) <==> s.tid == Some(t))
    ensures var alone := Alone(t, op, Owns(s, t)); (
      && CanRun(Enabled, Step, s, alone)
      && t < |Run(Step, s, alone).pcs| && Succeeded(Run(Step, s, alone), t, op, Owns(s, t)))
  {
    hide CanRun, Run;
    var owned := Owns(s, t);
    var alone := Alone(t, op, owned);
    var s1 := Step(s, alone[0]);
    Unfold(s, alone);
    var s2 := Step(s1, Act(t, false));
    assert alone[1..][0] == Act(t, false);
    Unfold(s1, alone[1..]);
    if |alone| == 2 {
      assert alone[1..][1..] == [];
      Ends(s2);
    } else {
      var s3 := Step(s2, Act(t, false));
      assert alone[1..][1..][0] == Act(t, false);
      Unfold(s2, alone[1..][1..]);
      if |alone| == 3 {
        assert alone[1..][1..][1..] == [];
        Ends(s3);
      } else {
        assert alone[1..][1..][1..] == [Act(t, false)];
        Unfold(s3, [Act(t, false)]);
        Ends(Step(s3, Act(t, false)));
      }
    }
  }

  /** A sleeping waiter that wakes to a free mutex takes it again, and goes on if its condition
      holds, or else sleeps once more. */
  lemma WaiterComesBack(threads: nat, acts: seq<Action>, t: Thread, again: bool)
    requires IsRun(threads, acts) && t < |After(threads, acts).pcs| && After(threads, acts).pcs[t].Sleeping?
    requires After(threads, acts).owner.None?
    ensures var back := [Act(t, again), Act(t, again), Act(t, again)]; var s := After(threads, acts); (
      && CanRun(Enabled, Step, s, back) && t < |Run(Step, s, back).pcs|
      && Run(Step, s, back).pcs[t] == (if again then WaitClear else Out(Nothing))
      && Owns(Run(Step, s, back), t) && Run(Step, s, back).tid == Some(t))
  {
    hide CanRun, Run, Step, Enabled;
    BackFrom(After(threads, acts), t, again);
  }

  lemma BackFrom(s: State, t: Thread, again: bool)
    requires t < |s.pcs| && s.pcs[t].Sleeping? && s.owner.None?
    ensures var back := [Act(t, again), Act(t, again), Act(t, again)]; var s' := Run(Step, s, back); (
      && CanRun(Enabled, Step, s, back) && t < |s'.pcs|
      && s'.pcs[t] == (if again then WaitClear else Out(Nothing)) && Owns(s', t) && s'.tid == Some(t))
  {
    hide CanRun, Run;
    var a := Act(t, again);
    assert [a, a, a][1..] == [a, a] && [a, a][1..] == [a] && [a][1..] == [];
    var s1 := Step(s, a);
    var s2 := Step(s1, a);
    Unfold(s, [a, a, a]);
    Unfold(s1, [a, a]);
    Unfold(s2, [a]);
    Ends(Step(s2, a));
  }

  lemma Ends(s: State)
    ensures CanRun(Enabled, Step, s, []) && Run(Step, s, []) == s
  {
  }

  // ---- The object ----

  /** The monitor as its methods see it: other threads come in at every `Interfere`, which
      notes in `contended` that one of them has had the mutex. */
  class Synchronized {
    var tid: Option<Thread>
    var owner: Option<Thread>
    ghost var contended: bool

    ghost predicate Valid(me: Thread)
      reads this
    {
      (tid.Some? ==> owner == tid) && (owner == Some(me) <==> tid == Some(me))
    }

    /** Another thread owns the mutex. */
    ghost predicate Taken(me: Thread)
      reads this
    {
      owner.Some? && owner != Some(me)
    }

    constructor ()
      ensures owner == None && forall t: Thread :: Valid(t)
    {
      tid, owner, contended := None, None, false;
    }

    /** Other threads lock and unlock; they leave a mutex of ours alone and do not give us
        one, and neither do they write our name into tid_. */
    method Interfere(me: Thread)
      requires tid.Some? ==> owner == tid
      modifies this
      ensures tid.Some? ==> owner == tid
      ensures old(owner) == Some(me) ==> owner == old(owner) && tid == old(tid)
      ensures old(owner) != Some(me) ==> owner != Some(me)
      ensures old(contended) || Taken(me) ==> contended
    {
      if owner != Some(me) {
        var other: int := *;
        var named: bool := *;
        if 0 <= other && other != me {
          owner := Some(other);
          tid := if named then owner else None;
          contended := true;
        } else {
          owner, tid := None, None;
        }
      }
    }

    method Unlock(me: Thread) returns (ok: bool)
      requires Valid(me)
      modifies this
      ensures Valid(me) && owner != Some(me) && (ok <==> old(owner) == Some(me))
    {
      Interfere(me);
      if tid == Some(me) {
        Interfere(me);
        tid := None;
        Interfere(me);
        owner := None;
        return true;
      }
      return false;
    }

    /** BUSY is answered only if another thread has had the mutex during the call. */
    method TryLock(me: Thread) returns (r: TryLockResult)
      requires Valid(me)
      modifies this
      ensures Valid(me) && (r == OWNED <==> old(owner) == Some(me)) && (r != BUSY <==> owner == Some(me))
      ensures r == BUSY ==> contended
    {
      contended := false;
      Interfere(me);
      if tid == Some(me) {
        return OWNED;
      }
      Interfere(me);
      if owner == None {
        owner := Some(me);
        Interfere(me);
        tid := Some(me);
        return LOCKED;
      }
      return BUSY;
    }

    /** lock(timeout): tries every ten milliseconds, once at least, and gives up only on a
        mutex that another thread has had during the call. */
    method TimedLock(me: Thread, timeout: nat) returns (ok: bool)
      requires Valid(me) && owner != Some(me)
      modifies this
      ensures Valid(me) && (ok <==> owner == Some(me))
      ensures !ok ==> contended
    {
      contended := false;
      var d: int := timeout;
      Interfere(me);
      while owner != None
        invariant owner != Some(me) && (tid.Some? ==> owner == tid)
        invariant owner != None ==> contended
        decreases d
      {
        d := d - 10;
        if d <= 0 {
          return false;
        }
        Interfere(me);
      }
      owner := Some(me);
      Interfere(me);
      tid := Some(me);
      return true;
    }

    /** The blocking lock of the mutex: whoever has it gives it back first. */
    method LockMutex(me: Thread)
      requires owner != Some(me) && (tid.Some? ==> owner == tid)
      modifies this
      ensures owner == Some(me) && tid == None
    {
      Interfere(me);
      if owner != None {
        tid := None;
        owner := None;
      }
      owner := Some(me);
    }

    method Lock(me: Thread) returns (ok: bool)
      requires Valid(me)
      modifies this
      ensures Valid(me) && owner == Some(me) && (ok <==> old(owner) != Some(me))
    {
      Interfere(me);
      if tid == Some(me) {
        return false;
      }
      LockMutex(me);
      Interfere(me);
      tid := Some(me);
      return true;
    }

    /** One round of a wait: its caller owns the mutex before and after, and not while it
        sleeps; nor is it named as the owner then. */
    method WaitOnce(me: Thread)
      requires Valid(me) && owner == Some(me)
      modifies this
      ensures Valid(me) && owner == Some(me)
    {
      tid := None;
      Interfere(me);
      owner := None;
      Interfere(me);
      LockMutex(me);
      Interfere(me);
      tid := Some(me);
    }
  }
}
