/** The alarm thread of alarm_cond.cpp and the main thread that feeds it.

    The two share the sorted list, the flag `enabled` and `currentAlarm`, the time of the
    alarm that the thread waits for: by lowering it the main thread asks for a preemption. */
module AlarmProtocol {
  import opened Prelude
  import opened AlarmList

  /** Top is the head of the thread's loop and holds the mutex; the Want positions want it.
      A timed wait remembers the duration `left`, computed once when the alarm was taken. */
  datatype Pc =
    | Start
    | Top
    | IdleWait(signalled: bool)
    | IdleWant
    | TimedWait(a: Entry, left: int, deadline: int, signalled: bool)
    | TimedWant(a: Entry, left: int, timedOut: bool)
    | Done

  /** The history of the alarm in hand: when it was taken, when the wait for it was last
      begun, and by how much that wait ends later than computed. */
  datatype Wait = Wait(taken: int, begun: int, delay: nat)

  /** `at` holds the times at which the handled alarms were handled, and `lost` how much of
      their waits was spent before the last resumption. */
  datatype State = State(
    list: seq<Entry>, current: int, enabled: bool, now: int, pc: Pc, wait: Wait,
    inserted: seq<Entry>, handled: seq<Entry>, at: seq<int>, lost: seq<int>, abandoned: seq<Entry>)

  function Init(now: int): State { State([], ZERO, true, now, Start, Wait(now, now, 0), [], [], [], [], []) }

  /** The time that resumed waits have cost the alarm in hand. */
  function Lost(s: State): int { s.wait.begun - s.wait.taken }

  /** A thread that waits may be woken by a signal, by its timeout, or by nothing at all;
      `late` is how much later than computed a wait ends. */
  datatype Action =
    | NewAlarm(e: Entry)
    | Shutdown
    | Tick(d: nat)
    | ThreadAct(late: nat)
    | Timeout
    | Spurious

  function Signalled(pc: Pc): Pc
  {
    match pc
    case IdleWait(_) => IdleWait(true)
    case TimedWait(a, left, deadline, _) => TimedWait(a, left, deadline, true)
    case _ => pc
  }

  /** alarm_insert. */
  function Insertion(s: State, e: Entry): State
  {
    var s' := s.(list := Inserted(s.list, e));
    if s.current == ZERO || e.time < s.current then s'.(current := e.time, pc := Signalled(s.pc)) else s'
  }

  function Handle(s: State, a: Entry, lost: int): State
  {
    s.(handled := s.handled + [a], at := s.at + [s.now], lost := s.lost + [lost], pc := Top)
  }

  /** From the idle test on: stop, sleep, or take the first alarm and wait for it. */
  function TakeNext(s: State, late: nat): State
  {
    if !s.enabled then s.(pc := Done)
    else if s.list == [] then s.(pc := IdleWait(false))
    else
      var a, s' := s.list[0], s.(list := s.list[1..]);
      if a.time > s.now then
        s'.(current := a.time, pc := TimedWait(a, a.time - s.now, a.time + late, false),
            wait := Wait(s.now, s.now, late))
      else Handle(s', a, 0)
  }

  /** After a timed wait, with the mutex. */
  function Resume(s: State, a: Entry, left: int, timedOut: bool, late: nat): State
  {
    if timedOut && s.enabled then Handle(s, a, Lost(s))
    else if s.enabled && a.time == s.current then
      s.(pc := TimedWait(a, left, s.now + left + late, false), wait := s.wait.(begun := s.now, delay := late))
    else if !s.enabled then s.(pc := Done, abandoned := s.abandoned + [a])
    else Insertion(s.(pc := Top), a)
  }

  predicate Enabled(s: State, x: Action)
  {
    match x
    case NewAlarm(e) => !s.pc.Top? && s.enabled && e.time > ZERO
    case Shutdown => !s.pc.Top?
    case Tick(_) => true
    case ThreadAct(_) => s.pc != Done && (s.pc.IdleWait? || s.pc.TimedWait? ==> s.pc.signalled)
    case Timeout => s.pc.TimedWait? && s.now >= s.pc.deadline
    case Spurious => s.pc.IdleWait? || s.pc.TimedWait?
  }

  function Wake(s: State, timedOut: bool): State
  {
    match s.pc
    case IdleWait(_) => s.(pc := IdleWant)
    case TimedWait(a, left, _, _) => s.(pc := TimedWant(a, left, timedOut))
    case _ => s
  }

  function ThreadStep(s: State, late: nat): State
  {
    match s.pc
    case Start => s.(pc := Top)
    case Top => TakeNext(s.(current := ZERO), late)
    case IdleWant => TakeNext(s, late)
    case TimedWant(a, left, timedOut) => Resume(s, a, left, timedOut, late)
    case Done => s
    case _ => Wake(s, false)
  }

  function Step(s: State, x: Action): State
  {
    match x
    case NewAlarm(e) => Insertion(s, e).(inserted := s.inserted + [e])
    case Shutdown => s.(enabled := false, pc := Signalled(s.pc))
    case Tick(d) => s.(now := s.now + d)
    case ThreadAct(late) => ThreadStep(s, late)
    case Timeout => Wake(s, true)
    case Spurious => Wake(s, false)
  }

  predicate IsRun(now: int, acts: seq<Action>) { CanRun(Enabled, Step, Init(now), acts) }

  function After(now: int, acts: seq<Action>): State { Run(Step, Init(now), acts) }

  // ---- The invariant ----

  function InHand(pc: Pc): Option<Entry>
  {
    if pc.TimedWait? || pc.TimedWant? then Some(pc.a) else None
  }

  /** The earliest of an alarm and those listed. */
  function Earliest(a: Entry, list: seq<Entry>): int
  {
    if list != [] && list[0].time < a.time then list[0].time else a.time
  }

  ghost predicate Positive(list: seq<Entry>)
  {
    forall i :: 0 <= i < |list| ==> list[i].time > ZERO
  }

  ghost predicate WaitOk(s: State, a: Entry, left: int)
  {
    s.wait.taken <= s.wait.begun <= s.now && left == a.time - s.wait.taken > 0
  }

  /** What `currentAlarm` says, and what an unsignalled sleep is based on. */
  ghost predicate PcOk(s: State)
  {
    match s.pc
    case Start => s.current == ZERO <==> s.list == []
    case Top => true
    case IdleWait(signalled) =>
      && s.current == (if s.list == [] then ZERO else s.list[0].time)
      && (!signalled ==> s.enabled && s.list == [])
    case IdleWant => s.current == if s.list == [] then ZERO else s.list[0].time
    case TimedWait(a, left, deadline, signalled) =>
      && a.time > ZERO && s.current == Earliest(a, s.list)
      && WaitOk(s, a, left) && deadline == a.time + Lost(s) + s.wait.delay
      && (!signalled ==> s.enabled && s.current == a.time)
    case TimedWant(a, left, timedOut) =>
      && a.time > ZERO && s.current == Earliest(a, s.list)
      && WaitOk(s, a, left) && (timedOut ==> a.time + Lost(s) <= s.now)
    case Done => !s.enabled
  }

  ghost predicate HandledInTime(s: State)
  {
    && |s.at| == |s.lost| == |s.handled|
    && forall i :: 0 <= i < |s.at| ==> s.lost[i] >= 0 && s.handled[i].time + s.lost[i] <= s.at[i] <= s.now
  }

  /** Every alarm inserted is listed, in hand, handled or abandoned, and only one of these. */
  ghost predicate Accounts(inserted: seq<Entry>, list: seq<Entry>, hand: Option<Entry>,
                           handled: seq<Entry>, abandoned: seq<Entry>)
  {
    multiset(inserted) == (multiset(list) + Bag(hand)) + (multiset(handled) + multiset(abandoned))
  }

  ghost predicate Accounted(s: State)
  {
    Accounts(s.inserted, s.list, InHand(s.pc), s.handled, s.abandoned)
  }

  ghost predicate Inv(s: State)
  {
    && Sorted(s.list) && Positive(s.list) && PcOk(s) && HandledInTime(s) && Accounted(s)
    && |s.abandoned| <= (if s.pc.Done? then 1 else 0)
  }

  lemma FirstAfterInsert(list: seq<Entry>, e: Entry)
    requires Sorted(list)
    ensures Inserted(list, e) != [] && Sorted(Inserted(list, e))
    ensures Inserted(list, e)[0].time == if list != [] && list[0].time <= e.time then list[0].time else e.time
    ensures Positive(list) && e.time > ZERO ==> Positive(Inserted(list, e))
  {
    InsertedIsSorted(list, e);
  }

  lemma NewAlarmPc(s: State, e: Entry)
    requires Sorted(s.list) && Positive(s.list) && PcOk(s) && Enabled(s, NewAlarm(e))
    ensures PcOk(Insertion(s, e))
  {
    FirstAfterInsert(s.list, e);
  }

  lemma TailOfSorted(list: seq<Entry>)
    requires Sorted(list) && Positive(list) && list != []
    ensures Sorted(list[1..]) && Positive(list[1..]) && list[0].time > ZERO
    ensures Earliest(list[0], list[1..]) == list[0].time && multiset(list) == multiset{list[0]} + multiset(list[1..])
  {
    assert list == [list[0]] + list[1..];
  }

  // ---- The accounts ----

  lemma NewOne(ins: seq<Entry>, list: seq<Entry>, hand: Option<Entry>, done: seq<Entry>, gone: seq<Entry>, e: Entry)
    requires Accounts(ins, list, hand, done, gone)
    ensures Accounts(ins + [e], Inserted(list, e), hand, done, gone)
  {
    InsertedAddsOne(list, e);
    Balance(multiset(ins), multiset(ins + [e]), multiset(list) + Bag(hand), multiset(Inserted(list, e)) + Bag(hand),
            multiset(done) + multiset(gone), multiset(done) + multiset(gone),
            multiset{}, multiset{e}, multiset{}, multiset{e});
  }

  lemma TakeOne(ins: seq<Entry>, list: seq<Entry>, done: seq<Entry>, gone: seq<Entry>)
    requires Accounts(ins, list, None, done, gone) && list != []
    ensures Accounts(ins, list[1..], Some(list[0]), done, gone)
  {
    assert list == [list[0]] + list[1..];
  }

  lemma PutBack(ins: seq<Entry>, list: seq<Entry>, a: Entry, done: seq<Entry>, gone: seq<Entry>)
    requires Accounts(ins, list, Some(a), done, gone)
    ensures Accounts(ins, Inserted(list, a), None, done, gone)
  {
    InsertedAddsOne(list, a);
  }

  lemma PutAway(ins: seq<Entry>, list: seq<Entry>, a: Entry, done: seq<Entry>, gone: seq<Entry>)
    requires Accounts(ins, list, Some(a), done, gone)
    ensures Accounts(ins, list, None, done + [a], gone)
    ensures Accounts(ins, list, None, done, gone + [a])
  {
    Balance(multiset(ins), multiset(ins), multiset(list) + Bag(Some(a)), multiset(list),
            multiset(done) + multiset(gone), multiset(done + [a]) + multiset(gone),
            multiset{a}, multiset{}, multiset{a}, multiset{});
    Balance(multiset(ins), multiset(ins), multiset(list) + Bag(Some(a)), multiset(list),
            multiset(done) + multiset(gone), multiset(done) + multiset(gone + [a]),
            multiset{a}, multiset{}, multiset{a}, multiset{});
    assert multiset(list) + Bag<Entry>(None) == multiset(list);
  }

  lemma EmptyIsSorted()
    ensures Sorted([]) && Positive([])
  {
  }

  lemma TakeNextInv(s: State, late: nat)
    requires Inv(s) && InHand(s.pc).None?
    requires s.list == [] ==> s.current == ZERO
    ensures Inv(TakeNext(s, late))
  {
    hide Accounts, Sorted, Positive;
    EmptyIsSorted();
    if s.list != [] {
      TailOfSorted(s.list);
      TakeOne(s.inserted, s.list, s.handled, s.abandoned);
      PutAway(s.inserted, s.list[1..], s.list[0], s.handled, s.abandoned);
    }
  }

  lemma ResumeInv(s: State, a: Entry, left: int, timedOut: bool, late: nat)
    requires Inv(s) && s.pc == TimedWant(a, left, timedOut)
    ensures Inv(Resume(s, a, left, timedOut, late))
  {
    hide Accounts, Sorted, Inserted, Positive;
    FirstAfterInsert(s.list, a);
    PutAway(s.inserted, s.list, a, s.handled, s.abandoned);
    PutBack(s.inserted, s.list, a, s.handled, s.abandoned);
  }

  lemma ThreadInv(s: State, late: nat)
    requires Inv(s) && Enabled(s, ThreadAct(late))
    ensures Inv(ThreadStep(s, late))
  {
    hide Accounts;
    match s.pc
    case Top => TakeNextInv(s.(current := ZERO), late);
    case IdleWant => TakeNextInv(s, late);
    case TimedWant(a, left, timedOut) => ResumeInv(s, a, left, timedOut, late);
    case _ =>
  }

  lemma StepInv(s: State, x: Action)
    requires Inv(s) && Enabled(s, x)
    ensures Inv(Step(s, x))
  {
    hide Accounts, Sorted, Inserted, Positive, TakeNext, Resume;
    match x
    case NewAlarm(e) =>
      FirstAfterInsert(s.list, e);
      NewAlarmPc(s, e);
      NewOne(s.inserted, s.list, InHand(s.pc), s.handled, s.abandoned, e);
    case ThreadAct(late) => ThreadInv(s, late);
    case _ => EnvironmentInv(s, x);
  }

  lemma EnvironmentInv(s: State, x: Action)
    requires Inv(s) && Enabled(s, x) && !x.NewAlarm? && !x.ThreadAct?
    ensures Inv(Step(s, x))
  {
    hide Accounts, Sorted, Positive;
  }

  lemma RunInv(now: int, acts: seq<Action>)
    requires IsRun(now, acts)
    ensures Inv(After(now, acts))
  {
    hide Inv, Step, Enabled;
    InitInv(now);
    forall s, x | Inv(s) && Enabled(s, x) ensures Inv(Step(s, x)) {
      StepInv(s, x);
    }
    RunKeeps(Enabled, Step, Inv, Init(now), acts);
  }

  lemma InitInv(now: int)
    ensures Inv(Init(now))
  {
  }

  // ---- What every run guarantees ----

  /** While the thread waits for an alarm in hand, `currentAlarm` differs from its time
      exactly when a strictly earlier alarm is listed. */
  lemma ConditionIsExact(now: int, acts: seq<Action>)
    requires IsRun(now, acts) && InHand(After(now, acts).pc).Some?
    ensures var s := After(now, acts); (
      s.current != s.pc.a.time <==> exists i :: 0 <= i < |s.list| && s.list[i].time < s.pc.a.time)
  {
    RunInv(now, acts);
  }

  /** The thread never sleeps on news: without a pending signal, an idle wait means an empty
      list and a timed wait means that nothing listed comes earlier, and neither outlasts a
      shutdown. */
  lemma NoNewsIsMissed(now: int, acts: seq<Action>)
    requires IsRun(now, acts)
    ensures var s := After(now, acts); (
      && (s.pc == IdleWait(false) ==> s.enabled && s.list == [])
      && (s.pc.TimedWait? && !s.pc.signalled ==>
            s.enabled && s.current == s.pc.a.time && forall i :: 0 <= i < |s.list| ==> s.pc.a.time <= s.list[i].time))
  {
    RunInv(now, acts);
  }

  /** A preempted alarm goes back to the list, and what the thread takes next is due
      strictly earlier. */
  lemma PreemptionTakesAnEarlierAlarm(now: int, acts: seq<Action>, late: nat, late': nat)
    requires IsRun(now, acts) && After(now, acts).pc.TimedWant? && !After(now, acts).pc.timedOut
    requires After(now, acts).enabled && After(now, acts).current != After(now, acts).pc.a.time
    ensures var s := After(now, acts); var back := ThreadStep(s, late); var next := ThreadStep(back, late'); (
      && multiset(back.list) == multiset(s.list) + multiset{s.pc.a} && back.pc.Top?
      && back.list != [] && back.list[0].time < s.pc.a.time && next.list == back.list[1..]
      && (InHand(next.pc) == Some(back.list[0]) || next.handled == s.handled + [back.list[0]]))
  {
    var s := After(now, acts);
    RunInv(now, acts);
    FirstAfterInsert(s.list, s.pc.a);
    InsertedAddsOne(s.list, s.pc.a);
  }

  /** Every alarm inserted is, as often as it was inserted, listed, in hand, handled or
      abandoned; at most one is abandoned, at shutdown; and none is handled before it is due. */
  lemma EveryAlarmIsAccountedFor(now: int, acts: seq<Action>)
    requires IsRun(now, acts)
    ensures var s := After(now, acts); (
      && multiset(s.inserted) == (multiset(s.list) + Bag(InHand(s.pc))) + (multiset(s.handled) + multiset(s.abandoned))
      && |s.abandoned| <= 1 && (s.abandoned != [] ==> !s.enabled)
      && |s.at| == |s.lost| == |s.handled| && (forall i :: 0 <= i < |s.at| ==> s.handled[i].time <= s.at[i])
      && Sorted(s.list))
  {
    RunInv(now, acts);
  }

  // ---- Every alarm can be handled ----

  /** Nothing new happens: time passes and the thread goes on. */
  predicate Serving(s: State, x: Action) { Enabled(s, x) && (x.ThreadAct? || x.Timeout? || x.Tick?) }

  function Outstanding(s: State): nat { |s.list| + if InHand(s.pc).Some? then 1 else 0 }

  function PcRank(pc: Pc): nat
  {
    match pc
    case Start => 6
    case IdleWait(_) => 6
    case IdleWant => 5
    case TimedWant(_, _, timedOut) => if timedOut then 2 else 5
    case Top => 4
    case TimedWait(_, _, _, _) => 3
    case Done => 0
  }

  /** What brings the next alarm nearer to being handled. */
  function Onward(s: State): seq<Action>
  {
    if s.pc.TimedWait? then [Tick(if s.pc.deadline > s.now then s.pc.deadline - s.now else 0), Timeout]
    else [ThreadAct(0)]
  }

  lemma OnwardLeads(s: State)
    requires Inv(s) && s.enabled && Outstanding(s) > 0
    ensures CanRun(Serving, Step, s, Onward(s))
    ensures var s' := Run(Step, s, Onward(s)); (
      && s'.enabled && s'.inserted == s.inserted
      && (Outstanding(s') < Outstanding(s) || (Outstanding(s') == Outstanding(s) && PcRank(s'.pc) < PcRank(s.pc))))
  {
    hide Accounts, Sorted, Positive, HandledInTime;
    if s.pc.TimedWait? {
      assert Onward(s)[1..] == [Timeout] && [Timeout][1..] == [];
    } else {
      assert Onward(s)[1..] == [];
      if s.pc.TimedWant? {
        InsertedLength(s.list, s.pc.a);
      }
    }
  }

  lemma InsertedLength(list: seq<Entry>, e: Entry)
    ensures |Inserted(list, e)| == |list| + 1
  {
  }

  lemma {:induction false} ServeAll(s: State) returns (more: seq<Action>)
    requires Inv(s) && s.enabled
    ensures CanRun(Serving, Step, s, more)
    ensures var s' := Run(Step, s, more); Inv(s') && s'.enabled && s'.inserted == s.inserted && Outstanding(s') == 0
    decreases Outstanding(s), PcRank(s.pc)
  {
    hide Inv, Step, Outstanding, Onward, PcRank;
    if Outstanding(s) == 0 {
      more := [];
    } else {
      OnwardLeads(s);
      KeepsInv(s, Onward(s));
      var rest := ServeAll(Run(Step, s, Onward(s)));
      more := Onward(s) + rest;
      RunAppend(Serving, Step, s, Onward(s), rest);
    }
  }

  lemma KeepsInv(s: State, more: seq<Action>)
    requires Inv(s) && CanRun(Serving, Step, s, more)
    ensures Inv(Run(Step, s, more))
  {
    hide Inv, Step, Enabled;
    forall s, x | Inv(s) && Serving(s, x) ensures Inv(Step(s, x)) {
      StepInv(s, x);
    }
    RunKeeps(Serving, Step, Inv, s, more);
  }

  /** As long as the thread is enabled, from every reachable state the passing of time and the
      thread's own steps can bring every alarm inserted so far to be handled. */
  lemma EveryAlarmCanBeHandled(now: int, acts: seq<Action>) returns (more: seq<Action>)
    requires IsRun(now, acts) && After(now, acts).enabled
    ensures CanRun(Serving, Step, After(now, acts), more)
    ensures multiset(Run(Step, After(now, acts), more).handled) == multiset(After(now, acts).inserted)
  {
    hide Step, Enabled;
    RunInv(now, acts);
    more := ServeAll(After(now, acts));
    AllHandled(Run(Step, After(now, acts), more));
  }

  lemma AllHandled(s: State)
    requires Inv(s) && s.enabled && Outstanding(s) == 0
    ensures multiset(s.handled) == multiset(s.inserted)
  {
  }

  // ---- Shutdown ----

  function StopRank(s: State): nat
  {
    match s.pc
    case Start => 2
    case IdleWait(_) => 2
    case TimedWait(_, _, _, _) => 2
    case Top => 1
    case IdleWant => 1
    case TimedWant(_, _, _) => 1
    case Done => 0
  }

  predicate OfThread(x: Action) { x.ThreadAct? || x.Timeout? || x.Spurious? }

  predicate OfOthers(x: Action) { !OfThread(x) }

  ghost predicate ShutDown(s: State) { Inv(s) && !s.enabled }

  lemma ShutDownStep(s: State, x: Action)
    requires ShutDown(s) && Enabled(s, x)
    ensures ShutDown(Step(s, x))
    ensures OfThread(x) ==> StopRank(Step(s, x)) < StopRank(s)
    ensures OfOthers(x) ==> StopRank(Step(s, x)) <= StopRank(s)
  {
    hide Inv, Step, StopRank, Enabled;
    StepInv(s, x);
    StopRankFalls(s, x);
  }

  lemma StopRankFalls(s: State, x: Action)
    requires !s.enabled && Enabled(s, x)
    ensures !Step(s, x).enabled && StopRank(Step(s, x)) <= StopRank(s)
    ensures OfThread(x) ==> StopRank(Step(s, x)) < StopRank(s)
  {
    hide Inserted;
  }

  /** After a shutdown the thread takes at most two steps more, whatever wakes it, and it can
      always take the next one until it has ended: the main thread's join returns. */
  lemma ShutdownIsHeeded(now: int, acts: seq<Action>, more: seq<Action>)
    requires IsRun(now, acts) && !After(now, acts).enabled && CanRun(Enabled, Step, After(now, acts), more)
    ensures Count(OfThread, more) <= 2
    ensures Enabled(Run(Step, After(now, acts), more), ThreadAct(0)) <==> !Run(Step, After(now, acts), more).pc.Done?
  {
    hide Inv, Step, Enabled, StopRank;
    var s := After(now, acts);
    RunInv(now, acts);
    forall s, x | ShutDown(s) && Enabled(s, x)
      ensures ShutDown(Step(s, x))
      ensures OfThread(x) ==> StopRank(Step(s, x)) < StopRank(s)
      ensures OfOthers(x) ==> StopRank(Step(s, x)) <= StopRank(s)
    {
      ShutDownStep(s, x);
    }
    RunIsBounded(Enabled, Step, ShutDown, StopRank, OfOthers, OfThread, 0, s, more);
    RunKeeps(Enabled, Step, ShutDown, s, more);
    StopRankIsSmall(s);
    AwakeAfterShutdown(Run(Step, s, more));
  }

  lemma StopRankIsSmall(s: State)
    ensures StopRank(s) <= 2
  {
  }

  lemma AwakeAfterShutdown(s: State)
    requires ShutDown(s)
    ensures Enabled(s, ThreadAct(0)) <==> !s.pc.Done?
  {
  }

  // ---- When an alarm is handled on time ----

  /** The law of lateness.  In every run, the deadline of a timed wait lies behind the time
      of its alarm by what was lost before the wait was last begun and by the delay of that
      wait; it is begun only for an alarm not yet due; and every alarm handled was handled as
      much too late as its waits had lost, or more. */
  lemma LateByWhatWasLost(now: int, acts: seq<Action>)
    requires IsRun(now, acts)
    ensures var s := After(now, acts); (
      && (s.pc.TimedWait? ==>
            && s.pc.deadline == s.pc.a.time + Lost(s) + s.wait.delay && 0 <= Lost(s) <= s.now - s.wait.taken
            && s.wait.taken < s.pc.a.time
            && (s.pc.deadline == s.pc.a.time <==> s.wait.begun == s.wait.taken && s.wait.delay == 0))
      && |s.at| == |s.lost| == |s.handled|
      && forall i :: 0 <= i < |s.at| ==> s.at[i] - s.handled[i].time >= s.lost[i] >= 0)
  {
    RunInv(now, acts);
  }

  /** Runs with or without wake-ups for no reason, and with or without waits that end late. */
  function Waits(spurious: bool, delays: bool): (State, Action) -> bool
  {
    (s: State, x: Action) =>
      Enabled(s, x) && (x.Spurious? ==> spurious) && (x.ThreadAct? ==> delays || x.late == 0)
  }

  ghost predicate Postponed(s: State) { s.pc.TimedWait? && s.pc.deadline != s.pc.a.time }

  ghost predicate CanPostpone(spurious: bool, delays: bool)
  {
    exists now: int, acts: seq<Action> ::
      CanRun(Waits(spurious, delays), Step, Init(now), acts) && Postponed(After(now, acts))
  }

  /** A wait is not resumed: it times out, or has another reason to end. */
  ghost predicate Punctual(s: State)
  {
    && (s.pc.TimedWait? || s.pc.TimedWant? ==> Lost(s) == 0 && s.wait.delay == 0)
    && (s.pc.TimedWait? && s.pc.signalled ==> !s.enabled || s.current != s.pc.a.time)
    && (s.pc.TimedWant? ==> s.pc.timedOut || !s.enabled || s.current != s.pc.a.time)
  }

  lemma PunctualStep(s: State, x: Action)
    requires Inv(s) && Punctual(s) && Waits(false, false)(s, x)
    ensures Punctual(Step(s, x))
  {
  }

  predicate PromptRun(now: int, acts: seq<Action>) { CanRun(Waits(false, false), Step, Init(now), acts) }

  /** Without spurious wake-ups and delays every timed wait ends when its alarm is due,
      however often alarms preempt one another. */
  lemma PromptRunsArePunctual(now: int, acts: seq<Action>)
    requires PromptRun(now, acts)
    ensures Inv(After(now, acts)) && Punctual(After(now, acts)) && !Postponed(After(now, acts))
  {
    hide Inv, Punctual, Step, Enabled;
    InitInv(now);
    assert Punctual(Init(now)) by {
      InitPunctual(now);
    }
    forall s, x | (Inv(s) && Punctual(s)) && Waits(false, false)(s, x) ensures Inv(Step(s, x)) && Punctual(Step(s, x)) {
      StepInv(s, x);
      PunctualStep(s, x);
    }
    RunKeeps(Waits(false, false), Step, (s: State) => Inv(s) && Punctual(s), Init(now), acts);
    NotPostponed(After(now, acts));
  }

  lemma InitPunctual(now: int)
    ensures Punctual(Init(now))
  {
  }

  lemma NotPostponed(s: State)
    requires Inv(s) && Punctual(s)
    ensures !Postponed(s)
  {
  }

  lemma Extend(spurious: bool, delays: bool, now: int, acts: seq<Action>, x: Action) returns (acts': seq<Action>)
    requires CanRun(Waits(spurious, delays), Step, Init(now), acts) && Waits(spurious, delays)(After(now, acts), x)
    ensures CanRun(Waits(spurious, delays), Step, Init(now), acts') && After(now, acts') == Step(After(now, acts), x)
  {
    RunExtend(Waits(spurious, delays), Step, Init(now), acts, x);
    acts' := acts + [x];
  }

  lemma FirstAlarm(spurious: bool, delays: bool, now: int, e: Entry) returns (acts: seq<Action>)
    requires e.time > ZERO
    ensures CanRun(Waits(spurious, delays), Step, Init(now), acts)
    ensures var s := After(now, acts); (
      s.pc == IdleWait(true) && s.now == now && s.current == e.time && s.list == [e] && s.enabled)
  {
    hide CanRun, Run;
    acts := [];
    assert CanRun(Waits(spurious, delays), Step, Init(now), acts) && After(now, acts) == Init(now) by {
      EmptyRun(spurious, delays, now);
    }
    acts := Extend(spurious, delays, now, acts, ThreadAct(0));
    acts := Extend(spurious, delays, now, acts, ThreadAct(0));
    acts := Extend(spurious, delays, now, acts, NewAlarm(e));
  }

  /** The wait for the first alarm `e`, to end `late` too late. */
  lemma FirstWait(spurious: bool, delays: bool, now: int, e: Entry, late: nat) returns (acts: seq<Action>)
    requires e.time > ZERO && e.time > now && (delays || late == 0)
    ensures CanRun(Waits(spurious, delays), Step, Init(now), acts)
    ensures var s := After(now, acts); (
      && s.pc == TimedWait(e, e.time - now, e.time + late, false) && s.now == now && s.current == e.time
      && s.list == [] && s.enabled && s.wait == Wait(now, now, late))
  {
    hide CanRun, Run;
    acts := FirstAlarm(spurious, delays, now, e);
    acts := Extend(spurious, delays, now, acts, ThreadAct(0));
    acts := Extend(spurious, delays, now, acts, ThreadAct(late));
  }

  lemma EmptyRun(spurious: bool, delays: bool, now: int)
    ensures CanRun(Waits(spurious, delays), Step, Init(now), []) && After(now, []) == Init(now)
  {
  }

  /** The duration of a wait is computed once, so a wait that a spurious wake-up makes the
      thread take up again after `d` ends `d` too late, with nothing else to do meanwhile. */
  lemma SpuriousWakeUpPostpones(now: int, e: Entry, d: nat) returns (acts: seq<Action>)
    requires e.time > ZERO && e.time > now && d > 0
    ensures CanRun(Waits(true, false), Step, Init(now), acts)
    ensures var s := After(now, acts); (
      s.pc == TimedWait(e, e.time - now, e.time + d, false) && s.list == [] && s.enabled && Lost(s) == d)
  {
    hide CanRun, Run;
    acts := FirstWait(true, false, now, e, 0);
    acts := Extend(true, false, now, acts, Tick(d));
    acts := Extend(true, false, now, acts, Spurious);
    acts := Extend(true, false, now, acts, ThreadAct(0));
  }

  /** A timed wait can end at another time than that of its alarm exactly if the thread may
      wake up for no reason or wait too long. */
  lemma PostponementCondition(spurious: bool, delays: bool)
    ensures CanPostpone(spurious, delays) <==> spurious || delays
  {
    hide CanRun, Run, Inv, Punctual;
    var e := Entry(0, ZERO + 1);
    if delays {
      var acts := FirstWait(spurious, true, ZERO, e, 1);
    } else if spurious {
      var acts := SpuriousWakeUpPostpones(ZERO, e, 1);
    } else {
      forall now: int, acts: seq<Action> | CanRun(Waits(false, false), Step, Init(now), acts)
        ensures !Postponed(After(now, acts))
      {
        PromptRunsArePunctual(now, acts);
      }
    }
  }

  // ---- The times of handling, when nothing tarries ----

  /** Time passes only while the thread sleeps with nothing to do before its deadline, and
      alarms are set for the future. */
  predicate Brisk(s: State, x: Action)
  {
    && Waits(false, false)(s, x) && (x.NewAlarm? ==> s.now <= x.e.time)
    && (x.Tick? ==>
          || s.pc.Done? || (s.pc == IdleWait(false))
          || (s.pc.TimedWait? && !s.pc.signalled && s.now + x.d <= s.pc.deadline))
  }

  ghost predicate OnTime(s: State)
  {
    && (forall i :: 0 <= i < |s.at| && i < |s.handled| ==> s.at[i] == s.handled[i].time)
    && (s.pc.Done? || (forall i :: 0 <= i < |s.list| ==> s.now <= s.list[i].time))
    && (InHand(s.pc).Some? ==> s.now <= InHand(s.pc).value.time)
  }

  lemma LaterInserted(list: seq<Entry>, e: Entry, now: int)
    requires e.time >= now && forall i :: 0 <= i < |list| ==> now <= list[i].time
    ensures forall i :: 0 <= i < |Inserted(list, e)| ==> now <= Inserted(list, e)[i].time
  {
  }

  lemma HandledOnTime(s: State, a: Entry, lost: int)
    requires OnTime(s) && HandledInTime(s) && !s.pc.Done? && a.time == s.now
    ensures OnTime(Handle(s, a, lost))
  {
  }

  lemma TakeNextOnTime(s: State, late: nat)
    requires Inv(s) && OnTime(s) && !s.pc.Done?
    ensures OnTime(TakeNext(s, late))
  {
    if s.enabled && s.list != [] && s.list[0].time <= s.now {
      HandledOnTime(s.(list := s.list[1..]), s.list[0], 0);
    }
  }

  lemma ResumeOnTime(s: State, a: Entry, left: int, timedOut: bool, late: nat)
    requires Inv(s) && OnTime(s) && s.pc == TimedWant(a, left, timedOut)
    ensures OnTime(Resume(s, a, left, timedOut, late))
  {
    if timedOut {
      HandledOnTime(s, a, Lost(s));
    }
    LaterInserted(s.list, a, s.now);
  }

  lemma StepOnTime(s: State, x: Action)
    requires Inv(s) && Punctual(s) && OnTime(s) && Brisk(s, x)
    ensures OnTime(Step(s, x))
  {
    hide TakeNext, Resume, Inserted;
    match x
    case NewAlarm(e) => LaterInserted(s.list, e, s.now);
    case ThreadAct(late) => ThreadOnTime(s, late);
    case Tick(d) =>
    case Shutdown =>
    case Timeout =>
    case Spurious => assert false;
  }

  lemma ThreadOnTime(s: State, late: nat)
    requires Inv(s) && OnTime(s) && Enabled(s, ThreadAct(late))
    ensures OnTime(ThreadStep(s, late))
  {
    match s.pc
    case Top => TopOnTime(s, late);
    case IdleWant => TakeNextOnTime(s, late);
    case TimedWant(a, left, timedOut) => ResumeOnTime(s, a, left, timedOut, late);
    case _ =>
  }

  lemma TopOnTime(s: State, late: nat)
    requires Inv(s) && OnTime(s) && s.pc.Top?
    ensures OnTime(TakeNext(s.(current := ZERO), late))
  {
    TakeNextOnTime(s.(current := ZERO), late);
  }

  /** If the thread wakes only for a reason and nothing takes time but waiting, every alarm
      is handled exactly at its time, across all preemptions. */
  lemma BriskRunsHandleOnTime(now: int, acts: seq<Action>)
    requires CanRun(Brisk, Step, Init(now), acts)
    ensures var s := After(now, acts);
      |s.at| == |s.handled| && forall i :: 0 <= i < |s.at| ==> s.at[i] == s.handled[i].time
  {
    hide Step, Enabled, PcOk, Accounted, Punctual;
    InitInv(now);
    assert Punctual(Init(now)) by {
      InitPunctual(now);
    }
    forall s, x | (Inv(s) && Punctual(s) && OnTime(s)) && Brisk(s, x)
      ensures Inv(Step(s, x)) && Punctual(Step(s, x)) && OnTime(Step(s, x))
    {
      StepInv(s, x);
      PunctualStep(s, x);
      StepOnTime(s, x);
    }
    RunKeeps(Brisk, Step, (s: State) => Inv(s) && Punctual(s) && OnTime(s), Init(now), acts);
  }
}
