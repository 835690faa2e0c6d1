/** The queued thread pool of AGENT++ 4.5 in threads.cpp, before its termination.

    The thread that holds the queue lock, the dispatcher in its round or a client in its
    execute, offers one task to the managers one after the other.  A task that nobody takes
    goes to the end of the queue, also if it came from the front. */
module AgentPool {
  import opened Prelude

  /** Tasks are numbered in the order of their submission. */
  type Task = nat

  /** A manager's slot: Given until its worker has noticed, then Running, which is also
      when the worker holds the manager's lock. */
  datatype Slot = Free | Given(t: Task) | Running(t: Task)

  /** The assignment of `t` under way, at manager `i`, which has said it is idle if `idle`.
      `before` is what the queue was when a round began; it is empty for an execute. */
  datatype Job = Job(t: Task, i: nat, idle: bool, before: seq<Task>)

  /** `submitted` counts the tasks; `placed` are those that were put into a slot. */
  datatype History = History(submitted: nat, placed: seq<Task>, finished: seq<Task>)

  datatype State = State(queue: seq<Task>, job: Option<Job>, slots: seq<Slot>, h: History)

  datatype Action = Submit | Round | Offer | Start(i: nat) | Finish(i: nat)

  function Init(size: nat): State { State([], None, seq(size, i => Free), History(0, [], [])) }

  predicate Enabled(s: State, a: Action)
  {
    match a
    case Submit => s.job.None?
    case Round => s.job.None?
    case Offer => s.job.Some? && (s.job.value.i < |s.slots| ==> !s.slots[s.job.value.i].Running?)
    case Start(i) => i < |s.slots| && s.slots[i].Given?
    case Finish(i) => i < |s.slots| && s.slots[i].Running?
  }

  /** is_idle and set_task of one manager, each under its lock. */
  function OfferStep(s: State, j: Job): State
  {
    if j.i >= |s.slots| then s.(queue := s.queue + [j.t], job := None)
    else if !s.slots[j.i].Free? then s.(job := Some(j.(i := j.i + 1, idle := false)))
    else if !j.idle then s.(job := Some(j.(idle := true)))
    else s.(slots := s.slots[j.i := Given(j.t)], job := None, h := s.h.(placed := s.h.placed + [j.t]))
  }

  function Step(s: State, a: Action): State
  {
    if !Enabled(s, a) then s else
    match a
    case Submit =>
      var s' := s.(h := s.h.(submitted := s.h.submitted + 1));
      if s.queue == [] then s'.(job := Some(Job(s.h.submitted, 0, false, [])))
      else s'.(queue := s.queue + [s.h.submitted])
    case Round =>
      if s.queue == [] then s else s.(queue := s.queue[1..], job := Some(Job(s.queue[0], 0, false, s.queue)))
    case Offer => OfferStep(s, s.job.value)
    case Start(i) => s.(slots := s.slots[i := Running(s.slots[i].t)])
    case Finish(i) => s.(slots := s.slots[i := Free], h := s.h.(finished := s.h.finished + [s.slots[i].t]))
  }

  predicate IsRun(size: nat, acts: seq<Action>) { CanRun(Enabled, Step, Init(size), acts) }

  function After(size: nat, acts: seq<Action>): State { Run(Step, Init(size), acts) }

  // ---- Conservation ----

  function Content(x: Slot): Option<Task> { if x.Free? then None else Some(x.t) }

  function Contents(xs: seq<Slot>): (ys: seq<Option<Task>>)
  {
    seq(|xs|, i requires 0 <= i < |xs| => Content(xs[i]))
  }

  function Upto(n: nat): (ts: seq<Task>) { seq(n, i => i) }

  function InHand(job: Option<Job>): multiset<Task> { if job.Some? then multiset{job.value.t} else multiset{} }

  ghost predicate SubmittedKept(h: History, queue: seq<Task>, job: Option<Job>)
  {
    multiset(Upto(h.submitted)) == (multiset(queue) + InHand(job)) + multiset(h.placed)
  }

  ghost predicate PlacedKept(h: History, slots: seq<Slot>)
  {
    multiset(h.placed) == Filled(Contents(slots)) + multiset(h.finished)
  }

  /** A round works on the front of what the queue was; an execute on an empty queue. */
  ghost predicate JobOk(s: State)
  {
    s.job.Some? ==> var j := s.job.value;
      && j.i <= |s.slots| && (j.idle ==> j.i < |s.slots| && s.slots[j.i].Free?)
      && (if j.before == [] then s.queue == [] else j.t == j.before[0] && s.queue == j.before[1..])
  }

  ghost predicate Good(s: State)
  {
    JobOk(s) && SubmittedKept(s.h, s.queue, s.job) && PlacedKept(s.h, s.slots)
  }

  lemma PlacedMoves(h: History, h': History, slots: seq<Slot>, i: nat, x: Slot,
                    entered: multiset<Task>, left: multiset<Task>)
    requires PlacedKept(h, slots) && i < |slots|
    requires multiset(h'.placed) == multiset(h.placed) + entered
    requires multiset(h'.finished) == multiset(h.finished) + left
    requires Bag(Content(x)) + left == Bag(Content(slots[i])) + entered
    ensures PlacedKept(h', slots[i := x])
  {
    assert Contents(slots[i := x]) == Contents(slots)[i := Content(x)];
    FilledUpdate(Contents(slots), i, Content(x));
    Balance(multiset(h.placed), multiset(h'.placed), Filled(Contents(slots)), Filled(Contents(slots[i := x])),
            multiset(h.finished), multiset(h'.finished), Bag(Content(slots[i])), Bag(Content(x)), left, entered);
  }

  lemma PlaceKept(h: History, slots: seq<Slot>, i: nat, t: Task)
    requires PlacedKept(h, slots) && i < |slots| && slots[i].Free?
    ensures PlacedKept(h.(placed := h.placed + [t]), slots[i := Given(t)])
  {
    PlacedMoves(h, h.(placed := h.placed + [t]), slots, i, Given(t), multiset{t}, multiset{});
  }

  lemma PlaceSubmitted(h: History, queue: seq<Task>, j: Job)
    requires SubmittedKept(h, queue, Some(j))
    ensures SubmittedKept(h.(placed := h.placed + [j.t]), queue, None)
    ensures SubmittedKept(h, queue + [j.t], None)
  {
  }

  lemma OfferGood(s: State)
    requires Good(s) && Enabled(s, Offer)
    ensures Good(Step(s, Offer))
  {
    hide SubmittedKept, PlacedKept;
    var j := s.job.value;
    PlaceSubmitted(s.h, s.queue, j);
    if j.i < |s.slots| && s.slots[j.i].Free? {
      PlaceKept(s.h, s.slots, j.i, j.t);
    }
    SameTaskInHand(s.h, s.queue, j, j.(i := j.i + 1, idle := false));
    SameTaskInHand(s.h, s.queue, j, j.(idle := true));
  }

  lemma SameTaskInHand(h: History, queue: seq<Task>, j: Job, j': Job)
    requires SubmittedKept(h, queue, Some(j)) && j'.t == j.t
    ensures SubmittedKept(h, queue, Some(j'))
  {
  }

  lemma SubmitKept(h: History, queue: seq<Task>, slots: seq<Slot>)
    requires SubmittedKept(h, queue, None) && PlacedKept(h, slots)
    ensures var h' := h.(submitted := h.submitted + 1); (
      && SubmittedKept(h', queue, Some(Job(h.submitted, 0, false, [])))
      && SubmittedKept(h', queue + [h.submitted], None) && PlacedKept(h', slots))
  {
    assert Upto(h.submitted + 1) == Upto(h.submitted) + [h.submitted];
  }

  lemma RoundKept(h: History, queue: seq<Task>)
    requires SubmittedKept(h, queue, None) && queue != []
    ensures SubmittedKept(h, queue[1..], Some(Job(queue[0], 0, false, queue)))
  {
    assert queue == [queue[0]] + queue[1..];
  }

  lemma WorkerKept(h: History, slots: seq<Slot>, i: nat)
    requires PlacedKept(h, slots) && i < |slots| && !slots[i].Free?
    ensures PlacedKept(h, slots[i := Running(slots[i].t)])
    ensures PlacedKept(h.(finished := h.finished + [slots[i].t]), slots[i := Free])
  {
    var t := slots[i].t;
    PlacedMoves(h, h, slots, i, Running(t), multiset{}, multiset{});
    PlacedMoves(h, h.(finished := h.finished + [t]), slots, i, Free, multiset{}, multiset{t});
  }

  lemma FinishSubmitted(h: History, queue: seq<Task>, job: Option<Job>, t: Task)
    requires SubmittedKept(h, queue, job)
    ensures SubmittedKept(h.(finished := h.finished + [t]), queue, job)
  {
  }

  lemma StepGood(s: State, a: Action)
    requires Good(s) && Enabled(s, a)
    ensures Good(Step(s, a))
  {
    hide SubmittedKept, PlacedKept;
    match a
    case Submit => SubmitKept(s.h, s.queue, s.slots);
    case Round =>
      if s.queue != [] {
        RoundKept(s.h, s.queue);
      }
    case Offer => OfferGood(s);
    case Start(i) => WorkerKept(s.h, s.slots, i);
    case Finish(i) =>
      WorkerKept(s.h, s.slots, i);
      FinishSubmitted(s.h, s.queue, s.job, s.slots[i].t);
  }

  lemma InitGood(size: nat)
    ensures Good(Init(size))
  {
    FilledNone(Contents(Init(size).slots));
  }

  lemma RunGood(size: nat, acts: seq<Action>)
    requires IsRun(size, acts)
    ensures Good(After(size, acts))
  {
    hide Step, Enabled, Good;
    InitGood(size);
    forall s, a | Good(s) && Enabled(s, a) ensures Good(Step(s, a)) {
      StepGood(s, a);
    }
    RunKeeps(Enabled, Step, Good, Init(size), acts);
  }

  lemma UptoHas(n: nat, t: Task)
    ensures multiset(Upto(n))[t] == if t < n then 1 else 0
  {
    if n > 0 {
      UptoHas(n - 1, t);
      assert Upto(n) == Upto(n - 1) + [n - 1];
    }
  }

  /** Though a failed assignment puts its task back, each submitted task is in exactly one
      place: queued, in the hand of the one who assigns it, in one slot, or finished. */
  lemma ExactlyOnePlace(size: nat, acts: seq<Action>, t: Task)
    requires IsRun(size, acts)
    ensures var s := After(size, acts); (
      multiset(s.queue)[t] + InHand(s.job)[t] + Filled(Contents(s.slots))[t] + multiset(s.h.finished)[t]
      == if t < s.h.submitted then 1 else 0)
  {
    RunGood(size, acts);
    var s := After(size, acts);
    UptoHas(s.h.submitted, t);
    assert multiset(s.h.placed)[t] == Filled(Contents(s.slots))[t] + multiset(s.h.finished)[t];
  }

  /** The tasks submitted that have not found a slot. */
  function Waiting(s: State): nat { |s.queue| + if s.job.Some? then 1 else 0 }

  lemma WaitingAre(s: State)
    requires Good(s)
    ensures Waiting(s) + |s.h.placed| == s.h.submitted
  {
    assert |multiset(Upto(s.h.submitted))| == |multiset(s.queue)| + |InHand(s.job)| + |multiset(s.h.placed)|;
  }

  lemma {:induction false} NothingSubmitted(s: State, more: seq<Action>)
    requires CanRun(Enabled, Step, s, more) && Submit !in more
    ensures Run(Step, s, more).h.submitted == s.h.submitted && s.h.placed <= Run(Step, s, more).h.placed
    decreases |more|
  {
    if more != [] {
      assert more[0] in more && Submit !in more[1..];
      NothingSubmitted(Step(s, more[0]), more[1..]);
    }
  }

  /** While nothing is submitted, every successful assignment, and nothing else, shortens
      the line by one, failed rounds and workers notwithstanding: it is empty exactly when as
      many have succeeded as it was long. */
  lemma PlacementsEmptyTheQueue(size: nat, acts: seq<Action>, more: seq<Action>)
    requires IsRun(size, acts) && CanRun(Enabled, Step, After(size, acts), more) && Submit !in more
    ensures var s, s' := After(size, acts), After(size, acts + more);
      && s.h.placed <= s'.h.placed && Waiting(s') == Waiting(s) - (|s'.h.placed| - |s.h.placed|)
      && (s'.queue == [] && s'.job.None? <==> |s'.h.placed| - |s.h.placed| == Waiting(s))
  {
    RunAppend(Enabled, Step, Init(size), acts, more);
    RunGood(size, acts);
    RunGood(size, acts + more);
    WaitingAre(After(size, acts));
    WaitingAre(After(size, acts + more));
    NothingSubmitted(After(size, acts), more);
  }

  // ---- Rounds and their order ----

  ghost predicate Ascending(ts: seq<Task>) { forall i, j :: 0 <= i < j < |ts| ==> ts[i] < ts[j] }

  /** A round ends by handing the front to one free manager, or by putting it at the end of
      the queue; what was in order then stays in order exactly if the queue held one task. */
  lemma RoundEnds(size: nat, acts: seq<Action>)
    requires IsRun(size, acts) && Enabled(After(size, acts), Offer)
    requires After(size, acts).job.value.before != [] && Step(After(size, acts), Offer).job.None?
    ensures var s := After(size, acts); var s' := Step(s, Offer); var b := s.job.value.before; (
      if s'.queue == b[1..] then
        && |s'.queue| == |b| - 1
        && exists i :: 0 <= i < |s.slots| && s.slots[i].Free? && s'.slots == s.slots[i := Given(b[0])]
      else
        && s'.queue == b[1..] + [b[0]] && multiset(s'.queue) == multiset(b) && s'.slots == s.slots
        && (Ascending(b) ==> (Ascending(s'.queue) <==> |b| == 1)))
  {
    RunGood(size, acts);
    var s := After(size, acts);
    var b := s.job.value.before;
    assert b == [b[0]] + b[1..];
    if s.job.value.i >= |s.slots| && |b| > 1 {
      var q := b[1..] + [b[0]];
      assert q[0] == b[1] && q[|q| - 1] == b[0];
    }
  }

  // ---- Rounds succeed ----

  predicate SomeFree(slots: seq<Slot>) { exists k :: 0 <= k < |slots| && slots[k].Free? }

  /** The task in hand is `t`, from a queue that goes on as `rest`, and there is a free manager
      ahead; or it has been placed. */
  ghost predicate FrontIsPlaced(s: State, t: Task, rest: seq<Task>, placed: seq<Task>)
  {
    JobOk(s) && s.queue == rest &&
    if s.job.Some? then
      && s.job.value.t == t && s.h.placed == placed
      && exists k :: s.job.value.i <= k < |s.slots| && s.slots[k].Free?
    else s.h.placed == placed + [t]
  }

  predicate OffersAndWorkers(s: State, a: Action) { Enabled(s, a) && !a.Submit? && !a.Round? }

  lemma PlacingStep(s: State, t: Task, rest: seq<Task>, placed: seq<Task>, a: Action)
    requires FrontIsPlaced(s, t, rest, placed) && OffersAndWorkers(s, a)
    ensures FrontIsPlaced(Step(s, a), t, rest, placed)
  {
    var s' := Step(s, a);
    if s.job.Some? && s'.job.Some? {
      var k :| s.job.value.i <= k < |s.slots| && s.slots[k].Free?;
      assert s'.job.value.i <= k && s'.slots[k].Free?;
    }
  }

  /** A round begun while some manager is free takes the front of the queue in hand and,
      whatever the workers do meanwhile, ends by placing it. */
  lemma RoundPlacesTheFront(size: nat, acts: seq<Action>, more: seq<Action>)
    requires IsRun(size, acts) && Enabled(After(size, acts), Round)
    requires After(size, acts).queue != [] && SomeFree(After(size, acts).slots)
    requires CanRun(OffersAndWorkers, Step, Step(After(size, acts), Round), more)
    ensures var s := After(size, acts); var s' := Run(Step, Step(s, Round), more); (
      && s'.queue == s.queue[1..]
      && (s'.job.Some? ==> s'.job.value.t == s.queue[0])
      && (s'.job.None? ==> s'.h.placed == s.h.placed + [s.queue[0]]))
  {
    hide Enabled;
    RunGood(size, acts);
    var s := After(size, acts);
    var t, rest, placed := s.queue[0], s.queue[1..], s.h.placed;
    assert FrontIsPlaced(Step(s, Round), t, rest, placed) by {
      RoundBegins(s);
    }
    forall u, a | FrontIsPlaced(u, t, rest, placed) && OffersAndWorkers(u, a)
      ensures FrontIsPlaced(Step(u, a), t, rest, placed)
    {
      PlacingStep(u, t, rest, placed, a);
    }
    RunKeeps(OffersAndWorkers, Step, (u: State) => FrontIsPlaced(u, t, rest, placed), Step(s, Round), more);
  }

  lemma RoundBegins(s: State)
    requires Enabled(s, Round) && s.queue != [] && SomeFree(s.slots)
    ensures FrontIsPlaced(Step(s, Round), s.queue[0], s.queue[1..], s.h.placed)
  {
    var k :| 0 <= k < |s.slots| && s.slots[k].Free?;
    assert Step(s, Round).job.value.i <= k;
  }

  predicate Unloading(s: State, a: Action) { Enabled(s, a) && !a.Submit? }

  function SlotRank(x: Slot): nat { if x.Given? then 2 else if x.Running? then 1 else 0 }

  /** How far the next round of a pool with a manager is: the job in hand has to end, then
      manager 0 has to become free. */
  function RoundRank(s: State): nat
  {
    if s.job.None? then (if s.slots == [] then 0 else SlotRank(s.slots[0]))
    else if s.job.value.i >= |s.slots| then 3
    else
      var j := s.job.value;
      3 + 3 * (|s.slots| - j.i) + (if s.slots[j.i].Running? then 1 else 0) + (if j.idle then 0 else 1)
  }

  predicate CanBegin(s: State) { s.job.None? && s.slots != [] && s.slots[0].Free? }

  /** What brings the next round nearer. */
  function Towards(s: State): Action
  {
    if s.job.None? && s.slots != [] && s.slots[0].Given? then Start(0)
    else if s.job.None? then Finish(0)
    else if s.job.value.i < |s.slots| && s.slots[s.job.value.i].Running? then Finish(s.job.value.i)
    else Offer
  }

  lemma TowardsTheRound(s: State)
    requires JobOk(s) && s.slots != [] && !CanBegin(s)
    ensures Unloading(s, Towards(s))
    ensures var s' := Step(s, Towards(s)); (
      && JobOk(s') && |s'.slots| == |s.slots| && Waiting(s') <= Waiting(s)
      && (Waiting(s') < Waiting(s) || RoundRank(s') < RoundRank(s)))
  {
  }

  /** With manager 0 free, a round places the front in three steps. */
  lemma RoundOnFreeManager(s: State)
    requires JobOk(s) && CanBegin(s) && s.queue != []
    ensures CanRun(Unloading, Step, s, [Round, Offer, Offer])
    ensures var s' := Run(Step, s, [Round, Offer, Offer]); (
      JobOk(s') && |s'.slots| == |s.slots| && Waiting(s') < Waiting(s))
  {
    var s1 := Step(s, Round);
    var s2 := Step(s1, Offer);
    assert [Round, Offer, Offer][1..] == [Offer, Offer] && [Offer, Offer][1..] == [Offer] && [Offer][1..] == [];
    assert s1.job.value.i == 0 && s1.slots == s.slots && s2.job.value.idle;
  }

  lemma {:induction false} EmptyTheLine(s: State) returns (more: seq<Action>)
    requires JobOk(s) && s.slots != []
    ensures CanRun(Unloading, Step, s, more)
    ensures Run(Step, s, more).queue == [] && Run(Step, s, more).job.None?
    decreases Waiting(s), RoundRank(s)
  {
    hide JobOk, Step;
    if s.queue == [] && s.job.None? {
      more := [];
    } else if CanBegin(s) {
      RoundOnFreeManager(s);
      var rest := EmptyTheLine(Run(Step, s, [Round, Offer, Offer]));
      more := [Round, Offer, Offer] + rest;
      RunAppend(Unloading, Step, s, [Round, Offer, Offer], rest);
    } else {
      TowardsTheRound(s);
      var rest := EmptyTheLine(Step(s, Towards(s)));
      more := [Towards(s)] + rest;
      assert more[1..] == rest;
    }
  }

  /** From every reachable state of a pool with a worker the line can be emptied without
      further submissions. */
  lemma TheLineCanBeEmptied(size: nat, acts: seq<Action>) returns (more: seq<Action>)
    requires IsRun(size, acts) && size > 0
    ensures CanRun(Unloading, Step, After(size, acts), more)
    ensures var s := Run(Step, After(size, acts), more); s.queue == [] && s.job.None?
  {
    hide Step, Enabled;
    RunGood(size, acts);
    forall s: State, a | |s.slots| == size && Enabled(s, a) ensures |Step(s, a).slots| == size {
      SlotsStay(s, a);
    }
    RunKeeps(Enabled, Step, (s: State) => |s.slots| == size, Init(size), acts);
    more := EmptyTheLine(After(size, acts));
  }

  lemma SlotsStay(s: State, a: Action)
    ensures |Step(s, a).slots| == |s.slots|
  {
  }

  // ---- How many unfinished tasks it takes to lose the order ----

  function Unfinished(s: State): int { s.h.submitted - |s.h.finished| }

  function Limited(limit: nat): (State, Action) -> bool
  {
    (s: State, a: Action) => Enabled(s, a) && (a.Submit? ==> Unfinished(s) < limit)
  }

  ghost predicate CanReorder(size: nat, limit: nat)
  {
    exists acts: seq<Action> :: CanRun(Limited(limit), Step, Init(size), acts) && !Ascending(After(size, acts).queue)
  }

  /** A round that could spoil the order has a free manager ahead of it. */
  ghost predicate Roomy(s: State)
  {
    s.job.Some? && |s.job.value.before| > 1 ==> exists k :: s.job.value.i <= k < |s.slots| && s.slots[k].Free?
  }

  ghost predicate Ordered(s: State)
  {
    && Ascending(s.queue) && (forall t :: t in s.queue ==> t < s.h.submitted)
    && (s.job.Some? ==> Ascending(s.job.value.before) && s.job.value.t < s.h.submitted)
  }

  ghost predicate Calm(s: State, size: nat)
  {
    Good(s) && Ordered(s) && Roomy(s) && |s.slots| == size && Unfinished(s) <= size + 1
  }

  lemma Counts(s: State)
    requires Good(s) && s.job.None?
    ensures Unfinished(s) == |s.queue| + |Filled(Contents(s.slots))|
  {
    assert |multiset(Upto(s.h.submitted))| == |multiset(s.queue)| + |multiset(s.h.placed)|;
    assert |multiset(s.h.placed)| == |Filled(Contents(s.slots))| + |multiset(s.h.finished)|;
  }

  lemma RoundHasRoom(s: State, size: nat)
    requires Calm(s, size) && s.job.None? && |s.queue| > 1
    ensures exists k :: 0 <= k < |s.slots| && s.slots[k].Free?
  {
    hide SubmittedKept, PlacedKept;
    Counts(s);
    AllFilled(Contents(s.slots));
    assert forall k :: 0 <= k < |s.slots| ==> Contents(s.slots)[k] == Content(s.slots[k]);
  }

  lemma PushOrdered(s: State, t: Task)
    requires Ascending(s.queue) && forall u :: u in s.queue ==> u < t
    ensures Ascending(s.queue + [t])
  {
    assert forall i :: 0 <= i < |s.queue| ==> s.queue[i] in s.queue;
  }

  /** A step keeps the order, unless it puts back a task from a queue of several. */
  lemma StepOrdered(s: State, a: Action)
    requires JobOk(s) && Ordered(s) && Enabled(s, a)
    requires a.Offer? && s.job.value.i >= |s.slots| ==> |s.job.value.before| <= 1
    ensures Ordered(Step(s, a))
  {
    match a
    case Submit => PushOrdered(s, s.h.submitted);
    case Round =>
      if s.queue != [] {
        assert s.queue[0] in s.queue && forall t :: t in s.queue[1..] ==> t in s.queue;
      }
    case Offer =>
      if s.job.value.i >= |s.slots| {
        assert s.queue == [];
      }
    case Start(_) =>
    case Finish(_) =>
  }

  lemma StepRoomy(s: State, a: Action)
    requires JobOk(s) && Roomy(s) && Enabled(s, a)
    requires a.Round? && |s.queue| > 1 ==> exists k :: 0 <= k < |s.slots| && s.slots[k].Free?
    ensures Roomy(Step(s, a))
  {
    var s' := Step(s, a);
    if !a.Round? && s'.job.Some? && |s'.job.value.before| > 1 {
      var k :| s.job.value.i <= k < |s.slots| && s.slots[k].Free?;
      assert s'.job.value.i <= k && s'.slots[k].Free?;
    }
  }

  lemma StepCounts(s: State, a: Action)
    requires Enabled(s, a)
    ensures |Step(s, a).slots| == |s.slots| && Unfinished(Step(s, a)) <= Unfinished(s) + if a.Submit? then 1 else 0
  {
  }

  lemma StepCalm(s: State, size: nat, limit: nat, a: Action)
    requires Calm(s, size) && limit <= size + 1 && Limited(limit)(s, a)
    ensures Calm(Step(s, a), size)
  {
    hide SubmittedKept, PlacedKept, Ordered, Step;
    StepGood(s, a);
    if a.Round? && |s.queue| > 1 {
      RoundHasRoom(s, size);
    }
    StepRoomy(s, a);
    StepOrdered(s, a);
    StepCounts(s, a);
  }

  lemma LightLoadKeepsOrder(size: nat, limit: nat, acts: seq<Action>)
    requires limit <= size + 1 && CanRun(Limited(limit), Step, Init(size), acts)
    ensures Ascending(After(size, acts).queue)
  {
    hide Good, Step, Enabled;
    InitGood(size);
    forall s, a | Calm(s, size) && Limited(limit)(s, a) ensures Calm(Step(s, a), size) {
      StepCalm(s, size, limit, a);
    }
    RunKeeps(Limited(limit), Step, (s: State) => Calm(s, size), Init(size), acts);
  }

  ghost predicate LimitedRun(size: nat, limit: nat, acts: seq<Action>)
  {
    CanRun(Limited(limit), Step, Init(size), acts)
  }

  lemma Extend(size: nat, limit: nat, acts: seq<Action>, a: Action)
    requires LimitedRun(size, limit, acts) && Limited(limit)(After(size, acts), a)
    ensures LimitedRun(size, limit, acts + [a]) && After(size, acts + [a]) == Step(After(size, acts), a)
  {
    RunExtend(Limited(limit), Step, Init(size), acts, a);
  }

  /** `k` workers have been given a task that they have not yet noticed; `job` has passed `i`. */
  ghost predicate Dealt(s: State, size: nat, k: nat)
  {
    && |s.slots| == size && k <= size && s.h.finished == []
    && (forall i :: 0 <= i < size ==> s.slots[i] == if i < k then Given(i) else Free)
  }

  lemma JobPasses(size: nat, limit: nat, acts0: seq<Action>, k: nat, t: Task, before: seq<Task>)
    returns (acts: seq<Action>)
    requires LimitedRun(size, limit, acts0) && Dealt(After(size, acts0), size, k)
    requires After(size, acts0).job == Some(Job(t, 0, false, before))
    ensures LimitedRun(size, limit, acts)
    ensures After(size, acts) == After(size, acts0).(job := Some(Job(t, k, false, before)))
  {
    hide CanRun, Run;
    acts := acts0;
    for i := 0 to k
      invariant LimitedRun(size, limit, acts)
      invariant After(size, acts) == After(size, acts0).(job := Some(Job(t, i, false, before)))
    {
      Extend(size, limit, acts, Offer);
      acts := acts + [Offer];
    }
  }

  lemma EveryoneIsDealt(size: nat, limit: nat) returns (acts: seq<Action>)
    requires limit > size
    ensures LimitedRun(size, limit, acts)
    ensures var s := After(size, acts); Dealt(s, size, size) && s.queue == [] && s.job.None? && s.h.submitted == size
  {
    hide CanRun, Run;
    acts := [];
    assert LimitedRun(size, limit, acts) && After(size, acts) == Init(size) by {
      EmptyRun(size, limit);
    }
    for k := 0 to size
      invariant LimitedRun(size, limit, acts)
      invariant var s := After(size, acts); Dealt(s, size, k) && s.queue == [] && s.job.None? && s.h.submitted == k
    {
      Extend(size, limit, acts, Submit);
      acts := acts + [Submit];
      acts := JobPasses(size, limit, acts, k, k, []);
      Extend(size, limit, acts, Offer);
      acts := acts + [Offer];
      Extend(size, limit, acts, Offer);
      acts := acts + [Offer];
    }
  }

  lemma EmptyRun(size: nat, limit: nat)
    ensures LimitedRun(size, limit, []) && After(size, []) == Init(size)
  {
  }

  /** Two tasks more than workers: the round that offers the first of them in vain puts it
      behind the second. */
  lemma HeavyLoadReorders(size: nat, limit: nat) returns (acts: seq<Action>)
    requires limit > size + 1
    ensures LimitedRun(size, limit, acts) && After(size, acts).queue == [size + 1, size]
  {
    hide CanRun, Run;
    acts := EveryoneIsDealt(size, limit);
    Extend(size, limit, acts, Submit);
    acts := acts + [Submit];
    acts := JobPasses(size, limit, acts, size, size, []);
    Extend(size, limit, acts, Offer);
    acts := acts + [Offer];
    Extend(size, limit, acts, Submit);
    acts := acts + [Submit];
    assert After(size, acts).queue == [size, size + 1];
    Extend(size, limit, acts, Round);
    acts := acts + [Round];
    acts := JobPasses(size, limit, acts, size, size, [size, size + 1]);
    Extend(size, limit, acts, Offer);
    acts := acts + [Offer];
  }

  /** Tasks can get out of order in the queue exactly when the callers let the unfinished
      tasks outnumber the workers by two. */
  lemma ReorderingThreshold(size: nat, limit: nat)
    ensures CanReorder(size, limit) <==> limit > size + 1
  {
    hide CanRun, Run;
    if limit > size + 1 {
      var acts := HeavyLoadReorders(size, limit);
      assert !Ascending([size + 1, size]) by {
        assert [size + 1, size][0] > [size + 1, size][1];
      }
    } else {
      forall acts: seq<Action> | CanRun(Limited(limit), Step, Init(size), acts)
        ensures Ascending(After(size, acts).queue)
      {
        LightLoadKeepsOrder(size, limit, acts);
      }
    }
  }

  // ---- The object ----

  /** What any number of worker steps may make of a slot; `idle` slots stay idle. */
  predicate MayBecome(x: Slot, x': Slot)
  {
    x'.Free? || x' == x || (x.Given? && x' == Running(x.t))
  }

  class QueuedThreadPool {
    var slots: seq<Slot>
    var queue: seq<Task>

    constructor (size: nat)
      ensures slots == seq(size, i => Free) && queue == []
    {
      slots, queue := seq(size, i => Free), [];
    }

    twostate predicate Interfered()
      reads this
    {
      |slots| == |old(slots)| && forall i :: 0 <= i < |slots| ==> MayBecome(old(slots[i]), slots[i])
    }

    /** Workers notice tasks given to them, and finish them. */
    method Interfere()
      modifies this`slots
      ensures Interfered()
    {
      var steps: int := *;
      while 0 < steps
        invariant Interfered()
      {
        var i: int := *;
        if 0 <= i < |slots| {
          slots := slots[i := if slots[i].Given? then Running(slots[i].t) else Free];
        }
        steps := steps - 1;
      }
    }

    /** Blocks until the lock of manager `i` is free, that is until its task has ended. */
    method Lock(i: nat)
      requires i < |slots|
      modifies this`slots
      ensures Interfered() && !slots[i].Running?
    {
      Interfere();
      if slots[i].Running? {
        slots := slots[i := Free];
      }
    }

    /** Gives the task to one free manager, or puts it at the end of the queue.  A manager
        that is free at the start is found, whatever the workers do meanwhile. */
    method Assign(t: Task) returns (at: Option<nat>)
      modifies this
      ensures |slots| == |old(slots)|
      ensures queue == if at.Some? then old(queue) else old(queue) + [t]
      ensures at.Some? ==> at.value < |slots| && slots[at.value] == Given(t)
      ensures forall i :: 0 <= i < |slots| && Some(i) != at ==> MayBecome(old(slots[i]), slots[i])
      ensures (exists i :: 0 <= i < |slots| && old(slots[i]).Free?) ==> at.Some?
    {
      at := None;
      var cur := 0;
      while cur < |slots| && at.None?
        invariant cur <= |slots| == |old(slots)| && queue == old(queue)
        invariant at.Some? ==> at.value < |slots| && slots[at.value] == Given(t)
        invariant forall i :: 0 <= i < |slots| && Some(i) != at ==> MayBecome(old(slots[i]), slots[i])
        invariant at.None? ==> forall i :: 0 <= i < cur ==> !old(slots[i]).Free?
        decreases |slots| - cur
      {
        Lock(cur);
        if slots[cur].Free? {
          Lock(cur);
          if slots[cur].Free? {
            slots := slots[cur := Given(t)];
            at := Some(cur);
          }
        }
        cur := cur + 1;
      }
      if at.None? {
        queue := queue + [t];
      }
    }

    method Execute(t: Task) returns (at: Option<nat>)
      modifies this
      ensures |slots| == |old(slots)|
      ensures queue == if at.Some? then old(queue) else old(queue) + [t]
      ensures at.Some? ==> old(queue) == [] && at.value < |slots| && slots[at.value] == Given(t)
      ensures old(queue) == [] && (exists i :: 0 <= i < |slots| && old(slots[i]).Free?) ==> at.Some?
      ensures forall i :: 0 <= i < |slots| && Some(i) != at ==> MayBecome(old(slots[i]), slots[i])
    {
      at := None;
      if queue == [] {
        at := Assign(t);
      } else {
        queue := queue + [t];
      }
    }

    /** What the step that begins a round makes of the fields. */
    ghost function Begun(): State
      reads this
    {
      Step(State(queue, None, slots, History(0, [], [])), Action.Round)
    }

    /** The body of the dispatcher's loop, up to its timed wait. */
    method Round() returns (at: Option<nat>)
      modifies this
      ensures |slots| == |old(slots)|
      ensures old(queue) == [] ==> at.None? && queue == []
      ensures old(queue) != [] ==> queue == old(queue)[1..] + if at.Some? then [] else [old(queue)[0]]
      ensures old(Begun()).job.Some? <==> old(queue) != []
      ensures old(queue) != [] ==> queue == old(Begun()).queue + if at.Some? then [] else [old(Begun()).job.value.t]
      ensures at.Some? ==> at.value < |slots| && old(queue) != [] && slots[at.value] == Given(old(queue)[0])
      ensures forall i :: 0 <= i < |slots| && Some(i) != at ==> MayBecome(old(slots[i]), slots[i])
      ensures old(queue) != [] && (exists i :: 0 <= i < |slots| && old(slots[i]).Free?) ==> at.Some?
    {
      at := None;
      if queue != [] {
        var t := queue[0];
        queue := queue[1..];
        at := Assign(t);
      }
    }
  }
}
