/** What the lock server guarantees to its clients over whole runs. */
module LockQueueProtocol {
  import opened Prelude
  import opened LockQueue

  // ---- One scan ----

  /** In the order of arrival, without repetition. */
  ghost predicate Ordered(rs: seq<Request>)
  {
    forall i, j :: 0 <= i < j < |rs| ==> rs[i].id < rs[j].id
  }

  ghost predicate AnsweredBefore(answers: seq<Answer>, r: Request, q: int)
  {
    exists p :: 0 <= p < q && p < |answers| && answers[p].r == r
  }

  ghost predicate Answered(answers: seq<Answer>, r: Request)
  {
    AnsweredBefore(answers, r, |answers|)
  }

  /** Every pending request is either left, in its order, or answered, and not both; those
      left wait, and for a target that is locked. */
  ghost predicate Sorted(pending: seq<Request>, o: Outcome)
  {
    && Ordered(o.left)
    && (forall r :: r in o.left ==> r in pending && r.waits && r.target in o.locked && !Answered(o.answers, r))
    && (forall r :: r in pending ==> r in o.left || Answered(o.answers, r))
    && (forall p :: 0 <= p < |o.answers| ==> o.answers[p].r in pending)
    && (forall p, q :: 0 <= p < q < |o.answers| ==> o.answers[p].r != o.answers[q].r)
    && (forall p :: 0 <= p < |o.answers| && o.answers[p].result == BUSY ==> !o.answers[p].r.waits)
  }

  predicate Grants(x: Answer) { x.result == LOCKED }

  ghost function GrantedTargets(answers: seq<Answer>): set<Target>
  {
    set p | 0 <= p < |answers| && Grants(answers[p]) :: answers[p].r.target
  }

  /** What is granted was free, is locked afterwards, and is granted once. */
  ghost predicate Exclusive(locked: set<Target>, o: Outcome)
  {
    && o.locked == locked + GrantedTargets(o.answers)
    && (forall p :: 0 <= p < |o.answers| && Grants(o.answers[p]) ==> o.answers[p].r.target !in locked)
    && (forall p, q :: 0 <= p < q < |o.answers| && Grants(o.answers[p]) && Grants(o.answers[q]) ==>
          o.answers[p].r.target != o.answers[q].r.target)
  }

  predicate Precedes(a: Request, b: Request) { a.id < b.id && a.target == b.target }

  /** A grant comes after the answers to all earlier pending requests for its target. */
  ghost predicate InTurn(pending: seq<Request>, answers: seq<Answer>)
  {
    forall q, a :: 0 <= q < |answers| && Grants(answers[q]) && a in pending && Precedes(a, answers[q].r) ==>
      AnsweredBefore(answers, a, q)
  }

  lemma AnswersGrow(answers: seq<Answer>, x: Answer)
    ensures forall r, q :: q <= |answers| ==> (AnsweredBefore(answers + [x], r, q) <==> AnsweredBefore(answers, r, q))
    ensures forall r :: Answered(answers + [x], r) <==> Answered(answers, r) || r == x.r
  {
    forall r ensures Answered(answers + [x], r) <==> Answered(answers, r) || r == x.r {
      assert (answers + [x])[|answers|] == x;
      if Answered(answers, r) {
        var p :| 0 <= p < |answers| && answers[p].r == r;
        assert (answers + [x])[p].r == r;
      }
    }
    forall r, q | q <= |answers|
      ensures AnsweredBefore(answers + [x], r, q) <==> AnsweredBefore(answers, r, q)
    {
      if AnsweredBefore(answers, r, q) {
        var p :| 0 <= p < q && p < |answers| && answers[p].r == r;
        assert (answers + [x])[p].r == r;
      }
    }
  }

  lemma NewestComesLast(pending: seq<Request>, r: Request)
    requires Ordered(pending + [r])
    ensures Ordered(pending) && forall x :: x in pending ==> x in pending + [r] && x.id < r.id
  {
    var all := pending + [r];
    assert forall i :: 0 <= i < |pending| ==> pending[i] == all[i] && all[i].id < all[|pending|].id;
  }

  lemma OfferSorts(pending: seq<Request>, o: Outcome, r: Request)
    requires Sorted(pending, o) && Ordered(pending + [r])
    ensures Sorted(pending + [r], Offer(o, r))
  {
    var o' := Offer(o, r);
    NewestComesLast(pending, r);
    if |o'.answers| > |o.answers| {
      AnswersGrow(o.answers, o'.answers[|o.answers|]);
    }
  }

  lemma GrantedGrows(answers: seq<Answer>, x: Answer)
    ensures GrantedTargets(answers + [x]) == GrantedTargets(answers) + if Grants(x) then {x.r.target} else {}
  {
    var all := answers + [x];
    assert all[|answers|] == x;
    forall t | t in GrantedTargets(answers) ensures t in GrantedTargets(all) {
      var p :| 0 <= p < |answers| && Grants(answers[p]) && answers[p].r.target == t;
      assert all[p] == answers[p];
    }
  }

  lemma OfferExclusive(locked: set<Target>, o: Outcome, r: Request)
    requires Exclusive(locked, o)
    ensures Exclusive(locked, Offer(o, r))
  {
    var o' := Offer(o, r);
    if |o'.answers| > |o.answers| {
      GrantedGrows(o.answers, o'.answers[|o.answers|]);
      assert forall p :: 0 <= p < |o.answers| && Grants(o.answers[p]) ==> o.answers[p].r.target in o.locked;
    }
  }

  lemma OfferInTurn(pending: seq<Request>, o: Outcome, r: Request)
    requires Sorted(pending, o) && InTurn(pending, o.answers) && Ordered(pending + [r])
    ensures InTurn(pending + [r], Offer(o, r).answers)
  {
    var o' := Offer(o, r);
    NewestComesLast(pending, r);
    if |o'.answers| > |o.answers| {
      AnswersGrow(o.answers, o'.answers[|o.answers|]);
    }
  }

  lemma {:induction false} ScanWorks(locked: set<Target>, pending: seq<Request>)
    requires Ordered(pending)
    ensures var o := Scan(locked, pending); Sorted(pending, o) && Exclusive(locked, o) && InTurn(pending, o.answers)
  {
    if pending != [] {
      var before, r := pending[..|pending| - 1], pending[|pending| - 1];
      assert before + [r] == pending;
      ScanWorks(locked, before);
      OfferSorts(before, Scan(locked, before), r);
      OfferExclusive(locked, Scan(locked, before), r);
      OfferInTurn(before, Scan(locked, before), r);
    }
  }

  // ---- The server and its clients ----

  /** The server's fields, with what they are checked against: the requests entered so far,
      numbered by arrival, and those granted whose release it has not yet carried out. */
  datatype State = State(
    pendingLock: seq<Request>, pendingRelease: seq<Request>, go: bool, locked: set<Target>,
    answers: seq<Answer>, entered: seq<Request>, held: set<Request>, stopped: bool)

  const START := State([], [], true, {}, [], [], {}, false)

  datatype Action = Acquire(target: Target, waits: bool) | Release(r: Request) | ClearGo | Pass | Return

  ghost function GrantedRequests(answers: seq<Answer>): set<Request>
  {
    set p | 0 <= p < |answers| && Grants(answers[p]) :: answers[p].r
  }

  function Members(rs: seq<Request>): set<Request> { set r | r in rs }

  ghost function PassStep(s: State): State
  {
    var o := Scan(s.locked - Targets(s.pendingRelease), s.pendingLock);
    s.(pendingLock := o.left, pendingRelease := [], locked := o.locked, answers := s.answers + o.answers,
       held := (s.held - Members(s.pendingRelease)) + GrantedRequests(o.answers))
  }

  predicate LoopGoesOn(s: State) { s.pendingLock != [] || s.pendingRelease != [] || s.go }

  /** Clients release what they hold, and once; the server's loop decides when run returns. */
  ghost predicate Enabled(s: State, a: Action)
  {
    !s.stopped &&
    match a
    case Acquire(_, _) => true
    case Release(r) => r in s.held && r !in s.pendingRelease
    case ClearGo => true
    case Pass => LoopGoesOn(s)
    case Return => !LoopGoesOn(s)
  }

  ghost function Step(s: State, a: Action): State
  {
    match a
    case Acquire(target, waits) =>
      var r := Request(|s.entered|, target, waits);
      s.(pendingLock := s.pendingLock + [r], entered := s.entered + [r])
    case Release(r) => s.(pendingRelease := s.pendingRelease + [r])
    case ClearGo => s.(go := false)
    case Pass => PassStep(s)
    case Return => s.(stopped := true)
  }

  ghost predicate HasEntered(entered: seq<Request>, r: Request)
  {
    r.id < |entered| && entered[r.id] == r
  }

  ghost predicate Numbered(entered: seq<Request>)
  {
    forall k :: 0 <= k < |entered| ==> entered[k].id == k
  }

  /** Each entered request is pending, in order, or answered, and answered once. */
  ghost predicate Accounted(pending: seq<Request>, answers: seq<Answer>, entered: seq<Request>)
  {
    && Numbered(entered) && Ordered(pending)
    && (forall r :: r in pending ==> HasEntered(entered, r) && !Answered(answers, r))
    && (forall r :: r in entered ==> r in pending || Answered(answers, r))
    && (forall p :: 0 <= p < |answers| ==> HasEntered(entered, answers[p].r))
    && (forall p, q :: 0 <= p < q < |answers| ==> answers[p].r != answers[q].r)
    && (forall p :: 0 <= p < |answers| && answers[p].result == BUSY ==> !answers[p].r.waits)
  }

  /** The locked targets are those of the held requests, one each. */
  ghost predicate Held(held: set<Request>, locked: set<Target>, release: seq<Request>, answers: seq<Answer>)
  {
    && (forall r :: r in held ==> r in GrantedRequests(answers) && r.target in locked)
    && (forall t :: t in locked ==> exists r :: r in held && r.target == t)
    && (forall r1, r2 :: r1 in held && r2 in held && r1.target == r2.target ==> r1 == r2)
    && (forall r :: r in release ==> r in held)
  }

  ghost predicate Inv(s: State)
  {
    && Accounted(s.pendingLock, s.answers, s.entered)
    && Held(s.held, s.locked, s.pendingRelease, s.answers)
    && InTurn(s.entered, s.answers)
  }

  lemma AppendAnswered(older: seq<Answer>, newer: seq<Answer>, r: Request)
    ensures Answered(older + newer, r) <==> Answered(older, r) || Answered(newer, r)
  {
    var all := older + newer;
    if Answered(older, r) {
      var p :| 0 <= p < |older| && older[p].r == r;
      assert all[p].r == r;
    }
    if Answered(newer, r) {
      var p :| 0 <= p < |newer| && newer[p].r == r;
      assert all[|older| + p].r == r;
    }
  }

  lemma AppendBefore(older: seq<Answer>, newer: seq<Answer>, r: Request, q: int)
    ensures q <= |older| && AnsweredBefore(older, r, q) ==> AnsweredBefore(older + newer, r, q)
    ensures q >= |older| && Answered(older, r) ==> AnsweredBefore(older + newer, r, q)
    ensures q >= |older| && AnsweredBefore(newer, r, q - |older|) ==> AnsweredBefore(older + newer, r, q)
  {
    var all := older + newer;
    if AnsweredBefore(older, r, q) {
      var p :| 0 <= p < q && p < |older| && older[p].r == r;
      assert all[p].r == r;
    }
    if q >= |older| && Answered(older, r) {
      var p :| 0 <= p < |older| && older[p].r == r;
      assert all[p].r == r;
    }
    if q >= |older| && AnsweredBefore(newer, r, q - |older|) {
      var p :| 0 <= p < q - |older| && p < |newer| && newer[p].r == r;
      assert all[|older| + p].r == r;
    }
  }

  lemma AppendGranted(older: seq<Answer>, newer: seq<Answer>)
    ensures GrantedRequests(older + newer) == GrantedRequests(older) + GrantedRequests(newer)
  {
    var all := older + newer;
    forall r | r in GrantedRequests(older) ensures r in GrantedRequests(all) {
      var p :| 0 <= p < |older| && Grants(older[p]) && older[p].r == r;
      assert all[p] == older[p];
    }
    forall r | r in GrantedRequests(newer) ensures r in GrantedRequests(all) {
      var p :| 0 <= p < |newer| && Grants(newer[p]) && newer[p].r == r;
      assert all[|older| + p] == newer[p];
    }
  }

  lemma PassAccounted(s: State)
    requires Accounted(s.pendingLock, s.answers, s.entered)
    ensures Accounted(PassStep(s).pendingLock, PassStep(s).answers, s.entered)
  {
    var o := Scan(s.locked - Targets(s.pendingRelease), s.pendingLock);
    ScanWorks(s.locked - Targets(s.pendingRelease), s.pendingLock);
    forall r | r in o.left ensures HasEntered(s.entered, r) && !Answered(s.answers + o.answers, r) {
      AppendAnswered(s.answers, o.answers, r);
    }
    forall r | r in s.entered ensures r in o.left || Answered(s.answers + o.answers, r) {
      AppendAnswered(s.answers, o.answers, r);
    }
    forall p, q | 0 <= p < |s.answers| && 0 <= q < |o.answers| ensures s.answers[p].r != o.answers[q].r {
      assert Answered(s.answers, s.answers[p].r);
    }
  }

  lemma PassInTurn(s: State)
    requires Accounted(s.pendingLock, s.answers, s.entered) && InTurn(s.entered, s.answers)
    ensures InTurn(s.entered, PassStep(s).answers)
  {
    var older, o := s.answers, Scan(s.locked - Targets(s.pendingRelease), s.pendingLock);
    ScanWorks(s.locked - Targets(s.pendingRelease), s.pendingLock);
    var all := older + o.answers;
    forall q, a | 0 <= q < |all| && Grants(all[q]) && a in s.entered && Precedes(a, all[q].r)
      ensures AnsweredBefore(all, a, q)
    {
      AppendBefore(older, o.answers, a, q);
    }
  }

  /** Carrying out the releases frees exactly the targets of those who leave. */
  lemma ReleasesFree(held: set<Request>, locked: set<Target>, release: seq<Request>, answers: seq<Answer>)
    requires Held(held, locked, release, answers)
    ensures Held(held - Members(release), locked - Targets(release), [], answers)
  {
    var kept := held - Members(release);
    forall r, r2 | r in kept && r2 in release ensures r.target != r2.target {}
    forall t | t in locked - Targets(release) ensures exists r :: r in kept && r.target == t {
      var r :| r in held && r.target == t;
      assert r in kept;
    }
  }

  lemma GrantsHold(held: set<Request>, free: set<Target>, answers: seq<Answer>, o: Outcome)
    requires Held(held, free, [], answers) && Exclusive(free, o)
    ensures Held(held + GrantedRequests(o.answers), o.locked, [], answers + o.answers)
  {
    var granted := GrantedRequests(o.answers);
    AppendGranted(answers, o.answers);
    forall r | r in granted ensures r.target in o.locked && r.target !in free {
      var p :| 0 <= p < |o.answers| && Grants(o.answers[p]) && o.answers[p].r == r;
      assert r.target in GrantedTargets(o.answers);
    }
    forall t | t in o.locked ensures exists r :: r in held + granted && r.target == t {
      if t in free {
        var r :| r in held && r.target == t;
        assert r in held + granted;
      } else {
        var p :| 0 <= p < |o.answers| && Grants(o.answers[p]) && o.answers[p].r.target == t;
        assert o.answers[p].r in granted;
      }
    }
  }

  lemma PassHeld(s: State)
    requires Held(s.held, s.locked, s.pendingRelease, s.answers) && Ordered(s.pendingLock)
    ensures var s' := PassStep(s); Held(s'.held, s'.locked, s'.pendingRelease, s'.answers)
  {
    var free := s.locked - Targets(s.pendingRelease);
    ScanWorks(free, s.pendingLock);
    ReleasesFree(s.held, s.locked, s.pendingRelease, s.answers);
    GrantsHold(s.held - Members(s.pendingRelease), free, s.answers, Scan(free, s.pendingLock));
  }

  lemma AcquireInv(s: State, target: Target, waits: bool)
    requires Inv(s) && Enabled(s, Acquire(target, waits))
    ensures Inv(Step(s, Acquire(target, waits)))
  {
    var r := Request(|s.entered|, target, waits);
    forall x | HasEntered(s.entered, x) ensures HasEntered(s.entered + [r], x) && x.id < r.id {}
  }

  lemma StepInv(s: State, a: Action)
    requires Inv(s) && Enabled(s, a)
    ensures Inv(Step(s, a))
  {
    match a
    case Acquire(target, waits) => AcquireInv(s, target, waits);
    case Pass =>
      PassAccounted(s);
      PassInTurn(s);
      PassHeld(s);
    case _ =>
  }

  ghost predicate IsRun(acts: seq<Action>) { CanRun(Enabled, Step, START, acts) }

  ghost function After(acts: seq<Action>): State { Run(Step, START, acts) }

  lemma RunInv(acts: seq<Action>)
    requires IsRun(acts)
    ensures Inv(After(acts))
  {
    hide Inv, Step, Enabled;
    assert Inv(START) by {
      StartInv();
    }
    forall s, a | Inv(s) && Enabled(s, a) ensures Inv(Step(s, a)) {
      StepInv(s, a);
    }
    RunKeeps(Enabled, Step, Inv, START, acts);
  }

  lemma StartInv()
    ensures Inv(START)
  {
  }

  // ---- What every run guarantees ----

  /** No target is ever granted to two requests at a time: of those granted and not yet
      released there is one for each locked target, and none for any other. */
  lemma MutualExclusion(acts: seq<Action>)
    requires IsRun(acts)
    ensures forall t :: t in After(acts).locked <==> exists r :: r in After(acts).held && r.target == t
    ensures forall r1, r2 :: r1 in After(acts).held && r2 in After(acts).held && r1.target == r2.target ==> r1 == r2
  {
    RunInv(acts);
  }

  /** Requests for one target are served in the order of their arrival: when `b` has been
      granted, an earlier `a` has been answered before it, and if `a` waits, granted. */
  lemma NeverOvertaken(acts: seq<Action>, a: Request, b: Request)
    requires IsRun(acts) && a in After(acts).entered && Precedes(a, b)
    requires b in GrantedRequests(After(acts).answers)
    ensures exists p, q :: (
      && 0 <= p < q < |After(acts).answers| && After(acts).answers[q] == Answer(b, LOCKED)
      && After(acts).answers[p].r == a && (a.waits ==> After(acts).answers[p].result == LOCKED))
  {
    var answers := After(acts).answers;
    RunInv(acts);
    var q :| 0 <= q < |answers| && Grants(answers[q]) && answers[q].r == b;
    assert AnsweredBefore(answers, a, q);
    var p :| 0 <= p < q && answers[p].r == a;
    assert answers[q] == Answer(b, LOCKED);
  }

  /** A pass answers every trylock and keeps, in their order, only requests whose target is
      held by a request that was granted and has not been released. */
  lemma NobodyWaitsForAFreeTarget(acts: seq<Action>)
    requires IsRun(acts) && Enabled(After(acts), Pass)
    ensures var s := PassStep(After(acts)); (
      && Ordered(s.pendingLock)
      && forall r :: r in s.pendingLock ==>
           r in After(acts).pendingLock && r.waits && exists h :: h in s.held && h.target == r.target)
  {
    var s := After(acts);
    RunInv(acts);
    StepInv(s, Pass);
    ScanWorks(s.locked - Targets(s.pendingRelease), s.pendingLock);
  }

  lemma {:induction false} FirstInLine(locked: set<Target>, pending: seq<Request>, i: nat)
    requires i < |pending| && pending[i].target !in locked
    requires forall k :: 0 <= k < i ==> pending[k].target != pending[i].target
    ensures Answer(pending[i], LOCKED) in Scan(locked, pending).answers
  {
    var before, r := pending[..|pending| - 1], pending[|pending| - 1];
    if i < |before| {
      FirstInLine(locked, before, i);
    } else {
      StaysFree(locked, before, r.target);
    }
  }

  lemma {:induction false} StaysFree(locked: set<Target>, pending: seq<Request>, t: Target)
    requires t !in locked && forall k :: 0 <= k < |pending| ==> pending[k].target != t
    ensures t !in Scan(locked, pending).locked
  {
    if pending != [] {
      StaysFree(locked, pending[..|pending| - 1], t);
    }
  }

  /** The first in line for a target that is free, or is being released, gets it in the
      next pass. */
  lemma ReleaseServesTheFirst(acts: seq<Action>, i: nat)
    requires IsRun(acts) && i < |After(acts).pendingLock|
    requires var s, r := After(acts), After(acts).pendingLock[i];
      && (r.target !in s.locked || r.target in Targets(s.pendingRelease))
      && forall k :: 0 <= k < i ==> s.pendingLock[k].target != r.target
    ensures After(acts).pendingLock[i] in PassStep(After(acts)).held
  {
    var s := After(acts);
    var free, r := s.locked - Targets(s.pendingRelease), s.pendingLock[i];
    FirstInLine(free, s.pendingLock, i);
    var p :| 0 <= p < |Scan(free, s.pendingLock).answers| && Scan(free, s.pendingLock).answers[p] == Answer(r, LOCKED);
    assert r in GrantedRequests(Scan(free, s.pendingLock).answers);
  }

  /** run returns only when every request that was ever entered has been answered. */
  lemma NobodyIsLeftUnanswered(acts: seq<Action>)
    requires IsRun(acts) && Enabled(After(acts), Return)
    ensures forall r :: r in After(acts).entered ==> Answered(After(acts).answers, r)
    ensures After(acts).pendingRelease == []
  {
    RunInv(acts);
  }

  /** A trylock is answered by the first pass after its arrival. */
  lemma TryRequestsAreAnsweredAtOnce(acts: seq<Action>, target: Target)
    requires IsRun(acts) && Enabled(After(acts), Acquire(target, false))
    ensures var s := Step(After(acts), Acquire(target, false)); var r := s.entered[|s.entered| - 1];
      s.entered == After(acts).entered + [r] && r.target == target && Enabled(s, Pass)
      && Answered(PassStep(s).answers, r)
  {
    RunExtend(Enabled, Step, START, acts, Acquire(target, false));
    RunInv(acts + [Acquire(target, false)]);
    var s := After(acts + [Acquire(target, false)]);
    var r := s.entered[|s.entered| - 1];
    NobodyWaitsForAFreeTarget(acts + [Acquire(target, false)]);
    StepInv(s, Pass);
    assert r in PassStep(s).entered && r !in PassStep(s).pendingLock;
  }

  // ---- Every request can be answered ----

  /** No request comes in; clients release, and the server goes on. */
  ghost predicate Closing(s: State, a: Action) { Enabled(s, a) && !a.Acquire? }

  ghost function Unreleased(s: State): set<Request> { s.held - Members(s.pendingRelease) }

  lemma {:induction false} ScanCounts(locked: set<Target>, pending: seq<Request>)
    ensures |Scan(locked, pending).left| + |Scan(locked, pending).answers| == |pending|
  {
    if pending != [] {
      ScanCounts(locked, pending[..|pending| - 1]);
    }
  }

  /** Once all that is held is released, a pass serves at least the first in the list. */
  lemma PassServesOne(s: State)
    requires Inv(s) && Unreleased(s) == {} && s.pendingLock != []
    ensures |PassStep(s).pendingLock| < |s.pendingLock|
  {
    var free := s.locked - Targets(s.pendingRelease);
    assert free == {} by {
      forall t | t in s.locked ensures t in Targets(s.pendingRelease) {
        var r :| r in s.held && r.target == t;
        assert r !in Unreleased(s);
      }
    }
    FirstInLine(free, s.pendingLock, 0);
    ScanCounts(free, s.pendingLock);
  }

  lemma ReleaseLowers(s: State, r: Request)
    requires r in Unreleased(s)
    ensures Unreleased(Step(s, Release(r))) == Unreleased(s) - {r}
    ensures |Unreleased(Step(s, Release(r)))| < |Unreleased(s)|
  {
  }

  lemma {:induction false} AnswerAll(s: State) returns (more: seq<Action>)
    requires Inv(s) && !s.stopped
    ensures CanRun(Closing, Step, s, more)
    ensures var s' := Run(Step, s, more); Inv(s') && !s'.stopped && s'.pendingLock == [] && s'.entered == s.entered
    decreases |s.pendingLock|, |Unreleased(s)|
  {
    hide Inv, PassStep, Unreleased;
    more := [];
    if s.pendingLock != [] {
      var a := Pass;
      if Unreleased(s) == {} {
        PassServesOne(s);
      } else {
        var r :| r in Unreleased(s);
        ReleaseLowers(s, r);
        UnreleasedMeans(s, r);
        a := Release(r);
      }
      StepInv(s, a);
      PassKeeps(s);
      var rest := AnswerAll(Step(s, a));
      more := [a] + rest;
      assert more[1..] == rest;
    }
  }

  lemma UnreleasedMeans(s: State, r: Request)
    requires r in Unreleased(s)
    ensures r in s.held && r !in s.pendingRelease
  {
  }

  lemma PassKeeps(s: State)
    ensures PassStep(s).stopped == s.stopped && PassStep(s).entered == s.entered && PassStep(s).pendingRelease == []
    ensures PassStep(s).go == s.go && (s.pendingLock == [] ==> PassStep(s).pendingLock == [])
  {
  }

  /** From every reachable state of a server that has not stopped, clients who release what
      they hold and a call of the destructor can bring run to return, with every request that
      was ever entered answered. */
  lemma EveryRequestCanBeAnswered(acts: seq<Action>) returns (more: seq<Action>)
    requires IsRun(acts) && !After(acts).stopped
    ensures CanRun(Closing, Step, After(acts), more)
    ensures var s := Run(Step, After(acts), more); (
      s.stopped && s.entered == After(acts).entered && forall r :: r in s.entered ==> Answered(s.answers, r))
  {
    hide Inv, PassStep, Step, Enabled;
    RunInv(acts);
    more := AnswerAll(After(acts));
    var s := Run(Step, After(acts), more);
    LastSteps(s);
    RunAppend(Closing, Step, After(acts), more, [ClearGo, Pass, Return]);
    RunAppend(Closing, Step, After(acts), more, [ClearGo, Return]);
    more := more + if s.pendingRelease != [] then [ClearGo, Pass, Return] else [ClearGo, Return];
  }

  lemma LastSteps(s: State)
    requires Inv(s) && !s.stopped && s.pendingLock == []
    ensures var last := if s.pendingRelease != [] then [ClearGo, Pass, Return] else [ClearGo, Return];
      var s' := Run(Step, s, last); (
      && CanRun(Closing, Step, s, last) && s'.stopped && s'.entered == s.entered
      && forall r :: r in s.entered ==> Answered(s'.answers, r))
  {
    hide PassStep;
    var cleared := Step(s, ClearGo);
    StepInv(s, ClearGo);
    PassKeeps(cleared);
    if s.pendingRelease != [] {
      StepInv(cleared, Pass);
      assert [ClearGo, Pass, Return][1..] == [Pass, Return] && [Pass, Return][1..] == [Return] && [Return][1..] == [];
    } else {
      assert [ClearGo, Return][1..] == [Return] && [Return][1..] == [];
    }
  }
}
