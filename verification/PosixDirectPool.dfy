/** ThreadPool::execute of posix/threadpool.cpp, the pool without a queue: the caller itself
    waits for an idle worker, without a timeout, and workers announce themselves without the
    pool lock.  terminate takes the workers away and wakes one waiting caller.

    Only the comings and goings of tasks are modelled here, not their identity. */
module PosixDirectPool {
  import opened Prelude

  /** A manager's slot: Given until its worker has noticed, then Running, which is also when
      the worker holds the manager's lock. */
  datatype Slot = Free | Given | Running

  /** Want and Term want the pool lock.  Scan holds it, at manager i, `idle` if that has said
      so; Closing holds it until all managers are stopped and deleted. */
  datatype Client = Out | Want | Scan(i: nat, idle: bool) | Asleep(signalled: bool) | Term | Closing

  predicate HoldsPool(k: Client) { k.Scan? || k.Closing? }

  predicate Executes(k: Client) { k.Want? || k.Scan? || k.Asleep? }

  datatype State = State(slots: seq<Slot>, clients: seq<Client>, pl: Option<nat>)

  /** A finishing worker and a finishing terminate notify: `wakes` is who gets the signal, if
      anybody sleeps. */
  datatype Action =
    | Execute(c: nat)
    | Terminate(c: nat)
    | Act(c: nat)
    | Close(c: nat, wakes: nat)
    | Start(i: nat)
    | Finish(i: nat, wakes: nat)
    | Spurious(c: nat)

  function Init(size: nat, clients: nat): State { State(seq(size, i => Free), seq(clients, i => Out), None) }

  predicate SomeoneSleeps(cs: seq<Client>) { exists c :: 0 <= c < |cs| && cs[c] == Asleep(false) }

  predicate ActEnabled(s: State, c: nat)
  {
    c < |s.clients| &&
    match s.clients[c]
    case Out => false
    case Want => s.pl.None?
    case Scan(i, _) => i < |s.slots| ==> !s.slots[i].Running?
    case Asleep(signalled) => signalled
    case Term => s.pl.None?
    case Closing => false
  }

  predicate CanWake(cs: seq<Client>, w: nat)
  {
    SomeoneSleeps(cs) ==> w < |cs| && cs[w] == Asleep(false)
  }

  function Woken(cs: seq<Client>, w: nat): seq<Client>
  {
    if SomeoneSleeps(cs) && w < |cs| then cs[w := Asleep(true)] else cs
  }

  predicate Enabled(s: State, a: Action)
  {
    match a
    case Execute(c) => c < |s.clients| && s.clients[c].Out?
    case Terminate(c) => c < |s.clients| && s.clients[c].Out?
    case Act(c) => ActEnabled(s, c)
    case Close(c, w) =>
      && c < |s.clients| && s.clients[c].Closing? && CanWake(s.clients, w)
      && forall i :: 0 <= i < |s.slots| ==> !s.slots[i].Running?
    case Start(i) => i < |s.slots| && s.slots[i].Given?
    case Finish(i, w) => i < |s.slots| && s.slots[i].Running? && CanWake(s.clients, w)
    case Spurious(c) => c < |s.clients| && s.clients[c].Asleep?
  }

  function Move(s: State, c: nat, k: Client): State
    requires c < |s.clients|
  {
    s.(clients := s.clients[c := k],
       pl := if HoldsPool(k) then Some(c) else if HoldsPool(s.clients[c]) then None else s.pl)
  }

  function ActStep(s: State, c: nat): State
    requires ActEnabled(s, c)
  {
    match s.clients[c]
    case Out => s
    case Want => Move(s, c, if s.slots == [] then Out else Scan(0, false))
    case Scan(i, idle) =>
      if i >= |s.slots| then Move(s, c, Asleep(false))
      else if !s.slots[i].Free? then Move(s, c, Scan(i + 1, false))
      else if !idle then Move(s, c, Scan(i, true))
      else Move(s, c, Out).(slots := s.slots[i := Given])
    case Asleep(_) => Move(s, c, Want)
    case Term => Move(s, c, Closing)
    case Closing => s
  }

  function Step(s: State, a: Action): State
  {
    if !Enabled(s, a) then s else
    match a
    case Execute(c) => Move(s, c, Want)
    case Terminate(c) => Move(s, c, Term)
    case Act(c) => ActStep(s, c)
    case Close(c, w) => Move(s.(slots := [], clients := Woken(s.clients, w)), c, Out)
    case Start(i) => s.(slots := s.slots[i := Running])
    case Finish(i, w) => s.(slots := s.slots[i := Free], clients := Woken(s.clients, w))
    case Spurious(c) => Move(s, c, Want)
  }

  // ---- Hanging ----

  /** Nobody in the pool can take a step. */
  ghost predicate Quiet(s: State)
  {
    && (forall i :: 0 <= i < |s.slots| ==> s.slots[i].Free?)
    && (forall c :: 0 <= c < |s.clients| ==> !ActEnabled(s, c) && !s.clients[c].Closing?)
  }

  /** Every worker is idle, and an execute sleeps all the same. */
  ghost predicate Hung(s: State) { Quiet(s) && SomeoneSleeps(s.clients) }

  /** The pool has been closed, and an execute sleeps in it. */
  ghost predicate Abandoned(s: State) { Hung(s) && s.slots == [] }

  function Taken(slots: seq<Slot>): (flags: seq<nat>)
  {
    seq(|slots|, i requires 0 <= i < |slots| => if slots[i].Free? then 0 else 1)
  }

  function Inside(cs: seq<Client>): (flags: seq<nat>)
  {
    seq(|cs|, c requires 0 <= c < |cs| => if Executes(cs[c]) then 1 else 0)
  }

  /** The executes that have not returned, and the tasks that have not ended. */
  function Load(s: State): nat { Sum(Taken(s.slots)) + Sum(Inside(s.clients)) }

  function Limited(limit: nat): (State, Action) -> bool
  {
    (s: State, a: Action) => Enabled(s, a) && (a.Execute? ==> Load(s) < limit)
  }

  ghost predicate Reaches(size: nat, limit: nat, p: State -> bool)
  {
    exists clients: nat, acts: seq<Action> ::
      CanRun(Limited(limit), Step, Init(size, clients), acts) && p(Run(Step, Init(size, clients), acts))
  }

  ghost predicate CanHang(size: nat, limit: nat) { Reaches(size, limit, Hung) }

  ghost predicate CanAbandon(size: nat, limit: nat) { Reaches(size, limit, Abandoned) }

  // ---- With no more tasks than workers nobody ever sleeps ----

  lemma SlotLoad(slots: seq<Slot>, i: nat, x: Slot)
    requires i < |slots|
    ensures Sum(Taken(slots[i := x])) + (if slots[i].Free? then 0 else 1)
         == Sum(Taken(slots)) + if x.Free? then 0 else 1
  {
    var flag: nat := if x.Free? then 0 else 1;
    assert Taken(slots[i := x]) == Taken(slots)[i := flag];
    SumUpdate(Taken(slots), i, flag);
  }

  lemma ClientLoad(cs: seq<Client>, c: nat, k: Client)
    requires c < |cs|
    ensures Sum(Inside(cs[c := k])) + (if Executes(cs[c]) then 1 else 0)
         == Sum(Inside(cs)) + if Executes(k) then 1 else 0
  {
    var flag: nat := if Executes(k) then 1 else 0;
    assert Inside(cs[c := k]) == Inside(cs)[c := flag];
    SumUpdate(Inside(cs), c, flag);
  }

  /** An execute within the number of workers has a free slot, and so has one of two that
      exceed it by one. */
  lemma RoomForOne(s: State, c: nat)
    requires Load(s) <= |s.slots| && c < |s.clients| && Executes(s.clients[c])
    ensures exists j :: 0 <= j < |s.slots| && s.slots[j].Free?
  {
    ClientLoad(s.clients, c, Out);
    SomeFree(s.slots);
  }

  lemma RoomForTwo(s: State, c: nat, d: nat)
    requires Load(s) <= |s.slots| + 1 && c < |s.clients| && d < |s.clients| && c != d
    requires Executes(s.clients[c]) && Executes(s.clients[d])
    ensures exists j :: 0 <= j < |s.slots| && s.slots[j].Free?
  {
    ClientLoad(s.clients, c, Out);
    ClientLoad(s.clients[c := Out], d, Out);
    SomeFree(s.slots);
  }

  lemma SomeFree(slots: seq<Slot>)
    requires Sum(Taken(slots)) < |slots|
    ensures exists j :: 0 <= j < |slots| && slots[j].Free?
  {
    AllOnes(Taken(slots));
    assert forall j :: 0 <= j < |slots| && !slots[j].Free? ==> Taken(slots)[j] == 1;
  }

  ghost predicate RoomAhead(slots: seq<Slot>, k: Client)
  {
    k.Scan? ==> exists j :: k.i <= j < |slots| && slots[j].Free?
  }

  /** Within the limit `size + spare` at most `spare` executes sleep, the others find a free
      slot ahead, and nobody who sleeps in a closed pool has not been signalled. */
  ghost predicate Calm(s: State, size: nat, spare: nat)
  {
    && (|s.slots| == size || s.slots == []) && Load(s) <= size + spare && spare <= 1
    && (forall c :: 0 <= c < |s.clients| && HoldsPool(s.clients[c]) ==> s.pl == Some(c))
    && (forall c :: 0 <= c < |s.clients| ==> Alone(s, c, spare) || RoomAhead(s.slots, s.clients[c]))
    && (forall c :: 0 <= c < |s.clients| && s.clients[c].Asleep? ==> Alone(s, c, spare))
    && (s.slots == [] ==> !SomeoneSleeps(s.clients) && forall c :: 0 <= c < |s.clients| ==> !s.clients[c].Scan?)
  }

  /** No other execute sleeps, and one may. */
  ghost predicate Alone(s: State, c: nat, spare: nat)
  {
    spare == 1 && forall d :: 0 <= d < |s.clients| && d != c ==> !s.clients[d].Asleep?
  }

  lemma WakingLoad(cs: seq<Client>, w: nat)
    requires CanWake(cs, w)
    ensures Sum(Inside(Woken(cs, w))) == Sum(Inside(cs))
  {
    if SomeoneSleeps(cs) {
      ClientLoad(cs, w, Asleep(true));
    }
  }

  lemma StepLoad(s: State, a: Action)
    requires Enabled(s, a)
    ensures Load(Step(s, a)) <= Load(s) + if a.Execute? then 1 else 0
  {
    hide Sum;
    match a
    case Execute(c) => ClientLoad(s.clients, c, Want);
    case Terminate(c) => ClientLoad(s.clients, c, Term);
    case Act(c) =>
      ClientLoad(s.clients, c, ActStep(s, c).clients[c]);
      if s.clients[c].Scan? && s.clients[c].i < |s.slots| {
        SlotLoad(s.slots, s.clients[c].i, Given);
      }
    case Close(c, w) =>
      WakingLoad(s.clients, w);
      ClientLoad(Woken(s.clients, w), c, Out);
      AllOnes(Taken([]));
    case Start(i) => SlotLoad(s.slots, i, Running);
    case Finish(i, w) =>
      SlotLoad(s.slots, i, Free);
      WakingLoad(s.clients, w);
    case Spurious(c) => ClientLoad(s.clients, c, Want);
  }

  /** A scan that begins has room ahead, or is the only execute that may come to sleep. */
  lemma ScanBegins(s: State, size: nat, spare: nat, c: nat)
    requires Calm(s, size, spare) && c < |s.clients| && s.clients[c].Want? && s.slots != []
    ensures Alone(s, c, spare) || exists j :: 0 <= j < |s.slots| && s.slots[j].Free?
  {
    if spare == 0 {
      RoomForOne(s, c);
    } else if d :| 0 <= d < |s.clients| && d != c && s.clients[d].Asleep? {
      RoomForTwo(s, c, d);
    }
  }

  lemma ActCalm(s: State, size: nat, spare: nat, c: nat)
    requires Calm(s, size, spare) && ActEnabled(s, c) && Load(ActStep(s, c)) <= Load(s)
    ensures Calm(ActStep(s, c), size, spare)
  {
    hide Load;
    if s.clients[c].Want? && s.slots != [] {
      ScanBegins(s, size, spare, c);
    }
    assert s.clients[c].Scan? ==> forall d :: 0 <= d < |s.clients| && d != c ==> !s.clients[d].Scan?;
  }

  lemma WakesOneSleeper(s: State, size: nat, spare: nat, w: nat)
    requires Calm(s, size, spare) && CanWake(s.clients, w)
    ensures |Woken(s.clients, w)| == |s.clients| && !SomeoneSleeps(Woken(s.clients, w))
    ensures forall c :: 0 <= c < |s.clients| ==>
              Woken(s.clients, w)[c] == s.clients[c] || (s.clients[c].Asleep? && Woken(s.clients, w)[c].Asleep?)
  {
    hide Load;
    if SomeoneSleeps(s.clients) {
      assert Alone(s, w, spare);
    }
  }

  lemma CloseCalm(s: State, size: nat, spare: nat, c: nat, w: nat)
    requires Calm(s, size, spare) && Enabled(s, Close(c, w)) && Load(Step(s, Close(c, w))) <= Load(s)
    ensures Calm(Step(s, Close(c, w)), size, spare)
  {
    hide Load, Woken;
    WakesOneSleeper(s, size, spare, w);
    assert forall d :: 0 <= d < |s.clients| && HoldsPool(s.clients[d]) ==> d == c;
  }

  lemma WorkerCalm(s: State, s': State, size: nat, spare: nat)
    requires Calm(s, size, spare) && Load(s') <= Load(s) && s'.pl == s.pl
    requires |s'.slots| == |s.slots| > 0 && |s'.clients| == |s.clients|
    requires forall j :: 0 <= j < |s.slots| && s.slots[j].Free? ==> s'.slots[j].Free?
    requires forall c :: 0 <= c < |s.clients| ==>
               s'.clients[c] == s.clients[c] || (s.clients[c].Asleep? && s'.clients[c].Asleep?)
    ensures Calm(s', size, spare)
  {
    hide Load;
    forall c | 0 <= c < |s.clients|
      ensures Alone(s, c, spare) ==> Alone(s', c, spare)
      ensures RoomAhead(s.slots, s.clients[c]) ==> RoomAhead(s'.slots, s'.clients[c])
    {
    }
  }

  lemma StepCalm(s: State, size: nat, spare: nat, limit: nat, a: Action)
    requires limit <= size + spare && Calm(s, size, spare) && Limited(limit)(s, a)
    ensures Calm(Step(s, a), size, spare)
  {
    StepLoad(s, a);
    hide Load, Alone, RoomAhead;
    match a
    case Act(c) => ActCalm(s, size, spare, c);
    case Close(c, w) => CloseCalm(s, size, spare, c, w);
    case Start(i) => WorkerCalm(s, Step(s, a), size, spare);
    case Finish(i, w) =>
      WakesOneSleeper(s, size, spare, w);
      WorkerCalm(s, Step(s, a), size, spare);
    case Execute(_) => ComingCalm(s, size, spare, a);
    case Terminate(_) => ComingCalm(s, size, spare, a);
    case Spurious(_) => ComingCalm(s, size, spare, a);
  }

  lemma ComingCalm(s: State, size: nat, spare: nat, a: Action)
    requires Calm(s, size, spare) && Enabled(s, a) && Load(Step(s, a)) <= size + spare
    requires a.Execute? || a.Terminate? || a.Spurious?
    ensures Calm(Step(s, a), size, spare)
  {
    hide Load;
  }

  lemma RunCalm(size: nat, spare: nat, limit: nat, clients: nat, acts: seq<Action>)
    requires limit <= size + spare && spare <= 1 && CanRun(Limited(limit), Step, Init(size, clients), acts)
    ensures Calm(Run(Step, Init(size, clients), acts), size, spare)
  {
    hide Step, Enabled, Calm;
    InitCalm(size, spare, clients);
    forall s, a | Calm(s, size, spare) && Limited(limit)(s, a) ensures Calm(Step(s, a), size, spare) {
      StepCalm(s, size, spare, limit, a);
    }
    RunKeeps(Limited(limit), Step, (s: State) => Calm(s, size, spare), Init(size, clients), acts);
  }

  lemma InitCalm(size: nat, spare: nat, clients: nat)
    requires spare <= 1
    ensures Calm(Init(size, clients), size, spare)
  {
    AllOnes(Taken(Init(size, clients).slots));
    AllOnes(Inside(Init(size, clients).clients));
  }

  /** A pool without workers deletes tasks at once, and nobody sleeps in it. */
  ghost predicate Empty(s: State)
  {
    s.slots == [] && forall c :: 0 <= c < |s.clients| ==> !s.clients[c].Scan? && !s.clients[c].Asleep?
  }

  lemma EmptyPool(limit: nat, clients: nat, acts: seq<Action>)
    requires CanRun(Limited(limit), Step, Init(0, clients), acts)
    ensures !Hung(Run(Step, Init(0, clients), acts))
  {
    hide Load;
    RunKeeps(Limited(limit), Step, Empty, Init(0, clients), acts);
  }
}
