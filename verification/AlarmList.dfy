/** The sorted list of pending alarms of alarm_cond.cpp: what an insertion means, and the
    insertion into the linked list that the program carries out. */
module AlarmList {
  import opened Prelude

  /** An alarm and the point of time at which it is due; ZERO is no such point. */
  datatype Entry = Entry(id: nat, time: int)

  const ZERO: int := 0

  ghost predicate Sorted(xs: seq<Entry>)
  {
    forall i, j :: 0 <= i < j < |xs| ==> xs[i].time <= xs[j].time
  }

  /** Behind everything that is due no later, in front of the rest. */
  function Position(xs: seq<Entry>, time: int): (k: nat)
    ensures k <= |xs|
  {
    if xs == [] || time < xs[0].time then 0 else 1 + Position(xs[1..], time)
  }

  function Inserted(xs: seq<Entry>, a: Entry): seq<Entry>
  {
    var k := Position(xs, a.time);
    xs[..k] + [a] + xs[k..]
  }

  lemma {:induction false} PositionSplits(xs: seq<Entry>, time: int)
    requires Sorted(xs)
    ensures forall i :: 0 <= i < |xs| ==> (i < Position(xs, time) <==> xs[i].time <= time)
  {
    if xs != [] && xs[0].time <= time {
      PositionSplits(xs[1..], time);
      assert forall i :: 1 <= i < |xs| ==> xs[i] == xs[1..][i - 1];
    }
  }

  lemma {:induction false} PositionIs(xs: seq<Entry>, time: int, k: nat)
    requires k <= |xs| && (forall i :: 0 <= i < k ==> xs[i].time <= time) && (k < |xs| ==> time < xs[k].time)
    ensures Position(xs, time) == k
  {
    if k > 0 {
      PositionIs(xs[1..], time, k - 1);
    }
  }

  lemma InsertedIsSorted(xs: seq<Entry>, a: Entry)
    requires Sorted(xs)
    ensures Sorted(Inserted(xs, a))
  {
    PositionSplits(xs, a.time);
  }

  lemma InsertedAddsOne(xs: seq<Entry>, a: Entry)
    ensures multiset(Inserted(xs, a)) == multiset(xs) + multiset{a}
  {
    var k := Position(xs, a.time);
    assert xs == xs[..k] + xs[k..];
    assert multiset(xs) == multiset(xs[..k]) + multiset(xs[k..]);
  }

  /** An insertion keeps the list sorted, adds one element, and puts it behind those that
      are due at the same time: earlier arrivals stay in front. */
  lemma InsertIsSortedAndStable(xs: seq<Entry>, a: Entry)
    requires Sorted(xs)
    ensures Sorted(Inserted(xs, a)) && multiset(Inserted(xs, a)) == multiset(xs) + multiset{a}
    ensures exists k :: (
      && 0 <= k <= |xs| && Inserted(xs, a) == xs[..k] + [a] + xs[k..]
      && (forall i :: 0 <= i < k ==> xs[i].time <= a.time) && (forall i :: k <= i < |xs| ==> a.time < xs[i].time))
  {
    InsertedIsSorted(xs, a);
    InsertedAddsOne(xs, a);
    PositionSplits(xs, a.time);
    var k := Position(xs, a.time);
    assert Inserted(xs, a) == xs[..k] + [a] + xs[k..];
  }

  // ---- The linked list ----

  class Alarm {
    const id: nat
    const time: int
    var link: Alarm?

    constructor (id: nat, time: int)
      ensures this.id == id && this.time == time && link == null
    {
      this.id, this.time, link := id, time, null;
    }
  }

  function Value(a: Alarm): Entry { Entry(a.id, a.time) }

  function Values(nodes: seq<Alarm>): (xs: seq<Entry>)
  {
    seq(|nodes|, i requires 0 <= i < |nodes| => Value(nodes[i]))
  }

  lemma ValuesInserted(nodes: seq<Alarm>, k: nat, alarm: Alarm)
    requires k == Position(Values(nodes), alarm.time)
    ensures k <= |nodes| && Values(nodes[..k] + [alarm] + nodes[k..]) == Inserted(Values(nodes), Value(alarm))
  {
  }

  /** The node at a position of the list, null beyond its ends. */
  function At(nodes: seq<Alarm>, i: int): Alarm?
  {
    if 0 <= i < |nodes| then nodes[i] else null
  }

  lemma InsertAt(nodes: seq<Alarm>, k: nat, alarm: Alarm, i: nat)
    requires k <= |nodes|
    ensures At(nodes[..k] + [alarm] + nodes[k..], i)
         == if i < k then At(nodes, i) else if i == k then alarm else At(nodes, i - 1)
  {
  }

  ghost predicate Distinct(nodes: seq<Alarm>) { forall i, j :: 0 <= i < j < |nodes| ==> nodes[i] != nodes[j] }

  lemma DistinctNodes(nodes: seq<Alarm>, i: nat, j: nat)
    requires Distinct(nodes) && i < |nodes| && j < |nodes| && i != j
    ensures nodes[i] != nodes[j]
  {
  }

  lemma InsertDistinct(nodes: seq<Alarm>, k: nat, alarm: Alarm)
    requires Distinct(nodes) && alarm !in nodes && k <= |nodes|
    ensures Distinct(nodes[..k] + [alarm] + nodes[k..])
  {
    forall i | 0 <= i < |nodes| ensures nodes[i] != alarm {}
  }

  class Schedule {
    var alarmList: Alarm?
    var longest: Alarm?
    var currentAlarm: int
    var notified: bool
    ghost var nodes: seq<Alarm>

    ghost predicate Linked()
      reads this, nodes
    {
      && Distinct(nodes) && alarmList == At(nodes, 0)
      && (forall i :: 0 <= i < |nodes| ==> nodes[i].link == At(nodes, i + 1))
    }

    /** `longest` is the last node of a list that has one; it may dangle otherwise. */
    ghost predicate Valid()
      reads this, nodes
    {
      Linked() && Sorted(Values(nodes)) && (nodes != [] ==> longest == At(nodes, |nodes| - 1))
    }

    constructor ()
      ensures Valid() && nodes == [] && currentAlarm == ZERO
    {
      alarmList, longest, currentAlarm, notified, nodes := null, null, ZERO, false, [];
    }

    /** Walks the list to its end, as the assertion in alarm_insert does. */
    method Last() returns (last: Alarm?)
      requires Linked()
      ensures last == At(nodes, |nodes| - 1)
    {
      last := alarmList;
      var next := alarmList;
      ghost var k := 0;
      while next != null
        invariant 0 <= k <= |nodes| && next == At(nodes, k)
        invariant last == At(nodes, if k == 0 then 0 else k - 1)
        decreases |nodes| - k
      {
        last := next;
        next := next.link;
        k := k + 1;
      }
    }

    /** The traversal: the node in front of the place of insertion, and the one behind it. */
    method Find(time: int) returns (last: Alarm?, next: Alarm?, ghost k: nat)
      requires Valid()
      ensures k == Position(Values(nodes), time)
      ensures last == At(nodes, k - 1) && next == At(nodes, k)
    {
      last, next, k := null, alarmList, 0;
      while next != null && next.time <= time
        invariant k <= |nodes| && last == At(nodes, k - 1) && next == At(nodes, k)
        invariant forall i :: 0 <= i < k ==> Values(nodes)[i].time <= time
        decreases |nodes| - k
      {
        last, next, k := next, next.link, k + 1;
      }
      PositionIs(Values(nodes), time, k);
    }

    /** Hangs the new node between its neighbours. */
    method LinkIn(alarm: Alarm, last: Alarm?, next: Alarm?, ghost k: nat)
      requires Linked() && alarm !in nodes && k <= |nodes|
      requires last == At(nodes, k - 1) && next == At(nodes, k)
      modifies this`alarmList, this`nodes, nodes, alarm
      ensures Linked() && nodes == old(nodes)[..k] + [alarm] + old(nodes)[k..]
    {
      hide Distinct;
      alarm.link := next;
      if last == null {
        alarmList := alarm;
      } else {
        last.link := alarm;
      }
      forall j | 0 <= j < |nodes| ensures nodes[j].link == if j == k - 1 then alarm else At(nodes, j + 1) {
        if 0 < k && j != k - 1 {
          DistinctNodes(nodes, j, k - 1);
        }
      }
      nodes := nodes[..k] + [alarm] + nodes[k..];
      InsertDistinct(old(nodes), k, alarm);
      InsertAt(old(nodes), k, alarm, 0);
      forall i | 0 <= i < |nodes| ensures nodes[i].link == At(nodes, i + 1) {
        InsertAt(old(nodes), k, alarm, i);
        InsertAt(old(nodes), k, alarm, i + 1);
      }
    }

    /** Wakes the alarm thread if it is idle, or waits for a later alarm. */
    method Announce(time: int)
      modifies this`currentAlarm, this`notified
      ensures var first := old(currentAlarm) == ZERO || time < old(currentAlarm);
        currentAlarm == (if first then time else old(currentAlarm)) && notified == (first || old(notified))
    {
      if currentAlarm == ZERO || time < currentAlarm {
        currentAlarm := time;
        notified := true;
      }
    }

    /** Links the new alarm in at its place, and keeps `longest` at the end of the list. */
    method Place(alarm: Alarm) returns (ghost k: nat)
      requires Valid() && alarm !in nodes
      modifies this`alarmList, this`longest, this`nodes, nodes, alarm
      ensures Linked() && nodes != [] && longest == At(nodes, |nodes| - 1)
      ensures k == Position(Values(old(nodes)), alarm.time) && nodes == old(nodes)[..k] + [alarm] + old(nodes)[k..]
    {
      var last, next;
      last, next, k := Find(alarm.time);
      LinkIn(alarm, last, next, k);
      if next == null {
        longest := alarm;
      }
    }

    /** The linked list becomes the specified one, with the new node in its place and all
        others where they were; the result is the time of the last alarm, which is the
        latest of all.  A waiting thread is notified if the new alarm is the first due. */
    method AlarmInsert(alarm: Alarm) returns (latest: int)
      requires Valid() && alarm !in nodes
      modifies this, nodes, alarm
      ensures Valid() && nodes != []
      ensures Values(nodes) == Inserted(old(Values(nodes)), Value(alarm))
      ensures exists k :: 0 <= k <= |old(nodes)| && nodes == old(nodes)[..k] + [alarm] + old(nodes)[k..]
      ensures latest == nodes[|nodes| - 1].time && forall x :: x in Values(nodes) ==> x.time <= latest
      ensures var first := old(currentAlarm) == ZERO || alarm.time < old(currentAlarm);
        currentAlarm == (if first then alarm.time else old(currentAlarm)) && notified == (first || old(notified))
    {
      ghost var k := Place(alarm);
      ValuesInserted(old(nodes), k, alarm);
      InsertedIsSorted(Values(old(nodes)), Value(alarm));
      Announce(alarm.time);
      assert Values(nodes)[|nodes| - 1].time == longest.time;
      return longest.time;
    }

    /** The alarm thread takes the first alarm from the list. */
    method TakeFirst() returns (alarm: Alarm)
      requires Valid() && nodes != []
      modifies this`alarmList, this`nodes
      ensures Valid() && alarm == old(nodes)[0] && nodes == old(nodes)[1..]
      ensures Values(nodes) == old(Values(nodes))[1..]
    {
      alarm := alarmList;
      assert alarm == nodes[0];
      alarmList := alarm.link;
      nodes := nodes[1..];
      assert Values(nodes) == old(Values(nodes))[1..];
    }
  }
}
