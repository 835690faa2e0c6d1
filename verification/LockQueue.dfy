/** The lock server of threads.cpp: one thread that locks and unlocks targets on behalf of
    others, rotating the list of those that it cannot serve yet. */
module LockQueue {
  import opened Prelude

  type Target = nat

  /** A request, numbered in the order of arrival.  A request that does not wait is a
      trylock: it is answered at once, whatever the answer. */
  datatype Request = Request(id: nat, target: Target, waits: bool)

  datatype TryLockResult = LOCKED | BUSY

  datatype Answer = Answer(r: Request, result: TryLockResult)

  // ---- One pass of the server over its pending requests ----

  datatype Outcome = Outcome(locked: set<Target>, left: seq<Request>, answers: seq<Answer>)

  function Offer(o: Outcome, r: Request): Outcome
  {
    if r.target !in o.locked then
      Outcome(o.locked + {r.target}, o.left, o.answers + [Answer(r, LOCKED)])
    else if !r.waits then Outcome(o.locked, o.left, o.answers + [Answer(r, BUSY)])
    else Outcome(o.locked, o.left + [r], o.answers)
  }

  function Scan(locked: set<Target>, pending: seq<Request>): Outcome
  {
    if pending == [] then Outcome(locked, [], [])
    else Offer(Scan(locked, pending[..|pending| - 1]), pending[|pending| - 1])
  }

  lemma EmptyScan(locked: set<Target>)
    ensures Scan(locked, []) == Outcome(locked, [], [])
  {
  }

  lemma ScanOneMore(locked: set<Target>, pending: seq<Request>, i: nat)
    requires i < |pending|
    ensures Scan(locked, pending[..i + 1]) == Offer(Scan(locked, pending[..i]), pending[i])
  {
    assert pending[..i + 1][..i] == pending[..i];
  }

  function Targets(rs: seq<Request>): set<Target> { set r | r in rs :: r.target }

  class Server {
    var pendingLock: seq<Request>
    var pendingRelease: seq<Request>
    var go: bool
    var locked: set<Target>      // the targets whose mutex the server has locked
    var answers: seq<Answer>     // the results stored in requests, in the order of notification

    constructor ()
      ensures pendingLock == [] && pendingRelease == [] && go && locked == {} && answers == []
    {
      pendingLock, pendingRelease, go, locked, answers := [], [], true, {}, [];
    }

    method Acquire(r: Request)
      modifies this`pendingLock
      ensures pendingLock == old(pendingLock) + [r]
    {
      pendingLock := pendingLock + [r];
    }

    method Release(r: Request)
      modifies this`pendingRelease
      ensures pendingRelease == old(pendingRelease) + [r]
    {
      pendingRelease := pendingRelease + [r];
    }

    /** The first inner loop: unlock the targets of all pending releases. */
    method UnlockReleased()
      modifies this`pendingRelease, this`locked
      ensures pendingRelease == [] && locked == old(locked) - Targets(old(pendingRelease))
    {
      while pendingRelease != []
        invariant locked - Targets(pendingRelease) == old(locked) - Targets(old(pendingRelease))
        decreases |pendingRelease|
      {
        var r := pendingRelease[0];
        assert pendingRelease == [r] + pendingRelease[1..];
        pendingRelease := pendingRelease[1..];
        locked := locked - {r.target};
      }
      assert Targets(pendingRelease) == {};
    }

    /** The second inner loop: rotate the pending list once, in place.  What is left keeps
        its order, and the counter in the log message is its length. */
    method OfferPending() returns (pending: int)
      modifies this`pendingLock, this`locked, this`answers
      ensures var o := Scan(old(locked), old(pendingLock));
        locked == o.locked && pendingLock == o.left && answers == old(answers) + o.answers
      ensures pending == |pendingLock|
    {
      hide Scan;
      var pl := |pendingLock|;
      EmptyScan(locked);
      pending := pl;
      for i := 0 to pl
        invariant var o := Scan(old(locked), old(pendingLock)[..i]);
          && pendingLock == old(pendingLock)[i..] + o.left && locked == o.locked
          && answers == old(answers) + o.answers && pending == pl - i + |o.left|
      {
        var r := pendingLock[0];
        ScanOneMore(old(locked), old(pendingLock), i);
        pendingLock := pendingLock[1..];
        if r.target !in locked {
          locked := locked + {r.target};
          answers := answers + [Answer(r, LOCKED)];
          pending := pending - 1;
        } else if !r.waits {
          answers := answers + [Answer(r, BUSY)];
          pending := pending - 1;
        } else {
          pendingLock := pendingLock + [r];
        }
      }
      assert old(pendingLock)[..pl] == old(pendingLock);
    }

    /** The body of the server's loop, up to its wait. */
    method Pass() returns (pending: int)
      modifies this
      ensures pendingRelease == [] && go == old(go)
      ensures var o := Scan(old(locked) - Targets(old(pendingRelease)), old(pendingLock));
        locked == o.locked && pendingLock == o.left && answers == old(answers) + o.answers
      ensures pending == |pendingLock|
    {
      UnlockReleased();
      pending := OfferPending();
    }
  }
}
