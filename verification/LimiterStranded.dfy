/**
 * Acquires that reach the semaphore after it was closed.
 *
 * dex_limiter_acquire() leaves the mutex of the limiter before it waits on the semaphore, and the
 * semaphore does not remember that it was closed.  An acquire that is overtaken by the close joins a
 * queue that only the posts still in flight will serve.
 */
module LimiterStranded {
  import opened Common
  import opened Semaphores
  import opened Sums
  import opened Limiters
  import opened LimiterSafety
  import opened LimiterTheorems

  function IsPosting(a: Acquire): nat {
    if a.pc.Posting? then 1 else 0
  }

  // Posts in flight: releases, and callbacks that give their permit back.
  function Posts(s: System): nat {
    s.flights.releasing + Sum(s.acquires, IsPosting)
  }

  predicate InPlace(s: System, i: nat, p: nat) {
    p < |s.sem.waiters| && s.sem.waiters[p] == i
  }

  // The semaphore was closed for good, and no more posts are in flight than others wait ahead.
  predicate BehindAll(s: System, i: nat, p: nat) {
    s.books.closed && s.flights.closer.None? && InPlace(s, i, p) && Posts(s) <= p
  }

  ghost predicate Stranded(s: System, i: nat) {
    exists p :: BehindAll(s, i, p)
  }

  // ----- once stranded, always stranded

  // A post serves the first in the queue and leaves the others one place ahead.
  lemma PostAdvances(s: System, i: nat, p: nat)
    requires QueueInv(s) && InPlace(s, i, p)
    ensures Sum(Post(s).acquires, IsPosting) == Sum(s.acquires, IsPosting)
    ensures if p == 0 then At(Post(s), i, Granted) else InPlace(Post(s), i, p - 1)
    ensures Post(s).books == s.books && Post(s).flights == s.flights
  {
    var first := s.sem.waiters[0];
    assert s.sem.Granted(1) == [first] && first in s.sem.waiters;
    assert At(s, first, Waiting);
    SumUpdate(s.acquires, first, s.acquires[first].(pc := Granted), IsPosting);
  }

  lemma GotoPosts(s: System, i: nat, a: Acquire)
    requires i < |s.acquires|
    ensures Sum(s.acquires[i := a], IsPosting) == Sum(s.acquires, IsPosting) - IsPosting(s.acquires[i]) + IsPosting(a)
    ensures IsPosting(s.acquires[i]) <= Sum(s.acquires, IsPosting)
  {
    SumUpdate(s.acquires, i, a, IsPosting);
  }

  // A step of one acquire other than giving a permit back.
  lemma CallbackStays(s: System, a: Action, i: nat, p: nat)
    requires Inv(s) && BehindAll(s, i, p) && Enabled(s, a)
    requires a.Discard? || a.ReadFlag? || a.Mark? || a.Refuse? || a.Settle? || a.LastCheck?
    ensures BehindAll(Apply(s, a), i, p)
  {
    GotoPosts(s, a.i, Apply(s, a).acquires[a.i]);
    assert Apply(s, a).acquires == s.acquires[a.i := Apply(s, a).acquires[a.i]];
  }

  lemma EnqueueStays(s: System, j: nat, i: nat, p: nat)
    requires Inv(s) && BehindAll(s, i, p) && Enabled(s, Enqueue(j))
    ensures BehindAll(Apply(s, Enqueue(j)), i, p)
  {
    GotoPosts(s, j, s.acquires[j].(pc := Waiting));
  }

  // With a post in flight there is somebody ahead, who is served.
  lemma GiveBackServes(s: System, j: nat, i: nat, p: nat)
    requires Inv(s) && InPlace(s, i, p) && Enabled(s, GiveBack(j))
    ensures var t := Apply(s, GiveBack(j));
            && Posts(t) == Posts(s) - 1 && (if p == 0 then At(t, i, Granted) else InPlace(t, i, p - 1))
            && t.books == s.books && t.flights.closer == s.flights.closer
  {
    GotoPosts(s, j, s.acquires[j].(pc := Settling));
    PostAdvances(Goto(s, j, Settling), i, p);
  }

  lemma PostReleaseServes(s: System, i: nat, p: nat)
    requires Inv(s) && InPlace(s, i, p) && Enabled(s, PostRelease)
    ensures var t := Apply(s, PostRelease);
            && Posts(t) == Posts(s) - 1 && (if p == 0 then At(t, i, Granted) else InPlace(t, i, p - 1))
            && t.books == s.books && t.flights.closer == s.flights.closer
  {
    PostAdvances(s.(flights := s.flights.(releasing := s.flights.releasing - 1, checks := s.flights.checks + 1)), i, p);
  }

  lemma StaysBehind(s: System, a: Action, i: nat, p: nat) returns (p': nat)
    requires Inv(s) && BehindAll(s, i, p) && Enabled(s, a)
    ensures BehindAll(Apply(s, a), i, p')
  {
    p' := p;
    match a
    case Enqueue(j) => EnqueueStays(s, j, i, p);
    case GiveBack(j) =>
      GotoPosts(s, j, s.acquires[j]);
      GiveBackServes(s, j, i, p);
      p' := p - 1;
    case PostRelease =>
      PostReleaseServes(s, i, p);
      p' := p - 1;
    case Discard(_) => CallbackStays(s, a, i, p);
    case ReadFlag(_) => CallbackStays(s, a, i, p);
    case Mark(_) => CallbackStays(s, a, i, p);
    case Refuse(_) => CallbackStays(s, a, i, p);
    case Settle(_) => CallbackStays(s, a, i, p);
    case LastCheck(_) => CallbackStays(s, a, i, p);
    case _ =>
  }

  // A stranded acquire stays pending, so a drain that is not resolved by now never is.
  lemma StrandedStep(s: System, a: Action, i: nat)
    requires Inv(s) && Stranded(s, i) && Enabled(s, a)
    ensures Stranded(Apply(s, a), i) && At(Apply(s, a), i, Waiting)
    ensures Apply(s, a).resolved == s.resolved && (s.books.drain ==> Apply(s, a).books.drain)
  {
    var p :| BehindAll(s, i, p);
    var p' := StaysBehind(s, a, i, p);
    ApplyInv(s, a);
    assert i in Apply(s, a).sem.waiters;
    StrandedIsPending(s, i, p);
    NothingResolves(s, a);
  }

  lemma StrandedIsPending(s: System, i: nat, p: nat)
    requires Inv(s) && InPlace(s, i, p)
    ensures At(s, i, Waiting) && s.books.pending > 0
  {
    assert i in s.sem.waiters;
    SumUpdate(s.acquires, i, s.acquires[i], IsPending);
  }

  lemma NothingResolves(s: System, a: Action)
    requires Inv(s) && s.books.pending > 0 && Enabled(s, a)
    ensures Apply(s, a).resolved == s.resolved && (s.books.drain ==> Apply(s, a).books.drain)
  {
  }

  lemma {:induction false} StrandedForGood(s: System, i: nat, later: seq<Action>)
    requires Inv(s) && Stranded(s, i) && Legal(s, later)
    ensures At(After(s, later), i, Waiting) && After(s, later).books.pending > 0
    ensures After(s, later).resolved == s.resolved && (s.books.drain ==> After(s, later).books.drain)
    decreases |later|
  {
    if later == [] {
      var p :| BehindAll(s, i, p);
      StrandedIsPending(s, i, p);
    } else {
      StrandedStep(s, later[0], i);
      ApplyInv(s, later[0]);
      StrandedForGood(Apply(s, later[0]), i, later[1..]);
    }
  }

  // ----- a waiter that is not stranded can leave

  lemma {:induction false} LeavesByPosts(s: System, i: nat, p: nat) returns (run: seq<Action>)
    requires Inv(s) && InPlace(s, i, p) && Posts(s) > p
    ensures Legal(s, run) && At(After(s, run), i, Granted)
    decreases p
  {
    var a := PostRelease;
    if s.flights.releasing > 0 {
      PostReleaseServes(s, i, p);
    } else {
      var j := SumPositive(s.acquires, IsPosting);
      a := GiveBack(j);
      GiveBackServes(s, j, i, p);
    }
    ApplyInv(s, a);
    run := [];
    if p > 0 {
      run := LeavesByPosts(Apply(s, a), i, p - 1);
    }
    OneStep(s, a, Apply(s, a), run);
    run := [a] + run;
  }

  lemma LeavesByClose(s: System, i: nat) returns (run: seq<Action>)
    requires Inv(s) && At(s, i, Waiting) && (!s.books.closed || s.flights.closer.Some?)
    ensures Legal(s, run) && At(After(s, run), i, Refused)
  {
    if s.flights.closer.Some? {
      run := [CloseSemaphore];
      OneStep(s, CloseSemaphore, Apply(s, CloseSemaphore), []);
      assert [CloseSemaphore] + [] == run;
    } else {
      var t := Apply(s, CloseLimiter);
      OneStep(t, CloseSemaphore, Apply(t, CloseSemaphore), []);
      OneStep(s, CloseLimiter, t, [CloseSemaphore] + []);
      run := [CloseLimiter] + ([CloseSemaphore] + []);
    }
  }

  ghost predicate CanLeave(s: System, i: nat) {
    exists run :: Legal(s, run) && !At(After(s, run), i, Waiting)
  }

  // A waiting acquire can leave the semaphore if and only if it is not stranded: the limiter is
  // still open, or the semaphore still to be closed, or more posts are in flight than acquires
  // wait ahead.
  lemma LeavesIffNotStranded(max: nat, run: seq<Action>, i: nat)
    requires Legal(Init(max), run) && At(After(Init(max), run), i, Waiting)
    ensures CanLeave(After(Init(max), run), i) <==> !Stranded(After(Init(max), run), i)
  {
    ReachableInv(max, run);
    WaiterLeavesIff(After(Init(max), run), i);
  }

  lemma WaiterLeavesIff(s: System, i: nat)
    requires Inv(s) && At(s, i, Waiting)
    ensures CanLeave(s, i) <==> !Stranded(s, i)
  {
    assert i in s.sem.waiters;
    var p :| 0 <= p < |s.sem.waiters| && s.sem.waiters[p] == i;
    if Stranded(s, i) {
      forall later | Legal(s, later)
        ensures At(After(s, later), i, Waiting)
      {
        StrandedForGood(s, i, later);
      }
    } else {
      assert !BehindAll(s, i, p);
      var run;
      if !s.books.closed || s.flights.closer.Some? {
        run := LeavesByClose(s, i);
      } else {
        run := LeavesByPosts(s, i, p);
      }
      assert Legal(s, run) && !At(After(s, run), i, Waiting);
    }
  }

  // ----- a drain that is lost

  function Two(waiters: seq<nat>, books: Books, second: Pc, flights: Flights): System {
    System(1, Sem(0, waiters), books, [Acquire(Granted, false), Acquire(second, false)], flights, 0)
  }

  // The first acquire takes the only permit; the second has yet to reach the semaphore.
  lemma TwoAcquires(rest: seq<Action>) returns (run: seq<Action>)
    requires Legal(Two([], Books(false, 0, 2, false), Requested, Flights(0, 0, 0, None)), rest)
    ensures Legal(Init(1), run)
    ensures After(Init(1), run) == After(Two([], Books(false, 0, 2, false), Requested, Flights(0, 0, 0, None)), rest)
  {
    var f := Flights(0, 0, 0, None);
    var s1 := System(1, Sem(1, []), Books(false, 0, 1, false), [Acquire(Requested, false)], f, 0);
    var s2 := System(1, Sem(0, []), Books(false, 0, 1, false), [Acquire(Granted, false)], f, 0);
    var s3 := Two([], Books(false, 0, 2, false), Requested, f);
    OneStep(s2, BeginAcquire, s3, rest);
    OneStep(s1, Enqueue(0), s2, [BeginAcquire] + rest);
    OneStep(Init(1), BeginAcquire, s1, [Enqueue(0)] + ([BeginAcquire] + rest));
    run := [BeginAcquire] + ([Enqueue(0)] + ([BeginAcquire] + rest));
  }

  const CLOSED_TOO_SOON := Two([], Books(true, 0, 2, true), Requested, Flights(0, 1, 0, None))

  // close_after_drain() overtakes it.
  lemma Overtaken(rest: seq<Action>) returns (run: seq<Action>)
    requires Legal(CLOSED_TOO_SOON, rest)
    ensures Legal(Init(1), run) && After(Init(1), run) == After(CLOSED_TOO_SOON, rest)
  {
    var s0 := Two([], Books(false, 0, 2, false), Requested, Flights(0, 0, 0, None));
    var s1 := Two([], Books(false, 0, 2, true), Requested, Flights(0, 0, 1, None));
    var s2 := Two([], Books(true, 0, 2, true), Requested, Flights(0, 0, 0, Some(true)));
    run := rest;
    OneStep(s2, CloseSemaphore, CLOSED_TOO_SOON, run);
    run := [CloseSemaphore] + run;
    OneStep(s1, CloseForDrain, s2, run);
    run := [CloseForDrain] + run;
    OneStep(s0, BeginDrain, s1, run);
    run := TwoAcquires([BeginDrain] + run);
  }

  // Then it reaches the semaphore.
  lemma JoinsTooLate() returns (run: seq<Action>)
    ensures Legal(Init(1), run)
    ensures After(Init(1), run) == Two([1], Books(true, 0, 2, true), Waiting, Flights(0, 1, 0, None))
  {
    OneStep(CLOSED_TOO_SOON, Enqueue(1), Two([1], Books(true, 0, 2, true), Waiting, Flights(0, 1, 0, None)), []);
    run := Overtaken([Enqueue(1)] + []);
  }

  // The drain is then pending for ever, whoever does what.
  lemma DrainMayBeLost() returns (run: seq<Action>)
    ensures Legal(Init(1), run)
    ensures var s := After(Init(1), run);
            && Stranded(s, 1) && s.books.drain && s.resolved == 0
            && forall later :: Legal(s, later) ==> After(s, later).books.drain && After(s, later).resolved == 0
  {
    run := JoinsTooLate();
    var s := After(Init(1), run);
    ReachableInv(1, run);
    assert Sum(s.acquires, IsPosting) == 0 by {
      assert s.acquires[..1] == [Acquire(Granted, false)] && s.acquires[..1][..0] == [];
    }
    assert BehindAll(s, 1, 0);
    forall later | Legal(s, later)
      ensures After(s, later).books.drain && After(s, later).resolved == 0
    {
      StrandedForGood(s, 1, later);
    }
  }
}
