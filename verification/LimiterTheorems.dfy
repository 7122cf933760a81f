/** What the limiter promises its callers. */
module LimiterTheorems {
  import opened Common
  import opened Semaphores
  import opened Sums
  import opened Limiters
  import opened LimiterSafety

  // ----- permits

  lemma ReachableInv(max: nat, run: seq<Action>)
    requires Legal(Init(max), run)
    ensures Inv(After(Init(max), run)) && After(Init(max), run).max == max
  {
    assert Inv(Init(max));
    RunInv(Init(max), run);
  }

  // No interleaving creates a permit, and while the limiter is open none is lost.
  lemma PermitsConserved(max: nat, run: seq<Action>)
    requires Legal(Init(max), run)
    ensures var s := After(Init(max), run);
            && Permits(s) <= max && (!s.books.closed ==> Permits(s) == max)
            && s.books.acquired <= max
            && s.books.pending == Sum(s.acquires, IsPending)
  {
    ReachableInv(max, run);
  }

  // ----- closing, and asking for a drain

  function Count(run: seq<Action>, a: Action): nat {
    if run == [] then 0 else (if run[0] == a then 1 else 0) + Count(run[1..], a)
  }

  function ClosedFor(s: System): nat {
    if s.books.closed && s.flights.closer.None? then 1 else 0
  }

  lemma {:induction false} ClosingsAddUp(s: System, run: seq<Action>)
    requires Legal(s, run) && (s.flights.closer.Some? ==> s.books.closed)
    ensures Count(run, CloseSemaphore) + ClosedFor(s) == ClosedFor(After(s, run))
    decreases |run|
  {
    if run != [] {
      ClosingsAddUp(Apply(s, run[0]), run[1..]);
    }
  }

  // However many calls close the limiter, and whenever, one of them closes the semaphore, once.
  lemma ClosesSemaphoreOnce(max: nat, run: seq<Action>)
    requires Legal(Init(max), run)
    ensures var s := After(Init(max), run);
            && Count(run, CloseSemaphore) <= 1
            && (Count(run, CloseSemaphore) == 1 <==> s.books.closed && s.flights.closer.None?)
  {
    ClosingsAddUp(Init(max), run);
  }

  function Promises(s: System): nat {
    s.resolved + if s.books.drain then 1 else 0
  }

  lemma {:induction false} DrainsAddUp(s: System, run: seq<Action>)
    requires Legal(s, run)
    ensures Promises(After(s, run)) <= Promises(s) + Count(run, BeginDrain)
    decreases |run|
  {
    if run != [] {
      DrainsAddUp(Apply(s, run[0]), run[1..]);
    }
  }

  // No more promises are made, and so resolved, than drains were asked for.
  lemma OnePromisePerDrain(max: nat, run: seq<Action>)
    requires Legal(Init(max), run)
    ensures var s := After(Init(max), run);
            s.resolved + (if s.books.drain then 1 else 0) <= Count(run, BeginDrain)
  {
    DrainsAddUp(Init(max), run);
  }

  // ----- the drain promise, with every lock region a step of its own

  // An unresolved drain has something to wait for, or somebody is about to look at it.
  lemma DrainNotForgotten(max: nat, run: seq<Action>)
    requires Legal(Init(max), run)
    ensures var s := After(Init(max), run);
            s.books.drain && Watchers(s) == 0 ==> s.books.pending > 0 || s.books.acquired > 0
  {
    ReachableInv(max, run);
  }

  predicate Finished(b: Books) {
    b.closed && b.pending == 0 && b.acquired == 0
  }

  lemma {:induction false} FinishedStays(s: System, run: seq<Action>)
    requires Inv(s) && Finished(s.books) && Legal(s, run)
    ensures Finished(After(s, run).books)
    decreases |run|
  {
    if run != [] {
      var a := run[0];
      if a.Mark? {
        SumUpdate(s.acquires, a.i, s.acquires[a.i], IsPending);
      }
      assert Finished(Apply(s, a).books);
      ApplyInv(s, a);
      FinishedStays(Apply(s, a), run[1..]);
    }
  }

  predicate IdleAfter(s: System, later: seq<Action>) {
    Legal(s, later) ==> (After(s, later).books.pending == 0 && After(s, later).books.acquired == 0)
  }

  // A drain that resolves is final exactly if the limiter was closed at that moment: otherwise
  // a further acquire is accepted.
  lemma DrainFinalIffClosed(max: nat, run: seq<Action>, a: Action)
    requires Legal(Init(max), run) && Enabled(After(Init(max), run), a)
    requires Apply(After(Init(max), run), a).resolved > After(Init(max), run).resolved
    ensures var s := Apply(After(Init(max), run), a);
            s.books.closed <==> forall later :: IdleAfter(s, later)
  {
    ReachableInv(max, run);
    ApplyInv(After(Init(max), run), a);
    var s := Apply(After(Init(max), run), a);
    assert s.books.pending == 0 && s.books.acquired == 0;
    if s.books.closed {
      forall later ensures IdleAfter(s, later) {
        if Legal(s, later) {
          FinishedStays(s, later);
        }
      }
    } else {
      AcquireReopens(s);
    }
  }

  lemma AcquireReopens(s: System)
    requires !s.books.closed && s.books.pending == 0
    ensures !IdleAfter(s, [BeginAcquire])
  {
    var later := [BeginAcquire];
    assert later[1..] == [] && Legal(Apply(s, BeginAcquire), []);
    assert Legal(s, later) && After(s, later) == After(Apply(s, BeginAcquire), []);
  }

  // ----- a run in which a drain resolves while the limiter is open

  lemma OneStep(s: System, a: Action, t: System, run: seq<Action>)
    requires Enabled(s, a) && Apply(s, a) == t && Legal(t, run)
    ensures Legal(s, [a] + run) && After(s, [a] + run) == After(t, run)
  {
    assert ([a] + run)[0] == a && ([a] + run)[1..] == run;
  }

  function Single(max: nat, counter: nat, books: Books, pc: Pc, flights: Flights, resolved: nat): System {
    System(max, Sem(counter, []), books, [Acquire(pc, false)], flights, resolved)
  }

  // A permit is acquired.
  lemma AcquiresOne(max: nat, rest: seq<Action>) returns (run: seq<Action>)
    requires max > 0
    requires Legal(Single(max, max - 1, Books(false, 1, 0, false), Done, Flights(0, 0, 0, None), 0), rest)
    ensures Legal(Init(max), run)
    ensures After(Init(max), run) ==
              After(Single(max, max - 1, Books(false, 1, 0, false), Done, Flights(0, 0, 0, None), 0), rest)
  {
    var f := Flights(0, 0, 0, None);
    var s1 := Single(max, max, Books(false, 0, 1, false), Requested, f, 0);
    var s2 := Single(max, max - 1, Books(false, 0, 1, false), Granted, f, 0);
    var s3 := Single(max, max - 1, Books(false, 0, 1, false), Checked(false), f, 0);
    var s4 := Single(max, max - 1, Books(false, 1, 1, false), Settling, f, 0);
    var s5 := Single(max, max - 1, Books(false, 1, 0, false), Checking, f, 0);
    var s6 := Single(max, max - 1, Books(false, 1, 0, false), Done, f, 0);
    run := rest;
    OneStep(s5, LastCheck(0), s6, run);
    run := [LastCheck(0)] + run;
    OneStep(s4, Settle(0), s5, run);
    run := [Settle(0)] + run;
    OneStep(s3, Mark(0), s4, run);
    run := [Mark(0)] + run;
    OneStep(s2, ReadFlag(0), s3, run);
    run := [ReadFlag(0)] + run;
    OneStep(s1, Enqueue(0), s2, run);
    run := [Enqueue(0)] + run;
    OneStep(Init(max), BeginAcquire, s1, run);
    run := [BeginAcquire] + run;
  }

  // It is released, and the release looks at the promise before the limiter is closed.
  lemma ReleaseFindsDrain(max: nat) returns (run: seq<Action>)
    requires max > 0
    ensures var s := Single(max, max - 1, Books(false, 1, 0, false), Done, Flights(0, 0, 0, None), 0);
            && Legal(s, run)
            && After(s, run) == Single(max, max, Books(false, 0, 0, false), Done, Flights(0, 0, 1, None), 1)
  {
    var s0 := Single(max, max - 1, Books(false, 1, 0, false), Done, Flights(0, 0, 0, None), 0);
    var s1 := Single(max, max - 1, Books(false, 0, 0, false), Done, Flights(1, 0, 0, None), 0);
    var s2 := Single(max, max, Books(false, 0, 0, false), Done, Flights(0, 1, 0, None), 0);
    var s3 := Single(max, max, Books(false, 0, 0, true), Done, Flights(0, 1, 1, None), 0);
    var s4 := Single(max, max, Books(false, 0, 0, false), Done, Flights(0, 0, 1, None), 1);
    run := [];
    OneStep(s3, CheckDrain, s4, run);
    run := [CheckDrain] + run;
    OneStep(s2, BeginDrain, s3, run);
    run := [BeginDrain] + run;
    OneStep(s1, PostRelease, s2, run);
    run := [PostRelease] + run;
    OneStep(s0, Release, s1, run);
    run := [Release] + run;
  }

  lemma DrainMayResolveWhileOpen(max: nat) returns (run: seq<Action>)
    requires max > 0
    ensures Legal(Init(max), run) && After(Init(max), run).resolved == 1 && !After(Init(max), run).books.closed
  {
    run := ReleaseFindsDrain(max);
    run := AcquiresOne(max, run);
  }
}
