/**
 * Draining the limiter when dex_limiter_acquire(), dex_limiter_close() and
 * dex_limiter_close_after_drain() run without interruption.  The callbacks, releases and
 * checks of other threads are still one lock region at a time.
 */
module LimiterDrain {
  import opened Common
  import opened Semaphores
  import opened Sums
  import opened Limiters
  import opened LimiterSafety
  import opened LimiterTheorems

  datatype Call = Acquire | Close | CloseAfterDrain | Region(a: Action)

  predicate MayCall(s: System, c: Call) {
    c.Region? ==> (Enabled(s, c.a) && !PartOfCall(c.a))
  }

  // Regions that only run inside the three calls.
  predicate PartOfCall(a: Action) {
    a.BeginAcquire? || a.Enqueue? || a.CloseLimiter? || a.CloseSemaphore? || a.BeginDrain? || a.CloseForDrain?
  }

  function Perform(s: System, c: Call): System
    requires MayCall(s, c)
  {
    match c
    case Acquire =>
      var s1 := Apply(s, BeginAcquire);
      if s.books.closed then s1 else Apply(s1, Enqueue(|s.acquires|))
    case Close =>
      var s1 := Apply(s, CloseLimiter);
      if s.books.closed then s1 else Apply(s1, CloseSemaphore)
    case CloseAfterDrain =>
      var s1 := Apply(s, BeginDrain);
      Apply(if s.books.closed then s1 else Apply(Apply(s1, CloseForDrain), CloseSemaphore), CheckDrain)
    case Region(a) => Apply(s, a)
  }

  // What holds between calls: nobody is on the way into the semaphore, and after closing
  // nobody is in it.
  ghost predicate Calm(s: System) {
    && Inv(s)
    && (forall i :: 0 <= i < |s.acquires| ==> !s.acquires[i].pc.Requested?)
    && s.flights.closer.None? && s.flights.draining == 0
    && (s.books.closed ==> s.sem.waiters == [])
    && (s.books.drain ==> s.books.closed)
  }

  lemma PerformInv(s: System, c: Call)
    requires Inv(s) && MayCall(s, c)
    ensures Inv(Perform(s, c))
  {
    match c
    case Acquire =>
      ApplyInv(s, BeginAcquire);
      if !s.books.closed { ApplyInv(Apply(s, BeginAcquire), Enqueue(|s.acquires|)); }
    case Close =>
      ApplyInv(s, CloseLimiter);
      if !s.books.closed { ApplyInv(Apply(s, CloseLimiter), CloseSemaphore); }
    case CloseAfterDrain => PerformDrainInv(s);
    case Region(a) => ApplyInv(s, a);
  }

  lemma PerformDrainInv(s: System)
    requires Inv(s)
    ensures Inv(Perform(s, CloseAfterDrain))
  {
    var s1 := Apply(s, BeginDrain);
    ApplyInv(s, BeginDrain);
    if s.books.closed {
      ApplyInv(s1, CheckDrain);
    } else {
      ApplyInv(s1, CloseForDrain);
      ApplyInv(Apply(s1, CloseForDrain), CloseSemaphore);
      ApplyInv(Apply(Apply(s1, CloseForDrain), CloseSemaphore), CheckDrain);
    }
  }

  lemma RegionCalm(s: System, a: Action)
    requires Calm(s) && Enabled(s, a) && !PartOfCall(a)
    ensures Calm(Apply(s, a))
  {
    ApplyInv(s, a);
  }

  lemma PerformCalm(s: System, c: Call)
    requires Calm(s) && MayCall(s, c)
    ensures Calm(Perform(s, c))
  {
    PerformInv(s, c);
    match c
    case Acquire => AcquireCalm(s);
    case Close => CloseCalm(s);
    case CloseAfterDrain => DrainCalm(s);
    case Region(a) => RegionCalm(s, a);
  }

  lemma CloseCalm(s: System)
    requires Calm(s) && Inv(Perform(s, Call.Close))
    ensures Calm(Perform(s, Call.Close))
  {
  }

  lemma DrainCalm(s: System)
    requires Calm(s) && Inv(Perform(s, CloseAfterDrain))
    ensures Calm(Perform(s, CloseAfterDrain))
  {
  }

  lemma AcquireCalm(s: System)
    requires Calm(s) && Inv(Perform(s, Call.Acquire))
    ensures Calm(Perform(s, Call.Acquire))
  {
  }

  predicate Legal(s: System, calls: seq<Call>)
    decreases |calls|
  {
    calls == [] || (MayCall(s, calls[0]) && Legal(Perform(s, calls[0]), calls[1..]))
  }

  function After(s: System, calls: seq<Call>): System
    requires Legal(s, calls)
    decreases |calls|
  {
    if calls == [] then s else After(Perform(s, calls[0]), calls[1..])
  }

  lemma {:induction false} RunCalm(s: System, calls: seq<Call>)
    requires Calm(s) && Legal(s, calls)
    ensures Calm(After(s, calls))
    decreases |calls|
  {
    if calls != [] {
      PerformCalm(s, calls[0]);
      RunCalm(Perform(s, calls[0]), calls[1..]);
    }
  }

  lemma RegionResolves(s: System, a: Action)
    requires Calm(s) && Enabled(s, a) && !PartOfCall(a) && Apply(s, a).resolved > s.resolved
    ensures Finished(Apply(s, a).books)
  {
  }

  lemma ResolvingFinishes(s: System, c: Call)
    requires Calm(s) && MayCall(s, c) && Perform(s, c).resolved > s.resolved
    ensures Finished(Perform(s, c).books)
  {
    if c.Region? {
      RegionResolves(s, c.a);
    }
  }

  ghost predicate Reachable(s: System) {
    exists max, calls :: Legal(Init(max), calls) && After(Init(max), calls) == s
  }

  lemma ReachableCalm(s: System)
    requires Reachable(s)
    ensures Calm(s)
  {
    var max, calls :| Legal(Init(max), calls) && After(Init(max), calls) == s;
    assert Calm(Init(max));
    RunCalm(Init(max), calls);
  }

  // When a drain resolves the limiter is closed, nothing is pending or held, and so it stays.
  lemma DrainIsSound(s: System, c: Call, later: seq<Call>)
    requires Reachable(s) && MayCall(s, c) && Perform(s, c).resolved > s.resolved
    requires Legal(Perform(s, c), later)
    ensures Finished(Perform(s, c).books) && Finished(After(Perform(s, c), later).books)
  {
    ReachableCalm(s);
    ResolvingFinishes(s, c);
    PerformCalm(s, c);
    StaysFinished(Perform(s, c), later);
  }

  lemma {:induction false} StaysFinished(s: System, calls: seq<Call>)
    requires Calm(s) && Finished(s.books) && Legal(s, calls)
    ensures Finished(After(s, calls).books)
    decreases |calls|
  {
    if calls != [] {
      var c := calls[0];
      if c.Region? && c.a.Mark? {
        SumUpdate(s.acquires, c.a.i, s.acquires[c.a.i], IsPending);
      }
      assert Finished(Perform(s, c).books);
      PerformCalm(s, c);
      StaysFinished(Perform(s, c), calls[1..]);
    }
  }

  // ----- a drain is not lost

  // The lock regions an acquire still has to pass.
  function Rank(a: Acquire): nat {
    match a.pc
    case Requested => 7
    case Waiting => 6
    case Granted => 5
    case Checked(_) => 4
    case Posting => 3
    case Refused => 3
    case Settling => 2
    case Checking => 1
    case Done => 0
  }

  function Work(s: System): nat {
    Sum(s.acquires, Rank) + 3 * s.books.acquired + 2 * s.flights.releasing
  }

  // A callback goes on, a held permit is released, or a release goes on.
  predicate Progresses(s: System, c: Call) {
    c.Region? && (c.a.ReadFlag? || c.a.Mark? || c.a.GiveBack? || c.a.Refuse? || c.a.Settle? || c.a.LastCheck? ||
                  c.a.PostRelease? || (c.a.Release? && s.books.acquired > 0))
  }

  predicate OfOneAcquire(a: Action) {
    a.Discard? || a.ReadFlag? || a.Mark? || a.GiveBack? || a.Refuse? || a.Settle? || a.LastCheck?
  }

  // What becomes of the acquire once the limiter is closed.
  function Moved(b: Acquire, a: Action): Acquire {
    match a
    case Discard(_) => b.(discarded := true)
    case ReadFlag(_) => b.(pc := Checked(b.discarded))
    case Settle(_) => b.(pc := Checking)
    case LastCheck(_) => b.(pc := Done)
    case _ => b.(pc := Settling)
  }

  // After closing, a step of one acquire moves that acquire alone.
  lemma CallbackMovesOne(s: System, a: Action)
    requires Enabled(s, a) && s.books.closed && s.sem.waiters == [] && OfOneAcquire(a)
    ensures Apply(s, a).acquires == s.acquires[a.i := Moved(s.acquires[a.i], a)]
    ensures Apply(s, a).books.acquired == s.books.acquired && Apply(s, a).flights.releasing == s.flights.releasing
  {
    if a.GiveBack? {
      assert s.sem.Granted(1) == [];
    }
  }

  lemma MovedRank(s: System, a: Action)
    requires Enabled(s, a) && OfOneAcquire(a)
    ensures var r, r' := Rank(s.acquires[a.i]), Rank(Moved(s.acquires[a.i], a)); if a.Discard? then r' == r else r' < r
  {
  }

  lemma CallbackShrinks(s: System, a: Action)
    requires Enabled(s, a) && s.books.closed && s.sem.waiters == [] && OfOneAcquire(a)
    ensures Work(Apply(s, a)) <= Work(s)
    ensures !a.Discard? ==> Work(Apply(s, a)) < Work(s)
  {
    CallbackMovesOne(s, a);
    MovedRank(s, a);
    SumUpdate(s.acquires, a.i, Moved(s.acquires[a.i], a), Rank);
  }

  // After closing no call adds work, and all these steps remove some.
  lemma WorkShrinks(s: System, c: Call)
    requires Calm(s) && s.books.closed && MayCall(s, c)
    ensures Work(Perform(s, c)) <= Work(s)
    ensures Progresses(s, c) ==> Work(Perform(s, c)) < Work(s)
  {
    if c.Region? && !c.a.Release? && !c.a.CheckDrain? && !c.a.PostRelease? {
      CallbackShrinks(s, c.a);
    }
  }

  // While there is work, somebody holds a permit or some step of the code can be taken.
  lemma WorkCanGoOn(s: System) returns (c: Call)
    requires Calm(s) && s.books.closed && Work(s) > 0
    ensures s.books.acquired > 0 || (MayCall(s, c) && Progresses(s, c))
  {
    c := Call.Close;
    if s.flights.releasing > 0 {
      c := Region(PostRelease);
    } else if s.books.acquired == 0 {
      var i := SumPositive(s.acquires, Rank);
      assert !At(s, i, Waiting);
      c := Region(match s.acquires[i].pc
                  case Granted => ReadFlag(i)
                  case Checked(_) => Mark(i)
                  case Posting => GiveBack(i)
                  case Refused => Refuse(i)
                  case Settling => Settle(i)
                  case _ => LastCheck(i));
    }
  }

  // Without work an unresolved drain is about to be looked at, and that look resolves it.
  lemma DrainResolvesInTheEnd(s: System)
    requires Calm(s) && s.books.drain && Work(s) == 0
    ensures Enabled(s, CheckDrain) && Apply(s, CheckDrain).resolved == s.resolved + 1
  {
    PendingHasRank(s.acquires);
  }

  lemma {:induction false} PendingHasRank(acquires: seq<Acquire>)
    ensures Sum(acquires, IsPending) + Sum(acquires, IsChecking) <= Sum(acquires, Rank)
  {
    if acquires != [] {
      PendingHasRank(acquires[..|acquires| - 1]);
    }
  }
}
