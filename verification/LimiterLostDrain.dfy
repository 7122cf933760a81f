/**
 * When a drain can still resolve, with every lock region a step of its own.
 *
 * Once the semaphore was closed nothing refuses the acquires that have yet to reach it, so the permits
 * that are left decide whether all of them get through.
 */
module LimiterLostDrain {
  import opened Common
  import opened Semaphores
  import opened Sums
  import opened Limiters
  import opened LimiterSafety
  import opened LimiterTheorems
  import LimiterDrain
  import opened LimiterStranded

  // An acquire that needs a permit from the semaphore to go on.
  function Needs(a: Acquire): nat {
    if a.pc.Requested? || a.pc.Waiting? then 1 else 0
  }

  // How many permits are missing for all of them to go on.
  function Deficit(s: System): int {
    Sum(s.acquires, Needs) - s.sem.counter - Posts(s)
  }

  predicate Shut(s: System) {
    s.books.closed && s.flights.closer.None?
  }

  predicate Lost(s: System) {
    Shut(s) && Deficit(s) > 0
  }

  // ----- after the semaphore was closed the deficit stays as it is

  lemma GotoNeeds(s: System, i: nat, a: Acquire)
    requires i < |s.acquires|
    ensures Sum(s.acquires[i := a], Needs) == Sum(s.acquires, Needs) - Needs(s.acquires[i]) + Needs(a)
    ensures Sum(s.acquires[i := a], IsPosting) == Sum(s.acquires, IsPosting) - IsPosting(s.acquires[i]) + IsPosting(a)
    ensures Sum(s.acquires[i := a], LimiterDrain.Rank) ==
              Sum(s.acquires, LimiterDrain.Rank) - LimiterDrain.Rank(s.acquires[i]) + LimiterDrain.Rank(a)
  {
    SumUpdate(s.acquires, i, a, Needs);
    SumUpdate(s.acquires, i, a, IsPosting);
    SumUpdate(s.acquires, i, a, LimiterDrain.Rank);
  }

  // A post serves a waiter or stays in the semaphore.
  lemma PostBalance(s: System)
    requires QueueInv(s)
    ensures Sum(Post(s).acquires, Needs) - Post(s).sem.counter == Sum(s.acquires, Needs) - s.sem.counter - 1
    ensures Sum(Post(s).acquires, IsPosting) == Sum(s.acquires, IsPosting)
    ensures Sum(Post(s).acquires, LimiterDrain.Rank) <= Sum(s.acquires, LimiterDrain.Rank)
  {
    var q := s.sem.waiters;
    if q == [] {
      assert s.sem.Granted(1) == [];
    } else {
      assert s.sem.Granted(1) == [q[0]] && s.sem.Posted(1) == Sem(0, q[1..]) && q[0] in q;
      assert At(s, q[0], Waiting);
      GotoNeeds(s, q[0], s.acquires[q[0]].(pc := Granted));
    }
  }

  lemma EnqueueKeeps(s: System, i: nat)
    requires Inv(s) && Enabled(s, Enqueue(i))
    ensures Deficit(Apply(s, Enqueue(i))) == Deficit(s)
    ensures LimiterDrain.Work(Apply(s, Enqueue(i))) < LimiterDrain.Work(s)
  {
    GotoNeeds(s, i, s.acquires[i].(pc := if s.sem.counter > 0 then Granted else Waiting));
  }

  lemma GiveBackKeeps(s: System, i: nat)
    requires Inv(s) && Enabled(s, GiveBack(i))
    ensures Deficit(Apply(s, GiveBack(i))) == Deficit(s)
    ensures LimiterDrain.Work(Apply(s, GiveBack(i))) < LimiterDrain.Work(s)
  {
    GotoNeeds(s, i, s.acquires[i].(pc := Settling));
    PostBalance(Goto(s, i, Settling));
  }

  lemma PostReleaseKeeps(s: System)
    requires Inv(s) && Enabled(s, PostRelease)
    ensures Deficit(Apply(s, PostRelease)) == Deficit(s)
    ensures LimiterDrain.Work(Apply(s, PostRelease)) < LimiterDrain.Work(s)
  {
    PostBalance(s.(flights := s.flights.(releasing := s.flights.releasing - 1, checks := s.flights.checks + 1)));
  }

  lemma CallbackOfShut(s: System, a: Action)
    requires Enabled(s, a) && OfCallback(a) && s.books.closed
    ensures var b, b' := s.acquires[a.i], LimiterDrain.Moved(s.acquires[a.i], a);
            && Apply(s, a).acquires == s.acquires[a.i := b']
            && Needs(b') == Needs(b) && IsPosting(b') == IsPosting(b)
            && LimiterDrain.Rank(b') <= LimiterDrain.Rank(b)
            && (!a.Discard? ==> LimiterDrain.Rank(b') < LimiterDrain.Rank(b))
  {
  }

  lemma CallbackKeeps(s: System, a: Action)
    requires Inv(s) && Enabled(s, a) && OfCallback(a) && Shut(s)
    ensures Deficit(Apply(s, a)) == Deficit(s)
    ensures !a.Discard? ==> LimiterDrain.Work(Apply(s, a)) < LimiterDrain.Work(s)
  {
    CallbackOfShut(s, a);
    GotoNeeds(s, a.i, LimiterDrain.Moved(s.acquires[a.i], a));
  }

  lemma DeficitKept(s: System, a: Action)
    requires Inv(s) && Enabled(s, a) && Shut(s)
    ensures Shut(Apply(s, a)) && Deficit(Apply(s, a)) == Deficit(s)
  {
    match a
    case Enqueue(i) => EnqueueKeeps(s, i);
    case GiveBack(i) => GiveBackKeeps(s, i);
    case PostRelease => PostReleaseKeeps(s);
    case Discard(_) => CallbackKeeps(s, a);
    case ReadFlag(_) => CallbackKeeps(s, a);
    case Mark(_) => CallbackKeeps(s, a);
    case Refuse(_) => CallbackKeeps(s, a);
    case Settle(_) => CallbackKeeps(s, a);
    case LastCheck(_) => CallbackKeeps(s, a);
    case _ =>
  }

  // ----- with a deficit the drain is lost

  lemma {:induction false} NeedsArePending(acquires: seq<Acquire>)
    ensures Sum(acquires, Needs) <= Sum(acquires, IsPending)
  {
    if acquires != [] {
      NeedsArePending(acquires[..|acquires| - 1]);
    }
  }

  lemma {:induction false} LostForGood(s: System, later: seq<Action>)
    requires Inv(s) && Lost(s) && Legal(s, later)
    ensures After(s, later).resolved == s.resolved
    decreases |later|
  {
    if later != [] {
      NeedsArePending(s.acquires);
      NothingResolves(s, later[0]);
      DeficitKept(s, later[0]);
      ApplyInv(s, later[0]);
      LostForGood(Apply(s, later[0]), later[1..]);
    }
  }

  // ----- without one it can be resolved

  // A step that is left to take while there is work.
  lemma NextStep(s: System) returns (a: Action)
    requires Inv(s) && Shut(s) && Deficit(s) <= 0 && LimiterDrain.Work(s) > 0
    ensures Enabled(s, a) && LimiterDrain.Work(Apply(s, a)) < LimiterDrain.Work(s)
  {
    if s.flights.releasing > 0 {
      a := PostRelease;
      PostReleaseKeeps(s);
    } else if s.books.acquired > 0 {
      a := Release;
    } else {
      var i := SumPositive(s.acquires, LimiterDrain.Rank);
      if s.acquires[i].pc.Waiting? {
        i := PostForWaiter(s, i);
      }
      a := StepOfAcquire(s, i);
    }
  }

  // A waiter is owed a post, which some callback is about to make.
  lemma PostForWaiter(s: System, i: nat) returns (j: nat)
    requires Inv(s) && Deficit(s) <= 0 && s.flights.releasing == 0 && At(s, i, Waiting)
    ensures At(s, j, Posting)
  {
    assert i in s.sem.waiters;
    SumUpdate(s.acquires, i, s.acquires[i], Needs);
    j := SumPositive(s.acquires, IsPosting);
  }

  lemma StepOfAcquire(s: System, i: nat) returns (a: Action)
    requires Inv(s) && Shut(s) && i < |s.acquires| && LimiterDrain.Rank(s.acquires[i]) > 0 && !s.acquires[i].pc.Waiting?
    ensures Enabled(s, a) && LimiterDrain.Work(Apply(s, a)) < LimiterDrain.Work(s)
  {
    a := match s.acquires[i].pc
         case Requested => Enqueue(i)
         case Granted => ReadFlag(i)
         case Checked(_) => Mark(i)
         case Posting => GiveBack(i)
         case Refused => Refuse(i)
         case Settling => Settle(i)
         case _ => LastCheck(i);
    if a.Enqueue? {
      EnqueueKeeps(s, i);
    } else if a.GiveBack? {
      GiveBackKeeps(s, i);
    } else {
      CallbackKeeps(s, a);
    }
  }

  lemma DrainStaysOrResolves(s: System, a: Action)
    requires Enabled(s, a) && s.books.drain
    ensures Apply(s, a).resolved > s.resolved || (Apply(s, a).resolved == s.resolved && Apply(s, a).books.drain)
  {
  }

  // The look at the promise that is left when there is no work.
  lemma LastLook(s: System) returns (run: seq<Action>)
    requires Inv(s) && Shut(s) && s.books.drain && LimiterDrain.Work(s) == 0
    ensures Legal(s, run) && After(s, run).resolved > s.resolved
  {
    LimiterDrain.PendingHasRank(s.acquires);
    if s.flights.checks > 0 {
      OneStep(s, CheckDrain, Apply(s, CheckDrain), []);
      run := [CheckDrain] + [];
    } else {
      var t := Apply(s, CloseForDrain);
      OneStep(t, CheckDrain, Apply(t, CheckDrain), []);
      OneStep(s, CloseForDrain, t, [CheckDrain] + []);
      run := [CloseForDrain] + ([CheckDrain] + []);
    }
  }

  lemma {:induction false} ResolvesOnceShut(s: System) returns (run: seq<Action>)
    requires Inv(s) && Shut(s) && Deficit(s) <= 0 && s.books.drain
    ensures Legal(s, run) && After(s, run).resolved > s.resolved
    decreases LimiterDrain.Work(s)
  {
    if LimiterDrain.Work(s) == 0 {
      run := LastLook(s);
    } else {
      var a := NextStep(s);
      ApplyInv(s, a);
      DeficitKept(s, a);
      DrainStaysOrResolves(s, a);
      run := [];
      if Apply(s, a).resolved == s.resolved {
        run := ResolvesOnceShut(Apply(s, a));
      }
      OneStep(s, a, Apply(s, a), run);
      run := [a] + run;
    }
  }

  // Before the semaphore is closed: let everybody in, and close it.
  function IsRequested(a: Acquire): nat {
    if a.pc.Requested? then 1 else 0
  }

  lemma {:induction false} NobodyNeeds(acquires: seq<Acquire>)
    requires Sum(acquires, IsRequested) == 0
    ensures Sum(RefuseAll(acquires), Needs) == 0
  {
    if acquires != [] {
      var n := |acquires| - 1;
      NobodyNeeds(acquires[..n]);
      assert RefuseAll(acquires)[..n] == RefuseAll(acquires[..n]);
    }
  }

  lemma EnqueueRequested(s: System, i: nat)
    requires Enabled(s, Enqueue(i))
    ensures Sum(Apply(s, Enqueue(i)).acquires, IsRequested) == Sum(s.acquires, IsRequested) - 1
  {
    SumUpdate(s.acquires, i, s.acquires[i].(pc := if s.sem.counter > 0 then Granted else Waiting), IsRequested);
  }

  lemma {:induction false} ResolvesBeforeShut(s: System) returns (run: seq<Action>)
    requires Inv(s) && !Shut(s) && s.books.drain
    ensures Legal(s, run) && After(s, run).resolved > s.resolved
    decreases Sum(s.acquires, IsRequested), if s.flights.closer.None? then 1 else 0
  {
    var a := CloseSemaphore;
    if Sum(s.acquires, IsRequested) > 0 {
      var i := SumPositive(s.acquires, IsRequested);
      a := Enqueue(i);
      EnqueueRequested(s, i);
    } else if s.flights.closer.None? {
      a := CloseLimiter;
    }
    var t := Apply(s, a);
    ApplyInv(s, a);
    if a == CloseSemaphore {
      NobodyNeeds(s.acquires);
      run := ResolvesOnceShut(t);
    } else {
      run := ResolvesBeforeShut(t);
    }
    OneStep(s, a, t, run);
    run := [a] + run;
  }

  // ----- the theorem

  ghost predicate CanResolve(s: System) {
    exists later :: Legal(s, later) && After(s, later).resolved > s.resolved
  }

  lemma CanResolveIff(s: System)
    requires Inv(s) && s.books.drain
    ensures CanResolve(s) <==> !Lost(s)
  {
    if Lost(s) {
      forall later | Legal(s, later)
        ensures After(s, later).resolved == s.resolved
      {
        LostForGood(s, later);
      }
    } else if Shut(s) {
      var run := ResolvesOnceShut(s);
    } else {
      var run := ResolvesBeforeShut(s);
    }
  }

  // In every run a drain that was asked for can still resolve if and only if the semaphore is yet to
  // be closed, or the permits in it and on their way to it suffice for all acquires that need one.
  lemma DrainResolvesIff(max: nat, run: seq<Action>)
    requires Legal(Init(max), run) && After(Init(max), run).books.drain
    ensures CanResolve(After(Init(max), run)) <==> !Lost(After(Init(max), run))
  {
    ReachableInv(max, run);
    CanResolveIff(After(Init(max), run));
  }

  // A drain may be lost before the acquire that loses it waits for anything.
  lemma LostWithNobodyWaiting() returns (run: seq<Action>)
    ensures Legal(Init(1), run)
    ensures var s := After(Init(1), run);
            && s.books.drain && s.sem.waiters == [] && s.resolved == 0
            && forall later :: Legal(s, later) ==> After(s, later).resolved == 0
  {
    run := Overtaken([]);
    ReachableInv(1, run);
    var s := After(Init(1), run);
    assert s == CLOSED_TOO_SOON;
    assert s.acquires[..1] == [Acquire(Granted, false)] && s.acquires[..1][..0] == [];
    assert Sum(s.acquires, Needs) == 1 && Sum(s.acquires, IsPosting) == 0;
    forall later | Legal(s, later)
      ensures After(s, later).resolved == 0
    {
      LostForGood(s, later);
    }
  }
}
