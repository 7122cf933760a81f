/**
 * What the fields of the limiter count, told from the actions of a run alone.
 *
 * An observer sees the actions and none of the fields.  It notes who was discarded and whether a
 * close has begun, and it counts permits by the rule that callers rely on.  In every interleaving
 * the fields agree with it.
 */
module LimiterCounts {
  import opened Common
  import opened Semaphores
  import opened Sums
  import opened Limiters
  import opened LimiterSafety
  import opened LimiterTheorems

  predicate Closes(a: Action) {
    a.CloseLimiter? || a.CloseForDrain?
  }

  // Acquires accepted; those discarded, and those that were discarded when their callback looked;
  // permits held.
  datatype Notes = Notes(closed: bool, accepted: nat, discarded: set<nat>, cancelled: set<nat>, held: nat)

  const BLANK := Notes(false, 0, {}, {}, 0)

  function Noted(n: Notes, a: Action): Notes {
    match a
    case BeginAcquire => if n.closed then n else n.(accepted := n.accepted + 1)
    case Discard(i) => n.(discarded := n.discarded + {i})
    case ReadFlag(i) => if i in n.discarded then n.(cancelled := n.cancelled + {i}) else n
    case Mark(i) => if n.closed || i in n.cancelled then n else n.(held := n.held + 1)
    case Release => if n.held == 0 then n else n.(held := n.held - 1)
    case CloseLimiter => n.(closed := true)
    case CloseForDrain => n.(closed := true)
    case _ => n
  }

  function Watched(n: Notes, run: seq<Action>): Notes
    decreases |run|
  {
    if run == [] then n else Watched(Noted(n, run[0]), run[1..])
  }

  // ----- the fields agree with the notes

  ghost predicate AcquireAgrees(a: Acquire, n: Notes, i: nat) {
    && (a.discarded <==> i in n.discarded)
    && (a.pc.Checked? ==> (a.pc.discarded <==> i in n.cancelled))
  }

  ghost predicate Agree(s: System, n: Notes) {
    && s.books.closed == n.closed && s.books.acquired == n.held && |s.acquires| == n.accepted
    && (forall i :: 0 <= i < |s.acquires| ==> AcquireAgrees(s.acquires[i], n, i))
    && n.cancelled <= n.discarded
    && (forall i :: i in n.discarded ==> i < |s.acquires|)
  }

  // A post moves an acquire that waits.
  lemma PostAgrees(s: System, n: Notes)
    requires Agree(s, n)
    ensures Agree(Post(s), n)
  {
    forall i | 0 <= i < |s.acquires|
      ensures AcquireAgrees(Post(s).acquires[i], n, i)
    {
      assert AcquireAgrees(s.acquires[i], n, i);
    }
  }

  lemma StepAgrees(s: System, n: Notes, a: Action)
    requires Agree(s, n) && Enabled(s, a) && !a.GiveBack? && !a.PostRelease?
    ensures Agree(Apply(s, a), Noted(n, a))
  {
    var t := Apply(s, a);
    forall i | 0 <= i < |t.acquires|
      ensures AcquireAgrees(t.acquires[i], Noted(n, a), i)
    {
      assert i < |s.acquires| ==> AcquireAgrees(s.acquires[i], n, i);
    }
  }

  lemma GotoAgrees(s: System, n: Notes, i: nat, pc: Pc)
    requires Agree(s, n) && i < |s.acquires| && !pc.Checked?
    ensures Agree(Goto(s, i, pc), n)
  {
    forall j | 0 <= j < |s.acquires|
      ensures AcquireAgrees(Goto(s, i, pc).acquires[j], n, j)
    {
      assert AcquireAgrees(s.acquires[j], n, j);
    }
  }

  lemma ActAgrees(s: System, n: Notes, a: Action)
    requires Agree(s, n) && Enabled(s, a)
    ensures Agree(Apply(s, a), Noted(n, a))
  {
    match a
    case GiveBack(i) =>
      GotoAgrees(s, n, i, Settling);
      PostAgrees(Goto(s, i, Settling), n);
    case PostRelease =>
      PostAgrees(s.(flights := s.flights.(releasing := s.flights.releasing - 1, checks := s.flights.checks + 1)), n);
    case _ => StepAgrees(s, n, a);
  }

  lemma {:induction false} RunAgrees(s: System, n: Notes, run: seq<Action>)
    requires Agree(s, n) && Legal(s, run)
    ensures Agree(After(s, run), Watched(n, run))
    decreases |run|
  {
    if run != [] {
      ActAgrees(s, n, run[0]);
      RunAgrees(Apply(s, run[0]), Noted(n, run[0]), run[1..]);
    }
  }

  // ----- the theorems

  // In every run the permits held are the grants that were marked while the limiter was open and
  // whose acquire was not discarded when its callback looked, less the releases that found one held;
  // the acquires accepted are those begun before any close.
  lemma CountsWhatHappened(max: nat, run: seq<Action>)
    requires Legal(Init(max), run)
    ensures var s, n := After(Init(max), run), Watched(BLANK, run);
            s.books.acquired == n.held && |s.acquires| == n.accepted && s.books.closed == n.closed
  {
    RunAgrees(Init(max), BLANK, run);
  }

  lemma {:induction false} WatchedClosed(n: Notes, run: seq<Action>)
    ensures Watched(n, run).closed <==> n.closed || exists i :: 0 <= i < |run| && Closes(run[i])
    decreases |run|
  {
    if run != [] {
      WatchedClosed(Noted(n, run[0]), run[1..]);
      if i :| 0 <= i < |run| && Closes(run[i]) {
        assert i > 0 ==> Closes(run[1..][i - 1]);
      }
      if j :| 0 <= j < |run[1..]| && Closes(run[1..][j]) {
        assert Closes(run[j + 1]);
      }
    }
  }

  // The limiter is closed exactly from the first step of a close on.
  lemma ClosedIffAsked(max: nat, run: seq<Action>)
    requires Legal(Init(max), run)
    ensures After(Init(max), run).books.closed <==> exists i :: 0 <= i < |run| && Closes(run[i])
  {
    CountsWhatHappened(max, run);
    WatchedClosed(BLANK, run);
  }

  // A grant that is marked while the limiter is open is one more permit held, unless the acquire was
  // discarded before its callback looked; then the permit goes back to the semaphore.  After a close
  // it is neither.
  lemma MarkHoldsOrGivesBack(max: nat, run: seq<Action>, i: nat)
    requires Legal(Init(max), run) && Enabled(After(Init(max), run), Mark(i))
    ensures var s, n := After(Init(max), run), Watched(BLANK, run); var t := Apply(s, Mark(i));
            && t.books.acquired == s.books.acquired + (if n.closed || i in n.cancelled then 0 else 1)
            && (At(t, i, Posting) <==> !n.closed && i in n.cancelled)
            && (At(t, i, Settling) <==> n.closed || i !in n.cancelled)
            && t.sem == s.sem && t.books.pending == s.books.pending
  {
    RunAgrees(Init(max), BLANK, run);
    var s, n := After(Init(max), run), Watched(BLANK, run);
    assert AcquireAgrees(s.acquires[i], n, i);
  }

  // A drain that is asked for is promised, until it is resolved.
  lemma {:induction false} PromisesGrow(s: System, run: seq<Action>)
    requires Legal(s, run)
    ensures Promises(After(s, run)) >= Promises(s)
    decreases |run|
  {
    if run != [] {
      PromisesGrow(Apply(s, run[0]), run[1..]);
    }
  }

  lemma {:induction false} DrainIsPromised(s: System, run: seq<Action>)
    requires Legal(s, run) && Count(run, BeginDrain) > 0
    ensures After(s, run).books.drain || After(s, run).resolved > s.resolved
    decreases |run|
  {
    if run[0] == BeginDrain {
      PromisesGrow(Apply(s, run[0]), run[1..]);
    } else {
      DrainIsPromised(Apply(s, run[0]), run[1..]);
    }
  }
}
