/** What the fiber scheduler promises in every run: no lost wakeup, and fair turns. */
module FiberTheorems {
  import opened Common
  import opened Fibers
  import opened FiberSafety

  ghost predicate Reachable(w: World) {
    exists run :: Legal(START, run) && After(START, run) == w
  }

  lemma ReachableInv(w: World)
    requires Reachable(w)
    ensures Inv(w)
  {
    var run :| Legal(START, run) && After(START, run) == w;
    RunInv(START, run);
  }

  // ----- the assertions

  // An assertion of propagate or yield fails if and only if a notice comes late: at once, or, when
  // it comes between the two parts of an await, in the second part.
  lemma AssertionsFailIffLate(w: World)
    requires Reachable(w)
    ensures w.failed ==> w.late
    ensures w.late ==> w.failed || (w.control.Chaining? && Enabled(w, Chain) && Act(w, Chain).failed)
  {
    ReachableInv(w);
    if w.late && !w.failed {
      DoomedFails(w, Chain);
    }
  }

  // No fiber begins another await, or exits, while a notice is on its way to it.
  ghost predicate Prompt(w: World, run: seq<Action>)
    requires Legal(w, run)
    decreases run
  {
    run == [] || (
      && ((run[0].Await? || run[0].Exit?) ==> w.tasks[w.control.fiber].notices == [])
      && Prompt(Act(w, run[0]), run[1..]))
  }

  // Every notice is of the await that the fiber is in, or was in last.
  ghost predicate Timely(b: Fiber, t: Task) {
    && (forall n :: n in t.notices ==> n == t.awaits)
    && (b.exited ==> t.notices == [])
  }

  ghost predicate NoneOverdue(w: World) {
    && Sized(w)
    && forall f :: 0 <= f < |w.tasks| ==> Timely(w.sched.fibers[f], w.tasks[f])
  }

  lemma CompleteTimely(w: World, x: nat, f: nat)
    requires Fine(w) && NoneOverdue(w) && f < |w.tasks|
    ensures Timely(w.sched.fibers[f], Told(w.tasks[f], x))
  {
    assert Timely(w.sched.fibers[f], w.tasks[f]);
    assert FlagsOk(w.control, f, w.sched.fibers[f], w.tasks[f], w.done);
    ToldOk(w.control, f, w.sched.fibers[f], w.tasks[f], w.done, x);
  }

  lemma AwaitTimely(w: World, a: Action, f: nat)
    requires NoneOverdue(w) && Enabled(w, a) && f < |w.tasks| && (a.Await? || a.Exit?)
    requires w.tasks[w.control.fiber].notices == []
    ensures f < |Act(w, a).tasks| && f < |Act(w, a).sched.fibers|
    ensures Timely(Act(w, a).sched.fibers[f], Act(w, a).tasks[f])
  {
    assert Timely(w.sched.fibers[f], w.tasks[f]);
  }

  lemma InsideTimely(w: World, a: Action, f: nat)
    requires NoneOverdue(w) && Enabled(w, a) && f < |w.tasks|
    requires a.SwitchIn? || a.Resume? || a.Chain? || a.Yield? || a.SwitchBack?
    ensures f < |Act(w, a).tasks| && f < |Act(w, a).sched.fibers|
    ensures Timely(Act(w, a).sched.fibers[f], Act(w, a).tasks[f])
  {
    assert Timely(w.sched.fibers[f], w.tasks[f]);
  }

  lemma OutsideTimely(w: World, a: Action, f: nat)
    requires Fine(w) && NoneOverdue(w) && Enabled(w, a) && (a.Register? || a.Discard? || a.Complete? || a.Notify?)
    requires f < |Act(w, a).tasks| && f < |Act(w, a).sched.fibers|
    ensures Timely(Act(w, a).sched.fibers[f], Act(w, a).tasks[f])
  {
    if f < |w.tasks| {
      assert Timely(w.sched.fibers[f], w.tasks[f]);
    }
    if a.Complete? {
      CompleteTimely(w, a.future, f);
    }
  }

  lemma ActNoneOverdue(w: World, a: Action)
    requires Fine(w) && NoneOverdue(w) && Enabled(w, a)
    requires a.Await? || a.Exit? ==> w.tasks[w.control.fiber].notices == []
    ensures NoneOverdue(Act(w, a)) && Act(w, a).late == w.late
  {
    ActAlive(w, a);
    forall f | 0 <= f < |Act(w, a).tasks|
      ensures Timely(Act(w, a).sched.fibers[f], Act(w, a).tasks[f])
    {
      if a.Register? || a.Discard? || a.Complete? || a.Notify? {
        OutsideTimely(w, a, f);
      } else if a.Await? || a.Exit? {
        AwaitTimely(w, a, f);
      } else {
        InsideTimely(w, a, f);
      }
    }
    if a.Notify? {
      assert Timely(w.sched.fibers[a.fiber], w.tasks[a.fiber]);
      assert w.tasks[a.fiber].notices[a.i] in w.tasks[a.fiber].notices;
    }
  }

  lemma {:induction false} NeverOverdue(w: World, run: seq<Action>)
    requires Inv(w) && !w.late && NoneOverdue(w) && Legal(w, run) && Prompt(w, run)
    ensures !After(w, run).late && !After(w, run).failed
    decreases run
  {
    if run != [] {
      ActInv(w, run[0]);
      ActNoneOverdue(w, run[0]);
      NeverOverdue(Act(w, run[0]), run[1..]);
    }
  }

  // With prompt notices no assertion ever fails.
  lemma AssertionsHoldIfPrompt(run: seq<Action>)
    requires Legal(START, run) && Prompt(START, run)
    ensures !After(START, run).failed && !After(START, run).late
  {
    NeverOverdue(START, run);
  }

  ghost predicate NoNotices(w: World) {
    forall f :: 0 <= f < |w.tasks| ==> w.tasks[f].notices == []
  }

  // Every completion is followed at once by all the notices that it causes.
  ghost predicate Uninterrupted(w: World, run: seq<Action>)
    requires Legal(w, run)
    decreases run
  {
    run == [] || ((NoNotices(w) || run[0].Notify?) && Uninterrupted(Act(w, run[0]), run[1..]))
  }

  lemma {:induction false} UninterruptedIsPrompt(w: World, run: seq<Action>)
    requires Legal(w, run) && Uninterrupted(w, run)
    ensures Prompt(w, run)
    decreases run
  {
    if run != [] {
      UninterruptedIsPrompt(Act(w, run[0]), run[1..]);
    }
  }

  // So none fails if completing a future and notifying its waiters is one step.
  lemma AssertionsHoldIfUninterrupted(run: seq<Action>)
    requires Legal(START, run) && Uninterrupted(START, run)
    ensures !After(START, run).failed && !After(START, run).late
  {
    UninterruptedIsPrompt(START, run);
    AssertionsHoldIfPrompt(run);
  }

  // ----- no lost wakeup

  // Whenever the scheduler has control, a fiber that was not released is in exactly the queue that
  // its field names; if that is the blocked one, the fiber is not cancelled, and it has exactly one
  // registration, on a pending future, or exactly one notice, of the await that it is in.
  lemma NoLostWakeup(w: World, f: nat)
    requires Reachable(w) && !w.late && w.control.Scheduling? && f < |w.sched.fibers| && !w.sched.fibers[f].released
    ensures f < |w.tasks|
    ensures f in w.sched.runnable <==> w.sched.fibers[f].queue == Runnable
    ensures f in w.sched.blocked <==> w.sched.fibers[f].queue == Blocked
    ensures f in w.sched.runnable <==> f !in w.sched.blocked
    ensures f in w.sched.blocked ==>
              var t := w.tasks[f];
              && !w.sched.fibers[f].cancelled && |t.waits| + |t.notices| == 1
              && (t.waits != [] ==> t.waits[0] !in w.done)
              && (t.notices != [] ==> t.notices[0] == t.awaits)
  {
    ReachableInv(w);
    assert LifeOk(w.control, f, w.sched.fibers[f]);
    assert FlagsOk(w.control, f, w.sched.fibers[f], w.tasks[f], w.done);
  }

  // A cancelled fiber never stays blocked, whatever it awaits.
  lemma CancelledIsRunnable(w: World, f: nat)
    requires Reachable(w) && !w.late && w.control.Scheduling? && f < |w.sched.fibers|
    requires w.sched.fibers[f].cancelled && !w.sched.fibers[f].released
    ensures f in w.sched.runnable && f !in w.sched.blocked
  {
    NoLostWakeup(w, f);
  }

  // ----- cancellation

  ghost predicate IsCancelled(w: World, f: nat) {
    f < |w.sched.fibers| && w.sched.fibers[f].cancelled
  }

  // A discard of a fiber that has not exited, runnable or not.
  ghost predicate Cancels(w: World, a: Action, f: nat) {
    a == Discard(f) && f < |w.sched.fibers| && !w.sched.fibers[f].exited
  }

  ghost predicate CancelledAlong(w: World, run: seq<Action>, f: nat)
    requires Legal(w, run)
    decreases run
  {
    run != [] && (Cancels(w, run[0], f) || CancelledAlong(Act(w, run[0]), run[1..], f))
  }

  // The steps of the scheduler's thread cancel nobody.
  lemma InsideCancelsNobody(w: World, a: Action, f: nat)
    requires Enabled(w, a) && f < |w.sched.fibers|
    requires a.SwitchIn? || a.Resume? || a.Await? || a.Chain? || a.Yield? || a.Exit? || a.SwitchBack?
    ensures f < |Act(w, a).sched.fibers| == |w.sched.fibers|
    ensures Act(w, a).sched.fibers[f].cancelled == w.sched.fibers[f].cancelled
  {
  }

  lemma OutsideCancels(w: World, a: Action, f: nat)
    requires Enabled(w, a) && (a.Register? || a.Discard? || a.Complete? || a.Notify?)
    ensures IsCancelled(Act(w, a), f) <==> IsCancelled(w, f) || Cancels(w, a, f)
    ensures |w.sched.fibers| <= |Act(w, a).sched.fibers|
  {
  }

  lemma StepCancels(w: World, a: Action, f: nat)
    requires Enabled(w, a)
    ensures IsCancelled(Act(w, a), f) <==> IsCancelled(w, f) || Cancels(w, a, f)
    ensures |w.sched.fibers| <= |Act(w, a).sched.fibers|
  {
    if a.Register? || a.Discard? || a.Complete? || a.Notify? {
      OutsideCancels(w, a, f);
    } else {
      InsideSameFibers(w, a);
      if f < |w.sched.fibers| {
        InsideCancelsNobody(w, a, f);
      }
    }
  }

  lemma InsideSameFibers(w: World, a: Action)
    requires Enabled(w, a)
    requires a.SwitchIn? || a.Resume? || a.Await? || a.Chain? || a.Yield? || a.Exit? || a.SwitchBack?
    ensures |Act(w, a).sched.fibers| == |w.sched.fibers|
  {
  }

  lemma {:induction false} CancelledForGood(w: World, run: seq<Action>, f: nat)
    requires Legal(w, run)
    ensures IsCancelled(After(w, run), f) <==> IsCancelled(w, f) || CancelledAlong(w, run, f)
    ensures |w.sched.fibers| <= |After(w, run).sched.fibers|
    decreases run
  {
    if run != [] {
      StepCancels(w, run[0], f);
      CancelledForGood(Act(w, run[0]), run[1..], f);
    }
  }

  // In every run a fiber is cancelled if and only if it was discarded before it exited.
  lemma CancelledIffDiscarded(run: seq<Action>, f: nat)
    requires Legal(START, run)
    ensures IsCancelled(After(START, run), f) <==> CancelledAlong(START, run, f)
  {
    CancelledForGood(START, run, f);
  }

  lemma {:induction false} LegalThenMore(w: World, run: seq<Action>, more: seq<Action>)
    requires Legal(w, run) && Legal(After(w, run), more)
    ensures Legal(w, run + more) && After(w, run + more) == After(After(w, run), more)
    decreases run
  {
    if run == [] {
      assert run + more == more;
    } else {
      assert (run + more)[0] == run[0] && (run + more)[1..] == run[1..] + more;
      LegalThenMore(Act(w, run[0]), run[1..], more);
    }
  }

  lemma ReachableMore(w: World, more: seq<Action>)
    requires Reachable(w) && Legal(w, more)
    ensures Reachable(After(w, more))
  {
    var run :| Legal(START, run) && After(START, run) == w;
    LegalThenMore(START, run, more);
    assert Legal(START, run + more) && After(START, run + more) == After(w, more);
  }

  lemma ReachableNext(w: World, a: Action)
    requires Reachable(w) && Enabled(w, a)
    ensures Reachable(Act(w, a))
  {
    var one := [a];
    assert one[0] == a && one[1..] == [];
    assert Legal(Act(w, a), one[1..]) && After(Act(w, a), one[1..]) == Act(w, a);
    assert Legal(w, one) && After(w, one) == Act(w, a);
    ReachableMore(w, one);
  }

  // A fiber that is discarded before it exits is cancelled, whatever it does next and however the run
  // goes on; unless a notice comes late, it is never left blocked: with the scheduler in control it is
  // in the runnable queue, or released.
  lemma DiscardWakes(w: World, f: nat, more: seq<Action>)
    requires Reachable(w) && Enabled(w, Discard(f)) && !w.sched.fibers[f].exited
    requires Legal(Act(w, Discard(f)), more)
    ensures var v := After(Act(w, Discard(f)), more);
            && f < |v.sched.fibers| && v.sched.fibers[f].cancelled
            && (v.control.Scheduling? && !v.late ==> f in v.sched.runnable || v.sched.fibers[f].released)
  {
    var w1 := Act(w, Discard(f));
    StepCancels(w, Discard(f), f);
    CancelledForGood(w1, more, f);
    ReachableNext(w, Discard(f));
    ReachableMore(w1, more);
    var v := After(w1, more);
    if v.control.Scheduling? && !v.late && !v.sched.fibers[f].released {
      CancelledIsRunnable(v, f);
    }
  }

  // ----- wakeup

  // Completing the future that a fiber waits for puts one notice on its way, of the await that the
  // fiber is in; the notice makes the fiber runnable.
  lemma CompletionWakes(w: World, f: nat, x: nat)
    requires Reachable(w) && !w.late && x !in w.done && f < |w.tasks| && x in w.tasks[f].waits
    ensures Enabled(w, Complete(x))
    ensures var v := Act(w, Complete(x));
            && f < |v.tasks| && v.tasks[f].waits == [] && v.tasks[f].notices == [v.tasks[f].awaits]
            && Enabled(v, Notify(f, 0)) && !Act(v, Notify(f, 0)).late
            && f in Act(v, Notify(f, 0)).sched.runnable
  {
    ReachableInv(w);
    assert LifeOk(w.control, f, w.sched.fibers[f]);
    ToldOk(w.control, f, w.sched.fibers[f], w.tasks[f], w.done, x);
    var v := Act(w, Complete(x));
    ActInv(w, Complete(x));
    NotifyWakes(v, f, 0);
  }

  // ----- fair turns

  // Whether the fiber in control is still at the head of the runnable queue.
  ghost predicate AtHead(w: World) {
    && !w.control.Scheduling? && w.control.fiber < |w.sched.fibers|
    && (w.control.Executing? || w.control.Resuming? || (w.control.Leaving? && w.sched.fibers[w.control.fiber].exited))
  }

  // Of the fibers in q, the first k had their turn; the others are next, in order.
  ghost predicate Next(q: seq<nat>, k: nat, w: World) {
    && k <= |q|
    && if AtHead(w) then k > 0 && q[k - 1] == w.control.fiber && q[k - 1..] <= w.sched.runnable
       else q[k..] <= w.sched.runnable
  }

  // Nobody but a fiber itself takes it out of the runnable queue.
  lemma Appends(q: seq<nat>, k: nat, w: World, v: World)
    requires Next(q, k, w) && w.sched.runnable <= v.sched.runnable && (AtHead(v) <==> AtHead(w))
    requires AtHead(w) ==> v.control.fiber == w.control.fiber
    ensures Next(q, k, v)
  {
  }

  // A fiber that leaves the head of the queue leaves the rest of it as it is.
  lemma {:induction false} LeavesHead(list: seq<nat>, f: nat)
    requires list != [] && list[0] == f && NoDup(list)
    ensures Without(list, f) == list[1..]
  {
    assert f !in list[1..];
    WithoutOther(list[1..], f);
  }

  lemma Popped(q: seq<nat>, k: nat, list: seq<nat>)
    requires 0 < k <= |q| && q[k - 1..] <= list
    ensures list != [] && list[0] == q[k - 1] && q[k..] <= list[1..]
  {
    assert q[k - 1..][0] == q[k - 1] && q[k - 1..][1..] == q[k..];
  }

  lemma OwnStepIsFair(q: seq<nat>, k: nat, w: World, a: Action)
    requires Alive(w) && Enabled(w, a) && Next(q, k, w) && AtHead(w)
    requires a.Await? || a.Yield? || a.SwitchBack?
    ensures Next(q, k, Act(w, a))
  {
    var f := w.control.fiber;
    Popped(q, k, w.sched.runnable);
    LeavesHead(w.sched.runnable, f);
    assert LifeOk(w.control, f, w.sched.fibers[f]);
  }

  lemma ActIsFair(q: seq<nat>, k: nat, w: World, a: Action)
    requires Alive(w) && Enabled(w, a) && Next(q, k, w) && !a.SwitchIn?
    ensures Next(q, k, Act(w, a))
  {
    match a
    case Await(_) => OwnStepIsFair(q, k, w, a);
    case Yield => OwnStepIsFair(q, k, w, a);
    case SwitchBack =>
      if AtHead(w) {
        OwnStepIsFair(q, k, w, a);
      }
    case Exit =>
    case Resume =>
    case Chain => ChainIsFair(q, k, w);
    case Complete(_) => Appends(q, k, w, Act(w, a));
    case Notify(f, _) => Appends(q, k, w, Act(w, a));
    case Register => Appends(q, k, w, Act(w, a));
    case Discard(f) => Appends(q, k, w, Act(w, a));
  }

  lemma ChainIsFair(q: seq<nat>, k: nat, w: World)
    requires Alive(w) && Enabled(w, Chain) && Next(q, k, w)
    ensures Next(q, k, Act(w, Chain))
  {
    var f := w.control.fiber;
    assert LifeOk(w.control, f, w.sched.fibers[f]);
    Appends(q, k, w, Act(w, Chain));
  }

  lemma SwitchInIsFair(q: seq<nat>, k: nat, w: World)
    requires Enabled(w, SwitchIn) && Next(q, k, w) && k < |q|
    ensures w.sched.runnable[0] == q[k] && Next(q, k + 1, Act(w, SwitchIn))
  {
    assert q[k..][0] == q[k];
  }

  function Turns(run: seq<Action>): nat {
    if run == [] then 0 else (if run[0].SwitchIn? then 1 else 0) + Turns(run[1..])
  }

  // The fibers that have their turn in a run, in order.
  function Ran(w: World, run: seq<Action>): seq<nat>
    requires Legal(w, run)
    decreases run
  {
    if run == [] then []
    else (if run[0].SwitchIn? then [w.sched.runnable[0]] else []) + Ran(Act(w, run[0]), run[1..])
  }

  // The first n turns after the scheduler saw n fibers in its queue are theirs, one each, in the
  // order of the queue; whoever is queued meanwhile comes later.
  lemma RoundRobin(w: World, run: seq<Action>)
    requires Reachable(w) && w.control.Scheduling? && Legal(w, run) && Turns(run) <= |w.sched.runnable|
    ensures Ran(w, run) == w.sched.runnable[..Turns(run)]
    ensures After(w, run).control.Scheduling? ==> w.sched.runnable[Turns(run)..] <= After(w, run).sched.runnable
  {
    ReachableInv(w);
    var q := w.sched.runnable;
    assert q[0..] == q && q[..0] == [];
    NextKept(q, 0, w, run);
    RanInOrder(q, 0, w, run);
  }

  lemma {:induction false} NextKept(q: seq<nat>, k: nat, w: World, run: seq<Action>)
    requires Alive(w) && Legal(w, run) && Next(q, k, w) && k + Turns(run) <= |q|
    ensures Next(q, k + Turns(run), After(w, run))
    decreases run
  {
    if run != [] {
      ActAlive(w, run[0]);
      if run[0].SwitchIn? {
        SwitchInIsFair(q, k, w);
        NextKept(q, k + 1, Act(w, run[0]), run[1..]);
      } else {
        ActIsFair(q, k, w, run[0]);
        NextKept(q, k, Act(w, run[0]), run[1..]);
      }
    }
  }

  lemma CutFirst(q: seq<nat>, k: nat, n: nat)
    requires 0 < n && k + n <= |q|
    ensures [q[k]] + q[k + 1..k + n] == q[k..k + n]
  {
  }

  lemma {:induction false} RanInOrder(q: seq<nat>, k: nat, w: World, run: seq<Action>)
    requires Alive(w) && Legal(w, run) && Next(q, k, w) && k + Turns(run) <= |q|
    ensures Ran(w, run) == q[k..k + Turns(run)]
    decreases run
  {
    if run != [] {
      ActAlive(w, run[0]);
      if run[0].SwitchIn? {
        SwitchInIsFair(q, k, w);
        RanInOrder(q, k + 1, Act(w, run[0]), run[1..]);
        CutFirst(q, k, Turns(run));
      } else {
        ActIsFair(q, k, w, run[0]);
        RanInOrder(q, k, Act(w, run[0]), run[1..]);
        assert Ran(w, run) == [] + Ran(Act(w, run[0]), run[1..]) == Ran(Act(w, run[0]), run[1..]);
      }
    }
  }

  // ----- dispatch

  // The counted loop of dex_fiber_scheduler_dispatch() stops after as many turns as it saw fibers,
  // or when it finds the queue empty; either way exactly those fibers had a turn, each once.
  lemma DispatchRunsAll(w: World, run: seq<Action>)
    requires Reachable(w) && w.control.Scheduling? && w.sched.runnable != [] && Legal(w, run)
    requires After(w, run).control.Scheduling? && Turns(run) <= |w.sched.runnable|
    requires Turns(run) == |w.sched.runnable| || After(w, run).sched.runnable == []
    ensures Turns(run) == |w.sched.runnable| && Ran(w, run) == w.sched.runnable
  {
    RoundRobin(w, run);
    var q := w.sched.runnable;
    assert q[..|q|] == q;
  }

  // One iteration: the steps from one return to the scheduler to the next, with those of other
  // threads among them.  The iteration finds the queue empty, or gives its head a turn.
  ghost predicate IsIteration(w: World, part: seq<Action>) {
    && Legal(w, part) && After(w, part).control.Scheduling?
    && (Turns(part) == 1 || (Turns(part) == 0 && After(w, part).sched.runnable == []))
  }

  ghost predicate AreIterations(w: World, parts: seq<seq<Action>>)
    decreases parts
  {
    parts == [] || (IsIteration(w, parts[0]) && AreIterations(After(w, parts[0]), parts[1..]))
  }

  // What the loop of dispatch learns of an iteration: who had a turn, if anybody, and the queue
  // that it finds afterwards.
  datatype Visit = Visit(ran: seq<nat>, queue: seq<nat>)

  function Visits(w: World, parts: seq<seq<Action>>): (visits: seq<Visit>)
    requires AreIterations(w, parts)
    ensures |visits| == |parts|
    decreases parts
  {
    if parts == [] then [] else
      [Visit(Ran(w, parts[0]), After(w, parts[0]).sched.runnable)] + Visits(After(w, parts[0]), parts[1..])
  }

  // The fibers of q have the first turns, and those that wait for theirs stay at the head.
  ghost predicate Fair(q: seq<nat>, visits: seq<Visit>)
    decreases visits
  {
    visits == [] || (
      && |visits[0].ran| <= 1
      && (q != [] ==> visits[0].ran == [q[0]] && q[1..] <= visits[0].queue)
      && Fair(if q == [] then [] else q[1..], visits[1..]))
  }

  lemma {:induction false} RunAlive(w: World, run: seq<Action>)
    requires Alive(w) && Legal(w, run)
    ensures Alive(After(w, run)) && |Ran(w, run)| == Turns(run)
    decreases run
  {
    if run != [] {
      ActAlive(w, run[0]);
      RunAlive(Act(w, run[0]), run[1..]);
    }
  }

  lemma IterationIsFair(w: World, part: seq<Action>, q: seq<nat>)
    requires Alive(w) && w.control.Scheduling? && IsIteration(w, part) && q <= w.sched.runnable && q != []
    ensures Ran(w, part) == [q[0]] && q[1..] <= After(w, part).sched.runnable
  {
    assert q[0..] == q && q[0..1] == [q[0]];
    NextKept(q, 0, w, part);
    RanInOrder(q, 0, w, part);
  }

  // Whatever happens in the run, its iterations are fair to the fibers at the head of the queue.
  lemma {:induction false} IterationsAreFair(w: World, parts: seq<seq<Action>>, q: seq<nat>)
    requires Alive(w) && w.control.Scheduling? && AreIterations(w, parts) && q <= w.sched.runnable
    ensures Fair(q, Visits(w, parts))
    decreases parts
  {
    if parts != [] {
      var v := After(w, parts[0]);
      RunAlive(w, parts[0]);
      if q != [] {
        IterationIsFair(w, parts[0], q);
      }
      IterationsAreFair(v, parts[1..], if q == [] then [] else q[1..]);
      assert Visits(w, parts)[1..] == Visits(v, parts[1..]);
    }
  }

  // The counted loop of dex_fiber_scheduler_dispatch().
  method CountedLoop(q: seq<nat>, visits: seq<Visit>) returns (ran: seq<nat>)
    requires Fair(q, visits) && |visits| >= 1 && |visits| >= |q|
    ensures q != [] ==> ran == q
    ensures q == [] ==> |ran| <= 1
  {
    var maxIterations: nat := if |q| > 1 then |q| else 1;
    ghost var n: nat := maxIterations;
    var more, i := true, 0;
    ran := [];
    assert visits[0..] == visits;
    while maxIterations > 0 && more
      invariant i <= n && Fair(if i <= |q| then q[i..] else [], visits[i..])
      invariant if q == [] then |ran| <= i else ran == q[..i]
      invariant if more then maxIterations + i == n else i == n
      decreases maxIterations, if more then 1 else 0
    {
      var visit := visits[i];
      ran := ran + visit.ran;
      more := |visit.ran| > 0 && |visit.queue| > 0;
      if more {
        maxIterations := maxIterations - 1;
      }
      assert visits[i..][0] == visit && visits[i..][1..] == visits[i + 1..];
      assert i < |q| ==> q[i..][1..] == q[i + 1..];
      i := i + 1;
    }
  }

  // A dispatch runs the fibers that are in the queue when it is entered, once each and in order,
  // however the run goes on in its iterations.
  method Dispatch(w: World, parts: seq<seq<Action>>) returns (ran: seq<nat>)
    requires Alive(w) && w.control.Scheduling? && AreIterations(w, parts)
    requires |parts| >= 1 && |parts| >= |w.sched.runnable|
    ensures w.sched.runnable != [] ==> ran == w.sched.runnable
    ensures w.sched.runnable == [] ==> |ran| <= 1
  {
    IterationsAreFair(w, parts, w.sched.runnable);
    ran := CountedLoop(w.sched.runnable, Visits(w, parts));
  }
}
