/** No wakeup is lost: what every step of the fibers and their scheduler keeps. */
module FiberSafety {
  import opened Common
  import opened Fibers

  // ----- the queues

  // Each fiber is in exactly the queue that its field names, once.
  ghost predicate QueuesOk(s: Sched) {
    && NoDup(s.runnable) && NoDup(s.blocked)
    && (forall f: nat :: f in s.runnable <==> f < |s.fibers| && s.fibers[f].queue == Runnable)
    && (forall f: nat :: f in s.blocked <==> f < |s.fibers| && s.fibers[f].queue == Blocked)
  }

  // A queue after the fiber left it or joined it.
  lemma RequeuedOk(list: seq<nat>, f: nat, was: bool, joins: bool)
    requires NoDup(list) && (f in list <==> was) && !(was && joins)
    ensures var r := Requeued(list, f, was, joins);
            && NoDup(r) && (f in r <==> joins)
            && forall g :: g != f ==> (g in r <==> g in list)
  {
    WithoutNoDup(list, f);
  }

  lemma SetQueueOk(s: Sched, f: nat, q: Queue)
    requires QueuesOk(s) && f < |s.fibers|
    ensures QueuesOk(SetQueue(s, f, q))
  {
    var was := s.fibers[f].queue;
    if was != q {
      RequeuedOk(s.runnable, f, was == Runnable, q == Runnable);
      RequeuedOk(s.blocked, f, was == Blocked, q == Blocked);
    }
  }

  lemma WithOk(s: Sched, f: nat, fiber: Fiber)
    requires QueuesOk(s) && f < |s.fibers| && fiber.queue == s.fibers[f].queue
    ensures QueuesOk(With(s, f, fiber))
  {
  }

  lemma RegisteredOk(s: Sched)
    requires QueuesOk(s)
    ensures QueuesOk(Registered(s))
  {
    var t := s.(fibers := s.fibers + [NEW_FIBER.(runnable := true)]);
    assert QueuesOk(t);
    SetQueueOk(t, |s.fibers|, Runnable);
  }

  lemma DiscardedOk(s: Sched, f: nat)
    requires QueuesOk(s) && f < |s.fibers|
    ensures QueuesOk(Discarded(s, f))
  {
    var t := With(s, f, s.fibers[f].(cancelled := true));
    WithOk(s, f, s.fibers[f].(cancelled := true));
    SetQueueOk(t, f, Runnable);
  }

  lemma PropagatedOk(s: Sched, f: nat)
    requires QueuesOk(s) && f < |s.fibers|
    ensures QueuesOk(Propagated(s, f))
  {
    var fiber := s.fibers[f].(runnable := true);
    WithOk(s, f, fiber);
    SetQueueOk(With(s, f, fiber), f, Runnable);
  }

  lemma AwaitBegunOk(s: Sched, f: nat)
    requires QueuesOk(s) && f < |s.fibers|
    ensures QueuesOk(AwaitBegun(s, f))
  {
    var fiber := s.fibers[f].(runnable := false);
    WithOk(s, f, fiber);
    SetQueueOk(With(s, f, fiber), f, Blocked);
  }

  lemma YieldedOk(s: Sched, f: nat)
    requires QueuesOk(s) && f in s.runnable
    ensures QueuesOk(Yielded(s, f))
  {
    WithoutNoDup(s.runnable, f);
  }

  lemma ReturnedOk(s: Sched, f: nat)
    requires QueuesOk(s) && f < |s.fibers|
    ensures QueuesOk(Returned(s, f))
  {
    var fiber := s.fibers[f].(released := true);
    WithOk(s, f, fiber);
    SetQueueOk(With(s, f, fiber), f, NoQueue);
  }

  // ----- control and life

  // What holds in every run, late notices or not: control is in a fiber that lives, a fiber in its
  // own code is in the runnable queue, and only a fiber that is released is in none.
  ghost predicate LifeOk(c: Control, f: nat, b: Fiber) {
    && (b.released ==> b.exited && (c.Scheduling? || c.fiber != f))
    && (b.released <==> b.queue == NoQueue)
    && (b.exited ==> b.released || c == Leaving(f))
    && ((c.Executing? || c.Resuming? || (c.Leaving? && b.exited)) && c.fiber == f ==> b.queue == Runnable)
  }

  ghost predicate Alive(w: World) {
    && Sized(w) && QueuesOk(w.sched)
    && w.sched.running == (if w.control.Scheduling? then None else Some(w.control.fiber))
    && forall f :: 0 <= f < |w.sched.fibers| ==> LifeOk(w.control, f, w.sched.fibers[f])
  }

  lemma QueuesStay(w: World, a: Action)
    requires Alive(w) && Enabled(w, a)
    ensures QueuesOk(Act(w, a).sched)
  {
    match a
    case Await(_) => AwaitBegunOk(w.sched, w.control.fiber);
    case Chain => PropagatedOk(w.sched, w.control.fiber);
    case Yield =>
      assert LifeOk(w.control, w.control.fiber, w.sched.fibers[w.control.fiber]);
      YieldedOk(w.sched, w.control.fiber);
    case Exit => WithOk(w.sched, w.control.fiber, w.sched.fibers[w.control.fiber].(exited := true));
    case SwitchBack => ReturnedOk(w.sched, w.control.fiber);
    case Register => RegisteredOk(w.sched);
    case Discard(f) => DiscardedOk(w.sched, f);
    case Notify(f, _) => PropagatedOk(w.sched, f);
    case _ =>
  }

  lemma LifeStaysInside(w: World, a: Action, f: nat)
    requires Alive(w) && Enabled(w, a) && f < |w.sched.fibers|
    requires a.Resume? || a.Await? || a.Chain? || a.Yield? || a.Exit? || a.SwitchBack?
    ensures LifeOk(Act(w, a).control, f, Act(w, a).sched.fibers[f])
  {
    assert LifeOk(w.control, f, w.sched.fibers[f]);
    assert LifeOk(w.control, w.control.fiber, w.sched.fibers[w.control.fiber]);
  }

  lemma LifeStaysOutside(w: World, a: Action, f: nat)
    requires Alive(w) && Enabled(w, a) && (a.Register? || a.Discard? || a.Complete? || a.Notify?)
    requires f < |Act(w, a).sched.fibers|
    ensures LifeOk(w.control, f, Act(w, a).sched.fibers[f])
  {
    if f < |w.sched.fibers| {
      assert LifeOk(w.control, f, w.sched.fibers[f]);
    }
  }

  // Other threads do not move the scheduler's thread.
  lemma ControlStays(w: World, a: Action)
    requires Enabled(w, a) && (a.Register? || a.Discard? || a.Complete? || a.Notify?)
    ensures Act(w, a).control == w.control && Act(w, a).sched.running == w.sched.running
  {
  }

  lemma LifeStays(w: World, a: Action, f: nat)
    requires Alive(w) && Enabled(w, a) && f < |Act(w, a).sched.fibers|
    ensures LifeOk(Act(w, a).control, f, Act(w, a).sched.fibers[f])
  {
    if a.SwitchIn? {
      var g := w.sched.runnable[0];
      assert g in w.sched.runnable;
      assert LifeOk(w.control, f, w.sched.fibers[f]) && LifeOk(w.control, g, w.sched.fibers[g]);
    } else if a.Register? || a.Discard? || a.Complete? || a.Notify? {
      LifeStaysOutside(w, a, f);
      ControlStays(w, a);
    } else {
      LifeStaysInside(w, a, f);
    }
  }

  lemma SizedStays(w: World, a: Action)
    requires Alive(w) && Enabled(w, a)
    ensures Sized(Act(w, a))
    ensures var v := Act(w, a);
            v.sched.running == (if v.control.Scheduling? then None else Some(v.control.fiber))
  {
  }

  lemma ActAlive(w: World, a: Action)
    requires Alive(w) && Enabled(w, a)
    ensures Alive(Act(w, a))
  {
    SizedStays(w, a);
    QueuesStay(w, a);
    forall f | 0 <= f < |Act(w, a).sched.fibers|
      ensures LifeOk(Act(w, a).control, f, Act(w, a).sched.fibers[f])
    {
      LifeStays(w, a, f);
    }
  }

  // ----- the flags, while no notice came late

  function BlockedUnlessCancelled(b: Fiber): Queue {
    if b.cancelled then Runnable else Blocked
  }

  // One registration, on the pending future that is awaited.
  ghost predicate HasRegistration(b: Fiber, t: Task, done: set<nat>) {
    && |t.waits| == 1 && t.notices == [] && t.waits[0] !in done && t.frame == Awaiting(t.waits[0], false)
    && !b.runnable && b.queue == BlockedUnlessCancelled(b)
  }

  // One notice.  It finds the fiber still in the await it was registered in, or in its own code
  // since it was cancelled, or else it will be late.
  ghost predicate HasNotice(b: Fiber, t: Task, done: set<nat>) {
    && t.waits == [] && |t.notices| == 1 && t.notices[0] <= t.awaits
    && if t.notices[0] < t.awaits then b.runnable && b.cancelled && b.queue == Runnable
       else
         && !b.runnable && b.queue == BlockedUnlessCancelled(b)
         && if t.frame.Plain? then b.cancelled else t.frame.future in done && !t.frame.saw
  }

  ghost predicate Free(b: Fiber, t: Task) {
    t.waits == [] && t.notices == [] && b.queue == Runnable && (b.runnable || b.cancelled)
  }

  ghost predicate Settled(b: Fiber, t: Task, done: set<nat>) {
    Free(b, t) || HasRegistration(b, t, done) || HasNotice(b, t, done)
  }

  // Between the two parts of an await.
  ghost predicate InTheMiddle(b: Fiber, t: Task, saw: bool) {
    && !b.runnable && t.waits == [] && (saw ==> b.cancelled)
    && b.queue == (if b.cancelled && !saw then Runnable else Blocked)
    && (t.notices == [] || (saw && |t.notices| == 1 && t.notices[0] < t.awaits))
  }

  ghost predicate Gone(t: Task) {
    t.waits == [] && |t.notices| <= 1
  }

  ghost predicate FlagsOk(c: Control, f: nat, b: Fiber, t: Task, done: set<nat>) {
    if b.exited then Gone(t)
    else if c.Scheduling? || c.fiber != f then Settled(b, t, done)
    else match c
      case Executing(_) => Settled(b, t, done) && t.frame == Plain
      case Chaining(_, _, saw) => InTheMiddle(b, t, saw)
      case Leaving(_) => Settled(b, t, done)
      case Resuming(_, x, saw) => Settled(b, t, done) && t.frame == Awaiting(x, saw)
  }

  ghost predicate AllFlagsOk(w: World) {
    && Sized(w)
    && forall f :: 0 <= f < |w.tasks| ==> FlagsOk(w.control, f, w.sched.fibers[f], w.tasks[f], w.done)
  }

  // The next step fails: a notice made the fiber runnable between the two parts of its await.
  ghost predicate Doomed(w: World) {
    && w.control.Chaining? && w.control.saw
    && w.control.fiber < |w.sched.fibers| && w.sched.fibers[w.control.fiber].runnable
  }

  // No assertion has failed before the first late notice, and then one fails at once, or at the
  // next step of the fiber.
  ghost predicate Inv(w: World) {
    && Alive(w)
    && if w.late then w.failed || Doomed(w) else !w.failed && AllFlagsOk(w)
  }

  // ----- the steps of the scheduler's thread

  // A step of one fiber leaves the others as they are.
  lemma OnlyOne(w: World, v: World, f: nat)
    requires AllFlagsOk(w) && Sized(v) && |v.tasks| == |w.tasks| && v.done == w.done && f < |w.tasks|
    requires w.control.Scheduling? || w.control.fiber == f
    requires v.control.Scheduling? || v.control.fiber == f
    requires forall g :: 0 <= g < |w.tasks| && g != f ==>
               v.sched.fibers[g] == w.sched.fibers[g] && v.tasks[g] == w.tasks[g]
    requires FlagsOk(v.control, f, v.sched.fibers[f], v.tasks[f], v.done)
    ensures AllFlagsOk(v)
  {
    forall g | 0 <= g < |v.tasks|
      ensures FlagsOk(v.control, g, v.sched.fibers[g], v.tasks[g], v.done)
    {
      assert FlagsOk(w.control, g, w.sched.fibers[g], w.tasks[g], w.done);
    }
  }

  ghost predicate Fine(w: World) {
    Alive(w) && AllFlagsOk(w)
  }

  lemma SwitchInFine(w: World)
    requires Fine(w) && Enabled(w, SwitchIn)
    ensures AllFlagsOk(Act(w, SwitchIn))
  {
    var f := w.sched.runnable[0];
    assert f in w.sched.runnable;
    assert LifeOk(w.control, f, w.sched.fibers[f]);
    assert FlagsOk(w.control, f, w.sched.fibers[f], w.tasks[f], w.done);
    OnlyOne(w, Act(w, SwitchIn), f);
  }

  lemma WithoutOnly(s: seq<nat>, x: nat)
    requires s == [] || s == [x]
    ensures Without(s, x) == []
  {
  }

  lemma ResumeFine(w: World)
    requires Fine(w) && Enabled(w, Resume)
    ensures AllFlagsOk(Act(w, Resume))
  {
    var f := w.control.fiber;
    assert LifeOk(w.control, f, w.sched.fibers[f]);
    assert FlagsOk(w.control, f, w.sched.fibers[f], w.tasks[f], w.done);
    if w.tasks[f].waits != [] {
      assert w.tasks[f].waits == [w.control.future];
    }
    WithoutOnly(w.tasks[f].waits, w.control.future);
    OnlyOne(w, Act(w, Resume), f);
  }

  lemma AwaitFine(w: World, x: nat)
    requires Fine(w) && Enabled(w, Await(x))
    ensures AllFlagsOk(Act(w, Await(x)))
  {
    var f := w.control.fiber;
    assert LifeOk(w.control, f, w.sched.fibers[f]);
    assert FlagsOk(w.control, f, w.sched.fibers[f], w.tasks[f], w.done);
    OnlyOne(w, Act(w, Await(x)), f);
  }

  lemma ChainFits(w: World)
    requires Fine(w) && Enabled(w, Chain)
    ensures var f, v := w.control.fiber, Act(w, Chain);
            FlagsOk(v.control, f, v.sched.fibers[f], v.tasks[f], v.done) && v.failed == w.failed
  {
    var f := w.control.fiber;
    assert LifeOk(w.control, f, w.sched.fibers[f]);
    assert FlagsOk(w.control, f, w.sched.fibers[f], w.tasks[f], w.done);
  }

  lemma ChainFine(w: World)
    requires Fine(w) && Enabled(w, Chain)
    ensures AllFlagsOk(Act(w, Chain)) && Act(w, Chain).failed == w.failed
  {
    ChainFits(w);
    OnlyOne(w, Act(w, Chain), w.control.fiber);
  }

  lemma YieldFine(w: World)
    requires Fine(w) && Enabled(w, Yield)
    ensures AllFlagsOk(Act(w, Yield)) && Act(w, Yield).failed == w.failed
  {
    var f := w.control.fiber;
    assert LifeOk(w.control, f, w.sched.fibers[f]);
    assert FlagsOk(w.control, f, w.sched.fibers[f], w.tasks[f], w.done);
    OnlyOne(w, Act(w, Yield), f);
  }

  lemma ExitFine(w: World)
    requires Fine(w) && Enabled(w, Exit)
    ensures AllFlagsOk(Act(w, Exit))
  {
    var f := w.control.fiber;
    assert LifeOk(w.control, f, w.sched.fibers[f]);
    assert FlagsOk(w.control, f, w.sched.fibers[f], w.tasks[f], w.done);
    OnlyOne(w, Act(w, Exit), f);
  }

  lemma SwitchBackFine(w: World)
    requires Fine(w) && Enabled(w, SwitchBack)
    ensures AllFlagsOk(Act(w, SwitchBack))
  {
    var f := w.control.fiber;
    assert LifeOk(w.control, f, w.sched.fibers[f]);
    assert FlagsOk(w.control, f, w.sched.fibers[f], w.tasks[f], w.done);
    OnlyOne(w, Act(w, SwitchBack), f);
  }

  // ----- the steps of other threads

  lemma RegisterFine(w: World)
    requires Fine(w)
    ensures AllFlagsOk(Act(w, Register))
  {
    var v := Act(w, Register);
    forall g | 0 <= g < |v.tasks|
      ensures FlagsOk(v.control, g, v.sched.fibers[g], v.tasks[g], v.done)
    {
      if g < |w.tasks| {
        assert FlagsOk(w.control, g, w.sched.fibers[g], w.tasks[g], w.done);
      }
    }
  }

  lemma DiscardFits(w: World, f: nat)
    requires Fine(w) && Enabled(w, Discard(f))
    ensures FlagsOk(w.control, f, Discarded(w.sched, f).fibers[f], w.tasks[f], w.done)
  {
    assert FlagsOk(w.control, f, w.sched.fibers[f], w.tasks[f], w.done);
  }

  lemma DiscardFine(w: World, f: nat)
    requires Fine(w) && Enabled(w, Discard(f))
    ensures AllFlagsOk(Act(w, Discard(f)))
  {
    DiscardFits(w, f);
    var v := Act(w, Discard(f));
    forall g | 0 <= g < |v.tasks|
      ensures FlagsOk(v.control, g, v.sched.fibers[g], v.tasks[g], v.done)
    {
      assert FlagsOk(w.control, g, w.sched.fibers[g], w.tasks[g], w.done);
    }
  }

  lemma {:induction false} WithoutOther(s: seq<nat>, x: nat)
    requires x !in s
    ensures Without(s, x) == s
  {
    if s != [] {
      WithoutOther(s[1..], x);
      assert s == [s[0]] + s[1..];
    }
  }

  // A registration becomes a notice of the await it was made in.
  lemma ToldOk(c: Control, f: nat, b: Fiber, t: Task, done: set<nat>, x: nat)
    requires FlagsOk(c, f, b, t, done)
    ensures FlagsOk(c, f, b, Told(t, x), done + {x})
    ensures if x in t.waits then Told(t, x) == t.(waits := [], notices := [t.awaits]) else Told(t, x) == t
  {
    if x in t.waits {
      assert t.waits == [x];
      WithoutOnly(t.waits, x);
      assert Told(t, x).notices == [t.awaits];
    } else {
      WithoutOther(t.waits, x);
      assert Told(t, x).notices == t.notices;
    }
  }

  lemma CompleteFine(w: World, x: nat)
    requires Fine(w)
    ensures AllFlagsOk(Completes(w, x))
  {
    var v := Completes(w, x);
    forall g | 0 <= g < |v.tasks|
      ensures FlagsOk(v.control, g, v.sched.fibers[g], v.tasks[g], v.done)
    {
      ToldOk(w.control, g, w.sched.fibers[g], w.tasks[g], w.done, x);
    }
  }

  // A notice that is not late wakes the fiber, if it is not gone.
  lemma NotifyWakes(w: World, f: nat, i: nat)
    requires Fine(w) && Enabled(w, Notify(f, i)) && !Late(w, f, i)
    ensures var v := Act(w, Notify(f, i));
            FlagsOk(v.control, f, v.sched.fibers[f], v.tasks[f], v.done) && v.failed == w.failed
    ensures !w.sched.fibers[f].released ==> f in Act(w, Notify(f, i)).sched.runnable
  {
    assert LifeOk(w.control, f, w.sched.fibers[f]);
    assert FlagsOk(w.control, f, w.sched.fibers[f], w.tasks[f], w.done);
    assert Act(w, Notify(f, i)).tasks[f].notices == [];
    PropagatedOk(w.sched, f);
  }

  lemma NotifyFine(w: World, f: nat, i: nat)
    requires Fine(w) && Enabled(w, Notify(f, i)) && !Late(w, f, i)
    ensures AllFlagsOk(Act(w, Notify(f, i))) && Act(w, Notify(f, i)).failed == w.failed
  {
    NotifyWakes(w, f, i);
    var v := Act(w, Notify(f, i));
    forall g | 0 <= g < |v.tasks|
      ensures FlagsOk(v.control, g, v.sched.fibers[g], v.tasks[g], v.done)
    {
      assert FlagsOk(w.control, g, w.sched.fibers[g], w.tasks[g], w.done);
    }
  }

  // ----- late notices

  // A late notice fails the assertion, unless it finds the fiber between the two parts of an await.
  lemma LateNotifyFails(w: World, f: nat, i: nat)
    requires Fine(w) && Enabled(w, Notify(f, i)) && Late(w, f, i)
    ensures Act(w, Notify(f, i)).failed || Doomed(Act(w, Notify(f, i)))
  {
    assert FlagsOk(w.control, f, w.sched.fibers[f], w.tasks[f], w.done);
  }

  lemma DoomedFails(w: World, a: Action)
    requires Alive(w) && Doomed(w) && Enabled(w, a)
    ensures Act(w, a).failed || Doomed(Act(w, a))
  {
    assert LifeOk(w.control, w.control.fiber, w.sched.fibers[w.control.fiber]);
  }

  // ----- every step and every run

  lemma ActFine(w: World, a: Action)
    requires Fine(w) && !w.failed && Enabled(w, a) && (a.Notify? ==> !Late(w, a.fiber, a.i))
    ensures AllFlagsOk(Act(w, a)) && !Act(w, a).failed
  {
    match a
    case SwitchIn => SwitchInFine(w);
    case Resume => ResumeFine(w);
    case Await(x) => AwaitFine(w, x);
    case Chain => ChainFine(w);
    case Yield => YieldFine(w);
    case Exit => ExitFine(w);
    case SwitchBack => SwitchBackFine(w);
    case Register => RegisterFine(w);
    case Discard(f) => DiscardFine(w, f);
    case Complete(x) => CompleteFine(w, x);
    case Notify(f, i) => NotifyFine(w, f, i);
  }

  lemma ActInv(w: World, a: Action)
    requires Inv(w) && Enabled(w, a)
    ensures Inv(Act(w, a))
  {
    ActAlive(w, a);
    if w.late {
      if !w.failed {
        DoomedFails(w, a);
      }
    } else if a.Notify? && Late(w, a.fiber, a.i) {
      LateNotifyFails(w, a.fiber, a.i);
    } else {
      ActFine(w, a);
    }
  }

  lemma {:induction false} RunInv(w: World, run: seq<Action>)
    requires Inv(w) && Legal(w, run)
    ensures Inv(After(w, run))
    decreases run
  {
    if run != [] {
      ActInv(w, run[0]);
      RunInv(Act(w, run[0]), run[1..]);
    }
  }
}
