/** What dex_unref() and the weak-to-strong upgrade guarantee in every run, and what not. */
module WeakRefTheorems {
  import opened Common
  import opened RefLedger
  import opened WeakRefs
  import opened WeakRefSafety

  ghost predicate Legal(s: State, run: seq<Action>)
    decreases |run|
  {
    run == [] || (MayAct(s, run[0]) && Legal(Act(s, run[0]), run[1..]))
  }

  ghost function After(s: State, run: seq<Action>): State
    requires Legal(s, run)
    decreases |run|
  {
    if run == [] then s else After(Act(s, run[0]), run[1..])
  }

  // Every thread has left the object alone.
  ghost predicate Quiescent(s: State) {
    forall t :: t in s.pc ==> s.pc[t].Idle?
  }

  lemma {:induction false} RunSafe(s: State, run: seq<Action>)
    requires Safe(s) && Legal(s, run)
    ensures Safe(After(s, run))
    decreases |run|
  {
    if run != [] {
      ActSafe(s, run[0]);
      RunSafe(Act(s, run[0]), run[1..]);
    }
  }

  lemma ReachableSafe(t: Thread, run: seq<Action>)
    requires Legal(Start(t), run)
    ensures Safe(After(Start(t), run))
  {
    InitInv(t);
    RunSafe(Start(t), run);
  }

  // Finalize is never reached while anybody owns a reference, or can still obtain one.
  lemma FinalizedMeansUnowned(t: Thread, run: seq<Action>)
    requires Legal(Start(t), run)
    ensures var s := After(Start(t), run);
            s.ledger.past.cleared ==>
              && s.ledger.count == 0 && s.ledger.refs == multiset{}
              && (forall u :: u in s.pc ==> !s.pc[u].WeakAdd? && !(s.pc[u].WeakUnlock? && s.pc[u].got))
    ensures var s := After(Start(t), run); s.ledger.past.finalizers != [] ==> s.ledger.past.cleared
  {
    ReachableSafe(t, run);
    var s := After(Start(t), run);
    if s.ledger.past.cleared {
      assert s.ledger.refs == multiset{};
      assert forall u :: u in s.pc ==> LedgerTie(s.ledger, u, s.pc[u]);
    }
  }

  // However a run goes on once the weak list was stolen, the watermark stands still, and every
  // upgrade finds NULL.
  lemma UpgradesFailOnceCleared(t: Thread, run: seq<Action>, more: seq<Action>)
    requires Legal(Start(t), run) && After(Start(t), run).ledger.past.cleared
    requires Legal(After(Start(t), run), more)
    ensures var s := After(Start(t), run);
            Revoked(After(s, more)) && After(s, more).ledger.epoch == s.ledger.epoch
  {
    ReachableSafe(t, run);
    StaysCleared(After(Start(t), run), more);
    ClearedIsRevoked(After(After(Start(t), run), more));
  }

  // The object is at zero, and a thread that looks into a weak reference leaves without it.
  ghost predicate Revoked(s: State) {
    && s.ledger.past.cleared && s.ledger.count == 0
    && forall u :: u in s.pc && s.pc[u].WeakBump? ==> NextPc(s, s.pc[u]) == WeakUnlock(s.pc[u].w, s.pc[u].why, false)
  }

  lemma LooksInVain(s: State, u: Thread)
    requires Safe(s) && s.ledger.past.cleared && u in s.pc && s.pc[u].WeakBump?
    ensures NextPc(s, s.pc[u]) == WeakUnlock(s.pc[u].w, s.pc[u].why, false)
  {
    NoUpgradeOnceCleared(s, u);
  }

  lemma ClearedIsRevoked(s: State)
    requires Safe(s) && s.ledger.past.cleared
    ensures Revoked(s)
  {
    forall u | u in s.pc && s.pc[u].WeakBump?
      ensures NextPc(s, s.pc[u]) == WeakUnlock(s.pc[u].w, s.pc[u].why, false)
    {
      LooksInVain(s, u);
    }
  }

  lemma {:induction false} StaysCleared(s: State, more: seq<Action>)
    requires Safe(s) && s.ledger.past.cleared && Legal(s, more)
    ensures Safe(After(s, more)) && After(s, more).ledger.past.cleared
    ensures After(s, more).ledger.epoch == s.ledger.epoch
    decreases |more|
  {
    if more != [] {
      ActSafe(s, more[0]);
      ClearedStays(s, more[0]);
      StaysCleared(Act(s, more[0]), more[1..]);
    }
  }

  lemma ClearedStays(s: State, a: Action)
    requires Safe(s) && s.ledger.past.cleared && MayAct(s, a)
    ensures Act(s, a).ledger.past.cleared && Act(s, a).ledger.epoch == s.ledger.epoch
  {
    assert s.ledger.refs == multiset{};
    if a.Advance? && NextEntry(s, a.t).Some? {
      NextEnabled(s, a.t);
      FrozenOnceCleared(s.ledger, NextEntry(s, a.t).value);
    }
  }

  // Unless a decrement to zero overlaps the two halves of an upgrade, finalize runs at most once.
  lemma AtMostOnce(t: Thread, run: seq<Action>)
    requires Legal(Start(t), run) && !After(Start(t), run).ledger.past.overlap
    ensures |After(Start(t), run).ledger.past.finalizers| <= 1
  {
    ReachableSafe(t, run);
    FinalizesAtMostOnce(After(Start(t), run).ledger);
  }

  lemma QuiescentLedger(s: State)
    requires Safe(s) && Quiescent(s)
    ensures s.ledger.claims == map[] && s.ledger.passed == {} && s.ledger.mid == map[]
  {
    forall u ensures u !in s.ledger.claims && u !in s.ledger.mid && u !in s.ledger.passed {
      assert u in s.pc ==> LedgerTie(s.ledger, u, s.pc[u]);
    }
  }

  // In general it runs once for every thread that held a current claim when the first thread
  // passed both tests; so it runs once if and only if there was one such thread.
  lemma OncePerClaimant(t: Thread, run: seq<Action>)
    requires Legal(Start(t), run)
    ensures var s := After(Start(t), run);
            Quiescent(s) && s.ledger.past.cleared ==>
              && |s.ledger.past.finalizers| == |s.ledger.past.claimants| >= 1
              && (|s.ledger.past.finalizers| <= 1 <==> |s.ledger.past.claimants| == 1)
  {
    ReachableSafe(t, run);
    var s := After(Start(t), run);
    if Quiescent(s) && s.ledger.past.cleared {
      QuiescentLedger(s);
      FinalizersAreClaimants(s.ledger);
    }
  }

  // The object is finalized exactly if the latest decrement to zero used a current watermark;
  // otherwise it leaks.
  lemma FinalizedExactlyIfFresh(t: Thread, run: seq<Action>)
    requires Legal(Start(t), run)
    ensures var s := After(Start(t), run);
            Quiescent(s) && s.ledger.count == 0 ==>
              (s.ledger.past.finalizers != [] <==> s.ledger.past.lastFresh)
  {
    ReachableSafe(t, run);
    var s := After(Start(t), run);
    if Quiescent(s) && s.ledger.count == 0 {
      QuiescentLedger(s);
      FinalizedIffFresh(s.ledger);
    }
  }

  // ----- no deadlock

  // A thread inside an upgrade never waits, and neither does one that holds the mutex of the object,
  // unless for such a thread.
  lemma HolderCanAdvance(s: State, u: Thread) returns (v: Thread)
    requires Exclusive(s) && NoDup(s.list) && u in s.pc && HoldsObject(s.pc[u])
    ensures MayAct(s, Advance(v))
  {
    v := u;
    if Blocked(s, u) {
      var w := s.list[s.pc[u].k];
      v := WeakHolderCanAdvance(s, u, w);
    }
  }

  lemma WeakHolderCanAdvance(s: State, u: Thread, w: Weak) returns (v: Thread)
    requires u in s.pc && WeakLocked(s, w) && !HoldsWeak(s.list, s.pc[u], w)
    requires forall v :: v in s.pc && HoldsObject(s.pc[v]) ==> v == u
    ensures MayAct(s, Advance(v))
  {
    v :| v in s.pc && HoldsWeak(s.list, s.pc[v], w);
  }

  // While any thread is inside a call, some thread can go on.
  lemma NoDeadlock(t: Thread, run: seq<Action>, u: Thread) returns (v: Thread)
    requires Legal(Start(t), run) && u in After(Start(t), run).pc && !After(Start(t), run).pc[u].Idle?
    ensures MayAct(After(Start(t), run), Advance(v))
  {
    ReachableSafe(t, run);
    v := SomebodyCanAdvance(After(Start(t), run), u);
  }

  lemma SomebodyCanAdvance(s: State, u: Thread) returns (v: Thread)
    requires Exclusive(s) && NoDup(s.list) && u in s.pc && !s.pc[u].Idle?
    ensures MayAct(s, Advance(v))
  {
    if h :| h in s.pc && HoldsObject(s.pc[h]) {
      v := HolderCanAdvance(s, h);
    } else if Blocked(s, u) {
      v := WeakHolderCanAdvance(s, u, s.pc[u].w);
    } else {
      v := u;
    }
  }

  // ----- the watermark wraps around

  // Once the watermark has wrapped, nobody passes both tests and nobody finalizes: a stale watermark
  // that matches again by chance does no harm.
  lemma NoFinalizeAfterWrap(t: Thread, run: seq<Action>)
    requires Legal(Start(t), run)
    ensures var l := After(Start(t), run).ledger;
            l.epoch >= MODULUS ==> !l.past.cleared && l.past.finalizers == []
  {
    ReachableSafe(t, run);
  }

  // The upgrade that wraps it adds a reference that nobody owns, and the count never reaches zero
  // again.
  lemma ImmortalForGood(t: Thread, run: seq<Action>, more: seq<Action>)
    requires Legal(Start(t), run) && Legal(After(Start(t), run), more)
    requires After(Start(t), run).ledger.immortal > 0
    ensures After(After(Start(t), run), more).ledger.count > 0
  {
    ReachableSafe(t, run);
    StaysImmortal(After(Start(t), run), more);
  }

  lemma ImmortalStep(s: State, a: Action)
    requires MayAct(s, a)
    ensures Act(s, a).ledger.immortal >= s.ledger.immortal
  {
    if a.Advance? && NextEntry(s, a.t).Some? {
      ImmortalGrows(s.ledger, NextEntry(s, a.t).value);
    }
  }

  lemma {:induction false} StaysImmortal(s: State, more: seq<Action>)
    requires Safe(s) && s.ledger.immortal > 0 && Legal(s, more)
    ensures After(s, more).ledger.count > 0
    decreases |more|
  {
    if more != [] {
      ActSafe(s, more[0]);
      ImmortalStep(s, more[0]);
      StaysImmortal(Act(s, more[0]), more[1..]);
    }
  }

  // And it does wrap the count: when no upgrade is half done, a wrapped watermark means an immortal
  // reference.
  lemma WrappedMeansImmortal(t: Thread, run: seq<Action>)
    requires Legal(Start(t), run)
    ensures var l := After(Start(t), run).ledger;
            l.epoch >= MODULUS && l.mid == map[] ==> l.immortal > 0 && l.count > 0
  {
    ReachableSafe(t, run);
  }

  // ----- who owns how many references

  // What an action does to the references that u owns: dex_ref(), handing over, the decrement of
  // dex_unref() and the increment of an upgrade.
  function Gained(s: State, a: Action, u: Thread): int
    requires a.Advance? ==> a.t in s.pc
  {
    match a
    case Arrive(_) => 0
    case Copy(t) => if t == u then 1 else 0
    case HandOver(t, to) => (if to == u then 1 else 0) - (if t == u then 1 else 0)
    case BeginUnref(_) => 0
    case BeginWeak(_, _, _) => 0
    case Advance(t) => if t != u then 0 else if s.pc[t].WeakAdd? then 1 else if s.pc[t].Drop? then -1 else 0
  }

  ghost function GainedAlong(s: State, run: seq<Action>, u: Thread): int
    requires Legal(s, run)
    decreases |run|
  {
    if run == [] then 0 else Gained(s, run[0], u) + GainedAlong(Act(s, run[0]), run[1..], u)
  }

  function EntryGains(e: Entry, u: Thread): int {
    match e
    case Ref(t) => if t == u then 1 else 0
    case Give(t, to) => (if to == u then 1 else 0) - (if t == u then 1 else 0)
    case Decrement(t) => if t == u then -1 else 0
    case Add(t) => if t == u then 1 else 0
    case _ => 0
  }

  lemma ApplyGains(l: Ledger, e: Entry, u: Thread)
    requires (e.Give? || e.Decrement?) ==> e.t in l.refs
    ensures Apply(l, e).refs[u] == l.refs[u] + EntryGains(e, u)
  {
  }

  // What the next step of a thread enters into the ledger.
  lemma NextEntryGains(s: State, t: Thread, u: Thread)
    requires t in s.pc
    ensures Gained(s, Advance(t), u) == if NextEntry(s, t).Some? then EntryGains(NextEntry(s, t).value, u) else 0
    ensures NextEntry(s, t).Some? && (NextEntry(s, t).value.Give? || NextEntry(s, t).value.Decrement?) ==>
              s.pc[t].Drop? && NextEntry(s, t).value.t == t
  {
  }

  lemma NextGains(s: State, t: Thread, u: Thread)
    requires t in s.pc && !s.pc[t].Idle? && (s.pc[t].Drop? ==> t in s.ledger.refs)
    ensures Record(s.ledger, NextEntry(s, t)).refs[u] == s.ledger.refs[u] + Gained(s, Advance(t), u)
  {
    NextEntryGains(s, t, u);
    if NextEntry(s, t).Some? {
      ApplyGains(s.ledger, NextEntry(s, t).value, u);
    }
  }

  lemma DropperOwns(s: State, t: Thread)
    requires Safe(s) && t in s.pc && s.pc[t].Drop?
    ensures t in s.ledger.refs
  {
    assert LedgerTie(s.ledger, t, s.pc[t]);
  }

  lemma StepGains(s: State, a: Action, u: Thread)
    requires Safe(s) && MayAct(s, a)
    ensures Act(s, a).ledger.refs[u] == s.ledger.refs[u] + Gained(s, a, u)
  {
    if a.Advance? && s.pc[a.t].Drop? {
      DropperOwns(s, a.t);
    }
    ActGains(s, a, u);
  }

  lemma ActGains(s: State, a: Action, u: Thread)
    requires a.Advance? ==> a.t in s.pc && !s.pc[a.t].Idle? && (s.pc[a.t].Drop? ==> a.t in s.ledger.refs)
    requires a.HandOver? ==> a.t in s.ledger.refs
    ensures Act(s, a).ledger.refs[u] == s.ledger.refs[u] + Gained(s, a, u)
  {
    match a
    case Copy(t) => ApplyGains(s.ledger, Ref(t), u);
    case HandOver(t, to) => ApplyGains(s.ledger, Give(t, to), u);
    case Advance(t) => NextGains(s, t, u);
    case _ =>
  }

  lemma {:induction false} RunGains(s: State, run: seq<Action>, u: Thread)
    requires Safe(s) && Legal(s, run)
    ensures After(s, run).ledger.refs[u] == s.ledger.refs[u] + GainedAlong(s, run, u)
    decreases |run|
  {
    if run != [] {
      ActSafe(s, run[0]);
      StepGains(s, run[0], u);
      RunGains(Act(s, run[0]), run[1..], u);
    }
  }

  // In every run a thread owns what it was given, copied and obtained from weak references, less what
  // it dropped and gave away; the count is what all threads own, and what nobody owns since the
  // watermark wrapped.
  lemma ReferencesAddUp(t: Thread, run: seq<Action>, u: Thread)
    requires Legal(Start(t), run)
    ensures var l := After(Start(t), run).ledger;
            && l.refs[u] == (if u == t then 1 else 0) + GainedAlong(Start(t), run, u)
            && l.count == |l.refs| + l.immortal
  {
    ReachableSafe(t, run);
    StartGains(t, run, u);
  }

  lemma StartGains(t: Thread, run: seq<Action>, u: Thread)
    requires Legal(Start(t), run)
    ensures After(Start(t), run).ledger.refs[u] == (if u == t then 1 else 0) + GainedAlong(Start(t), run, u)
  {
    ReachableSafe(t, []);
    RunGains(Start(t), run, u);
  }

  // What the calls promise: dex_unref() gives one reference up, dex_weak_ref_get() obtains one if it
  // finds the pointer set, and dex_weak_ref_set() and dex_weak_ref_clear() keep the balance.
  function Due(s: State, a: Action, u: Thread): int
    requires a.Advance? ==> a.t in s.pc
  {
    match a
    case Arrive(_) => 0
    case Copy(t) => if t == u then 1 else 0
    case HandOver(t, to) => (if to == u then 1 else 0) - (if t == u then 1 else 0)
    case BeginUnref(t) => if t == u then -1 else 0
    case BeginWeak(_, _, _) => 0
    case Advance(t) => if t == u && s.pc[t].WeakBump? && s.pc[t].why == Get && s.pc[t].w in s.mem then 1 else 0
  }

  ghost function DueAlong(s: State, run: seq<Action>, u: Thread): int
    requires Legal(s, run)
    decreases |run|
  {
    if run == [] then 0 else Due(s, run[0], u) + DueAlong(Act(s, run[0]), run[1..], u)
  }

  // References owned beyond the promise, for as long as the thread stands here.
  function Extra(pc: Pc): int {
    if pc.Load? || pc.Drop? || pc.Unlink? || pc.Forget? || (pc.WeakUnlock? && pc.why != Get && pc.got) then 1
    else if pc.WeakAdd? && pc.why == Get then -1
    else 0
  }

  function ExtraOf(s: State, u: Thread): int {
    if u in s.pc then Extra(s.pc[u]) else 0
  }

  lemma NextDue(s: State, t: Thread)
    requires t in s.pc && !s.pc[t].Idle?
    ensures Gained(s, Advance(t), t) == Due(s, Advance(t), t) + Extra(NextPc(s, s.pc[t])) - Extra(s.pc[t])
  {
  }

  lemma StepDue(s: State, a: Action, u: Thread)
    requires MayAct(s, a)
    ensures Gained(s, a, u) == Due(s, a, u) + ExtraOf(Act(s, a), u) - ExtraOf(s, u)
  {
    if a.Advance? {
      NextDue(s, a.t);
    }
  }

  lemma {:induction false} RunDue(s: State, run: seq<Action>, u: Thread)
    requires Legal(s, run)
    ensures GainedAlong(s, run, u) == DueAlong(s, run, u) + ExtraOf(After(s, run), u) - ExtraOf(s, u)
    decreases |run|
  {
    if run != [] {
      StepDue(s, run[0], u);
      RunDue(Act(s, run[0]), run[1..], u);
    }
  }

  // In every run a thread that is in no call owns exactly what its calls have promised: none leaks a
  // reference, and none gives up one too many.
  lemma BalancedBetweenCalls(t: Thread, run: seq<Action>, u: Thread)
    requires Legal(Start(t), run) && Free(After(Start(t), run), u)
    ensures After(Start(t), run).ledger.refs[u] == (if u == t then 1 else 0) + DueAlong(Start(t), run, u)
  {
    StartGains(t, run, u);
    RunDue(Start(t), run, u);
  }

  // ----- dex_weak_ref_get() succeeds exactly if it finds a pointer

  // The steps that t makes itself.
  function OwnSteps(run: seq<Action>, t: Thread): nat {
    if run == [] then 0 else (if run[0] == Advance(t) then 1 else 0) + OwnSteps(run[1..], t)
  }

  // References that others hand over to t.
  function Gift(a: Action, t: Thread): nat {
    if a.HandOver? && a.to == t then 1 else 0
  }

  function Gifts(run: seq<Action>, t: Thread): nat {
    if run == [] then 0 else Gift(run[0], t) + Gifts(run[1..], t)
  }

  // Where t is in dex_weak_ref_get() after k steps from the look at the pointer of w.
  ghost predicate Getting(s: State, t: Thread, w: Weak, found: bool, k: nat) {
    && t in s.pc
    && match k
       case 0 => s.pc[t] == WeakBump(w, Get) && (w in s.mem <==> found)
       case 1 => s.pc[t] == if found then WeakAdd(w, Get) else WeakUnlock(w, Get, false)
       case _ => k == 2 && found && s.pc[t] == WeakUnlock(w, Get, true)
  }

  // While t holds the mutex of w, nobody else changes its pointer.
  lemma PointerStays(s: State, a: Action, t: Thread, w: Weak)
    requires Exclusive(s) && MayAct(s, a) && a != Advance(t) && t in s.pc && s.pc[t] == WeakBump(w, Get)
    ensures w in Act(s, a).mem <==> w in s.mem
  {
    if a.Advance? {
      OtherPointers(s, s.pc[a.t], s.pc[t], w);
    }
  }

  lemma OtherPointers(s: State, p: Pc, q: Pc, w: Weak)
    requires Compatible(s.list, p, q) && q == WeakBump(w, Get)
    ensures w in NextMem(s, p) <==> w in s.mem
  {
    assert HoldsWeak(s.list, q, w) && Touches(q, w);
    if p.Forget? {
      assert TearsDown(p, p.w);
    } else if p.ClearWeak? && p.todo != [] {
      assert HoldsWeak(s.list, p, p.todo[0]);
    }
  }

  // The others leave t where it is, and hand references over to it at most.
  lemma OthersStep(s: State, a: Action, t: Thread, w: Weak, found: bool, k: nat)
    requires Exclusive(s) && MayAct(s, a) && a != Advance(t) && Getting(s, t, w, found, k)
    ensures Getting(Act(s, a), t, w, found, k)
    ensures Gained(s, a, t) == Gift(a, t)
  {
    if k == 0 {
      PointerStays(s, a, t, w);
    }
    OthersMove(s, a, t);
  }

  lemma OthersMove(s: State, a: Action, t: Thread)
    requires MayAct(s, a) && a != Advance(t) && t in s.pc && !s.pc[t].Idle?
    ensures t in Act(s, a).pc && Act(s, a).pc[t] == s.pc[t]
    ensures Gained(s, a, t) == Gift(a, t)
  {
  }

  lemma OwnStep(s: State, t: Thread, w: Weak, found: bool, k: nat)
    requires t in s.pc && Getting(s, t, w, found, k) && k < if found then 2 else 1
    ensures Getting(Act(s, Advance(t)), t, w, found, k + 1)
    ensures Gained(s, Advance(t), t) == if found && k == 1 then 1 else 0
  {
  }

  // Either way, one step further.
  lemma OneStep(s: State, a: Action, t: Thread, w: Weak, found: bool, k: nat) returns (k': nat)
    requires Exclusive(s) && MayAct(s, a) && Getting(s, t, w, found, k)
    requires a == Advance(t) ==> k < if found then 2 else 1
    ensures Getting(Act(s, a), t, w, found, k') && k' == k + OwnSteps([a], t)
    ensures Gained(s, a, t) == Gift(a, t) + Rest(found, k) - Rest(found, k')
  {
    assert OwnSteps([a][1..], t) == 0;
    if a == Advance(t) {
      k' := k + 1;
      OwnStep(s, t, w, found, k);
    } else {
      k' := k;
      OthersStep(s, a, t, w, found, k);
    }
  }

  // The reference that is still to come.
  function Rest(found: bool, k: nat): nat {
    if found && k < 2 then 1 else 0
  }

  lemma {:induction false} GettingGoesOn(s: State, more: seq<Action>, t: Thread, w: Weak, found: bool, k: nat)
    requires Safe(s) && Legal(s, more) && Getting(s, t, w, found, k)
    requires k + OwnSteps(more, t) == if found then 2 else 1
    ensures t in After(s, more).pc && After(s, more).pc[t] == WeakUnlock(w, Get, found)
    ensures GainedAlong(s, more, t) == Gifts(more, t) + Rest(found, k)
    decreases |more|
  {
    if more != [] {
      ActSafe(s, more[0]);
      var k' := OneStep(s, more[0], t, w, found, k);
      GettingGoesOn(Act(s, more[0]), more[1..], t, w, found, k');
    }
  }

  lemma ReturnsFromGet(s: State, u: Thread, w: Weak, found: bool)
    requires u in s.pc && s.pc[u] == WeakUnlock(w, Get, found)
    ensures MayAct(s, Advance(u)) && Act(s, Advance(u)).pc[u] == Idle && Act(s, Advance(u)).ledger == s.ledger
  {
  }

  // A get that finds the pointer set when it looks ends with one more reference owned, and one that
  // finds NULL with none, whatever other threads do meanwhile.
  lemma GetSucceedsIffFound(t: Thread, run: seq<Action>, more: seq<Action>, u: Thread, w: Weak)
    requires Legal(Start(t), run) && u in After(Start(t), run).pc && After(Start(t), run).pc[u] == WeakBump(w, Get)
    requires var s := After(Start(t), run);
             Legal(s, more) && OwnSteps(more, u) == if w in s.mem then 2 else 1
    ensures var s := After(Start(t), run); var v := After(s, more);
            && MayAct(v, Advance(u)) && Act(v, Advance(u)).pc[u] == Idle
            && Act(v, Advance(u)).ledger.refs[u] ==
                 s.ledger.refs[u] + Gifts(more, u) + if w in s.mem then 1 else 0
  {
    ReachableSafe(t, run);
    var s := After(Start(t), run);
    GettingGoesOn(s, more, u, w, w in s.mem, 0);
    RunGains(s, more, u);
    ReturnsFromGet(After(s, more), u, w, w in s.mem);
  }

  // ----- the weak list

  // The assertions and guards of dex_object_add_weak() and dex_object_unlink_weak() hold.
  lemma ListGuardsHold(t: Thread, run: seq<Action>, u: Thread)
    requires Legal(Start(t), run) && u in After(Start(t), run).pc
    ensures var s := After(Start(t), run); var pc := s.pc[u];
            && (pc.Link? || pc.Unlink? ==> s.ledger.count > 0)
            && (pc.Link? ==> pc.w in s.mem && pc.w !in s.list)
  {
    ReachableSafe(t, run);
    var s := After(Start(t), run);
    assert LedgerTie(s.ledger, u, s.pc[u]) && WeakTie(s.list, s.mem, s.pc[u]);
    assert s.ledger.count == 0 ==> s.ledger.refs == multiset{};
  }

  // The assertions at the end of dex_weak_ref_clear(): the weak reference is off the list, and it
  // does not point to the object any more.
  lemma ClearedWeakIsDetached(t: Thread, run: seq<Action>, u: Thread, w: Weak)
    requires Legal(Start(t), run) && u in After(Start(t), run).pc
    requires var pc := After(Start(t), run).pc[u]; pc == Forget(w) || pc == WeakUnlock(w, Teardown, false)
    ensures var s := Next(After(Start(t), run), u); w !in s.mem && w !in s.list
  {
    ReachableSafe(t, run);
    LastStepOfTeardown(After(Start(t), run), u, w);
  }

  lemma LastStepOfTeardown(s: State, u: Thread, w: Weak)
    requires Safe(s) && u in s.pc && (s.pc[u] == Forget(w) || s.pc[u] == WeakUnlock(w, Teardown, false))
    ensures w !in Next(s, u).mem && w !in Next(s, u).list
  {
    EndOfTeardown(s, u, w);
  }

  lemma EndOfTeardown(s: State, u: Thread, w: Weak)
    requires Safe(s) && u in s.pc && (s.pc[u] == Forget(w) || s.pc[u] == WeakUnlock(w, Teardown, false))
    ensures w !in s.list && (s.pc[u].WeakUnlock? ==> w !in s.mem)
  {
    assert WeakTie(s.list, s.mem, s.pc[u]);
    if w in s.list {
      var v :| v in s.pc && s.pc[v] == Unlink(w, Assign(false));
      assert TearsDown(s.pc[u], w) && Touches(s.pc[v], w);
    }
  }
}
