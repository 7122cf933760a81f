/**
 * Two runs that show what dex_unref() does not guarantee.  Both start with a single thread 0
 * that owns the only reference, and register the weak reference 7.
 */
module WeakRefExamples {
  import opened Common
  import opened RefLedger
  import opened WeakRefs
  import opened WeakRefTheorems

  // From s the run leads to s1.
  ghost predicate Leads(s: State, run: seq<Action>, s1: State) {
    Legal(s, run) && After(s, run) == s1
  }

  lemma {:induction false} Join(s: State, r1: seq<Action>, s1: State, r2: seq<Action>, s2: State)
    requires Leads(s, r1, s1) && Leads(s1, r2, s2)
    ensures Leads(s, r1 + r2, s2)
    decreases |r1|
  {
    if r1 == [] {
      assert r1 + r2 == r2;
    } else {
      Join(Act(s, r1[0]), r1[1..], s1, r2, s2);
      assert (r1 + r2)[1..] == r1[1..] + r2;
    }
  }

  lemma One(s: State, a: Action)
    requires MayAct(s, a)
    ensures Leads(s, [a], Act(s, a))
  {
    assert [a][1..] == [];
  }

  lemma Two(s: State, a: Action, b: Action)
    requires MayAct(s, a) && MayAct(Act(s, a), b)
    ensures Leads(s, [a, b], Act(Act(s, a), b))
  {
    One(Act(s, a), b);
    assert [a, b][1..] == [b];
  }

  lemma Three(s: State, a: Action, b: Action, c: Action)
    requires MayAct(s, a) && MayAct(Act(s, a), b) && MayAct(Act(Act(s, a), b), c)
    ensures Leads(s, [a, b, c], Act(Act(Act(s, a), b), c))
  {
    Two(Act(s, a), b, c);
    assert [a, b, c][1..] == [b, c];
  }

  const FRESH := Past(false, 0, false, false, false, {}, [])

  // thread 1 joins, thread 0 calls dex_weak_ref_set()
  const LINK1 := State(
    Ledger(1, 1, 1, multiset{0}, 0, map[], map[], map[], {}, FRESH),
    [], {}, map[0 := WeakBump(7, Assign(true)), 1 := Idle])

  lemma Link1()
    ensures Leads(Start(0), [Arrive(1), BeginWeak(0, 7, Assign(true)), Advance(0)], LINK1)
  {
    Three(Start(0), Arrive(1), BeginWeak(0, 7, Assign(true)), Advance(0));
  }

  // the weak reference is registered
  const LINK2 := State(
    Ledger(1, 1, 1, multiset{0}, 0, map[], map[], map[], {}, FRESH),
    [7], {7}, map[0 := Idle, 1 := Idle])

  lemma Link2()
    ensures Leads(LINK1, [Advance(0), Advance(0), Advance(0)], LINK2)
  {
    Three(LINK1, Advance(0), Advance(0), Advance(0));
  }

  // thread 1 upgrades: the watermark is bumped, the reference not yet added
  const TWICE1 := State(
    Ledger(1, 2, 2, multiset{0}, 0, map[1 := 1], map[], map[], {}, FRESH),
    [7], {7}, map[0 := Idle, 1 := WeakAdd(7, Get)])

  const TWICE1_BEGUN := LINK2.(pc := LINK2.pc[1 := WeakLock(7, Get)])

  lemma Twice1Begins()
    ensures Leads(LINK2, [BeginWeak(1, 7, Get)], TWICE1_BEGUN)
  {
    One(LINK2, BeginWeak(1, 7, Get));
  }

  lemma Twice1()
    ensures Leads(TWICE1_BEGUN, [Advance(1), Advance(1)], TWICE1)
  {
    Two(TWICE1_BEGUN, Advance(1), Advance(1));
  }

  // thread 0 drops the last reference with the bumped watermark
  const TWICE2 := State(
    Ledger(0, 2, 2, multiset{}, 0, map[1 := 1], map[], map[0 := 2], {}, Past(true, 2, true, true, false, {}, [])),
    [7], {7}, map[0 := LockObject(2), 1 := WeakAdd(7, Get)])

  lemma Twice2()
    ensures Leads(TWICE1, [BeginUnref(0), Advance(0), Advance(0)], TWICE2)
  {
    assert 1 in TWICE1.ledger.mid;
    Three(TWICE1, BeginUnref(0), Advance(0), Advance(0));
  }

  // thread 1 obtains its reference
  const TWICE3 := State(
    Ledger(1, 2, 2, multiset{1}, 0, map[], map[], map[0 := 2], {}, Past(true, 2, true, true, false, {}, [])),
    [7], {7}, map[0 := LockObject(2), 1 := Idle])

  lemma Twice3()
    ensures Leads(TWICE2, [Advance(1), Advance(1)], TWICE3)
  {
    Two(TWICE2, Advance(1), Advance(1));
  }

  // thread 1 drops it with the same watermark
  const TWICE4 := State(
    Ledger(0, 2, 2, multiset{}, 0, map[], map[], map[0 := 2, 1 := 2], {},
           Past(true, 2, true, true, false, {}, [])),
    [7], {7}, map[0 := LockObject(2), 1 := LockObject(2)])

  lemma Twice4()
    ensures Leads(TWICE3, [BeginUnref(1), Advance(1), Advance(1)], TWICE4)
  {
    Three(TWICE3, BeginUnref(1), Advance(1), Advance(1));
  }

  // thread 0 holds all mutexes
  const TWICE5 := State(
    Ledger(0, 2, 2, multiset{}, 0, map[], map[], map[0 := 2, 1 := 2], {},
           Past(true, 2, true, true, false, {}, [])),
    [7], {7}, map[0 := TestCount(2), 1 := LockObject(2)])

  lemma Twice5()
    ensures Leads(TWICE4, [Advance(0), Advance(0), Advance(0)], TWICE5)
  {
    Three(TWICE4, Advance(0), Advance(0), Advance(0));
  }

  // thread 0 passes both tests
  const TWICE6 := State(
    Ledger(0, 2, 2, multiset{}, 0, map[], map[], map[1 := 2], {0}, Past(true, 2, true, true, true, {0, 1}, [])),
    [], {7}, map[0 := ClearWeak([7]), 1 := LockObject(2)])

  lemma Twice6()
    ensures Leads(TWICE5, [Advance(0), Advance(0)], TWICE6)
  {
    Two(TWICE5, Advance(0), Advance(0));
  }

  // thread 0 finalizes
  const TWICE7 := State(
    Ledger(0, 2, 2, multiset{}, 0, map[], map[], map[1 := 2], {}, Past(true, 2, true, true, true, {0, 1}, [0])),
    [], {}, map[0 := Idle, 1 := LockObject(2)])

  lemma Twice7()
    ensures Leads(TWICE6, [Advance(0), Advance(0), Advance(0)], TWICE7)
  {
    Three(TWICE6, Advance(0), Advance(0), Advance(0));
  }

  // thread 1 holds the object's mutex
  const TWICE8 := State(
    Ledger(0, 2, 2, multiset{}, 0, map[], map[], map[1 := 2], {}, Past(true, 2, true, true, true, {0, 1}, [0])),
    [], {}, map[0 := Idle, 1 := TestCount(2)])

  lemma Twice8()
    ensures Leads(TWICE7, [Advance(1), Advance(1)], TWICE8)
  {
    Two(TWICE7, Advance(1), Advance(1));
  }

  // thread 1 passes both tests
  const TWICE9 := State(
    Ledger(0, 2, 2, multiset{}, 0, map[], map[], map[], {1}, Past(true, 2, true, true, true, {0, 1}, [0])),
    [], {}, map[0 := Idle, 1 := ClearWeak([])])

  lemma Twice9()
    ensures Leads(TWICE8, [Advance(1), Advance(1)], TWICE9)
  {
    Two(TWICE8, Advance(1), Advance(1));
  }

  // thread 1 finalizes
  const TWICE10 := State(
    Ledger(0, 2, 2, multiset{}, 0, map[], map[], map[], {}, Past(true, 2, true, true, true, {0, 1}, [0, 1])),
    [], {}, map[0 := Idle, 1 := Idle])

  lemma Twice10()
    ensures Leads(TWICE9, [Advance(1), Advance(1)], TWICE10)
  {
    Two(TWICE9, Advance(1), Advance(1));
  }

  // thread 0 loads the watermark
  const LEAK1 := State(
    Ledger(1, 1, 1, multiset{0}, 0, map[], map[0 := 1], map[], {}, FRESH),
    [7], {7}, map[0 := Drop(1), 1 := Idle])

  lemma Leak1()
    ensures Leads(LINK2, [BeginUnref(0), Advance(0)], LEAK1)
  {
    Two(LINK2, BeginUnref(0), Advance(0));
  }

  // thread 1 upgrades
  const LEAK2 := State(
    Ledger(1, 2, 2, multiset{0}, 0, map[1 := 1], map[0 := 1], map[], {}, FRESH),
    [7], {7}, map[0 := Drop(1), 1 := WeakAdd(7, Get)])

  const LEAK2_BEGUN := LEAK1.(pc := LEAK1.pc[1 := WeakLock(7, Get)])

  lemma Leak2Begins()
    ensures Leads(LEAK1, [BeginWeak(1, 7, Get)], LEAK2_BEGUN)
  {
    One(LEAK1, BeginWeak(1, 7, Get));
  }

  lemma Leak2()
    ensures Leads(LEAK2_BEGUN, [Advance(1), Advance(1)], LEAK2)
  {
    Two(LEAK2_BEGUN, Advance(1), Advance(1));
  }

  // thread 1 owns a reference
  const LEAK3 := State(
    Ledger(2, 2, 2, multiset{0, 1}, 0, map[], map[0 := 1], map[], {}, FRESH),
    [7], {7}, map[0 := Drop(1), 1 := Idle])

  lemma Leak3()
    ensures Leads(LEAK2, [Advance(1), Advance(1)], LEAK3)
  {
    Two(LEAK2, Advance(1), Advance(1));
  }

  // thread 1 drops it again, which is not the last one
  const LEAK4 := State(
    Ledger(1, 2, 2, multiset{0}, 0, map[], map[0 := 1], map[], {}, FRESH),
    [7], {7}, map[0 := Drop(1), 1 := Idle])

  const LEAK4_BEGUN := LEAK3.(pc := LEAK3.pc[1 := Load])

  lemma Leak4Begins()
    ensures Leads(LEAK3, [BeginUnref(1)], LEAK4_BEGUN)
  {
    One(LEAK3, BeginUnref(1));
  }

  lemma Leak4()
    ensures Leads(LEAK4_BEGUN, [Advance(1), Advance(1)], LEAK4)
  {
    Two(LEAK4_BEGUN, Advance(1), Advance(1));
  }

  // thread 0 drops the last reference with a watermark that is out of date
  const LEAK5 := State(
    Ledger(0, 2, 2, multiset{}, 0, map[], map[], map[0 := 1], {}, Past(true, 1, false, false, false, {}, [])),
    [7], {7}, map[0 := LockObject(1), 1 := Idle])

  lemma Leak5()
    ensures Leads(LEAK4, [Advance(0)], LEAK5)
  {
    One(LEAK4, Advance(0));
  }

  // thread 0 holds all mutexes
  const LEAK6 := State(
    Ledger(0, 2, 2, multiset{}, 0, map[], map[], map[0 := 1], {}, Past(true, 1, false, false, false, {}, [])),
    [7], {7}, map[0 := TestCount(1), 1 := Idle])

  lemma Leak6()
    ensures Leads(LEAK5, [Advance(0), Advance(0), Advance(0)], LEAK6)
  {
    Three(LEAK5, Advance(0), Advance(0), Advance(0));
  }

  // thread 0 gives up
  const LEAK7 := State(
    Ledger(0, 2, 2, multiset{}, 0, map[], map[], map[], {}, Past(true, 1, false, false, false, {}, [])),
    [7], {7}, map[0 := Unlock(0), 1 := Idle])

  lemma Leak7()
    ensures Leads(LEAK6, [Advance(0), Advance(0)], LEAK7)
  {
    Two(LEAK6, Advance(0), Advance(0));
  }

  // nobody is left, and nobody finalized
  const LEAK8 := State(
    Ledger(0, 2, 2, multiset{}, 0, map[], map[], map[], {}, Past(true, 1, false, false, false, {}, [])),
    [7], {7}, map[0 := Idle, 1 := Idle])

  lemma Leak8()
    ensures Leads(LEAK7, [Advance(0), Advance(0)], LEAK8)
  {
    Two(LEAK7, Advance(0), Advance(0));
  }

  // A decrement to zero that overlaps an upgrade can finalize the object twice.
  lemma FinalizedTwice() returns (run: seq<Action>)
    ensures Legal(Start(0), run)
    ensures |After(Start(0), run).ledger.past.finalizers| == 2
  {
    run := [];
    Link1();
    Join(Start(0), run, Start(0), [Arrive(1), BeginWeak(0, 7, Assign(true)), Advance(0)], LINK1);
    run := run + [Arrive(1), BeginWeak(0, 7, Assign(true)), Advance(0)];
    Link2();
    Join(Start(0), run, LINK1, [Advance(0), Advance(0), Advance(0)], LINK2);
    run := run + [Advance(0), Advance(0), Advance(0)];
    Twice1Begins();
    Join(Start(0), run, LINK2, [BeginWeak(1, 7, Get)], TWICE1_BEGUN);
    run := run + [BeginWeak(1, 7, Get)];
    Twice1();
    Join(Start(0), run, TWICE1_BEGUN, [Advance(1), Advance(1)], TWICE1);
    run := run + [Advance(1), Advance(1)];
    Twice2();
    Join(Start(0), run, TWICE1, [BeginUnref(0), Advance(0), Advance(0)], TWICE2);
    run := run + [BeginUnref(0), Advance(0), Advance(0)];
    Twice3();
    Join(Start(0), run, TWICE2, [Advance(1), Advance(1)], TWICE3);
    run := run + [Advance(1), Advance(1)];
    Twice4();
    Join(Start(0), run, TWICE3, [BeginUnref(1), Advance(1), Advance(1)], TWICE4);
    run := run + [BeginUnref(1), Advance(1), Advance(1)];
    Twice5();
    Join(Start(0), run, TWICE4, [Advance(0), Advance(0), Advance(0)], TWICE5);
    run := run + [Advance(0), Advance(0), Advance(0)];
    Twice6();
    Join(Start(0), run, TWICE5, [Advance(0), Advance(0)], TWICE6);
    run := run + [Advance(0), Advance(0)];
    Twice7();
    Join(Start(0), run, TWICE6, [Advance(0), Advance(0), Advance(0)], TWICE7);
    run := run + [Advance(0), Advance(0), Advance(0)];
    Twice8();
    Join(Start(0), run, TWICE7, [Advance(1), Advance(1)], TWICE8);
    run := run + [Advance(1), Advance(1)];
    Twice9();
    Join(Start(0), run, TWICE8, [Advance(1), Advance(1)], TWICE9);
    run := run + [Advance(1), Advance(1)];
    Twice10();
    Join(Start(0), run, TWICE9, [Advance(1), Advance(1)], TWICE10);
    run := run + [Advance(1), Advance(1)];
  }

  // The last reference may go without anybody finalizing the object.
  lemma NeverFinalized() returns (run: seq<Action>)
    ensures Legal(Start(0), run)
    ensures var s := After(Start(0), run); Quiescent(s) && s.ledger.count == 0 && s.ledger.past.finalizers == []
  {
    run := [];
    Link1();
    Join(Start(0), run, Start(0), [Arrive(1), BeginWeak(0, 7, Assign(true)), Advance(0)], LINK1);
    run := run + [Arrive(1), BeginWeak(0, 7, Assign(true)), Advance(0)];
    Link2();
    Join(Start(0), run, LINK1, [Advance(0), Advance(0), Advance(0)], LINK2);
    run := run + [Advance(0), Advance(0), Advance(0)];
    Leak1();
    Join(Start(0), run, LINK2, [BeginUnref(0), Advance(0)], LEAK1);
    run := run + [BeginUnref(0), Advance(0)];
    Leak2Begins();
    Join(Start(0), run, LEAK1, [BeginWeak(1, 7, Get)], LEAK2_BEGUN);
    run := run + [BeginWeak(1, 7, Get)];
    Leak2();
    Join(Start(0), run, LEAK2_BEGUN, [Advance(1), Advance(1)], LEAK2);
    run := run + [Advance(1), Advance(1)];
    Leak3();
    Join(Start(0), run, LEAK2, [Advance(1), Advance(1)], LEAK3);
    run := run + [Advance(1), Advance(1)];
    Leak4Begins();
    Join(Start(0), run, LEAK3, [BeginUnref(1)], LEAK4_BEGUN);
    run := run + [BeginUnref(1)];
    Leak4();
    Join(Start(0), run, LEAK4_BEGUN, [Advance(1), Advance(1)], LEAK4);
    run := run + [Advance(1), Advance(1)];
    Leak5();
    Join(Start(0), run, LEAK4, [Advance(0)], LEAK5);
    run := run + [Advance(0)];
    Leak6();
    Join(Start(0), run, LEAK5, [Advance(0), Advance(0), Advance(0)], LEAK6);
    run := run + [Advance(0), Advance(0), Advance(0)];
    Leak7();
    Join(Start(0), run, LEAK6, [Advance(0), Advance(0)], LEAK7);
    run := run + [Advance(0), Advance(0)];
    Leak8();
    Join(Start(0), run, LEAK7, [Advance(0), Advance(0)], LEAK8);
    run := run + [Advance(0), Advance(0)];
  }
}
