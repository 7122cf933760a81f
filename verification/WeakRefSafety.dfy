/** What every step of dex_unref() and of the weak references keeps. */
module WeakRefSafety {
  import opened Common
  import opened RefLedger
  import opened WeakRefs

  // Two threads can stand here together.
  ghost predicate Compatible(list: seq<Weak>, p: Pc, q: Pc) {
    && !(HoldsObject(p) && HoldsObject(q))
    && (forall w :: HoldsWeak(list, p, w) ==> !HoldsWeak(list, q, w))
    && (forall w :: Writes(p, w) ==> !Writes(q, w))
    && (forall w :: TearsDown(p, w) ==> !Touches(q, w))
    && (forall w :: TearsDown(q, w) ==> !Touches(p, w))
  }

  ghost predicate Exclusive(s: State) {
    forall t, u :: t in s.pc && u in s.pc && t != u ==> Compatible(s.list, s.pc[t], s.pc[u])
  }

  // The ledger knows where the thread stands, and the thread has what it needs.
  ghost predicate LedgerTie(l: Ledger, t: Thread, pc: Pc) {
    PlaceTie(l, t, pc) && NeedTie(l, t, pc)
  }

  ghost predicate PlaceTie(l: Ledger, t: Thread, pc: Pc) {
    && (pc.Drop? <==> t in l.drops)
    && (Claims(pc) <==> t in l.claims)
    && (pc.WeakAdd? <==> t in l.mid)
    && (pc.ClearWeak? || pc.FinalTest? <==> t in l.passed)
  }

  ghost predicate NeedTie(l: Ledger, t: Thread, pc: Pc) {
    && (NeedsRef(pc) ==> t in l.refs)
    && (pc.TestMark? ==> Dead(l))
  }

  // The thread remembers the watermark it loaded.
  ghost predicate MarkTie(l: Ledger, t: Thread, pc: Pc) {
    && (pc.Drop? && t in l.drops ==> pc.mark == l.drops[t] % MODULUS)
    && (Claims(pc) && t in l.claims ==> pc.mark == l.claims[t] % MODULUS)
  }

  ghost predicate WeakTie(list: seq<Weak>, mem: set<Weak>, pc: Pc) {
    && (pc.LockWeak? || pc.Unlock? ==> pc.k <= |list|)
    && (pc.ClearWeak? ==> NoDup(pc.todo))
    && (pc.TestMark? ==> forall w :: w in mem ==> w in list)
    && (pc.WeakAdd? ==> pc.w in mem)
    && (pc.WeakUnlock? ==> (pc.got <==> pc.w in mem))
    && (pc.Link? || pc.Forget? ==> pc.w !in list)
    && (pc.Link? ==> pc.w in mem)
    && (pc.Unlink? ==> pc.why == Teardown || (pc.why == Assign(false) && pc.w !in mem))
  }

  // The thread accounts for w pointing to the object without being on its list.
  predicate Detaches(pc: Pc, w: Weak) {
    pc == Link(w) || pc == Forget(w) || (pc.ClearWeak? && w in pc.todo)
  }

  ghost predicate ListInv(s: State) {
    && NoDup(s.list)
    && (forall w :: w in s.mem && w !in s.list ==> exists t :: t in s.pc && Detaches(s.pc[t], w))
    && (forall w :: w in s.list && w !in s.mem ==> exists t :: t in s.pc && s.pc[t] == Unlink(w, Assign(false)))
    && (s.ledger.past.cleared ==> s.list == [])
    && Rostered(s)
  }

  ghost predicate Rostered(s: State) {
    forall t :: t in s.ledger.mid || t in s.ledger.refs || t in s.ledger.claims || t in s.ledger.passed ==> t in s.pc
  }

  ghost predicate Threads(s: State) {
    forall t :: t in s.pc ==>
      LedgerTie(s.ledger, t, s.pc[t]) && MarkTie(s.ledger, t, s.pc[t]) && WeakTie(s.list, s.mem, s.pc[t])
  }

  ghost predicate Safe(s: State) {
    Inv(s.ledger) && Exclusive(s) && ListInv(s) && Threads(s)
  }

  // ----- mutual exclusion

  // A step adds at most one weak mutex to those its thread holds, and only a free one.
  lemma NextHolds(s: State, t: Thread, w: Weak)
    requires MayAct(s, Advance(t)) && WeakTie(s.list, s.mem, s.pc[t])
    requires HoldsWeak(Next(s, t).list, Next(s, t).pc[t], w)
    ensures HoldsWeak(s.list, s.pc[t], w) || !WeakLocked(s, w)
  {
    if s.pc[t].LockWeak? && s.pc[t].k < |s.list| {
      assert s.list[..s.pc[t].k + 1] == s.list[..s.pc[t].k] + [s.list[s.pc[t].k]];
    }
  }

  lemma NextCompatible(s: State, t: Thread, u: Thread)
    requires MayAct(s, Advance(t)) && u in s.pc && u != t
    requires WeakTie(s.list, s.mem, s.pc[t]) && Compatible(s.list, s.pc[t], s.pc[u])
    ensures Compatible(Next(s, t).list, Next(s, t).pc[t], s.pc[u])
  {
    var s' := Next(s, t);
    forall w | HoldsWeak(s'.list, s'.pc[t], w) ensures !HoldsWeak(s'.list, s.pc[u], w) {
      NextHolds(s, t, w);
      NextOnlyHolder(s, t, u);
    }
  }

  lemma NextOnlyHolder(s: State, t: Thread, u: Thread)
    requires MayAct(s, Advance(t)) && u in s.pc && u != t
    requires Compatible(s.list, s.pc[t], s.pc[u])
    ensures Next(s, t).list == s.list || !HoldsObject(s.pc[u])
  {
  }

  // ----- single threads

  lemma NextPlaceUnref(s: State, t: Thread)
    requires t in s.pc && !s.pc[t].Idle? && PlaceTie(s.ledger, t, s.pc[t])
    ensures var l, pc := Record(s.ledger, NextEntry(s, t)), NextPc(s, s.pc[t]);
            && (pc.Drop? <==> t in l.drops)
            && (Claims(pc) <==> t in l.claims)
  {
  }

  lemma NextPlaceRest(s: State, t: Thread)
    requires t in s.pc && !s.pc[t].Idle? && PlaceTie(s.ledger, t, s.pc[t])
    ensures var l, pc := Record(s.ledger, NextEntry(s, t)), NextPc(s, s.pc[t]);
            && (pc.WeakAdd? <==> t in l.mid)
            && (pc.ClearWeak? || pc.FinalTest? <==> t in l.passed)
  {
  }

  lemma NextPlace(s: State, t: Thread)
    requires t in s.pc && !s.pc[t].Idle? && PlaceTie(s.ledger, t, s.pc[t])
    ensures PlaceTie(Next(s, t).ledger, t, Next(s, t).pc[t])
  {
    NextPlaceUnref(s, t);
    NextPlaceRest(s, t);
  }

  lemma NextNeed(s: State, t: Thread)
    requires t in s.pc && !s.pc[t].Idle? && NeedTie(s.ledger, t, s.pc[t])
    requires s.pc[t].TestCount? && s.ledger.count <= 0 ==> Dead(s.ledger)
    ensures NeedTie(Next(s, t).ledger, t, Next(s, t).pc[t])
  {
  }

  lemma NextMarkSelf(s: State, t: Thread)
    requires t in s.pc && !s.pc[t].Idle? && s.ledger.mark == s.ledger.epoch % MODULUS
    requires LedgerTie(s.ledger, t, s.pc[t]) && MarkTie(s.ledger, t, s.pc[t])
    ensures MarkTie(Record(s.ledger, NextEntry(s, t)), t, NextPc(s, s.pc[t]))
  {
  }

  lemma NextMarkOther(s: State, t: Thread, u: Thread)
    requires t in s.pc && u in s.pc && u != t
    requires LedgerTie(s.ledger, u, s.pc[u]) && MarkTie(s.ledger, u, s.pc[u])
    ensures MarkTie(Record(s.ledger, NextEntry(s, t)), u, s.pc[u])
  {
  }

  lemma NextMark(s: State, t: Thread, u: Thread)
    requires t in s.pc && !s.pc[t].Idle? && u in s.pc && s.ledger.mark == s.ledger.epoch % MODULUS
    requires LedgerTie(s.ledger, u, s.pc[u]) && MarkTie(s.ledger, u, s.pc[u])
    ensures MarkTie(Next(s, t).ledger, u, Next(s, t).pc[u])
  {
    if u == t {
      NextMarkSelf(s, t);
    } else {
      NextMarkOther(s, t, u);
    }
  }

  lemma NextPlaceOther(s: State, t: Thread, u: Thread)
    requires t in s.pc && !s.pc[t].Idle? && u in s.pc && u != t && PlaceTie(s.ledger, u, s.pc[u])
    ensures PlaceTie(Next(s, t).ledger, u, s.pc[u])
  {
  }

  lemma NextNeedOther(s: State, t: Thread, u: Thread)
    requires t in s.pc && !s.pc[t].Idle? && LedgerTie(s.ledger, t, s.pc[t])
    requires s.ledger.count == 0 ==> s.ledger.refs == multiset{}
    requires u in s.pc && u != t && NeedTie(s.ledger, u, s.pc[u])
    requires s.pc[u].TestMark? && s.pc[t].WeakBump? ==> s.pc[t].w !in s.mem
    ensures NeedTie(Next(s, t).ledger, u, s.pc[u])
  {
  }

  lemma NextWeakSelf(s: State, t: Thread)
    requires MayAct(s, Advance(t)) && WeakTie(s.list, s.mem, s.pc[t])
    requires s.pc[t].TestCount? && s.ledger.count <= 0 ==> forall w :: w in s.mem ==> w in s.list
    requires s.pc[t].WeakUnlock? && s.pc[t].why == Assign(true) && !s.pc[t].got ==> s.pc[t].w !in s.list
    requires NoDup(s.list)
    ensures WeakTie(Next(s, t).list, Next(s, t).mem, Next(s, t).pc[t])
  {
  }

  lemma NextWeakOther(s: State, t: Thread, u: Thread)
    requires MayAct(s, Advance(t)) && WeakTie(s.list, s.mem, s.pc[t])
    requires u in s.pc && u != t && WeakTie(s.list, s.mem, s.pc[u]) && Compatible(s.list, s.pc[t], s.pc[u])
    requires s.pc[u].TestMark? ==> !NeedsRef(s.pc[t])
    requires s.pc[t].ClearWeak? ==> !NeedsRef(s.pc[u])
    ensures WeakTie(Next(s, t).list, Next(s, t).mem, s.pc[u])
  {
    var p := s.pc[t];
    if p.ClearWeak? && p.todo != [] {
      assert HoldsWeak(s.list, p, p.todo[0]);
    } else if p.WeakUnlock? {
      assert HoldsWeak(s.list, p, p.w);
      assert p.why != Get ==> Writes(p, p.w);
    } else if p.Link? {
      assert Writes(p, p.w);
    } else if p.Forget? {
      assert TearsDown(p, p.w);
    }
  }

  // ----- what the mutexes are for

  lemma OneObjectHolder(s: State, t: Thread, u: Thread)
    requires Exclusive(s) && t in s.pc && u in s.pc && HoldsObject(s.pc[t]) && HoldsObject(s.pc[u])
    ensures t == u
  {
  }

  lemma OneWeakHolder(s: State, t: Thread, u: Thread, w: Weak)
    requires Exclusive(s) && t in s.pc && u in s.pc
    requires HoldsWeak(s.list, s.pc[t], w) && HoldsWeak(s.list, s.pc[u], w)
    ensures t == u
  {
  }

  lemma QuietAtTest(s: State, t: Thread)
    requires Safe(s) && t in s.pc && s.pc[t].TestCount? && s.ledger.count <= 0
    ensures Dead(s.ledger) && forall w :: w in s.mem ==> w in s.list
  {
    assert s.ledger.refs == multiset{};
    forall w | w in s.mem && w !in s.list ensures false {
      var u :| u in s.pc && Detaches(s.pc[u], w);
      assert LedgerTie(s.ledger, u, s.pc[u]);
      OneObjectHolder(s, t, u);
    }
    forall u | u in s.ledger.mid ensures false {
      assert LedgerTie(s.ledger, u, s.pc[u]) && WeakTie(s.list, s.mem, s.pc[u]);
      OneWeakHolder(s, t, u, s.pc[u].w);
    }
  }

  lemma OneWriter(s: State, t: Thread, u: Thread, w: Weak)
    requires Exclusive(s) && t in s.pc && u in s.pc && Writes(s.pc[t], w) && Writes(s.pc[u], w)
    ensures t == u
  {
  }

  lemma LinkFresh(s: State, t: Thread)
    requires Exclusive(s) && ListInv(s) && t in s.pc && WeakTie(s.list, s.mem, s.pc[t])
    requires s.pc[t].WeakUnlock? && s.pc[t].why == Assign(true) && !s.pc[t].got
    ensures s.pc[t].w !in s.list
  {
    if s.pc[t].w in s.list {
      var u :| u in s.pc && s.pc[u] == Unlink(s.pc[t].w, Assign(false));
      OneWriter(s, t, u, s.pc[t].w);
    }
  }

  // While some thread tests, and after some thread passed, no upgrade finds the object.
  lemma NoUpgradeAtTest(s: State, t: Thread, u: Thread)
    requires Exclusive(s) && t in s.pc && s.pc[t].WeakBump? && u in s.pc && s.pc[u].TestMark?
    requires WeakTie(s.list, s.mem, s.pc[u])
    ensures s.pc[t].w !in s.mem
  {
    if s.pc[t].w in s.mem {
      OneWeakHolder(s, t, u, s.pc[t].w);
    }
  }

  lemma NoUpgradeOnceCleared(s: State, t: Thread)
    requires Safe(s) && t in s.pc && s.pc[t].WeakBump? && s.ledger.past.cleared
    ensures s.pc[t].w !in s.mem
  {
    if s.pc[t].w in s.mem {
      assert s.ledger.refs == multiset{};
      var u :| u in s.pc && Detaches(s.pc[u], s.pc[t].w);
      assert LedgerTie(s.ledger, u, s.pc[u]);
      OneWeakHolder(s, t, u, s.pc[t].w);
    }
  }

  // ----- the ledger and the list after a step

  lemma EntryEnabled(s: State, t: Thread)
    requires t in s.pc && NextEntry(s, t).Some? && LedgerTie(s.ledger, t, s.pc[t]) && MarkTie(s.ledger, t, s.pc[t])
    requires s.pc[t].WeakBump? && s.pc[t].w in s.mem ==> !s.ledger.past.cleared
    ensures Enabled(s.ledger, NextEntry(s, t).value)
  {
  }

  lemma NextEnabled(s: State, t: Thread)
    requires Safe(s) && MayAct(s, Advance(t)) && NextEntry(s, t).Some?
    ensures Enabled(s.ledger, NextEntry(s, t).value)
  {
    assert LedgerTie(s.ledger, t, s.pc[t]);
    if s.pc[t].WeakBump? && s.ledger.past.cleared {
      NoUpgradeOnceCleared(s, t);
    }
    EntryEnabled(s, t);
  }

  lemma NextNoDup(s: State, t: Thread)
    requires t in s.pc && NoDup(s.list) && WeakTie(s.list, s.mem, s.pc[t])
    ensures NoDup(NextList(s, s.pc[t]))
  {
    if s.pc[t].Unlink? {
      WithoutNoDup(s.list, s.pc[t].w);
    }
  }

  // A weak reference that points to the object is on its list, or somebody answers for it.
  lemma NextCovered(s: State, t: Thread, w: Weak)
    requires ListInv(s) && t in s.pc && !s.pc[t].Idle? && WeakTie(s.list, s.mem, s.pc[t])
    requires w in Next(s, t).mem && w !in Next(s, t).list
    ensures exists u :: u in Next(s, t).pc && Detaches(Next(s, t).pc[u], w)
  {
    var s' := Next(s, t);
    if w in s.mem && w !in s.list {
      var u :| u in s.pc && Detaches(s.pc[u], w);
      assert Detaches(s'.pc[u], w);
    } else {
      assert Detaches(s'.pc[t], w);
    }
  }

  lemma NextListed(s: State, t: Thread, w: Weak)
    requires ListInv(s) && t in s.pc && !s.pc[t].Idle? && WeakTie(s.list, s.mem, s.pc[t])
    requires s.pc[t].ClearWeak? ==> s.list == []
    requires w in Next(s, t).list && w !in Next(s, t).mem
    ensures exists u :: u in Next(s, t).pc && Next(s, t).pc[u] == Unlink(w, Assign(false))
  {
    var s' := Next(s, t);
    if w in s.list && w !in s.mem {
      var u :| u in s.pc && s.pc[u] == Unlink(w, Assign(false));
      assert s'.pc[u] == Unlink(w, Assign(false));
    } else {
      assert s'.pc[t] == Unlink(w, Assign(false));
    }
  }

  lemma NextStolen(s: State, t: Thread)
    requires ListInv(s) && t in s.pc && !s.pc[t].Idle? && (s.ledger.past.cleared ==> !NeedsRef(s.pc[t]))
    ensures Next(s, t).ledger.past.cleared ==> Next(s, t).list == []
  {
  }

  lemma NextRostered(s: State, t: Thread)
    requires Rostered(s) && t in s.pc && !s.pc[t].Idle?
    ensures Rostered(Next(s, t))
  {
  }

  // ----- putting a step together

  lemma CompatibleFrame(list: seq<Weak>, list': seq<Weak>, p: Pc, q: Pc)
    requires Compatible(list, p, q) && (list' == list || !(HoldsObject(p) || HoldsObject(q)))
    ensures Compatible(list', p, q) && Compatible(list', q, p)
  {
    forall w
      ensures HoldsWeak(list', p, w) == HoldsWeak(list, p, w) && HoldsWeak(list', q, w) == HoldsWeak(list, q, w)
    {
    }
  }

  lemma NextExclusive(s: State, t: Thread)
    requires Exclusive(s) && MayAct(s, Advance(t)) && WeakTie(s.list, s.mem, s.pc[t])
    ensures Exclusive(Next(s, t))
  {
    var s' := Next(s, t);
    forall u, v | u in s'.pc && v in s'.pc && u != v ensures Compatible(s'.list, s'.pc[u], s'.pc[v]) {
      if u == t {
        NextCompatible(s, t, v);
      } else if v == t {
        NextCompatible(s, t, u);
        CompatibleFrame(s'.list, s'.list, s'.pc[t], s'.pc[u]);
      } else {
        NextOnlyHolder(s, t, u);
        NextOnlyHolder(s, t, v);
        CompatibleFrame(s.list, s'.list, s.pc[u], s.pc[v]);
      }
    }
  }

  lemma NextThreads(s: State, t: Thread)
    requires Safe(s) && MayAct(s, Advance(t))
    ensures Threads(Next(s, t))
  {
    var s' := Next(s, t);
    if s.pc[t].TestCount? && s.ledger.count <= 0 {
      QuietAtTest(s, t);
    }
    if s.pc[t].WeakUnlock? && s.pc[t].why == Assign(true) && !s.pc[t].got {
      LinkFresh(s, t);
    }
    NextPlace(s, t);
    NextNeed(s, t);
    NextWeakSelf(s, t);
    forall u | u in s'.pc
      ensures LedgerTie(s'.ledger, u, s'.pc[u]) && MarkTie(s'.ledger, u, s'.pc[u]) && WeakTie(s'.list, s'.mem, s'.pc[u])
    {
      NextMark(s, t, u);
      if u != t {
        NextThread(s, t, u);
      }
    }
  }

  lemma NextThread(s: State, t: Thread, u: Thread)
    requires Safe(s) && MayAct(s, Advance(t)) && u in s.pc && u != t
    ensures LedgerTie(Next(s, t).ledger, u, s.pc[u]) && WeakTie(Next(s, t).list, Next(s, t).mem, s.pc[u])
  {
    assert s.ledger.count == 0 ==> s.ledger.refs == multiset{};
    assert LedgerTie(s.ledger, t, s.pc[t]) && LedgerTie(s.ledger, u, s.pc[u]);
    if s.pc[u].TestMark? && s.pc[t].WeakBump? {
      NoUpgradeAtTest(s, t, u);
    }
    NextPlaceOther(s, t, u);
    NextNeedOther(s, t, u);
    NextWeakOther(s, t, u);
  }

  lemma NextListInv(s: State, t: Thread)
    requires Safe(s) && MayAct(s, Advance(t))
    ensures ListInv(Next(s, t))
  {
    assert s.ledger.count == 0 ==> s.ledger.refs == multiset{};
    assert LedgerTie(s.ledger, t, s.pc[t]) && WeakTie(s.list, s.mem, s.pc[t]);
    NextNoDup(s, t);
    NextStolen(s, t);
    NextRostered(s, t);
    forall w | w in Next(s, t).mem && w !in Next(s, t).list
      ensures exists u :: u in Next(s, t).pc && Detaches(Next(s, t).pc[u], w)
    {
      NextCovered(s, t, w);
    }
    forall w | w in Next(s, t).list && w !in Next(s, t).mem
      ensures exists u :: u in Next(s, t).pc && Next(s, t).pc[u] == Unlink(w, Assign(false))
    {
      NextListed(s, t, w);
    }
  }

  lemma NextSafe(s: State, t: Thread)
    requires Safe(s) && MayAct(s, Advance(t))
    ensures Safe(Next(s, t))
  {
    if NextEntry(s, t).Some? {
      NextEnabled(s, t);
      ApplyInv(s.ledger, NextEntry(s, t).value);
    }
    NextExclusive(s, t);
    NextThreads(s, t);
    NextListInv(s, t);
  }

  // ----- starting a call

  lemma CopySafe(s: State, e: Entry)
    requires Safe(s) && (e.Ref? || (e.Give? && e.to in s.pc)) && Free(s, e.t) && e.t in s.ledger.refs
    ensures Safe(s.(ledger := Apply(s.ledger, e)))
  {
    assert s.ledger.count == 0 ==> s.ledger.refs == multiset{};
    assert LedgerTie(s.ledger, e.t, s.pc[e.t]);
    ApplyInv(s.ledger, e);
    forall u | u in s.pc ensures LedgerTie(Apply(s.ledger, e), u, s.pc[u]) && MarkTie(Apply(s.ledger, e), u, s.pc[u]) {
      CopyTie(s.ledger, e, u, s.pc[u]);
    }
  }

  lemma CopyTie(l: Ledger, e: Entry, u: Thread, pc: Pc)
    requires LedgerTie(l, u, pc) && MarkTie(l, u, pc) && (e.Ref? || e.Give?)
    requires l.count == 0 ==> l.refs == multiset{}
    requires e.t in l.refs && (e.t == u ==> pc.Idle?)
    ensures LedgerTie(Apply(l, e), u, pc) && MarkTie(Apply(l, e), u, pc)
  {
  }

  // An idle or new thread takes a stand that needs no mutex.
  predicate CanEnter(s: State, t: Thread, pc: Pc) {
    && (t in s.pc ==> s.pc[t].Idle?) && (pc.Idle? || pc.Load? || pc.WeakLock?)
    && (NeedsRef(pc) ==> t in s.ledger.refs) && (t !in s.pc ==> t !in s.ledger.drops)
  }

  lemma EnterExclusive(s: State, t: Thread, pc: Pc)
    requires Exclusive(s) && CanEnter(s, t, pc)
    requires forall u :: u in s.pc && u != t ==> Compatible(s.list, s.pc[u], pc)
    ensures Exclusive(s.(pc := s.pc[t := pc]))
  {
    var s' := s.(pc := s.pc[t := pc]);
    forall u, v | u in s'.pc && v in s'.pc && u != v ensures Compatible(s'.list, s'.pc[u], s'.pc[v]) {
      if u == t {
        CompatibleFrame(s.list, s.list, s.pc[v], pc);
      }
    }
  }

  lemma EnterList(s: State, t: Thread, pc: Pc)
    requires ListInv(s) && CanEnter(s, t, pc)
    ensures ListInv(s.(pc := s.pc[t := pc]))
  {
    var s' := s.(pc := s.pc[t := pc]);
    forall w | w in s'.mem && w !in s'.list ensures exists u :: u in s'.pc && Detaches(s'.pc[u], w) {
      var u :| u in s.pc && Detaches(s.pc[u], w);
      assert Detaches(s'.pc[u], w);
    }
    forall w | w in s'.list && w !in s'.mem ensures exists u :: u in s'.pc && s'.pc[u] == Unlink(w, Assign(false)) {
      var u :| u in s.pc && s.pc[u] == Unlink(w, Assign(false));
      assert s'.pc[u] == Unlink(w, Assign(false));
    }
  }

  lemma EnterThreads(s: State, t: Thread, pc: Pc)
    requires Threads(s) && Rostered(s) && CanEnter(s, t, pc)
    ensures Threads(s.(pc := s.pc[t := pc]))
  {
    assert t in s.pc ==> LedgerTie(s.ledger, t, s.pc[t]);
    assert LedgerTie(s.ledger, t, pc);
  }

  lemma EnterSafe(s: State, t: Thread, pc: Pc)
    requires Safe(s) && CanEnter(s, t, pc)
    requires forall u :: u in s.pc && u != t ==> Compatible(s.list, s.pc[u], pc)
    ensures Safe(s.(pc := s.pc[t := pc]))
  {
    EnterExclusive(s, t, pc);
    EnterList(s, t, pc);
    EnterThreads(s, t, pc);
  }

  lemma BeginCompatible(list: seq<Weak>, q: Pc, pc: Pc)
    requires pc.Idle? || pc.Load? || (pc.WeakLock? && !TearsDown(q, pc.w))
    requires pc.WeakLock? && pc.why != Get ==> !Writes(q, pc.w)
    requires pc.WeakLock? && pc.why == Teardown ==> !Touches(q, pc.w)
    ensures Compatible(list, q, pc)
  {
  }

  lemma BeginSafe(s: State, a: Action)
    requires Safe(s) && MayAct(s, a) && (a.Arrive? || a.BeginUnref? || a.BeginWeak?)
    ensures Safe(Act(s, a))
  {
    var pc := if a.Arrive? then Idle else if a.BeginUnref? then Load else WeakLock(a.w, a.why);
    forall u | u in s.pc && u != a.t ensures Compatible(s.list, s.pc[u], pc) {
      BeginCompatible(s.list, s.pc[u], pc);
    }
    EnterSafe(s, a.t, pc);
  }

  lemma ActSafe(s: State, a: Action)
    requires Safe(s) && MayAct(s, a)
    ensures Safe(Act(s, a))
  {
    match a
    case Copy(t) => CopySafe(s, Ref(t));
    case HandOver(t, to) => CopySafe(s, Give(t, to));
    case Advance(t) => NextSafe(s, t);
    case _ => BeginSafe(s, a);
  }
}
