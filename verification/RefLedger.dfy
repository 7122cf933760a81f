/**
 * The reference count and the watermark of one object (src/dex-object.c), seen as a ledger.
 *
 * The ledger keeps the two atomic counters of the object together with who stands where in
 * dex_unref() and in the weak-to-strong upgrade.  It ignores mutexes: what the mutexes are
 * for appears here as the guard of Pass and of Bump, and module WeakRefs proves that the
 * code's locking provides these guards.
 */
module RefLedger {
  import opened Common

  type Thread = nat

  // The watermark is a guint.
  const MODULUS: nat := 0x1_0000_0000

  datatype Ledger = Ledger(
    count: int,                  // ref_count
    mark: nat,                   // weak_refs_watermark
    epoch: nat,                  // the watermark had it not wrapped
    refs: multiset<Thread>,      // who owns the counted references
    immortal: nat,               // counted references that nobody owns
    mid: map<Thread, nat>,       // upgrades between lines 310 and 313, with the mark they saw
    drops: map<Thread, nat>,     // unrefs between lines 107 and 112, with the epoch they saw
    claims: map<Thread, nat>,    // unrefs that reached zero, before both tests passed
    passed: set<Thread>,         // unrefs that passed both tests, before line 168
    past: Past
  )

  // What has happened so far.
  datatype Past = Past(
    zeroed: bool,                // some decrement reached zero
    lastSnap: nat,               // the snapshot of the latest one that did
    lastFresh: bool,             // ... and whether it was current at that moment
    overlap: bool,               // a current one ran while some upgrade was between 310 and 313
    cleared: bool,               // some thread passed both tests
    claimants: set<Thread>,      // who held a current claim when the first thread did
    finalizers: seq<Thread>      // the calls of finalize
  )

  function Init(t: Thread): Ledger {
    Ledger(1, 1, 1, multiset{t}, 0, map[], map[], map[], {}, Past(false, 0, false, false, false, {}, []))
  }

  datatype Entry =
    | Ref(t: Thread)
    | Give(t: Thread, to: Thread)
    | Snapshot(t: Thread)
    | Decrement(t: Thread)
    | Bail(t: Thread)
    | Pass(t: Thread)
    | Finalize(t: Thread)
    | Bump(t: Thread)
    | Add(t: Thread)

  predicate Current(l: Ledger, t: Thread) {
    t in l.claims && l.claims[t] == l.epoch
  }

  // Nothing can revive the object.
  predicate Dead(l: Ledger) {
    l.count == 0 && l.mid == map[]
  }

  predicate Enabled(l: Ledger, e: Entry) {
    match e
    case Ref(t) => t in l.refs && t !in l.drops
    case Give(t, _) => t in l.refs && t !in l.drops
    case Snapshot(t) => t in l.refs && t !in l.drops && t !in l.claims && t !in l.passed && t !in l.mid
    case Decrement(t) => t in l.drops
    case Bail(t) => t in l.claims && (l.count > 0 || l.mark != l.claims[t] % MODULUS)
    case Pass(t) => t in l.claims && Dead(l) && l.mark == l.claims[t] % MODULUS
    case Finalize(t) => t in l.passed
    case Bump(t) => !l.past.cleared && t !in l.drops && t !in l.claims && t !in l.passed && t !in l.mid
    case Add(t) => t in l.mid
  }

  function Apply(l: Ledger, e: Entry): Ledger {
    match e
    case Ref(t) => l.(count := l.count + 1, refs := l.refs + multiset{t})
    case Give(t, to) => l.(refs := l.refs - multiset{t} + multiset{to})
    case Snapshot(t) => l.(drops := l.drops[t := l.epoch])
    case Decrement(t) => DoDecrement(l, t)
    case Bail(t) => l.(claims := l.claims - {t})
    case Pass(t) => DoPass(l, t)
    case Finalize(t) => DoFinalize(l, t)
    case Bump(t) => DoBump(l, t)
    case Add(t) => DoAdd(l, t)
  }

  function Seen(m: map<Thread, nat>, t: Thread): nat {
    if t in m then m[t] else 0
  }

  // Line 112: the caller's reference goes; the decrement that found one makes a claim.
  function DoDecrement(l: Ledger, t: Thread): Ledger {
    var e := Seen(l.drops, t);
    var l1 := l.(count := l.count - 1, refs := l.refs - multiset{t}, drops := l.drops - {t});
    if l.count != 1 then l1 else
      l1.(claims := l.claims[t := e],
          past := l.past.(zeroed := true, lastSnap := e, lastFresh := e == l.epoch,
                          overlap := l.past.overlap || (e == l.epoch && l.mid != map[])))
  }

  // Lines 137-146 with the outcome that the weak list is stolen.
  function DoPass(l: Ledger, t: Thread): Ledger {
    l.(claims := l.claims - {t}, passed := l.passed + {t},
       past := if l.past.cleared then l.past else
                 l.past.(cleared := true, claimants := set u | u in l.claims && Current(l, u)))
  }

  // Lines 168-169.
  function DoFinalize(l: Ledger, t: Thread): Ledger {
    l.(passed := l.passed - {t},
       past := if l.count == 0 then l.past.(finalizers := l.past.finalizers + [t]) else l.past)
  }

  // Line 310.
  function DoBump(l: Ledger, t: Thread): Ledger {
    l.(mark := (l.mark + 1) % MODULUS, epoch := l.epoch + 1, mid := l.mid[t := l.mark])
  }

  // Line 313: the upgrade that wrapped the watermark adds a reference that nobody owns.
  function DoAdd(l: Ledger, t: Thread): Ledger {
    var extra := if Seen(l.mid, t) == MODULUS - 1 then 1 else 0;
    l.(count := l.count + 1 + extra, refs := l.refs + multiset{t}, immortal := l.immortal + extra,
       mid := l.mid - {t})
  }

  // ----- the invariant

  ghost predicate CountInv(l: Ledger) {
    && l.count == |l.refs| + l.immortal
    && (forall t :: t in l.drops ==> t in l.refs)
  }

  ghost predicate MarkInv(l: Ledger) {
    && 1 <= l.epoch && l.mark == l.epoch % MODULUS
    && (forall t :: t in l.drops ==> l.drops[t] <= l.epoch)
    && (forall t :: t in l.claims ==> l.claims[t] <= l.epoch)
    // the wrap has been paid for with an immortal reference, or is about to be
    && (l.epoch >= MODULUS && l.immortal == 0 ==> exists t :: t in l.mid && l.mid[t] == MODULUS - 1)
  }

  // A snapshot is never older than the claims outstanding when it was taken.
  ghost predicate OrderInv(l: Ledger) {
    && (forall t, u :: t in l.claims && u in l.drops ==> l.claims[t] <= l.drops[u])
    && (forall t :: t in l.claims ==> l.past.zeroed && l.claims[t] <= l.past.lastSnap)
    && (l.past.zeroed ==> l.past.lastSnap <= l.epoch)
    && (Dead(l) ==> l.past.zeroed && (l.past.lastFresh <==> l.past.lastSnap == l.epoch))
  }

  // Once some thread passed both tests the object is dead, and only the claimants go on.
  ghost predicate ClearInv(l: Ledger) {
    && l.claims.Keys !! l.passed
    && (!l.past.cleared ==> l.passed == {} && l.past.finalizers == [])
    && (l.past.cleared ==>
          && Dead(l) && l.past.lastSnap == l.epoch && l.past.claimants != {}
          && (forall t :: t in l.past.claimants <==> t in l.past.finalizers || t in l.passed || Current(l, t))
          && (forall t :: t in l.passed || Current(l, t) ==> t !in l.past.finalizers)
          && NoDup(l.past.finalizers))
  }

  // A decrement to zero with a current snapshot keeps its claim unless the object is revived.
  ghost predicate FreshInv(l: Ledger) {
    Dead(l) && l.past.lastSnap == l.epoch ==> l.past.cleared || exists t :: Current(l, t)
  }

  // Without overlap there is one current claim at most, and it rules out any reference.
  ghost predicate UniqueInv(l: Ledger) {
    !l.past.overlap ==>
      && (forall t :: Current(l, t) ==> Dead(l))
      && (forall t, u :: Current(l, t) && Current(l, u) ==> t == u)
      && (forall t, u :: t in l.past.claimants && u in l.past.claimants ==> t == u)
  }

  ghost predicate Inv(l: Ledger) {
    CountInv(l) && MarkInv(l) && OrderInv(l) && ClearInv(l) && FreshInv(l) && UniqueInv(l)
  }

  lemma InitInv(t: Thread)
    ensures Inv(Init(t))
  {
    assert Init(t).epoch % MODULUS == 1;
  }

  // Reaching zero means that no counted reference is left, so no other unref is under way.
  lemma LastReference(l: Ledger, t: Thread)
    requires CountInv(l) && t in l.drops && l.count == 1
    ensures l.refs == multiset{t} && l.immortal == 0 && l.drops.Keys == {t}
  {
    assert |l.refs - multiset{t}| == |l.refs| - 1;
    assert l.refs - multiset{t} == multiset{};
  }

  lemma ApplyCount(l: Ledger, e: Entry)
    requires Inv(l) && Enabled(l, e)
    ensures CountInv(Apply(l, e))
  {
  }

  lemma ApplyBounds(l: Ledger, e: Entry)
    requires MarkInv(l) && Enabled(l, e)
    ensures var l' := Apply(l, e);
            && (forall t :: t in l'.drops ==> l'.drops[t] <= l'.epoch)
            && (forall t :: t in l'.claims ==> l'.claims[t] <= l'.epoch)
  {
  }

  lemma ApplyModulus(l: Ledger, e: Entry)
    requires MarkInv(l)
    ensures Apply(l, e).mark == Apply(l, e).epoch % MODULUS && Apply(l, e).epoch >= l.epoch
  {
  }

  lemma ApplyMark(l: Ledger, e: Entry)
    requires Inv(l) && Enabled(l, e)
    ensures MarkInv(Apply(l, e))
  {
    ApplyBounds(l, e);
    ApplyModulus(l, e);
    if Apply(l, e).epoch >= MODULUS && Apply(l, e).immortal == 0 {
      ApplyWrap(l, e);
    }
  }

  // The upgrade that wraps the watermark stays on record until it has added its extra reference.
  lemma ApplyWrap(l: Ledger, e: Entry)
    requires MarkInv(l) && Enabled(l, e) && Apply(l, e).epoch >= MODULUS && Apply(l, e).immortal == 0
    ensures exists t :: t in Apply(l, e).mid && Apply(l, e).mid[t] == MODULUS - 1
  {
    var l' := Apply(l, e);
    if e.Bump? && l.epoch == MODULUS - 1 {
      assert l'.mid[e.t] == MODULUS - 1;
    } else {
      var t :| t in l.mid && l.mid[t] == MODULUS - 1;
      assert t in l'.mid && l'.mid[t] == MODULUS - 1;
    }
  }

  lemma ApplyOrder(l: Ledger, e: Entry)
    requires Inv(l) && Enabled(l, e)
    ensures OrderInv(Apply(l, e))
  {
    if e.Decrement? && l.count == 1 {
      LastReference(l, e.t);
    }
  }

  lemma ApplyClear(l: Ledger, e: Entry)
    requires Inv(l) && Enabled(l, e)
    ensures ClearInv(Apply(l, e))
  {
  }

  lemma ApplyFresh(l: Ledger, e: Entry)
    requires Inv(l) && Enabled(l, e)
    ensures FreshInv(Apply(l, e))
  {
    var l' := Apply(l, e);
    if Dead(l') && l'.past.lastSnap == l'.epoch && !l'.past.cleared {
      if e.Decrement? {
        assert Current(l', e.t);
      } else {
        assert !e.Bump? && !e.Add?;
        var t :| Current(l, t);
        assert Current(l', t);
      }
    }
  }

  // A decrement to zero makes the only current claim, unless it overlaps an upgrade.
  lemma DecrementUnique(l: Ledger, t: Thread)
    requires Inv(l) && t in l.drops && l.count == 1
    ensures UniqueInv(DoDecrement(l, t))
  {
    LastReference(l, t);
    var l' := DoDecrement(l, t);
    if !l'.past.overlap {
      forall u | Current(l', u)
        ensures u == t && Dead(l')
      {
        assert u != t ==> Current(l, u);
      }
    }
  }

  lemma NoNewClaim(l: Ledger, e: Entry, t: Thread)
    requires MarkInv(l) && (e.Decrement? ==> l.count != 1)
    requires Current(Apply(l, e), t)
    ensures Current(l, t)
  {
  }

  lemma ApplyUnique(l: Ledger, e: Entry)
    requires Inv(l) && Enabled(l, e)
    ensures UniqueInv(Apply(l, e))
  {
    assert l.count == 0 ==> l.refs == multiset{};
    if e.Decrement? && l.count == 1 {
      DecrementUnique(l, e.t);
    } else {
      forall t | Current(Apply(l, e), t)
        ensures Current(l, t)
      {
        NoNewClaim(l, e, t);
      }
    }
  }

  lemma ApplyInv(l: Ledger, e: Entry)
    requires Inv(l) && Enabled(l, e)
    ensures Inv(Apply(l, e))
  {
    ApplyCount(l, e);
    ApplyMark(l, e);
    ApplyOrder(l, e);
    ApplyClear(l, e);
    ApplyFresh(l, e);
    ApplyUnique(l, e);
  }

  // ----- what the invariant says about finalization

  lemma ImmortalGrows(l: Ledger, e: Entry)
    ensures Apply(l, e).immortal >= l.immortal
  {
  }

  lemma FrozenOnceCleared(l: Ledger, e: Entry)
    requires Inv(l) && l.past.cleared && Enabled(l, e)
    ensures Apply(l, e).epoch == l.epoch && Apply(l, e).count == 0 && Apply(l, e).past.cleared
  {
    assert l.refs == multiset{};
  }

  lemma FinalizesAtMostOnce(l: Ledger)
    requires Inv(l) && !l.past.overlap
    ensures |l.past.finalizers| <= 1
  {
    var f := l.past.finalizers;
    if f != [] {
      assert f[0] in l.past.claimants;
      assert Elements(f) == {f[0]};
      NoDupCardinality(f);
    }
  }

  lemma FinalizersAreClaimants(l: Ledger)
    requires Inv(l) && l.past.cleared && l.passed == {} && l.claims == map[]
    ensures |l.past.finalizers| == |l.past.claimants| >= 1
  {
    NoDupCardinality(l.past.finalizers);
    assert l.past.claimants == Elements(l.past.finalizers);
  }

  lemma FinalizedIffFresh(l: Ledger)
    requires Inv(l) && Dead(l) && l.passed == {} && l.claims == map[]
    ensures l.past.finalizers != [] <==> l.past.lastFresh
  {
    if l.past.cleared {
      FinalizersAreClaimants(l);
    }
  }
}
