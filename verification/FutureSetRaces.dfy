/**
 * Children of a future set that complete on several threads at once.
 *
 * A child is counted under the mutex of the set, but the verdict it brings lands after the unlock,
 * so verdicts may land in another order than they were made.
 */
module FutureSetRaces {
  import opened Common
  import opened Futures
  import opened FutureSets

  // The children counted and the verdicts made so far, and which verdict landed first.
  datatype Race = Race(tally: Tally, arrived: nat, counted: seq<Result>, made: seq<Result>, winner: Option<nat>)

  datatype Action = Count(x: Result) | Land(i: nat)

  function Start(n: nat, flags: Flags): Race {
    Race(Tally(n, flags, 0, 0, None), 0, [], [], None)
  }

  // Every child is propagated once at most.
  predicate Enabled(r: Race, a: Action) {
    match a
    case Count(_) => r.arrived < r.tally.n
    case Land(i) => i < |r.made|
  }

  function Act(r: Race, a: Action): Race
    requires Enabled(r, a)
  {
    match a
    case Count(x) =>
      if r.tally.status.Some? then r.(arrived := r.arrived + 1) else
        var t := Counted(r.tally, x);
        var v := Verdict(t.flags, t.resolved + t.rejected == t.n, x);
        r.(tally := t, arrived := r.arrived + 1, counted := r.counted + [x],
           made := r.made + if v.Some? then [v.value] else [])
    case Land(i) =>
      if r.tally.status.Some? then r else
        r.(tally := r.tally.(status := Some(r.made[i])), winner := Some(i))
  }

  ghost predicate Legal(r: Race, run: seq<Action>)
    decreases run
  {
    run == [] || (Enabled(r, run[0]) && Legal(Act(r, run[0]), run[1..]))
  }

  ghost function After(r: Race, run: seq<Action>): Race
    requires Legal(r, run)
    decreases run
  {
    if run == [] then r else After(Act(r, run[0]), run[1..])
  }

  // The set holds the verdict that landed first, of those that the counted children brought; the
  // counters never exceed the number of children.
  ghost predicate Inv(r: Race, n: nat, flags: Flags) {
    && r.tally.n == n && r.tally.flags == flags
    && r.tally.resolved + r.tally.rejected == |r.counted| <= r.arrived <= n
    && r.tally.resolved == Resolves(r.counted)
    && r.made == Verdicts(flags, n, r.counted)
    && (r.winner.Some? ==> r.winner.value < |r.made|)
    && r.tally.status == if r.winner.Some? then Some(r.made[r.winner.value]) else None
  }

  lemma ActInv(r: Race, a: Action, n: nat, flags: Flags)
    requires Inv(r, n, flags) && Enabled(r, a)
    ensures Inv(Act(r, a), n, flags)
  {
    if a.Count? {
      assert (r.counted + [a.x])[..|r.counted|] == r.counted;
    }
  }

  lemma {:induction false} RunInv(r: Race, run: seq<Action>, n: nat, flags: Flags)
    requires Inv(r, n, flags) && Legal(r, run)
    ensures Inv(After(r, run), n, flags)
    decreases run
  {
    if run != [] {
      ActInv(r, run[0], n, flags);
      RunInv(Act(r, run[0]), run[1..], n, flags);
    }
  }

  // The set takes the verdict that lands first; that is what the sequential meaning says if it is
  // also the verdict that was made first.
  lemma FirstMadeFirstLanded(n: nat, flags: Flags, run: seq<Action>)
    requires Legal(Start(n, flags), run)
    ensures var r := After(Start(n, flags), run);
            && (r.winner == Some(0) ==> r.tally.status == Head(Verdicts(flags, n, r.counted)))
            && (r.winner.None? <==> r.tally.status.None?)
            && (r.winner.Some? ==> r.winner.value < |r.made| && r.tally.status == Some(r.made[r.winner.value]))
  {
    RunInv(Start(n, flags), run, n, flags);
  }

  // ----- all() does not race

  lemma {:induction false} AllHasOneVerdict(n: nat, xs: seq<Result>)
    requires |xs| <= n
    ensures |Verdicts(ALL, n, xs)| == if xs != [] && |xs| == n then 1 else 0
  {
    if xs != [] {
      AllHasOneVerdict(n, xs[..|xs| - 1]);
    }
  }

  lemma AllNeverRaces(n: nat, run: seq<Action>)
    requires 0 < n && Legal(Start(n, ALL), run)
    ensures var r := After(Start(n, ALL), run);
            r.tally.status.Some? ==> |r.counted| == n && r.tally.status == AllMeans(n, r.counted)
  {
    RunInv(Start(n, ALL), run, n, ALL);
    var r := After(Start(n, ALL), run);
    AllHasOneVerdict(n, r.counted);
    AllIsMet(n, r.counted);
  }

  // ----- first() takes the result of some child

  lemma {:induction false} FirstHasAllVerdicts(n: nat, xs: seq<Result>)
    ensures Verdicts(FIRST_OF, n, xs) == xs
  {
    if xs != [] {
      FirstHasAllVerdicts(n, xs[..|xs| - 1]);
    }
  }

  lemma FirstTakesTheFirstLanded(n: nat, run: seq<Action>)
    requires Legal(Start(n, FIRST_OF), run)
    ensures var r := After(Start(n, FIRST_OF), run);
            r.tally.status.Some? ==>
              r.winner.Some? && r.winner.value < |r.counted| && r.tally.status == Some(r.counted[r.winner.value])
  {
    RunInv(Start(n, FIRST_OF), run, n, FIRST_OF);
    FirstHasAllVerdicts(n, After(Start(n, FIRST_OF), run).counted);
  }

  // So it takes the first result if the child counted first also lands first, and, when no two
  // children have the same result, only then.
  lemma FirstMetIffFirstLands(n: nat, run: seq<Action>)
    requires Legal(Start(n, FIRST_OF), run) && After(Start(n, FIRST_OF), run).tally.status.Some?
    ensures var r := After(Start(n, FIRST_OF), run);
            && r.winner.Some? && r.winner.value < |r.counted|
            && (r.tally.status == FirstMeans(r.counted) <==> r.counted[r.winner.value] == r.counted[0])
            && (r.winner == Some(0) ==> r.tally.status == FirstMeans(r.counted))
            && (NoDup(r.counted) ==> (r.tally.status == FirstMeans(r.counted) <==> r.winner == Some(0)))
  {
    FirstTakesTheFirstLanded(n, run);
  }

  // ----- any() and all_race()

  // any() favours resolves and all_race() favours rejects.
  predicate Favours(flags: Flags, x: Result) {
    flags & (if x.Resolved? then RESOLVE else REJECT) != 0
  }

  predicate Racing(flags: Flags) {
    flags == ANY || flags == ALL_RACE
  }

  predicate NoneFavoured(flags: Flags, xs: seq<Result>) {
    forall i :: 0 <= i < |xs| ==> !Favours(flags, xs[i])
  }

  // What any() and all_race() promise: the favourable outcome, unless every child failed it.
  predicate Promise(r: Race) {
    r.tally.status.Some? ==>
      (!Favours(r.tally.flags, r.tally.status.value) <==>
         |r.counted| == r.tally.n && NoneFavoured(r.tally.flags, r.counted))
  }

  // The last child was unfavourable, and its verdict overtook one made before.
  predicate Overtaken(r: Race) {
    && |r.counted| == r.tally.n > 0 && !Favours(r.tally.flags, r.counted[|r.counted| - 1])
    && |r.made| > 1 && r.winner == Some(|r.made| - 1)
  }

  lemma NoneFavouredAppend(flags: Flags, xs: seq<Result>, x: Result)
    ensures NoneFavoured(flags, xs + [x]) <==> NoneFavoured(flags, xs) && !Favours(flags, x)
  {
    var all := xs + [x];
    assert all[|xs|] == x && forall i :: 0 <= i < |xs| ==> all[i] == xs[i];
    if NoneFavoured(flags, all) {
      forall i | 0 <= i < |xs|
        ensures !Favours(flags, xs[i])
      {
        assert !Favours(flags, all[i]);
      }
    }
  }

  // All verdicts but that of an unfavourable last child are favourable, and results of children.
  lemma {:induction false} RacingVerdicts(flags: Flags, n: nat, xs: seq<Result>)
    requires Racing(flags) && |xs| <= n
    ensures var vs := Verdicts(flags, n, xs);
            var spoilt := xs != [] && |xs| == n && !Favours(flags, xs[n - 1]);
            && (spoilt ==> vs != [])
            && (forall i :: 0 <= i < |vs| ==> (Favours(flags, vs[i]) <==> !(spoilt && i == |vs| - 1)))
            && (forall i :: 0 <= i < |vs| && Favours(flags, vs[i]) ==> vs[i] in xs)
            && (NoneFavoured(flags, xs) <==> |vs| == if spoilt then 1 else 0)
  {
    if xs != [] {
      var front, x := xs[..|xs| - 1], xs[|xs| - 1];
      RacingVerdicts(flags, n, front);
      assert xs == front + [x];
      NoneFavouredAppend(flags, front, x);
    }
  }

  // The promise is kept if and only if the last child does not overtake.
  lemma PromiseUnlessOvertaken(n: nat, flags: Flags, run: seq<Action>)
    requires Racing(flags) && 0 < n && Legal(Start(n, flags), run)
    ensures var r := After(Start(n, flags), run);
            && (Promise(r) <==> !Overtaken(r))
            && (r.tally.status.Some? && Favours(flags, r.tally.status.value) ==> r.tally.status.value in r.counted)
  {
    RunInv(Start(n, flags), run, n, flags);
    var r := After(Start(n, flags), run);
    PromiseIff(r, n, flags);
  }

  lemma PromiseIff(r: Race, n: nat, flags: Flags)
    requires Racing(flags) && 0 < n && Inv(r, n, flags)
    ensures Promise(r) <==> !Overtaken(r)
    ensures r.tally.status.Some? && Favours(flags, r.tally.status.value) ==> r.tally.status.value in r.counted
  {
    RacingVerdicts(flags, n, r.counted);
  }

  // ----- three runs

  // Two children are counted, and the verdict of the second lands first.
  lemma SecondOvertakes(flags: Flags, x: Result, y: Result, v: Result)
    requires Verdict(flags, false, x).Some? && Verdict(flags, true, y) == Some(v)
    ensures var run := [Count(x), Count(y), Land(1)];
            && Legal(Start(2, flags), run)
            && After(Start(2, flags), run).tally.status == Some(v)
            && After(Start(2, flags), run).counted == [x, y]
            && After(Start(2, flags), run).tally.flags == flags
  {
    var u := Verdict(flags, false, x).value;
    var r1 := Act(Start(2, flags), Count(x));
    assert r1.counted == [x] && r1.made == [u] && r1.tally == Counted(Start(2, flags).tally, x);
    var r2 := Act(r1, Count(y));
    assert r2.counted == [x, y] && r2.made == [u, v] && r2.tally.status.None?;
    var run := [Count(x), Count(y), Land(1)];
    assert run[1..] == [Count(y), Land(1)] && run[1..][1..] == [Land(1)] && [Land(1)][1..] == [];
    var r3 := Act(r2, Land(1));
    assert Legal(r3, []) && After(r3, []) == r3;
    assert Legal(r2, [Land(1)]) && After(r2, [Land(1)]) == r3;
    assert Legal(r1, [Count(y), Land(1)]) && After(r1, [Count(y), Land(1)]) == r3;
  }

  // any() over a child that resolves and one that rejects, rejected.
  lemma AnyMayReject(value: int, error: int)
    ensures var run := [Count(Resolved(value)), Count(Rejected(error)), Land(1)];
            && Legal(Start(2, ANY), run)
            && !Promise(After(Start(2, ANY), run))
            && After(Start(2, ANY), run).tally.status == Some(DEPENDENCY_FAILED)
            && AnyMeans(2, After(Start(2, ANY), run).counted) == Some(Resolved(value))
  {
    SecondOvertakes(ANY, Resolved(value), Rejected(error), DEPENDENCY_FAILED);
    assert Favours(ANY, [Resolved(value), Rejected(error)][0]);
  }

  // all_race() over a child that rejects and one that resolves, resolved.
  lemma AllRaceMayResolve(error: int, value: int)
    ensures var run := [Count(Rejected(error)), Count(Resolved(value)), Land(1)];
            && Legal(Start(2, ALL_RACE), run)
            && !Promise(After(Start(2, ALL_RACE), run))
            && After(Start(2, ALL_RACE), run).tally.status == Some(SUCCESS)
            && AllRaceMeans(2, After(Start(2, ALL_RACE), run).counted) == Some(Rejected(error))
  {
    SecondOvertakes(ALL_RACE, Rejected(error), Resolved(value), SUCCESS);
    assert Favours(ALL_RACE, [Rejected(error), Resolved(value)][0]);
  }

  // first() with the result of the second child.
  lemma FirstMayMiss(x: Result, y: Result)
    requires x != y
    ensures var run := [Count(x), Count(y), Land(1)];
            && Legal(Start(2, FIRST_OF), run)
            && After(Start(2, FIRST_OF), run).tally.status == Some(y)
            && FirstMeans(After(Start(2, FIRST_OF), run).counted) == Some(x)
  {
    SecondOvertakes(FIRST_OF, x, y, y);
  }
}
