/** The combinators all(), any(), all_race() and first() (src/dex-future-set.c). */
module FutureSets {
  import opened Common
  import opened Futures

  type Flags = bv4
  const FIRST: Flags := 1
  const RESOLVE: Flags := 2
  const REJECT: Flags := 4

  const ALL: Flags := 0
  const ANY: Flags := 3
  const ALL_RACE: Flags := 5
  const FIRST_OF: Flags := 7

  // The value TRUE, and the error DEX_ERROR_DEPENDENCY_FAILED.
  const SUCCESS := Resolved(1)
  const DEPENDENCY_FAILED := Rejected(0)

  // What the mutex of a set protects.
  datatype Tally = Tally(n: nat, flags: Flags, resolved: nat, rejected: nat, status: Option<Result>)

  // What a child decides about the set when its result is counted, as the last one or not.
  function Verdict(flags: Flags, last: bool, x: Result): Option<Result> {
    var passes := flags & (if x.Resolved? then RESOLVE else REJECT) != 0;
    if passes && (last || flags & FIRST != 0) then Some(x)
    else if last then Some(if x.Resolved? then SUCCESS else DEPENDENCY_FAILED)
    else None
  }

  function Counted(t: Tally, x: Result): Tally {
    if t.status.Some? then t
    else if x.Resolved? then t.(resolved := t.resolved + 1)
    else t.(rejected := t.rejected + 1)
  }

  class FutureSet {
    const n: nat
    const flags: Flags
    var resolved: nat
    var rejected: nat
    var status: Option<Result>

    function Value(): Tally
      reads this
    {
      Tally(n, flags, resolved, rejected, status)
    }

    constructor (n: nat, flags: Flags)
      ensures Value() == Tally(n, flags, 0, 0, None)
    {
      this.n, this.flags := n, flags;
      resolved, rejected, status := 0, 0, None;
    }

    // dex_future_set_propagate() up to the completion: the region under the mutex, and what is
    // then decided without it.
    method Count(x: Result) returns (verdict: Option<Result>)
      requires status.None? ==> resolved + rejected < n
      modifies this`resolved, this`rejected
      ensures Value() == Counted(old(Value()), x)
      ensures verdict == if status.Some? then None else Verdict(flags, resolved + rejected == n, x)
    {
      if status.Some? {
        return None;
      }
      match x {
        case Resolved(_) => resolved := resolved + 1;
        case Rejected(_) => rejected := rejected + 1;
      }
      var active := n - rejected - resolved;
      verdict := None;
      if active == 0 {
        if x.Resolved? {
          verdict := Some(if flags & RESOLVE != 0 then x else SUCCESS);
        } else {
          verdict := Some(if flags & REJECT != 0 then x else DEPENDENCY_FAILED);
        }
      } else if flags & FIRST != 0 {
        if x.Resolved? && flags & RESOLVE != 0 {
          verdict := Some(x);
        } else if x.Rejected? && flags & REJECT != 0 {
          verdict := Some(x);
        }
      }
    }

    method Land(verdict: Result)
      modifies this`status
      ensures status == if old(status).None? then Some(verdict) else old(status)
    {
      if status.None? {
        status := Some(verdict);
      }
    }

    method Propagate(x: Result)
      requires status.None? ==> resolved + rejected < n
      modifies this
      ensures var t := Counted(old(Value()), x);
              var v := if t.status.Some? then None else Verdict(flags, t.resolved + t.rejected == n, x);
              Value() == t.(status := if v.Some? then v else t.status)
    {
      var verdict := Count(x);
      if verdict.Some? {
        Land(verdict.value);
      }
    }
  }

  // ----- what the counters amount to

  // The verdicts of a sequence of results out of n, in order.
  function Verdicts(flags: Flags, n: nat, xs: seq<Result>): seq<Result> {
    if xs == [] then [] else
      var v := Verdict(flags, |xs| == n, xs[|xs| - 1]);
      Verdicts(flags, n, xs[..|xs| - 1]) + if v.Some? then [v.value] else []
  }

  function Head<T>(s: seq<T>): Option<T> {
    if s == [] then None else Some(s[0])
  }

  // Counting one propagation after the other, the set takes the first verdict, exactly when it
  // is reached.
  method Gather(n: nat, flags: Flags, xs: seq<Result>) returns (status: Option<Result>)
    requires |xs| <= n
    ensures status == Head(Verdicts(flags, n, xs))
  {
    var s := new FutureSet(n, flags);
    for i := 0 to |xs|
      invariant s.n == n && s.flags == flags
      invariant s.status == Head(Verdicts(flags, n, xs[..i]))
      invariant s.status.None? ==> s.resolved + s.rejected == i
    {
      assert xs[..i + 1][..i] == xs[..i];
      s.Propagate(xs[i]);
    }
    assert xs[..|xs|] == xs;
    status := s.status;
  }

  // ----- the pure meaning of the four combinators

  function FirstResolve(xs: seq<Result>): Option<Result> {
    if xs == [] then None else if xs[0].Resolved? then Some(xs[0]) else FirstResolve(xs[1..])
  }

  function FirstReject(xs: seq<Result>): Option<Result> {
    if xs == [] then None else if xs[0].Rejected? then Some(xs[0]) else FirstReject(xs[1..])
  }

  // How many of the results are resolves.
  function Resolves(xs: seq<Result>): nat {
    if xs == [] then 0 else Resolves(xs[..|xs| - 1]) + if xs[|xs| - 1].Resolved? then 1 else 0
  }

  // first() takes the first result of all.
  function FirstMeans(xs: seq<Result>): Option<Result> {
    Head(xs)
  }

  // any() takes the first resolve, and rejects if and only if all have rejected.
  function AnyMeans(n: nat, xs: seq<Result>): Option<Result> {
    if FirstResolve(xs).Some? then FirstResolve(xs)
    else if |xs| == n then Some(DEPENDENCY_FAILED)
    else None
  }

  // all_race() takes the first reject, and resolves if and only if all have resolved.
  function AllRaceMeans(n: nat, xs: seq<Result>): Option<Result> {
    if FirstReject(xs).Some? then FirstReject(xs)
    else if |xs| == n then Some(SUCCESS)
    else None
  }

  // all() completes at the last child, with the status of that child.
  function AllMeans(n: nat, xs: seq<Result>): Option<Result> {
    if |xs| < n || xs == [] then None
    else Some(if xs[|xs| - 1].Resolved? then SUCCESS else DEPENDENCY_FAILED)
  }

  lemma {:induction false} FirstResolveAppend(xs: seq<Result>, x: Result)
    ensures FirstResolve(xs + [x]) ==
              if FirstResolve(xs).Some? then FirstResolve(xs) else if x.Resolved? then Some(x) else None
    ensures FirstReject(xs + [x]) ==
              if FirstReject(xs).Some? then FirstReject(xs) else if x.Rejected? then Some(x) else None
  {
    if xs != [] {
      assert (xs + [x])[1..] == xs[1..] + [x];
      FirstResolveAppend(xs[1..], x);
    }
  }

  lemma VerdictsAppend(flags: Flags, n: nat, xs: seq<Result>, x: Result)
    ensures Head(Verdicts(flags, n, xs + [x])) ==
              if Verdicts(flags, n, xs) != [] then Head(Verdicts(flags, n, xs)) else Verdict(flags, |xs| + 1 == n, x)
  {
    assert (xs + [x])[..|xs|] == xs;
  }

  lemma {:induction false} FirstIsMet(n: nat, xs: seq<Result>)
    requires 0 < n && |xs| <= n
    ensures Head(Verdicts(FIRST_OF, n, xs)) == FirstMeans(xs)
  {
    if xs != [] {
      var front, x := xs[..|xs| - 1], xs[|xs| - 1];
      assert xs == front + [x];
      FirstIsMet(n, front);
      VerdictsAppend(FIRST_OF, n, front, x);
    }
  }

  lemma {:induction false} AnyIsMet(n: nat, xs: seq<Result>)
    requires 0 < n && |xs| <= n
    ensures Head(Verdicts(ANY, n, xs)) == AnyMeans(n, xs)
  {
    if xs != [] {
      var front, x := xs[..|xs| - 1], xs[|xs| - 1];
      assert xs == front + [x];
      AnyIsMet(n, front);
      VerdictsAppend(ANY, n, front, x);
      FirstResolveAppend(front, x);
    }
  }

  lemma {:induction false} AllRaceIsMet(n: nat, xs: seq<Result>)
    requires 0 < n && |xs| <= n
    ensures Head(Verdicts(ALL_RACE, n, xs)) == AllRaceMeans(n, xs)
  {
    if xs != [] {
      var front, x := xs[..|xs| - 1], xs[|xs| - 1];
      assert xs == front + [x];
      AllRaceIsMet(n, front);
      VerdictsAppend(ALL_RACE, n, front, x);
      FirstResolveAppend(front, x);
    }
  }

  lemma {:induction false} AllIsMet(n: nat, xs: seq<Result>)
    requires 0 < n && |xs| <= n
    ensures Head(Verdicts(ALL, n, xs)) == AllMeans(n, xs)
  {
    if xs != [] {
      var front, x := xs[..|xs| - 1], xs[|xs| - 1];
      assert xs == front + [x];
      AllIsMet(n, front);
      VerdictsAppend(ALL, n, front, x);
    }
  }

  // ----- building a set from a list of arguments

  const EMBEDDED: nat := 2

  method Resized(from: array<nat>, n: nat, capacity: nat) returns (bigger: array<nat>)
    requires n <= from.Length && n <= capacity
    ensures fresh(bigger) && bigger.Length == capacity && bigger[..n] == from[..n]
  {
    bigger := new nat[capacity];
    for j := 0 to n
      invariant bigger[..j] == from[..j]
    {
      bigger[j] := from[j];
    }
  }

  // The loop of dex_future_set_new_va(): two embedded places first, then an array of eight that
  // doubles; no child is lost or moved, and none is stored out of bounds.
  method Collect(children: seq<nat>) returns (futures: array<nat>, n: nat)
    ensures n == |children| <= futures.Length && futures[..n] == children
  {
    var capacity: nat := 8;
    futures := new nat[EMBEDDED];
    n := 0;
    while n < |children|
      invariant n <= |children| && 8 <= capacity && fresh(futures)
      invariant futures.Length == if n <= EMBEDDED then EMBEDDED else capacity
      invariant n <= futures.Length && futures[..n] == children[..n]
      decreases |children| - n
    {
      if n == EMBEDDED {
        futures := Resized(futures, n, capacity);
      } else if n + 1 > capacity {
        capacity := 2 * capacity;
        futures := Resized(futures, n, capacity);
      }
      futures[n] := children[n];
      n := n + 1;
    }
  }
}
