/**
 * Task groups with flags NONE that are closed, not cancelled (src/dex-task-group.c).  A step is a
 * region under the mutex; the completion that a region decides on lands in a step of its own.
 */
module TaskGroups {
  import opened Common
  import opened Futures
  import opened FutureSets

  datatype Scope = Scope(
    pending: nat,
    resolved: nat,
    rejected: nat,
    firstError: Option<Result>,
    closed: bool,
    status: Option<Result>
  )

  const OPEN := Scope(0, 0, 0, None, false, None)

  // ----- specification of the regions

  function Added(s: Scope): Scope {
    if s.closed then s else s.(pending := s.pending + 1)
  }

  function Recorded(s: Scope, x: Result): Scope {
    if s.pending == 0 then s
    else if x.Resolved? then s.(pending := s.pending - 1, resolved := s.resolved + 1)
    else s.(pending := s.pending - 1, rejected := s.rejected + 1,
            firstError := if s.firstError.None? then Some(x) else s.firstError)
  }

  // What the group completes with once it is closed and nothing is pending.
  function Conclusion(s: Scope): Result {
    if s.rejected == 0 then SUCCESS else if s.firstError.Some? then s.firstError.value else DEPENDENCY_FAILED
  }

  function RecordVerdict(s: Scope, x: Result): Option<Result> {
    var t := Recorded(s, x);
    if s.pending > 0 && t.closed && t.pending == 0 then Some(Conclusion(t)) else None
  }

  function CloseVerdict(s: Scope): Option<Result> {
    if s.pending == 0 && s.status.None? && (s.rejected == 0 || s.firstError.Some?) then Some(Conclusion(s)) else None
  }

  class TaskGroup {
    var pending: nat
    var resolved: nat
    var rejected: nat
    var firstError: Option<Result>
    var closed: bool
    var status: Option<Result>

    function Value(): Scope
      reads this
    {
      Scope(pending, resolved, rejected, firstError, closed, status)
    }

    constructor ()
      ensures Value() == OPEN
    {
      pending, resolved, rejected, firstError, closed, status := 0, 0, 0, None, false, None;
    }

    method Add() returns (ok: bool)
      modifies this
      ensures Value() == Added(old(Value())) && ok == !closed
    {
      ok := !closed;
      if ok {
        pending := pending + 1;
      }
    }

    method Propagate(x: Result) returns (verdict: Option<Result>)
      modifies this
      ensures Value() == Recorded(old(Value()), x) && verdict == RecordVerdict(old(Value()), x)
    {
      verdict := None;
      if pending > 0 {
        pending := pending - 1;
        var error: Option<Result> := None;
        if x.Resolved? {
          resolved := resolved + 1;
        } else {
          rejected := rejected + 1;
          if firstError.None? {
            firstError := Some(x);
            error := firstError;
          }
        }
        if closed && pending == 0 {
          if rejected != 0 && firstError.Some? && error.None? {
            error := firstError;
          }
          if rejected == 0 {
            verdict := Some(SUCCESS);
          } else {
            verdict := Some(if error.None? then DEPENDENCY_FAILED else error.value);
          }
        }
      }
    }

    method Close() returns (verdict: Option<Result>)
      modifies this
      ensures Value() == old(Value()).(closed := true) && verdict == CloseVerdict(old(Value()))
    {
      closed := true;
      var success, error := false, None;
      if pending == 0 && status.None? {
        success := rejected == 0;
        if !success && firstError.Some? {
          error := firstError;
        }
      }
      verdict := if success then Some(SUCCESS) else error;
    }
  }

  // ----- any interleaving of adds, completions, closes and landings

  // Verdicts in flight were decided on under the mutex and are yet to land.  The history counts
  // the children added and lists the results of those that completed, in order.
  datatype Run = Run(scope: Scope, flying: seq<Result>, added: nat, done: seq<Result>)

  const START := Run(OPEN, [], 0, [])

  datatype Action = Add | Complete(x: Result) | Close | Land(i: nat)

  // Every child added completes once at most.
  predicate Enabled(r: Run, a: Action) {
    match a
    case Complete(_) => |r.done| < r.added
    case Land(i) => i < |r.flying|
    case _ => true
  }

  function Fly(flying: seq<Result>, v: Option<Result>): seq<Result> {
    if v.Some? then flying + [v.value] else flying
  }

  function Act(r: Run, a: Action): Run
    requires Enabled(r, a)
  {
    match a
    case Add => r.(scope := Added(r.scope), added := if r.scope.closed then r.added else r.added + 1)
    case Complete(x) =>
      r.(scope := Recorded(r.scope, x), flying := Fly(r.flying, RecordVerdict(r.scope, x)), done := r.done + [x])
    case Close => r.(scope := r.scope.(closed := true), flying := Fly(r.flying, CloseVerdict(r.scope)))
    case Land(i) =>
      r.(scope := if r.scope.status.None? then r.scope.(status := Some(r.flying[i])) else r.scope,
         flying := r.flying[..i] + r.flying[i + 1..])
  }

  ghost predicate Legal(r: Run, actions: seq<Action>)
    decreases actions
  {
    actions == [] || (Enabled(r, actions[0]) && Legal(Act(r, actions[0]), actions[1..]))
  }

  ghost function After(r: Run, actions: seq<Action>): Run
    requires Legal(r, actions)
    decreases actions
  {
    if actions == [] then r else After(Act(r, actions[0]), actions[1..])
  }

  // What a group means: success, unless a child was rejected; then the first rejection.
  function Meaning(done: seq<Result>): Result {
    if FirstReject(done).Some? then FirstReject(done).value else SUCCESS
  }

  ghost predicate Finished(r: Run) {
    r.scope.closed && r.scope.pending == 0
  }

  ghost predicate CountsOk(r: Run) {
    && r.scope.resolved + r.scope.rejected == |r.done|
    && r.scope.resolved == Resolves(r.done)
    && r.scope.pending + |r.done| == r.added
    && r.scope.firstError == FirstReject(r.done)
    && (r.scope.rejected == 0 <==> r.scope.firstError.None?)
  }

  ghost predicate AllAre(flying: seq<Result>, v: Result) {
    forall i :: 0 <= i < |flying| ==> flying[i] == v
  }

  ghost predicate VerdictsOk(r: Run) {
    && AllAre(r.flying, Meaning(r.done)) && (r.flying != [] ==> Finished(r))
    && (r.scope.status.Some? ==> Finished(r) && r.scope.status.value == Meaning(r.done))
    && (Finished(r) ==> r.scope.status.Some? || r.flying != [])
  }

  lemma ActCounts(r: Run, a: Action)
    requires CountsOk(r) && Enabled(r, a)
    ensures CountsOk(Act(r, a))
  {
    if a.Complete? {
      FirstResolveAppend(r.done, a.x);
      assert (r.done + [a.x])[..|r.done|] == r.done;
    }
  }

  lemma ConclusionIsMeaning(r: Run)
    requires CountsOk(r)
    ensures Conclusion(r.scope) == Meaning(r.done)
  {
  }

  lemma ActVerdicts(r: Run, a: Action)
    requires CountsOk(r) && VerdictsOk(r) && Enabled(r, a)
    ensures VerdictsOk(Act(r, a))
  {
    ActCounts(r, a);
    var r' := Act(r, a);
    ConclusionIsMeaning(r);
    ConclusionIsMeaning(r');
    if a.Complete? {
      assert !Finished(r) && r.flying == [];
    }
    assert AllAre(r'.flying, Meaning(r'.done));
  }

  lemma {:induction false} RunOk(r: Run, actions: seq<Action>)
    requires CountsOk(r) && VerdictsOk(r) && Legal(r, actions)
    ensures CountsOk(After(r, actions)) && VerdictsOk(After(r, actions))
    decreases actions
  {
    if actions != [] {
      ActCounts(r, actions[0]);
      ActVerdicts(r, actions[0]);
      RunOk(Act(r, actions[0]), actions[1..]);
    }
  }

  // ----- the theorems

  ghost predicate Reachable(r: Run) {
    exists actions :: Legal(START, actions) && After(START, actions) == r
  }

  lemma ReachableOk(r: Run)
    requires Reachable(r)
    ensures CountsOk(r) && VerdictsOk(r)
  {
    var actions :| Legal(START, actions) && After(START, actions) == r;
    RunOk(START, actions);
  }

  // The counters add up to the children added.
  lemma CountersAddUp(r: Run)
    requires Reachable(r)
    ensures r.scope.pending + r.scope.resolved + r.scope.rejected == r.added
    ensures r.scope.pending == r.added - |r.done| && r.scope.resolved == Resolves(r.done)
  {
    ReachableOk(r);
  }

  // The children offered before the group is closed, and the results of completed children.
  function AddsBeforeClose(actions: seq<Action>): nat {
    if actions == [] || actions[0].Close? then 0
    else (if actions[0].Add? then 1 else 0) + AddsBeforeClose(actions[1..])
  }

  function Results(actions: seq<Action>): seq<Result> {
    if actions == [] then [] else (if actions[0].Complete? then [actions[0].x] else []) + Results(actions[1..])
  }

  lemma {:induction false} HistoryFrom(r: Run, actions: seq<Action>)
    requires Legal(r, actions)
    ensures var r' := After(r, actions);
            && (r'.scope.closed <==> r.scope.closed || Close in actions)
            && r'.added == r.added + (if r.scope.closed then 0 else AddsBeforeClose(actions))
            && r'.done == r.done + Results(actions)
    decreases actions
  {
    if actions != [] {
      HistoryFrom(Act(r, actions[0]), actions[1..]);
      assert actions == [actions[0]] + actions[1..];
    }
  }

  // The group is closed from the first close on, its children are those added before, and what it
  // has seen are the results of their completions, in order.
  lemma ClosedToLateChildren(actions: seq<Action>)
    requires Legal(START, actions)
    ensures var r := After(START, actions);
            && (r.scope.closed <==> Close in actions)
            && r.added == AddsBeforeClose(actions)
            && r.done == Results(actions)
  {
    HistoryFrom(START, actions);
  }

  // Whenever the group is complete, it was closed, all its children have completed, and it holds
  // TRUE if none was rejected and the first rejection otherwise.
  lemma CompleteOnlyWhenFinished(r: Run)
    requires Reachable(r) && r.scope.status.Some?
    ensures r.scope.closed && |r.done| == r.added && r.scope.status.value == Meaning(r.done)
  {
    ReachableOk(r);
  }

  // And it is complete as soon as that is so and no verdict is left to land.
  lemma CompleteOnceFinished(r: Run)
    requires Reachable(r) && r.flying == []
    ensures r.scope.status.Some? <==> r.scope.closed && |r.done| == r.added
  {
    ReachableOk(r);
  }

  // A complete group stays as it is.
  lemma CompleteForGood(r: Run, actions: seq<Action>)
    requires Reachable(r) && Legal(r, actions) && r.scope.status.Some?
    ensures After(r, actions).scope == r.scope && After(r, actions).done == r.done
  {
    ReachableOk(r);
    NothingHappens(r, actions);
  }

  lemma {:induction false} NothingHappens(r: Run, actions: seq<Action>)
    requires CountsOk(r) && VerdictsOk(r) && Legal(r, actions) && r.scope.status.Some?
    ensures After(r, actions).scope == r.scope && After(r, actions).done == r.done
    decreases actions
  {
    if actions != [] {
      ActCounts(r, actions[0]);
      ActVerdicts(r, actions[0]);
      NothingHappens(Act(r, actions[0]), actions[1..]);
    }
  }
}
