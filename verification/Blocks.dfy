/**
 * The blocks behind then(), catch(), finally() and their loops (src/dex-block.c).
 *
 * At any time one thing at most can happen to a block next: the future it awaits propagates to it,
 * or the scheduler runs the callback that was pushed to it.  Each is a call below, made on any
 * thread, at any depth.
 */
module Blocks {
  import opened Common
  import opened Futures

  type Kind = bv3
  const THEN: Kind := 1
  const CATCH: Kind := 2
  const FINALLY: Kind := 3
  const LOOP: Kind := 4

  const RECURSE_MAX: nat := 4

  // What a callback returns: NULL, or a future that completes with a result; whether it has done
  // so by the time the block chains to it is for the environment to say.
  datatype Reply = Null | Delayed(result: Result, already: bool)

  // A callback may answer each of its calls differently.
  type Callback = (nat, Result) -> Reply

  // What dex_block_propagate() finds out about the thread it is on.
  datatype Env = Env(inFiber: bool, sameScheduler: bool, depth: nat)

  predicate Handles(kind: Kind, r: Result) {
    match r
    case Resolved(_) => kind & THEN != 0
    case Rejected(_) => kind & CATCH != 0
  }

  predicate Loops(kind: Kind) {
    kind & LOOP != 0
  }

  // ----- the pure evaluation

  // Whether the callback runs on the result in hand, after n runs.
  predicate Proceeds(kind: Kind, n: nat, r: Result) {
    (n == 0 || Loops(kind)) && Handles(kind, r)
  }

  function Outcome(r: Reply): Option<Result> {
    if r.Null? then None else Some(r.result)
  }

  // The result in hand after n futures were returned by the callback, if it comes to that.
  function InHand(kind: Kind, cb: Callback, input: Result, n: nat): Option<Result> {
    if n == 0 then Some(input) else
      var before := InHand(kind, cb, input, n - 1);
      if before.Some? && Proceeds(kind, n - 1, before.value) then Outcome(cb(n - 1, before.value)) else None
  }

  predicate Stops(kind: Kind, cb: Callback, n: nat, r: Result) {
    !Proceeds(kind, n, r) || cb(n, r).Null?
  }

  // The evaluation ends after n returned futures, with a result.
  predicate EndsAt(kind: Kind, cb: Callback, input: Result, n: nat, result: Result) {
    InHand(kind, cb, input, n) == Some(result) && Stops(kind, cb, n, result)
  }

  ghost predicate Evaluates(kind: Kind, cb: Callback, input: Result, result: Result) {
    exists n: nat :: EndsAt(kind, cb, input, n, result)
  }

  lemma {:induction false} InHandPrefix(kind: Kind, cb: Callback, input: Result, n: nat, m: nat)
    requires n < m && InHand(kind, cb, input, m).Some?
    ensures InHand(kind, cb, input, n).Some? && !Stops(kind, cb, n, InHand(kind, cb, input, n).value)
  {
    if n + 1 < m {
      InHandPrefix(kind, cb, input, n, m - 1);
    }
  }

  // There is one result at most.
  lemma EvaluationIsUnique(kind: Kind, cb: Callback, input: Result, n: nat, r: Result, n': nat, r': Result)
    requires EndsAt(kind, cb, input, n, r) && EndsAt(kind, cb, input, n', r')
    ensures n == n' && r == r'
  {
    if n < n' {
      InHandPrefix(kind, cb, input, n, n');
    } else if n' < n {
      InHandPrefix(kind, cb, input, n', n);
    }
  }

  // then(), catch() and finally(): keep a result that is not handled, or is answered by NULL;
  // follow the returned future otherwise.
  lemma OnceKinds(kind: Kind, cb: Callback, input: Result, result: Result)
    requires !Loops(kind)
    ensures Evaluates(kind, cb, input, result) <==>
              var handled := if input.Resolved? then kind & THEN != 0 else kind & CATCH != 0;
              result == if handled && cb(0, input).Delayed? then cb(0, input).result else input
  {
    var n := if Handles(kind, input) && cb(0, input).Delayed? then 1 else 0;
    var r := if n == 1 then cb(0, input).result else input;
    assert InHand(kind, cb, input, 0) == Some(input);
    assert InHand(kind, cb, input, n) == Some(r);
    assert EndsAt(kind, cb, input, n, r);
    if m: nat :| EndsAt(kind, cb, input, m, result) {
      EvaluationIsUnique(kind, cb, input, n, r, m, result);
    }
  }

  // The loops: go on until a result is not handled, or is answered by NULL.
  lemma LoopKinds(kind: Kind, cb: Callback, input: Result, result: Result)
    requires Loops(kind) && Evaluates(kind, cb, input, result)
    ensures exists n: nat :: InHand(kind, cb, input, n) == Some(result)
                        && ((if result.Resolved? then kind & THEN == 0 else kind & CATCH == 0) || cb(n, result).Null?)
                        && forall i :: 0 <= i < n ==> GoesOn(kind, cb, input, i)
  {
    var n: nat :| EndsAt(kind, cb, input, n, result);
    forall i | 0 <= i < n
      ensures GoesOn(kind, cb, input, i)
    {
      InHandPrefix(kind, cb, input, i, n);
    }
  }

  ghost predicate GoesOn(kind: Kind, cb: Callback, input: Result, i: nat) {
    var r := InHand(kind, cb, input, i);
    && r.Some? && cb(i, r.value).Delayed?
    && if r.value.Resolved? then kind & THEN != 0 else kind & CATCH != 0
  }

  // ----- what each kind means

  // What a callback makes of the result in hand: the result of the future it returns, or, when it
  // returns NULL, the same.
  function Answered(cb: Callback, n: nat, r: Result): Result {
    match cb(n, r)
    case Null => r
    case Delayed(result, _) => result
  }

  // then() follows a resolve and keeps a reject.
  lemma ThenMeans(cb: Callback, input: Result, result: Result)
    ensures Evaluates(THEN, cb, input, result) <==>
              result == match input { case Resolved(_) => Answered(cb, 0, input) case Rejected(_) => input }
  {
    OnceKinds(THEN, cb, input, result);
  }

  // catch() follows a reject and keeps a resolve.
  lemma CatchMeans(cb: Callback, input: Result, result: Result)
    ensures Evaluates(CATCH, cb, input, result) <==>
              result == match input { case Resolved(_) => input case Rejected(_) => Answered(cb, 0, input) }
  {
    OnceKinds(CATCH, cb, input, result);
  }

  // finally() follows both.
  lemma FinallyMeans(cb: Callback, input: Result, result: Result)
    ensures Evaluates(FINALLY, cb, input, result) <==> result == Answered(cb, 0, input)
  {
    OnceKinds(FINALLY, cb, input, result);
  }

  // A loop passes from result to result, as long as it is for the result in hand and the callback
  // returns a future for it.
  ghost predicate IsLoop(cb: Callback, on: Result -> bool, passes: seq<Result>) {
    var last := |passes| - 1;
    && passes != []
    && (forall i :: 0 <= i < last ==>
          on(passes[i]) && cb(i, passes[i]).Delayed? && cb(i, passes[i]).result == passes[i + 1])
    && (on(passes[last]) ==> cb(last, passes[last]).Null?)
  }

  ghost predicate LoopsTo(cb: Callback, on: Result -> bool, input: Result, result: Result) {
    exists passes :: IsLoop(cb, on, passes) && passes[0] == input && passes[|passes| - 1] == result
  }

  // then_loop() goes on over resolves, up to the first reject or NULL.
  lemma ThenLoopMeans(cb: Callback, input: Result, result: Result)
    ensures Evaluates(THEN | LOOP, cb, input, result) <==> LoopsTo(cb, (r: Result) => r.Resolved?, input, result)
  {
    LoopMeans(THEN | LOOP, cb, (r: Result) => r.Resolved?, input, result);
  }

  // catch_loop() goes on over rejects, up to the first resolve or NULL.
  lemma CatchLoopMeans(cb: Callback, input: Result, result: Result)
    ensures Evaluates(CATCH | LOOP, cb, input, result) <==> LoopsTo(cb, (r: Result) => r.Rejected?, input, result)
  {
    LoopMeans(CATCH | LOOP, cb, (r: Result) => r.Rejected?, input, result);
  }

  // finally_loop() goes on over both, up to the first NULL.
  lemma FinallyLoopMeans(cb: Callback, input: Result, result: Result)
    ensures Evaluates(FINALLY | LOOP, cb, input, result) <==> LoopsTo(cb, (r: Result) => true, input, result)
  {
    LoopMeans(FINALLY | LOOP, cb, (r: Result) => true, input, result);
  }

  lemma LoopMeans(kind: Kind, cb: Callback, on: Result -> bool, input: Result, result: Result)
    requires Loops(kind) && forall r :: Handles(kind, r) <==> on(r)
    ensures Evaluates(kind, cb, input, result) <==> LoopsTo(cb, on, input, result)
  {
    if n: nat :| EndsAt(kind, cb, input, n, result) {
      EvaluationPasses(kind, cb, on, input, n, result);
    }
    if passes :| IsLoop(cb, on, passes) && passes[0] == input && passes[|passes| - 1] == result {
      PassesAreInHand(kind, cb, on, input, passes, |passes| - 1);
      assert EndsAt(kind, cb, input, |passes| - 1, result);
    }
  }

  // The results in hand of an evaluation are the passes of a loop.
  lemma EvaluationPasses(kind: Kind, cb: Callback, on: Result -> bool, input: Result, n: nat, result: Result)
    requires Loops(kind) && (forall r :: Handles(kind, r) <==> on(r)) && EndsAt(kind, cb, input, n, result)
    ensures LoopsTo(cb, on, input, result)
  {
    var passes := seq(n + 1, i requires 0 <= i <= n =>
      if InHand(kind, cb, input, i).Some? then InHand(kind, cb, input, i).value else input);
    forall i | 0 <= i < n
      ensures on(passes[i]) && cb(i, passes[i]).Delayed? && cb(i, passes[i]).result == passes[i + 1]
    {
      InHandPrefix(kind, cb, input, i, n);
      if i + 1 < n {
        InHandPrefix(kind, cb, input, i + 1, n);
      }
    }
    assert IsLoop(cb, on, passes) && passes[0] == input && passes[n] == result;
  }

  lemma {:induction false} PassesAreInHand(kind: Kind, cb: Callback, on: Result -> bool, input: Result,
                                           passes: seq<Result>, i: nat)
    requires Loops(kind) && forall r :: Handles(kind, r) <==> on(r)
    requires IsLoop(cb, on, passes) && passes[0] == input && i < |passes|
    ensures InHand(kind, cb, input, i) == Some(passes[i])
  {
    if i > 0 {
      PassesAreInHand(kind, cb, on, input, passes, i - 1);
    }
  }

  // When the returned futures complete does not matter.
  lemma {:induction false} TimingIsIrrelevant(kind: Kind, cb: Callback, cb': Callback, input: Result, n: nat)
    requires forall i, r :: Outcome(cb(i, r)) == Outcome(cb'(i, r))
    ensures InHand(kind, cb, input, n) == InHand(kind, cb', input, n)
    ensures forall r :: EndsAt(kind, cb, input, n, r) <==> EndsAt(kind, cb', input, n, r)
  {
    if n > 0 {
      TimingIsIrrelevant(kind, cb, cb', input, n - 1);
    }
    forall r
      ensures cb(n, r).Null? <==> cb'(n, r).Null?
    {
      assert Outcome(cb(n, r)) == Outcome(cb'(n, r));
    }
  }

  // ----- the block

  // How often the callback runs when the evaluation ends after n returned futures.
  function Runs(kind: Kind, n: nat, r: Result): nat {
    if Proceeds(kind, n, r) then n + 1 else n
  }

  // The callback ran on the results that the evaluation has in hand, one after the other.
  ghost predicate Follows(kind: Kind, cb: Callback, input: Result, calls: seq<Result>) {
    forall i :: 0 <= i < |calls| ==>
      InHand(kind, cb, input, i) == Some(calls[i]) && Proceeds(kind, i, calls[i])
  }

  class Block {
    const kind: Kind
    const cb: Callback
    ghost const input: Result

    var handled: bool
    var callback: bool            // cleared once the callback is released
    var status: Option<Result>
    var calls: seq<Result>        // the results the callback ran on
    var returned: nat             // how many of the runs returned a future
    var awaiting: Option<Result>  // the future awaited, by what it will complete with
    var pushed: Option<Result>    // the work pushed to the scheduler

    // The result in hand is that of the pure evaluation, and the callback was not yet released.
    ghost predicate Holds(r: Result)
      reads this
    {
      && status.None? && callback
      && returned == |calls| && Follows(kind, cb, input, calls)
      && InHand(kind, cb, input, returned) == Some(r)
      && (!Loops(kind) ==> returned <= 1)
    }

    // A result is about to be propagated to the block.
    ghost predicate Receiving(r: Result)
      reads this
    {
      Holds(r) && pushed.None? && (!Loops(kind) ==> handled == (returned > 0))
    }

    // The callback is about to run, now or later.
    ghost predicate Running(r: Result)
      reads this
    {
      Holds(r) && awaiting.None? && Proceeds(kind, returned, r) && (!Loops(kind) ==> handled)
    }

    // The evaluation is over and the block about to be completed with its result.
    ghost predicate Over(r: Result)
      reads this
    {
      && pushed.None? && awaiting.None?
      && EndsAt(kind, cb, input, returned, r)
      && Follows(kind, cb, input, calls) && |calls| == Runs(kind, returned, r)
    }

    // Between two calls the block is complete, with the result of the evaluation, or the callback
    // was pushed to the scheduler, or a future is awaited.
    ghost predicate Valid()
      reads this
    {
      if status.Some? then Over(status.value)
      else if pushed.Some? then Running(pushed.value)
      else awaiting.Some? && Receiving(awaiting.value)
    }

    function Progress(): nat
      reads this
    {
      2 * returned + if pushed.Some? then 1 else 0
    }

    // dex_block_new() on a pending future.
    constructor (kind: Kind, cb: Callback, input: Result)
      ensures Valid() && this.kind == kind && this.cb == cb && this.input == input
      ensures status.None? && pushed.None? && awaiting == Some(input)
    {
      this.kind, this.cb, this.input := kind, cb, input;
      handled, callback, status, calls, returned := false, true, None, [], 0;
      awaiting, pushed := Some(input), None;
    }

    // dex_block_propagate_within_scheduler_internal()
    method RunCallback(r: Result, env: Env) returns (chained: bool)
      requires Running(r) && pushed.None?
      modifies this
      ensures if chained then Valid() else Over(r) && status.None?
      ensures chained && status.None? ==> Progress() > old(Progress()) + 1
      decreases if env.depth < RECURSE_MAX then RECURSE_MAX - env.depth else 0, 2
    {
      var reply := cb(returned, r);
      calls := calls + [r];
      if reply.Delayed? {
        awaiting, returned := Some(reply.result), returned + 1;
        if reply.already {
          Propagate(reply.result, env);
        }
        chained := true;
      } else {
        callback := false;
        chained := false;
      }
    }

    // dex_future_propagate() to a block.
    method Propagate(r: Result, env: Env)
      requires Receiving(r)
      modifies this
      ensures Valid()
      ensures status.None? ==> Progress() > old(Progress())
      decreases if env.depth < RECURSE_MAX then RECURSE_MAX - env.depth else 0, 1
    {
      var took := Hook(r, env);
      if !took {
        Complete(r);
      }
    }

    // dex_block_propagate(); whether the block took care of the result.
    method Hook(r: Result, env: Env) returns (took: bool)
      requires Receiving(r)
      modifies this
      ensures if took then Valid() else Over(r) && status.None?
      ensures took ==> if r.Resolved? then kind & THEN != 0 else kind & CATCH != 0
      ensures took && status.None? ==> Progress() > old(Progress())
      decreases if env.depth < RECURSE_MAX then RECURSE_MAX - env.depth else 0, 0
    {
      var run := false;
      if kind & LOOP != 0 {
        run := true;
      } else if !handled {
        run, handled := true, true;
      }
      awaiting := None;
      if run && Handles(kind, r) {
        if !env.inFiber && env.sameScheduler && env.depth < RECURSE_MAX {
          took := RunCallback(r, env.(depth := env.depth + 1));
        } else {
          pushed := Some(r);
          took := true;
        }
      } else {
        took := false;
      }
    }

    method Complete(r: Result)
      requires Over(r) && status.None?
      modifies this`status
      ensures Valid() && status == Some(r)
    {
      if status.None? {
        status := Some(r);
      }
    }

    // dex_block_propagate_within_scheduler()
    method WithinScheduler(env: Env)
      requires Valid() && pushed.Some? && status.None?
      modifies this
      ensures Valid()
      ensures status.None? ==> Progress() > old(Progress())
    {
      var r := pushed.value;
      pushed := None;
      var chained := RunCallback(r, env);
      if !chained {
        Complete(r);
      }
    }

    // An evaluation that ends bounds the progress.
    lemma ProgressBound(n: nat, r: Result)
      requires Valid() && EndsAt(kind, cb, input, n, r)
      ensures if status.Some? then status == Some(r) && returned == n else Progress() <= 2 * n + 1
    {
      if status.Some? {
        EvaluationIsUnique(kind, cb, input, n, r, returned, status.value);
      } else if returned > n {
        InHandPrefix(kind, cb, input, n, returned);
      }
    }
  }

  // The whole life of a block, whatever threads and depths its calls are made on: the block
  // completes with the result of the evaluation and no other, after the very runs of the callback
  // that the evaluation has, and it does complete if the evaluation ends.
  method Live(kind: Kind, cb: Callback, input: Result, already: bool, schedule: seq<Env>)
      returns (status: Option<Result>, calls: seq<Result>)
    ensures status.Some? ==> Evaluates(kind, cb, input, status.value)
    ensures forall n: nat, r :: EndsAt(kind, cb, input, n, r) && |schedule| >= 2 * n + 2 ==> status == Some(r)
    ensures forall n: nat, r :: EndsAt(kind, cb, input, n, r) && status.Some? ==> |calls| == Runs(kind, n, r)
    ensures Follows(kind, cb, input, calls)
    ensures !Loops(kind) ==> |calls| <= 1
  {
    var b := new Block(kind, cb, input);
    var i := 0;
    if already && schedule != [] {
      b.Propagate(input, schedule[0]);
      i := 1;
    }
    while i < |schedule| && b.status.None?
      invariant b.kind == kind && b.cb == cb && b.input == input && b.Valid()
      invariant 0 <= i <= |schedule| && (b.status.None? ==> b.Progress() >= i)
    {
      if b.pushed.Some? {
        b.WithinScheduler(schedule[i]);
      } else {
        b.Propagate(b.awaiting.value, schedule[i]);
      }
      i := i + 1;
    }
    status, calls := b.status, b.calls;
    forall n: nat, r | EndsAt(kind, cb, input, n, r)
      ensures if status.Some? then status == Some(r) && |calls| == Runs(kind, n, r) else |schedule| < 2 * n + 2
    {
      b.ProgressBound(n, r);
    }
  }

  // Dispatching at once and deferring to the scheduler come to the same result, and so does
  // returning futures that complete sooner or later.
  method SameEitherWay(kind: Kind, input: Result, already: bool, cb: Callback, schedule: seq<Env>,
                       already': bool, cb': Callback, schedule': seq<Env>)
      returns (status: Option<Result>, status': Option<Result>)
    requires forall i, r :: Outcome(cb(i, r)) == Outcome(cb'(i, r))
    ensures status.Some? && status'.Some? ==> status == status'
  {
    var calls, calls';
    status, calls := Live(kind, cb, input, already, schedule);
    status', calls' := Live(kind, cb', input, already', schedule');
    if status.Some? && status'.Some? {
      ghost var n: nat :| EndsAt(kind, cb, input, n, status.value);
      ghost var n': nat :| EndsAt(kind, cb', input, n', status'.value);
      TimingIsIrrelevant(kind, cb, cb', input, n');
      EvaluationIsUnique(kind, cb, input, n, status.value, n', status'.value);
    }
  }
}
