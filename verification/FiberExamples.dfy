/** A run of the fiber scheduler in which an assertion of dex_fiber_propagate() fails. */
module FiberExamples {
  import opened Common
  import opened Fibers

  lemma Then(w: World, a: Action, v: World, rest: seq<Action>)
    requires Enabled(w, a) && Act(w, a) == v && Legal(v, rest)
    ensures Legal(w, [a] + rest) && After(w, [a] + rest) == After(v, rest)
  {
    assert ([a] + rest)[0] == a && ([a] + rest)[1..] == rest;
  }

  // One fiber, runnable or blocked according to its queue.
  function One(b: Fiber, c: Control, t: Task, done: set<nat>): World {
    World(Sched([b], if b.queue == Runnable then [0] else [], if b.queue == Blocked then [0] else [],
                if c.Scheduling? then None else Some(0)),
          c, [t], done, false, false)
  }

  const READY := Fiber(Runnable, true, false, false, false)
  const BLOCKED := Fiber(Blocked, false, false, false, false)
  const CANCELLED := Fiber(Runnable, false, true, false, false)

  lemma Starts(rest: seq<Action>) returns (run: seq<Action>)
    requires Legal(One(READY, Executing(0), NEW_TASK, {}), rest)
    ensures Legal(START, run) && After(START, run) == After(One(READY, Executing(0), NEW_TASK, {}), rest)
  {
    var w1 := One(READY, Scheduling, NEW_TASK, {});
    var w2 := One(READY, Executing(0), NEW_TASK, {});
    Then(w1, SwitchIn, w2, rest);
    Then(START, Register, w1, [SwitchIn] + rest);
    run := [Register] + ([SwitchIn] + rest);
  }

  // The fiber waits for x.
  lemma Waits(x: nat, rest: seq<Action>) returns (run: seq<Action>)
    requires Legal(One(BLOCKED, Scheduling, Task(Awaiting(x, false), 1, [x], []), {}), rest)
    ensures Legal(One(READY, Executing(0), NEW_TASK, {}), run)
    ensures After(One(READY, Executing(0), NEW_TASK, {}), run) ==
              After(One(BLOCKED, Scheduling, Task(Awaiting(x, false), 1, [x], []), {}), rest)
  {
    var w2 := One(READY, Executing(0), NEW_TASK, {});
    var w3 := One(BLOCKED, Chaining(0, x, false), NEW_TASK.(awaits := 1), {});
    var t := Task(Awaiting(x, false), 1, [x], []);
    var w4, w5 := One(BLOCKED, Leaving(0), t, {}), One(BLOCKED, Scheduling, t, {});
    assert NEW_TASK.waits + [x] == [x];
    run := rest;
    Then(w4, SwitchBack, w5, run);
    run := [SwitchBack] + run;
    Then(w3, Chain, w4, run);
    run := [Chain] + run;
    Then(w2, Await(x), w3, run);
    run := [Await(x)] + run;
  }

  // It is cancelled, and x completes.
  lemma Misses(x: nat, rest: seq<Action>) returns (run: seq<Action>)
    requires Legal(One(CANCELLED, Scheduling, Task(Awaiting(x, false), 1, [], [1]), {x}), rest)
    ensures Legal(One(BLOCKED, Scheduling, Task(Awaiting(x, false), 1, [x], []), {}), run)
    ensures After(One(BLOCKED, Scheduling, Task(Awaiting(x, false), 1, [x], []), {}), run) ==
              After(One(CANCELLED, Scheduling, Task(Awaiting(x, false), 1, [], [1]), {x}), rest)
  {
    var t, t' := Task(Awaiting(x, false), 1, [x], []), Task(Awaiting(x, false), 1, [], [1]);
    var w0 := One(BLOCKED, Scheduling, t, {});
    var w1 := One(CANCELLED, Scheduling, t, {});
    var w2 := One(CANCELLED, Scheduling, t', {x});
    assert Told(t, x) == t';
    assert Completes(w1, x).tasks == [t'];
    Then(w1, Complete(x), w2, rest);
    Then(w0, Discard(0), w1, [Complete(x)] + rest);
    run := [Discard(0)] + ([Complete(x)] + rest);
  }

  // It resumes while the notice is on its way.
  lemma Escapes(x: nat, rest: seq<Action>) returns (run: seq<Action>)
    requires Legal(One(CANCELLED, Executing(0), Task(Plain, 1, [], [1]), {x}), rest)
    ensures Legal(One(CANCELLED, Scheduling, Task(Awaiting(x, false), 1, [], [1]), {x}), run)
    ensures After(One(CANCELLED, Scheduling, Task(Awaiting(x, false), 1, [], [1]), {x}), run) ==
              After(One(CANCELLED, Executing(0), Task(Plain, 1, [], [1]), {x}), rest)
  {
    var t := Task(Awaiting(x, false), 1, [], [1]);
    var w2 := One(CANCELLED, Scheduling, t, {x});
    var w3 := One(CANCELLED, Resuming(0, x, false), t, {x});
    var w4 := One(CANCELLED, Executing(0), t.(frame := Plain), {x});
    Then(w3, Resume, w4, rest);
    Then(w2, SwitchIn, w3, [Resume] + rest);
    run := [SwitchIn] + ([Resume] + rest);
  }

  // It awaits anew and is runnable at once.
  lemma AwaitsAnew(x: nat, y: nat, rest: seq<Action>) returns (run: seq<Action>)
    requires Legal(One(READY.(cancelled := true), Leaving(0), Task(Awaiting(y, true), 2, [], [1]), {x}), rest)
    ensures Legal(One(CANCELLED, Executing(0), Task(Plain, 1, [], [1]), {x}), run)
    ensures After(One(CANCELLED, Executing(0), Task(Plain, 1, [], [1]), {x}), run) ==
              After(One(READY.(cancelled := true), Leaving(0), Task(Awaiting(y, true), 2, [], [1]), {x}), rest)
  {
    var w0 := One(CANCELLED, Executing(0), Task(Plain, 1, [], [1]), {x});
    var w1 := One(BLOCKED.(cancelled := true), Chaining(0, y, true), Task(Plain, 2, [], [1]), {x});
    var w2 := One(READY.(cancelled := true), Leaving(0), Task(Awaiting(y, true), 2, [], [1]), {x});
    Then(w1, Chain, w2, rest);
    Then(w0, Await(y), w1, [Chain] + rest);
    run := [Await(y)] + ([Chain] + rest);
  }

  // Then the notice arrives.
  lemma Fails(x: nat, y: nat)
    ensures var w := One(READY.(cancelled := true), Leaving(0), Task(Awaiting(y, true), 2, [], [1]), {x});
            && Legal(w, [Notify(0, 0)] + [])
            && After(w, [Notify(0, 0)] + []).late && After(w, [Notify(0, 0)] + []).failed
  {
    var w := One(READY.(cancelled := true), Leaving(0), Task(Awaiting(y, true), 2, [], [1]), {x});
    Then(w, Notify(0, 0), Act(w, Notify(0, 0)), []);
  }

  // A notice that is still on its way when the cancelled fiber awaits anew fails the assertion.
  lemma AssertionMayFail(x: nat, y: nat) returns (run: seq<Action>)
    ensures Legal(START, run) && After(START, run).late && After(START, run).failed
  {
    Fails(x, y);
    run := AwaitsAnew(x, y, [Notify(0, 0)] + []);
    run := Escapes(x, run);
    run := Misses(x, run);
    run := Waits(x, run);
    run := Starts(run);
  }
}
