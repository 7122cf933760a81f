/** The userspace counting semaphore (src/dex-semaphore.c). */
module Semaphores {
  import opened Common

  // counter and waiters; a waiter is known by the ticket its caller holds.
  datatype Sem = Sem(counter: int, waiters: seq<nat>) {
    ghost predicate Valid() {
      counter >= 0 && (counter > 0 ==> waiters == [])
    }

    // How many waiters n more posts can serve.
    function Served(n: nat): nat {
      if counter + n <= 0 then 0 else if counter + n <= |waiters| then counter + n else |waiters|
    }

    function Granted(n: nat): seq<nat> {
      waiters[..Served(n)]
    }

    function Posted(n: nat): Sem {
      Sem(counter + n - Served(n), waiters[Served(n)..])
    }
  }

  class Semaphore {
    var counter: int
    var waiters: seq<nat>

    function Value(): Sem
      reads this
    {
      Sem(counter, waiters)
    }

    constructor ()
      ensures Value() == Sem(0, [])
    {
      counter, waiters := 0, [];
    }

    // dex_semaphore_post_many(): the waiters to complete, in order.
    method PostMany(count: nat) returns (granted: seq<nat>)
      modifies this
      ensures Value() == (if count == 0 then old(Value()) else old(Value()).Posted(count))
      ensures granted == (if count == 0 then [] else old(Value()).Granted(count))
    {
      granted := [];
      if count == 0 {
        return;
      }
      counter := counter + count;
      while counter > 0 && |waiters| > 0
        invariant granted + waiters == old(waiters)
        invariant counter == old(counter) + count - |granted|
        invariant granted == [] || counter >= 0
        decreases |waiters|
      {
        granted := granted + [waiters[0]];
        waiters := waiters[1..];
        counter := counter - 1;
      }
      assert |granted| == old(Value()).Served(count);
      assert granted == old(waiters)[..|granted|] && waiters == old(waiters)[|granted|..];
    }

    // dex_semaphore_wait(): whether the ticket is granted at once.
    method Wait(ticket: nat) returns (now: bool)
      modifies this
      ensures now <==> old(counter) > 0
      ensures Value() == if now then Sem(old(counter) - 1, old(waiters)) else Sem(old(counter), old(waiters) + [ticket])
    {
      now := counter > 0;
      if now {
        counter := counter - 1;
      } else {
        waiters := waiters + [ticket];
      }
    }

    // dex_semaphore_close(): the waiters to reject, in order.  Nothing records the closing.
    method Close() returns (rejected: seq<nat>)
      modifies this
      ensures rejected == old(waiters) && Value() == Sem(old(counter), [])
    {
      rejected := [];
      var queue := waiters;
      waiters := [];
      while queue != []
        invariant rejected + queue == old(waiters)
        invariant waiters == [] && counter == old(counter)
        decreases |queue|
      {
        rejected := rejected + [queue[0]];
        queue := queue[1..];
      }
    }
  }

  // ----- post_many(n) is n posts

  function PostEach(s: Sem, n: nat): (Sem, seq<nat>) {
    if n == 0 then (s, []) else
      var (s1, g1) := PostEach(s, n - 1);
      (s1.Posted(1), g1 + s1.Granted(1))
  }

  lemma {:induction false} PostManyIsPosts(s: Sem, n: nat)
    requires s.Valid()
    ensures PostEach(s, n) == (s.Posted(n), s.Granted(n))
  {
    if n > 0 {
      PostManyIsPosts(s, n - 1);
      PostOneMore(s, n - 1);
    }
  }

  lemma PostOneMore(s: Sem, n: nat)
    requires s.Valid()
    ensures s.Posted(n).Posted(1) == s.Posted(n + 1)
    ensures s.Granted(n) + s.Posted(n).Granted(1) == s.Granted(n + 1)
  {
    var k, m := s.Served(n), s.Posted(n).Served(1);
    assert k + m == s.Served(n + 1);
    CutTwice(s.waiters, k, m);
  }

  lemma CutTwice(s: seq<nat>, k: nat, m: nat)
    requires k + m <= |s|
    ensures s[k..][m..] == s[k + m..] && s[..k] + s[k..][..m] == s[..k + m]
  {
  }

  // ----- every run

  datatype Event = Wait | PostMany(n: nat) | Close

  // next is the next ticket; done lists the completed tickets in order, with their outcome.
  datatype Log = Log(sem: Sem, next: nat, done: seq<(nat, bool)>, posted: nat)

  function Outcomes(tickets: seq<nat>, granted: bool): seq<(nat, bool)> {
    seq(|tickets|, i requires 0 <= i < |tickets| => (tickets[i], granted))
  }

  function Tickets(done: seq<(nat, bool)>): seq<nat> {
    seq(|done|, i requires 0 <= i < |done| => done[i].0)
  }

  function Grants(done: seq<(nat, bool)>): nat {
    if done == [] then 0 else Grants(done[..|done| - 1]) + if done[|done| - 1].1 then 1 else 0
  }

  function Step(l: Log, e: Event): Log {
    match e
    case Wait =>
      if l.sem.counter > 0
      then l.(sem := l.sem.(counter := l.sem.counter - 1), next := l.next + 1, done := l.done + [(l.next, true)])
      else l.(sem := l.sem.(waiters := l.sem.waiters + [l.next]), next := l.next + 1)
    case PostMany(n) =>
      if n == 0 then l else
        l.(sem := l.sem.Posted(n), done := l.done + Outcomes(l.sem.Granted(n), true), posted := l.posted + n)
    case Close =>
      l.(sem := l.sem.(waiters := []), done := l.done + Outcomes(l.sem.waiters, false))
  }

  function Run(events: seq<Event>): Log {
    if events == [] then Log(Sem(0, []), 0, [], 0) else Step(Run(events[..|events| - 1]), events[|events| - 1])
  }

  lemma {:induction false} GrantsSplit(a: seq<(nat, bool)>, b: seq<(nat, bool)>)
    ensures Grants(a + b) == Grants(a) + Grants(b)
  {
    if b == [] {
      assert a + b == a;
    } else {
      GrantsSplit(a, b[..|b| - 1]);
      assert (a + b)[..|a + b| - 1] == a + b[..|b| - 1];
    }
  }

  lemma {:induction false} GrantsOf(tickets: seq<nat>, granted: bool)
    ensures Grants(Outcomes(tickets, granted)) == if granted then |tickets| else 0
  {
    if tickets != [] {
      var n := |tickets| - 1;
      GrantsOf(tickets[..n], granted);
      assert Outcomes(tickets, granted)[..n] == Outcomes(tickets[..n], granted);
    }
  }

  ghost predicate Sound(l: Log) {
    && l.sem.Valid()
    && l.posted == Grants(l.done) + l.sem.counter
    && Tickets(l.done) + l.sem.waiters == Range(l.next)
  }

  // In every run the semaphore is valid, nothing posted is lost or granted twice, and the
  // tickets complete in the order in which they were drawn.
  lemma {:induction false} RunIsSound(events: seq<Event>)
    ensures Sound(Run(events))
  {
    if events != [] {
      RunIsSound(events[..|events| - 1]);
      StepIsSound(Run(events[..|events| - 1]), events[|events| - 1]);
    }
  }

  lemma StepIsSound(l: Log, e: Event)
    requires Sound(l)
    ensures Sound(Step(l, e))
  {
    match e
    case Wait => WaitIsSound(l);
    case PostMany(n) => if n > 0 { PostIsSound(l, n); }
    case Close => CompleteIsSound(l, l.sem.waiters, false);
  }

  lemma WaitIsSound(l: Log)
    requires Sound(l)
    ensures Sound(Step(l, Wait))
  {
    assert Range(l.next + 1) == Range(l.next) + [l.next];
    if l.sem.counter > 0 {
      CompleteIsSound(l, [l.next], true);
    }
  }

  // Completing some tickets in order.
  lemma CompleteIsSound(l: Log, tickets: seq<nat>, granted: bool)
    ensures var done := l.done + Outcomes(tickets, granted);
            Tickets(done) == Tickets(l.done) + tickets &&
            Grants(done) == Grants(l.done) + if granted then |tickets| else 0
  {
    GrantsSplit(l.done, Outcomes(tickets, granted));
    GrantsOf(tickets, granted);
  }

  lemma PostIsSound(l: Log, n: nat)
    requires Sound(l) && n > 0
    ensures Sound(Step(l, PostMany(n)))
  {
    var g := l.sem.Granted(n);
    CompleteIsSound(l, g, true);
    assert g + l.sem.waiters[|g|..] == l.sem.waiters;
  }

  // ----- what the log is of

  function PostsIn(events: seq<Event>): nat {
    if events == [] then 0
    else PostsIn(events[..|events| - 1]) +
         match events[|events| - 1] { case PostMany(n) => n case Wait => 0 case Close => 0 }
  }

  function WaitsIn(events: seq<Event>): nat {
    if events == [] then 0 else WaitsIn(events[..|events| - 1]) + if events[|events| - 1].Wait? then 1 else 0
  }

  // Every wait draws a ticket and every post counts.
  lemma {:induction false} NothingIsMissed(events: seq<Event>)
    ensures Run(events).posted == PostsIn(events) && Run(events).next == WaitsIn(events)
  {
    if events != [] {
      NothingIsMissed(events[..|events| - 1]);
    }
  }

  // A close rejects those that wait, in order, and leaves the permits: every ticket has its outcome.
  lemma CloseRejectsAll(events: seq<Event>)
    ensures var l, l' := Run(events), Run(events + [Close]);
            && l'.sem == Sem(l.sem.counter, [])
            && Tickets(l'.done) == Range(l'.next)
            && l.done <= l'.done && forall i :: |l.done| <= i < |l'.done| ==> !l'.done[i].1
  {
    assert (events + [Close])[..|events|] == events;
    RunIsSound(events + [Close]);
    var l' := Run(events + [Close]);
    assert Tickets(l'.done) + [] == Tickets(l'.done);
  }
}
