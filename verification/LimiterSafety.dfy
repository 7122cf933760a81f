/** Permit conservation and the drain promise, in every interleaving. */
module LimiterSafety {
  import opened Common
  import opened Semaphores
  import opened Sums
  import opened Limiters

  // An acquire that carries a permit which is neither in the semaphore nor acquired.
  function Carries(a: Acquire): nat {
    if a.pc.Granted? || a.pc.Checked? || a.pc.Posting? then 1 else 0
  }

  function IsPending(a: Acquire): nat {
    if a.pc.Checking? || a.pc.Done? then 0 else 1
  }

  function IsChecking(a: Acquire): nat {
    if a.pc.Checking? then 1 else 0
  }

  function Permits(s: System): int {
    s.sem.counter + Sum(s.acquires, Carries) + s.books.acquired + s.flights.releasing
  }

  // Calls that will still look at the drain promise.
  function Watchers(s: System): nat {
    s.flights.checks + s.flights.releasing + s.flights.draining +
    (if s.flights.closer == Some(true) then 1 else 0) + Sum(s.acquires, IsChecking)
  }

  ghost predicate QueueInv(s: System) {
    && s.sem.Valid() && NoDup(s.sem.waiters)
    && (forall i :: i in s.sem.waiters <==> At(s, i, Waiting))
  }

  ghost predicate PermitInv(s: System) {
    if s.books.closed then Permits(s) <= s.max else Permits(s) == s.max
  }

  ghost predicate PendingInv(s: System) {
    s.books.pending == Sum(s.acquires, IsPending)
  }

  ghost predicate DrainInv(s: System) {
    && (s.books.Drained() ==> Watchers(s) > 0)
    && (s.flights.closer.Some? ==> s.books.closed)
  }

  ghost predicate Inv(s: System) {
    QueueInv(s) && PermitInv(s) && PendingInv(s) && DrainInv(s)
  }

  // ----- how the sums move

  lemma GotoSums(s: System, i: nat, a: Acquire)
    requires i < |s.acquires|
    ensures var r := s.acquires[i := a];
      && Sum(r, Carries) == Sum(s.acquires, Carries) - Carries(s.acquires[i]) + Carries(a)
      && Sum(r, IsPending) == Sum(s.acquires, IsPending) - IsPending(s.acquires[i]) + IsPending(a)
      && Sum(r, IsChecking) == Sum(s.acquires, IsChecking) - IsChecking(s.acquires[i]) + IsChecking(a)
    ensures IsPending(s.acquires[i]) <= Sum(s.acquires, IsPending)
  {
    SumUpdate(s.acquires, i, a, Carries);
    SumUpdate(s.acquires, i, a, IsPending);
    SumUpdate(s.acquires, i, a, IsChecking);
  }

  // A post adds one permit, to the semaphore or to the oldest waiter.
  lemma PostKeeps(s: System)
    requires QueueInv(s)
    ensures QueueInv(Post(s)) && Permits(Post(s)) == Permits(s) + 1
    ensures Sum(Post(s).acquires, IsPending) == Sum(s.acquires, IsPending)
    ensures Sum(Post(s).acquires, IsChecking) == Sum(s.acquires, IsChecking)
    ensures Post(s) == s.(sem := Post(s).sem, acquires := Post(s).acquires)
  {
    var q := s.sem.waiters;
    if q != [] {
      assert s.sem.Granted(1) == [q[0]] && s.sem.Posted(1) == Sem(0, q[1..]);
      assert At(s, q[0], Waiting);
      GotoSums(s, q[0], s.acquires[q[0]].(pc := Granted));
      assert forall i :: i in q <==> i == q[0] || i in q[1..];
    }
  }

  lemma CloseKeeps(s: System)
    requires QueueInv(s)
    ensures QueueInv(DoCloseSemaphore(s))
    ensures Sum(RefuseAll(s.acquires), Carries) == Sum(s.acquires, Carries)
    ensures Sum(RefuseAll(s.acquires), IsPending) == Sum(s.acquires, IsPending)
    ensures Sum(RefuseAll(s.acquires), IsChecking) == Sum(s.acquires, IsChecking)
  {
    SumPointwise(s.acquires, RefuseAll(s.acquires), Carries);
    SumPointwise(s.acquires, RefuseAll(s.acquires), IsPending);
    SumPointwise(s.acquires, RefuseAll(s.acquires), IsChecking);
  }

  lemma BeginSums(acquires: seq<Acquire>)
    ensures var r := acquires + [Acquire(Requested, false)];
            && Sum(r, Carries) == Sum(acquires, Carries) && Sum(r, IsChecking) == Sum(acquires, IsChecking)
            && Sum(r, IsPending) == Sum(acquires, IsPending) + 1
  {
    SumAppend(acquires, Acquire(Requested, false), Carries);
    SumAppend(acquires, Acquire(Requested, false), IsPending);
    SumAppend(acquires, Acquire(Requested, false), IsChecking);
  }

  // ----- every step keeps the invariant

  lemma EnqueueInv(s: System, i: nat)
    requires Inv(s) && Enabled(s, Enqueue(i))
    ensures Inv(Apply(s, Enqueue(i)))
  {
    GotoSums(s, i, s.acquires[i].(pc := if s.sem.counter > 0 then Granted else Waiting));
    assert i !in s.sem.waiters;
  }

  // The steps of the callback, and a discard.
  predicate OfCallback(a: Action) {
    a.Discard? || a.ReadFlag? || a.Mark? || a.Refuse? || a.Settle? || a.LastCheck?
  }

  // They move one acquire that is not, and will not be, in the queue of the semaphore.
  lemma CallbackMoves(s: System, a: Action)
    requires Enabled(s, a) && OfCallback(a)
    ensures a.i < |s.acquires| == |Apply(s, a).acquires| && Apply(s, a).sem == s.sem
    ensures Apply(s, a).acquires == s.acquires[a.i := Apply(s, a).acquires[a.i]]
    ensures Apply(s, a).acquires[a.i].pc.Waiting? <==> s.acquires[a.i].pc.Waiting?
  {
  }

  lemma CallbackQueue(s: System, a: Action)
    requires QueueInv(s) && Enabled(s, a) && OfCallback(a)
    ensures QueueInv(Apply(s, a))
  {
    CallbackMoves(s, a);
  }

  lemma CallbackInv(s: System, a: Action)
    requires Inv(s) && Enabled(s, a) && OfCallback(a)
    ensures Inv(Apply(s, a))
  {
    CallbackMoves(s, a);
    CallbackQueue(s, a);
    GotoSums(s, a.i, Apply(s, a).acquires[a.i]);
  }

  lemma GiveBackInv(s: System, i: nat)
    requires Inv(s) && Enabled(s, GiveBack(i))
    ensures Inv(Apply(s, GiveBack(i)))
  {
    GotoSums(s, i, s.acquires[i].(pc := Settling));
    PostKeeps(Goto(s, i, Settling));
  }

  // The steps of the other calls.
  lemma OtherInv(s: System, a: Action)
    requires Inv(s) && Enabled(s, a)
    requires a.BeginAcquire? || a.Release? || a.CheckDrain? || a.CloseLimiter? || a.BeginDrain? || a.CloseForDrain?
    ensures Inv(Apply(s, a))
  {
    BeginSums(s.acquires);
  }

  lemma PostReleaseInv(s: System)
    requires Inv(s) && Enabled(s, PostRelease)
    ensures Inv(Apply(s, PostRelease))
  {
    PostKeeps(s.(flights := s.flights.(releasing := s.flights.releasing - 1, checks := s.flights.checks + 1)));
  }

  lemma ApplyInv(s: System, a: Action)
    requires Inv(s) && Enabled(s, a)
    ensures Inv(Apply(s, a))
  {
    match a
    case Enqueue(i) => EnqueueInv(s, i);
    case GiveBack(i) => GiveBackInv(s, i);
    case PostRelease => PostReleaseInv(s);
    case CloseSemaphore => CloseKeeps(s);
    case BeginAcquire => OtherInv(s, a);
    case Release => OtherInv(s, a);
    case CheckDrain => OtherInv(s, a);
    case CloseLimiter => OtherInv(s, a);
    case BeginDrain => OtherInv(s, a);
    case CloseForDrain => OtherInv(s, a);
    case _ => CallbackInv(s, a);
  }

  lemma {:induction false} RunInv(s: System, run: seq<Action>)
    requires Inv(s) && Legal(s, run)
    ensures Inv(After(s, run)) && After(s, run).max == s.max
    decreases |run|
  {
    if run != [] {
      ApplyInv(s, run[0]);
      RunInv(Apply(s, run[0]), run[1..]);
    }
  }
}
