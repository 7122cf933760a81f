/**
 * The limiter (src/dex-limiter.c) on top of the semaphore.
 *
 * One step is one region under a mutex: that of the limiter, of the semaphore or of one
 * acquire future.  Any number of threads run the calls below in any interleaving.
 */
module Limiters {
  import opened Common
  import opened Semaphores

  // The fields of the limiter that its mutex protects.
  datatype Books = Books(closed: bool, acquired: nat, pending: nat, drain: bool) {
    // Lines 545-555: an acquire is rejected at once, or counted as pending.
    function Begun(): Books {
      if closed then this else this.(pending := pending + 1)
    }

    // Lines 175-184, given what was read of the discard flag.
    function Marked(discarded: bool): Books {
      if !discarded && !closed then this.(acquired := acquired + 1) else this
    }

    predicate GivesBack(discarded: bool) {
      discarded && !closed
    }

    // Lines 251-254.
    function Settled(): Books {
      this.(pending := if pending > 0 then pending - 1 else 0)
    }

    // Lines 124-130: a surplus release changes nothing.
    function Released(): Books {
      this.(acquired := if acquired > 0 then acquired - 1 else 0)
    }

    predicate ReleasePosts() {
      acquired > 0 && !closed
    }

    // Lines 145-150.
    predicate Drained() {
      drain && pending == 0 && acquired == 0
    }

    function Checked(): Books {
      this.(drain := drain && !Drained())
    }
  }

  class Limiter {
    var closed: bool
    var acquired: nat
    var pending: nat
    var drain: bool

    function Value(): Books
      reads this
    {
      Books(closed, acquired, pending, drain)
    }

    constructor ()
      ensures Value() == Books(false, 0, 0, false)
    {
      closed, acquired, pending, drain := false, 0, 0, false;
    }

    method BeginAcquire() returns (ok: bool)
      modifies this
      ensures Value() == old(Value()).Begun() && ok == !closed
    {
      ok := !closed;
      if ok {
        pending := pending + 1;
      }
    }

    method MarkAcquired(discarded: bool) returns (got: bool, shouldRelease: bool)
      modifies this
      ensures Value() == old(Value()).Marked(discarded)
      ensures shouldRelease <==> old(Value()).GivesBack(discarded)
      ensures got <==> acquired == old(acquired) + 1
      ensures old(closed) ==> !got && !shouldRelease
      ensures !old(closed) ==> got == !discarded && shouldRelease == discarded
    {
      got, shouldRelease := false, false;
      if !discarded && !closed {
        acquired := acquired + 1;
        got := true;
      } else if discarded && !closed {
        shouldRelease := true;
      }
    }

    method Settle()
      modifies this
      ensures Value() == old(Value()).Settled()
    {
      if pending > 0 {
        pending := pending - 1;
      }
    }

    method Release() returns (post: bool)
      modifies this
      ensures Value() == old(Value()).Released() && post == old(Value()).ReleasePosts()
    {
      post := false;
      if acquired > 0 {
        acquired := acquired - 1;
        post := !closed;
      }
    }

    method MaybeResolveDrain() returns (resolve: bool)
      modifies this
      ensures Value() == old(Value()).Checked() && resolve == old(Value()).Drained()
    {
      resolve := drain && pending == 0 && acquired == 0;
      if resolve {
        drain := false;
      }
    }

    method MarkClosed() returns (doClose: bool)
      modifies this
      ensures Value() == old(Value()).(closed := true) && doClose == !old(closed)
    {
      doClose := !closed;
      closed := true;
    }

    method RequestDrain() returns (shouldClose: bool)
      modifies this
      ensures Value() == old(Value()).(drain := true) && shouldClose == !closed
    {
      drain := true;
      shouldClose := !closed;
    }
  }

  // ----- the system

  // How far an acquire has come.
  datatype Pc =
    | Requested                  // counted as pending, about to wait on the semaphore (560)
    | Waiting                    // queued in the semaphore
    | Granted                    // the semaphore granted it, the callback has not run (202)
    | Checked(discarded: bool)   // the callback has read the discard flag (173)
    | Posting                    // the callback gives the permit back (232)
    | Refused                    // the semaphore was closed, the callback has not run (234)
    | Settling                   // the acquire future is completed (250)
    | Checking                   // no longer pending, about to look at the drain promise (256)
    | Done

  datatype Acquire = Acquire(pc: Pc, discarded: bool)

  // Calls in progress that are not acquires.
  datatype Flights = Flights(
    releasing: nat,              // releases about to post (133)
    checks: nat,                 // about to look at the drain promise (135, 626)
    draining: nat,               // close_after_drain() about to close (624)
    closer: Option<bool>         // close() about to close the semaphore (802), maybe for a drain
  )

  datatype System = System(max: nat, sem: Sem, books: Books, acquires: seq<Acquire>, flights: Flights, resolved: nat)

  function Init(max: nat): System {
    System(max, Sem(max, []), Books(false, 0, 0, false), [], Flights(0, 0, 0, None), 0)
  }

  datatype Action =
    | BeginAcquire | Enqueue(i: nat) | Discard(i: nat)
    | ReadFlag(i: nat) | Mark(i: nat) | GiveBack(i: nat) | Refuse(i: nat) | Settle(i: nat) | LastCheck(i: nat)
    | Release | PostRelease | CheckDrain
    | CloseLimiter | CloseSemaphore | BeginDrain | CloseForDrain

  predicate At(s: System, i: nat, pc: Pc) {
    i < |s.acquires| && s.acquires[i].pc == pc
  }

  predicate Enabled(s: System, a: Action) {
    match a
    case BeginAcquire => true
    case Enqueue(i) => At(s, i, Requested)
    case Discard(i) => i < |s.acquires|
    case ReadFlag(i) => At(s, i, Granted)
    case Mark(i) => i < |s.acquires| && s.acquires[i].pc.Checked?
    case GiveBack(i) => At(s, i, Posting)
    case Refuse(i) => At(s, i, Refused)
    case Settle(i) => At(s, i, Settling)
    case LastCheck(i) => At(s, i, Checking)
    case Release => true
    case PostRelease => s.flights.releasing > 0
    case CheckDrain => s.flights.checks > 0
    case CloseLimiter => true
    case CloseSemaphore => s.flights.closer.Some?
    case BeginDrain => true
    case CloseForDrain => s.flights.draining > 0
  }

  function Goto(s: System, i: nat, pc: Pc): System
    requires i < |s.acquires|
  {
    s.(acquires := s.acquires[i := s.acquires[i].(pc := pc)])
  }

  function Apply(s: System, a: Action): System
    requires Enabled(s, a)
  {
    match a
    case BeginAcquire =>
      s.(books := s.books.Begun(),
         acquires := if s.books.closed then s.acquires else s.acquires + [Acquire(Requested, false)])
    case Enqueue(i) => DoEnqueue(s, i)
    case Discard(i) => s.(acquires := s.acquires[i := s.acquires[i].(discarded := true)])
    case ReadFlag(i) => Goto(s, i, Checked(s.acquires[i].discarded))
    case Mark(i) => DoMark(s, i)
    case GiveBack(i) => Post(Goto(s, i, Settling))
    case Refuse(i) => Goto(s, i, Settling)
    case Settle(i) => Goto(s, i, Checking).(books := s.books.Settled())
    case LastCheck(i) => CheckNow(Goto(s, i, Done))
    case Release =>
      s.(books := s.books.Released(),
         flights := if s.books.ReleasePosts() then s.flights.(releasing := s.flights.releasing + 1)
                    else s.flights.(checks := s.flights.checks + 1))
    case PostRelease =>
      Post(s.(flights := s.flights.(releasing := s.flights.releasing - 1, checks := s.flights.checks + 1)))
    case CheckDrain => CheckNow(s.(flights := s.flights.(checks := s.flights.checks - 1)))
    case CloseLimiter =>
      if s.books.closed then s
      else s.(books := s.books.(closed := true), flights := s.flights.(closer := Some(false)))
    case CloseSemaphore => DoCloseSemaphore(s)
    case BeginDrain =>
      s.(books := s.books.(drain := true),
         flights := if s.books.closed then s.flights.(checks := s.flights.checks + 1)
                    else s.flights.(draining := s.flights.draining + 1))
    case CloseForDrain => DoCloseForDrain(s)
  }

  function DoEnqueue(s: System, i: nat): System
    requires i < |s.acquires|
  {
    if s.sem.counter > 0
    then Goto(s.(sem := s.sem.(counter := s.sem.counter - 1)), i, Granted)
    else Goto(s.(sem := s.sem.(waiters := s.sem.waiters + [i])), i, Waiting)
  }

  function DoMark(s: System, i: nat): System
    requires i < |s.acquires| && s.acquires[i].pc.Checked?
  {
    var d := s.acquires[i].pc.discarded;
    Goto(s.(books := s.books.Marked(d)), i, if s.books.GivesBack(d) then Posting else Settling)
  }

  // dex_semaphore_post(): the oldest waiter, if any, is granted.
  function Post(s: System): System {
    var g := s.sem.Granted(1);
    s.(sem := s.sem.Posted(1),
       acquires := if g != [] && g[0] < |s.acquires| then s.acquires[g[0] := s.acquires[g[0]].(pc := Granted)]
                   else s.acquires)
  }

  function CheckNow(s: System): System {
    s.(books := s.books.Checked(), resolved := s.resolved + if s.books.Drained() then 1 else 0)
  }

  // dex_semaphore_close(): all waiters are refused.
  function DoCloseSemaphore(s: System): System {
    s.(sem := s.sem.(waiters := []), acquires := RefuseAll(s.acquires),
       flights := s.flights.(closer := None,
                             checks := s.flights.checks + if s.flights.closer == Some(true) then 1 else 0))
  }

  function RefuseAll(acquires: seq<Acquire>): seq<Acquire> {
    seq(|acquires|, i requires 0 <= i < |acquires| =>
      if acquires[i].pc.Waiting? then acquires[i].(pc := Refused) else acquires[i])
  }

  function DoCloseForDrain(s: System): System
    requires s.flights.draining > 0
  {
    var f := s.flights.(draining := s.flights.draining - 1);
    if s.books.closed then s.(flights := f.(checks := f.checks + 1))
    else s.(books := s.books.(closed := true), flights := f.(closer := Some(true)))
  }

  predicate Legal(s: System, run: seq<Action>)
    decreases |run|
  {
    run == [] || (Enabled(s, run[0]) && Legal(Apply(s, run[0]), run[1..]))
  }

  function After(s: System, run: seq<Action>): System
    requires Legal(s, run)
    decreases |run|
  {
    if run == [] then s else After(Apply(s, run[0]), run[1..])
  }
}
