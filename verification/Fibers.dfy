/**
 * Fibers and their scheduler (src/dex-fiber.c).
 *
 * One thread runs the scheduler and, in turn, the fibers; a context switch hands control over.
 * Other threads complete futures, notify waiters, discard fibers and register new ones at any time.
 */
module Fibers {
  import opened Common

  datatype Queue = NoQueue | Runnable | Blocked

  datatype Fiber = Fiber(queue: Queue, runnable: bool, cancelled: bool, exited: bool, released: bool)

  // The scheduler, with its fibers known by number.
  datatype Sched = Sched(fibers: seq<Fiber>, runnable: seq<nat>, blocked: seq<nat>, running: Option<nat>)

  const NEW_FIBER := Fiber(NoQueue, false, false, false, false)

  // ----- specification of the regions

  function With(s: Sched, f: nat, fiber: Fiber): Sched
    requires f < |s.fibers|
  {
    s.(fibers := s.fibers[f := fiber])
  }

  function Requeued(list: seq<nat>, f: nat, was: bool, joins: bool): seq<nat> {
    (if was then Without(list, f) else list) + if joins then [f] else []
  }

  function SetQueue(s: Sched, f: nat, q: Queue): Sched
    requires f < |s.fibers|
  {
    var was := s.fibers[f].queue;
    if was == q then s else
      With(s, f, s.fibers[f].(queue := q))
        .(runnable := Requeued(s.runnable, f, was == Runnable, q == Runnable),
          blocked := Requeued(s.blocked, f, was == Blocked, q == Blocked))
  }

  // dex_fiber_scheduler_register() of a fiber made for it.
  function Registered(s: Sched): Sched {
    SetQueue(s.(fibers := s.fibers + [NEW_FIBER.(runnable := true)]), |s.fibers|, Runnable)
  }

  function Discarded(s: Sched, f: nat): Sched
    requires f < |s.fibers|
  {
    var fiber := s.fibers[f];
    if fiber.cancelled || fiber.exited then s else
      var t := With(s, f, fiber.(cancelled := true));
      if fiber.runnable then t else SetQueue(t, f, Runnable)
  }

  // The assertions of dex_fiber_propagate().
  predicate MayPropagate(s: Sched, f: nat) {
    f < |s.fibers| && (s.fibers[f].released || (!s.fibers[f].runnable && !s.fibers[f].exited))
  }

  function Propagated(s: Sched, f: nat): Sched
    requires f < |s.fibers|
  {
    if s.fibers[f].released then s else
      SetQueue(With(s, f, s.fibers[f].(runnable := true)), f, Runnable)
  }

  // The first region of dex_fiber_await().
  function AwaitBegun(s: Sched, f: nat): Sched
    requires f < |s.fibers|
  {
    SetQueue(With(s, f, s.fibers[f].(runnable := false)), f, Blocked)
  }

  // The assertions of dex_fiber_yield_current().
  predicate MayYield(s: Sched, f: nat) {
    f < |s.fibers| && s.running == Some(f) && s.fibers[f].queue == Runnable
  }

  function Yielded(s: Sched, f: nat): Sched {
    s.(runnable := Without(s.runnable, f) + [f])
  }

  // The second region of dex_fiber_scheduler_iteration().
  function Returned(s: Sched, f: nat): Sched
    requires f < |s.fibers|
  {
    var fiber := s.fibers[f];
    var t := if !fiber.released && fiber.exited
             then SetQueue(With(s, f, fiber.(released := true)), f, NoQueue) else s;
    t.(running := None)
  }

  // ----- the scheduler

  class FiberScheduler {
    var fibers: seq<Fiber>
    var runnable: seq<nat>
    var blocked: seq<nat>
    var running: Option<nat>

    function Value(): Sched
      reads this
    {
      Sched(fibers, runnable, blocked, running)
    }

    constructor ()
      ensures Value() == Sched([], [], [], None)
    {
      fibers, runnable, blocked, running := [], [], [], None;
    }

    method MoveTo(f: nat, q: Queue)
      requires f < |fibers|
      modifies this`fibers, this`runnable, this`blocked
      ensures Value() == SetQueue(old(Value()), f, q)
    {
      if fibers[f].queue == q {
        return;
      }
      match fibers[f].queue {
        case Runnable => runnable := Without(runnable, f);
        case Blocked => blocked := Without(blocked, f);
        case NoQueue =>
      }
      fibers := fibers[f := fibers[f].(queue := q)];
      match q {
        case Runnable => runnable := runnable + [f];
        case Blocked => blocked := blocked + [f];
        case NoQueue =>
      }
    }

    method Register() returns (f: nat)
      modifies this
      ensures f == |old(fibers)| && Value() == Registered(old(Value()))
    {
      f := |fibers|;
      fibers := fibers + [NEW_FIBER.(runnable := true)];
      MoveTo(f, Runnable);
    }

    method Discard(f: nat)
      requires f < |fibers|
      modifies this
      ensures Value() == Discarded(old(Value()), f)
      ensures !old(fibers[f]).exited ==> fibers[f].cancelled
    {
      if !fibers[f].cancelled && !fibers[f].exited {
        fibers := fibers[f := fibers[f].(cancelled := true)];
        if !fibers[f].runnable {
          MoveTo(f, Runnable);
        }
      }
    }

    method Propagate(f: nat) returns (handled: bool)
      requires MayPropagate(Value(), f)
      modifies this
      ensures Value() == Propagated(old(Value()), f) && handled == !old(fibers[f]).released
    {
      if fibers[f].released {
        return false;
      }
      assert !fibers[f].runnable && !fibers[f].exited;
      fibers := fibers[f := fibers[f].(runnable := true)];
      MoveTo(f, Runnable);
      handled := true;
    }

    method BeginAwait(f: nat) returns (cancelled: bool)
      requires f < |fibers|
      modifies this
      ensures Value() == AwaitBegun(old(Value()), f) && cancelled == old(fibers[f]).cancelled
    {
      fibers := fibers[f := fibers[f].(runnable := false)];
      cancelled := fibers[f].cancelled;
      MoveTo(f, Blocked);
    }

    method Yield(f: nat)
      requires MayYield(Value(), f)
      modifies this`runnable
      ensures Value() == Yielded(old(Value()), f)
    {
      runnable := Without(runnable, f);
      runnable := runnable + [f];
    }

    method Return(f: nat) returns (more: bool)
      requires f < |fibers|
      modifies this
      ensures Value() == Returned(old(Value()), f) && more == (|runnable| > 0)
    {
      running := None;
      if !fibers[f].released && fibers[f].exited {
        MoveTo(f, NoQueue);
        fibers := fibers[f := fibers[f].(released := true)];
      }
      more := |runnable| > 0;
    }
  }

  // ----- the machine

  // Where the scheduler's thread is: in the scheduler, in the code of a fiber, between the two
  // parts of an await, about to switch back, or just back in an await.
  datatype Control =
    | Scheduling
    | Executing(fiber: nat)
    | Chaining(fiber: nat, future: nat, saw: bool)
    | Leaving(fiber: nat)
    | Resuming(fiber: nat, future: nat, saw: bool)

  // Where a suspended fiber goes on; for an await, whether it saw itself cancelled.
  datatype Frame = Plain | Awaiting(future: nat, saw: bool)

  // What belongs to a fiber outside of the scheduler: where it goes on, how many awaits it has
  // begun, the pending futures it is registered on, and the notices that are on their way to it.
  // A notice comes from a thread that completed a future and took its list; it is known by the
  // await that the fiber was in.
  datatype Task = Task(frame: Frame, awaits: nat, waits: seq<nat>, notices: seq<nat>)

  const NEW_TASK := Task(Plain, 0, [], [])

  // The history tells whether an assertion failed, and whether a notice came late.
  datatype World = World(
    sched: Sched,
    control: Control,
    tasks: seq<Task>,
    done: set<nat>,
    failed: bool,
    late: bool
  )

  const START := World(Sched([], [], [], None), Scheduling, [], {}, false, false)

  datatype Action =
    | SwitchIn
    | Resume
    | Await(future: nat)
    | Chain
    | Yield
    | Exit
    | SwitchBack
    | Register
    | Discard(fiber: nat)
    | Complete(future: nat)
    | Notify(fiber: nat, i: nat)

  predicate Sized(w: World) {
    && |w.tasks| == |w.sched.fibers|
    && (w.control.Scheduling? || w.control.fiber < |w.sched.fibers|)
  }

  predicate Enabled(w: World, a: Action) {
    && Sized(w)
    && match a
       case SwitchIn => w.control.Scheduling? && w.sched.runnable != [] && w.sched.runnable[0] < |w.sched.fibers|
       case Resume => w.control.Resuming?
       case Await(_) => w.control.Executing?
       case Chain => w.control.Chaining?
       case Yield => w.control.Executing?
       case Exit => w.control.Executing?
       case SwitchBack => w.control.Leaving?
       case Register => true
       case Discard(f) => f < |w.sched.fibers| && !w.sched.fibers[f].released
       case Complete(x) => x !in w.done
       case Notify(f, i) => f < |w.tasks| && i < |w.tasks[f].notices|
  }

  // Propagating to a fiber; a failed assertion is recorded.
  function Propagates(w: World, f: nat): World
    requires f < |w.sched.fibers|
  {
    w.(sched := Propagated(w.sched, f), failed := w.failed || !MayPropagate(w.sched, f))
  }

  function SwitchesIn(w: World): World
    requires |w.tasks| == |w.sched.fibers| && w.sched.runnable != [] && w.sched.runnable[0] < |w.sched.fibers|
  {
    var f := w.sched.runnable[0];
    w.(sched := w.sched.(running := Some(f)),
       control := match w.tasks[f].frame
                  case Plain => Executing(f)
                  case Awaiting(x, saw) => Resuming(f, x, saw))
  }

  // The end of dex_fiber_await(): a registration on a future that is still pending is discarded.
  function Resumes(w: World, f: nat, x: nat, saw: bool): World
    requires f < |w.tasks|
  {
    var t := w.tasks[f].(frame := Plain);
    w.(control := Executing(f),
       tasks := w.tasks[f := if !saw && x !in w.done then t.(waits := Without(t.waits, x)) else t])
  }

  function BeginsAwait(w: World, f: nat, x: nat): World
    requires f < |w.tasks| && f < |w.sched.fibers|
  {
    w.(sched := AwaitBegun(w.sched, f), control := Chaining(f, x, w.sched.fibers[f].cancelled),
       tasks := w.tasks[f := w.tasks[f].(awaits := w.tasks[f].awaits + 1)])
  }

  // A cancelled fiber chains to a future that was rejected long ago.
  function ChainsTo(w: World, f: nat, x: nat, saw: bool): World
    requires f < |w.tasks| && f < |w.sched.fibers|
  {
    var t := w.tasks[f].(frame := Awaiting(x, saw));
    if saw || x in w.done then Propagates(w.(control := Leaving(f), tasks := w.tasks[f := t]), f)
    else w.(control := Leaving(f), tasks := w.tasks[f := t.(waits := t.waits + [x])])
  }

  // A future completes: its list is taken, and every registration on it becomes a notice.
  function Told(t: Task, x: nat): Task {
    var rest := Without(t.waits, x);
    t.(waits := rest, notices := t.notices + seq(|t.waits| - |rest|, _ => t.awaits))
  }

  function Completes(w: World, x: nat): World {
    w.(done := w.done + {x}, tasks := seq(|w.tasks|, f requires 0 <= f < |w.tasks| => Told(w.tasks[f], x)))
  }

  // A notice is late for a fiber that has begun another await, or exited.
  predicate Late(w: World, f: nat, i: nat)
    requires f < |w.tasks| && f < |w.sched.fibers| && i < |w.tasks[f].notices|
  {
    !w.sched.fibers[f].released && (w.sched.fibers[f].exited || w.tasks[f].notices[i] < w.tasks[f].awaits)
  }

  function Notifies(w: World, f: nat, i: nat): World
    requires f < |w.tasks| && f < |w.sched.fibers| && i < |w.tasks[f].notices|
  {
    var t := w.tasks[f];
    Propagates(w.(late := w.late || Late(w, f, i),
                  tasks := w.tasks[f := t.(notices := t.notices[..i] + t.notices[i + 1..])]), f)
  }

  function Act(w: World, a: Action): World
    requires Enabled(w, a)
  {
    match a
    case SwitchIn => SwitchesIn(w)
    case Resume => Resumes(w, w.control.fiber, w.control.future, w.control.saw)
    case Await(x) => BeginsAwait(w, w.control.fiber, x)
    case Chain => ChainsTo(w, w.control.fiber, w.control.future, w.control.saw)
    case Yield =>
      var f := w.control.fiber;
      w.(sched := Yielded(w.sched, f), control := Leaving(f), failed := w.failed || !MayYield(w.sched, f))
    case Exit =>
      var f := w.control.fiber;
      w.(sched := With(w.sched, f, w.sched.fibers[f].(exited := true)), control := Leaving(f))
    case SwitchBack => w.(sched := Returned(w.sched, w.control.fiber), control := Scheduling)
    case Register => w.(sched := Registered(w.sched), tasks := w.tasks + [NEW_TASK])
    case Discard(f) => w.(sched := Discarded(w.sched, f))
    case Complete(x) => Completes(w, x)
    case Notify(f, i) => Notifies(w, f, i)
  }

  predicate Legal(w: World, run: seq<Action>)
    decreases run
  {
    run == [] || (Enabled(w, run[0]) && Legal(Act(w, run[0]), run[1..]))
  }

  function After(w: World, run: seq<Action>): World
    requires Legal(w, run)
    decreases run
  {
    if run == [] then w else After(Act(w, run[0]), run[1..])
  }
}
