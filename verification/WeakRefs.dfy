/**
 * The race between dex_unref() and the weak-to-strong upgrade (src/dex-object.c).
 *
 * Any number of threads work on one object and any number of weak references.  One step is
 * one atomic operation or one mutex action; plain reads and writes made under a mutex belong
 * to the neighbouring mutex action, and a critical section that holds nothing else is one
 * step.  Memory is never reused, so a thread that still holds the address of a finalized
 * object may keep executing dex_unref() on it.
 */
module WeakRefs {
  import opened Common
  import opened RefLedger

  type Weak = nat

  // Why a weak reference is being read: dex_weak_ref_get(), dex_weak_ref_set() to this object
  // or away from it, dex_weak_ref_clear().
  datatype Purpose = Get | Assign(toObject: bool) | Teardown

  // The next operation of a thread, with the source lines it stands on.
  datatype Pc =
    | Idle
    | Load                                           // 107
    | Drop(mark: nat)                                // 112
    | LockObject(mark: nat)                          // 128
    | LockWeak(mark: nat, k: nat)                    // 129-130
    | TestCount(mark: nat)                           // 137
    | TestMark(mark: nat)                            // 138
    | Unlock(k: nat)                                 // 140-142
    | ClearWeak(todo: seq<Weak>)                     // 152-165
    | FinalTest                                      // 168
    | WeakLock(w: Weak, why: Purpose)                // 356, 433
    | WeakBump(w: Weak, why: Purpose)                // 292, 310
    | WeakAdd(w: Weak, why: Purpose)                 // 313
    | WeakUnlock(w: Weak, why: Purpose, got: bool)   // 358, 437-440
    | Link(w: Weak)                                  // 209-215
    | Unlink(w: Weak, why: Purpose)                  // 230-247
    | Forget(w: Weak)                                // 255

  // A mutex is held by the thread whose program counter says so.
  datatype State = State(
    ledger: Ledger,              // ref_count and weak_refs_watermark
    list: seq<Weak>,             // weak_refs
    mem: set<Weak>,              // the weak references whose mem_block is the object
    pc: map<Thread, Pc>
  )

  datatype Action =
    | Arrive(t: Thread)
    | Copy(t: Thread)
    | HandOver(t: Thread, to: Thread)
    | BeginUnref(t: Thread)
    | BeginWeak(t: Thread, w: Weak, why: Purpose)
    | Advance(t: Thread)

  function Start(t: Thread): State {
    State(Init(t), [], {}, map[t := Idle])
  }

  // ----- classification of program counters

  predicate HoldsObject(pc: Pc) {
    pc.LockWeak? || pc.TestCount? || pc.TestMark? || pc.Unlock? || pc.ClearWeak?
  }

  predicate HoldsWeak(list: seq<Weak>, pc: Pc, w: Weak) {
    match pc
    case LockWeak(_, k) => k <= |list| && w in list[..k]
    case TestCount(_) => w in list
    case TestMark(_) => w in list
    case Unlock(k) => k <= |list| && w in list[k..]
    case ClearWeak(todo) => w in todo
    case WeakBump(x, _) => w == x
    case WeakAdd(x, _) => w == x
    case WeakUnlock(x, _, _) => w == x
    case _ => false
  }

  // Inside a call that was entered with, or has obtained, a full reference.
  predicate NeedsRef(pc: Pc) {
    pc.Load? || pc.Drop? || pc.Link? || pc.Unlink? || pc.Forget? ||
    (pc.WeakUnlock? && pc.got) || (OnWeak(pc) && pc.why == Assign(true))
  }

  predicate OnWeak(pc: Pc) {
    pc.WeakLock? || pc.WeakBump? || pc.WeakAdd? || pc.WeakUnlock?
  }

  // After the decrement that returned one, before both tests passed.
  predicate Claims(pc: Pc) {
    pc.LockObject? || pc.LockWeak? || pc.TestCount? || pc.TestMark?
  }

  predicate Touching(pc: Pc) {
    OnWeak(pc) || pc.Link? || pc.Unlink? || pc.Forget?
  }

  predicate Touches(pc: Pc, w: Weak) {
    Touching(pc) && pc.w == w
  }

  // Inside dex_weak_ref_set() or dex_weak_ref_clear() of w.
  predicate Writes(pc: Pc, w: Weak) {
    Touches(pc, w) && !(OnWeak(pc) && pc.why == Get)
  }

  predicate TearsDown(pc: Pc, w: Weak) {
    Touches(pc, w) && (pc.Forget? || (!pc.Link? && pc.why == Teardown))
  }

  // ----- calls that a thread may start

  predicate Free(s: State, t: Thread) { t in s.pc && s.pc[t].Idle? }

  // References are copied, dropped and handed over by their owner only;
  // dex_weak_ref_set() to the object needs a full reference; one thread at a time is inside
  // set() of a weak reference, and nobody else touches one that is being cleared.
  ghost predicate MayAct(s: State, a: Action) {
    match a
    case Arrive(t) => t !in s.pc
    case Copy(t) => Free(s, t) && t in s.ledger.refs
    case HandOver(t, to) => Free(s, t) && to in s.pc && t in s.ledger.refs
    case BeginUnref(t) => Free(s, t) && t in s.ledger.refs
    case BeginWeak(t, w, why) =>
      && Free(s, t)
      && (why == Assign(true) ==> t in s.ledger.refs)
      && (forall u :: u in s.pc ==> !TearsDown(s.pc[u], w))
      && (why != Get ==> forall u :: u in s.pc ==> !Writes(s.pc[u], w))
      && (why == Teardown ==> forall u :: u in s.pc ==> !Touches(s.pc[u], w))
    case Advance(t) => t in s.pc && !s.pc[t].Idle? && !Blocked(s, t)
  }

  ghost predicate ObjectLocked(s: State) {
    exists u :: u in s.pc && HoldsObject(s.pc[u])
  }

  ghost predicate WeakLocked(s: State, w: Weak) {
    exists u :: u in s.pc && HoldsWeak(s.list, s.pc[u], w)
  }

  // Waiting for a mutex that somebody holds.
  ghost predicate Blocked(s: State, t: Thread)
    requires t in s.pc
  {
    match s.pc[t]
    case LockObject(_) => ObjectLocked(s)
    case Link(_) => ObjectLocked(s)
    case Unlink(_, _) => ObjectLocked(s)
    case LockWeak(_, k) => k < |s.list| && WeakLocked(s, s.list[k])
    case WeakLock(w, _) => WeakLocked(s, w)
    case _ => false
  }

  function Act(s: State, a: Action): State
    requires a.Advance? ==> a.t in s.pc && !s.pc[a.t].Idle?
  {
    match a
    case Arrive(t) => s.(pc := s.pc[t := Idle])
    case Copy(t) => s.(ledger := Apply(s.ledger, Ref(t)))
    case HandOver(t, to) => s.(ledger := Apply(s.ledger, Give(t, to)))
    case BeginUnref(t) => s.(pc := s.pc[t := Load])
    case BeginWeak(t, w, why) => s.(pc := s.pc[t := WeakLock(w, why)])
    case Advance(t) => Next(s, t)
  }

  // ----- the steps inside a call: one table for each part of the state

  function Next(s: State, t: Thread): State
    requires t in s.pc && !s.pc[t].Idle?
  {
    State(Record(s.ledger, NextEntry(s, t)), NextList(s, s.pc[t]), NextMem(s, s.pc[t]), s.pc[t := NextPc(s, s.pc[t])])
  }

  function Record(l: Ledger, e: Option<Entry>): Ledger {
    if e.None? then l else Apply(l, e.value)
  }

  // Where the thread goes.
  function NextPc(s: State, pc: Pc): Pc {
    match pc
    case Idle => Idle
    case Load => Drop(s.ledger.mark)
    case Drop(m) => if s.ledger.count != 1 then Idle else LockObject(m)
    case LockObject(m) => LockWeak(m, 0)
    case LockWeak(m, k) => if k < |s.list| then LockWeak(m, k + 1) else TestCount(m)
    case TestCount(m) => if s.ledger.count > 0 then Unlock(0) else TestMark(m)
    case TestMark(m) => if s.ledger.mark != m then Unlock(0) else ClearWeak(s.list)
    case Unlock(k) => if k < |s.list| then Unlock(k + 1) else Idle
    case ClearWeak(todo) => if todo == [] then FinalTest else ClearWeak(todo[1..])
    case FinalTest => Idle
    case WeakLock(w, why) => WeakBump(w, why)
    case WeakBump(w, why) => if w in s.mem then WeakAdd(w, why) else WeakUnlock(w, why, false)
    case WeakAdd(w, why) => WeakUnlock(w, why, true)
    case WeakUnlock(w, why, got) =>
      (match why
       case Get => Idle
       case Assign(true) => if got then Load else Link(w)
       case Assign(false) => if got then Unlink(w, why) else Idle
       case Teardown => if got then Unlink(w, why) else Idle)
    case Link(_) => Idle
    case Unlink(w, why) => if why == Teardown then Forget(w) else Load
    case Forget(_) => Load
  }

  // What it does to the two counters.
  function NextEntry(s: State, t: Thread): Option<Entry>
    requires t in s.pc
  {
    match s.pc[t]
    case Load => Some(Snapshot(t))
    case Drop(_) => Some(Decrement(t))
    case TestCount(_) => if s.ledger.count > 0 then Some(Bail(t)) else None
    case TestMark(m) => if s.ledger.mark != m then Some(Bail(t)) else Some(Pass(t))
    case FinalTest => Some(Finalize(t))
    case WeakBump(w, _) => if w in s.mem then Some(Bump(t)) else None
    case WeakAdd(_, _) => Some(Add(t))
    case _ => None
  }

  // What it does to the weak list.
  function NextList(s: State, pc: Pc): seq<Weak> {
    match pc
    case TestMark(m) => if s.ledger.mark != m then s.list else []
    case Link(w) => [w] + s.list
    case Unlink(w, _) => Without(s.list, w)
    case _ => s.list
  }

  // What it does to the pointers of the weak references.
  function NextMem(s: State, pc: Pc): set<Weak> {
    match pc
    case ClearWeak(todo) => if todo == [] then s.mem else s.mem - {todo[0]}
    case WeakUnlock(w, why, _) =>
      if why == Assign(true) then s.mem + {w} else if why == Assign(false) then s.mem - {w} else s.mem
    case Forget(w) => s.mem - {w}
    case _ => s.mem
  }
}
