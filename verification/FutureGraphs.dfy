/**
 * Any number of futures that wait for each other (src/dex-future.c): any interleaving of chaining,
 * completing, notifying and discarding, one region under a mutex at a time.
 */
module FutureGraphs {
  import opened Common
  import opened Futures

  // Where a registration is: in the list of its target; in the queue of the thread that completed
  // the target; in the hands of a thread that is about to propagate to the waiter, which it keeps
  // alive; or at one of three ends.
  datatype Stage = Listed | Queued | Held | Delivered | Discarded | Lost

  datatype Reg = Reg(target: nat, waiter: nat, stage: Stage)

  // The queue is what the thread that completed the future has yet to notify.  A plain future has
  // a class without a propagate hook.
  datatype Node = Node(cell: Cell, queue: seq<Entry>, plain: bool, alive: bool)

  // The log lists the propagations so far, each with the result it carried.
  datatype Graph = Graph(nodes: seq<Node>, regs: seq<Reg>, log: seq<(nat, Result)>)

  const EMPTY := Graph([], [], [])

  datatype Action =
    | New(plain: bool)
    | Chain(target: nat, waiter: nat)
    | Complete(target: nat, result: Result)
    | Notify(target: nat)
    | Propagate(reg: nat)
    | Discard(target: nat, waiter: nat)
    | Die(target: nat)

  ghost predicate Exists(g: Graph, f: nat) {
    f < |g.nodes| && g.nodes[f].alive
  }

  // A future that a thread is about to notify about, or to propagate to, is referenced.
  ghost predicate Idle(g: Graph, f: nat) {
    forall r :: 0 <= r < |g.regs| && g.regs[r].stage.Held? ==> g.regs[r].target != f && g.regs[r].waiter != f
  }

  ghost predicate Enabled(g: Graph, a: Action) {
    match a
    case New(_) => true
    case Chain(f, w) => Exists(g, f) && Exists(g, w)
    case Complete(f, _) => Exists(g, f)
    case Notify(f) => f < |g.nodes| && g.nodes[f].queue != []
    case Propagate(r) => r < |g.regs| && g.regs[r].stage.Held?
    case Discard(f, _) => Exists(g, f)
    case Die(f) => Exists(g, f) && Idle(g, f) && g.nodes[f].queue == [] && g.nodes[f].cell.chained == []
  }

  // Every listed registration on a target (by one waiter, or by anyone) goes on to another stage.
  function Moved(regs: seq<Reg>, target: nat, waiter: Option<nat>, to: Stage): (r: seq<Reg>)
    ensures |r| == |regs|
  {
    seq(|regs|, i requires 0 <= i < |regs| =>
      if regs[i].stage.Listed? && regs[i].target == target && (waiter.None? || waiter.value == regs[i].waiter)
      then regs[i].(stage := to) else regs[i])
  }

  // dex_future_complete(), up to the unlock.
  function Completes(g: Graph, f: nat, r: Result): Graph
    requires f < |g.nodes|
  {
    var n := g.nodes[f];
    if n.cell.status.Some? then g else
      g.(nodes := g.nodes[f := n.(cell := Completed(n.cell, r), queue := Taken(n.cell))],
         regs := Moved(g.regs, f, None, Queued))
  }

  function Chains(g: Graph, f: nat, w: nat): Graph
    requires f < |g.nodes|
  {
    var n := g.nodes[f];
    g.(nodes := g.nodes[f := n.(cell := Chained(n.cell, |g.regs|, w))],
       regs := g.regs + [Reg(f, w, if n.cell.status.None? then Listed else Held)])
  }

  // The tail of the queue is taken off and its weak reference upgraded.
  function Notifies(g: Graph, f: nat): Graph
    requires f < |g.nodes| && g.nodes[f].queue != []
  {
    var n := g.nodes[f];
    var e := n.queue[|n.queue| - 1];
    var alive := e.waiter < |g.nodes| && g.nodes[e.waiter].alive;
    g.(nodes := g.nodes[f := n.(queue := n.queue[..|n.queue| - 1])],
       regs := if e.id < |g.regs| then
                 g.regs[e.id := g.regs[e.id].(stage := if alive then Held else Lost)]
               else g.regs)
  }

  // dex_future_propagate() to a plain future completes it with the same result.
  function Propagates(g: Graph, r: nat): Graph
    requires r < |g.regs|
  {
    var f, w := g.regs[r].target, g.regs[r].waiter;
    if f >= |g.nodes| || w >= |g.nodes| || g.nodes[f].cell.status.None? then g else
      var result := g.nodes[f].cell.status.value;
      var g1 := g.(regs := g.regs[r := g.regs[r].(stage := Delivered)], log := g.log + [(r, result)]);
      if g.nodes[w].plain then Completes(g1, w, result) else g1
  }

  function Discards(g: Graph, f: nat, w: nat): Graph
    requires f < |g.nodes|
  {
    var n := g.nodes[f];
    g.(nodes := g.nodes[f := n.(cell := n.cell.(chained := NotOf(n.cell.chained, w)))],
       regs := Moved(g.regs, f, Some(w), Discarded))
  }

  function Act(g: Graph, a: Action): Graph
    requires Enabled(g, a)
  {
    match a
    case New(plain) => g.(nodes := g.nodes + [Node(Cell(None, []), [], plain, true)])
    case Chain(f, w) => Chains(g, f, w)
    case Complete(f, r) => Completes(g, f, r)
    case Notify(f) => Notifies(g, f)
    case Propagate(r) => Propagates(g, r)
    case Discard(f, w) => Discards(g, f, w)
    case Die(f) => g.(nodes := g.nodes[f := g.nodes[f].(alive := false)])
  }

  ghost predicate Legal(g: Graph, run: seq<Action>)
    decreases run
  {
    run == [] || (Enabled(g, run[0]) && Legal(Act(g, run[0]), run[1..]))
  }

  ghost function After(g: Graph, run: seq<Action>): Graph
    requires Legal(g, run)
    decreases run
  {
    if run == [] then g else After(Act(g, run[0]), run[1..])
  }

  // ----- what every step keeps

  ghost predicate Has(s: seq<Entry>, id: nat) {
    exists i :: 0 <= i < |s| && s[i].id == id
  }

  // A list names registrations that are in the given stage, each once, oldest first.
  ghost predicate ListOk(regs: seq<Reg>, f: nat, s: seq<Entry>, stage: Stage) {
    && (forall i :: 0 <= i < |s| ==> s[i].awaiting && s[i].id < |regs| && regs[s[i].id] == Reg(f, s[i].waiter, stage))
    && (forall i, j :: 0 <= i < j < |s| ==> s[i].id < s[j].id)
  }

  ghost predicate NodeOk(regs: seq<Reg>, f: nat, n: Node) {
    && ListOk(regs, f, n.cell.chained, Listed)
    && ListOk(regs, f, n.queue, Queued)
    && (n.cell.status.Some? ==> n.cell.chained == [])
    && (n.cell.status.None? ==> n.queue == [])
  }

  // A registration is where its stage says it is.
  ghost predicate RegOk(nodes: seq<Node>, r: nat, reg: Reg) {
    && reg.target < |nodes| && reg.waiter < |nodes|
    && (reg.stage.Listed? ==> Has(nodes[reg.target].cell.chained, r))
    && (reg.stage.Queued? ==> Has(nodes[reg.target].queue, r))
    && (reg.stage.Held? || reg.stage.Lost? ==> nodes[reg.target].cell.status.Some?)
    && (reg.stage.Held? ==> nodes[reg.waiter].alive)
    && (reg.stage.Delivered? && nodes[reg.waiter].plain ==> nodes[reg.waiter].cell.status.Some?)
    && (reg.stage.Lost? ==> !nodes[reg.waiter].alive)
  }

  ghost predicate NodesOk(g: Graph) {
    forall f :: 0 <= f < |g.nodes| ==> NodeOk(g.regs, f, g.nodes[f])
  }

  ghost predicate RegsOk(g: Graph) {
    forall r :: 0 <= r < |g.regs| ==> RegOk(g.nodes, r, g.regs[r])
  }

  // A propagation was that of a registration, and carried the result of its target.
  ghost predicate PropagationOk(g: Graph, r: nat, result: Result) {
    && r < |g.regs| && g.regs[r].stage.Delivered?
    && g.regs[r].target < |g.nodes| && g.nodes[g.regs[r].target].cell.status == Some(result)
  }

  ghost predicate Heard(g: Graph, r: nat) {
    exists k :: 0 <= k < |g.log| && g.log[k].0 == r
  }

  // The log has each delivered registration once.
  ghost predicate LogOk(g: Graph) {
    && (forall k :: 0 <= k < |g.log| ==> PropagationOk(g, g.log[k].0, g.log[k].1))
    && (forall k, l :: 0 <= k < l < |g.log| ==> g.log[k].0 != g.log[l].0)
    && (forall r :: 0 <= r < |g.regs| && g.regs[r].stage.Delivered? ==> Heard(g, r))
  }

  ghost predicate Inv(g: Graph) {
    NodesOk(g) && RegsOk(g) && LogOk(g)
  }

  // ----- what is over stays over

  // The only ways through the stages.
  ghost predicate MayBecome(a: Stage, b: Stage) {
    match a
    case Listed => true
    case Queued => b != Listed && b != Discarded
    case Held => b == Held || b == Delivered
    case _ => b == a
  }

  ghost predicate RegLater(a: Reg, b: Reg) {
    a.target == b.target && a.waiter == b.waiter && MayBecome(a.stage, b.stage)
  }

  ghost predicate NodeLater(a: Node, b: Node) {
    && (a.cell.status.Some? ==> b.cell.status == a.cell.status)
    && (b.alive ==> a.alive)
    && a.plain == b.plain
  }

  ghost predicate Later(g: Graph, g': Graph) {
    && |g.nodes| <= |g'.nodes| && (forall f :: 0 <= f < |g.nodes| ==> NodeLater(g.nodes[f], g'.nodes[f]))
    && |g.regs| <= |g'.regs| && (forall r :: 0 <= r < |g.regs| ==> RegLater(g.regs[r], g'.regs[r]))
  }
}
