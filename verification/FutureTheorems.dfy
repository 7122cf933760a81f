/** Completion happens once, and every live waiter hears of it exactly once. */
module FutureTheorems {
  import opened Common
  import opened Futures
  import opened FutureGraphs

  // A step that propagates nothing keeps the log in order.
  lemma LogKept(g: Graph, g': Graph)
    requires LogOk(g) && Later(g, g') && g'.log == g.log
    requires forall r :: 0 <= r < |g'.regs| && g'.regs[r].stage.Delivered? ==>
               r < |g.regs| && g.regs[r].stage.Delivered?
    ensures LogOk(g')
  {
    forall k | 0 <= k < |g.log|
      ensures PropagationOk(g', g.log[k].0, g.log[k].1)
    {
      var r := g.log[k].0;
      assert PropagationOk(g, r, g.log[k].1);
      assert RegLater(g.regs[r], g'.regs[r]) && NodeLater(g.nodes[g.regs[r].target], g'.nodes[g.regs[r].target]);
    }
    forall r | 0 <= r < |g'.regs| && g'.regs[r].stage.Delivered?
      ensures Heard(g', r)
    {
      assert Heard(g, r);
    }
  }

  // ----- completing

  lemma CompletesNodes(g: Graph, f: nat, r: Result)
    requires NodesOk(g) && f < |g.nodes| && g.nodes[f].cell.status.None?
    ensures NodesOk(Completes(g, f, r))
  {
    var g' := Completes(g, f, r);
    forall h | 0 <= h < |g'.nodes|
      ensures NodeOk(g'.regs, h, g'.nodes[h])
    {
      assert NodeOk(g.regs, h, g.nodes[h]);
    }
  }

  lemma CompletesRegs(g: Graph, f: nat, r: Result)
    requires NodesOk(g) && RegsOk(g) && f < |g.nodes| && g.nodes[f].cell.status.None?
    ensures RegsOk(Completes(g, f, r))
  {
    var g' := Completes(g, f, r);
    forall i | 0 <= i < |g'.regs|
      ensures RegOk(g'.nodes, i, g'.regs[i])
    {
      assert RegOk(g.nodes, i, g.regs[i]) && NodeOk(g.regs, f, g.nodes[f]);
    }
  }

  lemma CompletesInv(g: Graph, f: nat, r: Result)
    requires Inv(g) && f < |g.nodes|
    ensures Later(g, Completes(g, f, r)) && Inv(Completes(g, f, r))
  {
    if g.nodes[f].cell.status.None? {
      CompletesNodes(g, f, r);
      CompletesRegs(g, f, r);
      CompletesLater(g, f, r);
      LogKept(g, Completes(g, f, r));
    }
  }

  lemma CompletesLater(g: Graph, f: nat, r: Result)
    requires f < |g.nodes| && g.nodes[f].cell.status.None?
    ensures Later(g, Completes(g, f, r))
    ensures var g' := Completes(g, f, r);
            forall r :: 0 <= r < |g'.regs| && g'.regs[r].stage.Delivered? ==> r < |g.regs| && g.regs[r].stage.Delivered?
  {
  }

  // ----- chaining

  lemma ListGrows(regs: seq<Reg>, reg: Reg, f: nat, s: seq<Entry>, stage: Stage)
    requires ListOk(regs, f, s, stage)
    ensures ListOk(regs + [reg], f, s, stage)
  {
  }

  lemma ChainsNodes(g: Graph, f: nat, w: nat)
    requires NodesOk(g) && f < |g.nodes|
    ensures NodesOk(Chains(g, f, w))
  {
    var g' := Chains(g, f, w);
    var reg := g'.regs[|g.regs|];
    forall h | 0 <= h < |g'.nodes|
      ensures NodeOk(g'.regs, h, g'.nodes[h])
    {
      assert NodeOk(g.regs, h, g.nodes[h]);
      ListGrows(g.regs, reg, h, g.nodes[h].cell.chained, Listed);
      ListGrows(g.regs, reg, h, g.nodes[h].queue, Queued);
    }
  }

  lemma HasAppend(s: seq<Entry>, e: Entry, id: nat)
    ensures Has(s + [e], id) <==> Has(s, id) || e.id == id
  {
    if Has(s, id) {
      var i :| 0 <= i < |s| && s[i].id == id;
      assert (s + [e])[i].id == id;
    }
    assert (s + [e])[|s|] == e;
  }

  lemma ChainsRegs(g: Graph, f: nat, w: nat)
    requires NodesOk(g) && RegsOk(g) && f < |g.nodes| && Exists(g, w)
    ensures RegsOk(Chains(g, f, w))
  {
    var g' := Chains(g, f, w);
    forall i | 0 <= i < |g'.regs|
      ensures RegOk(g'.nodes, i, g'.regs[i])
    {
      HasAppend(g.nodes[f].cell.chained, Entry(|g.regs|, w, true), i);
      assert i < |g.regs| ==> RegOk(g.nodes, i, g.regs[i]);
    }
  }

  lemma ChainsInv(g: Graph, f: nat, w: nat)
    requires Inv(g) && f < |g.nodes| && Exists(g, w)
    ensures Later(g, Chains(g, f, w)) && Inv(Chains(g, f, w))
  {
    ChainsNodes(g, f, w);
    ChainsRegs(g, f, w);
    LogKept(g, Chains(g, f, w));
  }

  // ----- notifying

  lemma NotifiesNodes(g: Graph, f: nat)
    requires NodesOk(g) && f < |g.nodes| && g.nodes[f].queue != []
    ensures NodesOk(Notifies(g, f))
  {
    var g' := Notifies(g, f);
    assert NodeOk(g.regs, f, g.nodes[f]);
    forall h | 0 <= h < |g'.nodes|
      ensures NodeOk(g'.regs, h, g'.nodes[h])
    {
      assert NodeOk(g.regs, h, g.nodes[h]);
    }
  }

  lemma HasFront(s: seq<Entry>, id: nat)
    requires s != [] && Has(s, id)
    ensures id == s[|s| - 1].id || Has(s[..|s| - 1], id)
  {
    var i :| 0 <= i < |s| && s[i].id == id;
    if i < |s| - 1 {
      assert s[..|s| - 1][i].id == id;
    }
  }

  lemma NotifiesRegs(g: Graph, f: nat)
    requires NodesOk(g) && RegsOk(g) && f < |g.nodes| && g.nodes[f].queue != []
    ensures RegsOk(Notifies(g, f))
  {
    var g' := Notifies(g, f);
    assert NodeOk(g.regs, f, g.nodes[f]);
    forall i | 0 <= i < |g'.regs|
      ensures RegOk(g'.nodes, i, g'.regs[i])
    {
      assert RegOk(g.nodes, i, g.regs[i]);
      if Has(g.nodes[f].queue, i) {
        HasFront(g.nodes[f].queue, i);
      }
    }
  }

  lemma NotifiesInv(g: Graph, f: nat)
    requires Inv(g) && f < |g.nodes| && g.nodes[f].queue != []
    ensures Later(g, Notifies(g, f)) && Inv(Notifies(g, f))
  {
    NotifiesNodes(g, f);
    NotifiesRegs(g, f);
    NotifiesLater(g, f);
    LogKept(g, Notifies(g, f));
  }

  lemma NotifiesLater(g: Graph, f: nat)
    requires NodesOk(g) && f < |g.nodes| && g.nodes[f].queue != []
    ensures Later(g, Notifies(g, f))
    ensures var g' := Notifies(g, f);
            forall r :: 0 <= r < |g'.regs| && g'.regs[r].stage.Delivered? ==> r < |g.regs| && g.regs[r].stage.Delivered?
  {
    assert NodeOk(g.regs, f, g.nodes[f]);
  }

  // ----- propagating

  function Logged(g: Graph, r: nat, result: Result): Graph
    requires r < |g.regs|
  {
    g.(regs := g.regs[r := g.regs[r].(stage := Delivered)], log := g.log + [(r, result)])
  }

  lemma LoggedNodes(g: Graph, r: nat, result: Result)
    requires NodesOk(g) && r < |g.regs| && g.regs[r].stage.Held?
    ensures NodesOk(Logged(g, r, result))
  {
    var g' := Logged(g, r, result);
    forall h | 0 <= h < |g'.nodes|
      ensures NodeOk(g'.regs, h, g'.nodes[h])
    {
      assert NodeOk(g.regs, h, g.nodes[h]);
    }
  }

  lemma LoggedHeard(g: Graph, r: nat, result: Result, i: nat)
    requires r < |g.regs|
    ensures Heard(Logged(g, r, result), i) <==> Heard(g, i) || i == r
  {
    var log := Logged(g, r, result).log;
    assert log[|g.log|] == (r, result);
    if k :| 0 <= k < |g.log| && g.log[k].0 == i {
      assert log[k].0 == i;
    }
  }

  lemma LoggedLog(g: Graph, r: nat, result: Result)
    requires LogOk(g) && r < |g.regs| && g.regs[r].stage.Held?
    requires g.regs[r].target < |g.nodes| && g.nodes[g.regs[r].target].cell.status == Some(result)
    ensures LogOk(Logged(g, r, result))
  {
    var g' := Logged(g, r, result);
    forall k | 0 <= k < |g'.log|
      ensures PropagationOk(g', g'.log[k].0, g'.log[k].1)
      ensures k < |g.log| ==> g'.log[k].0 != r
    {
      assert k < |g.log| ==> PropagationOk(g, g.log[k].0, g.log[k].1);
    }
    forall i | 0 <= i < |g'.regs| && g'.regs[i].stage.Delivered?
      ensures Heard(g', i)
    {
      LoggedHeard(g, r, result, i);
    }
  }

  lemma LoggedInv(g: Graph, r: nat, result: Result)
    requires Inv(g) && r < |g.regs| && g.regs[r].stage.Held?
    requires g.regs[r].target < |g.nodes| && g.nodes[g.regs[r].target].cell.status == Some(result)
    requires g.regs[r].waiter < |g.nodes|
    requires g.nodes[g.regs[r].waiter].plain ==> g.nodes[g.regs[r].waiter].cell.status.Some?
    ensures Later(g, Logged(g, r, result)) && Inv(Logged(g, r, result))
  {
    LoggedNodes(g, r, result);
    LoggedLog(g, r, result);
    var g' := Logged(g, r, result);
    forall i | 0 <= i < |g'.regs|
      ensures RegOk(g'.nodes, i, g'.regs[i])
    {
      assert RegOk(g.nodes, i, g.regs[i]);
    }
  }

  lemma PropagatesInv(g: Graph, r: nat)
    requires Inv(g) && r < |g.regs| && g.regs[r].stage.Held?
    ensures Later(g, Propagates(g, r)) && Inv(Propagates(g, r))
  {
    assert RegOk(g.nodes, r, g.regs[r]);
    var w, result := g.regs[r].waiter, g.nodes[g.regs[r].target].cell.status.value;
    if g.nodes[w].plain && g.nodes[w].cell.status.None? {
      var g1 := Completes(g, w, result);
      CompletesInv(g, w, result);
      assert g1.regs[r] == g.regs[r];
      assert NodeLater(g.nodes[g.regs[r].target], g1.nodes[g.regs[r].target]);
      LoggedInv(g1, r, result);
      LaterTransitive(g, g1, Logged(g1, r, result));
      EitherOrder(g, r, w, result);
    } else {
      LoggedInv(g, r, result);
    }
  }

  // The registration may as well count as delivered only once the waiter is complete.
  lemma EitherOrder(g: Graph, r: nat, w: nat, result: Result)
    requires r < |g.regs| && w < |g.nodes| && g.regs[r].stage.Held?
    ensures Completes(Logged(g, r, result), w, result) == Logged(Completes(g, w, result), r, result)
  {
    assert Moved(Logged(g, r, result).regs, w, None, Queued) ==
           Moved(g.regs, w, None, Queued)[r := g.regs[r].(stage := Delivered)];
  }

  // ----- discarding

  lemma {:induction false} NotOfIs(s: seq<Entry>, w: nat)
    ensures forall e :: e in NotOf(s, w) <==> e in s && e.waiter != w
    ensures forall e :: e in Of(s, w) <==> e in s && e.waiter == w
  {
    if s != [] {
      NotOfIs(s[..|s| - 1], w);
      assert s == s[..|s| - 1] + [s[|s| - 1]];
    }
  }

  lemma {:induction false} NotOfSorted(regs: seq<Reg>, f: nat, s: seq<Entry>, stage: Stage, w: nat)
    requires ListOk(regs, f, s, stage)
    ensures ListOk(regs, f, NotOf(s, w), stage)
  {
    if s != [] {
      var front, last := s[..|s| - 1], s[|s| - 1];
      NotOfSorted(regs, f, front, stage, w);
      NotOfIs(front, w);
      var kept := NotOf(front, w);
      assert kept + [] == kept;
      forall i | 0 <= i < |kept|
        ensures kept[i].id < last.id
      {
        assert kept[i] in front;
      }
      ListAppend(regs, f, kept, last, stage);
    }
  }

  lemma ListAppend(regs: seq<Reg>, f: nat, s: seq<Entry>, e: Entry, stage: Stage)
    requires ListOk(regs, f, s, stage) && forall i :: 0 <= i < |s| ==> s[i].id < e.id
    requires e.awaiting && e.id < |regs| && regs[e.id] == Reg(f, e.waiter, stage)
    ensures ListOk(regs, f, s + [e], stage)
  {
  }

  lemma DiscardsNodes(g: Graph, f: nat, w: nat)
    requires NodesOk(g) && f < |g.nodes|
    ensures NodesOk(Discards(g, f, w))
  {
    var g' := Discards(g, f, w);
    forall h | 0 <= h < |g'.nodes|
      ensures NodeOk(g'.regs, h, g'.nodes[h])
    {
      assert NodeOk(g.regs, h, g.nodes[h]);
      if h == f {
        var s := g.nodes[f].cell.chained;
        NotOfSorted(g.regs, f, s, Listed, w);
        NotOfIs(s, w);
        KeptStay(g.regs, f, NotOf(s, w), w);
      }
    }
  }

  lemma KeptStay(regs: seq<Reg>, f: nat, s: seq<Entry>, w: nat)
    requires ListOk(regs, f, s, Listed) && forall e :: e in s ==> e.waiter != w
    ensures ListOk(Moved(regs, f, Some(w), Discarded), f, s, Listed)
  {
    forall i | 0 <= i < |s|
      ensures s[i].waiter != w
    {
      assert s[i] in s;
    }
  }

  lemma DiscardsRegs(g: Graph, f: nat, w: nat)
    requires NodesOk(g) && RegsOk(g) && f < |g.nodes|
    ensures RegsOk(Discards(g, f, w))
  {
    var g' := Discards(g, f, w);
    var s := g.nodes[f].cell.chained;
    assert NodeOk(g.regs, f, g.nodes[f]);
    forall i | 0 <= i < |g'.regs|
      ensures RegOk(g'.nodes, i, g'.regs[i])
    {
      assert RegOk(g.nodes, i, g.regs[i]);
      if g'.regs[i].stage.Listed? && g.regs[i].target == f {
        StillListed(s, i, w, g.regs[i].waiter, g.regs, f);
      }
    }
  }

  lemma StillListed(s: seq<Entry>, i: nat, w: nat, waiter: nat, regs: seq<Reg>, f: nat)
    requires ListOk(regs, f, s, Listed) && Has(s, i) && i < |regs| && regs[i].waiter == waiter != w
    ensures Has(NotOf(s, w), i)
  {
    NotOfIs(s, w);
    var k :| 0 <= k < |s| && s[k].id == i;
    assert s[k] in NotOf(s, w);
  }

  lemma DiscardsInv(g: Graph, f: nat, w: nat)
    requires Inv(g) && f < |g.nodes|
    ensures Later(g, Discards(g, f, w)) && Inv(Discards(g, f, w))
  {
    DiscardsNodes(g, f, w);
    DiscardsRegs(g, f, w);
    LogKept(g, Discards(g, f, w));
  }

  // ----- every step and every run

  lemma NewInv(g: Graph, plain: bool)
    requires Inv(g)
    ensures Later(g, Act(g, New(plain))) && Inv(Act(g, New(plain)))
  {
    var g' := Act(g, New(plain));
    LogKept(g, g');
    forall r | 0 <= r < |g'.regs|
      ensures RegOk(g'.nodes, r, g'.regs[r])
    {
      assert RegOk(g.nodes, r, g.regs[r]);
    }
    forall f | 0 <= f < |g'.nodes|
      ensures NodeOk(g'.regs, f, g'.nodes[f])
    {
      assert f < |g.nodes| ==> NodeOk(g.regs, f, g.nodes[f]);
    }
  }

  lemma DieInv(g: Graph, f: nat)
    requires Inv(g) && Enabled(g, Die(f))
    ensures Later(g, Act(g, Die(f))) && Inv(Act(g, Die(f)))
  {
    var g' := Act(g, Die(f));
    LogKept(g, g');
    forall r | 0 <= r < |g'.regs|
      ensures RegOk(g'.nodes, r, g'.regs[r])
    {
      assert RegOk(g.nodes, r, g.regs[r]);
    }
    forall h | 0 <= h < |g'.nodes|
      ensures NodeOk(g'.regs, h, g'.nodes[h])
    {
      assert NodeOk(g.regs, h, g.nodes[h]);
    }
  }

  lemma ActInv(g: Graph, a: Action)
    requires Inv(g) && Enabled(g, a)
    ensures Later(g, Act(g, a)) && Inv(Act(g, a))
  {
    match a
    case New(plain) => NewInv(g, plain);
    case Chain(f, w) => ChainsInv(g, f, w);
    case Complete(f, r) => CompletesInv(g, f, r);
    case Notify(f) => NotifiesInv(g, f);
    case Propagate(r) => PropagatesInv(g, r);
    case Discard(f, w) => DiscardsInv(g, f, w);
    case Die(f) => DieInv(g, f);
  }

  // ----- what is over stays over

  lemma LaterTransitive(g: Graph, h: Graph, k: Graph)
    requires Later(g, h) && Later(h, k)
    ensures Later(g, k)
  {
    forall f | 0 <= f < |g.nodes|
      ensures NodeLater(g.nodes[f], k.nodes[f])
    {
      assert NodeLater(g.nodes[f], h.nodes[f]) && NodeLater(h.nodes[f], k.nodes[f]);
    }
    forall r | 0 <= r < |g.regs|
      ensures RegLater(g.regs[r], k.regs[r])
    {
      assert RegLater(g.regs[r], h.regs[r]) && RegLater(h.regs[r], k.regs[r]);
    }
  }

  lemma {:induction false} RunLater(g: Graph, run: seq<Action>)
    requires Inv(g) && Legal(g, run)
    ensures Inv(After(g, run)) && Later(g, After(g, run))
    decreases run
  {
    if run != [] {
      ActInv(g, run[0]);
      RunLater(Act(g, run[0]), run[1..]);
      LaterTransitive(g, Act(g, run[0]), After(g, run));
    }
  }

  // ----- the theorems

  ghost predicate Reachable(g: Graph) {
    exists run :: Legal(EMPTY, run) && After(EMPTY, run) == g
  }

  lemma ReachableInv(g: Graph)
    requires Reachable(g)
    ensures Inv(g)
  {
    var run :| Legal(EMPTY, run) && After(EMPTY, run) == g;
    RunLater(EMPTY, run);
  }

  ghost predicate Done(g: Graph, f: nat) {
    f < |g.nodes| && g.nodes[f].cell.status.Some?
  }

  // However a run goes on, a completed future keeps its result and has nobody on its list.
  lemma CompletedOnce(g: Graph, more: seq<Action>, f: nat)
    requires Reachable(g) && Legal(g, more) && Done(g, f)
    ensures Done(After(g, more), f)
    ensures After(g, more).nodes[f].cell == Cell(g.nodes[f].cell.status, [])
  {
    ReachableInv(g);
    RunLater(g, more);
    DoneLater(g, After(g, more), f);
  }

  lemma DoneLater(g: Graph, g': Graph, f: nat)
    requires Later(g, g') && Inv(g') && Done(g, f)
    ensures Done(g', f) && g'.nodes[f].cell == Cell(g.nodes[f].cell.status, [])
  {
    assert NodeLater(g.nodes[f], g'.nodes[f]) && NodeOk(g'.regs, f, g'.nodes[f]);
  }

  // No registration is propagated twice, and each brings the result of its target.
  lemma HeardAtMostOnce(g: Graph)
    requires Reachable(g)
    ensures forall k, l :: 0 <= k < l < |g.log| ==> g.log[k].0 != g.log[l].0
    ensures forall k :: 0 <= k < |g.log| ==>
              && g.log[k].0 < |g.regs| && g.regs[g.log[k].0].target < |g.nodes|
              && g.nodes[g.regs[g.log[k].0].target].cell.status == Some(g.log[k].1)
  {
    ReachableInv(g);
    forall k | 0 <= k < |g.log|
      ensures g.log[k].0 < |g.regs| && g.regs[g.log[k].0].target < |g.nodes|
      ensures g.nodes[g.regs[g.log[k].0].target].cell.status == Some(g.log[k].1)
    {
      assert PropagationOk(g, g.log[k].0, g.log[k].1);
    }
  }

  // The thread that completed the future has notified everyone, and nobody is about to propagate.
  ghost predicate AtRest(g: Graph, f: nat) {
    && Done(g, f) && g.nodes[f].queue == []
    && forall r :: 0 <= r < |g.regs| && g.regs[r].target == f ==> !g.regs[r].stage.Held?
  }

  // Every registration of a waiter that is still alive was propagated, unless it was discarded.
  lemma HeardExactlyOnce(g: Graph, r: nat)
    requires Reachable(g) && r < |g.regs| && AtRest(g, g.regs[r].target) && Exists(g, g.regs[r].waiter)
    ensures Heard(g, r) <==> !g.regs[r].stage.Discarded?
  {
    ReachableInv(g);
    assert RegOk(g.nodes, r, g.regs[r]) && NodeOk(g.regs, g.regs[r].target, g.nodes[g.regs[r].target]);
  }

  // A registration that was discarded is never propagated, however the run goes on.
  lemma DiscardedNeverHeard(g: Graph, more: seq<Action>, r: nat)
    requires Reachable(g) && Legal(g, more) && r < |g.regs| && g.regs[r].stage.Discarded?
    ensures !Heard(After(g, more), r)
  {
    ReachableInv(g);
    RunLater(g, more);
    assert RegLater(g.regs[r], After(g, more).regs[r]);
  }

  // A discard that comes after the completion takes nothing back.
  lemma CompletionBeatsDiscard(g: Graph, more: seq<Action>, r: nat)
    requires Reachable(g) && Legal(g, more) && r < |g.regs| && Done(g, g.regs[r].target)
    requires !g.regs[r].stage.Discarded?
    ensures r < |After(g, more).regs| && !After(g, more).regs[r].stage.Discarded?
  {
    ReachableInv(g);
    NotListedOnceDone(g, r);
    RunLater(g, more);
    assert RegLater(g.regs[r], After(g, more).regs[r]);
  }

  lemma NotListedOnceDone(g: Graph, r: nat)
    requires Inv(g) && r < |g.regs| && Done(g, g.regs[r].target)
    ensures !g.regs[r].stage.Listed?
  {
    assert RegOk(g.nodes, r, g.regs[r]) && NodeOk(g.regs, g.regs[r].target, g.nodes[g.regs[r].target]);
  }

  // A waiter without a hook of its own is complete once it was propagated to.
  lemma PlainWaiterCompletes(g: Graph, r: nat)
    requires Reachable(g) && r < |g.regs| && Heard(g, r)
    requires g.regs[r].waiter < |g.nodes| && g.nodes[g.regs[r].waiter].plain
    ensures Done(g, g.regs[r].waiter)
  {
    ReachableInv(g);
    assert RegOk(g.nodes, r, g.regs[r]);
  }

  // ----- what a future completes with

  ghost predicate HasResult(g: Graph, f: nat, result: Result) {
    f < |g.nodes| && g.nodes[f].cell.status == Some(result)
  }

  // The step that completes a future gives it its result: the one that the completion brings, or,
  // for a future without a hook, that of the future which propagates to it.
  ghost predicate Gives(g: Graph, a: Action, f: nat, result: Result) {
    && Exists(g, f) && !Done(g, f)
    && match a
       case New(_) => false
       case Chain(_, _) => false
       case Complete(x, r) => x == f && r == result
       case Notify(_) => false
       case Propagate(r) => r < |g.regs| && g.regs[r].waiter == f && g.nodes[f].plain && HasResult(g, g.regs[r].target, result)
       case Discard(_, _) => false
       case Die(_) => false
  }

  ghost predicate GivenAlong(g: Graph, run: seq<Action>, f: nat, result: Result)
    requires Legal(g, run)
    decreases run
  {
    run != [] && (Gives(g, run[0], f, result) || GivenAlong(Act(g, run[0]), run[1..], f, result))
  }

  lemma PropagateGives(g: Graph, r: nat, f: nat, result: Result)
    requires Inv(g) && Enabled(g, Propagate(r)) && !Done(g, f)
    ensures HasResult(Act(g, Propagate(r)), f, result) <==> Gives(g, Propagate(r), f, result)
  {
    assert RegOk(g.nodes, r, g.regs[r]);
  }

  lemma StepGives(g: Graph, a: Action, f: nat, result: Result)
    requires Inv(g) && Enabled(g, a) && !Done(g, f)
    ensures HasResult(Act(g, a), f, result) <==> Gives(g, a, f, result)
  {
    if a.Propagate? {
      PropagateGives(g, a.reg, f, result);
    }
  }

  lemma {:induction false} GivenOnce(g: Graph, run: seq<Action>, f: nat, result: Result)
    requires Inv(g) && Legal(g, run)
    ensures if Done(g, f) then HasResult(After(g, run), f, result) <==> HasResult(g, f, result)
            else HasResult(After(g, run), f, result) <==> GivenAlong(g, run, f, result)
    ensures Done(g, f) ==> !GivenAlong(g, run, f, result)
    decreases run
  {
    if run != [] {
      var h := Act(g, run[0]);
      ActInv(g, run[0]);
      if Done(g, f) {
        DoneLater(g, h, f);
      } else {
        StepGives(g, run[0], f, result);
      }
      GivenOnce(h, run[1..], f, result);
      if Done(h, f) && !Done(g, f) {
        DoneByGift(g, run[0], f);
      }
    }
  }

  lemma DoneByGift(g: Graph, a: Action, f: nat)
    requires Inv(g) && Enabled(g, a) && !Done(g, f) && Done(Act(g, a), f)
    ensures Gives(g, a, f, Act(g, a).nodes[f].cell.status.value)
  {
    StepGives(g, a, f, Act(g, a).nodes[f].cell.status.value);
  }

  // In every run a future has exactly the result that the step which completed it gave to it.
  lemma ResultIsGiven(run: seq<Action>, f: nat, result: Result)
    requires Legal(EMPTY, run)
    ensures HasResult(After(EMPTY, run), f, result) <==> GivenAlong(EMPTY, run, f, result)
  {
    GivenOnce(EMPTY, run, f, result);
  }

  // So a pending future that is completed has the result it is completed with, for the rest of the
  // run.
  lemma CompletesWith(g: Graph, f: nat, result: Result, more: seq<Action>)
    requires Reachable(g) && Enabled(g, Complete(f, result)) && !Done(g, f)
    requires Legal(Act(g, Complete(f, result)), more)
    ensures HasResult(Act(g, Complete(f, result)), f, result)
    ensures HasResult(After(Act(g, Complete(f, result)), more), f, result)
  {
    ReachableInv(g);
    ActInv(g, Complete(f, result));
    StepGives(g, Complete(f, result), f, result);
    GivenOnce(Act(g, Complete(f, result)), more, f, result);
  }

  lemma HeldIsDone(g: Graph, r: nat)
    requires Inv(g) && Enabled(g, Propagate(r))
    ensures Done(g, g.regs[r].target) && g.regs[r].waiter < |g.nodes|
  {
    assert RegOk(g.nodes, r, g.regs[r]);
  }

  // A propagation is that of a completed target, and brings its result.  A waiter without a hook that
  // is pending takes that result, and keeps it for the rest of the run.
  lemma PropagatesWith(g: Graph, r: nat, more: seq<Action>)
    requires Reachable(g) && Enabled(g, Propagate(r)) && Legal(Act(g, Propagate(r)), more)
    ensures Done(g, g.regs[r].target) && g.regs[r].waiter < |g.nodes|
    ensures var w, result := g.regs[r].waiter, g.nodes[g.regs[r].target].cell.status.value;
            && Act(g, Propagate(r)).log == g.log + [(r, result)]
            && (g.nodes[w].plain && !Done(g, w) ==> HasResult(After(Act(g, Propagate(r)), more), w, result))
  {
    ReachableInv(g);
    HeldIsDone(g, r);
    ActInv(g, Propagate(r));
    var w, result := g.regs[r].waiter, g.nodes[g.regs[r].target].cell.status.value;
    if g.nodes[w].plain && !Done(g, w) {
      assert RegOk(g.nodes, r, g.regs[r]);
      PropagateGives(g, r, w, result);
      GivenOnce(Act(g, Propagate(r)), more, w, result);
    }
  }

  // ----- who is notified, and who is discarded

  // The thread that completed a future notifies the newest registration that is left: it is about to
  // be propagated, or lost if its waiter is gone.
  lemma NewestIsNotified(g: Graph, f: nat) returns (r: nat)
    requires Reachable(g) && Enabled(g, Notify(f))
    ensures r < |g.regs| && g.regs[r].target == f && g.regs[r].stage.Queued?
    ensures forall q :: 0 <= q < |g.regs| && g.regs[q].target == f && g.regs[q].stage.Queued? ==> q <= r
    ensures Act(g, Notify(f)).regs ==
              g.regs[r := g.regs[r].(stage := if Exists(g, g.regs[r].waiter) then Held else Lost)]
  {
    ReachableInv(g);
    var queue := g.nodes[f].queue;
    assert NodeOk(g.regs, f, g.nodes[f]);
    r := queue[|queue| - 1].id;
    forall q | 0 <= q < |g.regs| && g.regs[q].target == f && g.regs[q].stage.Queued?
      ensures q <= r
    {
      assert RegOk(g.nodes, q, g.regs[q]);
      var i :| 0 <= i < |queue| && queue[i].id == q;
    }
  }

  // A discard that finds the target of the registration pending.
  ghost predicate Recalls(g: Graph, a: Action, r: nat) {
    r < |g.regs| && a == Discard(g.regs[r].target, g.regs[r].waiter) && !Done(g, g.regs[r].target)
  }

  ghost predicate RecalledAlong(g: Graph, run: seq<Action>, r: nat)
    requires Legal(g, run)
    decreases run
  {
    run != [] && (Recalls(g, run[0], r) || RecalledAlong(Act(g, run[0]), run[1..], r))
  }

  ghost predicate IsDiscarded(g: Graph, r: nat) {
    r < |g.regs| && g.regs[r].stage.Discarded?
  }

  // A registration on a pending future is on its list, or was taken off.
  lemma PendingIsListed(g: Graph, r: nat)
    requires Inv(g) && r < |g.regs| && !Done(g, g.regs[r].target)
    ensures g.regs[r].stage.Listed? || g.regs[r].stage.Discarded?
  {
    assert RegOk(g.nodes, r, g.regs[r]) && NodeOk(g.regs, g.regs[r].target, g.nodes[g.regs[r].target]);
  }

  lemma DiscardRecalls(g: Graph, f: nat, w: nat, r: nat)
    requires Inv(g) && Enabled(g, Discard(f, w)) && r < |g.regs|
    ensures IsDiscarded(Discards(g, f, w), r) <==> IsDiscarded(g, r) || Recalls(g, Discard(f, w), r)
  {
    if Done(g, g.regs[r].target) {
      NotListedOnceDone(g, r);
    } else {
      PendingIsListed(g, r);
    }
  }

  lemma NotifyRecallsNothing(g: Graph, f: nat, r: nat)
    requires NodesOk(g) && Enabled(g, Notify(f)) && r < |g.regs|
    ensures IsDiscarded(Notifies(g, f), r) <==> IsDiscarded(g, r)
  {
    assert NodeOk(g.regs, f, g.nodes[f]);
  }

  lemma CompletesRecallsNothing(g: Graph, f: nat, result: Result, r: nat)
    requires f < |g.nodes| && r < |g.regs|
    ensures IsDiscarded(Completes(g, f, result), r) <==> IsDiscarded(g, r)
  {
  }

  lemma PropagateRecallsNothing(g: Graph, i: nat, r: nat)
    requires Enabled(g, Propagate(i)) && r < |g.regs|
    ensures IsDiscarded(Propagates(g, i), r) <==> IsDiscarded(g, r)
  {
  }

  lemma NewIsNotDiscarded(g: Graph, a: Action, r: nat)
    requires Enabled(g, a) && r >= |g.regs|
    ensures !IsDiscarded(Act(g, a), r)
  {
  }

  lemma StepRecalls(g: Graph, a: Action, r: nat)
    requires Inv(g) && Enabled(g, a)
    ensures IsDiscarded(Act(g, a), r) <==> IsDiscarded(g, r) || Recalls(g, a, r)
  {
    if r >= |g.regs| {
      NewIsNotDiscarded(g, a, r);
    } else {
      match a
      case Discard(f, w) => DiscardRecalls(g, f, w, r);
      case Notify(f) => NotifyRecallsNothing(g, f, r);
      case Complete(f, result) => CompletesRecallsNothing(g, f, result, r);
      case Propagate(i) => PropagateRecallsNothing(g, i, r);
      case _ =>
    }
  }

  lemma {:induction false} RecalledOnce(g: Graph, run: seq<Action>, r: nat)
    requires Inv(g) && Legal(g, run)
    ensures IsDiscarded(After(g, run), r) <==> IsDiscarded(g, r) || RecalledAlong(g, run, r)
    decreases run
  {
    if run != [] {
      ActInv(g, run[0]);
      StepRecalls(g, run[0], r);
      RecalledOnce(Act(g, run[0]), run[1..], r);
    }
  }

  // In every run a registration is discarded if and only if its waiter was, while its target was
  // still pending.
  lemma DiscardedIffRecalled(run: seq<Action>, r: nat)
    requires Legal(EMPTY, run)
    ensures IsDiscarded(After(EMPTY, run), r) <==> RecalledAlong(EMPTY, run, r)
  {
    RecalledOnce(EMPTY, run, r);
  }

  ghost predicate ListedBy(g: Graph, f: nat, w: nat) {
    exists r :: 0 <= r < |g.regs| && g.regs[r] == Reg(f, w, Listed)
  }

  // Discarding cancels the work of the future if and only if it removed a registration and no
  // registration of anybody is left.
  lemma CancelIsExact(g: Graph, f: nat, w: nat)
    requires Reachable(g) && Exists(g, f)
    ensures CallsHook(g.nodes[f].cell, w) <==> ListedBy(g, f, w) && forall v :: !ListedBy(Discards(g, f, w), f, v)
  {
    ReachableInv(g);
    assert NodeOk(g.regs, f, g.nodes[f]);
    HookWhenEmptied(g, f, w);
    ListedIs(g, f, w);
    DiscardsNodes(g, f, w);
    DiscardsRegs(g, f, w);
    ListedByAnyone(Discards(g, f, w), f);
  }

  lemma ListedByAnyone(g: Graph, f: nat)
    requires NodesOk(g) && RegsOk(g) && f < |g.nodes|
    ensures (forall v :: !ListedBy(g, f, v)) <==> g.nodes[f].cell.chained == []
  {
    var s := g.nodes[f].cell.chained;
    if s == [] {
      forall v
        ensures !ListedBy(g, f, v)
      {
        ListedIs(g, f, v);
      }
    } else {
      ListedIs(g, f, s[0].waiter);
      NotOfIs(s, s[0].waiter);
      assert s[0] in Of(s, s[0].waiter);
    }
  }

  lemma HookWhenEmptied(g: Graph, f: nat, w: nat)
    requires f < |g.nodes| && NodeOk(g.regs, f, g.nodes[f])
    ensures var s := g.nodes[f].cell.chained;
            CallsHook(g.nodes[f].cell, w) <==> Of(s, w) != [] && NotOf(s, w) == []
  {
    var s := g.nodes[f].cell.chained;
    NotOfIs(s, w);
    AllAwaiting(s, Of(s, w));
    AllAwaiting(s, NotOf(s, w));
  }

  lemma AllAwaiting(s: seq<Entry>, part: seq<Entry>)
    requires (forall i :: 0 <= i < |s| ==> s[i].awaiting) && forall e :: e in part ==> e in s
    ensures AnyAwaiting(part) <==> part != []
  {
    if part != [] {
      assert part[0] in part;
      assert part[0].awaiting;
    }
  }

  lemma ListedIs(g: Graph, f: nat, w: nat)
    requires NodesOk(g) && RegsOk(g) && f < |g.nodes|
    ensures ListedBy(g, f, w) <==> Of(g.nodes[f].cell.chained, w) != []
  {
    var s := g.nodes[f].cell.chained;
    assert NodeOk(g.regs, f, g.nodes[f]);
    NotOfIs(s, w);
    if r :| 0 <= r < |g.regs| && g.regs[r] == Reg(f, w, Listed) {
      assert RegOk(g.nodes, r, g.regs[r]);
      var k :| 0 <= k < |s| && s[k].id == r;
      assert s[k] in s && s[k] in Of(s, w);
    }
    if Of(s, w) != [] {
      var e := Of(s, w)[0];
      assert e in Of(s, w);
      assert g.regs[e.id] == Reg(f, w, Listed);
    }
  }
}
