/** The channel is one unbounded FIFO with back-pressure, in every run. */
module ChannelTheorems {
  import opened Common
  import opened Channels

  // ----- what every region keeps

  // Senders wait only behind a full queue and receivers only in front of an empty one; nobody
  // receives from a channel that cannot be fed, and nothing stays in one that cannot be read.
  ghost predicate Shape(c: Chan) {
    && c.capacity >= 1
    && |c.queue| <= c.capacity
    && (c.sendq != [] ==> |c.queue| == c.capacity)
    && (c.recvq != [] ==> c.queue == [] && c.sendq == [])
    && (!c.canSend ==> c.recvq == [])
    && (!c.canReceive ==> c.queue == [] && c.sendq == [] && c.recvq == [])
  }

  function Firsts<A, B>(s: seq<(A, B)>): seq<A> {
    seq(|s|, i requires 0 <= i < |s| => s[i].0)
  }

  // The items among the answers to receivers.
  function Items(answers: seq<(nat, Option<nat>)>): seq<nat> {
    if answers == [] then [] else
      var last := answers[|answers| - 1].1;
      Items(answers[..|answers| - 1]) + if last.Some? then [last.value] else []
  }

  function Delivered(fx: Effects): seq<nat> {
    Items(fx.answers) + fx.taken
  }

  // Items, send promises and receivers leave a region in the order in which they came.
  ghost predicate Flow(c: Chan, c1: Chan, fx: Effects, sent: seq<nat>, asked: seq<nat>) {
    && c.queue + c.sendq + sent == Delivered(fx) + fx.dropped + c1.queue + c1.sendq
    && c.sendq + sent == Firsts(fx.settled) + c1.sendq
    && c.recvq + asked == Firsts(fx.answers) + c1.recvq
    && (c1.canReceive ==> fx.dropped == [])
    && Plausible(fx.settled, c1)
  }

  // One step of the channel's future.
  ghost predicate Good(c: Chan, r: (Chan, Effects), sent: seq<nat>, asked: seq<nat>) {
    Shape(r.0) && Flow(c, r.0, r.1, sent, asked) && r.0.capacity == c.capacity
  }

  lemma {:induction false} RefusalsCarryNothing(recvq: seq<nat>)
    ensures Items(Refusals(recvq)) == [] && Firsts(Refusals(recvq)) == recvq
  {
    if recvq != [] {
      RefusalsCarryNothing(recvq[..|recvq| - 1]);
      assert Refusals(recvq)[..|recvq| - 1] == Refusals(recvq[..|recvq| - 1]);
    }
  }

  // An accepted item waits, enters the queue, or goes straight to a waiting receiver.
  lemma SentIs(c: Chan, item: nat)
    requires Shape(c) && c.canSend && c.canReceive
    ensures Sent(c, item) ==
              if !HasCapacity(c) then (c.(sendq := c.sendq + [item]), NOTHING)
              else if c.recvq == [] then
                (c.(queue := c.queue + [item]), NOTHING.(settled := [(item, Resolved(|c.queue| + 1))]))
              else
                (c.(recvq := c.recvq[1..]),
                 NOTHING.(settled := [(item, Resolved(1))], answers := [(c.recvq[0], Some(item))]))
  {
    var one := [(item, Resolved(|c.queue| + 1))];
    assert one + [] == one;
    if HasCapacity(c) && c.recvq != [] {
      var c0 := c.(queue := c.queue + [item]);
      assert c0.queue == [item] && c0.queue[1..] == [];
      assert Entering([], 0, 0) == [];
      assert Paired(c0).0 == c.(recvq := c.recvq[1..]);
    }
  }

  lemma SendGood(c: Chan, item: nat)
    requires Shape(c) && c.canSend && c.canReceive
    ensures Good(c, Sent(c, item), [item], [])
  {
    SentIs(c, item);
    if HasCapacity(c) && c.recvq != [] {
      assert Items([(c.recvq[0], Some(item))]) == [item];
    }
  }

  lemma ReceiveGood(c: Chan, recv: nat)
    requires Shape(c)
    ensures Good(c, Received(c, recv), [], [recv])
  {
    if Refuses(c) {
      assert Items([(recv, None)]) == [];
    } else if c.queue != [] {
      TakeGood(c, recv);
    }
  }

  // A receiver takes the oldest item, and a waiting sender moves up.
  lemma TakeIs(c: Chan, recv: nat)
    requires Shape(c) && c.queue != [] && !Refuses(c)
    ensures Received(c, recv) ==
              if c.sendq == [] then
                (c.(queue := c.queue[1..], recvq := []), NOTHING.(answers := [(recv, Some(c.queue[0]))]))
              else
                (c.(queue := c.queue[1..] + [c.sendq[0]], sendq := c.sendq[1..], recvq := []),
                 Effects([(c.sendq[0], Resolved(|c.queue|))], [(recv, Some(c.queue[0]))], [], []))
  {
    var c0 := c.(recvq := [recv]);
    assert c.(recvq := c.recvq + [recv]) == c0;
    if c.sendq == [] {
      TakeLast(c, recv);
    } else {
      TakeAndMoveUp(c, recv);
    }
  }

  lemma TakeLast(c: Chan, recv: nat)
    requires Shape(c) && c.queue != [] && c.sendq == []
    ensures Paired(c.(recvq := [recv])) ==
              (c.(queue := c.queue[1..], recvq := []), NOTHING.(answers := [(recv, Some(c.queue[0]))]))
  {
    assert Entering(c.sendq, 0, |c.queue[1..]|) == [] && c.queue[1..] + c.sendq[..0] == c.queue[1..];
    assert [recv][1..] == [] && c.sendq[0..] == [];
  }

  lemma TakeAndMoveUp(c: Chan, recv: nat)
    requires Shape(c) && c.queue != [] && c.sendq != []
    ensures Paired(c.(recvq := [recv])) ==
              (c.(queue := c.queue[1..] + [c.sendq[0]], sendq := c.sendq[1..], recvq := []),
               Effects([(c.sendq[0], Resolved(|c.queue|))], [(recv, Some(c.queue[0]))], [], []))
  {
    assert Entering(c.sendq, 1, |c.queue[1..]|) == [(c.sendq[0], Resolved(|c.queue|))];
    assert c.sendq[..1] == [c.sendq[0]] && [recv][1..] == [];
    assert Min(1, |c.sendq|) == 1 && |c.queue[1..]| < c.capacity;
  }

  lemma TakeLastGood(c: Chan, recv: nat)
    requires Shape(c) && c.queue != [] && c.sendq == []
    ensures c.recvq == [] && Items([(recv, Some(c.queue[0]))]) == [c.queue[0]]
    ensures Good(c, (c.(queue := c.queue[1..], recvq := []), NOTHING.(answers := [(recv, Some(c.queue[0]))])),
                 [], [recv])
  {
  }

  lemma MoveUpGood(c: Chan, recv: nat)
    requires Shape(c) && c.queue != [] && c.sendq != []
    ensures Good(c, (c.(queue := c.queue[1..] + [c.sendq[0]], sendq := c.sendq[1..], recvq := []),
                     Effects([(c.sendq[0], Resolved(|c.queue|))], [(recv, Some(c.queue[0]))], [], [])), [], [recv])
  {
    assert Items([(recv, Some(c.queue[0]))]) == [c.queue[0]];
    assert c.queue + c.sendq == [c.queue[0]] + (c.queue[1..] + [c.sendq[0]]) + c.sendq[1..];
  }

  lemma TakeGood(c: Chan, recv: nat)
    requires Shape(c) && c.queue != [] && !Refuses(c)
    ensures Good(c, Received(c, recv), [], [recv])
  {
    TakeIs(c, recv);
    if c.sendq == [] {
      TakeLastGood(c, recv);
    } else {
      MoveUpGood(c, recv);
    }
  }

  lemma ReceiveAllGood(c: Chan)
    requires Shape(c)
    ensures Good(c, ReceivedAll(c), [], [])
  {
    var k := Min(c.capacity, |c.sendq|);
    if c.canReceive && c.queue != [] {
      assert Firsts(Entering(c.sendq, k, 0)) == c.sendq[..k];
      assert c.sendq[..k] + c.sendq[k..] == c.sendq;
    }
  }

  // Closing the send side refuses all waiting receivers, or there are none.
  lemma SendClosedRefusesAll(c: Chan)
    requires Shape(c)
    ensures SendClosed(c) == (c.(recvq := [], canSend := false), NOTHING.(answers := Refusals(c.recvq)))
  {
    assert Refusals([]) == [];
  }

  lemma UnsetIs(c: Chan, send: bool, receive: bool)
    requires Shape(c)
    ensures Unset(c, send, receive) ==
              if !send && !receive then (c, NOTHING)
              else if !receive then SendClosed(c)
              else (ReceiveClosed(c).0.(canSend := c.canSend && !send), ReceiveClosed(c).1)
  {
    SendClosedRefusesAll(c);
    var none: seq<(nat, Option<nat>)> := [];
    if receive {
      assert Refusals([]) == none;
      assert none + Refusals(c.recvq) == Refusals(c.recvq) == Refusals(c.recvq) + none;
    } else {
      assert none + none == none && none + Refusals(c.recvq) == Refusals(c.recvq);
    }
  }

  lemma AllRefusedGood(c: Chan)
    requires Shape(c)
    ensures Good(c, (c.(recvq := [], canSend := false), NOTHING.(answers := Refusals(c.recvq))), [], [])
  {
    RefusalsCarryNothing(c.recvq);
  }

  lemma SendClosedGood(c: Chan)
    requires Shape(c)
    ensures Good(c, SendClosed(c), [], [])
  {
    SendClosedRefusesAll(c);
    AllRefusedGood(c);
  }

  lemma ReceiveClosedGood(c: Chan, canSend: bool)
    requires Shape(c)
    ensures Good(c, (ReceiveClosed(c).0.(canSend := canSend), ReceiveClosed(c).1), [], [])
  {
    RefusalsCarryNothing(c.recvq);
    var fx := ReceiveClosed(c).1;
    assert Delivered(fx) == [] && fx.dropped == c.queue + c.sendq;
    assert Firsts(fx.settled) == c.sendq && Firsts(fx.answers) == c.recvq;
  }

  lemma UnsetGood(c: Chan, send: bool, receive: bool)
    requires Shape(c)
    ensures Good(c, Unset(c, send, receive), [], [])
  {
    UnsetIs(c, send, receive);
    if receive {
      ReceiveClosedGood(c, c.canSend && !send);
    } else if send {
      SendClosedGood(c);
    }
  }

  // ----- every run

  datatype Op = Send | Receive | ReceiveAll | Close(send: bool, receive: bool)

  // The channel, the sends accepted and receives made so far, and all that was done to futures.
  datatype World = World(chan: Chan, sends: nat, receives: nat, delivered: seq<nat>, fx: Effects)

  function Start(capacity: nat): World {
    World(New(capacity), 0, 0, [], NOTHING)
  }

  function Happens(w: World, r: (Chan, Effects), send: bool, receive: bool): World {
    World(r.0, if send then w.sends + 1 else w.sends, if receive then w.receives + 1 else w.receives,
          w.delivered + Delivered(r.1),
          Effects(w.fx.settled + r.1.settled, w.fx.answers + r.1.answers,
                  w.fx.taken + r.1.taken, w.fx.dropped + r.1.dropped))
  }

  function Step(w: World, op: Op): World {
    match op
    case Send => if w.chan.canSend && w.chan.canReceive then Happens(w, Sent(w.chan, w.sends), true, false) else w
    case Receive => Happens(w, Received(w.chan, w.receives), false, true)
    case ReceiveAll => Happens(w, ReceivedAll(w.chan), false, false)
    case Close(send, receive) => Happens(w, Unset(w.chan, send, receive), false, false)
  }

  function After(w: World, ops: seq<Op>): World {
    if ops == [] then w else Step(After(w, ops[..|ops| - 1]), ops[|ops| - 1])
  }

  function Run(capacity: nat, ops: seq<Op>): World {
    After(Start(capacity), ops)
  }

  // Accepted items are delivered, thrown away, queued or waiting, in the order of acceptance, and
  // only closing the receive side throws anything away.
  ghost predicate ItemsKept(w: World) {
    && w.delivered + w.fx.dropped + w.chan.queue + w.chan.sendq == Range(w.sends)
    && (w.chan.canReceive ==> w.fx.dropped == [])
  }

  // A send promise resolves with a queue length, or fails because the receive side was closed.
  ghost predicate Plausible(settled: seq<(nat, Outcome)>, c: Chan) {
    forall i :: 0 <= i < |settled| ==>
      if settled[i].1.Resolved? then 1 <= settled[i].1.length <= c.capacity else !c.canReceive
  }

  // The send promises settle once each, in the order of acceptance, and are pending exactly in
  // sendq.
  ghost predicate PromisesKept(w: World) {
    Firsts(w.fx.settled) + w.chan.sendq == Range(w.sends) && Plausible(w.fx.settled, w.chan)
  }

  // The receivers are answered once each, in the order of their requests.
  ghost predicate ReceiversKept(w: World) {
    Firsts(w.fx.answers) + w.chan.recvq == Range(w.receives)
  }

  // The whole promise of the channel.
  ghost predicate Faithful(w: World) {
    Shape(w.chan) && ItemsKept(w) && PromisesKept(w) && ReceiversKept(w)
  }

  function Next(n: nat, some: bool): (r: seq<nat>)
    ensures Range(n) + r == Range(if some then n + 1 else n)
  {
    if some then [n] else []
  }

  lemma HappensFaithful(w: World, r: (Chan, Effects), send: bool, receive: bool)
    requires Faithful(w) && Good(w.chan, r, Next(w.sends, send), Next(w.receives, receive))
    requires r.0.canReceive ==> w.chan.canReceive
    requires !w.chan.canReceive ==> !send
    ensures Faithful(Happens(w, r, send, receive))
  {
    ItemsStay(w, r, send, receive);
    PromisesStay(w, r, send, receive);
    ReceiversStay(w, r, send, receive);
  }

  lemma PromisesStay(w: World, r: (Chan, Effects), send: bool, receive: bool)
    requires PromisesKept(w) && r.0.capacity == w.chan.capacity && (r.0.canReceive ==> w.chan.canReceive)
    requires w.chan.sendq + Next(w.sends, send) == Firsts(r.1.settled) + r.0.sendq && Plausible(r.1.settled, r.0)
    ensures PromisesKept(Happens(w, r, send, receive))
  {
    assert Firsts(w.fx.settled + r.1.settled) == Firsts(w.fx.settled) + Firsts(r.1.settled);
    Splice(Firsts(w.fx.settled), w.chan.sendq, Next(w.sends, send), Firsts(r.1.settled), r.0.sendq);
  }

  lemma ReceiversStay(w: World, r: (Chan, Effects), send: bool, receive: bool)
    requires ReceiversKept(w)
    requires w.chan.recvq + Next(w.receives, receive) == Firsts(r.1.answers) + r.0.recvq
    ensures ReceiversKept(Happens(w, r, send, receive))
  {
    assert Firsts(w.fx.answers + r.1.answers) == Firsts(w.fx.answers) + Firsts(r.1.answers);
    Splice(Firsts(w.fx.answers), w.chan.recvq, Next(w.receives, receive), Firsts(r.1.answers), r.0.recvq);
  }

  lemma ItemsStay(w: World, r: (Chan, Effects), send: bool, receive: bool)
    requires Shape(w.chan) && ItemsKept(w)
    requires r.0.canReceive ==> w.chan.canReceive && r.1.dropped == []
    requires !w.chan.canReceive ==> !send
    requires w.chan.queue + w.chan.sendq + Next(w.sends, send) == Delivered(r.1) + r.1.dropped + r.0.queue + r.0.sendq
    ensures ItemsKept(Happens(w, r, send, receive))
  {
    SpliceItems(w, r, Next(w.sends, send));
  }

  lemma Splice(a: seq<nat>, b: seq<nat>, c: seq<nat>, d: seq<nat>, e: seq<nat>)
    requires b + c == d + e
    ensures (a + d) + e == (a + b) + c
  {
    assert (a + d) + e == a + (d + e);
    assert (a + b) + c == a + (b + c);
  }

  lemma SpliceItems(w: World, r: (Chan, Effects), sent: seq<nat>)
    requires Shape(w.chan) && ItemsKept(w) && (!w.chan.canReceive ==> sent == [])
    requires w.chan.queue + w.chan.sendq + sent == Delivered(r.1) + r.1.dropped + r.0.queue + r.0.sendq
    ensures (w.delivered + Delivered(r.1)) + (w.fx.dropped + r.1.dropped) + r.0.queue + r.0.sendq ==
              Range(w.sends) + sent
  {
    var d, x := Delivered(r.1), r.1.dropped;
    var before, after := w.chan.queue + w.chan.sendq, r.0.queue + r.0.sendq;
    assert before + sent == d + x + after;
    if w.chan.canReceive {
      assert (w.delivered + d) + ([] + x) + r.0.queue + r.0.sendq == w.delivered + (d + x + after);
      assert w.delivered + (before + sent) == (w.delivered + w.chan.queue + w.chan.sendq) + sent;
    } else {
      assert |d + x + after| == 0;
      assert d == [] && x == [] && after == [];
    }
  }

  lemma StepFaithful(w: World, op: Op)
    requires Faithful(w)
    ensures Faithful(Step(w, op))
  {
    match op
    case Send =>
      if w.chan.canSend && w.chan.canReceive {
        SendGood(w.chan, w.sends);
        HappensFaithful(w, Sent(w.chan, w.sends), true, false);
      }
    case Receive =>
      ReceiveGood(w.chan, w.receives);
      HappensFaithful(w, Received(w.chan, w.receives), false, true);
    case ReceiveAll =>
      ReceiveAllGood(w.chan);
      HappensFaithful(w, ReceivedAll(w.chan), false, false);
    case Close(send, receive) =>
      UnsetGood(w.chan, send, receive);
      HappensFaithful(w, Unset(w.chan, send, receive), false, false);
  }

  lemma {:induction false} RunFaithful(capacity: nat, ops: seq<Op>)
    ensures Faithful(Run(capacity, ops))
  {
    if ops == [] {
      assert Range(0) == [];
    } else {
      RunFaithful(capacity, ops[..|ops| - 1]);
      StepFaithful(Run(capacity, ops[..|ops| - 1]), ops[|ops| - 1]);
    }
  }

  // ----- what a user of the channel relies on

  // While the receive side is open, the channel is one FIFO: what was delivered, followed by what
  // is held, is what was accepted, in order; and nothing is ever delivered twice.
  lemma Fifo(capacity: nat, ops: seq<Op>)
    ensures var w := Run(capacity, ops);
            && (w.chan.canReceive ==> w.delivered + w.chan.queue + w.chan.sendq == Range(w.sends))
            && w.delivered == Range(|w.delivered|)
            && NoDup(w.delivered)
  {
    RunFaithful(capacity, ops);
    FaithfulIsFifo(Run(capacity, ops));
  }

  lemma FaithfulIsFifo(w: World)
    requires Faithful(w)
    ensures w.chan.canReceive ==> w.delivered + w.chan.queue + w.chan.sendq == Range(w.sends)
    ensures w.delivered == Range(|w.delivered|) && NoDup(w.delivered)
  {
    var rest := w.fx.dropped + w.chan.queue + w.chan.sendq;
    assert w.delivered + rest == w.delivered + w.fx.dropped + w.chan.queue + w.chan.sendq;
    SplitRange(w.delivered, rest, w.sends);
    if w.chan.canReceive {
      assert w.delivered + w.fx.dropped == w.delivered;
    }
  }

  // Back-pressure: the queue keeps to its capacity, and a waiting sender and a waiting receiver
  // never coexist.
  lemma BackPressure(capacity: nat, ops: seq<Op>)
    ensures var c := Run(capacity, ops).chan;
            && |c.queue| <= c.capacity
            && c.capacity == (if capacity == 0 then 0xFFFF_FFFF else capacity)
            && (c.sendq != [] ==> |c.queue| == c.capacity && c.recvq == [])
            && (c.recvq != [] ==> c.queue == [] && c.sendq == [])
  {
    RunFaithful(capacity, ops);
    CapacityKept(capacity, ops);
  }

  lemma {:induction false} CapacityKept(capacity: nat, ops: seq<Op>)
    ensures Run(capacity, ops).chan.capacity == New(capacity).capacity
  {
    if ops != [] {
      CapacityKept(capacity, ops[..|ops| - 1]);
      StepKeepsCapacity(Run(capacity, ops[..|ops| - 1]), ops[|ops| - 1]);
    }
  }

  lemma StepKeepsCapacity(w: World, op: Op)
    ensures Step(w, op).chan.capacity == w.chan.capacity
  {
  }

  // An accepted item's promise is pending exactly while the item waits in sendq, and settles once.
  lemma PendingExactlyInSendq(capacity: nat, ops: seq<Op>, item: nat)
    requires item < Run(capacity, ops).sends
    ensures var w := Run(capacity, ops);
            && (item in w.chan.sendq <==> item !in Firsts(w.fx.settled))
            && NoDup(Firsts(w.fx.settled))
  {
    RunFaithful(capacity, ops);
    var w := Run(capacity, ops);
    SplitRange(Firsts(w.fx.settled), w.chan.sendq, w.sends);
    assert item in Range(w.sends) by { assert Range(w.sends)[item] == item; }
  }

  lemma SplitRange(a: seq<nat>, b: seq<nat>, n: nat)
    requires a + b == Range(n)
    ensures forall i :: 0 <= i < |a| ==> a[i] == i
    ensures forall i :: 0 <= i < |b| ==> b[i] == |a| + i
    ensures forall x :: 0 <= x < n ==> (x in b <==> x !in a)
  {
    forall i | 0 <= i < |a|
      ensures a[i] == i
    {
      assert a[i] == (a + b)[i];
    }
    forall i | 0 <= i < |b|
      ensures b[i] == |a| + i
    {
      assert b[i] == (a + b)[|a| + i];
    }
    forall x | 0 <= x < n
      ensures x in b <==> x !in a
    {
      if x < |a| {
        assert a[x] == x;
      } else {
        assert b[x - |a|] == x;
      }
    }
  }

  // ----- what a send promise resolves with

  // The items that a step delivers to free their places count as gone, but an item that is sent
  // enters before it is handed on.
  function Gone(w: World, op: Op): nat {
    |(if op.Send? then w else Step(w, op)).delivered|
  }

  // A promise that a step resolves has the place of its item in the queue that the item enters:
  // one more than the items accepted before it that are not gone.
  ghost predicate AtItsPlace(w: World, op: Op, j: nat) {
    var settled := Step(w, op).fx.settled;
    |w.fx.settled| <= j < |settled| && settled[j].1.Resolved? ==>
      settled[j].1.length == settled[j].0 + 1 - Gone(w, op)
  }

  lemma ResolvesWithPlace(capacity: nat, ops: seq<Op>, op: Op, j: nat)
    ensures AtItsPlace(Run(capacity, ops), op, j)
  {
    RunFaithful(capacity, ops);
    StepResolvesWithPlace(Run(capacity, ops), op, j);
  }

  lemma StepResolvesWithPlace(w: World, op: Op, j: nat)
    requires Faithful(w)
    ensures AtItsPlace(w, op, j)
  {
    match op
    case Send => SendPlace(w, j);
    case Receive => ReceivePlace(w, j);
    case ReceiveAll => ReceiveAllPlace(w, j);
    case Close(send, receive) => ClosePlace(w, send, receive, j);
  }

  // Waiting items have the numbers after those that are queued.
  lemma NumberOfWaiting(w: World, i: nat)
    requires Faithful(w) && w.chan.canReceive && i < |w.chan.sendq|
    ensures w.chan.sendq[i] == |w.delivered| + |w.chan.queue| + i
  {
    FaithfulIsFifo(w);
    SplitRange(w.delivered + w.chan.queue, w.chan.sendq, w.sends);
  }

  lemma SendPlace(w: World, j: nat)
    requires Faithful(w)
    ensures AtItsPlace(w, Send, j)
  {
    if w.chan.canSend && w.chan.canReceive {
      SentIs(w.chan, w.sends);
      FaithfulIsFifo(w);
      assert |w.delivered + w.chan.queue + w.chan.sendq| == w.sends;
    }
  }

  lemma ReceivePlace(w: World, j: nat)
    requires Faithful(w)
    ensures AtItsPlace(w, Receive, j)
  {
    var c := w.chan;
    if !Refuses(c) && c.queue != [] {
      TakeIs(c, w.receives);
      assert Items([(w.receives, Some(c.queue[0]))]) == [c.queue[0]];
      if c.sendq != [] {
        NumberOfWaiting(w, 0);
      }
    }
  }

  lemma ReceiveAllPlace(w: World, j: nat)
    requires Faithful(w)
    ensures AtItsPlace(w, ReceiveAll, j)
  {
    var i := j - |w.fx.settled|;
    if w.chan.canReceive && w.chan.queue != [] && 0 <= i < Min(w.chan.capacity, |w.chan.sendq|) {
      NumberOfWaiting(w, i);
    }
  }

  lemma ClosePlace(w: World, send: bool, receive: bool, j: nat)
    requires Faithful(w)
    ensures AtItsPlace(w, Close(send, receive), j)
  {
    UnsetIs(w.chan, send, receive);
    SendClosedRefusesAll(w.chan);
  }

  // ----- the order of the answers

  // Receivers are answered in the order of their requests, and those that get an item get
  // items in the order of acceptance.
  ghost predicate InOrder(answers: seq<(nat, Option<nat>)>) {
    forall i, j :: 0 <= i < j < |answers| && answers[i].1.Some? && answers[j].1.Some? ==>
      answers[i].1.value < answers[j].1.value
  }

  ghost predicate ItemsBelow(answers: seq<(nat, Option<nat>)>, n: nat) {
    forall i :: 0 <= i < |answers| && answers[i].1.Some? ==> answers[i].1.value < n
  }

  ghost predicate Ordered(w: World) {
    && w.delivered == Range(|w.delivered|)
    && InOrder(w.fx.answers)
    && ItemsBelow(w.fx.answers, |w.delivered|)
  }

  // A region either answers one receiver, or refuses several.
  ghost predicate OneItemAtMost(answers: seq<(nat, Option<nat>)>) {
    |answers| <= 1 || forall i :: 0 <= i < |answers| ==> answers[i].1.None?
  }

  lemma HappensOrdered(w: World, r: (Chan, Effects), send: bool, receive: bool)
    requires Ordered(w) && OneItemAtMost(r.1.answers)
    requires Happens(w, r, send, receive).delivered == Range(|Happens(w, r, send, receive).delivered|)
    ensures Ordered(Happens(w, r, send, receive))
  {
    var a := r.1.answers;
    if |a| == 1 && a[0].1.Some? {
      assert Items(a) == Items(a[..0]) + [a[0].1.value];
      assert Delivered(r.1)[0] == a[0].1.value;
      assert (w.delivered + Delivered(r.1))[|w.delivered|] == a[0].1.value;
    }
  }

  lemma StepOrdered(w: World, op: Op)
    requires Faithful(w) && Ordered(w)
    requires Step(w, op).delivered == Range(|Step(w, op).delivered|)
    ensures Ordered(Step(w, op))
  {
    match op
    case Send =>
      if w.chan.canSend && w.chan.canReceive {
        PairedAnswersOne(w.chan.(queue := w.chan.queue + [w.sends]));
        HappensOrdered(w, Sent(w.chan, w.sends), true, false);
      }
    case Receive =>
      PairedAnswersOne(w.chan.(recvq := w.chan.recvq + [w.receives]));
      HappensOrdered(w, Received(w.chan, w.receives), false, true);
    case ReceiveAll =>
      HappensOrdered(w, ReceivedAll(w.chan), false, false);
    case Close(send, receive) =>
      ClosingRefuses(w.chan, send, receive);
      HappensOrdered(w, Unset(w.chan, send, receive), false, false);
  }

  lemma PairedAnswersOne(c: Chan)
    ensures |Paired(c).1.answers| <= 1
  {
  }

  lemma ClosingRefuses(c: Chan, send: bool, receive: bool)
    requires Shape(c)
    ensures OneItemAtMost(Unset(c, send, receive).1.answers)
  {
    UnsetIs(c, send, receive);
    SendClosedRefusesAll(c);
  }

  lemma {:induction false} ReceiversInOrder(capacity: nat, ops: seq<Op>)
    ensures var w := Run(capacity, ops);
            && Firsts(w.fx.answers) + w.chan.recvq == Range(w.receives)
            && InOrder(w.fx.answers)
            && ItemsBelow(w.fx.answers, |w.delivered|)
  {
    RunOrdered(capacity, ops);
    RunFaithful(capacity, ops);
  }

  lemma {:induction false} RunOrdered(capacity: nat, ops: seq<Op>)
    ensures Ordered(Run(capacity, ops))
  {
    if ops != [] {
      RunOrdered(capacity, ops[..|ops| - 1]);
      RunFaithful(capacity, ops[..|ops| - 1]);
      Fifo(capacity, ops);
      StepOrdered(Run(capacity, ops[..|ops| - 1]), ops[|ops| - 1]);
    }
  }

  // ----- what is done stays done

  // A settled promise keeps its outcome and an answered receiver its answer, and a side that was
  // closed is never reopened.
  ghost predicate Extends(w: World, w': World) {
    && w.fx.settled <= w'.fx.settled
    && w.fx.answers <= w'.fx.answers
    && w.delivered <= w'.delivered
    && (w'.chan.canSend ==> w.chan.canSend)
    && (w'.chan.canReceive ==> w.chan.canReceive)
  }

  lemma StepExtends(w: World, op: Op)
    ensures Extends(w, Step(w, op))
  {
  }

  lemma {:induction false} DoneStaysDone(w: World, more: seq<Op>)
    ensures Extends(w, After(w, more))
  {
    if more != [] {
      DoneStaysDone(w, more[..|more| - 1]);
      StepExtends(After(w, more[..|more| - 1]), more[|more| - 1]);
    }
  }

  // ----- what an operation does for its caller

  // The two sides are open until a close of that side.
  predicate ClosesSend(op: Op) { op.Close? && op.send }

  predicate ClosesReceive(op: Op) { op.Close? && op.receive }

  lemma {:induction false} OpenUntilClosed(capacity: nat, ops: seq<Op>)
    ensures var c := Run(capacity, ops).chan;
            && (c.canSend <==> forall i :: 0 <= i < |ops| ==> !ClosesSend(ops[i]))
            && (c.canReceive <==> forall i :: 0 <= i < |ops| ==> !ClosesReceive(ops[i]))
  {
    if ops != [] {
      OpenUntilClosed(capacity, ops[..|ops| - 1]);
      StepCloses(Run(capacity, ops[..|ops| - 1]), ops[|ops| - 1]);
      assert ops == ops[..|ops| - 1] + [ops[|ops| - 1]];
    }
  }

  lemma StepCloses(w: World, op: Op)
    ensures Step(w, op).chan.canSend <==> w.chan.canSend && !ClosesSend(op)
    ensures Step(w, op).chan.canReceive <==> w.chan.canReceive && !ClosesReceive(op)
  {
  }

  // The sends that were made before any close, and the receives.
  function SendsBeforeClose(ops: seq<Op>): nat {
    if ops == [] || ClosesSend(ops[0]) || ClosesReceive(ops[0]) then 0
    else (if ops[0].Send? then 1 else 0) + SendsBeforeClose(ops[1..])
  }

  function ReceivesIn(ops: seq<Op>): nat {
    if ops == [] then 0 else ReceivesIn(ops[..|ops| - 1]) + if ops[|ops| - 1].Receive? then 1 else 0
  }

  lemma {:induction false} OneMoreSend(ops: seq<Op>, op: Op)
    ensures SendsBeforeClose(ops + [op]) == SendsBeforeClose(ops) +
              if op.Send? && forall i :: 0 <= i < |ops| ==> !ClosesSend(ops[i]) && !ClosesReceive(ops[i]) then 1 else 0
  {
    if ops != [] {
      OneMoreSend(ops[1..], op);
      assert (ops + [op])[1..] == ops[1..] + [op];
      assert forall i :: 0 < i < |ops| ==> ops[i] == ops[1..][i - 1];
    }
  }

  // A send is accepted exactly if it is made before any close, and every receive is counted.
  lemma {:induction false} AcceptedUntilClosed(capacity: nat, ops: seq<Op>)
    ensures Run(capacity, ops).sends == SendsBeforeClose(ops) && Run(capacity, ops).receives == ReceivesIn(ops)
  {
    if ops != [] {
      var front, op := ops[..|ops| - 1], ops[|ops| - 1];
      assert ops == front + [op];
      AcceptedUntilClosed(capacity, front);
      OpenUntilClosed(capacity, front);
      OneMoreSend(front, op);
    }
  }

  // Nobody is refused by a channel that is open on both sides.
  ghost predicate NoneRefused(w: World) {
    forall i :: 0 <= i < |w.fx.answers| ==> w.fx.answers[i].1.Some?
  }

  lemma {:induction false} OpenRefusesNobody(capacity: nat, ops: seq<Op>)
    ensures var w := Run(capacity, ops); w.chan.canSend && w.chan.canReceive ==> NoneRefused(w)
  {
    if ops != [] {
      OpenRefusesNobody(capacity, ops[..|ops| - 1]);
      StepRefusesNobody(Run(capacity, ops[..|ops| - 1]), ops[|ops| - 1]);
    }
  }

  lemma StepRefusesNobody(w: World, op: Op)
    requires w.chan.canSend && w.chan.canReceive ==> NoneRefused(w)
    ensures Step(w, op).chan.canSend && Step(w, op).chan.canReceive ==> NoneRefused(Step(w, op))
  {
    StepCloses(w, op);
  }

  // An open channel gives a receiver the oldest item at once, or, without items, the last place among
  // the receivers that wait.
  lemma OpenReceive(capacity: nat, ops: seq<Op>)
    requires Run(capacity, ops).chan.canSend && Run(capacity, ops).chan.canReceive
    ensures var w := Run(capacity, ops); var v := Step(w, Receive);
            if w.chan.queue == [] then
              v.fx == w.fx && v.chan == w.chan.(recvq := w.chan.recvq + [w.receives])
            else
              v.fx.answers == w.fx.answers + [(w.receives, Some(w.chan.queue[0]))] && v.chan.recvq == []
  {
    RunFaithful(capacity, ops);
    var w := Run(capacity, ops);
    if w.chan.queue != [] {
      TakeIs(w.chan, w.receives);
    } else {
      assert Delivered(NOTHING) == [];
    }
  }

  // receive_all() hands out the whole queue, while the receive side is open, and the next items
  // take the places.
  lemma ReceiveAllTakesAll(capacity: nat, ops: seq<Op>)
    ensures TookAll(Run(capacity, ops), Step(Run(capacity, ops), ReceiveAll))
  {
    RunFaithful(capacity, ops);
    var w := Run(capacity, ops);
    if w.chan.canReceive && w.chan.queue != [] {
      TakingAll(w.chan);
    } else {
      assert Delivered(NOTHING) == [];
    }
  }

  ghost predicate TookAll(w: World, v: World) {
    && v.delivered == w.delivered + w.chan.queue
    && v.fx.answers == w.fx.answers && v.chan.recvq == w.chan.recvq
    && v.chan.queue + v.chan.sendq == w.chan.sendq
    && |v.chan.queue| == Min(w.chan.capacity, |w.chan.sendq|)
  }

  lemma TakingAll(c: Chan)
    requires c.canReceive && c.queue != []
    ensures var r := ReceivedAll(c);
            && Delivered(r.1) == c.queue && r.1.answers == [] && r.0.recvq == c.recvq
            && r.0.queue + r.0.sendq == c.sendq && |r.0.queue| == Min(c.capacity, |c.sendq|)
  {
    var k := Min(c.capacity, |c.sendq|);
    assert c.sendq[..k] + c.sendq[k..] == c.sendq;
    assert Items([]) == [];
  }

  // ----- closing

  // Once the receive side is closed, the three queues stay empty for the rest of the run, and
  // nothing more is delivered.
  lemma NothingAfterCloseReceive(capacity: nat, ops: seq<Op>, more: seq<Op>)
    requires !Run(capacity, ops).chan.canReceive
    ensures var c := After(Run(capacity, ops), more).chan;
            !c.canReceive && c.queue == [] && c.sendq == [] && c.recvq == []
    ensures After(Run(capacity, ops), more).delivered == Run(capacity, ops).delivered
  {
    RunFaithful(capacity, ops);
    ClosedStaysEmpty(Run(capacity, ops), more);
  }

  lemma {:induction false} ClosedStaysEmpty(w: World, more: seq<Op>)
    requires Faithful(w) && !w.chan.canReceive
    ensures Faithful(After(w, more)) && !After(w, more).chan.canReceive
    ensures After(w, more).delivered == w.delivered
  {
    if more != [] {
      var w1, op := After(w, more[..|more| - 1]), more[|more| - 1];
      ClosedStaysEmpty(w, more[..|more| - 1]);
      StepFaithful(w1, op);
      StepExtends(w1, op);
      ClosedDeliversNothing(w1, op);
    }
  }

  lemma ClosedDeliversNothing(w: World, op: Op)
    requires Shape(w.chan) && !w.chan.canReceive
    ensures Step(w, op).delivered == w.delivered
  {
    match op
    case Send =>
    case Receive => assert Items([(w.receives, None)]) == [];
    case ReceiveAll =>
    case Close(send, receive) => UnsetGood(w.chan, send, receive);
  }

  // Once the send side is closed, nobody waits to receive: every receiver has its answer.
  lemma NoReceiverWaitsAfterCloseSend(capacity: nat, ops: seq<Op>)
    requires !Run(capacity, ops).chan.canSend
    ensures Firsts(Run(capacity, ops).fx.answers) == Range(Run(capacity, ops).receives)
  {
    RunFaithful(capacity, ops);
    var answered := Firsts(Run(capacity, ops).fx.answers);
    assert answered + [] == answered;
  }

  function Receives(n: nat): seq<Op> {
    seq(n, _ => Receive)
  }

  // The answers to n receives over a closed send side: the backlog in order, then refusals.
  function Backlog(c: Chan): seq<nat> { c.queue + c.sendq }

  function DrainAnswers(first: nat, backlog: seq<nat>, n: nat): seq<(nat, Option<nat>)> {
    seq(n, i requires 0 <= i < n => (first + i, if i < |backlog| then Some(backlog[i]) else None))
  }

  ghost predicate Drained(w: World, w': World, n: nat) {
    && w'.fx.answers == w.fx.answers + DrainAnswers(w.receives, Backlog(w.chan), n)
    && Backlog(w'.chan) == Backlog(w.chan)[Min(n, |Backlog(w.chan)|)..]
    && w'.receives == w.receives + n
    && !w'.chan.canSend
  }

  lemma DrainsThenRejects(capacity: nat, ops: seq<Op>, n: nat)
    requires !Run(capacity, ops).chan.canSend
    ensures Drained(Run(capacity, ops), After(Run(capacity, ops), Receives(n)), n)
  {
    RunFaithful(capacity, ops);
    ReceivesDrain(Run(capacity, ops), n);
  }

  lemma {:induction false} ReceivesDrain(w: World, n: nat)
    requires Faithful(w) && !w.chan.canSend
    ensures Faithful(After(w, Receives(n))) && Drained(w, After(w, Receives(n)), n)
  {
    if n == 0 {
      assert DrainAnswers(w.receives, Backlog(w.chan), 0) == [];
    } else {
      ReceivesDrain(w, n - 1);
      assert Receives(n)[..n - 1] == Receives(n - 1);
      var w1 := After(w, Receives(n - 1));
      StepFaithful(w1, Receive);
      OneMoreReceive(w1);
      DrainOneMore(w, w1, Step(w1, Receive), n);
    }
  }

  lemma DrainOneMore(w: World, w1: World, w2: World, n: nat)
    requires n > 0 && Drained(w, w1, n - 1) && Drained(w1, w2, 1)
    ensures Drained(w, w2, n)
  {
    var b, first := Backlog(w.chan), w.receives;
    AnswerOneMore(first, b, n);
    BacklogOneLess(b, n);
    Associative(w.fx.answers, DrainAnswers(first, b, n - 1), DrainAnswers(first + n - 1, b[Min(n - 1, |b|)..], 1));
  }

  lemma Associative<T>(a: seq<T>, b: seq<T>, c: seq<T>)
    ensures (a + b) + c == a + (b + c)
  {
  }

  lemma BacklogOneLess(b: seq<nat>, n: nat)
    requires n > 0
    ensures var rest := b[Min(n - 1, |b|)..]; rest[Min(1, |rest|)..] == b[Min(n, |b|)..]
  {
  }

  lemma AnswerOneMore(first: nat, b: seq<nat>, n: nat)
    requires n > 0
    ensures DrainAnswers(first, b, n) ==
              DrainAnswers(first, b, n - 1) + DrainAnswers(first + n - 1, b[Min(n - 1, |b|)..], 1)
  {
  }

  lemma OneMoreReceive(w: World)
    requires Faithful(w) && !w.chan.canSend
    ensures Drained(w, Step(w, Receive), 1)
  {
    var c, recv := w.chan, w.receives;
    var got: Option<nat> := if Backlog(c) == [] then None else Some(Backlog(c)[0]);
    assert DrainAnswers(recv, Backlog(c), 1) == [(recv, got)];
    if c.queue != [] {
      TakeFromBacklog(c, recv);
    }
  }

  lemma TakeFromBacklog(c: Chan, recv: nat)
    requires Shape(c) && c.queue != [] && !c.canSend
    ensures var r := Received(c, recv);
            r.1.answers == [(recv, Some(c.queue[0]))] && Backlog(r.0) == Backlog(c)[1..] && !r.0.canSend
  {
    TakeGood(c, recv);
    assert c.(recvq := c.recvq + [recv]).recvq == [recv];
    assert Items([(recv, Some(c.queue[0]))]) == [c.queue[0]];
  }
}
