/** The bounded channel (src/dex-channel.c).  One step is one region under the channel's mutex,
    together with the promise completions that follow its unlock. */
module Channels {
  import opened Common

  const MAX_UINT: nat := 0xFFFF_FFFF

  // Items and waiting receivers are known by number.
  datatype Chan = Chan(
    capacity: nat,
    queue: seq<nat>,
    sendq: seq<nat>,
    recvq: seq<nat>,
    canSend: bool,
    canReceive: bool
  )

  // How a send promise completes: with the queue length at entry, or with an error.
  datatype Outcome = Resolved(length: nat) | Rejected

  // What a region does to futures: send promises settled, receivers answered with an item or
  // with an error, items handed out by receive_all(), items thrown away.
  datatype Effects = Effects(
    settled: seq<(nat, Outcome)>,
    answers: seq<(nat, Option<nat>)>,
    taken: seq<nat>,
    dropped: seq<nat>
  )

  const NOTHING := Effects([], [], [], [])

  function New(capacity: nat): Chan {
    Chan(if capacity == 0 then MAX_UINT else capacity, [], [], [], true, true)
  }

  // ----- specification of the regions

  // has_capacity_locked()
  predicate HasCapacity(c: Chan) {
    c.sendq == [] && |c.queue| < c.capacity
  }

  function Min(a: nat, b: nat): nat { if a < b then a else b }

  // The first k senders enter a queue of length n, one after the other.
  function Entering(sendq: seq<nat>, k: nat, n: nat): seq<(nat, Outcome)>
    requires k <= |sendq|
  {
    seq(k, i requires 0 <= i < k => (sendq[i], Resolved(n + i + 1)))
  }

  lemma EnteringNext(sendq: seq<nat>, k: nat)
    requires k < |sendq|
    ensures Entering(sendq, k + 1, 0) == Entering(sendq, k, 0) + [(sendq[k], Resolved(k + 1))]
  {
  }

  function Refusals(recvq: seq<nat>): seq<(nat, Option<nat>)> {
    seq(|recvq|, i requires 0 <= i < |recvq| => (recvq[i], None))
  }

  function Rejections(sendq: seq<nat>): seq<(nat, Outcome)> {
    seq(|sendq|, i requires 0 <= i < |sendq| => (sendq[i], Rejected))
  }

  // dex_channel_one_receive_and_unlock(): the oldest receiver gets the oldest item, and the
  // oldest waiting sender takes the free place.
  function Paired(c: Chan): (Chan, Effects) {
    if c.queue == [] || c.recvq == [] then (c, NOTHING) else
      var rest := c.queue[1..];
      var k := if |rest| < c.capacity then Min(1, |c.sendq|) else 0;
      (c.(queue := rest + c.sendq[..k], sendq := c.sendq[k..], recvq := c.recvq[1..]),
       NOTHING.(settled := Entering(c.sendq, k, |rest|), answers := [(c.recvq[0], Some(c.queue[0]))]))
  }

  // An accepted send; a send is accepted exactly while both sides are open.
  function Sent(c: Chan, item: nat): (Chan, Effects) {
    if !HasCapacity(c) then (c.(sendq := c.sendq + [item]), NOTHING) else
      var (c1, fx) := Paired(c.(queue := c.queue + [item]));
      (c1, fx.(settled := [(item, Resolved(|c.queue| + 1))] + fx.settled))
  }

  predicate Refuses(c: Chan) {
    !c.canReceive || (!c.canSend && |c.queue| + |c.sendq| <= |c.recvq|)
  }

  function Received(c: Chan, recv: nat): (Chan, Effects) {
    if Refuses(c) then (c, NOTHING.(answers := [(recv, None)])) else Paired(c.(recvq := c.recvq + [recv]))
  }

  function ReceivedAll(c: Chan): (Chan, Effects) {
    if !c.canReceive || c.queue == [] then (c, NOTHING) else
      var k := Min(c.capacity, |c.sendq|);
      (c.(queue := c.sendq[..k], sendq := c.sendq[k..]),
       NOTHING.(settled := Entering(c.sendq, k, 0), taken := c.queue))
  }

  // Closing the send side keeps no more receivers than there are items for.
  function SendClosed(c: Chan): (Chan, Effects) {
    var k := Min(|c.recvq|, |c.sendq| + |c.queue|);
    (c.(recvq := c.recvq[..k], canSend := false), NOTHING.(answers := Refusals(c.recvq[k..])))
  }

  function ReceiveClosed(c: Chan): (Chan, Effects) {
    (c.(queue := [], sendq := [], recvq := [], canReceive := false),
     NOTHING.(answers := Refusals(c.recvq), dropped := c.queue + c.sendq, settled := Rejections(c.sendq)))
  }

  // dex_channel_unset_state_flags(): receivers that lose their channel altogether are refused
  // before those that were cut off.
  function Unset(c: Chan, send: bool, receive: bool): (Chan, Effects) {
    var (c1, fx1) := if send then SendClosed(c) else (c, NOTHING);
    var (c2, fx2) := if receive then ReceiveClosed(c1) else (c1, NOTHING);
    (c2, fx2.(answers := fx2.answers + fx1.answers))
  }

  // ----- the channel

  class Channel {
    var capacity: nat
    var queue: seq<nat>
    var sendq: seq<nat>
    var recvq: seq<nat>
    var canSend: bool
    var canReceive: bool

    function Value(): Chan
      reads this
    {
      Chan(capacity, queue, sendq, recvq, canSend, canReceive)
    }

    constructor (capacity: nat)
      ensures Value() == New(capacity)
    {
      this.capacity := if capacity == 0 then MAX_UINT else capacity;
      queue, sendq, recvq, canSend, canReceive := [], [], [], true, true;
    }

    method OneReceive() returns (fx: Effects)
      modifies this
      ensures (Value(), fx) == Paired(old(Value()))
    {
      fx := NOTHING;
      if |queue| > 0 && |recvq| > 0 {
        var recv, item := recvq[0], queue[0];
        recvq, queue := recvq[1..], queue[1..];
        fx := fx.(answers := [(recv, Some(item))]);
        if |sendq| > 0 && |queue| < capacity {
          var next := sendq[0];
          sendq, queue := sendq[1..], queue + [next];
          fx := fx.(settled := [(next, Resolved(|queue|))]);
          assert fx.settled == Entering(old(sendq), 1, |queue| - 1) && old(sendq)[..1] == [next];
        } else {
          assert Entering(sendq, 0, |queue|) == [] && queue + sendq[..0] == queue;
        }
      }
    }

    method Send(item: nat) returns (accepted: bool, fx: Effects)
      modifies this
      ensures accepted == (old(canSend) && old(canReceive))
      ensures (Value(), fx) == if accepted then Sent(old(Value()), item) else (old(Value()), NOTHING)
    {
      accepted, fx := canSend && canReceive, NOTHING;
      if accepted {
        if !(|sendq| == 0 && |queue| < capacity) {
          sendq := sendq + [item];
        } else {
          queue := queue + [item];
          var length := |queue|;
          fx := OneReceive();
          fx := fx.(settled := [(item, Resolved(length))] + fx.settled);
        }
      }
    }

    method Receive(recv: nat) returns (fx: Effects)
      modifies this
      ensures (Value(), fx) == Received(old(Value()), recv)
      ensures old(canSend) && old(canReceive) ==> forall i :: 0 <= i < |fx.answers| ==> fx.answers[i].1.Some?
    {
      if !canReceive || (!canSend && |queue| + |sendq| <= |recvq|) {
        fx := NOTHING.(answers := [(recv, None)]);
      } else {
        recvq := recvq + [recv];
        fx := OneReceive();
      }
    }

    // The loop of dex_channel_receive_all(): waiting senders take the places that are free.
    method MoveUp() returns (settled: seq<(nat, Outcome)>)
      requires queue == []
      modifies this`queue, this`sendq
      ensures var k := Min(capacity, |old(sendq)|);
              queue == old(sendq)[..k] && sendq == old(sendq)[k..] && settled == Entering(old(sendq), k, 0)
    {
      ghost var all := sendq;
      settled := [];
      while |sendq| > 0 && |queue| < capacity
        invariant queue + sendq == all && |queue| <= Min(capacity, |all|)
        invariant settled == Entering(all, |queue|, 0)
        decreases |sendq|
      {
        EnteringNext(all, |queue|);
        queue, sendq := queue + [sendq[0]], sendq[1..];
        settled := settled + [(queue[|queue| - 1], Resolved(|queue|))];
      }
      assert queue == all[..|queue|] && sendq == all[|queue|..];
    }

    // The region of dex_channel_receive_all(); with an empty queue the caller goes on with a
    // plain receive, after the unlock.
    method ReceiveAll() returns (fx: Effects)
      modifies this
      ensures (Value(), fx) == ReceivedAll(old(Value()))
    {
      fx := NOTHING;
      if !canReceive || |queue| == 0 {
        return;
      }
      var taken := queue;
      queue := [];
      var settled := MoveUp();
      fx := NOTHING.(settled := settled, taken := taken);
    }

    method UnsetStateFlags(send: bool, receive: bool) returns (fx: Effects)
      modifies this
      ensures (Value(), fx) == Unset(old(Value()), send, receive)
    {
      var trunc: seq<nat> := [];
      if send {
        var pending := |sendq| + |queue|;
        canSend := false;
        while |recvq| > pending
          invariant recvq + trunc == old(recvq) && |recvq| >= Min(|old(recvq)|, pending)
          invariant Value() == old(Value()).(recvq := recvq, canSend := false)
        {
          trunc := [recvq[|recvq| - 1]] + trunc;
          recvq := recvq[..|recvq| - 1];
        }
        assert recvq == old(recvq)[..|recvq|] && trunc == old(recvq)[|recvq|..];
      }
      fx := NOTHING;
      if receive {
        fx := Effects(Rejections(sendq), Refusals(recvq), [], queue + sendq);
        canReceive, queue, sendq, recvq := false, [], [], [];
      }
      fx := fx.(answers := fx.answers + Refusals(trunc));
      assert trunc == [] ==> Refusals(trunc) == [];
    }
  }
}
