/** One future (src/dex-future.c): its status and the registrations of those that wait for it. */
module Futures {
  import opened Common

  // What a future completes with; values and errors are known by number.
  datatype Result = Resolved(value: int) | Rejected(error: int)

  // A chained future.  The id tells apart two registrations of the same waiter.
  datatype Entry = Entry(id: nat, waiter: nat, awaiting: bool)

  // What the mutex of a future protects; the future is pending while it has no status.
  datatype Cell = Cell(status: Option<Result>, chained: seq<Entry>)

  // ----- specification of the regions

  function Completed(c: Cell, r: Result): Cell {
    if c.status.None? then Cell(Some(r), []) else c
  }

  // The registrations that a completion takes along, to notify them after the unlock.
  function Taken(c: Cell): seq<Entry> {
    if c.status.None? then c.chained else []
  }

  function Chained(c: Cell, id: nat, waiter: nat): Cell {
    if c.status.None? then c.(chained := c.chained + [Entry(id, waiter, true)]) else c
  }

  // The registrations of one waiter, and those of the others, in order.
  function Of(s: seq<Entry>, waiter: nat): seq<Entry> {
    if s == [] then [] else
      Of(s[..|s| - 1], waiter) + if s[|s| - 1].waiter == waiter then [s[|s| - 1]] else []
  }

  function NotOf(s: seq<Entry>, waiter: nat): seq<Entry> {
    if s == [] then [] else
      NotOf(s[..|s| - 1], waiter) + if s[|s| - 1].waiter == waiter then [] else [s[|s| - 1]]
  }

  predicate AnyAwaiting(s: seq<Entry>) {
    exists i :: 0 <= i < |s| && s[i].awaiting
  }

  // Whether dex_future_discard() calls the discard hook of the class.
  predicate CallsHook(c: Cell, waiter: nat) {
    AnyAwaiting(Of(c.chained, waiter)) && !AnyAwaiting(NotOf(c.chained, waiter))
  }

  function Reversed<T>(s: seq<T>): seq<T> {
    seq(|s|, i requires 0 <= i < |s| => s[|s| - 1 - i])
  }

  // ----- the future

  class Future {
    var status: Option<Result>
    var chained: seq<Entry>

    function Value(): Cell
      reads this
    {
      Cell(status, chained)
    }

    constructor ()
      ensures Value() == Cell(None, [])
    {
      status, chained := None, [];
    }

    method Complete(r: Result) returns (queue: seq<Entry>)
      modifies this
      ensures Value() == Completed(old(Value()), r) && queue == Taken(old(Value()))
      ensures status == if old(status).None? then Some(r) else old(status)
      ensures queue + chained == old(chained) && (old(status).None? ==> chained == [])
    {
      queue := [];
      if status.None? {
        status := Some(r);
        queue := chained;
        chained := [];
      }
    }

    method Chain(id: nat, waiter: nat) returns (did: bool)
      modifies this
      ensures Value() == Chained(old(Value()), id, waiter) && did == old(status).None?
    {
      did := false;
      if status.None? {
        chained := chained + [Entry(id, waiter, true)];
        did := true;
      }
    }

    // The region of dex_future_discard(); the entries are unlinked one by one.
    method Discard(waiter: nat) returns (discarded: seq<Entry>, hook: bool)
      modifies this
      ensures Value() == old(Value()).(chained := NotOf(old(chained), waiter))
      ensures discarded == Cleared(Of(old(chained), waiter))
      ensures hook == CallsHook(old(Value()), waiter)
    {
      var matched, hasAwaiting := false, false;
      discarded := [];
      var i := 0;
      ghost var all, k := chained, 0;
      while i < |chained|
        invariant Sifted(all, k, waiter, chained, i)
        invariant discarded == Cleared(Of(all[..k], waiter))
        invariant matched == AnyAwaiting(Of(all[..k], waiter))
        invariant hasAwaiting == AnyAwaiting(NotOf(all[..k], waiter))
        invariant status == old(status)
        decreases |all| - k
      {
        SiftOne(all, k, waiter, chained, i);
        var e := chained[i];
        if e.waiter == waiter {
          if e.awaiting {
            matched := true;
          }
          chained := chained[..i] + chained[i + 1..];
          discarded := discarded + [e.(awaiting := false)];
        } else {
          hasAwaiting := hasAwaiting || e.awaiting;
          i := i + 1;
        }
        k := k + 1;
      }
      assert all[..k] == all;
      hook := matched && !hasAwaiting;
    }

    // The loop of dex_future_notify_complete(): the last to register hears first.
    static method NotifyOrder(all: seq<Entry>) returns (order: seq<Entry>)
      ensures order == Reversed(all)
    {
      var queue := all;
      order := [];
      while queue != []
        invariant queue <= all && order == Reversed(all[|queue|..])
        decreases |queue|
      {
        var tail := queue[|queue| - 1];
        queue := queue[..|queue| - 1];
        order := order + [tail];
      }
    }
  }

  function Cleared(s: seq<Entry>): seq<Entry> {
    seq(|s|, i requires 0 <= i < |s| => s[i].(awaiting := false))
  }

  // The first k of the entries were looked at, and those of the waiter unlinked.
  ghost predicate Sifted(all: seq<Entry>, k: nat, waiter: nat, chained: seq<Entry>, i: nat) {
    && k <= |all|
    && i == |NotOf(all[..k], waiter)|
    && chained == NotOf(all[..k], waiter) + all[k..]
  }

  lemma SiftOne(all: seq<Entry>, k: nat, waiter: nat, chained: seq<Entry>, i: nat)
    requires Sifted(all, k, waiter, chained, i) && i < |chained|
    ensures k < |all| && chained[i] == all[k]
    ensures var e := all[k]; var mine, others := Of(all[..k], waiter), NotOf(all[..k], waiter);
            if e.waiter == waiter then
              && Sifted(all, k + 1, waiter, chained[..i] + chained[i + 1..], i)
              && Cleared(Of(all[..k + 1], waiter)) == Cleared(mine) + [e.(awaiting := false)]
              && (AnyAwaiting(Of(all[..k + 1], waiter)) <==> AnyAwaiting(mine) || e.awaiting)
              && NotOf(all[..k + 1], waiter) == others
            else
              && Sifted(all, k + 1, waiter, chained, i + 1)
              && Of(all[..k + 1], waiter) == mine
              && (AnyAwaiting(NotOf(all[..k + 1], waiter)) <==> AnyAwaiting(others) || e.awaiting)
  {
    assert all[..k + 1][..k] == all[..k];
    var mine, others := Of(all[..k], waiter), NotOf(all[..k], waiter);
    AwaitingAppend(mine, all[k]);
    AwaitingAppend(others, all[k]);
    assert all[k..] == [all[k]] + all[k + 1..];
  }

  lemma AwaitingAppend(s: seq<Entry>, e: Entry)
    ensures AnyAwaiting(s + [e]) <==> AnyAwaiting(s) || e.awaiting
    ensures s + [] == s
  {
    if e.awaiting {
      assert (s + [e])[|s|].awaiting;
    }
    if AnyAwaiting(s) {
      var i :| 0 <= i < |s| && s[i].awaiting;
      assert (s + [e])[i].awaiting;
    }
  }
}
