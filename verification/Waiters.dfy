// The waiter queue of proposals (raft/inflight.go).
module Waiters {
  import opened LogSpec

  ghost predicate Sorted(ws: seq<Waiter>) { forall i, j | 0 <= i < j < |ws| :: ws[i].index < ws[j].index }

  /** sort.Search for the first waiter with an index of at least `limit`. */
  method Search(ws: seq<Waiter>, limit: nat) returns (n: nat)
    requires Sorted(ws)
    ensures n <= |ws|
    ensures forall k | 0 <= k < n :: ws[k].index < limit
    ensures forall k | n <= k < |ws| :: ws[k].index >= limit
  {
    n := 0;
    var j := |ws|;
    while n < j
      invariant n <= j <= |ws|
      invariant forall k | 0 <= k < n :: ws[k].index < limit
      invariant forall k | j <= k < |ws| :: ws[k].index >= limit
    {
      var h := (n + j) / 2;
      if ws[h].index >= limit { j := h; } else { n := h + 1; }
    }
  }

  lemma UptoIs(ws: seq<Waiter>, i: nat, n: nat)
    requires n <= |ws| && (forall k | 0 <= k < n :: ws[k].index <= i) && (n < |ws| ==> ws[n].index > i)
    ensures Upto(ws, i) == n
  {
  }

  class Inflight {
    var waiters: seq<Waiter>
    var fired: seq<Fired>    // the callbacks called so far, in order

    constructor ()
      ensures waiters == [] && fired == []
    {
      waiters, fired := [], [];
    }

    method Append(index: nat, cb: nat)
      modifies `waiters
      ensures waiters == old(waiters) + [Waiter(index, cb)]
    {
      waiters := waiters + [Waiter(index, cb)];
    }

    /** Calls the callbacks of `ws` in order. */
    method Call(ws: seq<Waiter>, ok: bool)
      modifies `fired
      ensures fired == old(fired) + Fire(ws, ok)
    {
      var k := 0;
      while k < |ws|
        invariant k <= |ws| && fired == old(fired) + Fire(ws[..k], ok)
      {
        fired := fired + [Fired(ws[k].cb, ok)];
        assert Fire(ws[..k+1], ok) == Fire(ws[..k], ok) + [Fired(ws[k].cb, ok)];
        k := k + 1;
      }
      assert ws[..k] == ws;
    }

    method CommitTo(index: nat)
      requires Sorted(waiters)
      modifies this
      ensures waiters == From(old(waiters), index + 1)
      ensures fired == old(fired) + Fire(Below(old(waiters), index + 1), true)
    {
      if |waiters| == 0 { return; }
      var n := Search(waiters, index + 1);
      UptoIs(waiters, index, n);
      var committed := waiters[..n];
      waiters := waiters[n..];
      Call(committed, true);
    }

    method TruncateFrom(index: nat)
      requires Sorted(waiters) && index >= 1
      modifies this
      ensures waiters == Below(old(waiters), index)
      ensures fired == old(fired) + Fire(From(old(waiters), index), false)
    {
      if |waiters| == 0 { return; }
      var n := Search(waiters, index);
      UptoIs(waiters, index - 1, n);
      if n < |waiters| {
        var dropped := waiters[n..];
        waiters := waiters[..n];
        Call(dropped, false);
      }
    }
  }
}
