// The bounded window of un-acknowledged appends (raft/tracker/inflights.go): a
// ring buffer that grows on demand, against a plain bounded queue.
module Inflights {

  // ---------------------------------------------------------------------------
  // The queue it stands for
  // ---------------------------------------------------------------------------

  /** How many leading elements are at most `to`. */
  function LeadingLE(q: seq<nat>, to: nat): (n: nat)
    ensures n <= |q|
    ensures forall i | 0 <= i < n :: q[i] <= to
    ensures n < |q| ==> q[n] > to
  {
    if q == [] || q[0] > to then 0
    else
      var n := LeadingLE(q[1..], to);
      assert forall i | 1 <= i < |q| :: q[i] == q[1..][i-1];
      1 + n
  }

  function DropLE(q: seq<nat>, to: nat): seq<nat> { q[LeadingLE(q, to)..] }

  ghost predicate Increasing(q: seq<nat>) { forall i, j | 0 <= i < j < |q| :: q[i] < q[j] }

  lemma LeadingIs(q: seq<nat>, to: nat, n: nat)
    requires n <= |q| && (forall i | 0 <= i < n :: q[i] <= to) && (n < |q| ==> q[n] > to)
    ensures LeadingLE(q, to) == n
  {
  }

  /** On the increasing input its callers promise, FreeLE removes exactly the elements up to `to`. */
  lemma DropLEExact(q: seq<nat>, to: nat)
    requires Increasing(q)
    ensures Increasing(DropLE(q, to))
    ensures forall x :: x in DropLE(q, to) <==> x in q && x > to
  {
    hide LeadingLE;
    var n := LeadingLE(q, to);
    var r := q[n..];
    assert forall i | 0 <= i < |r| :: r[i] == q[n + i];
    forall x ensures x in r <==> x in q && x > to { DropKeeps(q, n, to, x); }
  }

  lemma DropKeeps(q: seq<nat>, n: nat, to: nat, x: int)
    requires Increasing(q) && n <= |q| && (forall i | 0 <= i < n :: q[i] <= to) && (n < |q| ==> q[n] > to)
    ensures x in q[n..] <==> x in q && x > to
  {
    if x in q && x > to {
      var i :| 0 <= i < |q| && q[i] == x;
      assert q[n..][i - n] == x;
    }
    if x in q[n..] {
      var i :| 0 <= i < |q[n..]| && q[n..][i] == x;
      assert q[n + i] == x && (i > 0 ==> q[n] < q[n + i]);
    }
  }

  // ---------------------------------------------------------------------------
  // The ring buffer
  // ---------------------------------------------------------------------------

  /** The slot of the i-th element: positions wrap at `size`, not at the buffer's length. */
  function Slot(start: nat, i: nat, size: nat): int {
    if start + i >= size then start + i - size else start + i
  }

  /** Positions in use lie within the buffer; only a fully grown buffer wraps. */
  predicate WellFormed(len: nat, start: nat, count: nat, size: nat) {
    && count <= size && len <= size
    && (start + count <= len || len == size)
    && (if count == 0 then start == 0 else start < len)
  }

  function Ring(buffer: seq<nat>, start: nat, count: nat, size: nat): (q: seq<nat>)
    requires WellFormed(|buffer|, start, count, size)
    ensures |q| == count
  {
    seq(count, i requires 0 <= i < count => buffer[Slot(start, i, size)])
  }

  /** Advancing the start by i slots drops i elements. */
  lemma RingDrop(buffer: seq<nat>, start: nat, count: nat, size: nat, i: nat)
    requires WellFormed(|buffer|, start, count, size) && i < count
    ensures Slot(start, i, size) >= 0 && WellFormed(|buffer|, Slot(start, i, size), count - i, size)
    ensures Ring(buffer, Slot(start, i, size), count - i, size) == Ring(buffer, start, count, size)[i..]
  {
  }

  class Inflights {
    var start: nat
    var count: nat
    const size: nat
    var buffer: array<nat>

    ghost predicate Valid()
      reads this
    {
      WellFormed(buffer.Length, start, count, size)
    }

    ghost function Queue(): (q: seq<nat>)
      requires Valid()
      reads this, buffer
      ensures |q| == count
    {
      Ring(buffer[..], start, count, size)
    }

    constructor (size: nat)
      ensures Valid() && this.size == size && Queue() == [] && fresh(buffer)
    {
      this.size := size;
      start, count := 0, 0;
      buffer := new nat[0];
    }

    constructor Clone(other: Inflights)
      requires other.Valid()
      ensures Valid() && size == other.size && Queue() == other.Queue() && fresh(buffer)
    {
      size, start, count := other.size, other.start, other.count;
      var copy := new nat[other.buffer.Length](i requires 0 <= i < other.buffer.Length reads other, other.buffer =>
        other.buffer[i]);
      buffer := copy;
    }

    method Full() returns (full: bool)
      requires Valid()
      ensures full <==> |Queue()| == size
    {
      full := count == size;
    }

    /** Full() must be called first: the source panics on a full window. */
    method Add(inflight: nat)
      requires Valid() && |Queue()| < size
      modifies this, buffer
      ensures Valid() && (buffer == old(buffer) || fresh(buffer))
      ensures Queue() == old(Queue()) + [inflight] && buffer.Length > 0
    {
      var next := start + count;
      if next >= size { next := next - size; }
      if next >= buffer.Length { Grow(); }
      buffer[next] := inflight;
      count := count + 1;
    }

    /** Doubles the buffer, up to `size`. */
    method Grow()
      requires Valid() && buffer.Length < size
      modifies `buffer
      ensures Valid() && Queue() == old(Queue()) && fresh(buffer)
      ensures old(buffer.Length) < buffer.Length
    {
      var newSize := buffer.Length * 2;
      if newSize == 0 { newSize := 1; } else if newSize > size { newSize := size; }
      var newBuffer := new nat[newSize];
      var i := 0;
      while i < buffer.Length
        invariant i <= buffer.Length < newBuffer.Length && buffer == old(buffer)
        invariant forall k | 0 <= k < i :: newBuffer[k] == buffer[k]
      {
        newBuffer[i] := buffer[i];
        i := i + 1;
      }
      buffer := newBuffer;
    }

    method FreeLE(to: nat)
      requires Valid()
      modifies `start, `count
      ensures Valid() && Queue() == DropLE(old(Queue()), to)
    {
      if count == 0 || to < buffer[start] {
        assert count > 0 ==> Queue()[0] == buffer[start];
        LeadingIs(Queue(), to, 0);
        return;
      }
      ghost var q := Queue();
      var idx := start;
      var i := 0;
      while i < count
        invariant i <= count && (idx == Slot(start, i, size) || (i == count && count == 0))
        invariant forall k | 0 <= k < i :: q[k] <= to
      {
        assert q[i] == buffer[idx];
        if to < buffer[idx] { break; }
        idx := idx + 1;
        if idx >= size { idx := idx - size; }
        i := i + 1;
      }
      LeadingIs(q, to, i);
      if i < count { RingDrop(buffer[..], start, count, size, i); }
      count := count - i;
      start := idx;
      if count == 0 { start := 0; }
    }

    /**
     * Releases the first element. The source reads buffer[start] before it looks
     * at the count, so on a window to which nothing was ever added it panics.
     */
    method FreeFirstOne() returns (panics: bool)
      requires Valid()
      modifies `start, `count
      ensures panics <==> buffer.Length == 0
      ensures Valid() && (old(Queue()) == [] ==> Queue() == [])
      ensures old(Queue()) != [] ==> !panics && Queue() == DropLE(old(Queue()), old(Queue())[0])
    {
      panics := buffer.Length == 0;
      if !panics {
        assert count > 0 ==> Queue()[0] == buffer[start];
        FreeLE(buffer[start]);
      }
    }

    method Reset()
      requires Valid()
      modifies `start, `count
      ensures Valid() && Queue() == []
    {
      count, start := 0, 0;
    }
  }
}
