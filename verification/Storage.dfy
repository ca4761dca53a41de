// MemoryStorage (raft/storage.go) and the unstable tail (raft/log_unstable.go).
// Entries are told apart by position; a batch is given with its first index.
module Storage {
  import opened PlainLog
  import opened SizeLimit

  datatype Fetched<T> = Got(value: T) | Compacted | Unavailable | Panic

  // ---------------------------------------------------------------------------
  // Stable storage
  // ---------------------------------------------------------------------------

  class MemoryStorage {
    var dummy: nat         // index of ents[0], of which only the term is kept
    var ents: seq<Entry>   // ents[k] is the entry at index dummy + k

    ghost predicate Valid()
      reads this
    {
      |ents| >= 1
    }

    function LastIndex(): nat
      requires Valid()
      reads this
    {
      dummy + |ents| - 1
    }

    function FirstIndex(): nat
      reads this
    {
      dummy + 1
    }

    constructor ()
      ensures Valid() && dummy == 0 && ents == [Entry(0, Normal, 0, 0)]
    {
      dummy, ents := 0, [Entry(0, Normal, 0, 0)];
    }

    method Entries(lo: nat, hi: nat, limit: Limit) returns (r: Fetched<seq<Entry>>)
      requires Valid() && lo <= hi
      ensures lo <= dummy ==> r == Compacted
      ensures lo > dummy && hi > LastIndex() + 1 ==> r == Panic
      ensures lo > dummy && hi <= LastIndex() + 1 ==> (r == Unavailable <==> LastIndex() == dummy)
      ensures dummy < lo < hi <= LastIndex() + 1 ==> r == Got(Limited(ents[lo - dummy..hi - dummy], limit))
    {
      if lo <= dummy { return Compacted; }
      if hi > LastIndex() + 1 { return Panic; }
      if |ents| == 1 { return Unavailable; }
      var found := LimitSize(ents[lo - dummy..hi - dummy], limit);
      r := Got(found);
    }

    method Term(i: nat) returns (r: Fetched<nat>)
      requires Valid()
      ensures r == if i < dummy then Compacted
                   else if i > LastIndex() then Unavailable
                   else Got(ents[i - dummy].term)
    {
      if i < dummy { return Compacted; }
      if i - dummy >= |ents| { return Unavailable; }
      r := Got(ents[i - dummy].term);
    }

    /** Everything up to i goes; the term at i stays. */
    method Compact(i: nat) returns (r: Fetched<()>)
      requires Valid()
      modifies this
      ensures Valid()
      ensures i <= old(dummy) ==> r == Compacted && dummy == old(dummy) && ents == old(ents)
      ensures i > old(LastIndex()) ==> r == Panic && dummy == old(dummy) && ents == old(ents)
      ensures old(dummy) < i <= old(LastIndex()) ==>
                && r == Got(()) && dummy == i && LastIndex() == old(LastIndex())
                && ents[0].term == old(ents[i - dummy]).term
                && ents[1..] == old(ents[i + 1 - dummy..])
    {
      if i <= dummy { return Compacted; }
      if i > LastIndex() { return Panic; }
      var k := i - dummy;
      ents := [Entry(ents[k].term, Normal, 0, 0)] + ents[k+1..];
      dummy := i;
      r := Got(());
    }

    /** The batch replaces everything from `start` on; what is already compacted is skipped. */
    method Append(start: nat, entries: seq<Entry>) returns (panics: bool)
      requires Valid()
      modifies `ents
      ensures Valid() && ents[0] == old(ents[0])
      ensures entries == [] || start + |entries| <= old(dummy) + 1 ==> !panics && ents == old(ents)
      ensures entries != [] && start + |entries| > old(dummy) + 1 ==>
                panics == (start > old(LastIndex()) + 1)
      ensures panics ==> ents == old(ents)
      ensures entries != [] && dummy < start <= old(LastIndex()) + 1 ==>
                ents[1..] == old(ents[1..])[..start - 1 - dummy] + entries
      ensures entries != [] && start <= dummy && start + |entries| > dummy + 1 ==>
                ents[1..] == entries[dummy + 1 - start..]
    {
      if entries == [] { return false; }
      var first := FirstIndex();
      var last := start + |entries| - 1;
      if last < first { return false; }
      var at, fresh_ := start, entries;
      if first > start { at, fresh_ := first, entries[first - start..]; }
      var offset := at - dummy;
      if |ents| > offset {
        ents := ents[..offset] + fresh_;
      } else if |ents| == offset {
        ents := ents + fresh_;
      } else {
        return true;
      }
      panics := false;
    }
  }

  // ---------------------------------------------------------------------------
  // The unstable tail
  // ---------------------------------------------------------------------------

  /** A tail that starts at `offset`, with everything from `start` on replaced. */
  function Spliced(tail: seq<Entry>, offset: nat, start: nat, ents: seq<Entry>): seq<Entry>
    requires start <= offset + |tail|
  {
    tail[..start - Min(offset, start)] + ents
  }

  class Unstable {
    var entries: seq<Entry>   // entries[k] is the entry at index offset + k
    var offset: nat

    constructor (offset: nat)
      ensures this.offset == offset && entries == []
    {
      this.offset, entries := offset, [];
    }

    method MaybeLastIndex() returns (last: nat, ok: bool)
      ensures ok == (entries != []) && (ok ==> last + 1 == offset + |entries|)
    {
      if |entries| != 0 { return offset + |entries| - 1, true; }
      return 0, false;
    }

    method MaybeTerm(i: nat) returns (t: nat, ok: bool)
      ensures ok == (offset <= i < offset + |entries|)
      ensures t == if ok then entries[i - offset].term else 0
    {
      if i < offset { return 0, false; }
      var last, some := MaybeLastIndex();
      if !some || i > last { return 0, false; }
      return entries[i - offset].term, true;
    }

    /** Entries up to (i, t) have reached stable storage. */
    method StableTo(i: nat, t: nat) returns (ok: bool)
      modifies this
      ensures ok == (old(offset) <= i < old(offset) + |old(entries)| && old(entries)[i - old(offset)].term == t)
      ensures ok ==> offset == i + 1 && entries == old(entries)[i + 1 - old(offset)..]
      ensures !ok ==> offset == old(offset) && entries == old(entries)
    {
      var gt, some := MaybeTerm(i);
      if !some || i < offset || gt != t { return false; }
      entries := entries[i + 1 - offset..];
      offset := i + 1;
      ok := true;
    }

    /** Panics, in unstable.slice, on a gap between the tail and the batch. */
    method TruncateAndAppend(start: nat, ents: seq<Entry>) returns (last: nat, truncated: bool, panics: bool)
      requires ents != [] && start >= 1
      modifies this
      ensures panics == (start > old(offset) + |old(entries)|)
      ensures panics ==> offset == old(offset) && entries == old(entries)
      ensures !panics ==>
                && offset == Min(old(offset), start) && last == start + |ents| - 1
                && entries == Spliced(old(entries), old(offset), start, ents)
                && truncated == (start < old(offset) + |old(entries)|)
    {
      truncated, panics, last := false, false, 0;
      if start == offset + |entries| {
        entries := entries + ents;
      } else if start <= offset {
        offset := start;
        entries := ents;
        truncated := true;
      } else {
        if start > offset + |entries| { panics := true; return; }
        entries := entries[..start - offset] + ents;
        truncated := true;
      }
      last := start + |ents| - 1;
    }

    method Slice(lo: nat, hi: nat) returns (r: seq<Entry>)
      requires offset <= lo <= hi <= offset + |entries|
      ensures r == entries[lo - offset..hi - offset]
    {
      r := entries[lo - offset..hi - offset];
    }
  }
}
