// raftLog (raft/log.go): stable storage, the unstable tail and the writes still
// queued in between, behind one plain sequence.
module RaftLog {
  import opened PlainLog
  import opened SizeLimit
  import opened Storage
  import opened Waiters
  import L = LogSpec
  import R = LogRuns

  /** A Keeper.TruncateAndAppend call: everything from `start` on is replaced. */
  datatype Batch = Batch(start: nat, ents: seq<Entry>)

  // ---------------------------------------------------------------------------
  // Queued writes
  // ---------------------------------------------------------------------------

  predicate Fits(log: Log, b: Batch) { b.ents != [] && 1 <= b.start <= |log| + 1 }

  function Write(log: Log, b: Batch): Log
    requires Fits(log, b)
  {
    log[..b.start-1] + b.ents
  }

  predicate Contiguous(log: Log, q: seq<Batch>)
    decreases |q|
  {
    q == [] || (Fits(log, q[0]) && Contiguous(Write(log, q[0]), q[1..]))
  }

  /** The stored log once every queued write has been carried out, in order. */
  function Replay(log: Log, q: seq<Batch>): Log
    requires Contiguous(log, q)
    decreases |q|
  {
    if q == [] then log else Replay(Write(log, q[0]), q[1..])
  }

  lemma {:induction false} ReplayLast(log: Log, q: seq<Batch>, b: Batch)
    requires Contiguous(log, q) && Fits(Replay(log, q), b)
    ensures Contiguous(log, q + [b]) && Replay(log, q + [b]) == Write(Replay(log, q), b)
    decreases |q|
  {
    if q == [] {
      assert (q + [b])[1..] == [];
    } else {
      assert (q + [b])[1..] == q[1..] + [b];
      ReplayLast(Write(log, q[0]), q[1..], b);
    }
  }

  predicate Above(q: seq<Batch>, i: nat) { forall k | 0 <= k < |q| :: q[k].start > i }

  /** Queued writes that all start above i leave the first i entries alone. */
  lemma {:induction false} ReplayKeeps(log: Log, q: seq<Batch>, i: nat)
    requires Contiguous(log, q) && i <= |Replay(log, q)|
    requires Above(q, i)
    ensures i <= |log| && Agree(log, Replay(log, q), i)
    decreases |q|
  {
    if q != [] {
      forall k | 0 <= k < |q[1..]| ensures q[1..][k].start > i { assert q[1..][k] == q[k+1]; }
      ReplayKeeps(Write(log, q[0]), q[1..], i);
      assert Write(log, q[0])[..i] == log[..i];
    }
  }

  // ---------------------------------------------------------------------------
  // The split log, as values
  // ---------------------------------------------------------------------------

  /** Storage keeps `ents` after index `dummy`; below that it is as the log was. */
  function StoredOf(plain: Log, dummy: nat, ents: seq<Entry>): Log
    requires dummy <= |plain| && |ents| >= 1
  {
    plain[..dummy] + ents[1..]
  }

  lemma StoredStretch(plain: Log, dummy: nat, ents: seq<Entry>, lo: nat, hi: nat)
    requires dummy <= |plain| && |ents| >= 1 && dummy < lo <= hi <= dummy + |ents|
    ensures ents[lo - dummy..hi - dummy] == StoredOf(plain, dummy, ents)[lo-1..hi-1]
  {
    var a, b := ents[lo - dummy..hi - dummy], StoredOf(plain, dummy, ents)[lo-1..hi-1];
    forall k | 0 <= k < |a| ensures a[k] == b[k] {
      assert ents[1..][lo + k - 1 - dummy] == ents[lo + k - dummy];
    }
  }

  /** Storage, the tail from `offset` on and the queued writes add up to `plain`. */
  ghost predicate Splits(plain: Log, dummy: nat, ents: seq<Entry>, offset: nat, tail: seq<Entry>, q: seq<Batch>) {
    && |ents| >= 1 && dummy < offset <= |plain| + 1 && ents[0].term == TermAt(plain, dummy)
    && tail == plain[offset-1..]
    && Contiguous(StoredOf(plain, dummy, ents), q) && Replay(StoredOf(plain, dummy, ents), q) == plain
    && forall k | 0 <= k < |q| :: q[k].start >= offset
  }

  lemma AppendSplits(plain: Log, dummy: nat, ents: seq<Entry>, offset: nat, tail: seq<Entry>, q: seq<Batch>, b: Batch)
    requires Splits(plain, dummy, ents, offset, tail, q) && Fits(plain, b) && dummy < b.start
    ensures Splits(Write(plain, b), dummy, ents, Min(offset, b.start), Spliced(tail, offset, b.start, b.ents), q + [b])
  {
    var plain', at := Write(plain, b), Min(offset, b.start);
    assert plain'[..dummy] == plain[..dummy];
    assert StoredOf(plain', dummy, ents) == StoredOf(plain, dummy, ents);
    ReplayLast(StoredOf(plain, dummy, ents), q, b);
    assert tail[..b.start - at] + b.ents == plain'[at-1..];
  }

  lemma WriteSplits(plain: Log, dummy: nat, ents: seq<Entry>, offset: nat, tail: seq<Entry>, q: seq<Batch>,
                    ents': seq<Entry>)
    requires Splits(plain, dummy, ents, offset, tail, q) && q != [] && |ents'| >= 1 && ents'[0] == ents[0]
    requires dummy < q[0].start <= dummy + |ents| ==> ents'[1..] == ents[1..][..q[0].start - 1 - dummy] + q[0].ents
    ensures dummy < q[0].start <= dummy + |ents| && q[0].ents != []
    ensures Splits(plain, dummy, ents', offset, tail, q[1..])
  {
    assert StoredOf(plain, dummy, ents') == Write(StoredOf(plain, dummy, ents), q[0]);
    forall k | 0 <= k < |q[1..]| ensures q[1..][k].start >= offset { assert q[1..][k] == q[k+1]; }
  }

  lemma CompactSplits(plain: Log, dummy: nat, ents: seq<Entry>, offset: nat, tail: seq<Entry>, q: seq<Batch>,
                      i: nat, ents': seq<Entry>)
    requires Splits(plain, dummy, ents, offset, tail, q) && dummy < i < offset
    requires i < dummy + |ents| ==>
               |ents'| >= 1 && ents'[0].term == ents[i - dummy].term && ents'[1..] == ents[i + 1 - dummy..]
    ensures i < dummy + |ents| && Splits(plain, i, ents', offset, tail, q)
  {
    var stored := StoredOf(plain, dummy, ents);
    ReplayKeeps(stored, q, i);
    assert stored[..i] == plain[..i];
    assert stored[i-1] == stored[..i][i-1] == plain[i-1];
    assert stored[i..] == ents[i + 1 - dummy..];
    assert StoredOf(plain, i, ents') == stored;
  }

  lemma StableSplits(plain: Log, dummy: nat, ents: seq<Entry>, offset: nat, tail: seq<Entry>, q: seq<Batch>, i: nat)
    requires Splits(plain, dummy, ents, offset, tail, q) && offset <= i <= |plain|
    requires Above(q, i)
    ensures Splits(plain, dummy, ents, i + 1, tail[i + 1 - offset..], q)
  {
  }

  /** The log as reads of terms show it: entries below the dummy index have lost theirs. */
  function Masked(log: Log, dummy: nat): (r: Log)
    ensures |r| == |log| && forall k | 0 <= k < |r| :: r[k] == if k + 1 < dummy then log[k].(term := 0) else log[k]
  {
    seq(|log|, k requires 0 <= k < |log| => if k + 1 < dummy then log[k].(term := 0) else log[k])
  }

  /** From the dummy index on nothing is hidden. */
  lemma {:induction false} MaskedConflict(log: Log, dummy: nat, index: nat, ents: seq<Entry>)
    requires index + 1 >= dummy
    ensures FindConflict(Masked(log, dummy), index, ents) == FindConflict(log, index, ents)
    decreases |ents|
  {
    if ents != [] { MaskedConflict(log, dummy, index + 1, ents[1..]); }
  }

  lemma MaskedTaken(log: Log, dummy: nat, index: nat, ents: seq<Entry>)
    requires dummy <= |log|
    ensures Masked(log + ents, dummy) == Masked(log, dummy) + ents
    ensures var c := FindConflict(Masked(log, dummy), index, ents);
      c == 0 || dummy < c <= |log| + 1 ==>
        Masked(L.Taken(log, c, index, ents), dummy) == Accept(Masked(log, dummy), index, ents)
  {
    hide FindConflict, Masked;
  }

  // ---------------------------------------------------------------------------
  // When a report is right
  // ---------------------------------------------------------------------------

  /** The stored log once the first k queued writes have been carried out. */
  function Version(log: Log, q: seq<Batch>, k: nat): Log
    requires Contiguous(log, q) && k <= |q|
    decreases k
  {
    if k == 0 then log else Version(Write(log, q[0]), q[1..], k - 1)
  }

  /** Reading every index below `offset` from storage gives the log's own entries. */
  ghost predicate ReadsRight(stored: Log, plain: Log, offset: nat) {
    forall i | 1 <= i < offset :: Agree(stored, plain, i)
  }

  /** The same now and after each of the writes still queued. */
  ghost predicate ReadsStayRight(stored: Log, q: seq<Batch>, plain: Log, offset: nat)
    requires Contiguous(stored, q)
  {
    forall k | 0 <= k <= |q| :: ReadsRight(Version(stored, q, k), plain, offset)
  }

  /** Log Matching between two versions of one node's log. */
  ghost predicate Matching(a: Log, b: Log) {
    forall i | 1 <= i <= |a| && i <= |b| && TermAt(a, i) == TermAt(b, i) :: Agree(a, b, i)
  }

  /** Storage has the log's term at i, now and after each queued write. */
  ghost predicate TermStays(stored: Log, q: seq<Batch>, plain: Log, i: nat)
    requires Contiguous(stored, q)
  {
    forall k | 0 <= k <= |q| :: TermAt(Version(stored, q, k), i) == TermAt(plain, i)
  }

  lemma RightAt(stored: Log, plain: Log, i: nat)
    requires Matching(stored, plain) && 1 <= i <= |plain| && TermAt(plain, i) >= 1
    ensures ReadsRight(stored, plain, i + 1) <==> TermAt(stored, i) == TermAt(plain, i)
  {
    if TermAt(stored, i) == TermAt(plain, i) {
      assert Agree(stored, plain, i);
      forall k | 1 <= k < i + 1 ensures Agree(stored, plain, k) {
        SliceOfTake(stored, i, 0, k);
        SliceOfTake(plain, i, 0, k);
      }
    }
    if ReadsRight(stored, plain, i + 1) {
      assert Agree(stored, plain, i);
      assert stored[i-1] == stored[..i][i-1] && plain[i-1] == plain[..i][i-1];
    }
  }

  /**
   * An accepted report of index i is right, now and for as long as the keeper
   * works off its queue, exactly when storage has the log's term at i now and
   * after each queued write.
   */
  lemma ReportExact(stored: Log, q: seq<Batch>, plain: Log, i: nat)
    requires Contiguous(stored, q) && 1 <= i <= |plain| && TermAt(plain, i) >= 1
    requires forall k | 0 <= k <= |q| :: Matching(Version(stored, q, k), plain)
    ensures ReadsStayRight(stored, q, plain, i + 1) <==> TermStays(stored, q, plain, i)
  {
    if ReadsStayRight(stored, q, plain, i + 1) {
      forall k | 0 <= k <= |q| ensures TermAt(Version(stored, q, k), i) == TermAt(plain, i) {
        RightAt(Version(stored, q, k), plain, i);
      }
    }
    if TermStays(stored, q, plain, i) {
      forall k | 0 <= k <= |q| ensures ReadsRight(Version(stored, q, k), plain, i + 1) {
        assert TermAt(Version(stored, q, k), i) == TermAt(plain, i);
        RightAt(Version(stored, q, k), plain, i);
      }
    }
  }

  /** A log split behind its first entry finds that entry in storage. */
  lemma FirstStored(plain: Log, ents: seq<Entry>, tail: seq<Entry>, q: seq<Batch>)
    ensures Splits(plain, 0, ents, 2, tail, q) ==> |ents| >= 2 && |plain| >= 1 && ents[1] == plain[0]
  {
    if Splits(plain, 0, ents, 2, tail, q) {
      var stored := StoredOf(plain, 0, ents);
      ReplayKeeps(stored, q, 1);
      assert stored[0] == stored[..1][0] == plain[..1][0];
    }
  }

  /** It is enough that no write at or below i is queued. */
  lemma {:induction false} ReportEnough(stored: Log, q: seq<Batch>, plain: Log, i: nat, k: nat)
    requires Contiguous(stored, q) && Replay(stored, q) == plain && i <= |plain| && k <= |q|
    requires Above(q, i)
    ensures ReadsRight(Version(stored, q, k), plain, i + 1)
    decreases k
  {
    if k == 0 {
      ReplayKeeps(stored, q, i);
      forall x | 1 <= x < i + 1 ensures Agree(stored, plain, x) {
        SliceOfTake(stored, i, 0, x);
        SliceOfTake(plain, i, 0, x);
      }
    } else {
      forall j | 0 <= j < |q[1..]| ensures q[1..][j].start > i { assert q[1..][j] == q[j+1]; }
      ReportEnough(Write(stored, q[0]), q[1..], plain, i, k - 1);
    }
  }

  /** A log of one uncommitted entry gets another one in its place, and the keeper writes it. */
  method ReplaceFirst(log: RaftLog, e: Entry)
    requires log.Valid() && log.committed == 0 && log.storage.dummy == 0 && log.writes == []
    modifies log, log.storage, log.unstable, log.inflight
    ensures log.Valid() && log.committed == 0 && log.storage.dummy == 0 && log.writes == []
    ensures log.plain == [e] && log.storage.ents[1..] == [e]
  {
    hide Splits, L.Inv;
    var last, panics := log.Append(1, [e]);
    log.Bounds();
    panics := log.KeeperWrite();
    log.Bounds();
    assert log.Stored() == [e];
  }

  /** An entry is written, replaced, and comes back: storage still holds what replaced it. */
  method ComesBack() returns (log: RaftLog)
    ensures fresh(log) && fresh(log.unstable) && log.Valid() && log.storage.dummy == 0
    ensures |log.plain| == 1 && log.plain[0].term == 1
    ensures log.unstable.offset == 1 && |log.unstable.entries| == 1 && log.unstable.entries[0].term == 1
    ensures |log.storage.ents| == 2 && log.storage.ents[1].term == 2
  {
    hide Splits, L.Inv;
    var storage := new MemoryStorage();
    log := new RaftLog(storage, 0, 0, []);
    ReplaceFirst(log, Entry(1, Normal, 0, 0));
    ReplaceFirst(log, Entry(2, Normal, 0, 0));
    log.Bounds();
    assert log.storage.ents[1..][0].term == 2;
    var last, panics := log.Append(1, [Entry(1, Normal, 0, 0)]);
    log.Tail();
  }

  /**
   * stableTo compares only the term of the reported entry with the tail's, so the
   * report of the first write of an entry that came back is accepted, and reads
   * of its index then find what replaced it.
   */
  method LateReport() returns (log: RaftLog, ok: bool, ghost before: L.LogState)
    ensures fresh(log) && ok && L.Inv(before) && L.Accepts(before, 1, 1)
    ensures log.State() == before.(offset := 2) && |log.plain| == 1 && log.plain[0].term == 1
    ensures log.storage.dummy == 0 && |log.storage.ents| == 2 && log.storage.ents[1].term == 2
    ensures !log.Refines()
  {
    hide Splits, L.Inv;
    log := ComesBack();
    before := log.State();
    ok := log.unstable.StableTo(1, 1);
    FirstStored(log.plain, log.storage.ents, log.unstable.entries, log.writes);
  }

  // ---------------------------------------------------------------------------
  // The log
  // ---------------------------------------------------------------------------

  class RaftLog {
    const storage: MemoryStorage
    const unstable: Unstable
    const inflight: Inflight
    var persisting: nat
    var committed: nat
    var localCommitted: nat
    var applying: nat
    var applied: nat
    var compacted: nat
    var writes: seq<Batch>         // calls of Keeper.TruncateAndAppend not carried out yet
    var applies: seq<seq<Entry>>   // calls of Keeper.Apply
    ghost var plain: Log           // the log this object stands for, compacted entries included

    ghost function Stored(): Log
      requires storage.dummy <= |plain| && storage.Valid()
      reads this, storage
    {
      StoredOf(plain, storage.dummy, storage.ents)
    }

    /** Both halves and the queued writes add up to `plain`. */
    ghost predicate Refines()
      reads this, storage, unstable
    {
      && Splits(plain, storage.dummy, storage.ents, unstable.offset, unstable.entries, writes)
      && storage.dummy <= compacted && persisting == |plain| + 1
    }

    ghost function Seen(): Log
      reads this, storage
    {
      Masked(plain, storage.dummy)
    }

    ghost function State(): L.LogState
      reads this, unstable, inflight
    {
      L.LogState(plain, unstable.offset, committed, localCommitted, applying, applied, compacted,
                 applies, inflight.waiters, inflight.fired)
    }

    ghost predicate Valid()
      reads this, storage, unstable, inflight
    {
      Refines() && L.Inv(State())
    }

    /**
     * newLogWithSize, loadState and the Applied option of newRaft, which panic
     * unless dummy <= applied <= commit <= last index. `history` is what was
     * compacted away before.
     */
    constructor (storage: MemoryStorage, commit: nat, applied: nat, ghost history: Log)
      requires storage.Valid() && |history| == storage.dummy
      requires storage.ents[0].term == TermAt(history, storage.dummy)
      requires storage.dummy <= applied <= commit <= storage.LastIndex()
      ensures Valid() && this.storage == storage && fresh(unstable) && fresh(inflight) && writes == []
      ensures State() == L.LogState(history + storage.ents[1..], storage.LastIndex() + 1, commit, commit,
                                    applied, applied, storage.dummy, [], [], [])
    {
      this.storage := storage;
      unstable := new Unstable(storage.LastIndex() + 1);
      inflight := new Inflight();
      persisting := storage.LastIndex() + 1;
      committed, localCommitted := commit, commit;
      applying, this.applied, compacted := applied, applied, storage.FirstIndex() - 1;
      writes, applies := [], [];
      plain := history + storage.ents[1..];
    }

    /** What a read below `offset` finds in storage. */
    lemma StoredBelow()
      requires Refines()
      ensures unstable.offset - 1 <= |Stored()| && Agree(Stored(), plain, unstable.offset - 1)
    {
      ReplayKeeps(Stored(), writes, unstable.offset - 1);
    }

    lemma Bounds()
      requires Refines()
      ensures |plain| + 1 == unstable.offset + |unstable.entries| && storage.dummy < unstable.offset && storage.Valid()
    {
    }

    lemma Tail()
      requires Refines()
      ensures 1 <= unstable.offset <= |plain| + 1 && unstable.entries == plain[unstable.offset-1..]
    {
    }

    lemma SeenTail(i: nat)
      requires Refines()
      ensures i >= unstable.offset ==> TermAt(Seen(), i) == TermAt(plain, i)
    {
    }

    /** What is hidden from reads lies below everything that may still change. */
    lemma SeenChanges(index: nat, ents: seq<Entry>)
      requires Valid()
      ensures Masked(plain + ents, storage.dummy) == Seen() + ents
      ensures var c := PlainLog.FindConflict(Seen(), index, ents);
        c == 0 || committed < c <= |plain| + 1 ==>
          Masked(L.Taken(plain, c, index, ents), storage.dummy) == Accept(Seen(), index, ents)
    {
      hide Splits, L.SortedIn, L.Taken, PlainLog.FindConflict, Accept, Masked;
      Shape();
      L.InvLags(State());
      MaskedTaken(plain, storage.dummy, index, ents);
    }

    lemma Shape()
      requires Valid()
      ensures |plain| + 1 == unstable.offset + |unstable.entries| && storage.dummy < unstable.offset
      ensures storage.dummy <= committed && Sorted(inflight.waiters)
    {
    }

    // -------------------------------------------------------------------------
    // Reading
    // -------------------------------------------------------------------------

    method LastIndex() returns (last: nat)
      requires Refines()
      ensures last == |plain|
    {
      var i, ok := unstable.MaybeLastIndex();
      if ok { return i; }
      last := unstable.offset - 1;
    }

    /** Zero out of range, also for compacted indexes. */
    method Term(i: nat) returns (t: nat)
      requires Refines()
      ensures t == TermAt(Seen(), i) && (i >= storage.dummy ==> t == TermAt(plain, i))
    {
      var ut, ok := unstable.MaybeTerm(i);
      if ok { return ut; }
      var last := LastIndex();
      if i + 1 < storage.FirstIndex() || i > last { return 0; }
      StoredBelow();
      assert i > storage.dummy ==> Stored()[i-1] == plain[..unstable.offset-1][i-1];
      var st := storage.Term(i);
      t := st.value;
    }

    method MatchTerm(i: nat, term: nat) returns (ok: bool)
      requires Refines()
      ensures ok == (TermAt(Seen(), i) == term) && (i >= storage.dummy ==> ok == (TermAt(plain, i) == term))
    {
      var t := Term(i);
      ok := t == term;
    }

    /** Wherever the split between storage and tail falls, the result is the limited plain range. */
    method Slice(lo: nat, hi: nat, limit: Limit) returns (r: Fetched<seq<Entry>>)
      requires Refines()
      ensures lo > hi || hi > |plain| + 1 ==> r == Panic
      ensures lo == hi <= |plain| + 1 ==> r == Got([])
      ensures lo < hi <= |plain| + 1 ==>
                r == if lo <= storage.dummy then Compacted else Got(Limited(Range(plain, lo, hi), limit))
    {
      Bounds();
      hide Splits, Limited, Range;
      var last := LastIndex();
      if lo > hi || hi > last + 1 { return Panic; }
      if lo == hi { return Got([]); }
      var ents := [];
      if lo < unstable.offset {
        var mid := Min(hi, unstable.offset);
        var stored := SliceStored(lo, mid, limit);
        if !stored.Got? { return stored; }
        ents := stored.value;
        SplitRange(lo, mid, hi, limit);
        if |ents| < mid - lo { return stored; }
      }
      if hi > unstable.offset {
        var tail := SliceTail(Max(lo, unstable.offset), hi);
        if |ents| > 0 { ents := ents + tail; } else { ents := tail; }
      }
      ents := LimitSize(ents, limit);
      r := Got(ents);
    }

    method SliceStored(lo: nat, hi: nat, limit: Limit) returns (r: Fetched<seq<Entry>>)
      requires Refines() && lo < hi <= unstable.offset <= |plain| + 1
      ensures r == if lo <= storage.dummy then Compacted else Got(Limited(Range(plain, lo, hi), limit))
    {
      StoredRange(lo, hi);
      hide Splits, Limited, Range;
      r := storage.Entries(lo, hi, limit);
    }

    method SliceTail(lo: nat, hi: nat) returns (r: seq<Entry>)
      requires Refines() && 1 <= unstable.offset <= lo <= hi <= |plain| + 1
      ensures r == Range(plain, lo, hi)
    {
      r := unstable.Slice(lo, hi);
    }

    lemma StoredRange(lo: nat, hi: nat)
      requires Refines() && lo < hi <= unstable.offset
      ensures hi <= storage.LastIndex() + 1
      ensures lo > storage.dummy ==> storage.ents[lo - storage.dummy..hi - storage.dummy] == Range(plain, lo, hi)
    {
      StoredBelow();
      if lo > storage.dummy {
        StoredStretch(plain, storage.dummy, storage.ents, lo, hi);
        SliceOfTake(Stored(), unstable.offset - 1, lo - 1, hi - 1);
        SliceOfTake(plain, unstable.offset - 1, lo - 1, hi - 1);
      }
    }

    lemma SplitRange(lo: nat, mid: nat, hi: nat, limit: Limit)
      requires 1 <= lo <= mid <= hi <= |plain| + 1
      ensures var a := Range(plain, lo, mid);
        && (|Limited(a, limit)| < |a| ==> Limited(Range(plain, lo, hi), limit) == Limited(a, limit))
        && (|Limited(a, limit)| == |a| ==>
              Limited(a, limit) == a && Limited(a, limit) + Range(plain, mid, hi) == Range(plain, lo, hi))
    {
      assert plain[lo-1..hi-1] == plain[lo-1..mid-1] + plain[mid-1..hi-1];
      LimitedSplit(plain[lo-1..mid-1], plain[mid-1..hi-1], limit);
    }

    // -------------------------------------------------------------------------
    // Writing
    // -------------------------------------------------------------------------

    /** Panics where the source does: below the commit index, or with a gap. */
    method Append(start: nat, ents: seq<Entry>) returns (last: nat, panics: bool)
      requires Valid() && (ents != [] ==> start >= 1)
      modifies this, unstable, inflight
      ensures panics == !L.AppendOk(old(State()), start, ents)
      ensures !panics ==> Valid() && State() == L.AppendAt(old(State()), start, ents) && last == |plain|
      ensures !panics ==> writes == old(writes) + if ents == [] then [] else [Batch(start, ents)]
    {
      hide Splits, Spliced, Write, L.AppendAt, L.Inv, L.Below, L.From, L.Fire;
      if ents == [] {
        L.AppendNone(State(), start);
        last := LastIndex();
        return last, false;
      }
      if start - 1 < committed { return 0, true; }
      Shape();
      if start <= |plain| + 1 { AppendFacts(Batch(start, ents)); }
      last, panics := Splice(start, ents);
      if panics { return; }
      if persisting > start { persisting := start; }
      writes := writes + [Batch(start, ents)];
      persisting := last + 1;
      plain := Write(plain, Batch(start, ents));
    }

    /** The tail and the waiters of a truncating append. */
    method Splice(start: nat, ents: seq<Entry>) returns (last: nat, panics: bool)
      requires start >= 1 && ents != [] && Sorted(inflight.waiters)
      modifies unstable, inflight
      ensures panics == (start > old(unstable.offset + |unstable.entries|))
      ensures panics ==> unstable.offset == old(unstable.offset) && unstable.entries == old(unstable.entries)
      ensures !panics ==>
                && last == start + |ents| - 1 && unstable.offset == Min(old(unstable.offset), start)
                && unstable.entries == Spliced(old(unstable.entries), old(unstable.offset), start, ents)
      ensures panics || start == old(unstable.offset + |unstable.entries|) ==>
                inflight.waiters == old(inflight.waiters) && inflight.fired == old(inflight.fired)
      ensures start < old(unstable.offset + |unstable.entries|) ==>
                && inflight.waiters == L.Below(old(inflight.waiters), start)
                && inflight.fired == old(inflight.fired) + L.Fire(L.From(old(inflight.waiters), start), false)
    {
      hide Spliced, L.Below, L.From, L.Fire;
      var truncated;
      last, truncated, panics := unstable.TruncateAndAppend(start, ents);
      if !panics && truncated { inflight.TruncateFrom(start); }
    }

    /** An append right after the last index never panics and only makes the log longer. */
    lemma AppendLast(ents: seq<Entry>)
      requires Valid()
      ensures L.AppendOk(State(), |plain| + 1, ents)
      ensures L.AppendAt(State(), |plain| + 1, ents) == State().(log := plain + ents)
    {
      L.AppendAtEnd(State(), ents);
      assert plain[..|plain|] == plain;
    }

    /** What the steps of Append add up to. */
    lemma AppendFacts(b: Batch)
      requires Valid() && Fits(plain, b) && committed < b.start
      ensures unstable.offset + |unstable.entries| == |plain| + 1
      ensures Splits(Write(plain, b), storage.dummy, storage.ents, Min(unstable.offset, b.start),
                     Spliced(unstable.entries, unstable.offset, b.start, b.ents), writes + [b])
      ensures L.Inv(L.AppendAt(State(), b.start, b.ents))
      ensures L.AppendAt(State(), b.start, b.ents) ==
              State().(log := Write(plain, b), offset := Min(unstable.offset, b.start),
                       waiters := L.Below(inflight.waiters, b.start),
                       fired := inflight.fired + L.Fire(L.From(inflight.waiters, b.start), false))
      ensures |Write(plain, b)| == b.start - 1 + |b.ents|
      ensures b.start == |plain| + 1 ==>
                && L.Below(inflight.waiters, b.start) == inflight.waiters
                && inflight.fired + L.Fire(L.From(inflight.waiters, b.start), false) == inflight.fired
    {
      AppendSplits(plain, storage.dummy, storage.ents, unstable.offset, unstable.entries, writes, b);
      L.AppendKeepsInv(State(), b.start, b.ents);
      L.AppendAtEnd(State(), b.ents);
    }

    /** A leader-local proposal (raft.Propose): the entries go to the end, then their waiters are registered. */
    method Propose(ents: seq<Entry>, cbs: seq<R.Option<nat>>)
      requires Valid() && |cbs| == |ents|
      modifies this, unstable, inflight
      ensures Valid()
      ensures State() == R.Wait(R.Watched(L.AppendAt(old(State()), |old(plain)| + 1, ents), map[]),
                                |old(plain)| + 1, cbs).s
    {
      hide Splits, L.AppendAt, L.AppendOk, L.SortedIn;
      AppendLast(ents);
      Waits(ents, cbs);
      var last := LastIndex();
      var _, panics := Append(last + 1, ents);
      ghost var x := R.Watched(State(), map[]);
      var i := 0;
      assert cbs[..0] == [];
      while i < |cbs|
        invariant i <= |cbs| && Refines() && State() == R.Wait(x, last + 1, cbs[..i]).s && plain == x.s.log
      {
        R.WaitLast(x, last + 1, cbs[..i], cbs[i]);
        assert cbs[..i] + [cbs[i]] == cbs[..i+1];
        if cbs[i].Some? { inflight.Append(last + 1 + i, cbs[i].value); }
        i := i + 1;
      }
      assert cbs[..i] == cbs;
    }

    lemma Waits(ents: seq<Entry>, cbs: seq<R.Option<nat>>)
      requires Valid() && |cbs| == |ents|
      requires L.AppendAt(State(), |plain| + 1, ents) == State().(log := plain + ents)
      requires L.AppendOk(State(), |plain| + 1, ents)
      ensures L.Inv(R.Wait(R.Watched(L.AppendAt(State(), |plain| + 1, ents), map[]), |plain| + 1, cbs).s)
      ensures L.AppendAt(State(), |plain| + 1, ents).log == plain + ents
    {
      hide Splits, L.AppendAt;
      L.AppendKeepsInv(State(), |plain| + 1, ents);
      R.WaitInv(R.Watched(L.AppendAt(State(), |plain| + 1, ents), map[]), |plain| + 1, cbs);
    }

    /** The keeper carries out its oldest queued write. */
    method KeeperWrite() returns (panics: bool)
      requires Valid() && writes != []
      modifies `writes, storage
      ensures Valid() && !panics && State() == old(State())
      ensures writes == old(writes)[1..] && storage.dummy == old(storage.dummy)
      ensures Fits(old(Stored()), old(writes)[0]) && Stored() == Write(old(Stored()), old(writes)[0])
    {
      ghost var ents := storage.ents;
      panics := storage.Append(writes[0].start, writes[0].ents);
      WriteSplits(plain, storage.dummy, ents, unstable.offset, unstable.entries, writes, storage.ents);
      writes := writes[1..];
    }

    /** The keeper drops entries it was told it may drop. */
    method KeeperCompact(i: nat)
      requires Valid() && i <= compacted
      modifies storage
      ensures Valid() && State() == old(State())
    {
      ghost var dummy, ents := storage.dummy, storage.ents;
      var r := storage.Compact(i);
      if i > dummy { CompactSplits(plain, dummy, ents, unstable.offset, unstable.entries, writes, i, storage.ents); }
    }

    // -------------------------------------------------------------------------
    // Cursors
    // -------------------------------------------------------------------------

    /** Never decreases; hands what became locally committed to the application. */
    method LocalCommitTo(tocommit: nat)
      requires Refines() && L.Lagging(State())
      modifies this, inflight
      ensures Refines() && State() == L.LocalCommitTo(old(State()), tocommit)
      ensures plain == old(plain) && committed == old(committed)
    {
      hide Splits, L.Below, L.From, L.Fire, Range;
      var c := tocommit;
      if c >= unstable.offset { c := unstable.offset - 1; }
      if localCommitted < c {
        localCommitted := c;
        inflight.CommitTo(c);
        var ents := Slice(applying + 1, c + 1, NoLimit);
        applies := applies + [ents.value];
        applying := c;
      }
    }

    /** Panics when told to commit beyond the log. */
    method CommitTo(tocommit: nat) returns (panics: bool)
      requires Refines() && L.Lagging(State()) && (L.Inv(State()) || tocommit >= committed)
      modifies this, inflight
      ensures panics == !L.CommitOk(old(State()), tocommit)
      ensures !panics ==> Valid() && State() == L.CommitTo(old(State()), tocommit)
      ensures !panics ==> plain == old(plain) && committed == Max(old(committed), tocommit)
    {
      hide Splits, L.SortedIn;
      ghost var s := State();
      if committed < tocommit {
        var last := LastIndex();
        if last < tocommit { return true; }
        committed := tocommit;
      }
      L.CommitKeepsInv(s, tocommit);
      LocalCommitTo(tocommit);
      panics := false;
    }

    /**
     * The keeper reports entries up to (i, t) persisted. The two halves still add
     * up to the log if and only if no write at or below i was queued.
     */
    method StableTo(i: nat, t: nat) returns (ok: bool)
      requires Valid()
      modifies unstable
      ensures L.Lagging(State()) && ok == L.Accepts(old(State()), i, t)
      ensures State() == if ok then old(State()).(offset := i + 1) else old(State())
      ensures Refines() <==> (ok ==> Above(writes, i))
    {
      if L.Accepts(State(), i, t) && Above(writes, i) {
        StableSplits(plain, storage.dummy, storage.ents, unstable.offset, unstable.entries, writes, i);
      }
      ok := unstable.StableTo(i, t);
    }

    /** MsgLogStatus at a follower or candidate: stableTo, then localCommitTo(committed). */
    method LogStatus(i: nat, t: nat) returns (ok: bool)
      requires Valid()
      requires L.Accepts(State(), i, t) ==> Above(writes, i)
      modifies this, unstable, inflight
      ensures Valid() && State() == L.StableTo(old(State()), i, t) && ok == L.Accepts(old(State()), i, t)
      ensures plain == old(plain) && committed == old(committed)
      ensures unstable.offset == if ok then i + 1 else old(unstable.offset)
    {
      L.StableKeepsInv(State(), i, t);
      ok := StableTo(i, t);
      if ok { LocalCommitTo(committed); }
    }

    method AppliedTo(i: nat) returns (panics: bool)
      requires Valid()
      modifies this
      ensures panics == !L.AppliedOk(old(State()), i)
      ensures !panics ==> Valid() && State() == L.AppliedTo(old(State()), i)
    {
      if i == 0 { return false; }
      if applying < i || i < applied { return true; }
      applied := i;
      panics := false;
    }

    method CompactTo(tocompact: nat)
      requires Valid()
      modifies this
      ensures Valid() && State() == L.CompactTo(old(State()), tocompact)
    {
      var c := tocompact;
      if applied < c { c := applied; }
      if compacted < c { compacted := c; }
    }

    // -------------------------------------------------------------------------
    // Conflicts
    // -------------------------------------------------------------------------

    /** First index at which the batch after `index` is new or has another term; 0 if none. */
    method FindConflict(index: nat, ents: seq<Entry>) returns (c: nat)
      requires Refines()
      ensures c == PlainLog.FindConflict(Seen(), index, ents)
      ensures index + 1 >= storage.dummy ==> c == PlainLog.FindConflict(plain, index, ents)
    {
      hide Splits, PlainLog.FindConflict;
      if index + 1 >= storage.dummy { MaskedConflict(plain, storage.dummy, index, ents); }
      var i := 0;
      while i < |ents|
        invariant i <= |ents|
        invariant forall k | 0 <= k < i :: TermAt(Seen(), index + 1 + k) == ents[k].term
      {
        var ok := MatchTerm(index + 1 + i, ents[i].term);
        if !ok { return index + 1 + i; }
        i := i + 1;
      }
      c := 0;
    }

    /**
     * Largest index <= i with a term <= t. The source's comment promises the
     * first index when there is none; with a compacted prefix whose entries all
     * have larger terms the loop ends two below the first index instead.
     */
    method FindConflictByTerm(index: nat, term: nat) returns (i: nat)
      requires Refines()
      ensures i == PlainLog.FindConflictByTerm(Seen(), index, term)
      ensures index <= |plain| && index >= storage.dummy ==>
                var r := PlainLog.FindConflictByTerm(plain, index, term);
                i == if r >= storage.dummy then r else storage.dummy - 1
      ensures index > |plain| || index < storage.dummy ==> i == index
    {
      var last := LastIndex();
      if index > last { return index; }
      i := index;
      while true
        invariant i <= index && (index < storage.dummy ==> i == index)
        invariant PlainLog.FindConflictByTerm(Seen(), index, term) == PlainLog.FindConflictByTerm(Seen(), i, term)
        invariant index >= storage.dummy ==> i + 1 >= storage.dummy
        invariant i >= storage.dummy ==>
          PlainLog.FindConflictByTerm(plain, index, term) == PlainLog.FindConflictByTerm(plain, i, term)
        invariant index >= storage.dummy && i < storage.dummy ==>
          PlainLog.FindConflictByTerm(plain, index, term) < storage.dummy
        decreases i
      {
        var t := Term(i);
        if t <= term { break; }
        i := i - 1;
      }
    }

    /** The part of maybeAppend between its checks and its commit. */
    method AppendNew(index: nat, ents: seq<Entry>) returns (panics: bool)
      requires Valid()
      modifies this, unstable, inflight
      ensures var c := PlainLog.FindConflict(old(Seen()), index, ents); var suffix := L.Suffix(c, index, ents);
        && panics == !L.AppendOk(old(State()), c, suffix)
        && (!panics ==> Valid() && State() == L.AppendAt(old(State()), c, suffix))
    {
      hide Splits, L.Inv, L.AppendAt, PlainLog.FindConflict;
      Shape();
      var ci := FindConflict(index, ents);
      if ci == 0 {
        L.AppendNone(State(), ci);
        return false;
      } else if ci <= committed {
        return true;
      }
      var _, bad := Append(ci, ents[ci - 1 - index..]);
      panics := bad;
    }

    /** The follower's append. */
    method MaybeAppend(index: nat, logTerm: nat, commit: nat, ents: seq<Entry>) returns (ok: bool, panics: bool)
      requires Valid()
      modifies this, unstable, inflight
      ensures TermAt(old(Seen()), index) != logTerm ==> !ok && !panics && Valid() && State() == old(State())
      ensures TermAt(old(Seen()), index) == logTerm ==>
                panics == !L.MaybeAppendOk(old(State()), old(Seen()), index, commit, ents) && ok == !panics
      ensures ok ==> Valid() && State() == L.MaybeAppend(old(State()), old(Seen()), index, commit, ents)
    {
      hide Splits, L.Inv, L.Lagging, L.AppendAt, L.AppendOk, L.CommitTo, L.MaybeAppendOk, PlainLog.FindConflict, Accept;
      Shape();
      L.MaybeAppendSteps(State(), Seen(), index, commit, ents);
      var fits := MatchTerm(index, logTerm);
      if !fits { return false, false; }
      panics := AppendNew(index, ents);
      if panics { return false, true; }
      L.InvLags(State());
      panics := CommitTo(Min(commit, index + |ents|));
      ok := !panics;
    }
  }
}
