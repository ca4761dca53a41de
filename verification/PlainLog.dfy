// The raft log as one plain sequence: entry i (1-based) is log[i-1].
// Everything else about logs is specified against these functions.
module PlainLog {

  datatype EntryKind = Normal | ConfChange

  /** A log entry; its index is its position, `size` its encoded size in bytes. */
  datatype Entry = Entry(term: nat, kind: EntryKind, data: nat, size: nat)

  type Log = seq<Entry>

  function TermAt(log: Log, i: nat): nat {
    if 1 <= i <= |log| then log[i-1].term else 0
  }

  function LastTerm(log: Log): nat { TermAt(log, |log|) }

  function Min(a: nat, b: nat): nat { if a > b then b else a }

  function Max(a: nat, b: nat): nat { if a > b then a else b }

  /** Section 5.4.1 of the Raft paper: may a log ending in (lasti, term) win this log's vote? */
  predicate IsUpToDate(log: Log, lasti: nat, term: nat) {
    term > LastTerm(log) || (term == LastTerm(log) && lasti >= |log|)
  }

  predicate IsPrefix(a: Log, b: Log) { |a| <= |b| && a == b[..|a|] }

  /** Both logs reach index i and are equal up to it. */
  predicate Agree(a: Log, b: Log, i: nat) { i <= |a| && i <= |b| && a[..i] == b[..i] }

  /** Entries lo up to, not including, hi. */
  function Range(log: Log, lo: nat, hi: nat): (r: seq<Entry>)
    requires 1 <= lo <= hi <= |log| + 1
    ensures |r| == hi - lo
  {
    log[lo-1..hi-1]
  }

  predicate TermsMonotone(log: Log) {
    forall i, j | 0 <= i <= j < |log| :: log[i].term <= log[j].term
  }

  /** First index at which `ents`, placed after index p, is missing or has another term; 0 if none. */
  function FindConflict(log: Log, p: nat, ents: seq<Entry>): (c: nat)
    ensures c == 0 ==> forall k | 0 <= k < |ents| :: TermAt(log, p + 1 + k) == ents[k].term
    ensures c != 0 ==> p < c <= p + |ents| && TermAt(log, c) != ents[c-1-p].term
    ensures forall k | 0 <= k < |ents| && p + 1 + k < c :: TermAt(log, p + 1 + k) == ents[k].term
    decreases |ents|
  {
    if ents == [] then 0
    else if TermAt(log, p + 1) != ents[0].term then p + 1
    else
      var c := FindConflict(log, p + 1, ents[1..]);
      assert forall k | 1 <= k < |ents| :: ents[k] == ents[1..][k-1];
      c
  }

  /** The log after accepting `ents` after index p: conflicting suffix cut, the rest kept. */
  function Accept(log: Log, p: nat, ents: seq<Entry>): Log {
    var c := FindConflict(log, p, ents);
    if c == 0 || c > |log| + 1 then log else log[..c-1] + ents[c-1-p..]
  }

  /** Largest index <= i whose term is <= t (index 0 has term 0). */
  function FindConflictByTerm(log: Log, i: nat, t: nat): (r: nat)
    ensures r <= i
    ensures i <= |log| ==> TermAt(log, r) <= t
    ensures i <= |log| ==> forall k | r < k <= i :: TermAt(log, k) > t
    ensures i > |log| ==> r == i
    decreases i
  {
    if i > |log| || TermAt(log, i) <= t then i else FindConflictByTerm(log, i - 1, t)
  }

  /** A stretch of a sequence only depends on the part it lies in. */
  lemma SliceOfTake(s: Log, k: nat, lo: nat, hi: nat)
    requires lo <= hi <= k <= |s|
    ensures s[..k][lo..hi] == s[lo..hi]
  {
  }
}
