// The raft log as one value: a plain sequence, its cursors, what was handed to
// the application, and the waiters of proposals. Every run of the operations
// keeps the cursor chain, applies each entry once and settles each waiter once.
module LogSpec {
  import opened PlainLog

  datatype Waiter = Waiter(index: nat, cb: nat)

  /** A callback's one call: nil (ok) or ErrProposalDropped. */
  datatype Fired = Fired(cb: nat, ok: bool)

  datatype LogState = LogState(
    log: Log, offset: nat,                           // the unstable part starts at index `offset`
    committed: nat, localCommitted: nat, applying: nat, applied: nat, compacted: nat,
    applies: seq<seq<Entry>>,                        // batches handed to Keeper.Apply
    waiters: seq<Waiter>, fired: seq<Fired>)

  // ---------------------------------------------------------------------------
  // Operations
  // ---------------------------------------------------------------------------

  /** Waiters with an index of at most i. */
  function Upto(ws: seq<Waiter>, i: nat): (n: nat)
    ensures n <= |ws| && (n < |ws| ==> ws[n].index > i)
    ensures forall k | 0 <= k < n :: ws[k].index <= i
  {
    if ws == [] || ws[0].index > i then 0
    else
      var n := Upto(ws[1..], i);
      assert forall k | 1 <= k < |ws| :: ws[k] == ws[1..][k-1];
      1 + n
  }

  /** The waiters below index i, and those from it on. */
  function Below(ws: seq<Waiter>, i: nat): seq<Waiter>
    requires i >= 1
  {
    ws[..Upto(ws, i - 1)]
  }

  function From(ws: seq<Waiter>, i: nat): seq<Waiter>
    requires i >= 1
  {
    ws[Upto(ws, i - 1)..]
  }

  function Fire(ws: seq<Waiter>, ok: bool): (r: seq<Fired>)
    ensures |r| == |ws| && forall k | 0 <= k < |r| :: r[k] == Fired(ws[k].cb, ok)
  {
    seq(|ws|, k requires 0 <= k < |ws| => Fired(ws[k].cb, ok))
  }

  /** raftLog.append: everything from `start` on is replaced. */
  predicate AppendOk(s: LogState, start: nat, ents: seq<Entry>) {
    ents != [] ==> s.committed < start <= |s.log| + 1
  }

  function AppendAt(s: LogState, start: nat, ents: seq<Entry>): LogState
    requires AppendOk(s, start, ents)
  {
    if ents == [] then s
    else
      s.(log := s.log[..start-1] + ents, offset := Min(s.offset, start),
         waiters := Below(s.waiters, start), fired := s.fired + Fire(From(s.waiters, start), false))
  }

  predicate Bounded(s: LogState) { s.applying <= s.localCommitted && 1 <= s.offset <= |s.log| + 1 }

  /** Hand the entries after `applying`, up to c, to the application and call their waiters. */
  function Deliver(s: LogState, c: nat): LogState
    requires s.applying <= c <= |s.log|
  {
    s.(localCommitted := c, applying := c, applies := s.applies + [Range(s.log, s.applying + 1, c + 1)],
       waiters := From(s.waiters, c + 1), fired := s.fired + Fire(Below(s.waiters, c + 1), true))
  }

  function LocalCommitTo(s: LogState, tocommit: nat): LogState
    requires Bounded(s)
  {
    var c := if tocommit >= s.offset then s.offset - 1 else tocommit;
    if s.localCommitted >= c then s else Deliver(s, c)
  }

  predicate CommitOk(s: LogState, tocommit: nat) { tocommit <= Max(s.committed, |s.log|) }

  function CommitTo(s: LogState, tocommit: nat): LogState
    requires Bounded(s)
  {
    LocalCommitTo(s.(committed := Max(s.committed, tocommit)), tocommit)
  }

  predicate Accepts(s: LogState, i: nat, t: nat) { s.offset <= i <= |s.log| && TermAt(s.log, i) == t }

  /** MsgLogStatus: unstable.stableTo and, when it took effect, localCommitTo(committed). */
  function StableTo(s: LogState, i: nat, t: nat): LogState
    requires Bounded(s)
  {
    if Accepts(s, i, t) then LocalCommitTo(s.(offset := i + 1), s.committed) else s
  }

  predicate AppliedOk(s: LogState, i: nat) { i == 0 || s.applied <= i <= s.applying }

  function AppliedTo(s: LogState, i: nat): LogState { if i == 0 then s else s.(applied := i) }

  function CompactTo(s: LogState, i: nat): LogState { s.(compacted := Max(s.compacted, Min(s.applied, i))) }

  /** inflight.append for a freshly proposed entry. */
  function Register(s: LogState, index: nat, cb: nat): LogState {
    s.(waiters := s.waiters + [Waiter(index, cb)])
  }

  // ---------------------------------------------------------------------------
  // The invariant
  // ---------------------------------------------------------------------------

  ghost predicate CursorChain(s: LogState) {
    && s.compacted <= s.applied <= s.applying <= s.localCommitted
    && 1 <= s.offset <= |s.log| + 1
    && s.localCommitted == Min(s.committed, s.offset - 1) && s.committed <= |s.log|
  }

  /** Strictly sorted by index, inside (lo, hi]. */
  ghost predicate SortedIn(ws: seq<Waiter>, lo: nat, hi: nat) {
    && (forall i | 0 <= i < |ws| :: lo < ws[i].index <= hi)
    && (forall i, j | 0 <= i < j < |ws| :: ws[i].index < ws[j].index)
  }

  ghost predicate Inv(s: LogState) { CursorChain(s) && SortedIn(s.waiters, s.localCommitted, |s.log|) }

  lemma SortedParts(ws: seq<Waiter>, lo: nat, hi: nat, i: nat)
    requires SortedIn(ws, lo, hi) && i >= 1
    ensures SortedIn(Below(ws, i), lo, i - 1) && SortedIn(From(ws, i), Max(lo, i - 1), hi)
  {
    var n, mid := Upto(ws, i - 1), i - 1;
    forall i | n <= i < |ws| ensures ws[i].index > mid { assert ws[n].index <= ws[i].index; }
  }

  lemma AppendKeepsInv(s: LogState, start: nat, ents: seq<Entry>)
    requires Inv(s) && AppendOk(s, start, ents)
    ensures Inv(AppendAt(s, start, ents))
    ensures AppendAt(s, start, ents).log[..s.committed] == s.log[..s.committed]
  {
    if ents != [] { SortedParts(s.waiters, s.localCommitted, |s.log|, start); }
  }

  lemma AppendNone(s: LogState, start: nat)
    ensures AppendAt(s, start, []) == s
  {
  }

  /** An append at the end leaves every waiter alone. */
  lemma AppendAtEnd(s: LogState, ents: seq<Entry>)
    requires Inv(s)
    ensures AppendAt(s, |s.log| + 1, ents).waiters == s.waiters && AppendAt(s, |s.log| + 1, ents).fired == s.fired
  {
    assert Upto(s.waiters, |s.log|) == |s.waiters|;
    assert s.waiters[|s.waiters|..] == [] && Fire([], false) == [];
  }

  /** Everything but `localCommitted == min(committed, offset-1)`, which localCommitTo restores. */
  ghost predicate Lagging(s: LogState) {
    && s.compacted <= s.applied && s.applied <= s.applying && Bounded(s)
    && s.localCommitted <= Min(s.committed, s.offset - 1) && s.committed <= |s.log|
    && SortedIn(s.waiters, s.localCommitted, |s.log|)
  }

  lemma InvLags(s: LogState)
    requires Inv(s)
    ensures Lagging(s)
  {
  }

  lemma LocalCommitKeepsInv(s: LogState, c: nat)
    requires Lagging(s) && c <= s.committed && (s.localCommitted == Min(s.committed, s.offset - 1) || c == s.committed)
    ensures Inv(LocalCommitTo(s, c)) && LocalCommitTo(s, c).log == s.log
    ensures LocalCommitTo(s, c).localCommitted == Max(s.localCommitted, Min(c, s.offset - 1))
  {
    hide Fire, Below, From;
    var m := Min(c, s.offset - 1);
    SortedParts(s.waiters, s.localCommitted, |s.log|, m + 1);
  }

  lemma CommitKeepsInv(s: LogState, c: nat)
    requires Lagging(s) && CommitOk(s, c) && (Inv(s) || c >= s.committed)
    ensures Inv(CommitTo(s, c)) && CommitTo(s, c).committed == Max(s.committed, c) && CommitTo(s, c).log == s.log
  {
    LocalCommitKeepsInv(s.(committed := Max(s.committed, c)), c);
  }

  lemma StableKeepsInv(s: LogState, i: nat, t: nat)
    requires Inv(s)
    ensures Inv(StableTo(s, i, t)) && StableTo(s, i, t).log == s.log && StableTo(s, i, t).committed == s.committed
  {
    if Accepts(s, i, t) { LocalCommitKeepsInv(s.(offset := i + 1), s.committed); }
  }

  // ---------------------------------------------------------------------------
  // A follower's append
  // ---------------------------------------------------------------------------

  /** The part of the batch from the conflict c on, when it was placed after `index`. */
  function Suffix(c: nat, index: nat, ents: seq<Entry>): seq<Entry>
    requires c == 0 || index < c <= index + |ents|
  {
    if c == 0 then [] else ents[c-1-index..]
  }

  /** The log after a batch was taken from the conflict c on. */
  function Taken(log: Log, c: nat, index: nat, ents: seq<Entry>): Log
    requires c == 0 || index < c <= index + |ents|
  {
    if c == 0 || c > |log| + 1 then log else log[..c-1] + Suffix(c, index, ents)
  }

  /**
   * raftLog.maybeAppend, on a batch that fits after `index`, meets none of its
   * panics. `seen` is the log as its reads of terms show it.
   */
  predicate MaybeAppendOk(s: LogState, seen: Log, index: nat, commit: nat, ents: seq<Entry>) {
    var c := FindConflict(seen, index, ents);
    && (c == 0 || s.committed < c <= |s.log| + 1)
    && Max(s.committed, Min(commit, index + |ents|)) <= |Taken(s.log, c, index, ents)|
  }

  lemma MaybeAppendSteps(s: LogState, seen: Log, index: nat, commit: nat, ents: seq<Entry>)
    requires Inv(s)
    ensures var c := FindConflict(seen, index, ents); var suffix := Suffix(c, index, ents);
      && (AppendOk(s, c, suffix) <==> c == 0 || s.committed < c <= |s.log| + 1)
      && (c == 0 ==> AppendAt(s, c, suffix) == s)
      && (MaybeAppendOk(s, seen, index, commit, ents) <==>
            AppendOk(s, c, suffix) && CommitOk(AppendAt(s, c, suffix), Min(commit, index + |ents|)))
      && (AppendOk(s, c, suffix) ==>
            && Inv(AppendAt(s, c, suffix)) && AppendAt(s, c, suffix).log == Taken(s.log, c, index, ents)
            && AppendAt(s, c, suffix).committed == s.committed)
  {
    hide SortedIn, Below, From, Fire, FindConflict;
    var c := FindConflict(seen, index, ents);
    var suffix := Suffix(c, index, ents);
    if AppendOk(s, c, suffix) { AppendKeepsInv(s, c, suffix); }
  }

  /** Cut and append where the batch is new or differs, then commit what it covers. */
  ghost function MaybeAppend(s: LogState, seen: Log, index: nat, commit: nat, ents: seq<Entry>): (r: LogState)
    requires Inv(s) && MaybeAppendOk(s, seen, index, commit, ents)
    ensures var c := FindConflict(seen, index, ents);
      && Inv(r) && r.log == Taken(s.log, c, index, ents)
      && r.committed == Max(s.committed, Min(commit, index + |ents|))
      && r.offset == if c == 0 then s.offset else Min(s.offset, c)
  {
    MaybeAppendSteps(s, seen, index, commit, ents);
    var c := FindConflict(seen, index, ents);
    var s1 := AppendAt(s, c, Suffix(c, index, ents));
    CommitKeepsInv(s1, Min(commit, index + |ents|));
    CommitTo(s1, Min(commit, index + |ents|))
  }
}
