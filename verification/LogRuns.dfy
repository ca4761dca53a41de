// Runs of the raft log: any interleaving of appends, proposals, persistence
// reports, commits, applications and compactions that does not panic.
module LogRuns {
  import opened PlainLog
  import opened LogSpec

  datatype Option<T> = None | Some(value: T)

  datatype LogAction =
    | Append(start: nat, ents: seq<Entry>)
    | Propose(ents: seq<Entry>, cbs: seq<Option<nat>>) // at the leader; Some(cb) for entries that are waited for
    | Stable(index: nat, term: nat)
    | Commit(index: nat)
    | Applied(index: nat)
    | Compact(index: nat)

  /** Where and with which entry a waiter was registered. */
  datatype Place = Place(index: nat, entry: Entry)

  /** The log and, for the statement of the theorems only, every registration so far. */
  datatype Watched = Watched(s: LogState, placed: map<nat, Place>)

  // ---------------------------------------------------------------------------
  // Steps
  // ---------------------------------------------------------------------------

  /** The loop of raft.Propose over the callbacks of entries `first`, `first`+1, ... */
  function Wait(x: Watched, first: nat, cbs: seq<Option<nat>>): Watched
    requires 1 <= first && first + |cbs| <= |x.s.log| + 1
    decreases |cbs|
  {
    if cbs == [] then x
    else
      var y := if cbs[0].None? then x
               else Watched(Register(x.s, first, cbs[0].value),
                            x.placed[cbs[0].value := Place(first, x.s.log[first-1])]);
      Wait(y, first + 1, cbs[1..])
  }

  /** Callbacks are told apart by their number. */
  ghost predicate FreshCallbacks(placed: map<nat, Place>, cbs: seq<Option<nat>>) {
    && (forall k | 0 <= k < |cbs| && cbs[k].Some? :: cbs[k].value !in placed)
    && (forall j, k | 0 <= j < k < |cbs| && cbs[j].Some? :: cbs[j] != cbs[k])
  }

  /** The call does not panic. */
  ghost predicate Enabled(x: Watched, a: LogAction) {
    match a
    case Append(start, ents) => AppendOk(x.s, start, ents)
    case Propose(ents, cbs) => |cbs| == |ents| && x.s.committed <= |x.s.log| && FreshCallbacks(x.placed, cbs)
    case Stable(_, _) => Bounded(x.s)
    case Commit(c) => CommitOk(x.s, c) && Bounded(x.s)
    case Applied(i) => AppliedOk(x.s, i)
    case Compact(_) => true
  }

  function After(x: Watched, a: LogAction): Watched
    requires Enabled(x, a)
  {
    match a
    case Append(start, ents) => x.(s := AppendAt(x.s, start, ents))
    case Propose(ents, cbs) =>
      var first := |x.s.log| + 1;
      Wait(x.(s := AppendAt(x.s, first, ents)), first, cbs)
    case Stable(i, t) => x.(s := StableTo(x.s, i, t))
    case Commit(c) => x.(s := CommitTo(x.s, c))
    case Applied(i) => x.(s := AppliedTo(x.s, i))
    case Compact(i) => x.(s := CompactTo(x.s, i))
  }

  /** A log just opened: nothing unstable, and the application resumes after `applying`. */
  ghost predicate Opened(x: Watched) {
    && CursorChain(x.s) && x.s.offset == |x.s.log| + 1
    && x.s.applies == [] && x.s.waiters == [] && x.s.fired == [] && x.placed == map[]
  }

  ghost predicate IsRun(xs: seq<Watched>, acts: seq<LogAction>) {
    && |xs| == |acts| + 1 && Opened(xs[0])
    && forall i | 0 <= i < |acts| :: Enabled(xs[i], acts[i]) && xs[i+1] == After(xs[i], acts[i])
  }

  // ---------------------------------------------------------------------------
  // Waiters
  // ---------------------------------------------------------------------------

  /** A pending waiter stands for the entry at its index. */
  ghost predicate Pending(x: Watched) {
    forall k | 0 <= k < |x.s.waiters| ::
      && var w := x.s.waiters[k];
      && 1 <= w.index <= |x.s.log| && w.cb in x.placed
      && x.placed[w.cb] == Place(w.index, x.s.log[w.index-1])
  }

  /** Callbacks called with nil so far: each for an entry that is locally committed, and still there. */
  ghost predicate Settled(x: Watched) {
    forall k | 0 <= k < |x.s.fired| && x.s.fired[k].ok ::
      x.s.fired[k].cb in x.placed && Committed(x.s, x.placed[x.s.fired[k].cb])
  }

  predicate Committed(s: LogState, p: Place) {
    1 <= p.index <= s.localCommitted && p.index <= |s.log| && s.log[p.index-1] == p.entry
  }

  function Called(fs: seq<Fired>): seq<nat> { seq(|fs|, k requires 0 <= k < |fs| => fs[k].cb) }

  function Waiting(ws: seq<Waiter>): seq<nat> { seq(|ws|, k requires 0 <= k < |ws| => ws[k].cb) }

  /** Every registration, called or still waiting, as often as it occurs. */
  ghost function Ledger(fired: seq<Fired>, waiters: seq<Waiter>): multiset<nat> {
    multiset(Called(fired)) + multiset(Waiting(waiters))
  }

  ghost function LedgerOf(s: LogState): multiset<nat> { Ledger(s.fired, s.waiters) }

  /** Each registered callback has been called once or is waiting once, never both. */
  ghost predicate Once(x: Watched) {
    forall c :: LedgerOf(x.s)[c] == if c in x.placed then 1 else 0
  }

  ghost predicate RunInv(x: Watched) { Inv(x.s) && Pending(x) && Settled(x) && Once(x) }

  lemma WaitingSplit(ws: seq<Waiter>, n: nat)
    requires n <= |ws|
    ensures multiset(Waiting(ws)) == multiset(Waiting(ws[..n])) + multiset(Waiting(ws[n..]))
  {
    assert Waiting(ws) == Waiting(ws[..n]) + Waiting(ws[n..]);
  }

  lemma CalledMore(fs: seq<Fired>, ws: seq<Waiter>, ok: bool)
    ensures multiset(Called(fs + Fire(ws, ok))) == multiset(Called(fs)) + multiset(Waiting(ws))
  {
    assert Called(fs + Fire(ws, ok)) == Called(fs) + Waiting(ws);
  }

  /** Calling callbacks moves entries within the ledger. */
  lemma AppendKeepsLedger(s: LogState, start: nat, ents: seq<Entry>)
    requires AppendOk(s, start, ents)
    ensures LedgerOf(AppendAt(s, start, ents)) == LedgerOf(s)
  {
    if ents != [] {
      WaitingSplit(s.waiters, Upto(s.waiters, start - 1));
      CalledMore(s.fired, From(s.waiters, start), false);
    }
  }

  lemma DeliverKeepsLedger(s: LogState, c: nat)
    requires s.applying <= c <= |s.log|
    ensures LedgerOf(Deliver(s, c)) == LedgerOf(s)
  {
    WaitingSplit(s.waiters, Upto(s.waiters, c));
    CalledMore(s.fired, Below(s.waiters, c + 1), true);
  }

  lemma RegisterLedger(fired: seq<Fired>, ws: seq<Waiter>, w: Waiter)
    ensures Ledger(fired, ws + [w]) == Ledger(fired, ws) + multiset{w.cb}
  {
    assert Waiting(ws + [w]) == Waiting(ws) + [w.cb];
  }

  lemma RegisterOne(x: Watched, i: nat, cb: nat, y: Watched)
    requires RunInv(x) && x.s.localCommitted < i <= |x.s.log| && cb !in x.placed
    requires forall k | 0 <= k < |x.s.waiters| :: x.s.waiters[k].index < i
    requires y == Watched(Register(x.s, i, cb), x.placed[cb := Place(i, x.s.log[i-1])])
    ensures RunInv(y)
  {
    hide Ledger;
    RegisterLedger(x.s.fired, x.s.waiters, Waiter(i, cb));
  }

  lemma {:induction false} WaitKeeps(x: Watched, first: nat, cbs: seq<Option<nat>>)
    requires RunInv(x) && x.s.localCommitted < first && first + |cbs| <= |x.s.log| + 1
    requires forall k | 0 <= k < |x.s.waiters| :: x.s.waiters[k].index < first
    requires FreshCallbacks(x.placed, cbs)
    ensures var y := Wait(x, first, cbs);
      RunInv(y) && y.s == x.s.(waiters := y.s.waiters)
    decreases |cbs|
  {
    hide Ledger;
    if cbs != [] {
      var y := if cbs[0].None? then x
               else Watched(Register(x.s, first, cbs[0].value),
                            x.placed[cbs[0].value := Place(first, x.s.log[first-1])]);
      if cbs[0].Some? { RegisterOne(x, first, cbs[0].value, y); }
      WaitKeeps(y, first + 1, cbs[1..]);
    }
  }

  /** Only the waiters change, and they do so whatever was placed before. */
  lemma {:induction false} WaitInv(x: Watched, first: nat, cbs: seq<Option<nat>>)
    requires Inv(x.s) && x.s.localCommitted < first && first + |cbs| <= |x.s.log| + 1
    requires forall k | 0 <= k < |x.s.waiters| :: x.s.waiters[k].index < first
    ensures Inv(Wait(x, first, cbs).s)
    decreases |cbs|
  {
    if cbs != [] {
      var y := if cbs[0].None? then x
               else Watched(Register(x.s, first, cbs[0].value),
                            x.placed[cbs[0].value := Place(first, x.s.log[first-1])]);
      WaitInv(y, first + 1, cbs[1..]);
    }
  }

  /** The waiters a loop over all callbacks but the last leaves, plus that of the last. */
  lemma {:induction false} WaitLast(x: Watched, first: nat, cbs: seq<Option<nat>>, cb: Option<nat>)
    requires 1 <= first && first + |cbs| < |x.s.log| + 1
    ensures var y, z := Wait(x, first, cbs), Wait(x, first, cbs + [cb]);
      z.s == if cb.None? then y.s else Register(y.s, first + |cbs|, cb.value)
    decreases |cbs|
  {
    if cbs == [] {
      assert (cbs + [cb])[1..] == [];
    } else {
      var y := if cbs[0].None? then x
               else Watched(Register(x.s, first, cbs[0].value),
                            x.placed[cbs[0].value := Place(first, x.s.log[first-1])]);
      assert (cbs + [cb])[1..] == cbs[1..] + [cb];
      WaitLast(y, first + 1, cbs[1..], cb);
    }
  }

  lemma AppendKeeps(x: Watched, start: nat, ents: seq<Entry>)
    requires RunInv(x) && AppendOk(x.s, start, ents)
    ensures RunInv(x.(s := AppendAt(x.s, start, ents)))
  {
    hide Ledger;
    AppendKeepsInv(x.s, start, ents);
    AppendKeepsLedger(x.s, start, ents);
  }

  lemma DeliverSettles(x: Watched, c: nat)
    requires Pending(x) && Settled(x) && x.s.applying <= c <= |x.s.log| && x.s.localCommitted < c
    ensures Settled(x.(s := Deliver(x.s, c))) && Pending(x.(s := Deliver(x.s, c)))
  {
    var y := Deliver(x.s, c);
    var n := Upto(x.s.waiters, c);
    forall k | 0 <= k < |y.fired| && y.fired[k].ok
      ensures y.fired[k].cb in x.placed && Committed(y, x.placed[y.fired[k].cb])
    {
      if k >= |x.s.fired| { assert y.fired[k].cb == x.s.waiters[k - |x.s.fired|].cb; }
    }
  }

  lemma LocalCommitKeeps(x: Watched, c: nat)
    requires Pending(x) && Settled(x) && Once(x) && Bounded(x.s)
    ensures var y := x.(s := LocalCommitTo(x.s, c)); Pending(y) && Settled(y) && Once(y)
  {
    hide Ledger, Pending, Settled, Deliver;
    var m := if c >= x.s.offset then x.s.offset - 1 else c;
    if x.s.localCommitted < m {
      DeliverKeepsLedger(x.s, m);
      DeliverSettles(x, m);
    }
  }

  lemma StableKeeps(x: Watched, i: nat, t: nat)
    requires RunInv(x)
    ensures RunInv(x.(s := StableTo(x.s, i, t)))
  {
    hide Ledger, SortedIn;
    StableKeepsInv(x.s, i, t);
    if Accepts(x.s, i, t) { LocalCommitKeeps(x.(s := x.s.(offset := i + 1)), x.s.committed); }
  }

  lemma CommitKeeps(x: Watched, c: nat)
    requires RunInv(x) && CommitOk(x.s, c)
    ensures RunInv(x.(s := CommitTo(x.s, c)))
  {
    hide Ledger, SortedIn;
    CommitKeepsInv(x.s, c);
    LocalCommitKeeps(x.(s := x.s.(committed := Max(x.s.committed, c))), c);
  }

  lemma ProposeKeeps(x: Watched, ents: seq<Entry>, cbs: seq<Option<nat>>)
    requires RunInv(x) && Enabled(x, Propose(ents, cbs))
    ensures RunInv(After(x, Propose(ents, cbs)))
  {
    hide Ledger, Settled, Once;
    var first := |x.s.log| + 1;
    AppendKeeps(x, first, ents);
    WaitKeeps(x.(s := AppendAt(x.s, first, ents)), first, cbs);
  }

  lemma CursorKeeps(x: Watched, s': LogState)
    requires RunInv(x) && s' == x.s.(applied := s'.applied, compacted := s'.compacted)
    requires s'.compacted <= s'.applied <= s'.applying
    ensures RunInv(x.(s := s'))
  {
    hide Ledger;
  }

  lemma StepKeeps(x: Watched, a: LogAction)
    requires RunInv(x) && Enabled(x, a)
    ensures RunInv(After(x, a))
  {
    hide Pending, Settled, Once;
    match a {
      case Append(start, ents) => AppendKeeps(x, start, ents);
      case Propose(ents, cbs) => ProposeKeeps(x, ents, cbs);
      case Stable(i, t) => StableKeeps(x, i, t);
      case Commit(c) => CommitKeeps(x, c);
      case Applied(i) => CursorKeeps(x, AppliedTo(x.s, i));
      case Compact(i) => CursorKeeps(x, CompactTo(x.s, i));
    }
  }

  // ---------------------------------------------------------------------------
  // The Apply stream
  // ---------------------------------------------------------------------------

  function Flat(batches: seq<seq<Entry>>): seq<Entry> {
    if batches == [] then [] else Flat(batches[..|batches|-1]) + batches[|batches|-1]
  }

  /** All batches together are the log from `base` up to `applying`. */
  ghost predicate Streams(s: LogState, base: nat) {
    base <= s.applying <= |s.log| && Flat(s.applies) == s.log[base..s.applying]
  }

  /** What is committed stays as it is; what was applied or called stays applied or called. */
  ghost predicate Kept(s: LogState, s': LogState) {
    && s.committed <= s'.committed && s.committed <= |s.log| && s.committed <= |s'.log|
    && s'.log[..s.committed] == s.log[..s.committed]
    && s.applies <= s'.applies && s.fired <= s'.fired && s.localCommitted <= s'.localCommitted
  }

  lemma DeliverStreams(s: LogState, c: nat, base: nat)
    requires s.applying <= c <= |s.log| && Streams(s, base)
    ensures Streams(Deliver(s, c), base)
  {
    var batches := Deliver(s, c).applies;
    assert batches[..|batches|-1] == s.applies;
    assert s.log[base..c] == s.log[base..s.applying] + s.log[s.applying..c];
  }

  lemma {:induction false} WaitShape(x: Watched, first: nat, cbs: seq<Option<nat>>)
    requires 1 <= first && first + |cbs| <= |x.s.log| + 1
    ensures Wait(x, first, cbs).s == x.s.(waiters := Wait(x, first, cbs).s.waiters)
    ensures forall c | c in x.placed && Some(c) !in cbs :: c in Wait(x, first, cbs).placed
              && Wait(x, first, cbs).placed[c] == x.placed[c]
    decreases |cbs|
  {
    if cbs != [] {
      var y := if cbs[0].None? then x
               else Watched(Register(x.s, first, cbs[0].value),
                            x.placed[cbs[0].value := Place(first, x.s.log[first-1])]);
      WaitShape(y, first + 1, cbs[1..]);
    }
  }

  lemma AppendStreams(s: LogState, start: nat, ents: seq<Entry>, base: nat)
    requires Inv(s) && AppendOk(s, start, ents) && Streams(s, base)
    ensures Streams(AppendAt(s, start, ents), base) && Kept(s, AppendAt(s, start, ents))
  {
    AppendKeepsInv(s, start, ents);
    var s' := AppendAt(s, start, ents);
    SliceOfTake(s'.log, s.committed, base, s.applying);
    SliceOfTake(s.log, s.committed, base, s.applying);
  }

  lemma LocalCommitStreams(s: LogState, c: nat, base: nat)
    requires Bounded(s) && Streams(s, base) && s.committed <= |s.log|
    ensures Streams(LocalCommitTo(s, c), base) && Kept(s, LocalCommitTo(s, c))
  {
    var m := if c >= s.offset then s.offset - 1 else c;
    if s.localCommitted < m { DeliverStreams(s, m, base); }
  }

  lemma ProposeStreams(x: Watched, ents: seq<Entry>, cbs: seq<Option<nat>>, base: nat)
    requires Inv(x.s) && Enabled(x, Propose(ents, cbs)) && Streams(x.s, base)
    ensures Streams(After(x, Propose(ents, cbs)).s, base) && Kept(x.s, After(x, Propose(ents, cbs)).s)
  {
    hide CursorChain, SortedIn, Upto;
    var first := |x.s.log| + 1;
    AppendStreams(x.s, first, ents, base);
    WaitShape(x.(s := AppendAt(x.s, first, ents)), first, cbs);
  }

  lemma StepStreams(x: Watched, a: LogAction, base: nat)
    requires Inv(x.s) && Enabled(x, a) && Streams(x.s, base)
    ensures Streams(After(x, a).s, base) && Kept(x.s, After(x, a).s)
  {
    hide SortedIn, Upto, Flat, AppendAt, Deliver, Wait;
    match a {
      case Append(start, ents) => AppendStreams(x.s, start, ents, base);
      case Propose(ents, cbs) =>
        ProposeStreams(x, ents, cbs, base);
      case Stable(i, t) =>
        if Accepts(x.s, i, t) { LocalCommitStreams(x.s.(offset := i + 1), x.s.committed, base); }
      case Commit(c) => LocalCommitStreams(x.s.(committed := Max(x.s.committed, c)), c, base);
      case Applied(i) =>
      case Compact(i) =>
    }
  }

  // ---------------------------------------------------------------------------
  // Theorems over runs
  // ---------------------------------------------------------------------------

  lemma OpenedInv(x: Watched)
    requires Opened(x)
    ensures RunInv(x) && Streams(x.s, x.s.applying)
  {
  }

  lemma KeptTrans(a: LogState, b: LogState, c: LogState)
    requires Kept(a, b) && Kept(b, c)
    ensures Kept(a, c)
  {
    assert c.log[..a.committed] == c.log[..b.committed][..a.committed];
  }

  lemma {:induction false} RunKeeps(xs: seq<Watched>, acts: seq<LogAction>, i: nat, j: nat)
    requires IsRun(xs, acts) && i <= j < |xs|
    ensures RunInv(xs[j]) && Streams(xs[j].s, xs[0].s.applying) && Kept(xs[i].s, xs[j].s)
    decreases j
  {
    if j == 0 {
      OpenedInv(xs[0]);
    } else {
      RunKeeps(xs, acts, if i == j then j - 1 else i, j - 1);
      StepKeeps(xs[j-1], acts[j-1]);
      StepStreams(xs[j-1], acts[j-1], xs[0].s.applying);
      if i < j { KeptTrans(xs[i].s, xs[j-1].s, xs[j].s); }
    }
  }

  /** The cursor chain holds between any two operations. */
  lemma CursorChainInRuns(xs: seq<Watched>, acts: seq<LogAction>, i: nat)
    requires IsRun(xs, acts) && i < |xs|
    ensures CursorChain(xs[i].s)
  {
    RunKeeps(xs, acts, i, i);
  }

  /** The cursors that only operations of their own move, and that they never move back. */
  ghost predicate Forward(s: LogState, s': LogState) {
    s.applied <= s'.applied && s.compacted <= s'.compacted && s.localCommitted <= s'.localCommitted
    && s.committed <= s'.committed
  }

  /** What the operation asked for, or reported, is so afterwards. */
  ghost predicate Heeded(s: LogState, a: LogAction, s': LogState) {
    match a
    case Commit(c) => s'.committed >= c
    case Stable(i, t) => Accepts(s, i, t) ==> s'.localCommitted >= Min(s.committed, i)
    case Applied(i) => s'.applied >= i
    case Compact(i) => s'.compacted >= Min(s.applied, i)
    case _ => true
  }

  /** Whatever has become locally committed has been handed to the application. */
  ghost predicate HandedOver(s: LogState, s': LogState) {
    (s'.localCommitted == s.localCommitted && s'.applying == s.applying) || s'.applying == s'.localCommitted
  }

  lemma StepHeeds(x: Watched, a: LogAction)
    requires Inv(x.s) && Enabled(x, a)
    ensures var s' := After(x, a).s; Forward(x.s, s') && Heeded(x.s, a, s') && HandedOver(x.s, s')
  {
    hide SortedIn, Upto, Fire, Wait;
    if a.Propose? {
      var first := |x.s.log| + 1;
      WaitShape(x.(s := AppendAt(x.s, first, a.ents)), first, a.cbs);
    }
  }

  lemma {:induction false} RunForward(xs: seq<Watched>, acts: seq<LogAction>, i: nat, j: nat)
    requires IsRun(xs, acts) && i <= j < |xs|
    ensures Forward(xs[i].s, xs[j].s)
    ensures xs[j].s.localCommitted == xs[0].s.localCommitted || xs[j].s.applying == xs[j].s.localCommitted
    decreases j
  {
    hide Enabled, After, RunInv, Inv, Streams, Kept;
    if j > 0 {
      RunForward(xs, acts, if i == j then j - 1 else i, j - 1);
      RunKeeps(xs, acts, j - 1, j - 1);
      InvOf(xs[j-1]);
      StepHeeds(xs[j-1], acts[j-1]);
    }
  }

  lemma InvOf(x: Watched)
    requires RunInv(x)
    ensures Inv(x.s)
  {
  }

  /**
   * Requests and reports are heeded, for good: from the operation at step i on, what
   * it asked to commit is committed, what it reported persisted is locally committed
   * as far as it is committed, and what it reported applied or asked to compact is
   * so; and everything that has become locally committed is handed to the application.
   */
  lemma HeededInRuns(xs: seq<Watched>, acts: seq<LogAction>, i: nat, j: nat)
    requires IsRun(xs, acts) && i < j < |xs|
    ensures Heeded(xs[i].s, acts[i], xs[j].s)
    ensures xs[j].s.localCommitted > xs[0].s.localCommitted ==> xs[j].s.applying == xs[j].s.localCommitted
  {
    hide Enabled, After, RunInv, Inv, Streams, Kept;
    RunKeeps(xs, acts, i, i);
    InvOf(xs[i]);
    StepHeeds(xs[i], acts[i]);
    RunForward(xs, acts, i + 1, j);
  }

  /**
   * Exactly-once apply: at every moment the batches handed to the application
   * concatenate to the log between where it resumed and `applying`, and no
   * applied entry is ever rewritten.
   */
  lemma AppliedOnceInRuns(xs: seq<Watched>, acts: seq<LogAction>, i: nat, j: nat)
    requires IsRun(xs, acts) && i <= j < |xs|
    ensures xs[0].s.applying <= xs[i].s.applying <= |xs[i].s.log| && xs[i].s.applying <= |xs[j].s.log|
    ensures Flat(xs[i].s.applies) == xs[i].s.log[xs[0].s.applying..xs[i].s.applying]
    ensures xs[i].s.applies <= xs[j].s.applies
    ensures xs[j].s.log[..xs[i].s.applying] == xs[i].s.log[..xs[i].s.applying]
  {
    RunKeeps(xs, acts, i, i);
    RunKeeps(xs, acts, i, j);
    var s, s' := xs[i].s, xs[j].s;
    SliceOfTake(s'.log, s.committed, 0, s.applying);
    SliceOfTake(s.log, s.committed, 0, s.applying);
  }

  /** No callback is called twice, and none that was called is still waiting. */
  lemma CalledOnceInRuns(xs: seq<Watched>, acts: seq<LogAction>, i: nat, c: nat)
    requires IsRun(xs, acts) && i < |xs|
    ensures multiset(Called(xs[i].s.fired))[c] + multiset(Waiting(xs[i].s.waiters))[c] ==
            if c in xs[i].placed then 1 else 0
  {
    RunKeeps(xs, acts, i, i);
    assert LedgerOf(xs[i].s)[c] == if c in xs[i].placed then 1 else 0;
  }

  /** A callback is called with nil only if the very entry it was registered for is locally committed. */
  lemma NilMeansCommitted(xs: seq<Watched>, acts: seq<LogAction>, i: nat, k: nat)
    requires IsRun(xs, acts) && i < |xs| && k < |xs[i].s.fired| && xs[i].s.fired[k].ok
    ensures xs[i].s.fired[k].cb in xs[i].placed
    ensures Committed(xs[i].s, xs[i].placed[xs[i].s.fired[k].cb])
  {
    RunKeeps(xs, acts, i, i);
  }

  /** An append that cuts the log at or below this entry, which is there until then. */
  predicate Cuts(x: Watched, a: LogAction, p: Place) {
    a.Append? && a.ents != [] && a.start <= p.index <= |x.s.log| && p.index >= 1 && x.s.log[p.index-1] == p.entry
  }

  lemma PlacedStays(x: Watched, a: LogAction, c: nat)
    requires Inv(x.s) && Enabled(x, a) && c in x.placed
    ensures c in After(x, a).placed && After(x, a).placed[c] == x.placed[c]
  {
    if a.Propose? {
      var first := |x.s.log| + 1;
      WaitShape(x.(s := AppendAt(x.s, first, a.ents)), first, a.cbs);
    }
  }

  lemma AppendDrops(x: Watched, start: nat, ents: seq<Entry>, k: nat)
    requires SortedIn(x.s.waiters, x.s.localCommitted, |x.s.log|) && Pending(x) && AppendOk(x.s, start, ents)
    requires |x.s.fired| <= k < |AppendAt(x.s, start, ents).fired|
    ensures AppendAt(x.s, start, ents).fired[k].cb in x.placed
    ensures Cuts(x, Append(start, ents), x.placed[AppendAt(x.s, start, ents).fired[k].cb])
  {
    var ws, n := x.s.waiters, Upto(x.s.waiters, start - 1);
    var i := n + k - |x.s.fired|;
    assert ws[n].index <= ws[i].index;
    assert AppendAt(x.s, start, ents).fired[k] == Fired(ws[i].cb, false);
  }

  lemma LocalCommitDropsNone(s: LogState, c: nat)
    requires Bounded(s)
    ensures forall k | |s.fired| <= k < |LocalCommitTo(s, c).fired| :: LocalCommitTo(s, c).fired[k].ok
  {
  }

  /** A single step drops a waiter only by cutting its entry out of the log. */
  lemma StepDrops(x: Watched, a: LogAction, k: nat)
    requires Inv(x.s) && Pending(x) && Enabled(x, a)
    requires |x.s.fired| <= k < |After(x, a).s.fired| && !After(x, a).s.fired[k].ok
    ensures After(x, a).s.fired[k].cb in x.placed && Cuts(x, a, x.placed[After(x, a).s.fired[k].cb])
  {
    hide LocalCommitTo, Pending, CursorChain, SortedIn, Upto;
    match a {
      case Append(start, ents) => AppendDrops(x, start, ents, k);
      case Propose(ents, cbs) =>
        var first := |x.s.log| + 1;
        WaitShape(x.(s := AppendAt(x.s, first, ents)), first, cbs);
        AppendDrops(x, first, ents, k);
      case Stable(i, t) =>
        if Accepts(x.s, i, t) { LocalCommitDropsNone(x.s.(offset := i + 1), x.s.committed); }
      case Commit(c) => LocalCommitDropsNone(x.s.(committed := Max(x.s.committed, c)), c);
      case _ =>
    }
  }

  /** A callback is called with ErrProposalDropped only if its entry was cut out of the log before. */
  lemma {:induction false} DroppedMeansCut(xs: seq<Watched>, acts: seq<LogAction>, j: nat, k: nat)
    requires IsRun(xs, acts) && j < |xs| && k < |xs[j].s.fired| && !xs[j].s.fired[k].ok
    ensures xs[j].s.fired[k].cb in xs[j].placed
    ensures exists i :: 0 <= i < j && Cuts(xs[i], acts[i], xs[j].placed[xs[j].s.fired[k].cb])
    decreases j
  {
    RunKeeps(xs, acts, 0, 0);
    var i := j - 1;
    RunKeeps(xs, acts, i, i);
    RunKeeps(xs, acts, i, j);
    if k < |xs[i].s.fired| {
      DroppedMeansCut(xs, acts, i, k);
    } else {
      StepDrops(xs[i], acts[i], k);
    }
    PlacedStays(xs[i], acts[i], xs[j].s.fired[k].cb);
  }
}
