// One membership change at a time: pendingConfIndex at the leader (becomeLeader,
// proposeLeader and MsgApplyStatus of raft/raft.go).
module ConfGate {
  import opened PlainLog

  /** An entry as proposed; `leaves` if it is a conf change without changes, which leaves a joint config. */
  datatype Proposal = Proposal(entry: Entry, leaves: bool)

  /** The leader's log, what is applied of it, and its config as far as proposals look at it. */
  datatype Lead = Lead(log: Log, applied: nat, pending: nat, joint: bool, autoLeave: bool)

  datatype Step =
    | Propose(props: seq<Proposal>, room: bool)   // `room`: the uncommitted-size quota has room
    | ApplyStatus(index: nat)
    | Switch(joint: bool, autoLeave: bool)        // the application applied a conf change

  const LEAVE := Entry(0, ConfChange, 0, 0)
  const NOTHING := Entry(0, Normal, 0, 0)

  // ---------------------------------------------------------------------------
  // Steps
  // ---------------------------------------------------------------------------

  predicate Refused(s: Lead, pending: nat, p: Proposal) {
    pending > s.applied || (s.joint && !p.leaves) || (!s.joint && p.leaves)
  }

  /** The entries of a batch after the gate, and pendingConfIndex then. */
  datatype Gated = Gated(ents: seq<Entry>, pending: nat)

  function Gate(s: Lead, props: seq<Proposal>): (g: Gated)
    ensures |g.ents| == |props|
  {
    if props == [] then Gated([], s.pending)
    else
      var g := Gate(s, props[..|props|-1]);
      var p := props[|props|-1];
      if p.entry.kind == Normal then Gated(g.ents + [p.entry], g.pending)
      else if Refused(s, g.pending, p) then Gated(g.ents + [NOTHING], g.pending)
      else Gated(g.ents + [p.entry], |s.log| + |props|)
  }

  function AfterApply(s: Lead, index: nat): Lead {
    var t := if index == 0 then s else s.(applied := index);
    if s.autoLeave && s.applied <= s.pending <= index
    then t.(log := s.log + [LEAVE], pending := |s.log| + 1) else t
  }

  /** appliedTo does not panic; it gets at most what is in the log. */
  predicate Enabled(s: Lead, a: Step) { a.ApplyStatus? ==> a.index == 0 || s.applied <= a.index <= |s.log| }

  function After(s: Lead, a: Step): Lead {
    match a
    case Propose(props, room) =>
      var g := Gate(s, props);
      s.(pending := g.pending, log := if room then s.log + g.ents else s.log)
    case ApplyStatus(i) => AfterApply(s, i)
    case Switch(joint, autoLeave) => s.(joint := joint, autoLeave := autoLeave)
  }

  /** becomeLeader: pendingConfIndex is the last index before the leader's empty entry. */
  predicate Elected(s: Lead, base: nat) {
    |s.log| == base + 1 && s.log[base].kind == Normal && s.pending == base && s.applied <= base
  }

  /** The steps of a leader elected with `base` entries in its log. */
  ghost predicate IsTerm(ss: seq<Lead>, acts: seq<Step>, base: nat) {
    && |ss| == |acts| + 1 && Elected(ss[0], base)
    && forall i | 0 <= i < |acts| :: Enabled(ss[i], acts[i]) && ss[i+1] == After(ss[i], acts[i])
  }

  // ---------------------------------------------------------------------------
  // The invariant
  // ---------------------------------------------------------------------------

  predicate IsConf(log: Log, i: nat) { 1 <= i <= |log| && log[i-1].kind == ConfChange }

  ghost predicate Covered(s: Lead) {
    s.applied <= |s.log| && forall i: nat | IsConf(s.log, i) :: i <= s.pending
  }

  /** Of two conf changes, the second from this term, the first is applied. */
  ghost predicate OneOpen(s: Lead, base: nat) {
    forall i: nat, j: nat | i < j && base < j && IsConf(s.log, i) && IsConf(s.log, j) :: i <= s.applied
  }

  /** The gate lets at most one conf change through, and only when everything up to pendingConfIndex is applied. */
  lemma {:induction false} GateOne(s: Lead, props: seq<Proposal>)
    requires s.applied <= |s.log|
    ensures var g := Gate(s, props);
      && (forall i | 0 <= i < |g.ents| && g.ents[i].kind == ConfChange ::
            g.pending == |s.log| + i + 1 && s.pending <= s.applied)
      && ((exists i :: 0 <= i < |g.ents| && g.ents[i].kind == ConfChange) || g.pending == s.pending)
      && (g.pending == s.pending || g.pending > |s.log|)
    decreases |props|
  {
    if props != [] {
      var most := props[..|props|-1];
      GateOne(s, most);
      var g, f := Gate(s, props), Gate(s, most);
      assert forall i | 0 <= i < |f.ents| :: g.ents[i] == f.ents[i];
      if i :| 0 <= i < |f.ents| && f.ents[i].kind == ConfChange { assert g.ents[i].kind == ConfChange; }
      if f.pending == s.pending && g.pending != s.pending { assert g.ents[|g.ents|-1].kind == ConfChange; }
    }
  }

  /** A conf change that fits the config: one that leaves, if and only if the config is joint. */
  predicate Fits(s: Lead, p: Proposal) { p.entry.kind == ConfChange && (s.joint <==> p.leaves) }

  /** The first conf change of the batch that fits the config, when nothing is pending. */
  ghost predicate Passes(s: Lead, props: seq<Proposal>, i: nat) {
    i < |props| && s.pending <= s.applied && Fits(s, props[i]) && forall k | 0 <= k < i :: !Fits(s, props[k])
  }

  /**
   * The gate keeps normal entries and the one conf change that passes as they are,
   * turns every other conf change into an empty entry, and notes the one that passed.
   */
  lemma {:induction false} GateExact(s: Lead, props: seq<Proposal>)
    requires s.applied <= |s.log|
    ensures var g := Gate(s, props);
      && (forall i | 0 <= i < |props| ::
            g.ents[i] == if props[i].entry.kind == Normal || Passes(s, props, i) then props[i].entry else NOTHING)
      && (forall i: nat | Passes(s, props, i) :: g.pending == |s.log| + i + 1)
      && ((forall i: nat | i < |props| :: !Passes(s, props, i)) ==> g.pending == s.pending)
    decreases |props|
  {
    if props != [] {
      var n := |props| - 1;
      var most := props[..n];
      GateExact(s, most);
      forall i: nat ensures Passes(s, most, i) <==> i < n && Passes(s, props, i) {
        assert i < n ==> most[i] == props[i] && forall k | 0 <= k < i :: most[k] == props[k];
      }
      if !Passes(s, props, n) && s.pending <= s.applied && Fits(s, props[n]) {
        var k := FirstFit(s, props, n);
        assert Passes(s, props, k);
      }
    }
  }

  lemma FirstFit(s: Lead, props: seq<Proposal>, n: nat) returns (k: nat)
    requires n < |props| && exists j :: 0 <= j < n && Fits(s, props[j])
    ensures k < n && Fits(s, props[k]) && forall j | 0 <= j < k :: !Fits(s, props[j])
  {
    k := 0;
    while !Fits(s, props[k])
      invariant k < n && forall j | 0 <= j < k :: !Fits(s, props[j])
      decreases n - k
    {
      k := k + 1;
    }
  }

  lemma ProposeKeeps(s: Lead, props: seq<Proposal>, room: bool, base: nat)
    requires Covered(s) && OneOpen(s, base)
    ensures var t := After(s, Propose(props, room)); Covered(t) && OneOpen(t, base)
  {
    GateOne(s, props);
    var g, t := Gate(s, props), After(s, Propose(props, room));
    forall i: nat | IsConf(t.log, i) ensures i <= t.pending && (i <= |s.log| ==> IsConf(s.log, i)) {
      if i > |s.log| { assert g.ents[i - |s.log| - 1].kind == ConfChange; } else { assert IsConf(s.log, i); }
    }
    forall i: nat, j: nat | i < j && base < j && IsConf(t.log, i) && IsConf(t.log, j) ensures i <= t.applied {
      if j > |s.log| { assert g.ents[j - |s.log| - 1].kind == ConfChange; }
    }
  }

  lemma ApplyKeeps(s: Lead, index: nat, base: nat)
    requires Covered(s) && OneOpen(s, base) && Enabled(s, ApplyStatus(index))
    ensures Covered(AfterApply(s, index)) && OneOpen(AfterApply(s, index), base)
  {
    var t := AfterApply(s, index);
    forall i: nat | IsConf(t.log, i) ensures i <= t.pending && (i <= |s.log| ==> IsConf(s.log, i)) {}
  }

  lemma {:induction false} TermKeeps(ss: seq<Lead>, acts: seq<Step>, base: nat, i: nat)
    requires IsTerm(ss, acts, base) && i < |ss|
    ensures Covered(ss[i]) && OneOpen(ss[i], base)
    decreases i
  {
    if i > 0 {
      TermKeeps(ss, acts, base, i - 1);
      match acts[i-1] {
        case Propose(props, room) => ProposeKeeps(ss[i-1], props, room, base);
        case ApplyStatus(index) => ApplyKeeps(ss[i-1], index, base);
        case Switch(_, _) =>
      }
    }
  }

  /** In every leader state, no conf change lies above pendingConfIndex. */
  lemma PendingCovers(ss: seq<Lead>, acts: seq<Step>, base: nat, i: nat, k: nat)
    requires IsTerm(ss, acts, base) && i < |ss| && IsConf(ss[i].log, k)
    ensures k <= ss[i].pending
  {
    TermKeeps(ss, acts, base, i);
  }

  /**
   * One membership change at a time: whenever a leader's log holds a conf change
   * of its own term, every conf change before it is already applied there.
   */
  lemma OneChangeAtATime(ss: seq<Lead>, acts: seq<Step>, base: nat, i: nat, j: nat, k: nat)
    requires IsTerm(ss, acts, base) && i < |ss| && j < k && base < k && IsConf(ss[i].log, j) && IsConf(ss[i].log, k)
    ensures j <= ss[i].applied
  {
    TermKeeps(ss, acts, base, i);
  }

  /** A leader's log only grows. */
  lemma {:induction false} LogGrows(ss: seq<Lead>, acts: seq<Step>, base: nat, i: nat, j: nat)
    requires IsTerm(ss, acts, base) && i <= j < |ss|
    ensures IsPrefix(ss[i].log, ss[j].log) && ss[i].applied <= ss[j].applied
    decreases j
  {
    if i < j {
      LogGrows(ss, acts, base, i, j - 1);
      var a, b := ss[j-1].log, ss[j].log;
      assert IsPrefix(a, b);
      SliceOfTake(b, |a|, 0, |ss[i].log|);
    }
  }

  /**
   * The automatic leave: when a leader of an auto-leave config has applied up to
   * pendingConfIndex, its log gets the entry that leaves, for good, and nothing
   * else passes the gate until that entry is applied. In no other case does a
   * report of the application change the log.
   */
  lemma LeavesByItself(ss: seq<Lead>, acts: seq<Step>, base: nat, i: nat, index: nat, j: nat)
    requires IsTerm(ss, acts, base) && i < |acts| && acts[i] == ApplyStatus(index) && i < j < |ss|
    ensures var k := |ss[i].log| + 1;
      if ss[i].autoLeave && ss[i].applied <= ss[i].pending <= index
      then |ss[j].log| >= k && ss[j].log[k-1] == LEAVE &&
           forall m: nat | ss[j].applied < k && IsConf(ss[j].log, m) :: m <= k
      else ss[i+1].log == ss[i].log
  {
    var k := |ss[i].log| + 1;
    assert ss[i+1] == AfterApply(ss[i], index);
    if ss[i].autoLeave && ss[i].applied <= ss[i].pending <= index {
      LogGrows(ss, acts, base, 0, i);
      LogGrows(ss, acts, base, i + 1, j);
      assert ss[j].log[k-1] == ss[j].log[..k][k-1];
      TermKeeps(ss, acts, base, i);
      TermKeeps(ss, acts, base, j);
      forall m: nat | ss[j].applied < k && IsConf(ss[j].log, m) ensures m <= k {
        assert IsConf(ss[j].log, k);
      }
    }
  }

  // ---------------------------------------------------------------------------
  // The code
  // ---------------------------------------------------------------------------

  class Leader {
    var log: Log
    var applied: nat
    var pending: nat
    var joint: bool
    var autoLeave: bool

    ghost function View(): Lead
      reads this
    {
      Lead(log, applied, pending, joint, autoLeave)
    }

    /** becomeLeader. */
    constructor (log: Log, applied: nat, joint: bool, autoLeave: bool)
      requires applied <= |log|
      ensures Elected(View(), |log|) && this.log[..|log|] == log
    {
      this.log, this.applied, this.joint, this.autoLeave := log + [NOTHING], applied, joint, autoLeave;
      pending := |log|;
    }

    /** proposeLeader: refused conf changes become empty entries in place. */
    method Propose(props: seq<Proposal>, room: bool) returns (accepted: bool)
      modifies `log, `pending
      ensures View() == After(old(View()), Step.Propose(props, room)) && accepted == room
    {
      ghost var s := View();
      var ents := [];
      var i := 0;
      while i < |props|
        invariant i <= |props| && log == s.log && Gated(ents, pending) == Gate(s, props[..i])
      {
        var p := props[i];
        assert props[..i+1][..i] == props[..i];
        if p.entry.kind == Normal {
          ents := ents + [p.entry];
        } else if pending > applied || (joint && !p.leaves) || (!joint && p.leaves) {
          ents := ents + [NOTHING];
        } else {
          ents := ents + [p.entry];
          pending := |log| + i + 1;
        }
        i := i + 1;
      }
      assert props[..i] == props;
      accepted := room;
      if accepted { log := log + ents; }
    }

    /** MsgApplyStatus at the leader; leaves a joint config by itself when told to. */
    method ApplyStatus(index: nat)
      requires Enabled(View(), Step.ApplyStatus(index))
      modifies `log, `pending, `applied
      ensures View() == AfterApply(old(View()), index)
    {
      var oldApplied := applied;
      if index != 0 { applied := index; }
      if autoLeave && oldApplied <= pending && index >= pending {
        log := log + [LEAVE];
        pending := |log|;
      }
    }
  }
}
