// The follower side: appends, heartbeats and acknowledgements of persisted entries.
module FollowerSteps {
  import opened Quorum
  import opened PlainLog
  import opened RaftNode
  import opened Protocol
  import opened Election
  import opened History
  import opened Replication
  import opened Lift
  import opened CalmSteps
  import opened VotingSteps

  // ---------------------------------------------------------------------------
  // Committed entries are in the current leader's log
  // ---------------------------------------------------------------------------

  lemma ChoiceCarried(cfg: JointConfig, h: Hist, x: Choice, t: nat)
    requires HistL(cfg, h) && ChoiceOk(cfg, h, x) && x.term <= t && t in h.llog
    ensures Agree(h.llog[t], h.llog[x.term], x.index)
  {
    if x.term < t { LeaderCompleteness(cfg, h, x, t); }
  }

  lemma CommitCarried(cfg: JointConfig, h: Hist, t: nat, log: Log, c: nat, t': nat)
    requires HistL(cfg, h) && SafeCommit(h, t, log, c) && t <= t' && t' in h.llog && c > 0
    ensures Agree(log, h.llog[t'], c)
  {
    var x :| x in h.chosen && SafeBy(h, t, log, c, x);
    assert ChosenOk(cfg, h);
    ChoiceCarried(cfg, h, x, t');
    AgreeDown(h.llog[t'], h.llog[x.term], x.index, c);
  }

  lemma SafeCommitDown(h: Hist, t: nat, log: Log, c: nat, c': nat)
    requires SafeCommit(h, t, log, c) && c' <= c
    ensures SafeCommit(h, t, log, c')
  {
    if c' > 0 {
      var x :| x in h.chosen && SafeBy(h, t, log, c, x);
      AgreeDown(log, h.llog[x.term], c, c');
      assert SafeBy(h, t, log, c', x);
    }
  }

  // ---------------------------------------------------------------------------
  // Acknowledging
  // ---------------------------------------------------------------------------

  /** A log that is a prefix of the leader's supports any acknowledgement it can make. */
  lemma PrefixAck(h: Hist, n: Node, i: nat)
    requires n.term in h.llog && IsPrefix(n.log, h.llog[n.term]) && i <= |n.log|
    ensures AckL(h, Ack(n.id, n.term, i), n)
  {
    forall k | 1 <= k <= i ensures Kept(h, n.term, k, n.log, n.term) {
      assert n.log[..k] == h.llog[n.term][..|n.log|][..k];
    }
  }

  lemma ZeroAck(h: Hist, n: Node)
    ensures AckL(h, Ack(n.id, n.term, 0), n)
  {
  }

  /** A calm step of a non-leader that sends one acknowledgement. */
  lemma AckStep(s: Sys, v: NodeId, n': Node, to: NodeId, i: nat)
    requires Here(s, v) && CalmNode(s.nodes[v], n') && n'.role != Leader
    requires AckL(s.h, Ack(v, s.nodes[v].term, i), s.nodes[v])
    ensures Owed(s, v, Out(n', {AppResp(v, to, s.nodes[v].term, i)}, []))
  {
    var n := s.nodes[v];
    var out := Out(n', {AppResp(v, to, n.term, i)}, []);
    assert NewAcks(out) == {Ack(v, n.term, i)};
    CalmStep(s.cfg, s.h, s.nodes, n, out);
  }

  lemma LogStatusFollower(s: Sys, v: NodeId, i: nat, t: nat, mci: nat)
    requires Here(s, v) && s.nodes[v].role != Leader
    ensures Owed(s, v, HandleLogStatus(s.nodes[v], i, t, mci))
  {
    var n := s.nodes[v];
    if StableToOk(n, i, t) && n.role == Follower && n.receiving {
      PrefixAck(s.h, n, i);
      AckStep(s, v, n.(offset := i + 1), n.lead, i);
    } else {
      CalmFollower(s, v, HandleLogStatus(n, i, t, mci));
    }
  }

  // ---------------------------------------------------------------------------
  // Accepting an append
  // ---------------------------------------------------------------------------

  /** Matching at the previous index means agreeing with the leader up to it. */
  lemma MatchAgrees(h: Hist, n: Node, t: nat, p: nat)
    requires TermsOk(h) && LogL(h, n) && t in h.llog && p <= |h.llog[t]|
    requires TermAt(n.log, p) == TermAt(h.llog[t], p)
    ensures p <= |n.log| && Agree(n.log, h.llog[t], p)
  {
    assert TermOk(h, t);
    if p > 0 {
      LeaderTerms(h, t, p - 1);
      LogMatching(h, n.log, h.llog[t], p);
    }
  }

  /** A log that agrees with L up to a cut, continued with what L has after it. */
  lemma CutJoins(log: Log, L: Log, p: nat, ents: seq<Entry>, c: nat)
    requires p < c <= p + |ents| <= |L| && Agree(log, L, c - 1)
    requires forall i | 0 <= i < |ents| :: ents[i] == L[p + i]
    ensures Agree(log[..c-1] + ents[c-1-p..], L, p + |ents|)
  {
    var a := log[..c-1] + ents[c-1-p..];
    forall k | 0 <= k < |a| ensures a[k] == L[k] {
      if k < c - 1 { AgreeAt(log, L, c - 1, k); } else { assert ents[k - p] == L[p + (k - p)]; }
    }
    assert a[..p + |ents|] == L[..p + |ents|];
  }

  /** After accepting, the log agrees with the leader's through the last entry sent. */
  lemma AcceptAgrees(h: Hist, log: Log, L: Log, p: nat, ents: seq<Entry>)
    requires GoodLog(h, log) && GoodLog(h, L) && Agree(log, L, p)
    requires p + |ents| <= |L| && (forall i | 0 <= i < |ents| :: ents[i] == L[p + i])
    requires forall i | 0 <= i < |L| :: L[i].term >= 1
    ensures Agree(Accept(log, p, ents), L, p + |ents|)
    ensures FindConflict(log, p, ents) <= |log| + 1
  {
    hide FindConflict, GoodLog;
    var c := FindConflict(log, p, ents);
    if c == 0 {
      if |ents| > 0 {
        assert TermAt(log, p + 1 + (|ents| - 1)) == ents[|ents|-1].term;
        assert ents[|ents|-1] == L[p + (|ents| - 1)];
        LogMatching(h, log, L, p + |ents|);
      }
    } else {
      if c - 1 > p {
        assert TermAt(log, p + 1 + (c - 2 - p)) == ents[c-2-p].term;
        assert ents[c-2-p] == L[p + (c - 2 - p)];
        LogMatching(h, log, L, c - 1);
      }
      CutJoins(log, L, p, ents, c);
    }
  }

  lemma CutAgrees(log: Log, tail: Log, c: nat, k: nat)
    requires k <= c <= |log|
    ensures Agree(log[..c] + tail, log, k)
  {
    assert (log[..c] + tail)[..k] == log[..k];
  }

  /** Accepting never removes an entry that agrees with the sender's log. */
  lemma AcceptKeeps(log: Log, L: Log, p: nat, ents: seq<Entry>, k: nat)
    requires p <= |log| && p + |ents| <= |L|
    requires forall i | 0 <= i < |ents| :: ents[i] == L[p + i]
    requires Agree(L, log, k)
    ensures Agree(Accept(log, p, ents), log, k)
  {
    var c := FindConflict(log, p, ents);
    if c != 0 && c <= |log| + 1 {
      assert ents[c-1-p] == L[p + (c - 1 - p)];
      if k > 0 { AgreeAt(L, log, k, Min(c, k) - 1); }
      CutAgrees(log, ents[c-1-p..], c - 1, k);
    }
  }

  /** A log whose last entry is of the leader's term is a prefix of the leader's log. */
  lemma OwnTermPrefix(h: Hist, n: Node, k: nat)
    requires TermsOk(h) && LogL(h, n) && k < |n.log| && n.log[k].term == n.term
    ensures n.term in h.llog && IsPrefix(n.log, h.llog[n.term])
  {
    GoodLogMonotone(h, n.log, k, |n.log| - 1);
    assert GoodAt(h, n.log, |n.log|);
    assert n.log[..|n.log|] == n.log;
  }

  lemma FullAgree(a: Log, b: Log, k: nat)
    requires Agree(a, b, k) && |a| == k
    ensures IsPrefix(a, b)
  {
    assert a[..k] == a;
  }

  /** The first append accepted in a term leaves no foreign tail: probes never undershoot. */
  lemma AcceptSettles(h: Hist, n: Node, p: nat, ents: seq<Entry>)
    requires TermsOk(h) && LogL(h, n) && n.term in h.llog && n.term in h.base && ProbeOk(h, n, n.term, p)
    requires Slice(h, n.term, p, ents) && (p <= h.base[n.term] ==> ents != [])
    requires p <= |n.log| && TermAt(n.log, p) == TermAt(h.llog[n.term], p)
    requires FindConflict(n.log, p, ents) <= |n.log| + 1
    requires Agree(Accept(n.log, p, ents), h.llog[n.term], p + |ents|)
    ensures IsPrefix(Accept(n.log, p, ents), h.llog[n.term])
  {
    var L := h.llog[n.term];
    if FindConflict(n.log, p, ents) != 0 {
      FullAgree(Accept(n.log, p, ents), L, p + |ents|);
    } else if |n.log| == p {
      AgreeDown(n.log, L, p + |ents|, p);
      FullAgree(n.log, L, p);
    } else if ents == [] {
      LeaderTerms(h, n.term, p - 1);
      OwnTermPrefix(h, n, p - 1);
    } else {
      assert TermAt(n.log, p + 1 + 0) == ents[0].term;
      assert n.log[p].term == L[p].term;
    }
  }

  lemma OldCommitKept(cfg: JointConfig, h: Hist, n: Node, log': Log)
    requires HistL(cfg, h) && n.term in h.llog && SafeCommit(h, n.term, n.log, n.committed)
    requires KeepsCommon(h.llog[n.term], n.log, log')
    ensures SafeCommit(h, n.term, log', n.committed)
  {
    if n.committed > 0 {
      CommitCarried(cfg, h, n.term, n.log, n.committed, n.term);
      assert Agree(h.llog[n.term], n.log, n.committed);
      SafeCommitGrows(h, h, n.term, n.term, n.log, log', n.committed);
    }
  }

  lemma NewCommitSafe(h: Hist, t: nat, log': Log, commit: nat, li: nat)
    requires t in h.llog && SafeCommit(h, t, h.llog[t], commit) && Agree(log', h.llog[t], li)
    ensures SafeCommit(h, t, log', Min(commit, li))
  {
    var c := Min(commit, li);
    SafeCommitDown(h, t, h.llog[t], commit, c);
    AgreeDown(log', h.llog[t], li, c);
    SafeCommitGrows(h, h, t, t, h.llog[t], log', c);
  }

  lemma MatchedAccept(h: Hist, n: Node, p: nat, ents: seq<Entry>)
    requires TermsOk(h) && LogL(h, n) && n.term in h.llog && Slice(h, n.term, p, ents)
    requires TermAt(n.log, p) == TermAt(h.llog[n.term], p)
    ensures p <= |n.log| && FindConflict(n.log, p, ents) <= |n.log| + 1
    ensures Agree(Accept(n.log, p, ents), h.llog[n.term], p + |ents|)
  {
    var L := h.llog[n.term];
    assert TermOk(h, n.term);
    MatchAgrees(h, n, n.term, p);
    forall i | 0 <= i < |L| ensures L[i].term >= 1 { LeaderTerms(h, n.term, i); }
    AcceptAgrees(h, n.log, L, p, ents);
  }

  lemma AcceptAdvances(h: Hist, n: Node, p: nat, ents: seq<Entry>)
    requires TermsOk(h) && LogL(h, n) && n.term in h.llog && Slice(h, n.term, p, ents)
    requires TermAt(n.log, p) == TermAt(h.llog[n.term], p)
    requires n.term in h.base && ProbeOk(h, n, n.term, p) && (p <= h.base[n.term] ==> ents != [])
    ensures IsPrefix(Accept(n.log, p, ents), h.llog[n.term])
    ensures KeepsCommon(h.llog[n.term], n.log, Accept(n.log, p, ents))
  {
    MatchedAccept(h, n, p, ents);
    AcceptSettles(h, n, p, ents);
    forall k | Agree(h.llog[n.term], n.log, k) ensures Agree(Accept(n.log, p, ents), n.log, k) {
      AcceptKeeps(n.log, h.llog[n.term], p, ents, k);
    }
  }

  /** The commit index after an accepted append is safe, and nothing committed was touched. */
  lemma AcceptCommit(cfg: JointConfig, h: Hist, n: Node, m: Msg)
    requires HistL(cfg, h) && LogL(h, n) && SafeCommit(h, n.term, n.log, n.committed)
    requires m.App? && m.term == n.term && AppL(h, m, n) && TermAt(n.log, m.index) == m.logTerm
    ensures SafeCommit(h, n.term, Accept(n.log, m.index, m.ents), Max(n.committed, Min(m.commit, m.index + |m.ents|)))
  {
    hide TermsOk, BallotsOk, DurableOk, AcksOk, ChosenOk, HistE, LogL;
    hide Slice, SafeCommit, ProbeOk, KeepsCommon, IsPrefix, Accept, FindConflict;
    MatchedAccept(h, n, m.index, m.ents);
    AcceptAdvances(h, n, m.index, m.ents);
    OldCommitKept(cfg, h, n, Accept(n.log, m.index, m.ents));
    NewCommitSafe(h, n.term, Accept(n.log, m.index, m.ents), m.commit, m.index + |m.ents|);
  }

  /** A conflict lies above everything committed. */
  lemma NoCommittedConflict(cfg: JointConfig, h: Hist, n: Node, m: Msg)
    requires HistL(cfg, h) && LogL(h, n) && m.App? && m.term == n.term && AppL(h, m, n)
    requires SafeCommit(h, n.term, n.log, n.committed)
    ensures !(0 < FindConflict(n.log, m.index, m.ents) <= n.committed)
  {
    hide HistL, LogL, SafeCommit, ProbeOk, FindConflict, Agree;
    var c, L := FindConflict(n.log, m.index, m.ents), h.llog[n.term];
    assert c > 0 ==> m.ents[c-1-m.index] == L[m.index + (c - 1 - m.index)];
    if n.committed > 0 {
      CommitCarried(cfg, h, n.term, n.log, n.committed, n.term);
      if 0 < c <= n.committed { AgreeAt(n.log, L, n.committed, c - 1); }
    }
  }

  lemma AcceptReach(cfg: JointConfig, h: Hist, n: Node, m: Msg)
    requires HistL(cfg, h) && LogL(h, n) && SafeCommit(h, n.term, n.log, n.committed)
    requires m.App? && m.term == n.term && AppL(h, m, n) && TermAt(n.log, m.index) == m.logTerm
    ensures m.index <= |n.log|
    ensures Max(n.committed, Min(m.commit, m.index + |m.ents|)) <= |Accept(n.log, m.index, m.ents)|
  {
    MatchedAccept(h, n, m.index, m.ents);
    AcceptCommit(cfg, h, n, m);
    SafeCommitReach(h, n.term, Accept(n.log, m.index, m.ents), Max(n.committed, Min(m.commit, m.index + |m.ents|)));
  }

  /** raftLog.maybeAppend never meets its panics. */
  lemma NoAppendPanic(cfg: JointConfig, h: Hist, n: Node, m: Msg)
    requires HistL(cfg, h) && LogL(h, n) && m.App? && m.term == n.term && AppL(h, m, n)
    requires SafeCommit(h, n.term, n.log, n.committed)
    ensures !AppendPanics(n, m)
  {
    hide TermsOk, BallotsOk, DurableOk, AcksOk, ChosenOk, HistE, LogL, Slice, SafeCommit, ProbeOk, Accept, FindConflict;
    if TermAt(n.log, m.index) == m.logTerm {
      MatchedAccept(h, n, m.index, m.ents);
      AcceptReach(cfg, h, n, m);
      NoCommittedConflict(cfg, h, n, m);
    }
  }

  lemma PrefixLogL(h: Hist, n': Node)
    requires TermsOk(h) && n'.term in h.llog && IsPrefix(n'.log, h.llog[n'.term]) && n'.offset >= 1
    ensures LogL(h, n')
  {
    var L := h.llog[n'.term];
    assert TermOk(h, n'.term);
    PrefixGood(h, L, |n'.log|);
    forall i | 0 <= i < |n'.log| ensures 1 <= n'.log[i].term < n'.term + 1 {
      LeaderTerms(h, n'.term, i);
      assert n'.log[i] == L[..|n'.log|][i];
    }
  }

  lemma AcceptNodeL(cfg: JointConfig, h: Hist, n: Node, n': Node, m: Msg)
    requires HistL(cfg, h) && NodeL(h, n) && m.App? && m.term == n.term && AppL(h, m, n)
    requires TermAt(n.log, m.index) == m.logTerm && n'.log == Accept(n.log, m.index, m.ents)
    requires n'.id == n.id && n'.term == n.term && n'.role == Follower && n'.offset >= 1
    requires n'.committed == Max(n.committed, Min(m.commit, m.index + |m.ents|))
    ensures NodeL(h, n') && Advance(h, n, n')
  {
    AcceptAdvances(h, n, m.index, m.ents);
    AcceptCommit(cfg, h, n, m);
    PrefixLogL(h, n');
  }

  /** A step of a non-leader that sends nothing is not noted in the history. */
  lemma SilentStep(s: Sys, v: NodeId, n': Node)
    requires Here(s, v) && n'.term == s.nodes[v].term && n'.role != Leader
    requires NodeL(s.h, n') && Advance(s.h, s.nodes[v], n')
    ensures Owed(s, v, Quiet(n'))
  {
    hide TermsOk, NodeL;
    assert Observe(s.h, s.nodes[v], Quiet(n')) == s.h && NewAcks(Quiet(n')) == {};
  }

  lemma AcceptStep(s: Sys, v: NodeId, n': Node, m: Msg)
    requires Here(s, v) && HistL(s.cfg, s.h) && m.App? && m.term == s.nodes[v].term && AppL(s.h, m, s.nodes[v])
    requires TermAt(s.nodes[v].log, m.index) == m.logTerm && n'.log == Accept(s.nodes[v].log, m.index, m.ents)
    requires n'.id == v && n'.term == s.nodes[v].term && n'.role == Follower && n'.offset >= 1
    requires n'.committed == Max(s.nodes[v].committed, Min(m.commit, m.index + |m.ents|))
    ensures Owed(s, v, Quiet(n'))
  {
    AcceptNodeL(s.cfg, s.h, s.nodes[v], n', m);
    SilentStep(s, v, n');
  }

  // ---------------------------------------------------------------------------
  // Refusing an append
  // ---------------------------------------------------------------------------

  /** An append below the commit index reaches only nodes already settled in the term. */
  lemma CommittedSettled(cfg: JointConfig, h: Hist, n: Node, p: nat)
    requires HistL(cfg, h) && n.term in h.llog && n.term in h.base && ProbeOk(h, n, n.term, p)
    requires SafeCommit(h, n.term, n.log, n.committed) && p < n.committed
    ensures IsPrefix(n.log, h.llog[n.term])
  {
    hide HistL, SafeCommit, IsPrefix;
    CommitCarried(cfg, h, n.term, n.log, n.committed, n.term);
    AgreeAt(n.log, h.llog[n.term], n.committed, n.committed - 1);
  }

  /** The hint of a rejection is at least the end of the common prefix. */
  lemma HintBounds(h: Hist, n: Node, p: nat, hint: nat)
    requires TermsOk(h) && LogL(h, n) && n.term in h.llog && p <= |h.llog[n.term]|
    requires CommonBound(n.log, h.llog[n.term], p) && TermAt(n.log, p) != TermAt(h.llog[n.term], p)
    requires hint == FindConflictByTerm(n.log, Min(p, |n.log|), TermAt(h.llog[n.term], p))
    ensures p >= 1 && CommonBound(n.log, h.llog[n.term], p - 1) && CommonBound(n.log, h.llog[n.term], hint)
  {
    var L := h.llog[n.term];
    assert TermOk(h, n.term);
    forall k | 0 <= k < |n.log| && k < |L| && n.log[k].term == L[k].term
      ensures k < p - 1 && k < hint
    {
      assert k + 1 != p;
      GoodLogMonotone(h, L, k, p - 1);
      assert TermAt(n.log, k + 1) <= TermAt(L, p);
    }
  }

  lemma RejectFacts(h: Hist, n: Node, m: Msg)
    requires TermsOk(h) && LogL(h, n) && m.App? && m.term == n.term && AppL(h, m, n)
    requires TermAt(n.log, m.index) != m.logTerm
    ensures var hint := FindConflictByTerm(n.log, Min(m.index, |n.log|), m.logTerm);
      RejectL(h, AppReject(n.id, m.from, n.term, m.index, hint, TermAt(n.log, hint)), n)
  {
    var hint := FindConflictByTerm(n.log, Min(m.index, |n.log|), m.logTerm);
    if !IsPrefix(n.log, h.llog[n.term]) {
      HintBounds(h, n, m.index, hint);
      forall k | 0 <= k < hint ensures n.log[k].term <= TermAt(n.log, hint) {
        GoodLogMonotone(h, n.log, k, hint - 1);
      }
    }
  }

  lemma RejectStep(s: Sys, v: NodeId, n': Node, m: Msg)
    requires Here(s, v) && CalmNode(s.nodes[v], n') && n'.role != Leader
    requires m.AppReject? && m.from == v && m.term == s.nodes[v].term && RejectL(s.h, m, s.nodes[v])
    ensures Owed(s, v, Out(n', {m}, []))
  {
    var n, out := s.nodes[v], Out(n', {m}, []);
    assert NewAcks(out) == {};
    RejectGrows(s.h, WithAcks(s.h, {}), m, n, n');
    CalmStep(s.cfg, s.h, s.nodes, n, out);
  }

  // ---------------------------------------------------------------------------
  // MsgApp and MsgHeartbeat
  // ---------------------------------------------------------------------------

  /** The node just before it handles a MsgApp or MsgHeartbeat of its term. */
  function Heard(n: Node, lead: NodeId): Node {
    if n.role == Follower then n.(lead := lead) else BecomeFollower(n, n.term, lead)
  }

  lemma StepAppShape(n: Node, m: Msg)
    requires m.App? && n.role != Leader && m.term == n.term && !AppendPanics(n, m)
    ensures CalmNode(n, Heard(n, m.from)) || n.offset == 0
    ensures m.index < n.committed ==>
              StepApp(n, m) == Out(Heard(n, m.from), {AppResp(n.id, m.from, n.term, n.committed)}, [])
    ensures m.index >= n.committed && TermAt(n.log, m.index) != m.logTerm ==>
              var hint := FindConflictByTerm(n.log, Min(m.index, |n.log|), m.logTerm);
              StepApp(n, m) ==
              Out(Heard(n, m.from), {AppReject(n.id, m.from, n.term, m.index, hint, TermAt(n.log, hint))}, [])
    ensures m.index >= n.committed && TermAt(n.log, m.index) == m.logTerm ==>
              var n' := StepApp(n, m).node;
              && StepApp(n, m) == Quiet(n') && n'.log == Accept(n.log, m.index, m.ents)
              && n'.id == n.id && n'.term == n.term && n'.role == Follower && (n.offset >= 1 ==> n'.offset >= 1)
              && n'.committed == Max(n.committed, Min(m.commit, m.index + |m.ents|))
  {
    hide Accept, FindConflict, FindConflictByTerm, TermAt, Heard, StepApp, CalmNode;
    HeardFacts(n, m);
  }

  lemma HeardFacts(n: Node, m: Msg)
    requires m.App? && n.role != Leader && m.term == n.term
    ensures var f := Heard(n, m.from);
      && StepApp(n, m) == HandleAppendEntries(f, m) && (n.offset >= 1 ==> CalmNode(n, f))
      && f.role == Follower && f.lead == m.from
      && f.id == n.id && f.term == n.term && f.log == n.log && f.committed == n.committed && f.offset == n.offset
  {
    hide HandleAppendEntries;
  }

  lemma CommittedAckStep(s: Sys, v: NodeId, f: Node, m: Msg)
    requires Here(s, v) && HistL(s.cfg, s.h) && CalmNode(s.nodes[v], f) && f.role != Leader
    requires m.App? && m.term == s.nodes[v].term && AppL(s.h, m, s.nodes[v]) && m.index < s.nodes[v].committed
    ensures Owed(s, v, Out(f, {AppResp(v, m.from, m.term, s.nodes[v].committed)}, []))
  {
    var n := s.nodes[v];
    CommittedSettled(s.cfg, s.h, n, m.index);
    SafeCommitReach(s.h, n.term, n.log, n.committed);
    PrefixAck(s.h, n, n.committed);
    AckStep(s, v, f, m.from, n.committed);
  }

  lemma RefuseStep(s: Sys, v: NodeId, f: Node, m: Msg, hint: nat)
    requires Here(s, v) && CalmNode(s.nodes[v], f) && f.role != Leader
    requires m.App? && m.term == s.nodes[v].term && AppL(s.h, m, s.nodes[v])
    requires TermAt(s.nodes[v].log, m.index) != m.logTerm
    requires hint == FindConflictByTerm(s.nodes[v].log, Min(m.index, |s.nodes[v].log|), m.logTerm)
    ensures Owed(s, v, Out(f, {AppReject(v, m.from, m.term, m.index, hint, TermAt(s.nodes[v].log, hint))}, []))
  {
    RejectFacts(s.h, s.nodes[v], m);
    RejectStep(s, v, f, AppReject(v, m.from, m.term, m.index, hint, TermAt(s.nodes[v].log, hint)));
  }

  lemma RecvAppStep(s: Sys, v: NodeId, m: Msg)
    requires Here(s, v) && HistL(s.cfg, s.h) && s.nodes[v].role != Leader
    requires m.App? && m.term == s.nodes[v].term && AppL(s.h, m, s.nodes[v])
    ensures Owed(s, v, StepApp(s.nodes[v], m))
  {
    var n, f := s.nodes[v], Heard(s.nodes[v], m.from);
    NoAppendPanic(s.cfg, s.h, n, m);
    StepAppShape(n, m);
    if m.index < n.committed {
      CommittedAckStep(s, v, f, m);
    } else if TermAt(n.log, m.index) != m.logTerm {
      RefuseStep(s, v, f, m, FindConflictByTerm(n.log, Min(m.index, |n.log|), m.logTerm));
    } else {
      AcceptStep(s, v, StepApp(n, m).node, m);
    }
  }

  /** A heartbeat's commit index was acknowledged by the node in this very term. */
  lemma BeatCommit(s: Sys, v: NodeId, m: Msg)
    requires Here(s, v) && AcksL(s) && m.Heartbeat? && m.to == v && m.term == s.nodes[v].term && BeatL(s.h, m)
    ensures m.commit <= |s.nodes[v].log| && SafeCommit(s.h, m.term, s.nodes[v].log, m.commit)
  {
    var n := s.nodes[v];
    if m.commit > 0 {
      var a :| a in s.h.acks && a.node == v && a.term == m.term && a.index >= m.commit;
      assert AckL(s.h, a, n) && Kept(s.h, a.term, m.commit, n.log, n.term);
      SafeCommitGrows(s.h, s.h, m.term, m.term, s.h.llog[m.term], n.log, m.commit);
    }
  }

  lemma RecvBeatStep(s: Sys, v: NodeId, m: Msg)
    requires Here(s, v) && AcksL(s) && s.nodes[v].role != Leader
    requires m.Heartbeat? && m.to == v && m.term == s.nodes[v].term && BeatL(s.h, m)
    ensures Owed(s, v, StepHeartbeat(s.nodes[v], m))
  {
    hide TermsOk, SafeCommit, Grow;
    var n, f := s.nodes[v], Heard(s.nodes[v], m.from);
    BeatCommit(s, v, m);
    var n' := StepHeartbeat(n, m).node;
    CalmNodeL(s.h, s.h, n, f);
    assert SafeCommit(s.h, n'.term, n'.log, n'.committed);
    SilentStep(s, v, n');
  }
}
