// A leader can always bring a follower up to date: from every state of a run whose
// crashes keep their promises, sends, answers and reports lead to full agreement.
module CatchUp {
  import opened Quorum
  import opened PlainLog
  import opened ProgressSpec
  import opened RaftNode
  import opened Protocol
  import opened Election
  import opened History
  import opened Replication
  import opened CommitRule
  import opened CrashSafety
  import opened Paths
  import opened Health
  import FollowerSteps
  import Probing

  // ---------------------------------------------------------------------------
  // A leader and a follower
  // ---------------------------------------------------------------------------

  /** What the invariants say about leader v of term t and its peer u. */
  ghost predicate Pair(s: Sys, v: NodeId, u: NodeId, t: nat) {
    && Leads(s, v, t) && u in s.nodes && u != v && v in s.disks && u in s.disks
    && s.nodes[v].id == v && s.nodes[u].id == u && s.nodes[u].term <= t
    && u in s.nodes[v].prs && s.nodes[v].prs[u].state != Snapshot
    && 1 <= s.nodes[v].prs[u].next <= |s.nodes[v].log| + 1
    && t in s.h.llog && s.nodes[v].log == s.h.llog[t]
  }

  lemma PairOf(s: Sys, v: NodeId, u: NodeId, t: nat)
    requires Healthy(s) && Leads(s, v, t) && u in s.nodes && u != v && s.nodes[u].term <= t
    ensures Pair(s, v, u, t)
  {
    hide HistL, HistE, NetE, NetL, AcksL, DisksL, LogL, TermsSeen, SafeCommit, ProbeOk, Settled, AllCommitting;
    var n := s.nodes[v];
    assert Shaped(n, s.nodes.Keys) && NodeE(s.h, v, n) && NodeE(s.h, u, s.nodes[u]) && NodeL(s.h, n);
    assert PrsL(s.h, n, s.nodes);
    assert PrL(s.h, n, u, n.prs[u], s.nodes[u]);
  }

  /** Everything the leader has from Next on. */
  function Rest(n: Node, u: NodeId): Msg
    requires u in n.prs && 1 <= n.prs[u].next <= |n.log| + 1
  {
    var p := n.prs[u].next - 1;
    App(n.id, u, n.term, p, TermAt(n.log, p), n.log[p..], n.committed)
  }

  /** The progress after that send. */
  function Sent(pr: Pr, last: nat): Pr {
    if pr.next > last then pr
    else if pr.state == Replicate then OptimisticUpdate(pr, last)
    else pr.(probeSent := true)
  }

  lemma SendsRest(s: Sys, v: NodeId, u: NodeId, t: nat) returns (s': Sys)
    requires Pair(s, v, u, t)
    ensures Can(s, {v}, s') && Rest(s.nodes[v], u) in s'.net && v in s'.nodes
    ensures s'.nodes[v] == s.nodes[v].(prs := s.nodes[v].prs[u := Sent(s.nodes[v].prs[u], |s.nodes[v].log|)])
  {
    hide Can, Observe, TermAt;
    var n := s.nodes[v];
    var p := n.prs[u].next - 1;
    var k := |n.log| - p;
    assert n.log[p..p+k] == n.log[p..];
    s' := CanEmit(s, SendApp(v, u, k));
  }

  /** A node that has fallen behind the term first enters it; either way its log is untouched. */
  lemma Hears(s: Sys, u: NodeId, m: Msg) returns (s': Sys)
    requires u in s.nodes && u in s.disks && m in s.net && m.App? && m.to == u && s.nodes[u].term <= m.term
    ensures Can(s, {u}, s') && u in s'.nodes && s'.nodes[u].term == m.term && s'.net == s.net
    ensures s'.nodes[u].log == s.nodes[u].log && s'.nodes[u].committed == s.nodes[u].committed
    ensures s'.nodes[u].offset == s.nodes[u].offset
  {
    hide Can, Observe;
    if s.nodes[u].term == m.term {
      CanStay(s, {u});
      s' := s;
    } else {
      s' := CanEmit(s, ObserveLeader(u, m));
      assert s.net + {} == s.net;
    }
  }

  lemma AppFine(s: Sys, u: NodeId, m: Msg)
    requires Healthy(s) && u in s.nodes && m in s.net && m.App? && m.to == u && m.term == s.nodes[u].term
    ensures !AppendPanics(s.nodes[u], m)
  {
    hide EInv, HistL, AllPrsL, AcksL, DisksL, AllShaped, AllCommitting, AppendPanics, AppL, LogL, SafeCommit;
    assert MsgL(s.h, s.nodes, m) && NodeL(s.h, s.nodes[u]);
    FollowerSteps.NoAppendPanic(s.cfg, s.h, s.nodes[u], m);
  }

  /** u takes part in v's term and is about to handle m. */
  ghost predicate Handling(s: Sys, v: NodeId, u: NodeId, t: nat, m: Msg) {
    && Pair(s, v, u, t) && s.nodes[u].term == t && s.nodes[u].role != Leader
    && m in s.net && m.App? && m.from == v && m.to == u && m.term == t && !AppendPanics(s.nodes[u], m)
  }

  /** The leader sends the rest of its log and the peer, in the leader's term, is about to handle it. */
  lemma Delivers(s: Sys, v: NodeId, u: NodeId, t: nat) returns (s': Sys)
    requires Healthy(s) && Pair(s, v, u, t)
    ensures Can(s, {v, u}, s') && Healthy(s') && Handling(s', v, u, t, Rest(s.nodes[v], u))
    ensures s'.nodes[v] == s.nodes[v].(prs := s.nodes[v].prs[u := Sent(s.nodes[v].prs[u], |s.nodes[v].log|)])
    ensures s'.nodes[u].log == s.nodes[u].log && s'.nodes[u].committed == s.nodes[u].committed
    ensures s'.nodes[u].offset == s.nodes[u].offset
  {
    hide Can, Healthy, AppendPanics, TermAt;
    var m := Rest(s.nodes[v], u);
    var s1 := SendsRest(s, v, u, t);
    CanFrame(s, {v}, s1);
    assert Same(s, u, s1);
    s' := Hears(s1, u, m);
    CanFrame(s1, {u}, s');
    assert Same(s1, v, s');
    CanMore(s, {v}, s1, {u}, s');
    assert {v} + {u} == {v, u};
    CanStayHealthy(s, {v, u}, s');
    PairOf(s', v, u, t);
    AppFine(s', u, m);
    NotLeading(s', v, u, t);
  }

  lemma NotLeading(s: Sys, v: NodeId, u: NodeId, t: nat)
    requires Healthy(s) && Leads(s, v, t) && u in s.nodes && u != v && s.nodes[u].term == t
    ensures s.nodes[u].role != Leader
  {
    hide NetE, HistE, DisksE;
    Probing.OneLeader(s, v, u, t);
  }

  // ---------------------------------------------------------------------------
  // The leader hears an answer
  // ---------------------------------------------------------------------------

  /** Nothing but the progress of u, and perhaps the commit index, has changed at the leader. */
  predicate Updated(n: Node, u: NodeId, pr: Pr, n': Node) {
    n'.committed >= n.committed && n' == n.(prs := n.prs[u := pr], committed := n'.committed)
  }

  lemma EverybodyReachedZero(cfg: JointConfig, acked: map<NodeId, nat>)
    ensures IsQuorum(cfg, Ackers(cfg.IDs(), acked, 0))
  {
    var q := Ackers(cfg.IDs(), acked, 0);
    assert q == cfg.IDs();
    assert cfg.incoming * q == cfg.incoming && cfg.outgoing * q == cfg.outgoing;
  }

  lemma AckOutcome(n: Node, m: Msg, mci: nat)
    requires m.AppResp? && n.role == Leader && m.from in n.prs
    ensures Updated(n, m.from, OnAck(n.prs[m.from], m.index), StepAppResp(n, m, mci).node)
    ensures StepAppResp(n, m, mci).msgs == {}
  {
    hide OnAck;
  }

  lemma HearsAck(s: Sys, v: NodeId, u: NodeId, t: nat, i: nat) returns (s': Sys)
    requires Pair(s, v, u, t) && s.cfg.incoming != {} && AppResp(u, v, t, i) in s.net
    ensures Can(s, {v}, s') && v in s'.nodes && Updated(s.nodes[v], u, OnAck(s.nodes[v].prs[u], i), s'.nodes[v])
  {
    hide Can, Observe, IsJointCommitted, IsQuorum, StepAppResp, OnAck;
    var n, m := s.nodes[v], AppResp(u, v, t, i);
    var acked := Matches(Acked(n, u, i).prs);
    EverybodyReachedZero(s.cfg, acked);
    var mci := QuorumIndex(s.cfg, acked, 0);
    AckOutcome(n, m, mci);
    s' := CanEmit(s, RecvAppResp(v, m, mci));
  }

  lemma HearsReject(s: Sys, v: NodeId, u: NodeId, t: nat, p: nat, hint: nat, ht: nat) returns (s': Sys)
    requires Pair(s, v, u, t) && AppReject(u, v, t, p, hint, ht) in s.net
    ensures Can(s, {v}, s') && v in s'.nodes
    ensures Updated(s.nodes[v], u, OnReject(s.nodes[v].prs[u], s.nodes[v].log, p, hint, ht), s'.nodes[v])
  {
    hide Can, Observe, OnReject;
    s' := CanEmit(s, RecvAppReject(v, AppReject(u, v, t, p, hint, ht)));
  }

  // ---------------------------------------------------------------------------
  // What the follower makes of an append
  // ---------------------------------------------------------------------------

  /** The state after an accepted append. */
  lemma AcceptState(n: Node, m: Msg)
    requires m.App? && n.role != Leader && m.term == n.term && !AppendPanics(n, m)
    requires m.index >= n.committed && TermAt(n.log, m.index) == m.logTerm
    ensures var n', c := StepApp(n, m).node, FindConflict(n.log, m.index, m.ents);
      && n'.role == Follower && n'.lead == m.from && n'.receiving && n'.id == n.id && n'.term == n.term
      && n'.log == Accept(n.log, m.index, m.ents)
      && n'.offset == (if c == 0 then n.offset else Min(n.offset, c))
      && n'.committed == Max(n.committed, Min(m.commit, m.index + |m.ents|))
  {
    hide FindConflict, Accept, FindConflictByTerm, TermAt, StepApp;
    FollowerSteps.HeardFacts(n, m);
  }

  /**
   * Accept and report: once a node has accepted an append, every report of the
   * keeper that it accepts is acknowledged to the leader that sent the append.
   */
  lemma ReportIsAcknowledged(f: Node, m: Msg, i: nat, t: nat, mci: nat)
    requires m.App? && f.role != Leader && m.term == f.term && !AppendPanics(f, m)
    requires m.index >= f.committed && TermAt(f.log, m.index) == m.logTerm
    requires StableToOk(StepApp(f, m).node, i, t)
    ensures HandleLogStatus(StepApp(f, m).node, i, t, mci).msgs == {AppResp(f.id, m.from, f.term, i)}
  {
    hide StepApp, FindConflict, Accept, AppendPanics, TermAt;
    AcceptState(f, m);
  }

  /**
   * When an accepted append can be acknowledged: exactly if it brought something new
   * or if something was not reported yet. An append of what is already on the disk
   * gets no answer, which is why catching up takes a new entry.
   */
  lemma AcknowledgedIff(f: Node, m: Msg)
    requires m.App? && f.role != Leader && m.term == f.term && !AppendPanics(f, m) && f.offset >= 1
    requires m.index >= f.committed && TermAt(f.log, m.index) == m.logTerm
    ensures StepApp(f, m).msgs == {}
    ensures (exists i, t :: HandleLogStatus(StepApp(f, m).node, i, t, 0).msgs != {})
            <==> FindConflict(f.log, m.index, m.ents) != 0 || f.offset <= |f.log|
  {
    hide StepApp, FindConflict, FindConflictByTerm;
    AcceptState(f, m);
    AcceptSilent(f, m);
    var n := StepApp(f, m).node;
    if n.offset <= |n.log| { assert HandleLogStatus(n, |n.log|, LastTerm(n.log), 0).msgs != {}; }
  }

  lemma AcceptSilent(n: Node, m: Msg)
    requires m.App? && n.role != Leader && m.term == n.term && !AppendPanics(n, m)
    requires m.index >= n.committed && TermAt(n.log, m.index) == m.logTerm
    ensures StepApp(n, m).msgs == {} && FindConflict(n.log, m.index, m.ents) <= |n.log| + 1
  {
    hide FindConflict, Accept, FindConflictByTerm, TermAt, StepApp;
    FollowerSteps.HeardFacts(n, m);
  }

  /** A new entry in the append is a new entry for the keeper. */
  lemma NewEntry(log: Log, p: nat, ents: seq<Entry>)
    requires ents != [] && TermAt(log, p + |ents|) != ents[|ents|-1].term
    ensures 1 <= FindConflict(log, p, ents) <= p + |ents|
  {
    hide FindConflict;
    assert p + |ents| == p + 1 + (|ents| - 1);
  }

  /** u has taken over the leader's whole log and acknowledged it. */
  ghost predicate Reported(s: Sys, v: NodeId, u: NodeId, t: nat) {
    && v in s.nodes && u in s.nodes && s.nodes[u].term == t && s.nodes[u].role == Follower
    && s.nodes[u].log == s.nodes[v].log && AppResp(u, v, t, |s.nodes[v].log|) in s.net
  }

  /** The leader's last entry, which is of its own term, is not in u's log yet. */
  ghost predicate Behind(s: Sys, v: NodeId, u: NodeId, t: nat) {
    && Pair(s, v, u, t) && s.nodes[v].log != [] && LastTerm(s.nodes[v].log) == t
    && TermAt(s.nodes[u].log, |s.nodes[v].log|) != t
  }

  lemma PrefixFull(a: Log, b: Log)
    requires IsPrefix(a, b) && |b| <= |a|
    ensures a == b
  {
    assert b[..|b|] == b;
  }

  /** Accepting the rest of the leader's log makes u's log the leader's log. */
  lemma TakesAll(s: Sys, v: NodeId, u: NodeId, t: nat, m: Msg) returns (s': Sys)
    requires Healthy(s) && Handling(s, v, u, t, m) && Behind(s, v, u, t)
    requires s.nodes[u].committed <= m.index < |s.nodes[v].log| && TermAt(s.nodes[u].log, m.index) == m.logTerm
    requires m.ents == s.nodes[v].log[m.index..] && m.logTerm == TermAt(s.nodes[v].log, m.index)
    ensures Can(s, {u}, s') && Pair(s', v, u, t) && s'.nodes[v] == s.nodes[v]
    ensures var n', L := s'.nodes[u], s.nodes[v].log;
      && n'.log == L && n'.role == Follower && n'.lead == v && n'.receiving && n'.term == t && n'.id == u
      && n'.offset <= |L| && n'.committed == Max(s.nodes[u].committed, Min(m.commit, |L|))
  {
    hide Can, Observe, Healthy, StepApp, FindConflict, Accept, AppendPanics, TermAt;
    var n, L := s.nodes[u], s.nodes[v].log;
    AcceptState(n, m);
    AcceptsAll(s, v, u, t, m);
    LastOfRest(L, m.index);
    NewEntry(n.log, m.index, m.ents);
    s' := CanEmit(s, RecvApp(u, m));
    CanFrame(s, {u}, s');
    assert Same(s, v, s');
    CanStayHealthy(s, {u}, s');
    PairOf(s', v, u, t);
    ReceivingPrefix(s', v, u, t);
    PrefixFull(s'.nodes[u].log, L);
  }

  lemma LastOfRest(L: Log, p: nat)
    requires p < |L|
    ensures L[p..] != [] && L[p..][|L[p..]|-1].term == LastTerm(L)
  {
  }

  lemma AcceptsAll(s: Sys, v: NodeId, u: NodeId, t: nat, m: Msg)
    requires Healthy(s) && Handling(s, v, u, t, m) && m.index < |s.nodes[v].log|
    requires TermAt(s.nodes[u].log, m.index) == m.logTerm
    requires m.ents == s.nodes[v].log[m.index..] && m.logTerm == TermAt(s.nodes[v].log, m.index)
    ensures |Accept(s.nodes[u].log, m.index, m.ents)| >= |s.nodes[v].log|
  {
    hide EInv, AllPrsL, AcksL, DisksL, NetL, AllShaped, AllCommitting, BallotsOk, DurableOk, AcksOk, ChosenOk, TermsOk;
    hide LogL, TermsSeen, SafeCommit, Accept, FindConflict, AppendPanics, TermAt;
    assert NodeL(s.h, s.nodes[u]);
    FollowerSteps.MatchedAccept(s.h, s.nodes[u], m.index, m.ents);
  }

  lemma ReceivingPrefix(s: Sys, v: NodeId, u: NodeId, t: nat)
    requires Healthy(s) && Pair(s, v, u, t) && s.nodes[u].receiving && s.nodes[u].term == t
    ensures IsPrefix(s.nodes[u].log, s.nodes[v].log)
  {
    hide EInv, HistL, AllPrsL, AcksL, DisksL, NetL, AllShaped, AllCommitting, LogL, TermsSeen, SafeCommit, IsPrefix;
    assert NodeL(s.h, s.nodes[u]);
  }

  /** The keeper reports the new entries persisted, and u acknowledges them. */
  lemma Reports(s: Sys, v: NodeId, u: NodeId, t: nat) returns (s': Sys)
    requires Pair(s, v, u, t) && s.nodes[v].log != [] && LastTerm(s.nodes[v].log) == t
    requires var n, L := s.nodes[u], s.nodes[v].log;
      n.log == L && n.role == Follower && n.lead == v && n.receiving && n.term == t && n.offset <= |L|
    ensures Can(s, {u}, s') && Reported(s', v, u, t) && s'.nodes[v] == s.nodes[v]
    ensures s'.nodes[u].committed == s.nodes[u].committed
  {
    hide Can, Observe;
    s' := CanEmit(s, LogStatus(u, |s.nodes[v].log|, t, 0));
  }

  // ---------------------------------------------------------------------------
  // Rounds
  // ---------------------------------------------------------------------------

  /** From s to s' the leader has brought u up to date, and nothing else about its own state has changed. */
  ghost predicate Caught(s: Sys, v: NodeId, u: NodeId, t: nat, s': Sys)
    requires v in s.nodes && u in s.nodes
  {
    && v in s'.nodes && u in s'.nodes
    && var n, n', f := s.nodes[v], s'.nodes[v], s'.nodes[u];
    && u in n'.prs && Updated(n, u, n'.prs[u], n')
    && n'.prs[u].matched == |n.log| && n'.prs[u].next == |n.log| + 1 && n'.prs[u].state == Replicate
    && f.term == t && f.log == n.log && f.committed >= Min(n.committed, |n.log|)
  }

  /** An entry that u does not have was not acknowledged by u. */
  lemma NotMatched(s: Sys, v: NodeId, u: NodeId, t: nat)
    requires Healthy(s) && Behind(s, v, u, t)
    ensures s.nodes[v].prs[u].matched < |s.nodes[v].log|
  {
    hide EInv, HistL, NetL, DisksL, AllShaped, AllCommitting, LogL, TermsSeen, SafeCommit, ProbeOk, Settled;
    var n, f := s.nodes[v], s.nodes[u];
    var i := n.prs[u].matched;
    assert NodeL(s.h, n) && PrsL(s.h, n, s.nodes);
    assert PrL(s.h, n, u, n.prs[u], f);
    if i == |n.log| {
      assert AckL(s.h, Ack(u, t, i), f);
      assert Kept(s.h, t, i, f.log, f.term);
      AgreeAt(f.log, n.log, i, i - 1);
    }
  }

  lemma AckCatches(pr: Pr, last: nat)
    requires pr.matched < last && 1 <= pr.next <= last && pr.state != Snapshot
    ensures var pr' := OnAck(Sent(pr, last), last);
      pr'.matched == last && pr'.next == last + 1 && pr'.state == Replicate
  {
  }

  /** The probe fits: one append, one report and one acknowledgement are enough. */
  lemma AcceptRound(s: Sys, v: NodeId, u: NodeId, t: nat) returns (s': Sys)
    requires Healthy(s) && Behind(s, v, u, t)
    requires var p := s.nodes[v].prs[u].next - 1;
      s.nodes[u].committed <= p < |s.nodes[v].log| && TermAt(s.nodes[u].log, p) == TermAt(s.nodes[v].log, p)
    ensures Can(s, {v, u}, s') && Caught(s, v, u, t, s')
  {
    hide Can, Healthy, AppendPanics, TermAt, OnAck, Sent;
    var n := s.nodes[v];
    var m := Rest(n, u);
    NotMatched(s, v, u, t);
    AckCatches(n.prs[u], |n.log|);
    var s1 := Delivers(s, v, u, t);
    var s2 := TakesAll(s1, v, u, t, m);
    var s3 := Reports(s2, v, u, t);
    CanAgainWide(s, {v, u}, s1, {u}, s2);
    CanAgainWide(s, {v, u}, s2, {u}, s3);
    CanStayHealthy(s, {v, u}, s3);
    PairOf(s3, v, u, t);
    HasVoters(s3);
    s' := HearsAck(s3, v, u, t, |n.log|);
    CanFrame(s3, {v}, s');
    assert Same(s3, u, s');
    CanAgainWide(s, {v, u}, s3, {v}, s');
    SameUpdate(n, u, Sent(n.prs[u], |n.log|), s3.nodes[v], OnAck(Sent(n.prs[u], |n.log|), |n.log|), s'.nodes[v]);
  }

  lemma SameUpdate(n: Node, u: NodeId, pr: Pr, mid: Node, pr': Pr, n': Node)
    requires Updated(n, u, pr, mid) && Updated(mid, u, pr', n')
    ensures Updated(n, u, pr', n')
  {
    assert n.prs[u := pr][u := pr'] == n.prs[u := pr'];
  }

  lemma HasVoters(s: Sys)
    requires Healthy(s)
    ensures s.cfg.incoming != {} && s.cfg.IDs() <= s.nodes.Keys
  {
    hide EInv, HistL, NodesL, AllPrsL, NetL, AcksL, DisksL;
    ConfigOf(s);
  }

  lemma CanAgainWide(s: Sys, who: set<NodeId>, mid: Sys, some: set<NodeId>, s': Sys)
    requires Can(s, who, mid) && Can(mid, some, s') && some <= who
    ensures Can(s, who, s')
  {
    hide Can;
    CanWiden(mid, some, s', who);
    CanAgain(s, who, mid, s');
  }

  /** The part of u's log that is committed is in the leader's log. */
  lemma CommittedAgrees(s: Sys, v: NodeId, u: NodeId, t: nat)
    requires Healthy(s) && Behind(s, v, u, t)
    ensures var c := s.nodes[u].committed;
      c < |s.nodes[v].log| && TermAt(s.nodes[u].log, c) == TermAt(s.nodes[v].log, c)
  {
    hide EInv, HistL, AllPrsL, AcksL, NetL, DisksL, AllShaped, AllCommitting, LogL, TermsSeen, SafeCommit, RoleL;
    var f, L := s.nodes[u], s.nodes[v].log;
    assert NodeL(s.h, f);
    if f.committed > 0 {
      FollowerSteps.CommitCarried(s.cfg, s.h, f.term, f.log, f.committed, t);
      AgreeAt(f.log, L, f.committed, f.committed - 1);
    }
  }

  /** u answers a probe below its commit index with that index, and the next one fits. */
  lemma CommittedRound(s: Sys, v: NodeId, u: NodeId, t: nat) returns (s': Sys)
    requires Healthy(s) && Behind(s, v, u, t) && s.nodes[v].prs[u].state == Probe
    requires s.nodes[v].prs[u].next - 1 < s.nodes[u].committed
    ensures Can(s, {v, u}, s') && Behind(s', v, u, t)
    ensures u in s'.nodes[v].prs && Updated(s.nodes[v], u, s'.nodes[v].prs[u], s'.nodes[v])
    ensures s'.nodes[v].prs[u].next == s'.nodes[u].committed + 1
  {
    hide Can, Healthy, AppendPanics, TermAt, StepApp, Observe, FindConflictByTerm;
    var n := s.nodes[v];
    var m, c := Rest(n, u), s.nodes[u].committed;
    var s1 := Delivers(s, v, u, t);
    FollowerSteps.StepAppShape(s1.nodes[u], m);
    FollowerSteps.HeardFacts(s1.nodes[u], m);
    var s2 := CanEmit(s1, RecvApp(u, m));
    CanFrame(s1, {u}, s2);
    assert Same(s1, v, s2);
    CanAgainWide(s, {v, u}, s1, {u}, s2);
    CanStayHealthy(s, {v, u}, s2);
    PairOf(s2, v, u, t);
    HasVoters(s2);
    s' := HearsAck(s2, v, u, t, c);
    CanFrame(s2, {v}, s');
    assert Same(s2, u, s');
    CanAgainWide(s, {v, u}, s2, {v}, s');
    CanStayHealthy(s, {v, u}, s');
    PairOf(s', v, u, t);
    SameUpdate(n, u, Sent(n.prs[u], |n.log|), s2.nodes[v], OnAck(Sent(n.prs[u], |n.log|), c), s'.nodes[v]);
  }

  lemma RejectLowers(n: Node, f: Log, u: NodeId, hint: nat, ht: nat)
    requires u in n.prs && n.prs[u].state == Probe && n.prs[u].next >= 1
    requires TermAt(f, n.prs[u].next - 1) != TermAt(n.log, n.prs[u].next - 1)
    ensures var pr' := OnReject(Sent(n.prs[u], |n.log|), n.log, n.prs[u].next - 1, hint, ht);
      pr'.state == Probe && pr'.next < n.prs[u].next
  {
    hide FindConflictByTerm;
  }

  /** A probe that does not fit is refused, and the next one is lower. */
  lemma RefusedRound(s: Sys, v: NodeId, u: NodeId, t: nat) returns (s': Sys)
    requires Healthy(s) && Behind(s, v, u, t) && s.nodes[v].prs[u].state == Probe
    requires var p := s.nodes[v].prs[u].next - 1;
      s.nodes[u].committed <= p && TermAt(s.nodes[u].log, p) != TermAt(s.nodes[v].log, p)
    ensures Can(s, {v, u}, s') && Behind(s', v, u, t) && s'.nodes[u].committed == s.nodes[u].committed
    ensures u in s'.nodes[v].prs && Updated(s.nodes[v], u, s'.nodes[v].prs[u], s'.nodes[v])
    ensures s'.nodes[v].prs[u].state == Probe && s'.nodes[v].prs[u].next < s.nodes[v].prs[u].next
  {
    hide Can, Healthy, AppendPanics, StepApp, Observe, FindConflictByTerm, TermAt, OnReject, Sent;
    var n := s.nodes[v];
    var m, p := Rest(n, u), n.prs[u].next - 1;
    var s1 := Delivers(s, v, u, t);
    var f := s1.nodes[u];
    FollowerSteps.StepAppShape(f, m);
    FollowerSteps.HeardFacts(f, m);
    var hint := FindConflictByTerm(f.log, Min(p, |f.log|), TermAt(n.log, p));
    var s2 := CanEmit(s1, RecvApp(u, m));
    CanFrame(s1, {u}, s2);
    assert Same(s1, v, s2);
    CanAgainWide(s, {v, u}, s1, {u}, s2);
    CanStayHealthy(s, {v, u}, s2);
    PairOf(s2, v, u, t);
    s' := HearsReject(s2, v, u, t, p, hint, TermAt(f.log, hint));
    CanFrame(s2, {v}, s');
    assert Same(s2, u, s');
    CanAgainWide(s, {v, u}, s2, {v}, s');
    CanStayHealthy(s, {v, u}, s');
    PairOf(s', v, u, t);
    RejectLowers(n, f.log, u, hint, TermAt(f.log, hint));
    var pr1 := Sent(n.prs[u], |n.log|);
    SameUpdate(n, u, pr1, s2.nodes[v], OnReject(pr1, n.log, p, hint, TermAt(f.log, hint)), s'.nodes[v]);
  }

  lemma CaughtFrom(s: Sys, v: NodeId, u: NodeId, t: nat, mid: Sys, s': Sys)
    requires v in s.nodes && u in s.nodes && v in mid.nodes && u in mid.nodes && u in mid.nodes[v].prs
    requires Updated(s.nodes[v], u, mid.nodes[v].prs[u], mid.nodes[v]) && Caught(mid, v, u, t, s')
    ensures Caught(s, v, u, t, s')
  {
    SameUpdate(s.nodes[v], u, mid.nodes[v].prs[u], mid.nodes[v], s'.nodes[v].prs[u], s'.nodes[v]);
  }

  /** Probing goes down until the append fits. */
  lemma {:induction false} Converges(s: Sys, v: NodeId, u: NodeId, t: nat) returns (s': Sys)
    requires Healthy(s) && Behind(s, v, u, t) && s.nodes[v].prs[u].state == Probe
    ensures Can(s, {v, u}, s') && Caught(s, v, u, t, s')
    decreases s.nodes[v].prs[u].next
  {
    hide Can, Healthy, TermAt, Caught, Updated;
    var p := s.nodes[v].prs[u].next - 1;
    var mid;
    if p < s.nodes[u].committed {
      mid := CommittedRound(s, v, u, t);
      CanStayHealthy(s, {v, u}, mid);
      CommittedAgrees(mid, v, u, t);
      s' := AcceptRound(mid, v, u, t);
    } else if TermAt(s.nodes[u].log, p) != TermAt(s.nodes[v].log, p) {
      mid := RefusedRound(s, v, u, t);
      CanStayHealthy(s, {v, u}, mid);
      s' := Converges(mid, v, u, t);
    } else {
      s' := AcceptRound(s, v, u, t);
      return;
    }
    CanAgain(s, {v, u}, mid, s');
    CaughtFrom(s, v, u, t, mid, s');
  }

  lemma Probes(s: Sys, v: NodeId, u: NodeId, t: nat) returns (s': Sys)
    requires Healthy(s) && Behind(s, v, u, t)
    ensures Can(s, {v}, s') && Behind(s', v, u, t) && s'.nodes[v].prs[u].state == Probe
    ensures Updated(s.nodes[v], u, s'.nodes[v].prs[u], s'.nodes[v])
  {
    hide Can, Healthy, TermAt, Observe;
    var n := s.nodes[v];
    if n.prs[u].state == Replicate {
      s' := CanEmit(s, Unreachable(v, u));
      CanFrame(s, {v}, s');
      assert Same(s, u, s');
      CanStayHealthy(s, {v}, s');
      PairOf(s', v, u, t);
    } else {
      CanStay(s, {v});
      assert n.prs[u := n.prs[u]] == n.prs;
      s' := s;
    }
  }

  /** Whatever the leader knows about u, and whatever u's log holds beyond what is committed. */
  lemma CatchesUp(s: Sys, v: NodeId, u: NodeId, t: nat) returns (s': Sys)
    requires Healthy(s) && Behind(s, v, u, t)
    ensures Can(s, {v, u}, s') && Caught(s, v, u, t, s')
  {
    hide Can, Healthy, Caught, Updated, TermAt;
    var mid := Probes(s, v, u, t);
    CanStayHealthy(s, {v}, mid);
    s' := Converges(mid, v, u, t);
    CanMore(s, {v}, mid, {v, u}, s');
    assert {v} + {v, u} == {v, u};
    CaughtFrom(s, v, u, t, mid, s');
  }

  // ---------------------------------------------------------------------------
  // Several followers
  // ---------------------------------------------------------------------------

  /** Only the progress of the nodes in `q`, and perhaps the commit index, has changed at the leader. */
  ghost predicate Moved(n: Node, q: set<NodeId>, n': Node) {
    && n' == n.(prs := n'.prs, committed := n'.committed) && n'.committed >= n.committed
    && n'.prs.Keys == n.prs.Keys && forall w | w in n.prs && w !in q :: n'.prs[w] == n.prs[w]
  }

  /** u has v's log, and v knows. */
  ghost predicate UpToDate(s: Sys, v: NodeId, u: NodeId, t: nat) {
    && v in s.nodes && u in s.nodes && s.nodes[u].term == t && s.nodes[u].log == s.nodes[v].log
    && u in s.nodes[v].prs && s.nodes[v].prs[u].matched == |s.nodes[v].log|
  }

  lemma {:induction false} CatchAll(s: Sys, q: set<NodeId>, v: NodeId, t: nat) returns (s': Sys)
    requires Healthy(s) && Leads(s, v, t) && v !in q && forall u | u in q :: Behind(s, v, u, t)
    ensures Can(s, q + {v}, s') && Healthy(s') && v in s'.nodes && Moved(s.nodes[v], q, s'.nodes[v])
    ensures forall u | u in q :: UpToDate(s', v, u, t)
    decreases q
  {
    hide Can, Healthy, TermAt;
    if q == {} {
      CanStay(s, q + {v});
      s' := s;
    } else {
      var u :| u in q;
      var mid := CatchesUp(s, v, u, t);
      CanStayHealthy(s, {v, u}, mid);
      CanFrame(s, {v, u}, mid);
      var rest := q - {u};
      forall w | w in rest ensures Behind(mid, v, w, t) {
        assert Behind(s, v, w, t) && Same(s, w, mid);
        PairOf(mid, v, w, t);
      }
      s' := CatchAll(mid, rest, v, t);
      CanFrame(mid, rest + {v}, s');
      assert Same(mid, u, s');
      CanMore(s, {v, u}, mid, rest + {v}, s');
      assert {v, u} + (rest + {v}) == q + {v};
    }
  }

  lemma SelfOutcome(n: Node, mci: nat)
    requires n.role == Leader && n.id in n.prs && n.log != [] && n.offset <= |n.log|
    ensures var n' := HandleLogStatus(n, |n.log|, LastTerm(n.log), mci).node;
      && Moved(n.(offset := n'.offset), {n.id}, n') && n.id in n'.prs && n'.prs[n.id].matched >= |n.log|
  {
  }

  /** The leader's own log is on its disk, and counted. */
  lemma SelfCounts(s: Sys, v: NodeId, t: nat) returns (s': Sys)
    requires Healthy(s) && Leads(s, v, t) && s.nodes[v].log != [] && LastTerm(s.nodes[v].log) == t
    ensures Can(s, {v}, s') && v in s'.nodes && v in s'.nodes[v].prs
    ensures s'.nodes[v].prs[v].matched >= |s.nodes[v].log|
    ensures Moved(s.nodes[v].(offset := s'.nodes[v].offset), {v}, s'.nodes[v])
  {
    hide Can, Healthy, Observe, IsJointCommitted, IsQuorum, HandleLogStatus, LastTerm, SelfAcked;
    var n := s.nodes[v];
    OwnShape(s, v);
    if n.offset <= |n.log| {
      HasVoters(s);
      var acked := Matches(SelfAcked(n, |n.log|).prs);
      EverybodyReachedZero(s.cfg, acked);
      var mci := QuorumIndex(s.cfg, acked, 0);
      SelfOutcome(n, mci);
      s' := CanEmit(s, LogStatus(v, |n.log|, t, mci));
    } else {
      CanStay(s, {v});
      s' := s;
    }
  }

  lemma OwnShape(s: Sys, v: NodeId)
    requires Healthy(s) && v in s.nodes
    ensures v in s.disks && s.nodes[v].id == v && v in s.nodes[v].prs && Shaped(s.nodes[v], s.nodes.Keys)
  {
    hide HistL, NodesL, AllPrsL, NetL, AcksL, DisksL, AllCommitting, HistE, NetE;
    assert NodeE(s.h, v, s.nodes[v]) && Shaped(s.nodes[v], s.nodes.Keys);
  }

  /** What a quorum has matched, to the last entry of the leader's own term, is committed. */
  lemma AllCommitted(s: Sys, v: NodeId, q: set<NodeId>, t: nat)
    requires Healthy(s) && Leads(s, v, t) && s.nodes[v].log != [] && LastTerm(s.nodes[v].log) == t
    requires q <= s.cfg.IDs() && IsQuorum(s.cfg, q)
    requires forall u | u in q :: u in s.nodes[v].prs && s.nodes[v].prs[u].matched >= |s.nodes[v].log|
    ensures s.nodes[v].committed == |s.nodes[v].log|
  {
    hide EInv, HistL, AllPrsL, AcksL, NetL, DisksL, AllShaped, IsQuorum, IsJointCommitted, NodesL;
    var n := s.nodes[v];
    var acked, last := Matches(n.prs), |n.log|;
    HasVoters(s);
    IsQuorumMono(s.cfg, q, Ackers(s.cfg.IDs(), acked, last));
    var b := QuorumIndex(s.cfg, acked, last);
    assert Committing(s.cfg, n);
    OwnTerm(s, v, t);
  }

  lemma OwnTerm(s: Sys, v: NodeId, t: nat)
    requires LInv(s) && Leads(s, v, t) && s.nodes[v].log != [] && LastTerm(s.nodes[v].log) == t
    ensures |s.nodes[v].log| >= s.nodes[v].termStart && s.nodes[v].committed <= |s.nodes[v].log|
  {
    hide EInv, AllPrsL, AcksL, NetL, DisksL, BallotsOk, DurableOk, AcksOk, ChosenOk, HistE, LogL, TermsSeen, SafeCommit;
    var n := s.nodes[v];
    assert NodeL(s.h, n);
    LeaderTerms(s.h, t, |n.log| - 1);
    SafeCommitReach(s.h, n.term, n.log, n.committed);
  }
}
