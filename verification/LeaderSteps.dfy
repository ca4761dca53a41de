// The leader side: proposals, sending, acknowledgements, rejections, commits.
module LeaderSteps {
  import opened Quorum
  import opened PlainLog
  import opened ProgressSpec
  import opened RaftNode
  import opened Protocol
  import opened Election
  import opened History
  import opened Replication
  import opened Lift
  import opened CalmSteps
  import opened VotingSteps
  import TermSteps
  import FollowerSteps

  /** What a leader's step may use. */
  ghost predicate Leads(s: Sys, v: NodeId) {
    && Here(s, v) && NodesL(s) && AcksL(s) && PrsL(s.h, s.nodes[v], s.nodes) && s.nodes[v].role == Leader
  }

  // ---------------------------------------------------------------------------
  // Progress entries
  // ---------------------------------------------------------------------------

  /** A settled follower may be probed anywhere. */
  lemma SettledProbe(h: Hist, n: Node, t: nat, p: nat)
    requires t in h.llog && t in h.base && Settled(h, n, t)
    ensures ProbeOk(h, n, t, p)
  {
  }

  lemma ProbeHigher(h: Hist, n: Node, t: nat, p: nat, p': nat)
    requires t in h.llog && t in h.base && ProbeOk(h, n, t, p) && p <= p'
    ensures ProbeOk(h, n, t, p')
  {
  }

  /** An acknowledged index is in the leader's log, and its sender is settled. */
  lemma AckFacts(h: Hist, n: Node, nj: Node, i: nat)
    requires n.role == Leader && RoleL(h, n) && AckL(h, Ack(nj.id, n.term, i), nj)
    ensures i <= |n.log| && (i > 0 ==> Settled(h, nj, n.term))
  {
  }

  lemma OnAckL(h: Hist, n: Node, j: NodeId, pr: Pr, nj: Node, i: nat)
    requires n.role == Leader && RoleL(h, n) && PrL(h, n, j, pr, nj) && nj.id == j
    requires Ack(j, n.term, i) in h.acks && AckL(h, Ack(j, n.term, i), nj)
    ensures PrL(h, n, j, OnAck(pr, i), nj)
  {
    AckFacts(h, n, nj, i);
    if j != n.id {
      if pr.matched < i {
        SettledProbe(h, nj, n.term, OnAck(pr, i).next - 1);
      } else {
        ProbeHigher(h, nj, n.term, pr.next - 1, OnAck(pr, i).next - 1);
      }
    }
  }

  /** Fast back-tracking: the next probe is still not below the end of the common prefix. */
  lemma BacktrackBounds(F: Log, L: Log, hint: nat, t: nat)
    requires CommonBound(F, L, hint) && TermsWithin(F, hint, t)
    ensures CommonBound(F, L, if t > 0 then FindConflictByTerm(L, hint, t) else hint)
  {
    hide FindConflictByTerm;
    forall k | 0 <= k < |F| && k < |L| && F[k].term == L[k].term
      ensures t > 0 ==> k < FindConflictByTerm(L, hint, t)
    {
      assert TermAt(L, k + 1) <= t;
    }
  }

  lemma OnRejectL(h: Hist, n: Node, pr: Pr, nj: Node, m: Msg)
    requires TermsOk(h) && n.role == Leader && RoleL(h, n) && LogL(h, nj)
    requires m.AppReject? && m.from == nj.id && m.term == n.term && RejectL(h, m, nj)
    requires PrL(h, n, nj.id, pr, nj)
    ensures PrL(h, n, nj.id, OnReject(pr, n.log, m.index, m.hint, m.logTerm), nj)
  {
    hide GoodLog, TermsOk, CommonBound, IsPrefix;
    if Fresh(pr, m.index) && nj.id != n.id {
      if pr.state == Replicate {
        SettledProbe(h, nj, n.term, pr.matched);
      } else {
        ProbeAfterReject(h, n, nj, m);
      }
    }
  }

  lemma ProbeAfterReject(h: Hist, n: Node, nj: Node, m: Msg)
    requires TermsOk(h) && n.role == Leader && RoleL(h, n) && LogL(h, nj)
    requires m.AppReject? && m.term == n.term && RejectL(h, m, nj)
    ensures var probe := if m.logTerm > 0 then FindConflictByTerm(n.log, m.hint, m.logTerm) else m.hint;
      ProbeOk(h, nj, n.term, Max(Min(m.index, probe + 1), 1) - 1)
  {
    var probe := if m.logTerm > 0 then FindConflictByTerm(n.log, m.hint, m.logTerm) else m.hint;
    if nj.term == n.term && !IsPrefix(nj.log, n.log) {
      BacktrackBounds(nj.log, n.log, m.hint, m.logTerm);
    }
  }

  // ---------------------------------------------------------------------------
  // Steps that touch one progress entry
  // ---------------------------------------------------------------------------

  /** All progress entries after one of them was replaced. */
  lemma PrsUpdated(s: Sys, v: NodeId, n': Node, j: NodeId, pr: Pr, acks: set<Ack>)
    requires Leads(s, v) && CalmNode(s.nodes[v], n') && n'.prs == s.nodes[v].prs[j := pr]
    requires j in s.nodes ==> PrL(WithAcks(s.h, acks), n', j, pr, s.nodes[v := n'][j])
    ensures PrsL(WithAcks(s.h, acks), n', s.nodes[v := n'])
  {
    hide TermsOk, Agree;
    var n, h' := s.nodes[v], WithAcks(s.h, acks);
    WithAcksGrows(s.h, acks);
    forall k | k in n'.prs && k in s.nodes[v := n'] && n'.term in h'.llog && n'.term in h'.base
      ensures PrL(h', n', k, n'.prs[k], s.nodes[v := n'][k])
    {
      if k != j {
        var nk' := s.nodes[v := n'][k];
        assert NodeL(s.h, s.nodes[k]) && Advance(h', s.nodes[k], nk');
        PrGrows(s.h, h', n, k, n.prs[k], s.nodes[k], nk');
      }
    }
  }

  lemma PeerSelfAck(s: Sys, v: NodeId, n': Node, j: NodeId, pr: Pr)
    requires Leads(s, v) && n'.id == v && n'.role == Leader && n'.term == s.nodes[v].term
    requires n'.prs == s.nodes[v].prs[j := pr] && (j == v ==> pr.matched <= |s.nodes[v].log|)
    ensures AcksHold(s.h, s.nodes[v], SelfAck(n'))
  {
    var n := s.nodes[v];
    if v in n'.prs {
      if j != v { assert PrL(s.h, n, v, n.prs[v], n); }
      TermSteps.WinAck(s.h, n, n'.prs[v].matched);
    }
  }

  /** A leader replaces one progress entry and sends appends or heartbeats. */
  lemma ProgressStep(s: Sys, v: NodeId, out: Out, j: NodeId, pr: Pr)
    requires Leads(s, v) && CalmNode(s.nodes[v], out.node) && out.node.role == Leader && out.hard == []
    requires out.node.prs == s.nodes[v].prs[j := pr]
    requires j in s.nodes ==> PrL(s.h, s.nodes[v], j, pr, s.nodes[j])
    requires forall m | m in out.msgs :: !m.AppResp?
    requires forall m | m in out.msgs :: MsgL(s.h, s.nodes, m)
    ensures Owed(s, v, out)
  {
    hide TermsOk, GrowTerms, SafeCommit, LogL, RoleL, TermsSeen;
    var n, n', h' := s.nodes[v], out.node, WithAcks(s.h, NewAcks(out));
    assert NewAcks(out) == SelfAck(n');
    PeerSelfAck(s, v, n', j, pr);
    WithAcksGrows(s.h, NewAcks(out));
    LiftSent(s, v, n', out.msgs, h');
    if j in s.nodes {
      assert NodeL(s.h, s.nodes[j]) && Advance(h', s.nodes[j], s.nodes[v := n'][j]);
      PrGrows(s.h, h', n, j, pr, s.nodes[j], s.nodes[v := n'][j]);
    }
    PrsUpdated(s, v, n', j, pr, NewAcks(out));
    CalmStep(s.cfg, s.h, s.nodes, n, out);
  }

  lemma LiftSent(s: Sys, v: NodeId, n': Node, msgs: set<Msg>, h': Hist)
    requires Here(s, v) && NodesL(s) && CalmNode(s.nodes[v], n') && TermsOk(h') && Grow(s.h, h')
    requires forall m | m in msgs :: MsgL(s.h, s.nodes, m)
    ensures forall m | m in msgs :: MsgL(h', s.nodes[v := n'], m)
  {
    var nodes' := s.nodes[v := n'];
    forall u | u in s.nodes ensures LogL(s.h, s.nodes[u]) && Advance(h', s.nodes[u], nodes'[u]) {
      assert NodeL(s.h, s.nodes[u]);
    }
    forall m | m in msgs ensures MsgL(h', nodes', m) {
      MsgGrows(s.h, h', s.nodes, nodes', m);
    }
  }

  // ---------------------------------------------------------------------------
  // Sending and flow control
  // ---------------------------------------------------------------------------

  lemma SendAppendL(s: Sys, v: NodeId, to: NodeId, k: nat)
    requires Leads(s, v) && to in s.nodes[v].prs && to in s.nodes && to != v && 1 <= s.nodes[v].prs[to].next
    requires var next := s.nodes[v].prs[to].next;
             if next <= |s.nodes[v].log| then 1 <= k <= |s.nodes[v].log| + 1 - next else k == 0
    ensures forall m | m in SendAppend(s.nodes[v], to, k).msgs :: m.App? && MsgL(s.h, s.nodes, m)
  {
    hide Slice, SafeCommit, ProbeOk, Settled, GoodLog, LogL, TermsSeen, TermAt, TermsBelow;
    var n := s.nodes[v];
    assert PrL(s.h, n, to, n.prs[to], s.nodes[to]) && NodeL(s.h, n);
    assert TermOk(s.h, n.term);
    SliceOf(s.h, n.term, n.prs[to].next - 1, k);
  }

  lemma SendAppStep(s: Sys, v: NodeId, to: NodeId, k: nat)
    requires Leads(s, v) && to in s.nodes[v].prs && to in s.nodes && to != v && 1 <= s.nodes[v].prs[to].next
    requires var next := s.nodes[v].prs[to].next;
             if next <= |s.nodes[v].log| then 1 <= k <= |s.nodes[v].log| + 1 - next else k == 0
    ensures Owed(s, v, SendAppend(s.nodes[v], to, k))
  {
    var n, out := s.nodes[v], SendAppend(s.nodes[v], to, k);
    var pr, pr' := n.prs[to], out.node.prs[to];
    SendAppendL(s, v, to, k);
    assert PrL(s.h, n, to, pr, s.nodes[to]);
    if pr.state == Replicate { SettledProbe(s.h, s.nodes[to], n.term, pr'.next - 1); }
    ProgressStep(s, v, out, to, pr');
  }

  lemma SendBeatStep(s: Sys, v: NodeId, to: NodeId)
    requires Leads(s, v) && to in s.nodes[v].prs && to in s.nodes && to != v
    ensures Owed(s, v, SendHeartbeat(s.nodes[v], to))
  {
    var n, out := s.nodes[v], SendHeartbeat(s.nodes[v], to);
    var pr := n.prs[to];
    assert PrL(s.h, n, to, pr, s.nodes[to]);
    FollowerSteps.SafeCommitDown(s.h, n.term, n.log, n.committed, Min(pr.matched, n.committed));
    assert n.prs == n.prs[to := pr];
    ProgressStep(s, v, out, to, pr);
  }

  lemma RejectedStep(s: Sys, v: NodeId, m: Msg)
    requires Leads(s, v) && m.AppReject? && m.term == s.nodes[v].term && MsgL(s.h, s.nodes, m)
    requires forall u | u in s.nodes :: s.nodes[u].id == u
    ensures Owed(s, v, StepAppReject(s.nodes[v], m))
  {
    var n, j := s.nodes[v], m.from;
    if j in n.prs {
      var pr := OnReject(n.prs[j], n.log, m.index, m.hint, m.logTerm);
      assert PrL(s.h, n, j, n.prs[j], s.nodes[j]) && NodeL(s.h, s.nodes[j]);
      OnRejectL(s.h, n, n.prs[j], s.nodes[j], m);
      ProgressStep(s, v, StepAppReject(n, m), j, pr);
    } else {
      IdleLeader(s, v, Quiet(n));
    }
  }

  lemma UnreachableStep(s: Sys, v: NodeId, j: NodeId)
    requires Leads(s, v)
    ensures Owed(s, v, StepUnreachable(s.nodes[v], j))
  {
    var n := s.nodes[v];
    if j in n.prs && n.prs[j].state == Replicate {
      if j in s.nodes {
        assert PrL(s.h, n, j, n.prs[j], s.nodes[j]);
        if j != v { SettledProbe(s.h, s.nodes[j], n.term, n.prs[j].matched); }
      }
      ProgressStep(s, v, StepUnreachable(n, j), j, BecomeProbe(n.prs[j]));
    } else {
      IdleLeader(s, v, Quiet(n));
    }
  }

  lemma AnswerStaleLeader(s: Sys, v: NodeId, to: NodeId)
    requires Leads(s, v)
    ensures Owed(s, v, Out(s.nodes[v], {AppResp(v, to, s.nodes[v].term, 0)}, []))
  {
    var n := s.nodes[v];
    var out := Out(n, {AppResp(v, to, n.term, 0)}, []);
    assert AcksIn(out.msgs) == {Ack(v, n.term, 0)};
    SelfAckHolds(s, v, n);
    WithAcksGrows(s.h, NewAcks(out));
    PrsSame(s.h, WithAcks(s.h, NewAcks(out)), s.nodes, n, n);
    CalmStep(s.cfg, s.h, s.nodes, n, out);
  }

  // ---------------------------------------------------------------------------
  // Committing
  // ---------------------------------------------------------------------------

  /** The quorum index of the progress map is acknowledged by a quorum in this term. */
  lemma QuorumAcked(cfg: JointConfig, h: Hist, n: Node, nodes: map<NodeId, Node>, mci: nat)
    requires n.role == Leader && n.term in h.llog && n.term in h.base && n.log == h.llog[n.term]
    requires PrsL(h, n, nodes) && cfg.IDs() <= nodes.Keys && cfg.incoming != {}
    requires IsJointCommitted(cfg, Matches(n.prs), At(mci)) && h.base[n.term] < mci
    ensures ChoiceOk(cfg, h, Choice(n.term, mci))
  {
    var A := Ackers(cfg.IDs(), Matches(n.prs), mci);
    forall u | u in A ensures HasAck(h, u, n.term, mci) && mci <= |n.log| {
      assert PrL(h, n, u, n.prs[u], nodes[u]);
      assert Ack(u, n.term, n.prs[u].matched) in h.acks;
    }
    IsQuorumMono(cfg, A, AckedBy(cfg, h, n.term, mci));
    var u := QuorumsMeet(cfg, A, A);
  }

  /** The history once `x` is chosen on top of new acknowledgements. */
  function WithChoice(h: Hist, acks: set<Ack>, x: Choice): Hist {
    h.(acks := h.acks + acks, chosen := h.chosen + {x})
  }

  lemma WithChoiceGrows(h: Hist, acks: set<Ack>, x: Choice)
    requires TermsOk(h)
    ensures Grow(h, WithChoice(h, acks, x)) && TermsOk(WithChoice(h, acks, x))
    ensures Grow(WithAcks(h, acks), WithChoice(h, acks, x))
  {
    SameTermsOk(h, WithChoice(h, acks, x));
  }

  lemma CommitHist(cfg: JointConfig, h: Hist, n: Node, n1: Node, mci: nat)
    requires TermsOk(h) && NodeE(h, n.id, n) && NodeL(h, n) && CalmNode(n, n1) && n1.role == Leader
    requires AcksHold(h, n, SelfAck(n1)) && mci > n1.committed
    requires ChoiceOk(cfg, WithAcks(h, SelfAck(n1)), Choice(n1.term, mci))
    ensures LocalHist(cfg, h, n, Quiet(n1.(committed := mci)), WithChoice(h, SelfAck(n1), Choice(n1.term, mci)))
  {
    var x, n' := Choice(n1.term, mci), n1.(committed := mci);
    var h' := WithChoice(h, SelfAck(n1), x);
    WithChoiceGrows(h, SelfAck(n1), x);
    HasAckGrows(cfg, WithAcks(h, SelfAck(n1)), h', x);
    assert NewAcks(Quiet(n')) == SelfAck(n1);
    assert Advance(h', n, n');
    AcksHoldGrow(h, h', n, n', SelfAck(n1));
  }

  lemma CommitNodeL(h: Hist, h': Hist, n: Node, n1: Node, mci: nat)
    requires TermsOk(h) && NodeL(h, n) && CalmNode(n, n1) && n1.role == Leader && mci <= |n1.log|
    requires h' == WithChoice(h, SelfAck(n1), Choice(n1.term, mci))
    ensures NodeL(h', n1.(committed := mci)) && Advance(h', n, n1.(committed := mci))
  {
    WithChoiceGrows(h, SelfAck(n1), Choice(n1.term, mci));
    GoodLogGrows(h, h', n.log);
    assert SafeBy(h', n1.term, n1.log, mci, Choice(n1.term, mci));
  }

  lemma CommitPrs(s: Sys, v: NodeId, n1: Node, h': Hist, mci: nat)
    requires Leads(s, v) && CalmNode(s.nodes[v], n1) && n1.role == Leader
    requires PrsL(WithAcks(s.h, SelfAck(n1)), n1, s.nodes[v := n1])
    requires h' == WithChoice(s.h, SelfAck(n1), Choice(n1.term, mci))
    ensures PrsL(h', n1.(committed := mci), s.nodes[v := n1.(committed := mci)])
  {
    hide SafeCommit, RoleL, GoodLog, PrL, TermOk;
    var h1, n' := WithAcks(s.h, SelfAck(n1)), n1.(committed := mci);
    WithAcksGrows(s.h, SelfAck(n1));
    WithChoiceGrows(s.h, SelfAck(n1), Choice(n1.term, mci));
    forall u | u in s.nodes
      ensures LogL(h1, s.nodes[v := n1][u]) && Advance(h', s.nodes[v := n1][u], s.nodes[v := n'][u])
    {
      assert NodeL(s.h, s.nodes[u]);
      GoodLogGrows(s.h, h1, s.nodes[u].log);
    }
    PrsCarry(h1, h', s.nodes[v := n1], s.nodes[v := n'], n1, n');
  }

  /** A leader updates one progress entry and then commits up to the quorum index. */
  lemma CommitStep(s: Sys, v: NodeId, n1: Node, mci: nat)
    requires Leads(s, v) && CalmNode(s.nodes[v], n1) && n1.role == Leader
    requires AcksHold(s.h, s.nodes[v], SelfAck(n1)) && n1.committed < mci <= |n1.log|
    requires PrsL(WithAcks(s.h, SelfAck(n1)), n1, s.nodes[v := n1])
    requires ChoiceOk(s.cfg, WithAcks(s.h, SelfAck(n1)), Choice(n1.term, mci))
    ensures Owed(s, v, Quiet(n1.(committed := mci)))
  {
    var n, h' := s.nodes[v], WithChoice(s.h, SelfAck(n1), Choice(n1.term, mci));
    CommitObserve(s.h, n, n1, mci);
    CommitHist(s.cfg, s.h, n, n1, mci);
    CommitNodeL(s.h, h', n, n1, mci);
    CommitPrs(s, v, n1, h', mci);
  }

  lemma CommitObserve(h: Hist, n: Node, n1: Node, mci: nat)
    requires NodeE(h, n.id, n) && NodeL(h, n) && CalmNode(n, n1) && n1.role == Leader && mci > n1.committed
    ensures Observe(h, n, Quiet(n1.(committed := mci))) == WithChoice(h, SelfAck(n1), Choice(n1.term, mci))
  {
    assert h.ldr[n.term := n.id] == h.ldr;
    assert h.llog[n.term := n.log] == h.llog;
  }

  // ---------------------------------------------------------------------------
  // Acknowledgements
  // ---------------------------------------------------------------------------

  /** A progress update, committed or not. */
  lemma UpdateAndCommit(s: Sys, v: NodeId, n1: Node, mci: nat)
    requires Leads(s, v) && s.cfg.IDs() <= s.nodes.Keys && s.cfg.incoming != {}
    requires CalmNode(s.nodes[v], n1) && n1.role == Leader && AcksHold(s.h, s.nodes[v], SelfAck(n1))
    requires PrsL(WithAcks(s.h, SelfAck(n1)), n1, s.nodes[v := n1])
    requires IsJointCommitted(s.cfg, Matches(n1.prs), At(mci))
    ensures Owed(s, v, Quiet(MaybeCommit(n1, mci)))
  {
    hide PrsL, AcksHold, Owed, IsJointCommitted, Matches;
    if mci >= n1.termStart && n1.committed < mci <= |n1.log| {
      QuorumAcked(s.cfg, WithAcks(s.h, SelfAck(n1)), n1, s.nodes[v := n1], mci);
      CommitStep(s, v, n1, mci);
    } else {
      CalmUpdate(s, v, n1);
    }
  }

  lemma CalmUpdate(s: Sys, v: NodeId, n1: Node)
    requires Here(s, v) && CalmNode(s.nodes[v], n1) && AcksHold(s.h, s.nodes[v], SelfAck(n1))
    requires PrsL(WithAcks(s.h, SelfAck(n1)), n1, s.nodes[v := n1])
    ensures Owed(s, v, Quiet(n1))
  {
    assert NewAcks(Quiet(n1)) == SelfAck(n1);
    CalmStep(s.cfg, s.h, s.nodes, s.nodes[v], Quiet(n1));
  }

  lemma SelfPr(s: Sys, v: NodeId, i: nat)
    requires Leads(s, v) && i <= |s.nodes[v].log|
    ensures var n1 := SelfAcked(s.nodes[v], i);
      && AcksHold(s.h, s.nodes[v], SelfAck(n1)) && PrsL(WithAcks(s.h, SelfAck(n1)), n1, s.nodes[v := n1])
  {
    var n, n1 := s.nodes[v], SelfAcked(s.nodes[v], i);
    if v in n.prs {
      var pr := n1.prs[v];
      assert PrL(s.h, n, v, n.prs[v], n);
      PeerSelfAck(s, v, n1, v, pr);
      PrsUpdated(s, v, n1, v, pr, SelfAck(n1));
    } else {
      SelfAckHolds(s, v, n1);
      WithAcksGrows(s.h, SelfAck(n1));
      PrsSame(s.h, WithAcks(s.h, SelfAck(n1)), s.nodes, n, n1);
    }
  }

  lemma LogStatusLeader(s: Sys, v: NodeId, i: nat, t: nat, mci: nat)
    requires Leads(s, v) && s.cfg.IDs() <= s.nodes.Keys && s.cfg.incoming != {}
    requires StableToOk(s.nodes[v], i, t) ==> IsJointCommitted(s.cfg, Matches(SelfAcked(s.nodes[v], i).prs), At(mci))
    ensures Owed(s, v, HandleLogStatus(s.nodes[v], i, t, mci))
  {
    var n := s.nodes[v];
    if StableToOk(n, i, t) {
      SelfPr(s, v, i);
      UpdateAndCommit(s, v, SelfAcked(n, i), mci);
    } else {
      IdleLeader(s, v, Quiet(n));
    }
  }

  lemma PeerPr(s: Sys, v: NodeId, j: NodeId, i: nat)
    requires Leads(s, v) && j in s.nodes[v].prs && j in s.nodes && s.nodes[j].id == j
    requires Ack(j, s.nodes[v].term, i) in s.h.acks
    ensures var n1 := Acked(s.nodes[v], j, i);
      && AcksHold(s.h, s.nodes[v], SelfAck(n1)) && PrsL(WithAcks(s.h, SelfAck(n1)), n1, s.nodes[v := n1])
  {
    hide OnAck, TermsSeen, TermsOk, WithAcks, AcksHold;
    var n, n1 := s.nodes[v], Acked(s.nodes[v], j, i);
    var pr, h1 := n1.prs[j], WithAcks(s.h, SelfAck(n1));
    assert PrL(s.h, n, j, n.prs[j], s.nodes[j]) && NodeL(s.h, s.nodes[j]);
    OnAckL(s.h, n, j, n.prs[j], s.nodes[j], i);
    PeerSelfAck(s, v, n1, j, pr);
    WithAcksGrows(s.h, SelfAck(n1));
    assert Advance(h1, s.nodes[j], s.nodes[v := n1][j]);
    PrGrows(s.h, h1, n, j, pr, s.nodes[j], s.nodes[v := n1][j]);
    PrsUpdated(s, v, n1, j, pr, SelfAck(n1));
  }

  lemma AckedStep(s: Sys, v: NodeId, m: Msg, mci: nat)
    requires Leads(s, v) && s.cfg.IDs() <= s.nodes.Keys && s.cfg.incoming != {}
    requires m.AppResp? && m.term == s.nodes[v].term && MsgL(s.h, s.nodes, m)
    requires forall u | u in s.nodes :: s.nodes[u].id == u
    requires m.from in s.nodes[v].prs && s.nodes[v].prs[m.from].matched < m.index ==>
               IsJointCommitted(s.cfg, Matches(Acked(s.nodes[v], m.from, m.index).prs), At(mci))
    ensures Owed(s, v, StepAppResp(s.nodes[v], m, mci))
  {
    hide Owed, NodesL, OnAck;
    var n := s.nodes[v];
    if m.from in n.prs {
      PeerPr(s, v, m.from, m.index);
      var n1 := Acked(n, m.from, m.index);
      if n.prs[m.from].matched < m.index {
        UpdateAndCommit(s, v, n1, mci);
      } else {
        CalmUpdate(s, v, n1);
      }
    } else {
      IdleLeader(s, v, Quiet(n));
    }
  }

  // ---------------------------------------------------------------------------
  // Proposals
  // ---------------------------------------------------------------------------

  lemma ProposeTerms(h: Hist, n: Node, ents: seq<Entry>, h': Hist)
    requires TermsOk(h) && n.term in h.llog && n.log == h.llog[n.term] && GoodLog(h, n.log)
    requires forall i | 0 <= i < |ents| :: ents[i].term == n.term
    requires h'.llog == h.llog[n.term := n.log + ents]
    requires h'.ldr == h.ldr && h'.base == h.base && h'.cands == h.cands
    ensures GrowTerms(h, h') && TermsOk(h')
  {
    hide GoodLog;
    assert TermOk(h, n.term);
    assert (n.log + ents)[..|n.log|] == n.log;
    GoodLogGrows(h, h', n.log);
    TermSteps.ExtendGood(h', n.log, ents, n.term);
    assert (n.log + ents)[..h.base[n.term]] == n.log[..h.base[n.term]];
    TermSteps.OneTermOk(h, h', n.term);
  }

  lemma ProposeObserve(h: Hist, n: Node, ents: seq<Entry>)
    requires NodeE(h, n.id, n) && n.role == Leader
    ensures Observe(h, n, Quiet(AppendEntries(n, ents))) ==
            h.(llog := h.llog[n.term := n.log + Stamp(ents, n.term)], acks := h.acks + SelfAck(n))
  {
    assert h.ldr[n.term := n.id] == h.ldr;
  }

  lemma ProposeNodeL(h: Hist, n: Node, ents: seq<Entry>, h': Hist, n': Node)
    requires TermsOk(h) && NodeL(h, n) && n.role == Leader && n' == n.(log := n.log + ents)
    requires TermsOk(h') && GrowTerms(h, h')
    requires h' == h.(llog := h.llog[n.term := n'.log], acks := h'.acks) && h.acks <= h'.acks
    ensures NodeL(h', n') && Advance(h', n, n')
  {
    assert n'.log[..|n.log|] == n.log;
    TermSteps.WinNodeL(h, h', n, n');
  }

  lemma ProposeHere(h: Hist, n: Node, ents: seq<Entry>, h': Hist)
    requires TermsOk(h) && NodeE(h, n.id, n) && NodeL(h, n) && n.role == Leader
    requires h' == Observe(h, n, Quiet(AppendEntries(n, ents)))
    ensures Grow(h, h') && TermsOk(h')
    ensures NodeL(h', AppendEntries(n, ents)) && Advance(h', n, AppendEntries(n, ents))
  {
    ProposeObserve(h, n, ents);
    ProposeTerms(h, n, Stamp(ents, n.term), h');
    ProposeNodeL(h, n, Stamp(ents, n.term), h', AppendEntries(n, ents));
  }

  lemma ProposePrs(s: Sys, v: NodeId, n': Node, h': Hist)
    requires Leads(s, v) && TermsOk(h') && Grow(s.h, h') && Advance(h', s.nodes[v], n')
    requires n'.id == v && n'.term == s.nodes[v].term && |n'.log| >= |s.nodes[v].log| && n'.prs == s.nodes[v].prs
    ensures PrsL(h', n', s.nodes[v := n'])
  {
    hide PrL, SafeCommit, RoleL, GoodLog, TermOk;
    forall u | u in s.nodes
      ensures LogL(s.h, s.nodes[u]) && Advance(h', s.nodes[u], s.nodes[v := n'][u])
    {
      assert NodeL(s.h, s.nodes[u]);
    }
    PrsCarry(s.h, h', s.nodes, s.nodes[v := n'], s.nodes[v], n');
  }

  lemma ProposeStep(s: Sys, v: NodeId, ents: seq<Entry>)
    requires Leads(s, v)
    ensures Owed(s, v, Quiet(AppendEntries(s.nodes[v], ents)))
  {
    hide TermsOk, NodeL, PrsL, Advance, AckL;
    var n, n' := s.nodes[v], AppendEntries(s.nodes[v], ents);
    var h' := Observe(s.h, n, Quiet(n'));
    ProposeHere(s.h, n, ents, h');
    ProposePrs(s, v, n', h');
    SelfAckHolds(s, v, n);
    AcksHoldGrow(s.h, h', n, n', SelfAck(n));
    assert NewAcks(Quiet(n')) == SelfAck(n);
  }
}
