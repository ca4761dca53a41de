// Log Matching, Leader Completeness and State Machine Safety over every run whose
// crashes keep what their nodes promised (sections 5.3 and 5.4 of the Raft paper).
module LogSafety {
  import opened Quorum
  import opened PlainLog
  import opened ProgressSpec
  import opened RaftNode
  import opened Protocol
  import opened Election
  import opened History
  import opened Replication
  import opened Lift
  import opened CalmSteps
  import opened VotingSteps
  import TermSteps
  import FollowerSteps
  import LeaderSteps

  // ---------------------------------------------------------------------------
  // Every step keeps the invariant
  // ---------------------------------------------------------------------------

  lemma HereOf(s: Sys, v: NodeId)
    requires LInv(s) && v in s.nodes
    ensures Here(s, v) && CastFor(s.h, v, Hard(s.nodes[v]))
    ensures s.nodes[v].role == Leader ==> LeaderSteps.Leads(s, v)
    ensures forall u | u in s.nodes :: s.nodes[u].id == u
  {
    assert NodeE(s.h, v, s.nodes[v]) && NodeL(s.h, s.nodes[v]);
    assert DiskE(s.h, v, s.nodes[v], s.disks[v]) && DiskL(s.h, v, s.disks[v]);
    MemoryCast(s.h, v, s.nodes[v], s.disks[v]);
    forall u | u in s.nodes ensures s.nodes[u].id == u { assert NodeE(s.h, u, s.nodes[u]); }
  }

  /** A candidate that wins is the first leader of its term. */
  lemma WinsFirst(s: Sys, v: NodeId, votes: map<NodeId, bool>)
    requires EInv(s) && Here(s, v) && s.nodes[v].role == Candidate
    requires VotesE(s.h, v, s.nodes[v].term, votes) && JointVote(s.cfg, votes) == VoteWon
    ensures s.nodes[v].term !in s.h.ldr
  {
    var t := s.nodes[v].term;
    WinIsBacked(s.cfg, s.h, v, t, votes);
    if t in s.h.ldr { LeaderUnique(s.cfg, s.h, t, s.h.ldr[t], v); }
  }

  lemma TallyStep(s: Sys, v: NodeId, u: NodeId, yes: bool)
    requires EInv(s) && Here(s, v) && NodesL(s) && s.nodes[v].role == Candidate
    requires yes ==> Granted(s.h, u, s.nodes[v].term, v)
    ensures var p := s.nodes[v].(votes := RecordVote(s.nodes[v].votes, u, yes));
      && Owed(s, v, Quiet(p))
      && (JointVote(s.cfg, p.votes) == VoteWon ==> Owed(s, v, Quiet(BecomeLeader(p))))
  {
    var n := s.nodes[v];
    var p := n.(votes := RecordVote(n.votes, u, yes));
    CalmFollower(s, v, Quiet(p));
    if JointVote(s.cfg, p.votes) == VoteWon {
      WinsFirst(s, v, p.votes);
      TermSteps.WinStep(s, v, p);
    }
  }

  lemma VoteStep(s: Sys, v: NodeId, m: Msg)
    requires Here(s, v) && (s.nodes[v].role == Leader ==> LeaderSteps.Leads(s, v))
    requires m.Vote? && m.term >= s.nodes[v].term && VoteL(s.h, m)
    ensures Owed(s, v, HandleVote(s.nodes[v], m))
  {
    var n := s.nodes[v];
    var out := HandleVote(n, m);
    if m.term > n.term {
      TermSteps.EnterStep(s, v, out, m);
    } else if n.role == Leader {
      IdleLeader(s, v, out);
    } else {
      CalmFollower(s, v, out);
    }
  }

  lemma VoteRespStep(s: Sys, v: NodeId, m: Msg)
    requires EInv(s) && Here(s, v) && NodesL(s) && CastFor(s.h, v, Hard(s.nodes[v]))
    requires s.nodes[v].role == Leader ==> LeaderSteps.Leads(s, v)
    requires m.VoteResp? && m.to == v && m.term == s.nodes[v].term && MsgE(s.h, m)
    ensures Owed(s, v, HandleVoteResp(s.cfg, s.nodes[v], m))
  {
    var n := s.nodes[v];
    var p := n.(votes := RecordVote(n.votes, m.from, !m.reject));
    if n.role == Leader {
      IdleLeader(s, v, Quiet(n));
    } else if n.role != Candidate {
      CalmFollower(s, v, Quiet(n));
    } else if JointVote(s.cfg, p.votes) == VoteLost {
      CalmFollower(s, v, BecomeFollowerExt(p, p.term, NONE));
    } else {
      TallyStep(s, v, m.from, !m.reject);
    }
  }

  lemma StatusStep(s: Sys, v: NodeId, hs: HardState)
    requires EInv(s) && Here(s, v) && NodesL(s) && IsDurable(s.h, v, hs)
    requires s.nodes[v].role == Leader ==> LeaderSteps.Leads(s, v)
    ensures Owed(s, v, HandleStatePersisted(s.cfg, s.nodes[v], hs))
  {
    hide HistE, NodesL, Owed, JointVote, PrsL, GoodLog, SafeCommit;
    var n := s.nodes[v];
    if n.role == Leader {
      IdleLeader(s, v, Quiet(n));
    } else if n.role == Candidate && hs == HardState(n.term, v) {
      TallyStep(s, v, v, true);
    } else {
      CalmFollower(s, v, HandleStatePersisted(s.cfg, n, hs));
    }
  }

  lemma RoleStep(s: Sys, v: NodeId, term: nat, lead: NodeId)
    requires Here(s, v) && CastFor(s.h, v, Hard(s.nodes[v])) && term >= s.nodes[v].term
    ensures Owed(s, v, BecomeFollowerExt(s.nodes[v], term, lead))
  {
    var n := s.nodes[v];
    var out := BecomeFollowerExt(n, term, lead);
    if term == n.term {
      CalmFollower(s, v, out);
    } else {
      TermSteps.EnterStep(s, v, out, VoteResp(v, v, 0, true));
    }
  }

  lemma CampaignStep(s: Sys, v: NodeId)
    requires Here(s, v)
    ensures Owed(s, v, Campaign(s.cfg, s.nodes[v]))
  {
    TermSteps.EnterStep(s, v, Campaign(s.cfg, s.nodes[v]), VoteResp(v, v, 0, true));
  }

  lemma AppStep(s: Sys, v: NodeId, m: Msg)
    requires Here(s, v) && HistL(s.cfg, s.h) && (s.nodes[v].role == Leader ==> LeaderSteps.Leads(s, v))
    requires m.App? && m.to == v && m.term == s.nodes[v].term && MsgL(s.h, s.nodes, m)
    ensures Owed(s, v, StepApp(s.nodes[v], m))
  {
    hide HistL, Slice, HandleAppendEntries, SafeCommit, GoodLog, Owed, PrL;
    if s.nodes[v].role == Leader {
      IdleLeader(s, v, Quiet(s.nodes[v]));
    } else {
      FollowerSteps.RecvAppStep(s, v, m);
    }
  }

  lemma BeatStep(s: Sys, v: NodeId, m: Msg)
    requires Here(s, v) && AcksL(s) && (s.nodes[v].role == Leader ==> LeaderSteps.Leads(s, v))
    requires m.Heartbeat? && m.to == v && m.term == s.nodes[v].term && MsgL(s.h, s.nodes, m)
    ensures Owed(s, v, StepHeartbeat(s.nodes[v], m))
  {
    if s.nodes[v].role == Leader {
      IdleLeader(s, v, Quiet(s.nodes[v]));
    } else {
      FollowerSteps.RecvBeatStep(s, v, m);
    }
  }

  lemma ElectionStep(s: Sys, a: Action)
    requires LInv(s) && Enabled(s, a) && IsNodeStep(a) && !IsReplication(a)
    ensures Owed(s, a.v, NodeStep(s, a))
  {
    var v := a.v;
    HereOf(s, v);
    match a {
      case DoCampaign(_) => CampaignStep(s, v);
      case DoPreCampaign(_) => CalmFollower(s, v, Quiet(BecomePreCandidate(s.nodes[v])));
      case StepDown(_) => RoleStep(s, v, s.nodes[v].term, NONE);
      case ObserveTerm(_, term) => RoleStep(s, v, term, NONE);
      case ObserveLeader(_, m) => RoleStep(s, v, m.term, m.from);
      case RecvVote(_, m) => assert MsgL(s.h, s.nodes, m); VoteStep(s, v, m);
      case RecvVoteResp(_, m) => assert MsgE(s.h, m); VoteRespStep(s, v, m);
      case StateStatus(_, hs) => StatusStep(s, v, hs);
      case RecvApp(_, m) => assert MsgL(s.h, s.nodes, m); AppStep(s, v, m);
      case RecvBeat(_, m) => assert MsgL(s.h, s.nodes, m); BeatStep(s, v, m);
    }
  }

  lemma QuietStep(s: Sys, a: Action)
    requires LInv(s) && Enabled(s, a) && IsReplication(a) && s.nodes[a.v].role != Leader
    ensures Owed(s, a.v, NodeStep(s, a))
  {
    hide Owed, TermAt, NodesE;
    var v, n := a.v, s.nodes[a.v];
    HereOf(s, v);
    match a {
      case LogStatus(_, i, t, mci) => FollowerSteps.LogStatusFollower(s, v, i, t, mci);
      case RecvAppResp(_, m, mci) => CalmFollower(s, v, Quiet(n));
      case RecvAppReject(_, m) => CalmFollower(s, v, Quiet(n));
      case Unreachable(_, peer) => CalmFollower(s, v, Quiet(n));
      case AnswerStale(_, to) =>
        FollowerSteps.ZeroAck(s.h, n);
        FollowerSteps.AckStep(s, v, n, to, 0);
    }
  }

  lemma LeaderStep(s: Sys, a: Action)
    requires LInv(s) && Enabled(s, a) && ReadsCommit(s, a) && IsReplication(a) && s.nodes[a.v].role == Leader
    ensures Owed(s, a.v, NodeStep(s, a))
  {
    hide Owed, HistL, NodesL, Here, TermAt;
    var v := a.v;
    HereOf(s, v);
    match a {
      case Propose(_, ents) => LeaderSteps.ProposeStep(s, v, ents);
      case SendApp(_, to, k) => LeaderSteps.SendAppStep(s, v, to, k);
      case SendBeat(_, to) => LeaderSteps.SendBeatStep(s, v, to);
      case LogStatus(_, i, t, mci) => LeaderSteps.LogStatusLeader(s, v, i, t, mci);
      case RecvAppResp(_, m, mci) => assert MsgL(s.h, s.nodes, m); LeaderSteps.AckedStep(s, v, m, mci);
      case RecvAppReject(_, m) => assert MsgL(s.h, s.nodes, m); LeaderSteps.RejectedStep(s, v, m);
      case Unreachable(_, peer) => LeaderSteps.UnreachableStep(s, v, peer);
      case AnswerStale(_, to) => LeaderSteps.AnswerStaleLeader(s, v, to);
    }
  }

  lemma NodeStepKeepsL(s: Sys, a: Action)
    requires LInv(s) && Enabled(s, a) && ReadsCommit(s, a) && IsNodeStep(a)
    ensures LInv(Emit(s, a.v, NodeStep(s, a))) && Grow(s.h, Emit(s, a.v, NodeStep(s, a)).h)
  {
    if !IsReplication(a) {
      ElectionStep(s, a);
    } else if s.nodes[a.v].role == Leader {
      LeaderStep(s, a);
    } else {
      QuietStep(s, a);
    }
    NodeStepKeepsE(s, a);
    LiftL(s, a.v, NodeStep(s, a));
  }

  // ---------------------------------------------------------------------------
  // Hard-state writes
  // ---------------------------------------------------------------------------

  lemma PersistVotes(h: Hist, v: NodeId, hs: HardState, h': Hist)
    requires BallotsOk(h) && DurableOk(h) && CastFor(h, v, hs) && GrowTerms(h, h')
    requires h' == h.(durable := h.durable[(v, hs.term) := hs.vote])
    ensures BallotsOk(h') && DurableOk(h')
  {
    forall u, t | (u, t) in h'.ballots ensures t >= 1 && BallotOk(h', u, t) { BallotGrows(h, h', u, t); }
    forall u, t | (u, t) in h'.durable ensures CastFor(h', u, HardState(t, h'.durable[(u, t)])) {
      if (u, t) != (v, hs.term) { assert CastFor(h, u, HardState(t, h.durable[(u, t)])); }
    }
  }

  lemma PersistHist(cfg: JointConfig, h: Hist, v: NodeId, hs: HardState, h': Hist)
    requires HistL(cfg, h) && HistE(cfg, h') && GrowE(h, h') && CastFor(h, v, hs)
    requires h' == h.(durable := h.durable[(v, hs.term) := hs.vote])
    ensures Grow(h, h') && HistL(cfg, h')
  {
    hide TermsOk, BallotsOk, DurableOk, AcksOk, HistE, GrowE;
    SameTermsOk(h, h');
    PersistVotes(h, v, hs, h');
    PersistAcks(h, h');
    forall x | x in h'.chosen ensures ChoiceOk(cfg, h', x) { HasAckGrows(cfg, h, h', x); }
  }

  lemma PersistAcks(h: Hist, h': Hist)
    requires TermsOk(h) && AcksOk(h) && GrowTerms(h, h')
    requires h'.acks == h.acks && h'.ballots == h.ballots && h'.llog == h.llog
    ensures AcksOk(h')
  {
    forall a | a in h'.acks && a.index > 0
      ensures a.term in h'.llog && a.index <= |h'.llog[a.term]| && AckVoteOk(h', a)
    {
      assert AckVoteOk(h, a);
      forall t | (a.node, t) in h'.ballots && t > a.term
        ensures t >= 1 && KeptUpTo(h', a.term, a.index, h'.ballots[(a.node, t)].log, t - 1)
      {
        KeptGrows(h, h', a.term, a.index, h.ballots[(a.node, t)].log, t - 1);
      }
    }
  }

  lemma PersistSteps(s: Sys, v: NodeId, s': Sys)
    requires Here(s, v) && NodesL(s) && s'.nodes == s.nodes && Grow(s.h, s'.h) && TermsOk(s'.h)
    requires s'.h == s.h.(durable := s'.h.durable)
    ensures Stepped(s, v, s') && NodeL(s'.h, s'.nodes[v])
    ensures s.nodes[v].role == Leader && PrsL(s.h, s.nodes[v], s.nodes) ==> PrsL(s'.h, s'.nodes[v], s'.nodes)
  {
    forall u | u in s.nodes ensures LogL(s.h, s.nodes[u]) && Advance(s'.h, s.nodes[u], s'.nodes[u]) {
      assert NodeL(s.h, s.nodes[u]);
      Stays(s'.h, s.nodes[u]);
    }
    CalmNodeL(s.h, s'.h, s.nodes[v], s.nodes[v]);
    if s.nodes[v].role == Leader && PrsL(s.h, s.nodes[v], s.nodes) {
      PrsCarry(s.h, s'.h, s.nodes, s.nodes, s.nodes[v], s.nodes[v]);
    }
  }

  lemma PersistCarries(s: Sys, v: NodeId, s': Sys)
    requires Stepped(s, v, s') && NodesE(s) && NodesL(s) && AllPrsL(s) && NetL(s) && AcksL(s)
    requires NodeL(s'.h, s'.nodes[v]) && PrsL(s'.h, s'.nodes[v], s'.nodes)
    requires s'.net == s.net && s'.h.acks == s.h.acks
    ensures NodesL(s') && AllPrsL(s') && NetL(s') && AcksL(s')
  {
    hide GoodLog, TermsOk, NodeL, PrsL, MsgL;
    LiftNodes(s, v, s');
    LiftPrs(s, v, s');
    LiftNet(s, v, {}, s');
    LiftAcksL(s, v, {}, s');
  }

  lemma PersistDisks(s: Sys, v: NodeId)
    requires v in s.disks && s.disks[v].queue != [] && DisksL(s)
    ensures DisksL(Persist(s, v)) && CastFor(s.h, v, s.disks[v].queue[0])
  {
    var s' := Persist(s, v);
    assert DiskL(s.h, v, s.disks[v]);
    forall u | u in s'.disks ensures DiskL(s'.h, u, s'.disks[u]) {
      assert DiskL(s.h, u, s.disks[u]);
      forall hs | hs in s'.disks[u].queue ensures CastFor(s'.h, u, hs) { assert hs in s.disks[u].queue; }
    }
  }

  lemma PersistKeepsL(s: Sys, v: NodeId, s': Sys)
    requires LInv(s) && v in s.nodes && v in s.disks && s.disks[v].queue != [] && s' == Persist(s, v)
    ensures LInv(s') && Grow(s.h, s'.h)
  {
    HereOf(s, v);
    PersistE(s, v);
    PersistDisks(s, v);
    PersistHist(s.cfg, s.h, v, s.disks[v].queue[0], s'.h);
    PersistSteps(s, v, s');
    assert PrsL(s'.h, s'.nodes[v], s'.nodes);
    PersistCarries(s, v, s');
  }

  // ---------------------------------------------------------------------------
  // Crashes
  // ---------------------------------------------------------------------------

  /** The same node in the same term, with a part of its log. */
  predicate Shorter(n: Node, n': Node) { n'.id == n.id && n'.term == n.term && IsPrefix(n'.log, n.log) }

  lemma PrefixTrans(a: Log, b: Log, c: Log)
    requires IsPrefix(a, b) && IsPrefix(b, c)
    ensures IsPrefix(a, c)
  {
    SliceOfTake(c, |b|, 0, |a|);
  }

  lemma ShorterBound(n: Node, n': Node, L: Log, p: nat)
    requires Shorter(n, n') && CommonBound(n.log, L, p)
    ensures CommonBound(n'.log, L, p)
  {
    assert forall k | 0 <= k < |n'.log| :: n'.log[k] == n.log[k];
  }

  lemma ShorterProbe(h: Hist, n: Node, n': Node, t: nat, p: nat)
    requires Shorter(n, n') && t in h.llog && t in h.base && ProbeOk(h, n, t, p)
    ensures ProbeOk(h, n', t, p)
  {
    hide CommonBound;
    if n.term == t {
      if IsPrefix(n.log, h.llog[t]) {
        PrefixTrans(n'.log, n.log, h.llog[t]);
      } else {
        ShorterBound(n, n', h.llog[t], p);
      }
    }
  }

  lemma ShorterSettled(h: Hist, n: Node, n': Node, t: nat)
    requires Shorter(n, n') && Settled(h, n, t)
    ensures Settled(h, n', t)
  {
    if n.term == t { PrefixTrans(n'.log, n.log, h.llog[t]); }
  }

  lemma ShorterReject(h: Hist, n: Node, n': Node, m: Msg)
    requires Shorter(n, n') && m.AppReject? && RejectL(h, m, n)
    ensures RejectL(h, m, n')
  {
    hide CommonBound;
    if n.term == m.term && !IsPrefix(n'.log, h.llog[m.term]) {
      if IsPrefix(n.log, h.llog[m.term]) { PrefixTrans(n'.log, n.log, h.llog[m.term]); }
      ShorterBound(n, n', h.llog[m.term], m.index - 1);
      ShorterBound(n, n', h.llog[m.term], m.hint);
      assert forall k | 0 <= k < |n'.log| :: n'.log[k] == n.log[k];
    }
  }

  /** What was acknowledged and is still there stays there. */
  lemma ShorterAck(h: Hist, a: Ack, n: Node, n': Node)
    requires Shorter(n, n') && AckL(h, a, n) && (a.index <= |n'.log| || |n'.log| == |n.log|)
    ensures AckL(h, a, n')
  {
    if a.index > 0 {
      ShorterSettled(h, n, n', a.term);
      forall k | 1 <= k <= a.index ensures Kept(h, a.term, k, n'.log, n'.term) {
        assert Kept(h, a.term, k, n.log, n.term);
        if Carried(h, a.term, k, n.term) { SliceOfTake(n.log, |n'.log|, 0, k); }
      }
    }
  }

  lemma ShorterCommit(h: Hist, n: Node, log': Log, c: nat)
    requires SafeCommit(h, n.term, n.log, n.committed) && IsPrefix(log', n.log) && c <= n.committed && c <= |log'|
    ensures SafeCommit(h, n.term, log', c)
  {
    if c > 0 {
      var x :| x in h.chosen && SafeBy(h, n.term, n.log, n.committed, x);
      AgreeDown(n.log, h.llog[x.term], n.committed, c);
      SliceOfTake(n.log, |log'|, 0, c);
      assert SafeBy(h, n.term, log', c, x);
    }
  }

  lemma ShorterNode(h: Hist, n: Node, n': Node)
    requires NodeL(h, n) && Shorter(n, n') && n'.offset >= 1 && n'.committed <= n.committed && n'.committed <= |n'.log|
    requires !n'.receiving && n'.role == Follower
    ensures NodeL(h, n')
  {
    hide SafeCommit, GoodLog, TermsSeen;
    PrefixGood(h, n.log, |n'.log|);
    ShorterCommit(h, n, n'.log, n'.committed);
    assert forall k | 0 <= k < |n'.log| :: n'.log[k] == n.log[k];
    SeenSame(h, n, n');
  }

  lemma SeenSame(h: Hist, n: Node, n': Node)
    requires TermsSeen(h, n) && n'.id == n.id && n'.term == n.term
    ensures TermsSeen(h, n')
  {
  }

  lemma CrashPrs(s: Sys, v: NodeId, n': Node)
    requires v in s.nodes && AllPrsL(s) && Shorter(s.nodes[v], n') && n'.role == Follower
    ensures AllPrsL(s.(nodes := s.nodes[v := n']))
  {
    hide ProbeOk, Settled;
    var nodes := s.nodes[v := n'];
    forall u | u in nodes ensures PrsL(s.h, nodes[u], nodes) {
      assert PrsL(s.h, s.nodes[u], s.nodes);
      if u != v && s.nodes[u].role == Leader && v in s.nodes[u].prs
         && s.nodes[u].term in s.h.llog && s.nodes[u].term in s.h.base {
        var w := s.nodes[u];
        assert PrL(s.h, w, v, w.prs[v], s.nodes[v]);
        if v != w.id {
          ShorterProbe(s.h, s.nodes[v], n', w.term, w.prs[v].next - 1);
          if w.prs[v].state == Replicate { ShorterSettled(s.h, s.nodes[v], n', w.term); }
        }
      }
    }
  }

  lemma CrashMsg(h: Hist, nodes: map<NodeId, Node>, v: NodeId, n': Node, m: Msg)
    requires v in nodes && Shorter(nodes[v], n') && MsgL(h, nodes, m)
    ensures MsgL(h, nodes[v := n'], m)
  {
    hide ProbeOk, RejectL, SafeCommit;
    if m.App? && m.to == v { ShorterProbe(h, nodes[v], n', m.term, m.index); }
    if m.AppReject? && m.from == v { ShorterReject(h, nodes[v], n', m); }
  }

  /** A crash that keeps the node's promises keeps every invariant. */
  lemma CrashKeepsL(s: Sys, a: Action, s': Sys)
    requires LInv(s) && Next(s, a, s') && a.Crash? && KeepsPromises(s, a)
    ensures LInv(s') && s'.h == s.h
  {
    hide EInv, HistL, NodeL, PrsL, MsgL, AckL, Shorter, DiskL;
    RestartE(s, a.v, a.log, a.committed, a.offset);
    CrashNode(s, a);
    var n, n' := s.nodes[a.v], s'.nodes[a.v];
    forall u | u in s'.nodes ensures NodeL(s'.h, s'.nodes[u]) {
      if u != a.v { assert NodeL(s.h, s.nodes[u]); }
    }
    CrashPrs(s, a.v, n');
    forall m | m in s'.net ensures MsgL(s'.h, s'.nodes, m) { CrashMsg(s.h, s.nodes, a.v, n', m); }
    forall x | x in s'.h.acks && x.node in s'.nodes ensures AckL(s'.h, x, s'.nodes[x.node]) {
      assert AckL(s.h, x, s.nodes[x.node]);
      if x.node == a.v { ShorterAck(s.h, x, n, n'); }
    }
    forall u | u in s'.disks ensures DiskL(s'.h, u, s'.disks[u]) { CrashDisk(s, a, u, s'); }
  }

  lemma CrashNode(s: Sys, a: Action)
    requires NodesL(s) && a.Crash? && KeepsPromises(s, a)
    ensures var n' := Restart(s, a.v, a.log, a.committed, a.offset).nodes[a.v];
      && Shorter(s.nodes[a.v], n') && n'.role == Follower && n'.log == a.log && NodeL(s.h, n')
  {
    hide NodeL;
    var n' := Restart(s, a.v, a.log, a.committed, a.offset).nodes[a.v];
    assert NodeL(s.h, s.nodes[a.v]);
    ShorterNode(s.h, s.nodes[a.v], n');
  }

  lemma CrashDisk(s: Sys, a: Action, u: NodeId, s': Sys)
    requires DisksL(s) && a.Crash? && Next(s, a, s') && u in s'.disks
    ensures DiskL(s'.h, u, s'.disks[u])
  {
    if u != a.v { assert DiskL(s.h, u, s.disks[u]); }
  }

  // ---------------------------------------------------------------------------
  // Runs
  // ---------------------------------------------------------------------------

  lemma StepKeepsL(s: Sys, a: Action, s': Sys)
    requires LInv(s) && Next(s, a, s') && KeepsPromises(s, a)
    ensures LInv(s') && Grow(s.h, s'.h)
  {
    if a.PersistState? {
      PersistKeepsL(s, a.v, s');
    } else if a.Crash? {
      CrashKeepsL(s, a, s');
      GrowRefl(s.h);
    } else {
      NodeStepKeepsL(s, a);
    }
  }

  lemma InitL(s: Sys)
    requires Init(s)
    ensures LInv(s)
  {
    InitE(s);
    forall v, t | (v, t) in s.h.durable ensures CastFor(s.h, v, HardState(t, s.h.durable[(v, t)])) {}
    forall v | v in s.nodes ensures NodeL(s.h, s.nodes[v]) {}
  }

  lemma GrowRefl(h: Hist)
    ensures Grow(h, h)
  {
  }

  lemma ExtendsTrans(a: Log, b: Log, c: Log, t: nat)
    requires Extends(a, b, t) && Extends(b, c, t)
    ensures Extends(a, c, t)
  {
    assert c[..|a|] == c[..|b|][..|a|];
    forall i | |a| <= i < |c| ensures c[i].term == t {
      if i < |b| { assert c[i] == c[..|b|][i]; }
    }
  }

  lemma GrowTermsTrans(h: Hist, h1: Hist, h2: Hist)
    requires GrowTerms(h, h1) && GrowTerms(h1, h2)
    ensures GrowTerms(h, h2)
  {
    forall t | t in h.llog ensures Extends(h.llog[t], h2.llog[t], t) {
      ExtendsTrans(h.llog[t], h1.llog[t], h2.llog[t], t);
    }
  }

  lemma GrowTrans(h: Hist, h1: Hist, h2: Hist)
    requires Grow(h, h1) && Grow(h1, h2)
    ensures Grow(h, h2)
  {
    GrowTermsTrans(h, h1, h2);
  }

  lemma {:induction false} RunKeepsL(states: seq<Sys>, acts: seq<Action>, i: nat, j: nat)
    requires IsRun(states, acts) && PromisesKept(states, acts) && i <= j < |states|
    ensures LInv(states[i]) && LInv(states[j]) && Grow(states[i].h, states[j].h)
    decreases j
  {
    hide LInv, Grow, Init, Next;
    if j == 0 {
      InitL(states[0]);
      GrowRefl(states[0].h);
    } else {
      RunKeepsL(states, acts, if i == j then i - 1 else i, j - 1);
      StepKeepsL(states[j-1], acts[j-1], states[j]);
      if i == j { GrowRefl(states[j].h); } else { GrowTrans(states[i].h, states[j-1].h, states[j].h); }
    }
  }

  // ---------------------------------------------------------------------------
  // The theorems
  // ---------------------------------------------------------------------------

  /** Any two moments of a run share a later one. */
  lemma RunMeets(states: seq<Sys>, acts: seq<Action>, i: nat, j: nat) returns (k: nat)
    requires IsRun(states, acts) && PromisesKept(states, acts) && i < |states| && j < |states|
    ensures k == Max(i, j) && LInv(states[i]) && LInv(states[j]) && LInv(states[k])
    ensures Grow(states[i].h, states[k].h) && Grow(states[j].h, states[k].h)
  {
    k := Max(i, j);
    RunKeepsL(states, acts, i, k);
    RunKeepsL(states, acts, j, k);
  }

  /**
   * Log Matching: whenever two logs of the run, at whatever nodes and moments,
   * hold entries of the same term at an index, they are equal up to it.
   */
  lemma LogMatchingInRuns(states: seq<Sys>, acts: seq<Action>, i: nat, j: nat, v: NodeId, w: NodeId, k: nat)
    requires IsRun(states, acts) && PromisesKept(states, acts) && i < |states| && j < |states|
    requires v in states[i].nodes && w in states[j].nodes
    requires 1 <= k <= |states[i].nodes[v].log| && k <= |states[j].nodes[w].log|
    requires states[i].nodes[v].log[k-1].term == states[j].nodes[w].log[k-1].term
    ensures states[i].nodes[v].log[..k] == states[j].nodes[w].log[..k]
  {
    var m := RunMeets(states, acts, i, j);
    assert NodeL(states[i].h, states[i].nodes[v]) && NodeL(states[j].h, states[j].nodes[w]);
    GoodLogGrows(states[i].h, states[m].h, states[i].nodes[v].log);
    GoodLogGrows(states[j].h, states[m].h, states[j].nodes[w].log);
    LogMatching(states[m].h, states[i].nodes[v].log, states[j].nodes[w].log, k);
  }

  /** A commit index, seen from any later moment. */
  lemma CommitLater(states: seq<Sys>, acts: seq<Action>, i: nat, m: nat, v: NodeId)
    requires IsRun(states, acts) && PromisesKept(states, acts) && i <= m < |states| && v in states[i].nodes
    ensures HistL(states[m].cfg, states[m].h)
    ensures var n := states[i].nodes[v]; SafeCommit(states[m].h, n.term, n.log, n.committed)
  {
    RunKeepsL(states, acts, i, m);
    var n := states[i].nodes[v];
    assert NodeL(states[i].h, n);
    SafeCommitReach(states[i].h, n.term, n.log, n.committed);
    SafeCommitGrows(states[i].h, states[m].h, n.term, n.term, n.log, n.log, n.committed);
  }

  /**
   * Leader Completeness: what any node has committed, at any moment, is in the
   * log of every leader of a later term, at any moment.
   */
  lemma LeaderCompletenessInRuns(states: seq<Sys>, acts: seq<Action>, i: nat, j: nat, v: NodeId, w: NodeId)
    requires IsRun(states, acts) && PromisesKept(states, acts) && i < |states| && j < |states|
    requires v in states[i].nodes && w in states[j].nodes && states[j].nodes[w].role == Leader
    requires states[i].nodes[v].term < states[j].nodes[w].term
    ensures Agree(states[j].nodes[w].log, states[i].nodes[v].log, states[i].nodes[v].committed)
  {
    var m := RunMeets(states, acts, i, j);
    CommitLater(states, acts, i, m, v);
    assert NodeL(states[j].h, states[j].nodes[w]) && NodeL(states[i].h, states[i].nodes[v]);
    LaterLeaderHolds(states[m].cfg, states[j].h, states[m].h, states[i].nodes[v], states[j].nodes[w]);
  }

  lemma LaterLeaderHolds(cfg: JointConfig, hj: Hist, h: Hist, n: Node, l: Node)
    requires HistL(cfg, h) && TermsOk(hj) && Grow(hj, h) && l.role == Leader && NodeL(hj, l)
    requires SafeCommit(h, n.term, n.log, n.committed) && TermsBelow(n.log, n.term + 1) && n.term < l.term
    ensures Agree(l.log, n.log, n.committed)
  {
    if n.committed > 0 {
      FollowerSteps.CommitCarried(cfg, h, n.term, n.log, n.committed, l.term);
      BaseHolds(hj, h, n, l, n.committed);
    }
  }

  /** Entries of smaller terms that a leader ever holds are in the log it was elected with. */
  lemma BaseHolds(hj: Hist, h: Hist, n: Node, l: Node, c: nat)
    requires TermsOk(hj) && TermsOk(h) && Grow(hj, h) && l.role == Leader && NodeL(hj, l)
    requires c >= 1 && l.term in h.llog && Agree(n.log, h.llog[l.term], c)
    requires TermsBelow(n.log, n.term + 1) && n.term < l.term
    ensures Agree(l.log, n.log, c)
  {
    AgreeAt(n.log, h.llog[l.term], c, c - 1);
    LeaderTerms(h, l.term, c - 1);
    assert TermOk(hj, l.term);
    LeaderLogGrows(hj, h, l.term, c);
  }

  /**
   * State Machine Safety: no two nodes ever commit different entries at one
   * index, whatever the moments at which they do so.
   */
  lemma StateMachineSafety(states: seq<Sys>, acts: seq<Action>, i: nat, j: nat, v: NodeId, w: NodeId, k: nat)
    requires IsRun(states, acts) && PromisesKept(states, acts) && i < |states| && j < |states|
    requires v in states[i].nodes && w in states[j].nodes
    requires 1 <= k <= states[i].nodes[v].committed && k <= states[j].nodes[w].committed
    ensures k <= |states[i].nodes[v].log| && k <= |states[j].nodes[w].log|
    ensures states[i].nodes[v].log[..k] == states[j].nodes[w].log[..k]
  {
    hide LInv, Grow, GoodLog;
    var m := RunMeets(states, acts, i, j);
    CommitLater(states, acts, i, m, v);
    CommitLater(states, acts, j, m, w);
    CommitsAgree(states[m].cfg, states[m].h, states[i].nodes[v], states[j].nodes[w], k);
  }

  lemma CommitsAgree(cfg: JointConfig, h: Hist, a: Node, b: Node, k: nat)
    requires HistL(cfg, h) && 1 <= k <= a.committed && k <= b.committed
    requires SafeCommit(h, a.term, a.log, a.committed) && SafeCommit(h, b.term, b.log, b.committed)
    ensures Agree(a.log, b.log, k)
  {
    FollowerSteps.SafeCommitDown(h, a.term, a.log, a.committed, k);
    FollowerSteps.SafeCommitDown(h, b.term, b.log, b.committed, k);
    var x :| x in h.chosen && SafeBy(h, a.term, a.log, k, x);
    var y :| y in h.chosen && SafeBy(h, b.term, b.log, k, y);
    ChoicesAgree(cfg, h, x, y, k);
    AgreeTrans(a.log, h.llog[x.term], h.llog[y.term], k);
    AgreeTrans(a.log, h.llog[y.term], b.log, k);
  }

  lemma ChoicesAgree(cfg: JointConfig, h: Hist, x: Choice, y: Choice, k: nat)
    requires HistL(cfg, h) && x in h.chosen && y in h.chosen && k <= x.index && k <= y.index
    ensures x.term in h.llog && y.term in h.llog && Agree(h.llog[x.term], h.llog[y.term], k)
  {
    assert ChoiceOk(cfg, h, x) && ChoiceOk(cfg, h, y);
    if x.term <= y.term {
      FollowerSteps.ChoiceCarried(cfg, h, x, y.term);
      AgreeDown(h.llog[y.term], h.llog[x.term], x.index, k);
    } else {
      FollowerSteps.ChoiceCarried(cfg, h, y, x.term);
      AgreeDown(h.llog[x.term], h.llog[y.term], y.index, k);
    }
  }

  // ---------------------------------------------------------------------------
  // What else holds at every moment of such a run
  // ---------------------------------------------------------------------------

  /** The panics of maybeAppend and commitTo on a delivered append are unreachable. */
  lemma AppendsNeverPanic(states: seq<Sys>, acts: seq<Action>, i: nat, v: NodeId, m: Msg)
    requires IsRun(states, acts) && PromisesKept(states, acts) && i < |states|
    requires v in states[i].nodes && m.App? && Delivered(states[i], v, m)
    ensures !AppendPanics(states[i].nodes[v], m)
  {
    RunKeepsL(states, acts, i, i);
    var s := states[i];
    assert MsgL(s.h, s.nodes, m) && NodeL(s.h, s.nodes[v]);
    FollowerSteps.NoAppendPanic(s.cfg, s.h, s.nodes[v], m);
  }

  /** commitTo never meets a heartbeat beyond the log. */
  lemma HeartbeatsNeverPanic(states: seq<Sys>, acts: seq<Action>, i: nat, v: NodeId, m: Msg)
    requires IsRun(states, acts) && PromisesKept(states, acts) && i < |states|
    requires v in states[i].nodes && m.Heartbeat? && Delivered(states[i], v, m)
    ensures m.commit <= |states[i].nodes[v].log|
  {
    RunKeepsL(states, acts, i, i);
    HereOf(states[i], v);
    assert MsgL(states[i].h, states[i].nodes, m);
    FollowerSteps.BeatCommit(states[i], v, m);
  }

  /**
   * The `termStart` test of maybeCommit is the textbook rule of section 5.4.2:
   * an index is at or above termStart iff its entry is of the leader's term.
   */
  lemma TermStartRule(states: seq<Sys>, acts: seq<Action>, i: nat, v: NodeId, k: nat)
    requires IsRun(states, acts) && PromisesKept(states, acts) && i < |states| && v in states[i].nodes
    requires states[i].nodes[v].role == Leader && 1 <= k <= |states[i].nodes[v].log|
    ensures k >= states[i].nodes[v].termStart <==> states[i].nodes[v].log[k-1].term == states[i].nodes[v].term
  {
    RunKeepsL(states, acts, i, i);
    HereOf(states[i], v);
    TermStartAt(states[i].h, states[i].nodes[v], k);
  }

  lemma TermStartAt(h: Hist, n: Node, k: nat)
    requires TermsOk(h) && NodeL(h, n) && n.role == Leader && 1 <= k <= |n.log|
    ensures k >= n.termStart <==> n.log[k-1].term == n.term
  {
    LeaderTerms(h, n.term, k - 1);
  }

  /**
   * Acknowledgements tell the truth: while the sender stays in the term it
   * acknowledged in, its log agrees with that term's leader up to the index,
   * although MsgLogStatus is answered for whatever index was persisted.
   */
  lemma AcksAreTrue(states: seq<Sys>, acts: seq<Action>, i: nat, m: Msg, u: NodeId)
    requires IsRun(states, acts) && PromisesKept(states, acts) && i < |states|
    requires m in states[i].net && m.AppResp? && u in states[i].nodes
    requires states[i].nodes[u].role == Leader && states[i].nodes[u].term == m.term
    ensures m.from in states[i].nodes
    ensures states[i].nodes[m.from].term == m.term ==>
              Agree(states[i].nodes[m.from].log, states[i].nodes[u].log, m.index)
  {
    RunKeepsL(states, acts, i, i);
    AckTrueAt(states[i], m, u);
  }

  lemma AckTrueAt(s: Sys, m: Msg, u: NodeId)
    requires NodesL(s) && NetL(s) && AcksL(s) && m in s.net && m.AppResp? && u in s.nodes
    requires s.nodes[u].role == Leader && s.nodes[u].term == m.term
    ensures m.from in s.nodes
    ensures s.nodes[m.from].term == m.term ==> Agree(s.nodes[m.from].log, s.nodes[u].log, m.index)
  {
    assert MsgL(s.h, s.nodes, m) && NodeL(s.h, s.nodes[u]);
    assert AckL(s.h, Ack(m.from, m.term, m.index), s.nodes[m.from]);
    if m.index > 0 && s.nodes[m.from].term == m.term {
      assert Kept(s.h, m.term, m.index, s.nodes[m.from].log, m.term);
    }
  }

  /** A delivered append, stale or duplicated, never removes what agrees with its sender's log. */
  lemma AppendsKeepAgreement(states: seq<Sys>, acts: seq<Action>, i: nat, v: NodeId, m: Msg, k: nat)
    requires IsRun(states, acts) && PromisesKept(states, acts) && i < |states|
    requires v in states[i].nodes && m.App? && Delivered(states[i], v, m)
    requires m.term in states[i].h.llog && Agree(states[i].h.llog[m.term], states[i].nodes[v].log, k)
    ensures Agree(StepApp(states[i].nodes[v], m).node.log, states[i].nodes[v].log, k)
  {
    RunKeepsL(states, acts, i, i);
    HereOf(states[i], v);
    assert MsgL(states[i].h, states[i].nodes, m);
    AppendKeepsAt(states[i].h, states[i].nodes[v], m, k);
  }

  lemma AppendKeepsAt(h: Hist, n: Node, m: Msg, k: nat)
    requires TermsOk(h) && LogL(h, n) && m.App? && m.term == n.term && AppL(h, m, n)
    requires Agree(h.llog[m.term], n.log, k)
    ensures Agree(StepApp(n, m).node.log, n.log, k)
  {
    hide StepApp, Accept, TermsOk, LogL, ProbeOk, SafeCommit;
    StepAppLog(n, m);
    if TermAt(n.log, m.index) == m.logTerm {
      FollowerSteps.MatchAgrees(h, n, m.term, m.index);
      FollowerSteps.AcceptKeeps(n.log, h.llog[m.term], m.index, m.ents, k);
    }
  }
}
