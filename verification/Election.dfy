// Election Safety (section 5.2 of the Raft paper) in every run, crashes and
// restarts included, although hard-state writes are asynchronous.
module Election {
  import opened Quorum
  import opened PlainLog
  import opened RaftNode
  import opened Protocol

  // ---------------------------------------------------------------------------
  // The invariant
  // ---------------------------------------------------------------------------

  /** Disk content followed by the queued writes. */
  function Chain(d: Disk): seq<HardState> { [d.durable] + d.queue }

  /** A later hard state never goes back in term, nor changes its vote within a term. */
  predicate Follows(a: HardState, b: HardState) {
    a.term <= b.term && (a.term == b.term ==> a.vote == b.vote)
  }

  /** Queued writes only move forward, end in the node's own state, and start from the disk. */
  ghost predicate DiskE(h: Hist, v: NodeId, n: Node, d: Disk) {
    && (forall i | 0 <= i < |d.queue| :: Follows(Chain(d)[i], d.queue[i]))
    && Chain(d)[|d.queue|] == Hard(n)
    && IsDurable(h, v, d.durable)
    && (forall t | (v, t) in h.durable :: t <= d.durable.term)
  }

  predicate IsLeaderOf(h: Hist, term: nat, c: NodeId) { term in h.ldr && h.ldr[term] == c }

  /** u's vote for c is on u's disk, or c has already won the term. */
  predicate Granted(h: Hist, u: NodeId, term: nat, c: NodeId) {
    IsDurable(h, u, HardState(term, c)) || IsLeaderOf(h, term, c)
  }

  function Backers(cfg: JointConfig, h: Hist, term: nat, c: NodeId): set<NodeId> {
    set u | u in cfg.IDs() && IsDurable(h, u, HardState(term, c))
  }

  ghost predicate VotesE(h: Hist, v: NodeId, term: nat, votes: map<NodeId, bool>) {
    forall u | u in votes && votes[u] :: Granted(h, u, term, v)
  }

  ghost predicate NodeE(h: Hist, v: NodeId, n: Node) {
    && n.id == v && v != NONE
    && (n.lead != NONE ==> IsLeaderOf(h, n.term, n.lead))
    && (n.role == Leader ==> IsLeaderOf(h, n.term, v))
    && (n.role == Candidate ==> VotesE(h, v, n.term, n.votes))
  }

  predicate MsgE(h: Hist, m: Msg) {
    && m.from != NONE
    && (m.VoteResp? && !m.reject ==> Granted(h, m.from, m.term, m.to))
    && (m.App? || m.Heartbeat? ==> IsLeaderOf(h, m.term, m.from))
  }

  ghost predicate HistE(cfg: JointConfig, h: Hist) {
    forall t | t in h.ldr :: IsQuorum(cfg, Backers(cfg, h, t, h.ldr[t]))
  }

  ghost predicate NodesE(s: Sys) { forall v | v in s.nodes :: NodeE(s.h, v, s.nodes[v]) }

  ghost predicate DisksE(s: Sys) {
    s.disks.Keys == s.nodes.Keys && forall v | v in s.nodes :: DiskE(s.h, v, s.nodes[v], s.disks[v])
  }

  ghost predicate NetE(h: Hist, net: set<Msg>) { forall m | m in net :: MsgE(h, m) }

  ghost predicate EInv(s: Sys) {
    s.cfg.incoming != {} && HistE(s.cfg, s.h) && NodesE(s) && DisksE(s) && NetE(s.h, s.net)
  }

  /** Leaders of a term are unique: two quorums of durable votes meet, and a durable vote is final. */
  lemma LeaderUnique(cfg: JointConfig, h: Hist, term: nat, c: NodeId, d: NodeId)
    requires cfg.incoming != {}
    requires IsQuorum(cfg, Backers(cfg, h, term, c))
    requires IsQuorum(cfg, Backers(cfg, h, term, d))
    ensures c == d
  {
    var u := QuorumsMeet(cfg, Backers(cfg, h, term, c), Backers(cfg, h, term, d));
    assert u in Backers(cfg, h, term, c) && u in Backers(cfg, h, term, d);
  }

  // ---------------------------------------------------------------------------
  // Every step keeps it
  // ---------------------------------------------------------------------------

  /** Nothing the observer knew about leaders and durable votes is ever withdrawn. */
  ghost predicate GrowE(h: Hist, h': Hist) {
    && (forall t | t in h.ldr :: t in h'.ldr && h'.ldr[t] == h.ldr[t])
    && (forall x | x in h.durable :: x in h'.durable && h'.durable[x] == h.durable[x])
  }

  /** What a node step owes the invariant, about the stepping node alone. */
  ghost predicate LocalE(cfg: JointConfig, h: Hist, n: Node, out: Out) {
    && (out.hard == [] ==> Hard(out.node) == Hard(n))
    && (out.hard != [] ==> out.hard == [Hard(out.node)] && Follows(Hard(n), Hard(out.node)))
    && (out.node.role == Leader ==> IsQuorum(cfg, Backers(cfg, h, out.node.term, n.id)))
    && out.node.id == n.id
    && var h' := h.(ldr := Observe(h, n, out).ldr);
       NodeE(h', n.id, out.node) && NetE(h', out.msgs)
  }

  lemma BackersSame(cfg: JointConfig, h: Hist, h': Hist, t: nat, c: NodeId)
    requires h.durable == h'.durable
    ensures Backers(cfg, h, t, c) == Backers(cfg, h', t, c)
  {
  }

  lemma BackersGrow(cfg: JointConfig, h: Hist, h': Hist, t: nat, c: NodeId)
    requires GrowE(h, h') && IsQuorum(cfg, Backers(cfg, h, t, c))
    ensures IsQuorum(cfg, Backers(cfg, h', t, c))
  {
    IsQuorumMono(cfg, Backers(cfg, h, t, c), Backers(cfg, h', t, c));
  }

  lemma NewLeaderE(cfg: JointConfig, h: Hist, term: nat, v: NodeId, h': Hist)
    requires cfg.incoming != {} && HistE(cfg, h)
    requires IsQuorum(cfg, Backers(cfg, h, term, v))
    requires h'.ldr == h.ldr[term := v] && h'.durable == h.durable
    ensures GrowE(h, h') && HistE(cfg, h')
  {
    if term in h.ldr { LeaderUnique(cfg, h, term, h.ldr[term], v); }
    forall t | t in h'.ldr ensures IsQuorum(cfg, Backers(cfg, h', t, h'.ldr[t])) {
      BackersSame(cfg, h, h', t, h'.ldr[t]);
    }
  }

  lemma SameLeadersE(cfg: JointConfig, h: Hist, h': Hist)
    requires HistE(cfg, h) && h'.ldr == h.ldr && h'.durable == h.durable
    ensures HistE(cfg, h')
  {
    forall t | t in h'.ldr ensures IsQuorum(cfg, Backers(cfg, h', t, h'.ldr[t])) {
      BackersSame(cfg, h, h', t, h'.ldr[t]);
    }
  }

  lemma ObserveGrowsE(cfg: JointConfig, h: Hist, n: Node, out: Out)
    requires cfg.incoming != {} && HistE(cfg, h) && LocalE(cfg, h, n, out)
    ensures GrowE(h, Observe(h, n, out)) && HistE(cfg, Observe(h, n, out))
  {
    if out.node.role == Leader {
      NewLeaderE(cfg, h, out.node.term, n.id, Observe(h, n, out));
    } else {
      SameLeadersE(cfg, h, Observe(h, n, out));
    }
  }

  lemma MonoE(h: Hist, h': Hist, v: NodeId, n: Node)
    requires GrowE(h, h') && NodeE(h, v, n)
    ensures NodeE(h', v, n)
  {
  }

  lemma NetMonoE(h: Hist, h': Hist, net: set<Msg>)
    requires GrowE(h, h') && NetE(h, net)
    ensures NetE(h', net)
  {
    forall m | m in net ensures MsgE(h', m) { assert MsgE(h, m); }
  }

  lemma ChainGrows(h: Hist, v: NodeId, n: Node, d: Disk, n': Node, hard: seq<HardState>)
    requires DiskE(h, v, n, d)
    requires hard == [] ==> Hard(n') == Hard(n)
    requires hard != [] ==> hard == [Hard(n')] && Follows(Hard(n), Hard(n'))
    ensures DiskE(h, v, n', d.(queue := d.queue + hard))
  {
    if hard == [] {
      assert d.queue + hard == d.queue;
    } else {
      var d' := d.(queue := d.queue + hard);
      assert Chain(d') == Chain(d) + hard;
      forall i | 0 <= i < |d'.queue| ensures Follows(Chain(d')[i], d'.queue[i]) {
        if i < |d.queue| { assert Follows(Chain(d)[i], d.queue[i]); }
      }
    }
  }

  lemma LiftE(s: Sys, v: NodeId, out: Out)
    requires EInv(s) && v in s.nodes && LocalE(s.cfg, s.h, s.nodes[v], out)
    ensures EInv(Emit(s, v, out)) && GrowE(s.h, Emit(s, v, out).h)
  {
    var s' := Emit(s, v, out);
    var h, h' := s.h, s'.h;
    ObserveGrowsE(s.cfg, h, s.nodes[v], out);
    NetMonoE(h, h', s.net);
    var h0 := h.(ldr := h'.ldr);
    MonoE(h0, h', v, out.node);
    NetMonoE(h0, h', out.msgs);
    forall u | u in s'.nodes ensures NodeE(h', u, s'.nodes[u]) {
      if u != v { MonoE(h, h', u, s.nodes[u]); }
    }
    forall u | u in s'.nodes ensures DiskE(h', u, s'.nodes[u], s'.disks[u]) {
      assert DiskE(h, u, s.nodes[u], s.disks[u]);
      if u == v { ChainGrows(h, v, s.nodes[v], s.disks[v], out.node, out.hard); }
    }
  }

  /** Winning the tally means a quorum of durable votes, or leadership already held. */
  lemma WinIsBacked(cfg: JointConfig, h: Hist, v: NodeId, term: nat, votes: map<NodeId, bool>)
    requires HistE(cfg, h) && VotesE(h, v, term, votes)
    requires JointVote(cfg, votes) == VoteWon
    ensures IsQuorum(cfg, Backers(cfg, h, term, v))
  {
    if !IsLeaderOf(h, term, v) {
      WonHasQuorum(cfg, votes);
      IsQuorumMono(cfg, Yes(cfg.IDs(), votes), Backers(cfg, h, term, v));
    }
  }

  lemma PollE(cfg: JointConfig, h: Hist, n: Node, u: NodeId, yes: bool)
    requires HistE(cfg, h) && NodeE(h, n.id, n) && n.role == Candidate
    requires yes ==> Granted(h, u, n.term, n.id)
    ensures LocalE(cfg, h, n, Quiet(n.(votes := RecordVote(n.votes, u, yes))))
    ensures JointVote(cfg, RecordVote(n.votes, u, yes)) == VoteWon ==>
              LocalE(cfg, h, n, Quiet(BecomeLeader(n.(votes := RecordVote(n.votes, u, yes)))))
  {
    hide JointVote, IsQuorum, BecomeLeader;
    var p := n.(votes := RecordVote(n.votes, u, yes));
    if JointVote(cfg, p.votes) == VoteWon {
      WinIsBacked(cfg, h, n.id, n.term, p.votes);
      WinE(cfg, h, n, p);
    }
  }

  lemma WinE(cfg: JointConfig, h: Hist, n: Node, p: Node)
    requires NodeE(h, n.id, n) && p == n.(votes := p.votes) && IsQuorum(cfg, Backers(cfg, h, n.term, n.id))
    ensures LocalE(cfg, h, n, Quiet(BecomeLeader(p)))
  {
    hide IsQuorum, Backers;
  }

  /** A step that leaves role, term, vote, leader and tally alone. */
  lemma SteadyE(cfg: JointConfig, h: Hist, n: Node, out: Out)
    requires HistE(cfg, h) && NodeE(h, n.id, n)
    requires Steady(n.(voted := out.node.voted), out) && NetE(h, out.msgs)
    ensures LocalE(cfg, h, n, out)
  {
    if n.role == Leader { assert h.ldr[n.term := n.id] == h.ldr; }
  }

  /** A step into (or within) follower-hood. */
  lemma FollowE(cfg: JointConfig, h: Hist, n: Node, out: Out)
    requires NodeE(h, n.id, n)
    requires out.node.role == Follower && out.node.id == n.id
    requires out.node.lead != NONE ==> IsLeaderOf(h, out.node.term, out.node.lead)
    requires out.hard == [] ==> Hard(out.node) == Hard(n)
    requires out.hard != [] ==> out.hard == [Hard(out.node)] && Follows(Hard(n), Hard(out.node))
    requires NetE(h, out.msgs)
    ensures LocalE(cfg, h, n, out)
  {
  }

  lemma RecvVoteRespE(cfg: JointConfig, h: Hist, n: Node, m: Msg)
    requires HistE(cfg, h) && NodeE(h, n.id, n)
    requires m.VoteResp? && m.to == n.id && m.term == n.term && MsgE(h, m)
    ensures LocalE(cfg, h, n, HandleVoteResp(cfg, n, m))
  {
    var p := n.(votes := RecordVote(n.votes, m.from, !m.reject));
    if n.role != Candidate {
      SteadyE(cfg, h, n, Quiet(n));
    } else if JointVote(cfg, p.votes) == VoteLost {
      FollowE(cfg, h, n, BecomeFollowerExt(p, p.term, NONE));
    } else {
      PollE(cfg, h, n, m.from, !m.reject);
    }
  }

  lemma StateStatusE(cfg: JointConfig, h: Hist, n: Node, hs: HardState)
    requires HistE(cfg, h) && NodeE(h, n.id, n) && IsDurable(h, n.id, hs)
    ensures LocalE(cfg, h, n, HandleStatePersisted(cfg, n, hs))
  {
    if n.role == Candidate && hs == HardState(n.term, n.id) {
      PollE(cfg, h, n, n.id, true);
    } else {
      SteadyE(cfg, h, n, HandleStatePersisted(cfg, n, hs));
    }
  }

  lemma RecvVoteE(cfg: JointConfig, h: Hist, n: Node, m: Msg)
    requires HistE(cfg, h) && NodeE(h, n.id, n)
    requires m.Vote? && m.term >= n.term && MsgE(h, m)
    ensures LocalE(cfg, h, n, HandleVote(n, m))
  {
    if m.term == n.term {
      SteadyE(cfg, h, n, HandleVote(n, m));
    } else {
      FollowE(cfg, h, n, HandleVote(n, m));
    }
  }

  lemma RecvAppE(cfg: JointConfig, h: Hist, n: Node, m: Msg)
    requires HistE(cfg, h) && NodeE(h, n.id, n)
    requires m.App? && m.term == n.term && MsgE(h, m)
    ensures LocalE(cfg, h, n, StepApp(n, m))
  {
    hide HistE, LocalE, Accept, FindConflict, FindConflictByTerm, TermAt;
    if n.role == Leader {
      SteadyE(cfg, h, n, Quiet(n));
    } else {
      FollowE(cfg, h, n, StepApp(n, m));
    }
  }

  lemma RecvBeatE(cfg: JointConfig, h: Hist, n: Node, m: Msg)
    requires HistE(cfg, h) && NodeE(h, n.id, n)
    requires m.Heartbeat? && m.term == n.term && MsgE(h, m)
    ensures LocalE(cfg, h, n, StepHeartbeat(n, m))
  {
    if n.role == Leader {
      SteadyE(cfg, h, n, Quiet(n));
    } else {
      FollowE(cfg, h, n, StepHeartbeat(n, m));
    }
  }

  lemma SendAppendE(cfg: JointConfig, h: Hist, n: Node, to: NodeId, k: nat)
    requires HistE(cfg, h) && NodeE(h, n.id, n) && n.role == Leader
    requires to in n.prs && 1 <= n.prs[to].next
    ensures LocalE(cfg, h, n, SendAppend(n, to, k))
  {
    SteadyE(cfg, h, n, SendAppend(n, to, k));
  }

  lemma SendHeartbeatE(cfg: JointConfig, h: Hist, n: Node, to: NodeId)
    requires HistE(cfg, h) && NodeE(h, n.id, n) && n.role == Leader && to in n.prs
    ensures LocalE(cfg, h, n, SendHeartbeat(n, to))
  {
    SteadyE(cfg, h, n, SendHeartbeat(n, to));
  }

  lemma AppRespE(cfg: JointConfig, h: Hist, n: Node, m: Msg, mci: nat)
    requires HistE(cfg, h) && NodeE(h, n.id, n) && m.AppResp?
    ensures LocalE(cfg, h, n, StepAppResp(n, m, mci))
  {
    AppRespSteady(n, m, mci);
    SteadyE(cfg, h, n, StepAppResp(n, m, mci));
  }

  lemma AppRejectE(cfg: JointConfig, h: Hist, n: Node, m: Msg)
    requires HistE(cfg, h) && NodeE(h, n.id, n) && m.AppReject?
    ensures LocalE(cfg, h, n, StepAppReject(n, m))
  {
    SteadyE(cfg, h, n, StepAppReject(n, m));
  }

  lemma LogStatusE(cfg: JointConfig, h: Hist, n: Node, i: nat, t: nat, mci: nat)
    requires HistE(cfg, h) && NodeE(h, n.id, n)
    ensures LocalE(cfg, h, n, HandleLogStatus(n, i, t, mci))
  {
    LogStatusSteady(n, i, t, mci);
    SteadyE(cfg, h, n, HandleLogStatus(n, i, t, mci));
  }

  lemma CampaignE(cfg: JointConfig, h: Hist, n: Node)
    requires NodeE(h, n.id, n)
    ensures LocalE(cfg, h, n, Campaign(cfg, n))
  {
  }

  lemma PreCampaignE(cfg: JointConfig, h: Hist, n: Node)
    requires NodeE(h, n.id, n)
    ensures LocalE(cfg, h, n, Quiet(BecomePreCandidate(n)))
  {
  }

  lemma ReplicationStepE(s: Sys, a: Action)
    requires HistE(s.cfg, s.h) && Enabled(s, a) && IsReplication(a)
    requires NodeE(s.h, a.v, s.nodes[a.v])
    ensures LocalE(s.cfg, s.h, s.nodes[a.v], NodeStep(s, a))
  {
    var cfg, h, n := s.cfg, s.h, s.nodes[a.v];
    match a {
      case Propose(v, ents) => SteadyE(cfg, h, n, Quiet(AppendEntries(n, ents)));
      case SendApp(v, to, k) => SendAppendE(cfg, h, n, to, k);
      case SendBeat(v, to) => SendHeartbeatE(cfg, h, n, to);
      case LogStatus(v, i, t, mci) => LogStatusE(cfg, h, n, i, t, mci);
      case RecvAppResp(v, m, mci) => AppRespE(cfg, h, n, m, mci);
      case RecvAppReject(v, m) => AppRejectE(cfg, h, n, m);
      case Unreachable(v, peer) => SteadyE(cfg, h, n, StepUnreachable(n, peer));
      case AnswerStale(v, to) => SteadyE(cfg, h, n, Out(n, {AppResp(n.id, to, n.term, 0)}, []));
    }
  }

  lemma ElectionStepE(s: Sys, a: Action)
    requires HistE(s.cfg, s.h) && Enabled(s, a) && IsNodeStep(a) && !IsReplication(a)
    requires NodeE(s.h, a.v, s.nodes[a.v]) && NetE(s.h, s.net)
    ensures LocalE(s.cfg, s.h, s.nodes[a.v], NodeStep(s, a))
  {
    var cfg, h, n := s.cfg, s.h, s.nodes[a.v];
    match a {
      case DoCampaign(v) => CampaignE(cfg, h, n);
      case DoPreCampaign(v) => PreCampaignE(cfg, h, n);
      case StepDown(v) => FollowE(cfg, h, n, BecomeFollowerExt(n, n.term, NONE));
      case ObserveTerm(v, term) => FollowE(cfg, h, n, BecomeFollowerExt(n, term, NONE));
      case ObserveLeader(v, m) => FollowE(cfg, h, n, BecomeFollowerExt(n, m.term, m.from));
      case RecvVote(v, m) => RecvVoteE(cfg, h, n, m);
      case RecvVoteResp(v, m) => RecvVoteRespE(cfg, h, n, m);
      case StateStatus(v, hs) => StateStatusE(cfg, h, n, hs);
      case RecvApp(v, m) => RecvAppE(cfg, h, n, m);
      case RecvBeat(v, m) => RecvBeatE(cfg, h, n, m);
    }
  }

  lemma PersistE(s: Sys, v: NodeId)
    requires EInv(s) && v in s.nodes && s.disks[v].queue != []
    ensures EInv(Persist(s, v)) && GrowE(s.h, Persist(s, v).h)
  {
    var s' := Persist(s, v);
    PersistDisk(s.h, v, s.nodes[v], s.disks[v], s'.h);
    NetMonoE(s.h, s'.h, s.net);
    forall t | t in s'.h.ldr ensures IsQuorum(s.cfg, Backers(s.cfg, s'.h, t, s'.h.ldr[t])) {
      BackersGrow(s.cfg, s.h, s'.h, t, s.h.ldr[t]);
    }
    forall u | u in s'.nodes ensures NodeE(s'.h, u, s'.nodes[u]) {
      MonoE(s.h, s'.h, u, s.nodes[u]);
    }
    forall u | u in s'.nodes ensures DiskE(s'.h, u, s'.nodes[u], s'.disks[u]) {
      assert DiskE(s.h, u, s.nodes[u], s.disks[u]);
    }
  }

  /** The write that completes is newer than the disk: an older term's vote is never rewritten. */
  lemma PersistDisk(h: Hist, v: NodeId, n: Node, d: Disk, h': Hist)
    requires DiskE(h, v, n, d) && d.queue != []
    requires h' == h.(durable := h.durable[(v, d.queue[0].term) := d.queue[0].vote])
    ensures GrowE(h, h') && DiskE(h', v, n, Disk(d.queue[0], d.queue[1..]))
  {
    assert Follows(Chain(d)[0], d.queue[0]);
    var d' := Disk(d.queue[0], d.queue[1..]);
    assert Chain(d') == d.queue;
    forall i | 0 <= i < |d'.queue| ensures Follows(Chain(d')[i], d'.queue[i]) {
      assert Follows(Chain(d)[i+1], d.queue[i+1]);
    }
  }

  lemma RestartE(s: Sys, v: NodeId, log: Log, committed: nat, offset: nat)
    requires EInv(s) && v in s.nodes
    ensures EInv(Restart(s, v, log, committed, offset))
  {
    var s' := Restart(s, v, log, committed, offset);
    assert NodeE(s.h, v, s.nodes[v]) && DiskE(s.h, v, s.nodes[v], s.disks[v]);
    forall u | u in s'.nodes ensures NodeE(s'.h, u, s'.nodes[u]) {
      assert NodeE(s.h, u, s.nodes[u]);
    }
    forall u | u in s'.nodes ensures DiskE(s'.h, u, s'.nodes[u], s'.disks[u]) {
      assert DiskE(s.h, u, s.nodes[u], s.disks[u]);
    }
  }

  lemma NodeStepKeepsE(s: Sys, a: Action)
    requires EInv(s) && Enabled(s, a) && IsNodeStep(a)
    ensures EInv(Emit(s, a.v, NodeStep(s, a))) && GrowE(s.h, Emit(s, a.v, NodeStep(s, a)).h)
  {
    if IsReplication(a) { ReplicationStepE(s, a); } else { ElectionStepE(s, a); }
    LiftE(s, a.v, NodeStep(s, a));
  }

  lemma StepKeepsE(s: Sys, a: Action, s': Sys)
    requires EInv(s) && Next(s, a, s')
    ensures EInv(s') && GrowE(s.h, s'.h)
  {
    if a.PersistState? {
      PersistE(s, a.v);
    } else if a.Crash? {
      RestartE(s, a.v, a.log, a.committed, a.offset);
    } else {
      NodeStepKeepsE(s, a);
    }
  }

  lemma InitE(s: Sys)
    requires Init(s)
    ensures EInv(s)
  {
  }

  lemma {:induction false} RunKeepsE(states: seq<Sys>, acts: seq<Action>, i: nat, j: nat)
    requires IsRun(states, acts) && i <= j < |states|
    ensures EInv(states[i]) && EInv(states[j]) && GrowE(states[i].h, states[j].h)
    decreases j
  {
    if j == 0 {
      InitE(states[0]);
    } else {
      RunKeepsE(states, acts, if i == j then i - 1 else i, j - 1);
      StepKeepsE(states[j-1], acts[j-1], states[j]);
    }
  }

  /**
   * Election Safety: over a whole run, with any crashes and restarts in
   * between, two nodes that are ever leader in the same term are the same node.
   */
  lemma ElectionSafety(states: seq<Sys>, acts: seq<Action>, i: nat, j: nat, v: NodeId, w: NodeId)
    requires IsRun(states, acts) && i <= j < |states|
    requires v in states[i].nodes && states[i].nodes[v].role == Leader
    requires w in states[j].nodes && states[j].nodes[w].role == Leader
    requires states[i].nodes[v].term == states[j].nodes[w].term
    ensures v == w
  {
    RunKeepsE(states, acts, i, j);
    assert NodeE(states[i].h, v, states[i].nodes[v]);
    assert NodeE(states[j].h, w, states[j].nodes[w]);
  }
}
