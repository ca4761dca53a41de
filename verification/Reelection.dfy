// When a crashed leader can lead its term once more: exactly when its disk had
// not reached that term. The grants that elected it are still in the network.
module Reelection {
  import opened Quorum
  import opened PlainLog
  import opened RaftNode
  import opened Protocol
  import opened Election
  import opened Delivery
  import opened CrashSafety

  // ---------------------------------------------------------------------------
  // What a win leaves behind
  // ---------------------------------------------------------------------------

  /** A vote that counts for v in t: a grant in the network, or v's own vote on v's disk. */
  predicate Backed(s: Sys, u: NodeId, v: NodeId, t: nat) {
    VoteResp(u, v, t, false) in s.net || (u == v && IsDurable(s.h, v, HardState(t, v)))
  }

  ghost function Evidence(s: Sys, v: NodeId, t: nat): set<NodeId> {
    set u | u in s.cfg.IDs() && Backed(s, u, v, t)
  }

  ghost predicate TallyBacked(s: Sys, v: NodeId, n: Node) {
    n.role == Candidate ==> forall u | u in n.votes && n.votes[u] :: Backed(s, u, v, n.term)
  }

  ghost predicate WinsBacked(s: Sys) {
    forall t | t in s.h.ldr :: IsQuorum(s.cfg, Evidence(s, s.h.ldr[t], t))
  }

  ghost predicate WInv(s: Sys) {
    WinsBacked(s) && forall v | v in s.nodes :: TallyBacked(s, v, s.nodes[v])
  }

  lemma TallyWins(s: Sys, v: NodeId, votes: map<NodeId, bool>, t: nat)
    requires JointVote(s.cfg, votes) == VoteWon
    requires forall u | u in votes && votes[u] :: Backed(s, u, v, t)
    ensures IsQuorum(s.cfg, Evidence(s, v, t))
  {
    hide JointVote, IsQuorum, Backed;
    WonHasQuorum(s.cfg, votes);
    IsQuorumMono(s.cfg, Yes(s.cfg.IDs(), votes), Evidence(s, v, t));
  }

  lemma GrantCounts(s: Sys, v: NodeId, m: Msg)
    requires Enabled(s, RecvVoteResp(v, m)) && TallyBacked(s, v, s.nodes[v])
    ensures var n' := HandleVoteResp(s.cfg, s.nodes[v], m).node;
      && TallyBacked(s, v, n')
      && (n'.role == Leader && s.nodes[v].role != Leader ==> IsQuorum(s.cfg, Evidence(s, v, n'.term)))
  {
    hide JointVote, IsQuorum, Evidence;
    var n := s.nodes[v];
    var votes := RecordVote(n.votes, m.from, !m.reject);
    if n.role == Candidate {
      assert !m.reject ==> VoteResp(m.from, v, n.term, false) == m;
      if JointVote(s.cfg, votes) == VoteWon { TallyWins(s, v, votes, n.term); }
    }
  }

  lemma OwnVoteCounts(s: Sys, v: NodeId, hs: HardState)
    requires Enabled(s, StateStatus(v, hs)) && TallyBacked(s, v, s.nodes[v]) && s.nodes[v].id == v
    ensures var n' := HandleStatePersisted(s.cfg, s.nodes[v], hs).node;
      && TallyBacked(s, v, n')
      && (n'.role == Leader && s.nodes[v].role != Leader ==> IsQuorum(s.cfg, Evidence(s, v, n'.term)))
  {
    hide JointVote, IsQuorum, Evidence;
    var n := s.nodes[v];
    var votes := RecordVote(n.votes, v, true);
    if n.role == Candidate && hs == HardState(n.term, v) {
      if JointVote(s.cfg, votes) == VoteWon { TallyWins(s, v, votes, n.term); }
    }
  }

  lemma OtherSteps(s: Sys, a: Action)
    requires Enabled(s, a) && IsNodeStep(a) && !a.RecvVoteResp? && !a.StateStatus?
    requires TallyBacked(s, a.v, s.nodes[a.v])
    ensures TallyBacked(s, a.v, NodeStep(s, a).node)
    ensures NodeStep(s, a).node.role == Leader ==> s.nodes[a.v].role == Leader
  {
    hide StepApp, TermAt, Backed;
    if IsReplication(a) {
      ReplicationSteady(s, a);
    } else if a.RecvApp? {
      AppSettles(s.nodes[a.v], a.m);
    }
  }

  lemma AppSettles(n: Node, m: Msg)
    requires m.App?
    ensures StepApp(n, m).node.role == if n.role == Leader then Leader else Follower
  {
    hide FindConflict, Accept, FindConflictByTerm, TermAt;
  }

  lemma StepBacked(s: Sys, a: Action)
    requires Enabled(s, a) && IsNodeStep(a) && TallyBacked(s, a.v, s.nodes[a.v]) && s.nodes[a.v].id == a.v
    ensures var n' := NodeStep(s, a).node;
      && TallyBacked(s, a.v, n')
      && (n'.role == Leader && s.nodes[a.v].role != Leader ==> IsQuorum(s.cfg, Evidence(s, a.v, n'.term)))
  {
    hide TallyBacked, IsQuorum, Evidence, HandleVoteResp, HandleStatePersisted;
    if a.RecvVoteResp? {
      GrantCounts(s, a.v, a.m);
    } else if a.StateStatus? {
      OwnVoteCounts(s, a.v, a.hs);
    } else {
      OtherSteps(s, a);
    }
  }

  /** Grants and durable votes are never withdrawn. */
  lemma EvidenceGrows(s: Sys, s': Sys, v: NodeId, t: nat)
    requires s'.cfg == s.cfg && s.net <= s'.net && GrowE(s.h, s'.h) && IsQuorum(s.cfg, Evidence(s, v, t))
    ensures IsQuorum(s'.cfg, Evidence(s', v, t))
  {
    hide IsQuorum;
    IsQuorumMono(s.cfg, Evidence(s, v, t), Evidence(s', v, t));
  }

  lemma TallyGrows(s: Sys, s': Sys, v: NodeId, n: Node)
    requires s.net <= s'.net && GrowE(s.h, s'.h) && TallyBacked(s, v, n)
    ensures TallyBacked(s', v, n)
  {
  }

  /** Every term the observer has a leader for after a step had its votes before it. */
  lemma WinsStep(s: Sys, a: Action, s': Sys, t: nat)
    requires NodesE(s) && NodesE(s') && WInv(s) && Next(s, a, s') && t in s'.h.ldr
    ensures IsQuorum(s.cfg, Evidence(s, s'.h.ldr[t], t))
  {
    hide NodeStep, ReadsCommit, Evidence, IsQuorum, Observe, TallyBacked;
    var v := s'.h.ldr[t];
    if !IsLeaderOf(s.h, t, v) {
      LedStep(s, a, s', v, t);
      assert NodeE(s.h, v, s.nodes[v]);
      if IsNodeStep(a) && v == a.v {
        NodeStepMoves(s, a);
        StepBacked(s, a);
      }
    }
  }

  lemma StepKeepsW(s: Sys, a: Action, s': Sys)
    requires EInv(s) && EInv(s') && GrowE(s.h, s'.h) && WInv(s) && Next(s, a, s')
    ensures WInv(s')
  {
    hide NodeStep, ReadsCommit, HistE, DisksE, NetE, GrowE, TallyBacked, IsQuorum, Evidence, Observe;
    assert NodeE(s.h, a.v, s.nodes[a.v]);
    if IsNodeStep(a) { StepBacked(s, a); }
    forall t | t in s'.h.ldr ensures IsQuorum(s'.cfg, Evidence(s', s'.h.ldr[t], t)) {
      WinsStep(s, a, s', t);
      EvidenceGrows(s, s', s'.h.ldr[t], t);
    }
    forall v | v in s'.nodes ensures TallyBacked(s', v, s'.nodes[v]) {
      if a.Crash? && v == a.v { Restarted(s, a, s'); } else { TallyGrows(s, s', v, s'.nodes[v]); }
    }
  }

  lemma Restarted(s: Sys, a: Action, s': Sys)
    requires a.Crash? && Next(s, a, s')
    ensures TallyBacked(s', a.v, s'.nodes[a.v])
  {
  }

  lemma {:induction false} RunKeepsW(states: seq<Sys>, acts: seq<Action>, i: nat)
    requires IsRun(states, acts) && i < |states|
    ensures EInv(states[i]) && WInv(states[i])
  {
    hide Next, EInv, GrowE;
    if i == 0 {
      RunKeepsE(states, acts, 0, 0);
    } else {
      RunKeepsW(states, acts, i - 1);
      RunKeepsE(states, acts, i - 1, i);
      StepKeepsW(states[i-1], acts[i-1], states[i]);
    }
  }

  /** The voters whose grants for v in t are in the network. */
  function Grantors(s: Sys, v: NodeId, t: nat): set<NodeId> {
    set u | u in s.cfg.IDs() && VoteResp(u, v, t, false) in s.net
  }

  /** A leader whose own disk is behind its term was elected by the others alone. */
  lemma ElectedByOthers(s: Sys, v: NodeId, t: nat)
    requires EInv(s) && WInv(s) && IsLeaderOf(s.h, t, v) && v in s.nodes && s.disks[v].durable.term < t
    ensures IsQuorum(s.cfg, Grantors(s, v, t))
  {
    assert DiskE(s.h, v, s.nodes[v], s.disks[v]);
    assert Evidence(s, v, t) == Grantors(s, v, t);
  }

  // ---------------------------------------------------------------------------
  // Winning again
  // ---------------------------------------------------------------------------

  /** Only v's own steps happen, none of them a crash, and no message is lost. */
  predicate Alone(s: Sys, v: NodeId, acts: seq<Action>, s': Sys) {
    && s'.cfg == s.cfg && s.net <= s'.net && v in s'.nodes && v in s'.disks
    && forall i | 0 <= i < |acts| :: acts[i].v == v && !acts[i].Crash?
  }

  lemma AloneMore(s: Sys, v: NodeId, a: seq<Action>, mid: Sys, b: seq<Action>, s': Sys)
    requires Reaches(s, a, mid) && Alone(s, v, a, mid) && Reaches(mid, b, s') && Alone(mid, v, b, s')
    ensures Reaches(s, a + b, s') && Alone(s, v, a + b, s')
  {
    hide Reaches;
    ReachesMore(s, a, mid, b, s');
  }

  /** v in the middle of an election in term t, with this log. */
  predicate Running(s: Sys, v: NodeId, t: nat, log: Log) {
    && v in s.nodes && v in s.disks && s.nodes[v].id == v && s.nodes[v].role == Candidate
    && s.nodes[v].term == t && s.nodes[v].log == log
    && forall u | u in s.nodes[v].votes :: s.nodes[v].votes[u]
  }

  /** v has voted for itself, counted nothing yet, and asked every other voter. */
  predicate Asked(s: Sys, v: NodeId, t: nat, log: Log) {
    && Running(s, v, t, log) && s.nodes[v].votes == map[] && s.nodes[v].vote == v
    && forall u | u in s.cfg.IDs() && u != v :: Vote(v, u, t, |log|, LastTerm(log)) in s.net
  }

  lemma OneCampaign(s: Sys, v: NodeId) returns (s': Sys)
    requires v in s.nodes && v in s.disks && s.nodes[v].id == v && s.nodes[v].role != Leader
    ensures Reaches(s, [DoCampaign(v)], s') && Alone(s, v, [DoCampaign(v)], s')
    ensures Asked(s', v, s.nodes[v].term + 1, s.nodes[v].log)
  {
    hide Reaches, Observe, LastTerm;
    s' := Emit(s, v, NodeStep(s, DoCampaign(v)));
    OneNext(s, DoCampaign(v), s');
  }

  /** Campaigning over and over takes a node to any higher term. */
  lemma {:induction false} Climb(s: Sys, v: NodeId, t: nat) returns (s': Sys, acts: seq<Action>)
    requires v in s.nodes && v in s.disks && s.nodes[v].id == v && s.nodes[v].role != Leader && s.nodes[v].term < t
    ensures Reaches(s, acts, s') && Alone(s, v, acts, s')
    ensures Asked(s', v, t, s.nodes[v].log)
    decreases t - s.nodes[v].term
  {
    hide Reaches, Alone;
    var mid := OneCampaign(s, v);
    if s.nodes[v].term + 1 == t {
      s', acts := mid, [DoCampaign(v)];
    } else {
      var more;
      s', more := Climb(mid, v, t);
      acts := [DoCampaign(v)] + more;
      AloneMore(s, v, [DoCampaign(v)], mid, more, s');
    }
  }

  /** With yes votes only, an election is not lost while a quorum may still agree, and won once it has. */
  lemma YesOnly(cfg: JointConfig, votes: map<NodeId, bool>, g: set<NodeId>)
    requires IsQuorum(cfg, g) && forall u | u in votes :: votes[u]
    ensures JointVote(cfg, votes) != VoteLost
    ensures g <= votes.Keys ==> JointVote(cfg, votes) == VoteWon
  {
    hide JointVote, IsQuorum;
    VoteResultExact(cfg, votes);
    assert Completes(votes, votes.Keys + g);
    IsQuorumMono(cfg, g, votes.Keys + g);
    if g <= votes.Keys {
      forall yes | Completes(votes, yes) ensures IsQuorum(cfg, yes) { IsQuorumMono(cfg, g, yes); }
    }
  }

  /** What one more grant does to a candidate that so far has only yes votes. */
  lemma GrantOutcome(cfg: JointConfig, n: Node, u: NodeId, g: set<NodeId>)
    requires IsQuorum(cfg, g) && n.role == Candidate && u !in n.votes && forall w | w in n.votes :: n.votes[w]
    ensures var votes := n.votes[u := true];
      HandleVoteResp(cfg, n, VoteResp(u, n.id, n.term, false)) ==
      Quiet(if JointVote(cfg, votes) == VoteWon then BecomeLeader(n.(votes := votes)) else n.(votes := votes))
  {
    hide JointVote, BecomeLeader, IsQuorum;
    YesOnly(cfg, n.votes[u := true], g);
  }

  predicate Elected(s: Sys, v: NodeId, t: nat, log: Log) {
    Leads(s, v, t) && s.nodes[v].log == log + [EMPTY_ENTRY.(term := t)]
  }

  lemma OneGrant(s: Sys, v: NodeId, t: nat, log: Log, g: set<NodeId>, u: NodeId) returns (s': Sys)
    requires Running(s, v, t, log) && IsQuorum(s.cfg, g) && VoteResp(u, v, t, false) in s.net
    requires u !in s.nodes[v].votes
    ensures var a := RecvVoteResp(v, VoteResp(u, v, t, false));
      Reaches(s, [a], s') && Alone(s, v, [a], s')
    ensures var votes := s.nodes[v].votes[u := true];
      if JointVote(s.cfg, votes) == VoteWon
      then Elected(s', v, t, log)
      else Running(s', v, t, log) && s'.nodes[v].votes == votes
  {
    hide Reaches, Observe, JointVote, IsQuorum, HandleVoteResp, BecomeLeader;
    var n, a := s.nodes[v], RecvVoteResp(v, VoteResp(u, v, t, false));
    GrantOutcome(s.cfg, n, u, g);
    s' := Emit(s, v, NodeStep(s, a));
    OneNext(s, a, s');
    WinState(n.(votes := n.votes[u := true]));
  }

  lemma WinState(n: Node)
    ensures BecomeLeader(n).role == Leader && BecomeLeader(n).term == n.term
    ensures BecomeLeader(n).log == n.log + [EMPTY_ENTRY.(term := n.term)]
  {
    WinLog(n);
  }

  /** The grants are delivered one by one until they elect v. */
  lemma {:induction false} Collect(s: Sys, v: NodeId, t: nat, log: Log, g: set<NodeId>)
    returns (s': Sys, acts: seq<Action>)
    requires Running(s, v, t, log) && IsQuorum(s.cfg, g) && !(g <= s.nodes[v].votes.Keys)
    requires forall u | u in g && u !in s.nodes[v].votes :: VoteResp(u, v, t, false) in s.net
    ensures Reaches(s, acts, s') && Alone(s, v, acts, s')
    ensures Elected(s', v, t, log)
    decreases g - s.nodes[v].votes.Keys
  {
    hide Reaches, JointVote, IsQuorum;
    var u :| u in g && u !in s.nodes[v].votes;
    var a := RecvVoteResp(v, VoteResp(u, v, t, false));
    s' := OneGrant(s, v, t, log, g, u);
    acts := [a];
    var mid := s';
    if mid.nodes[v].role != Leader {
      YesOnly(s.cfg, mid.nodes[v].votes, g);
      assert mid.nodes[v].votes.Keys == s.nodes[v].votes.Keys + {u} && u in g - s.nodes[v].votes.Keys;
      var more;
      s', more := Collect(mid, v, t, log, g);
      acts := [a] + more;
      AloneMore(s, v, [a], mid, more, s');
    }
  }

  /**
   * Whatever log it comes back with, a node that crashes before its disk reached
   * a term it has led can be elected in that term once more.
   */
  lemma WinAgain(s: Sys, v: NodeId, t: nat, log: Log, committed: nat, offset: nat)
    returns (s': Sys, acts: seq<Action>)
    requires EInv(s) && WInv(s) && IsLeaderOf(s.h, t, v) && v in s.nodes && s.disks[v].durable.term < t
    ensures Reaches(s, [Crash(v, log, committed, offset)] + acts, s') && Alone(s, v, acts, s')
    ensures Elected(s', v, t, log)
  {
    hide Reaches, IsQuorum;
    assert NodeE(s.h, v, s.nodes[v]);
    var a := Crash(v, log, committed, offset);
    var s1 := Restart(s, v, log, committed, offset);
    OneNext(s, a, s1);
    var s2, b := Climb(s1, v, t);
    ElectedByOthers(s, v, t);
    var g := Grantors(s, v, t);
    QuorumInhabited(s.cfg, g);
    var s3, c := Collect(s2, v, t, log, g);
    AloneMore(s1, v, b, s2, c, s3);
    ReachesMore(s, [a], s1, b + c, s3);
    s', acts := s3, b + c;
  }

  lemma QuorumInhabited(cfg: JointConfig, g: set<NodeId>)
    requires cfg.incoming != {} && IsQuorum(cfg, g)
    ensures g != {}
  {
  }

  // ---------------------------------------------------------------------------
  // The theorems
  // ---------------------------------------------------------------------------

  /** (states', acts') goes on from (states, acts) with a crash of v and ends with v leading t. */
  ghost predicate LeadsAfterCrash(states: seq<Sys>, acts: seq<Action>, v: NodeId, t: nat,
                                  states': seq<Sys>, acts': seq<Action>) {
    && IsRun(states', acts') && |acts| < |acts'| && acts == acts'[..|acts|]
    && |states| <= |states'| && states == states'[..|states|]
    && acts'[|acts|].Crash? && acts'[|acts|].v == v && Leads(states'[|states'|-1], v, t)
  }

  lemma LeadAgain(states: seq<Sys>, acts: seq<Action>, v: NodeId, t: nat, log: Log, committed: nat, offset: nat)
    returns (states': seq<Sys>, acts': seq<Action>)
    requires IsRun(states, acts) && Led(states, |acts|, v, t) && v in states[|acts|].disks
    requires states[|acts|].disks[v].durable.term < t
    ensures LeadsAfterCrash(states, acts, v, t, states', acts') && acts'[|acts|] == Crash(v, log, committed, offset)
    ensures forall i | |acts| < i < |acts'| :: !acts'[i].Crash?
    ensures Elected(states'[|acts'|], v, t, log)
  {
    hide Next, Init, EInv, WInv, Reaches;
    var s := states[|acts|];
    RunKeepsW(states, acts, |acts|);
    LedIsKnown(states, acts, v, t);
    KnownDisk(s, v);
    var s', more := WinAgain(s, v, t, log, committed, offset);
    states', acts' := Extend(states, acts, [Crash(v, log, committed, offset)] + more, s');
  }

  lemma KnownDisk(s: Sys, v: NodeId)
    requires EInv(s) && v in s.disks
    ensures v in s.nodes
  {
  }

  lemma LedIsKnown(states: seq<Sys>, acts: seq<Action>, v: NodeId, t: nat)
    requires IsRun(states, acts) && Led(states, |acts|, v, t)
    ensures IsLeaderOf(states[|acts|].h, t, v)
  {
    hide Next, Init, HistE, DisksE, NetE;
    var j :| 0 <= j <= |acts| && Leads(states[j], v, t);
    RunKeepsE(states, acts, j, |acts|);
    assert NodeE(states[j].h, v, states[j].nodes[v]);
  }

  /**
   * A node that has led a term and crashes now can come back as leader of that
   * term if and only if its disk has not reached the term.
   */
  lemma LeadsAgainIff(states: seq<Sys>, acts: seq<Action>, v: NodeId, t: nat)
    requires IsRun(states, acts) && Led(states, |acts|, v, t) && v in states[|acts|].disks
    ensures (exists states', acts' :: LeadsAfterCrash(states, acts, v, t, states', acts'))
            <==> states[|acts|].disks[v].durable.term < t
  {
    hide Next, Init, EInv, WInv;
    var s := states[|acts|];
    if s.disks[v].durable.term < t {
      var states', acts' := LeadAgain(states, acts, v, t, [], 0, 1);
    } else {
      forall states', acts' | LeadsAfterCrash(states, acts, v, t, states', acts') ensures false {
        assert states'[|acts|] == states'[..|states|][|acts|] == s;
        NeverLeadsAgain(states', acts', |acts|, |acts'|, t);
      }
    }
  }

  lemma OneProposal(s: Sys, v: NodeId, x: Entry) returns (s': Sys)
    requires EInv(s) && v in s.nodes && s.nodes[v].role == Leader
    ensures Next(s, Propose(v, [x]), s') && v in s'.nodes && v in s'.disks
    ensures s'.nodes[v] == s.nodes[v].(log := s.nodes[v].log + [x.(term := s.nodes[v].term)])
    ensures s'.disks[v].durable == s.disks[v].durable
  {
    hide Observe, HistE, DiskE, Stamp;
    s' := Emit(s, v, NodeStep(s, Propose(v, [x])));
    assert Stamp([x], s.nodes[v].term) == [x.(term := s.nodes[v].term)];
  }

  /**
   * From every reachable state with a leader whose disk is behind its term, one
   * proposal and one crash that loses nothing but that proposal are enough to
   * break Log Matching: both logs hold an entry of the term at the next index.
   */
  lemma OneCrashBreaksLogMatching(states: seq<Sys>, acts: seq<Action>, v: NodeId, t: nat, x: Entry)
    returns (states': seq<Sys>, acts': seq<Action>)
    requires IsRun(states, acts) && Leads(states[|acts|], v, t) && v in states[|acts|].disks
    requires states[|acts|].disks[v].durable.term < t && x.(term := t) != EMPTY_ENTRY.(term := t)
    ensures IsRun(states', acts') && |acts'| > |acts| + 1 && acts'[..|acts|] == acts && states'[..|states|] == states
    ensures acts'[|acts|] == Propose(v, [x]) && acts'[|acts|+1].Crash? && acts'[|acts|+1].v == v
    ensures acts'[|acts|+1].log == states[|acts|].nodes[v].log
    ensures forall i | |acts| + 1 < i < |acts'| :: !acts'[i].Crash?
    ensures Leads(states'[|acts|+1], v, t) && Leads(states'[|acts'|], v, t)
    ensures var k := |states[|acts|].nodes[v].log| + 1;
      var a, b := states'[|acts|+1].nodes[v].log, states'[|acts'|].nodes[v].log;
      |a| == k && |b| == k && a[k-1].term == t && b[k-1].term == t && a[..k] != b[..k]
  {
    hide Next, Init, EInv, Reaches;
    var s := states[|acts|];
    var log := s.nodes[v].log;
    RunKeepsE(states, acts, |acts|, |acts|);
    var s1 := OneProposal(s, v, x);
    OneNext(s, Propose(v, [x]), s1);
    var states1, acts1 := Extend(states, acts, [Propose(v, [x])], s1);
    assert Leads(states1[|acts1|], v, t);
    states', acts' := LeadAgain(states1, acts1, v, t, log, 0, 1);
    assert states'[..|states|] == states'[..|states1|][..|states|];
    assert acts'[..|acts|] == acts'[..|acts1|][..|acts|];
    assert states'[|acts1|] == states'[..|states1|][|acts1|] && acts'[|acts|] == acts'[..|acts1|][|acts|];
    var a, b := s1.nodes[v].log, states'[|acts'|].nodes[v].log;
    assert a[|log|] != b[|log|];
    assert a[..|log|+1] == a && b[..|log|+1] == b;
  }
}
