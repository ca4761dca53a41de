// Why a crash must not lose what was acknowledged: a cluster of one node that
// keeps its hard state but loses its log commits two entries at one index.
module LostAck {
  import opened Quorum
  import opened RaftNode
  import opened Protocol
  import opened Delivery
  import CrashSafety

  const ONE := JointConfig({1}, {})

  predicate Single(s: Sys) { s.cfg == ONE && s.nodes.Keys == {1} && s.disks.Keys == {1} }

  /** The node knows nothing but its term, and its disk agrees. */
  predicate Idle(s: Sys, t: nat) {
    && Single(s) && s.disks[1] == Disk(Hard(s.nodes[1]), [])
    && var n := s.nodes[1];
    n.id == 1 && n.term == t && n.role == Follower && n.log == [] && n.committed == 0 && n.offset == 1 && 1 in n.prs
  }

  predicate Runs(s: Sys, t: nat) {
    && Single(s)
    && var n := s.nodes[1];
    && n.id == 1 && n.term == t && n.vote == 1 && n.role == Candidate && n.votes == map[]
    && n.log == [] && n.committed == 0 && n.offset == 1 && 1 in n.prs
  }

  predicate Leader1(s: Sys, t: nat, committed: nat) {
    && Single(s) && s.disks[1].durable == HardState(t, 1)
    && var n := s.nodes[1];
    && n.id == 1 && n.term == t && n.vote == 1 && n.role == Leader && n.log == [EMPTY_ENTRY.(term := t)]
    && n.committed == committed && 1 in n.prs
  }

  lemma Campaigns(s: Sys, t: nat) returns (s': Sys)
    requires Idle(s, t)
    ensures Next(s, DoCampaign(1), s') && Runs(s', t + 1) && s'.disks[1].queue == [HardState(t + 1, 1)]
  {
    hide Observe;
    s' := Emit(s, 1, NodeStep(s, DoCampaign(1)));
    assert [] + [HardState(t + 1, 1)] == [HardState(t + 1, 1)];
  }

  lemma Stores(s: Sys, t: nat) returns (s': Sys)
    requires Runs(s, t) && s.disks[1].queue == [HardState(t, 1)]
    ensures Next(s, PersistState(1), s') && Runs(s', t) && s'.disks[1].durable == HardState(t, 1)
    ensures IsDurable(s'.h, 1, HardState(t, 1))
  {
    s' := Persist(s, 1);
  }

  lemma OwnVoteWins()
    ensures JointVote(ONE, map[1 := true]) == VoteWon
  {
    assert Yes({1}, map[1 := true]) == {1};
  }

  lemma Wins(s: Sys, t: nat) returns (s': Sys)
    requires Runs(s, t) && s.disks[1].durable == HardState(t, 1) && IsDurable(s.h, 1, HardState(t, 1))
    ensures Next(s, StateStatus(1, HardState(t, 1)), s') && Leader1(s', t, 0)
    ensures s'.nodes[1].offset == 1 && s'.nodes[1].termStart == 1 && s'.nodes[1].prs[1].matched == 0
  {
    hide Observe, JointVote;
    OwnVoteWins();
    CrashSafety.WinLog(s.nodes[1].(votes := map[1 := true]));
    s' := Emit(s, 1, NodeStep(s, StateStatus(1, HardState(t, 1))));
  }

  lemma OwnAckCommits(acked: map<NodeId, nat>)
    requires 1 in acked && acked[1] == 1
    ensures IsJointCommitted(ONE, acked, At(1))
  {
    assert ONE.IDs() == {1} && Ackers({1}, acked, 1) == {1};
    assert forall j | 1 < j :: Ackers({1}, acked, j) == {};
  }

  lemma Commits(s: Sys, t: nat) returns (s': Sys)
    requires Leader1(s, t, 0) && s.nodes[1].offset == 1 && s.nodes[1].termStart == 1 && s.nodes[1].prs[1].matched == 0
    ensures Next(s, LogStatus(1, 1, t, 1), s') && Leader1(s', t, 1) && Ack(1, t, 1) in s'.h.acks
  {
    hide IsJointCommitted;
    OwnAckCommits(Matches(SelfAcked(s.nodes[1], 1).prs));
    s' := Emit(s, 1, NodeStep(s, LogStatus(1, 1, t, 1)));
  }

  /** The node elects itself, appends its first entry and commits it. */
  lemma LeadsAndCommits(s: Sys, t: nat) returns (s': Sys, acts: seq<Action>)
    requires Idle(s, t)
    ensures Reaches(s, acts, s') && CrashFree(acts) && Leader1(s', t + 1, 1) && Ack(1, t + 1, 1) in s'.h.acks
  {
    hide Next, Reaches, Idle, Runs, Leader1;
    var s1 := Campaigns(s, t);
    var s2 := Stores(s1, t + 1);
    var s3 := Wins(s2, t + 1);
    s' := Commits(s3, t + 1);
    var a, b, c, d := DoCampaign(1), PersistState(1), StateStatus(1, HardState(t + 1, 1)), LogStatus(1, 1, t + 1, 1);
    OneNext(s, a, s1);
    OneNext(s1, b, s2);
    OneNext(s2, c, s3);
    OneNext(s3, d, s');
    ReachesMore(s, [a], s1, [b], s2);
    ReachesMore(s, [a] + [b], s2, [c], s3);
    ReachesMore(s, [a] + [b] + [c], s3, [d], s');
    acts := [a] + [b] + [c] + [d];
  }

  lemma Forgets(s: Sys, t: nat) returns (s': Sys)
    requires Leader1(s, t, 1)
    ensures Next(s, Crash(1, [], 0, 1), s') && Idle(s', t)
  {
    s' := Restart(s, 1, [], 0, 1);
  }

  lemma Starts() returns (s: Sys)
    ensures Init(s) && Idle(s, 0)
  {
    s := Sys(ONE, map[1 := FreshNode(1, {1})], map[1 := Disk(HardState(0, NONE), [])], {},
             Hist(map[], map[], map[], map[], map[], {}, {}, map x | x in InitialTerms({1}) :: NONE));
    assert s.nodes.Keys == {1} && s.disks.Keys == {1};
  }

  /**
   * With one crash that keeps term and vote but not what was acknowledged, State
   * Machine Safety fails: two different entries are committed at index 1.
   */
  lemma LostAckBreaksCommits() returns (states: seq<Sys>, acts: seq<Action>, i: nat, j: nat)
    ensures IsRun(states, acts) && i < |acts| && j < |states| && 1 in states[i].nodes && 1 in states[j].nodes
    ensures acts[i] == Crash(1, [], 0, 1) && forall k | 0 <= k < |acts| && acts[k].Crash? :: k == i
    ensures 1 in states[i].disks && states[i].disks[1].durable == Hard(states[i].nodes[1])
    ensures Ack(1, 1, 1) in states[i].h.acks
    ensures states[i].nodes[1].committed == 1 && states[j].nodes[1].committed == 1
    ensures var a, b := states[i].nodes[1].log, states[j].nodes[1].log;
      |a| == 1 && |b| == 1 && a[0].term == 1 && b[0].term == 2
  {
    hide Next, Reaches, Init;
    var s := Starts();
    var s1, a := LeadsAndCommits(s, 0);
    var s2 := Forgets(s1, 1);
    var s3, b := LeadsAndCommits(s2, 1);
    var x := Crash(1, [], 0, 1);
    OneNext(s1, x, s2);
    ReachesMore(s1, [x], s2, b, s3);
    assert IsRun([s], []);
    ghost var first, acts1 := Extend([s], [], a, s1);
    i := |a|;
    states, acts := Extend(first, acts1, [x] + b, s3);
    j := |acts|;
    assert states[i] == states[..|first|][i] == s1;
    assert forall k | |a| < k < |acts| :: acts[k] == b[k - |a| - 1];
  }
}
