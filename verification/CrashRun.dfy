// Why a crash must not lose the term: a candidate can win with the votes of
// others before its own vote is durable, crash, and lead the same term once more
// with another log.
module CrashRun {
  import opened Quorum
  import opened PlainLog
  import opened RaftNode
  import opened Protocol
  import opened Election
  import opened Delivery
  import opened CrashSafety
  import opened Reelection

  const CFG := JointConfig({1, 2, 3}, {})

  predicate Cluster(s: Sys) { s.cfg == CFG && s.nodes.Keys == {1, 2, 3} && s.disks.Keys == {1, 2, 3} }

  /** Everything but node u and what concerns it is as before; messages stay in the network. */
  predicate OnlyNode(s: Sys, u: NodeId, s': Sys)
    requires Cluster(s)
  {
    && Cluster(s') && s.net <= s'.net
    && forall v | v in {1, 2, 3} && v != u :: s'.nodes[v] == s.nodes[v] && s'.disks[v] == s.disks[v]
  }

  // ---------------------------------------------------------------------------
  // Parts of the run
  // ---------------------------------------------------------------------------

  /** Node 1, knowing only an empty log, asks for votes in term 1. */
  lemma Campaigns(s: Sys) returns (s': Sys)
    requires Cluster(s)
    requires var n := s.nodes[1]; n.id == 1 && n.term == 0 && n.role == Follower && n.log == []
    ensures Next(s, DoCampaign(1), s') && OnlyNode(s, 1, s')
    ensures Vote(1, 2, 1, 0, 0) in s'.net && Vote(1, 3, 1, 0, 0) in s'.net
    ensures s'.disks[1].durable == s.disks[1].durable
    ensures var n := s'.nodes[1]; n.id == 1 && n.term == 1 && n.role == Candidate && n.log == [] && n.votes == map[]
  {
    var a := DoCampaign(1);
    s' := Emit(s, 1, NodeStep(s, a));
    var msgs := Campaign(CFG, s.nodes[1]).msgs;
    assert 2 in CFG.IDs() && 3 in CFG.IDs();
    assert Vote(1, 2, 1, 0, 0) in msgs && Vote(1, 3, 1, 0, 0) in msgs;
  }

  lemma TakesVote(s: Sys, u: NodeId) returns (s': Sys)
    requires Cluster(s) && (u == 2 || u == 3) && s.nodes[u] == FreshNode(u, {1, 2, 3}) && Vote(1, u, 1, 0, 0) in s.net
    requires s.disks[u] == Disk(HardState(0, NONE), [])
    ensures Next(s, RecvVote(u, Vote(1, u, 1, 0, 0)), s') && OnlyNode(s, u, s')
    ensures s'.disks[u].queue == [HardState(1, 1)]
    ensures s'.nodes[u].id == u && s'.nodes[u].term == 1 && s'.nodes[u].role == Follower
  {
    s' := Emit(s, u, NodeStep(s, RecvVote(u, Vote(1, u, 1, 0, 0))));
    assert IsUpToDate([], 0, 0);
    assert s'.disks[u].queue == [] + [HardState(1, 1)];
  }

  lemma StoresVote(s: Sys, u: NodeId) returns (s': Sys)
    requires Cluster(s) && (u == 2 || u == 3) && s.disks[u].queue == [HardState(1, 1)]
    ensures Next(s, PersistState(u), s') && OnlyNode(s, u, s') && s'.nodes == s.nodes
    ensures IsDurable(s'.h, u, HardState(1, 1))
  {
    s' := Persist(s, u);
  }

  lemma AnswersVote(s: Sys, u: NodeId) returns (s': Sys)
    requires Cluster(s) && (u == 2 || u == 3) && IsDurable(s.h, u, HardState(1, 1))
    requires s.nodes[u].id == u && s.nodes[u].term == 1 && s.nodes[u].role == Follower
    ensures Next(s, StateStatus(u, HardState(1, 1)), s') && OnlyNode(s, u, s')
    ensures VoteResp(u, 1, 1, false) in s'.net
  {
    s' := Emit(s, u, NodeStep(s, StateStatus(u, HardState(1, 1))));
    assert VoteResp(u, 1, 1, false) in NodeStep(s, StateStatus(u, HardState(1, 1))).msgs;
  }

  lemma ThreeNexts(s: Sys, a: Action, s1: Sys, b: Action, s2: Sys, c: Action, s3: Sys)
    requires Next(s, a, s1) && Next(s1, b, s2) && Next(s2, c, s3) && !a.Crash? && !b.Crash? && !c.Crash?
    ensures Reaches(s, [a] + [b] + [c], s3) && CrashFree([a] + [b] + [c])
  {
    hide Next, Reaches;
    OneNext(s, a, s1);
    OneNext(s1, b, s2);
    OneNext(s2, c, s3);
    ReachesMore(s, [a], s1, [b], s2);
    ReachesMore(s, [a] + [b], s2, [c], s3);
  }

  /** Node u grants node 1's request: it takes the vote, its disk does, and then it answers. */
  lemma Grants(s: Sys, u: NodeId) returns (s': Sys, acts: seq<Action>)
    requires Cluster(s) && (u == 2 || u == 3) && s.nodes[u] == FreshNode(u, {1, 2, 3}) && Vote(1, u, 1, 0, 0) in s.net
    requires s.disks[u] == Disk(HardState(0, NONE), [])
    ensures Reaches(s, acts, s') && OnlyNode(s, u, s') && VoteResp(u, 1, 1, false) in s'.net && CrashFree(acts)
  {
    hide Next, Reaches, CrashFree;
    var s1 := TakesVote(s, u);
    var s2 := StoresVote(s1, u);
    s' := AnswersVote(s2, u);
    var a, b, c := RecvVote(u, Vote(1, u, 1, 0, 0)), PersistState(u), StateStatus(u, HardState(1, 1));
    ThreeNexts(s, a, s1, b, s2, c, s');
    acts := [a] + [b] + [c];
  }

  lemma TwoOfThree(votes: map<NodeId, bool>)
    ensures votes == map[2 := true] ==> JointVote(CFG, votes) == VotePending
    ensures votes == map[2 := true, 3 := true] ==> JointVote(CFG, votes) == VoteWon
  {
    if votes == map[2 := true] {
      assert Yes({1, 2, 3}, votes) == {2} && Missing({1, 2, 3}, votes) == {1, 3};
    }
    if votes == map[2 := true, 3 := true] {
      assert Yes({1, 2, 3}, votes) == {2, 3};
    }
  }

  function Leading(data: nat): Log { [EMPTY_ENTRY.(term := 1), Entry(1, Normal, data, 0)] }

  lemma FirstGrant(s: Sys) returns (s': Sys)
    requires Cluster(s) && VoteResp(2, 1, 1, false) in s.net
    requires var n := s.nodes[1]; n.id == 1 && n.term == 1 && n.role == Candidate && n.votes == map[]
    ensures Next(s, RecvVoteResp(1, VoteResp(2, 1, 1, false)), s') && OnlyNode(s, 1, s')
    ensures s'.disks[1].durable == s.disks[1].durable && s'.nodes[1] == s.nodes[1].(votes := map[2 := true])
  {
    hide JointVote, Observe;
    TwoOfThree(map[2 := true]);
    s' := Emit(s, 1, NodeStep(s, RecvVoteResp(1, VoteResp(2, 1, 1, false))));
  }

  lemma SecondGrant(s: Sys) returns (s': Sys)
    requires Cluster(s) && VoteResp(3, 1, 1, false) in s.net
    requires var n := s.nodes[1];
      n.id == 1 && n.term == 1 && n.role == Candidate && n.votes == map[2 := true] && n.log == []
    ensures Next(s, RecvVoteResp(1, VoteResp(3, 1, 1, false)), s') && OnlyNode(s, 1, s')
    ensures s'.disks[1].durable == s.disks[1].durable
    ensures var n := s'.nodes[1]; n.id == 1 && n.term == 1 && n.role == Leader && n.log == [EMPTY_ENTRY.(term := 1)]
  {
    hide JointVote, Observe;
    TwoOfThree(map[2 := true, 3 := true]);
    assert RecordVote(map[2 := true], 3, true) == map[2 := true, 3 := true];
    s' := Emit(s, 1, NodeStep(s, RecvVoteResp(1, VoteResp(3, 1, 1, false))));
    assert Stamp([EMPTY_ENTRY], 1) == [EMPTY_ENTRY.(term := 1)];
  }

  lemma FirstEntry(s: Sys, data: nat) returns (s': Sys)
    requires Cluster(s)
    requires var n := s.nodes[1]; n.id == 1 && n.term == 1 && n.role == Leader && n.log == [EMPTY_ENTRY.(term := 1)]
    ensures Next(s, Propose(1, [Entry(0, Normal, data, 0)]), s') && OnlyNode(s, 1, s')
    ensures s'.disks[1].durable == s.disks[1].durable
    ensures var n := s'.nodes[1]; n.id == 1 && n.term == 1 && n.role == Leader && n.log == Leading(data)
  {
    s' := Emit(s, 1, NodeStep(s, Propose(1, [Entry(0, Normal, data, 0)])));
    assert Stamp([Entry(0, Normal, data, 0)], 1) == [Entry(1, Normal, data, 0)];
  }

  /** Node 1 wins with two grants that are in the network and appends one entry. */
  lemma Wins(s: Sys, data: nat) returns (s': Sys, acts: seq<Action>)
    requires Cluster(s) && VoteResp(2, 1, 1, false) in s.net && VoteResp(3, 1, 1, false) in s.net
    requires var n := s.nodes[1]; n.id == 1 && n.term == 1 && n.role == Candidate && n.log == [] && n.votes == map[]
    ensures Reaches(s, acts, s') && OnlyNode(s, 1, s') && s'.disks[1].durable == s.disks[1].durable
    ensures CrashFree(acts)
    ensures var n := s'.nodes[1]; n.id == 1 && n.term == 1 && n.role == Leader && n.log == Leading(data)
  {
    hide Next, Reaches, CrashFree, Leading;
    var s1 := FirstGrant(s);
    var s2 := SecondGrant(s1);
    s' := FirstEntry(s2, data);
    var a, b := RecvVoteResp(1, VoteResp(2, 1, 1, false)), RecvVoteResp(1, VoteResp(3, 1, 1, false));
    var c := Propose(1, [Entry(0, Normal, data, 0)]);
    ThreeNexts(s, a, s1, b, s2, c, s');
    acts := [a] + [b] + [c];
  }

  // ---------------------------------------------------------------------------
  // The run
  // ---------------------------------------------------------------------------

  lemma Starts() returns (s: Sys)
    ensures Init(s) && Cluster(s) && s.disks[1].durable == HardState(0, NONE)
    ensures forall u | u in {1, 2, 3} ::
              s.nodes[u] == FreshNode(u, {1, 2, 3}) && s.disks[u] == Disk(HardState(0, NONE), [])
  {
    var ids := {1, 2, 3};
    s := Sys(CFG, map u | u in ids :: FreshNode(u, ids), map u | u in ids :: Disk(HardState(0, NONE), []), {},
             Hist(map[], map[], map[], map[], map[], {}, {}, map x | x in InitialTerms(ids) :: NONE));
    assert s.nodes.Keys == ids && s.disks.Keys == ids;
  }

  /** From the start to node 1 leading term 1 with entry 7 at index 2. */
  lemma LeadsOnce(s: Sys) returns (s': Sys, acts: seq<Action>)
    requires Cluster(s) && s.disks[1].durable == HardState(0, NONE)
    requires forall u | u in {1, 2, 3} ::
               s.nodes[u] == FreshNode(u, {1, 2, 3}) && s.disks[u] == Disk(HardState(0, NONE), [])
    ensures Reaches(s, acts, s') && Cluster(s') && s'.disks[1].durable == HardState(0, NONE) && CrashFree(acts)
    ensures VoteResp(2, 1, 1, false) in s'.net && VoteResp(3, 1, 1, false) in s'.net
    ensures var n := s'.nodes[1]; n.id == 1 && n.term == 1 && n.role == Leader && n.log == Leading(7)
  {
    hide Next, Reaches;
    var s1 := Campaigns(s);
    OneNext(s, DoCampaign(1), s1);
    var s2, a := Grants(s1, 2);
    var s3, b := Grants(s2, 3);
    var s4, c := Wins(s3, 7);
    ReachesMore(s, [DoCampaign(1)], s1, a, s2);
    ReachesMore(s, [DoCampaign(1)] + a, s2, b, s3);
    ReachesMore(s, [DoCampaign(1)] + a + b, s3, c, s4);
    s', acts := s4, [DoCampaign(1)] + a + b + c;
  }

  /**
   * With a single crash, of a leader whose disk is still at term 0, one term can
   * have two leaderships (of the same node) whose logs hold different entries of
   * that term at the same index.
   */
  lemma CrashBreaksLogMatching() returns (states: seq<Sys>, acts: seq<Action>, i: nat, j: nat)
    ensures IsRun(states, acts) && i < |acts| && j < |states| && 1 in states[i].nodes && 1 in states[j].nodes
    ensures acts[i] == Crash(1, [], 0, 1) && forall k | 0 <= k < |acts| && acts[k].Crash? :: k == i
    ensures 1 in states[i].disks && states[i].disks[1].durable.term == 0
    ensures states[i].nodes[1].role == Leader && states[j].nodes[1].role == Leader
    ensures states[i].nodes[1].term == 1 && states[j].nodes[1].term == 1
    ensures var a, b := states[i].nodes[1].log, states[j].nodes[1].log;
      |a| == 2 && |b| == 2 && a[1].term == 1 && b[1].term == 1 && a[..2] != b[..2]
  {
    hide Next, Reaches, EInv, Init;
    var s := Starts();
    var s1, a := LeadsOnce(s);
    assert IsRun([s], []);
    ghost var first, acts1 := Extend([s], [], a, s1);
    i := |a|;
    assert Leads(first[i], 1, 1);
    ghost var second, acts2 := LeadAgain(first, acts1, 1, 1, [], 0, 1);
    assert second[i] == second[..|first|][i];
    states, acts := MoreEntries(second, acts2, 8);
    j := |acts|;
    assert Leading(7)[1] != Leading(8)[1];
  }

  /** Node 1, leading term 1 with its first entry only, appends one more. */
  lemma MoreEntries(states: seq<Sys>, acts: seq<Action>, data: nat) returns (states': seq<Sys>, acts': seq<Action>)
    requires IsRun(states, acts) && Elected(states[|acts|], 1, 1, [])
    ensures IsRun(states', acts') && |acts'| == |acts| + 1 && states'[..|states|] == states && acts'[..|acts|] == acts
    ensures !acts'[|acts|].Crash?
    ensures Leads(states'[|acts'|], 1, 1) && states'[|acts'|].nodes[1].log == Leading(data)
  {
    hide Next, Reaches, EInv, Init;
    var s, x := states[|acts|], Entry(0, Normal, data, 0);
    RunKeepsE(states, acts, |acts|, |acts|);
    var s' := OneProposal(s, 1, x);
    OneNext(s, Propose(1, [x]), s');
    states', acts' := Extend(states, acts, [Propose(1, [x])], s');
  }
}
