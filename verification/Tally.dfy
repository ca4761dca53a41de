// What a node's role says, in every run: a candidate has neither won nor lost the
// votes it has counted and follows nobody, and a leader follows itself.
module Tally {
  import opened Quorum
  import opened PlainLog
  import opened RaftNode
  import opened Protocol
  import opened Election
  import CrashSafety

  ghost predicate Open(cfg: JointConfig, n: Node) {
    && (n.role == Candidate ==> JointVote(cfg, n.votes) == VotePending)
    && (n.role == Candidate || n.role == PreCandidate ==> n.lead == NONE)
    && (n.role == Leader ==> n.lead == n.id)
  }

  ghost predicate AllOpen(s: Sys) { forall v | v in s.nodes :: Open(s.cfg, s.nodes[v]) }

  lemma NoVotesYet(cfg: JointConfig)
    requires cfg.incoming != {}
    ensures JointVote(cfg, map[]) == VotePending
  {
    assert Yes(cfg.incoming, map[]) == {} && Missing(cfg.incoming, map[]) == cfg.incoming;
    assert Yes(cfg.outgoing, map[]) == {} && Missing(cfg.outgoing, map[]) == cfg.outgoing;
  }

  /** A yes vote loses no election. */
  lemma YesNeverLoses(cfg: JointConfig, votes: map<NodeId, bool>, id: NodeId)
    requires JointVote(cfg, votes) != VoteLost
    ensures JointVote(cfg, RecordVote(votes, id, true)) != VoteLost
  {
    hide JointVote, IsQuorum;
    var votes' := RecordVote(votes, id, true);
    VoteResultExact(cfg, votes);
    VoteResultExact(cfg, votes');
    var yes :| Completes(votes, yes) && IsQuorum(cfg, yes);
    if id !in votes {
      assert Completes(votes', yes + {id});
      IsQuorumMono(cfg, yes, yes + {id});
    }
  }

  lemma OwnVoteOpen(cfg: JointConfig, n: Node, hs: HardState)
    requires Open(cfg, n)
    ensures Open(cfg, HandleStatePersisted(cfg, n, hs).node)
  {
    hide JointVote, RecordVote;
    if n.role == Candidate { YesNeverLoses(cfg, n.votes, n.id); }
  }

  lemma AnswerOpen(cfg: JointConfig, n: Node, m: Msg)
    requires Open(cfg, n) && m.VoteResp?
    ensures Open(cfg, HandleVoteResp(cfg, n, m).node)
  {
    hide JointVote, RecordVote;
  }

  lemma AppOpen(cfg: JointConfig, n: Node, m: Msg)
    requires Open(cfg, n) && m.App?
    ensures Open(cfg, StepApp(n, m).node)
  {
    hide JointVote, FindConflict, Accept, FindConflictByTerm, TermAt;
  }

  lemma StepOpen(s: Sys, a: Action)
    requires Enabled(s, a) && IsNodeStep(a) && Open(s.cfg, s.nodes[a.v]) && s.cfg.incoming != {}
    ensures Open(s.cfg, NodeStep(s, a).node)
  {
    hide JointVote, RecordVote, StepApp, HandleVoteResp, HandleStatePersisted, TermAt;
    var n := s.nodes[a.v];
    if IsReplication(a) {
      CrashSafety.ReplicationSteady(s, a);
    } else if a.RecvApp? {
      AppOpen(s.cfg, n, a.m);
    } else if a.RecvVoteResp? {
      AnswerOpen(s.cfg, n, a.m);
    } else if a.StateStatus? {
      OwnVoteOpen(s.cfg, n, a.hs);
    } else if a.DoCampaign? {
      NoVotesYet(s.cfg);
    }
  }

  lemma NextOpen(s: Sys, a: Action, s': Sys)
    requires Next(s, a, s') && AllOpen(s) && s.cfg.incoming != {}
    ensures AllOpen(s')
  {
    hide NodeStep, ReadsCommit, Observe, JointVote;
    forall v | v in s'.nodes ensures Open(s'.cfg, s'.nodes[v]) {
      assert v != a.v || IsNodeStep(a) || a.PersistState? ==> Open(s.cfg, s.nodes[v]);
      if v == a.v && IsNodeStep(a) { StepOpen(s, a); }
    }
  }

  lemma {:induction false} RunOpen(states: seq<Sys>, acts: seq<Action>, i: nat)
    requires IsRun(states, acts) && i < |states|
    ensures AllOpen(states[i]) && states[i].cfg.incoming != {}
  {
    hide Next;
    if i > 0 {
      RunOpen(states, acts, i - 1);
      RunKeepsE(states, acts, i, i);
      NextOpen(states[i-1], acts[i-1], states[i]);
    }
  }

  /** In every run, crashes included: whoever is still a candidate has neither a winning nor a lost tally. */
  lemma CandidatesAreUndecided(states: seq<Sys>, acts: seq<Action>, i: nat, v: NodeId)
    requires IsRun(states, acts) && i < |states| && v in states[i].nodes && states[i].nodes[v].role == Candidate
    ensures JointVote(states[i].cfg, states[i].nodes[v].votes) == VotePending
  {
    hide Next, Init, JointVote;
    RunOpen(states, acts, i);
    assert Open(states[i].cfg, states[i].nodes[v]);
  }

  /** In every run: a leader knows that it leads, and whoever runs for leadership knows of no leader. */
  lemma RolesKnowTheirLeader(states: seq<Sys>, acts: seq<Action>, i: nat, v: NodeId)
    requires IsRun(states, acts) && i < |states| && v in states[i].nodes
    ensures var n := states[i].nodes[v];
      && (n.role == Leader ==> n.lead == v)
      && (n.role == Candidate || n.role == PreCandidate ==> n.lead == NONE)
  {
    hide Next, Init, JointVote, HistE, DisksE, NetE;
    RunOpen(states, acts, i);
    RunKeepsE(states, acts, i, i);
    assert Open(states[i].cfg, states[i].nodes[v]) && NodeE(states[i].h, v, states[i].nodes[v]);
  }
}
