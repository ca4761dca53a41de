// The `voted` flag of a node: it says that the vote of this term is on the disk, and
// only such a vote is granted a second time.
module Voted {
  import opened Quorum
  import opened PlainLog
  import opened RaftNode
  import opened Protocol
  import opened Election
  import CrashSafety

  ghost predicate VotedOk(h: Hist, n: Node) {
    n.voted ==> IsDurable(h, n.id, Hard(n)) && n.vote != NONE && n.vote != n.id
  }

  ghost predicate AllVotedOk(s: Sys) { forall v | v in s.nodes :: VotedOk(s.h, s.nodes[v]) }

  /** Along a queue of writes that stays in one term the vote does not change. */
  lemma {:induction false} ChainVote(d: Disk, k: nat)
    requires forall i | 0 <= i < |d.queue| :: Follows(Chain(d)[i], d.queue[i])
    requires k <= |d.queue|
    ensures Follows(d.durable, Chain(d)[k])
  {
    if k > 0 {
      ChainVote(d, k - 1);
      assert Follows(Chain(d)[k-1], d.queue[k-1]);
    }
  }

  /** A durable hard state of the node's term is the node's own. */
  lemma DurableIsOwn(h: Hist, v: NodeId, n: Node, d: Disk, hs: HardState)
    requires DiskE(h, v, n, d) && IsDurable(h, v, hs) && hs.term == n.term
    ensures hs == Hard(n)
  {
    ChainVote(d, |d.queue|);
  }

  lemma StatusVoted(cfg: JointConfig, h: Hist, v: NodeId, n: Node, d: Disk, hs: HardState)
    requires n.id == v && DiskE(h, v, n, d) && IsDurable(h, v, hs) && VotedOk(h, n)
    ensures VotedOk(h, HandleStatePersisted(cfg, n, hs).node)
  {
    hide JointVote, RecordVote, DiskE;
    if hs.term == n.term { DurableIsOwn(h, v, n, d, hs); }
  }

  lemma AppVoted(h: Hist, n: Node, m: Msg)
    requires m.App? && m.term == n.term && VotedOk(h, n)
    ensures VotedOk(h, StepApp(n, m).node)
  {
    hide FindConflict, Accept, FindConflictByTerm, TermAt;
  }

  lemma StepVoted(s: Sys, a: Action)
    requires Enabled(s, a) && IsNodeStep(a) && s.nodes[a.v].id == a.v && VotedOk(s.h, s.nodes[a.v])
    requires DiskE(s.h, a.v, s.nodes[a.v], s.disks[a.v])
    ensures VotedOk(s.h, NodeStep(s, a).node)
  {
    hide StepApp, HandleStatePersisted, TermAt, JointVote, RecordVote, DiskE;
    var n := s.nodes[a.v];
    if IsReplication(a) {
      CrashSafety.ReplicationSteady(s, a);
    } else if a.RecvApp? {
      AppVoted(s.h, n, a.m);
    } else if a.StateStatus? {
      StatusVoted(s.cfg, s.h, a.v, n, s.disks[a.v], a.hs);
    }
  }

  lemma NextVoted(s: Sys, a: Action, s': Sys)
    requires EInv(s) && GrowE(s.h, s'.h) && Next(s, a, s') && AllVotedOk(s)
    ensures AllVotedOk(s')
  {
    hide NodeStep, ReadsCommit, Observe, HistE, NetE, DiskE;
    forall v | v in s'.nodes ensures VotedOk(s'.h, s'.nodes[v]) {
      assert VotedOk(s.h, s.nodes[v]) && NodeE(s.h, v, s.nodes[v]);
      if v == a.v && IsNodeStep(a) {
        assert DiskE(s.h, v, s.nodes[v], s.disks[v]);
        StepVoted(s, a);
      }
    }
  }

  lemma {:induction false} RunVoted(states: seq<Sys>, acts: seq<Action>, i: nat)
    requires IsRun(states, acts) && i < |states|
    ensures AllVotedOk(states[i])
  {
    hide Next, EInv, GrowE;
    if i > 0 {
      RunVoted(states, acts, i - 1);
      RunKeepsE(states, acts, i - 1, i);
      NextVoted(states[i-1], acts[i-1], states[i]);
    }
  }

  /**
   * In every run, crashes included: a node that says it has voted has, in its present
   * term, given another node a vote that is on its disk.
   */
  lemma VotedIsDurable(states: seq<Sys>, acts: seq<Action>, i: nat, v: NodeId)
    requires IsRun(states, acts) && i < |states| && v in states[i].nodes && states[i].nodes[v].voted
    ensures IsDurable(states[i].h, v, Hard(states[i].nodes[v]))
    ensures states[i].nodes[v].vote != NONE && states[i].nodes[v].vote != v
  {
    hide Next, Init, HistE, DisksE, NetE;
    RunVoted(states, acts, i);
    RunKeepsE(states, acts, i, i);
    assert VotedOk(states[i].h, states[i].nodes[v]) && NodeE(states[i].h, v, states[i].nodes[v]);
  }

  /** Within its term a node refuses, at once, everybody but the leader it follows. */
  lemma RefusesInTerm(f: Node, m: Msg)
    requires m.Vote? && m.term == f.term
    ensures VoteResp(f.id, m.from, f.term, true) in HandleVote(f, m).msgs <==> m.from != f.lead
    ensures VoteResp(f.id, m.from, f.term, false) in HandleVote(f, m).msgs <==> m.from == f.lead && f.voted
  {
  }

  /** Once the report of its vote has come, a node grants that vote again to the leader it elected. */
  lemma GrantsAgain(cfg: JointConfig, f: Node, c: NodeId, m: Msg)
    requires f.role == Follower && f.vote == c && c != NONE && c != f.id && f.lead == c
    requires m.Vote? && m.from == c && m.term == f.term
    ensures var o := HandleStatePersisted(cfg, f, Hard(f));
      && VoteResp(f.id, c, f.term, false) in o.msgs
      && HandleVote(o.node, m).msgs == {VoteResp(f.id, c, f.term, false)}
  {
  }
}
