// More consequences for runs: without crashes nothing committed is ever lost or
// changed; commitTo never panics, and back-tracking finds the common prefix.
module RunFacts {
  import opened Quorum
  import opened PlainLog
  import opened ProgressSpec
  import opened RaftNode
  import opened Protocol
  import opened Election
  import opened History
  import opened Replication
  import opened LogSafety
  import opened Delivery
  import Backtracking

  // ---------------------------------------------------------------------------
  // Commit indexes only grow
  // ---------------------------------------------------------------------------

  lemma AppCommits(n: Node, m: Msg)
    requires m.App?
    ensures StepApp(n, m).node.committed >= n.committed
  {
    hide FindConflict, Accept, FindConflictByTerm, TermAt;
  }

  lemma ReplicationCommits(s: Sys, a: Action)
    requires Enabled(s, a) && IsReplication(a)
    ensures NodeStep(s, a).node.committed >= s.nodes[a.v].committed
  {
    hide FindConflictByTerm, TermAt, OnAck, OnReject, Stamp;
  }

  lemma NodeStepCommits(s: Sys, a: Action)
    requires Enabled(s, a) && IsNodeStep(a)
    ensures NodeStep(s, a).node.committed >= s.nodes[a.v].committed
  {
    hide StepApp, TermAt, JointVote, RecordVote;
    if IsReplication(a) {
      ReplicationCommits(s, a);
    } else if a.RecvApp? {
      AppCommits(s.nodes[a.v], a.m);
    }
  }

  lemma StepCommits(s: Sys, a: Action, s': Sys, v: NodeId)
    requires Next(s, a, s') && !a.Crash? && v in s.nodes
    ensures v in s'.nodes && s'.nodes[v].committed >= s.nodes[v].committed
  {
    hide Enabled, ReadsCommit, NodeStep, Observe;
    if !a.PersistState? && v == a.v { NodeStepCommits(s, a); }
  }

  lemma {:induction false} CommitsGrow(states: seq<Sys>, acts: seq<Action>, i: nat, j: nat, v: NodeId)
    requires IsRun(states, acts) && CrashFree(acts) && i <= j < |states| && v in states[i].nodes
    ensures v in states[j].nodes && states[j].nodes[v].committed >= states[i].nodes[v].committed
    decreases j
  {
    hide Next;
    if i < j {
      CommitsGrow(states, acts, i, j - 1, v);
      StepCommits(states[j-1], acts[j-1], states[j], v);
    }
  }

  /** What a node has committed stays committed, and stays the same, for ever. */
  lemma CommittedForever(states: seq<Sys>, acts: seq<Action>, i: nat, j: nat, v: NodeId)
    requires IsRun(states, acts) && CrashFree(acts) && i <= j < |states| && v in states[i].nodes
    ensures v in states[j].nodes && states[i].nodes[v].committed <= states[j].nodes[v].committed
    ensures Agree(states[j].nodes[v].log, states[i].nodes[v].log, states[i].nodes[v].committed)
  {
    hide LInv, Next, Init;
    CommitsGrow(states, acts, i, j, v);
    var c := states[i].nodes[v].committed;
    if c > 0 { StateMachineSafety(states, acts, j, i, v, v, c); }
  }

  // ---------------------------------------------------------------------------
  // commitTo at the leader
  // ---------------------------------------------------------------------------

  /** A quorum index is reached by some voter. */
  lemma SomeAcker(cfg: JointConfig, acked: map<NodeId, nat>, i: nat) returns (u: NodeId)
    requires cfg.incoming != {} && IsJointCommitted(cfg, acked, At(i))
    ensures u in cfg.IDs() && AckOf(acked, u) >= i
  {
    var c := cfg.incoming * Ackers(cfg.IDs(), acked, i);
    assert c != {};
    u :| u in c;
  }

  lemma AckWithinLog(h: Hist, nodes: map<NodeId, Node>, n: Node, m: Msg)
    requires AcksOk(h) && NodeL(h, n) && n.role == Leader && m.AppResp? && m.term == n.term && MsgL(h, nodes, m)
    ensures m.index <= |n.log|
  {
    hide SafeCommit, GoodLog, AckVoteOk;
  }

  lemma MatchWithinLog(h: Hist, nodes: map<NodeId, Node>, n: Node, j: NodeId, i: nat, u: NodeId)
    requires NodeL(h, n) && n.role == Leader && PrsL(h, n, nodes) && j in n.prs && i <= |n.log|
    requires u in n.prs && u in nodes
    ensures u in Acked(n, j, i).prs && Acked(n, j, i).prs[u].matched <= |n.log|
  {
    assert PrL(h, n, u, n.prs[u], nodes[u]);
  }

  /** The leader's maybeCommit never asks commitTo for more than the log holds. */
  lemma CommitWithinLog(s: Sys, v: NodeId, m: Msg, mci: nat)
    requires HistL(s.cfg, s.h) && NodesL(s) && AllPrsL(s) && NetL(s) && s.cfg.IDs() <= s.nodes.Keys
    requires v in s.nodes && s.nodes[v].role == Leader
    requires m in s.net && m.AppResp? && m.term == s.nodes[v].term && m.from in s.nodes[v].prs
    requires IsJointCommitted(s.cfg, Matches(Acked(s.nodes[v], m.from, m.index).prs), At(mci))
    ensures mci <= |s.nodes[v].log|
  {
    hide NodeL, PrsL, MsgL, TermsOk, BallotsOk, AcksOk, ChosenOk, DurableOk, IsJointCommitted;
    var n := s.nodes[v];
    var u := SomeAcker(s.cfg, Matches(Acked(n, m.from, m.index).prs), mci);
    AckWithinLog(s.h, s.nodes, n, m);
    if u in n.prs { MatchWithinLog(s.h, s.nodes, n, m.from, m.index, u); }
  }

  lemma LeaderCommitsNeverPanic(states: seq<Sys>, acts: seq<Action>, i: nat, v: NodeId, m: Msg, mci: nat)
    requires IsRun(states, acts) && PromisesKept(states, acts) && i < |states|
    requires v in states[i].nodes && states[i].nodes[v].role == Leader && m.AppResp? && Delivered(states[i], v, m)
    requires m.from in states[i].nodes[v].prs
    requires IsJointCommitted(states[i].cfg, Matches(Acked(states[i].nodes[v], m.from, m.index).prs), At(mci))
    ensures mci <= |states[i].nodes[v].log|
  {
    RunKeepsL(states, acts, i, i);
    CommitWithinLog(states[i], v, m, mci);
  }

  /** The same when the leader's own log became durable up to i. */
  lemma LeaderStatusNeverPanics(states: seq<Sys>, acts: seq<Action>, j: nat, v: NodeId, i: nat, t: nat, mci: nat)
    requires IsRun(states, acts) && PromisesKept(states, acts) && j < |states|
    requires v in states[j].nodes && states[j].nodes[v].role == Leader && StableToOk(states[j].nodes[v], i, t)
    requires IsJointCommitted(states[j].cfg, Matches(SelfAcked(states[j].nodes[v], i).prs), At(mci))
    ensures mci <= |states[j].nodes[v].log|
  {
    RunKeepsL(states, acts, j, j);
    StatusWithinLog(states[j], v, i, mci);
  }

  lemma StatusWithinLog(s: Sys, v: NodeId, i: nat, mci: nat)
    requires s.cfg.incoming != {} && NodesL(s) && AllPrsL(s) && s.cfg.IDs() <= s.nodes.Keys
    requires v in s.nodes && s.nodes[v].role == Leader && i <= |s.nodes[v].log|
    requires IsJointCommitted(s.cfg, Matches(SelfAcked(s.nodes[v], i).prs), At(mci))
    ensures mci <= |s.nodes[v].log|
  {
    hide NodeL, PrsL, IsJointCommitted;
    var n := s.nodes[v];
    var u := SomeAcker(s.cfg, Matches(SelfAcked(n, i).prs), mci);
    if u in n.prs { SelfWithinLog(s.h, s.nodes, n, i, u); }
  }

  lemma SelfWithinLog(h: Hist, nodes: map<NodeId, Node>, n: Node, i: nat, u: NodeId)
    requires NodeL(h, n) && n.role == Leader && PrsL(h, n, nodes) && i <= |n.log| && u in n.prs && u in nodes
    ensures u in SelfAcked(n, i).prs && SelfAcked(n, i).prs[u].matched <= |n.log|
  {
    assert PrL(h, n, u, n.prs[u], nodes[u]);
  }

  // ---------------------------------------------------------------------------
  // raft.Step
  // ---------------------------------------------------------------------------

  lemma SameTermNeverPanics(states: seq<Sys>, acts: seq<Action>, i: nat, v: NodeId, m: Msg, mci: nat)
    requires IsRun(states, acts) && PromisesKept(states, acts) && i < |states|
    requires v in states[i].nodes && Delivered(states[i], v, m)
    requires ReadsIndex(states[i].cfg, states[i].nodes[v], m, mci)
    ensures !HandlePanics(states[i].nodes[v], m, mci)
  {
    hide LInv, Next, Init, IsJointCommitted;
    if m.App? {
      AppendsNeverPanic(states, acts, i, v, m);
    } else if m.Heartbeat? {
      HeartbeatsNeverPanic(states, acts, i, v, m);
    } else if HandlePanics(states[i].nodes[v], m, mci) {
      LeaderCommitsNeverPanic(states, acts, i, v, m, mci);
    }
  }

  lemma IdsFixed(states: seq<Sys>, acts: seq<Action>, i: nat, v: NodeId)
    requires IsRun(states, acts) && PromisesKept(states, acts) && i < |states| && v in states[i].nodes
    ensures states[i].nodes[v].id == v && v in states[i].disks
  {
    RunKeepsL(states, acts, i, i);
    HereOf(states[i], v);
  }

  /** A prefix of a run, extended by one transition. */
  lemma RunBranch(states: seq<Sys>, acts: seq<Action>, i: nat, a: Action, s': Sys)
    requires IsRun(states, acts) && PromisesKept(states, acts) && i < |states| && Next(states[i], a, s') && !a.Crash?
    ensures IsRun(states[..i+1] + [s'], acts[..i] + [a]) && PromisesKept(states[..i+1] + [s'], acts[..i] + [a])
  {
    hide Next, Init;
  }

  /** In no run whose crashes keep their promises does raft.Step panic on a message from the network. */
  lemma DeliveriesNeverPanic(states: seq<Sys>, acts: seq<Action>, i: nat, v: NodeId, m: Msg, mci: nat)
    requires IsRun(states, acts) && PromisesKept(states, acts) && i < |states| && v in states[i].nodes
    requires m in states[i].net && m.to == v && ReadsIndex(states[i].cfg, states[i].nodes[v], m, mci)
    ensures !StepPanics(states[i].nodes[v], m, mci)
  {
    hide Next, Init, HandlePanics;
    var s, n := states[i], states[i].nodes[v];
    IdsFixed(states, acts, i, v);
    if m.term == n.term {
      SameTermNeverPanics(states, acts, i, v, m, mci);
    } else if !m.Vote? && m.term > n.term {
      var a := if m.App? || m.Heartbeat? then ObserveLeader(v, m) else ObserveTerm(v, m.term);
      HigherTerm(s, v, m, mci);
      var mid := Emit(s, v, NodeStep(s, a));
      assert Next(s, a, mid) by { NextOf(s, a); }
      RunBranch(states, acts, i, a, mid);
      SameTermNeverPanics(states[..i+1] + [mid], acts[..i] + [a], i + 1, v, m, mci);
    }
  }

  lemma NextOf(s: Sys, a: Action)
    requires Enabled(s, a) && IsNodeStep(a) && ReadsCommit(s, a)
    ensures Next(s, a, Emit(s, a.v, NodeStep(s, a)))
  {
  }

  /** A leader always has something to send to a peer, at or before the end of its log, and never a snapshot. */
  lemma SendsNeverPanic(states: seq<Sys>, acts: seq<Action>, i: nat, v: NodeId, to: NodeId) returns (k: nat)
    requires IsRun(states, acts) && PromisesKept(states, acts) && i < |states|
    requires v in states[i].nodes && to in states[i].nodes
    requires states[i].nodes[v].role == Leader && to in states[i].nodes[v].prs && to != v
    ensures var n := states[i].nodes[v];
      CanSend(n, to, k) && n.prs[to].next - 1 <= |n.log| && n.prs[to].state != Snapshot
  {
    hide Next, Init;
    RunKeepsL(states, acts, i, i);
    k := LeaderCanSend(states[i], v, to);
  }

  lemma LeaderCanSend(s: Sys, v: NodeId, to: NodeId) returns (k: nat)
    requires NodesL(s) && AllPrsL(s) && NodesE(s) && v in s.nodes && to in s.nodes
    requires s.nodes[v].role == Leader && to in s.nodes[v].prs && to != v
    ensures var n := s.nodes[v];
      CanSend(n, to, k) && n.prs[to].next - 1 <= |n.log| && n.prs[to].state != Snapshot
  {
    hide LogL, ProbeOk, Settled;
    var n := s.nodes[v];
    assert NodeL(s.h, n) && NodeE(s.h, v, n) && PrsL(s.h, n, s.nodes);
    assert PrL(s.h, n, to, n.prs[to], s.nodes[to]);
    k := if n.prs[to].next <= |n.log| then 1 else 0;
  }

  /** Steps that are no crashes break no promise. */
  lemma KeptLonger(states: seq<Sys>, acts: seq<Action>, more: seq<Action>, states': seq<Sys>, acts': seq<Action>)
    requires PromisesKept(states, acts) && CrashFree(more) && acts' == acts + more
    requires |acts'| < |states'| && |states| <= |states'| && states'[..|states|] == states
    ensures PromisesKept(states', acts')
  {
    hide KeepsPromises;
    forall i | 0 <= i < |acts'| ensures KeepsPromises(states'[i], acts'[i]) {
      if i < |acts| {
        assert states'[i] == states'[..|states|][i] && KeepsPromises(states[i], acts[i]);
      } else {
        NoPromise(states'[i], more[i - |acts|]);
      }
    }
  }

  lemma NoPromise(s: Sys, a: Action)
    requires !a.Crash?
    ensures KeepsPromises(s, a)
  {
  }

  /**
   * A delivery handled by raft.Step, with the appends the same call sends
   * afterwards, extends any run: every theorem about runs holds of what the code does.
   */
  lemma StepExtendsRun(states: seq<Sys>, acts: seq<Action>, v: NodeId, m: Msg, mci: nat, answers: bool,
                       sends: seq<(NodeId, nat)>)
    returns (states': seq<Sys>, acts': seq<Action>)
    requires IsRun(states, acts) && PromisesKept(states, acts) && v in states[|acts|].nodes
    requires var s := states[|acts|];
      && m in s.net && m.to == v && ReadsIndex(s.cfg, s.nodes[v], m, mci)
      && Sendable(Step(s.cfg, s.nodes[v], m, mci, answers).node, sends)
      && forall i | 0 <= i < |sends| :: sends[i].0 in s.nodes
    ensures IsRun(states', acts') && PromisesKept(states', acts')
    ensures |states'| >= |states| && states'[..|states|] == states
    ensures var s := states[|acts|];
      var o := Step(s.cfg, s.nodes[v], m, mci, answers);
      v in s.disks && Effects(s, v, Then(o, SendAll(o.node, sends)), states'[|acts'|])
  {
    hide Next, Init, Reaches, Step, ReadsIndex, Sendable, SendAll;
    var s := states[|acts|];
    var o := Step(s.cfg, s.nodes[v], m, mci, answers);
    IdsFixed(states, acts, |acts|, v);
    var mid := StepIsTransitions(s, v, m, mci, answers);
    var states1, acts1 := Extend(states, acts, Transitions(s.nodes[v], m, mci, answers), mid);
    KeptLonger(states, acts, Transitions(s.nodes[v], m, mci, answers), states1, acts1);
    IdsFixed(states1, acts1, |acts1|, v);
    var s', more := SendsAreTransitions(mid, v, sends);
    EffectsTwice(s, v, o, mid, SendAll(o.node, sends), s');
    states', acts' := Extend(states1, acts1, more, s');
    KeptLonger(states1, acts1, more, states', acts');
    assert states'[..|states|] == states'[..|states1|][..|states|];
  }

  // ---------------------------------------------------------------------------
  // Back-tracking
  // ---------------------------------------------------------------------------

  lemma LogShape(h: Hist, n: Node)
    requires TermsOk(h) && LogL(h, n)
    ensures TermsMonotone(n.log) && Backtracking.PositiveTerms(n.log)
  {
    forall i, j | 0 <= i <= j < |n.log| ensures n.log[i].term <= n.log[j].term { GoodLogMonotone(h, n.log, i, j); }
  }

  /**
   * Between any two logs of a run, probing downwards from p ends exactly at
   * their common prefix (as far as it lies below p), after at most one refusal
   * per term.
   */
  lemma BacktrackingInRuns(states: seq<Sys>, acts: seq<Action>, i: nat, u: NodeId, v: NodeId, p: nat)
    requires IsRun(states, acts) && PromisesKept(states, acts) && i < |states|
    requires u in states[i].nodes && v in states[i].nodes
    requires p <= |states[i].nodes[u].log|
    ensures var a, b := states[i].nodes[u].log, states[i].nodes[v].log;
      && Backtracking.Probed(a, b, p)
      && Agree(a, b, Backtracking.Found(a, b, p))
      && (forall k: nat | k <= p && Agree(a, b, k) :: k <= Backtracking.Found(a, b, p))
      && |Backtracking.Refusals(a, b, p)| <= |Backtracking.TermsUpTo(a, p)|
  {
    RunKeepsL(states, acts, i, i);
    var s := states[i];
    assert NodeL(s.h, s.nodes[u]) && NodeL(s.h, s.nodes[v]);
    BacktrackingAt(s.h, s.nodes[u], s.nodes[v], p);
  }

  lemma BacktrackingAt(h: Hist, n: Node, f: Node, p: nat)
    requires TermsOk(h) && LogL(h, n) && LogL(h, f) && p <= |n.log|
    ensures var a, b := n.log, f.log;
      && Backtracking.Probed(a, b, p)
      && Agree(a, b, Backtracking.Found(a, b, p))
      && (forall k: nat | k <= p && Agree(a, b, k) :: k <= Backtracking.Found(a, b, p))
      && |Backtracking.Refusals(a, b, p)| <= |Backtracking.TermsUpTo(a, p)|
  {
    LogShape(h, n);
    LogShape(h, f);
    var a, b := n.log, f.log;
    Backtracking.RefusalsBounded(a, b, p);
    Backtracking.FindsCommonPrefix(a, b, p, 0);
    var q := Backtracking.Found(a, b, p);
    if q > 0 { LogMatching(h, a, b, q); }
    forall k: nat | k <= p && Agree(a, b, k) ensures k <= q {
      if k > 0 { AgreeAt(a, b, k, k - 1); }
      Backtracking.FindsCommonPrefix(a, b, p, k);
    }
  }
}
