// Everything that holds of the states of a run whose crashes keep their promises,
// in one place: what progress from such a state rests on.
module Health {
  import opened Quorum
  import opened PlainLog
  import opened ProgressSpec
  import opened RaftNode
  import opened Protocol
  import opened Election
  import opened History
  import opened Replication
  import opened CommitRule
  import opened Delivery
  import opened Paths
  import LogSafety
  import RunFacts

  /**
   * The node tracks exactly these, its unstable part starts inside its log or right
   * behind it, and a leader has matched its own log as far as it is stable.
   */
  ghost predicate Shaped(n: Node, ids: set<NodeId>) {
    && n.prs.Keys == ids && n.offset <= |n.log| + 1
    && (n.role == Leader && n.id in n.prs ==> n.prs[n.id].matched + 1 >= n.offset)
  }

  ghost predicate AllShaped(s: Sys) { forall v | v in s.nodes :: Shaped(s.nodes[v], s.nodes.Keys) }

  ghost predicate Healthy(s: Sys) { LInv(s) && AllShaped(s) && AllCommitting(s) }

  // ---------------------------------------------------------------------------
  // Steps
  // ---------------------------------------------------------------------------

  lemma AppShape(n: Node, m: Msg, ids: set<NodeId>)
    requires m.App? && Shaped(n, ids)
    ensures Shaped(StepApp(n, m).node, ids)
  {
    hide FindConflict, FindConflictByTerm, TermAt;
  }

  lemma StatusShape(n: Node, i: nat, t: nat, mci: nat, ids: set<NodeId>)
    requires Shaped(n, ids)
    ensures Shaped(HandleLogStatus(n, i, t, mci).node, ids)
  {
    hide TermAt;
  }

  lemma AckShape(n: Node, m: Msg, mci: nat, ids: set<NodeId>)
    requires m.AppResp? && Shaped(n, ids)
    ensures Shaped(StepAppResp(n, m, mci).node, ids)
  {
    hide OnAck;
    if m.from in n.prs { MatchGrows(n.prs[m.from], m.index); }
  }

  lemma MatchGrows(pr: Pr, i: nat)
    ensures OnAck(pr, i).matched >= pr.matched
  {
  }

  lemma RejectKeepsMatch(pr: Pr, log: Log, p: nat, hint: nat, t: nat)
    ensures OnReject(pr, log, p, hint, t).matched == pr.matched
  {
  }

  lemma ReplicationShape(s: Sys, a: Action, ids: set<NodeId>)
    requires Enabled(s, a) && IsReplication(a) && Shaped(s.nodes[a.v], ids)
    ensures Shaped(NodeStep(s, a).node, ids)
  {
    hide FindConflictByTerm, TermAt, OnReject, HandleLogStatus, StepAppResp;
    var n := s.nodes[a.v];
    if a.LogStatus? { StatusShape(n, a.index, a.term, a.mci, ids); }
    if a.RecvAppResp? { AckShape(n, a.m, a.mci, ids); }
    if a.RecvAppReject? && a.m.from in n.prs {
      RejectKeepsMatch(n.prs[a.m.from], n.log, a.m.index, a.m.hint, a.m.logTerm);
    }
  }

  lemma ResetShape(n: Node)
    ensures forall t: nat ::
      Reset(n, t).prs.Keys == n.prs.Keys && Reset(n, t).log == n.log && Reset(n, t).offset == n.offset
  {
  }

  lemma WinShape(n: Node, ids: set<NodeId>)
    requires Shaped(n, ids)
    ensures Shaped(BecomeLeader(n), ids)
  {
  }

  lemma VoteShape(cfg: JointConfig, n: Node, m: Msg, hs: HardState, ids: set<NodeId>)
    requires Shaped(n, ids)
    ensures m.VoteResp? ==> Shaped(HandleVoteResp(cfg, n, m).node, ids)
    ensures Shaped(HandleStatePersisted(cfg, n, hs).node, ids)
  {
    hide JointVote, RecordVote, BecomeLeader, Reset;
    if m.VoteResp? {
      var p := n.(votes := RecordVote(n.votes, m.from, !m.reject));
      WinShape(p, ids);
      ResetShape(p);
    }
    WinShape(n.(votes := RecordVote(n.votes, n.id, true)), ids);
  }

  lemma ElectionShape(s: Sys, a: Action, ids: set<NodeId>)
    requires Enabled(s, a) && IsNodeStep(a) && !IsReplication(a) && !a.RecvApp? && Shaped(s.nodes[a.v], ids)
    ensures Shaped(NodeStep(s, a).node, ids)
  {
    hide TermAt, Reset, HandleVoteResp, HandleStatePersisted;
    var n := s.nodes[a.v];
    ResetShape(n);
    if a.RecvVoteResp? {
      VoteShape(s.cfg, n, a.m, HardState(0, NONE), ids);
    } else if a.StateStatus? {
      VoteShape(s.cfg, n, VoteResp(0, 0, 0, true), a.hs, ids);
    }
  }

  lemma StepShape(s: Sys, a: Action, ids: set<NodeId>)
    requires Enabled(s, a) && IsNodeStep(a) && Shaped(s.nodes[a.v], ids)
    ensures Shaped(NodeStep(s, a).node, ids)
  {
    hide StepApp, Shaped, TermAt;
    if IsReplication(a) {
      ReplicationShape(s, a, ids);
    } else if a.RecvApp? {
      AppShape(s.nodes[a.v], a.m, ids);
    } else {
      ElectionShape(s, a, ids);
    }
  }

  lemma RestartShape(s: Sys, a: Action, ids: set<NodeId>)
    requires a.Crash? && Enabled(s, a) && KeepsPromises(s, a) && Shaped(s.nodes[a.v], ids)
    ensures Shaped(Restart(s, a.v, a.log, a.committed, a.offset).nodes[a.v], ids)
  {
  }

  lemma NextShape(s: Sys, a: Action, s': Sys)
    requires Next(s, a, s') && KeepsPromises(s, a) && AllShaped(s)
    ensures AllShaped(s')
  {
    hide NodeStep, ReadsCommit, Observe, Shaped, KeepsPromises;
    assert s'.nodes.Keys == s.nodes.Keys;
    forall v | v in s'.nodes ensures Shaped(s'.nodes[v], s'.nodes.Keys) {
      assert Shaped(s.nodes[v], s.nodes.Keys);
      if v == a.v && IsNodeStep(a) { StepShape(s, a, s.nodes.Keys); }
      if v == a.v && a.Crash? { RestartShape(s, a, s.nodes.Keys); }
    }
  }

  /** At a leader of such a state commitTo does not panic. */
  lemma NoPanicHere(s: Sys, a: Action)
    requires LInv(s) && Enabled(s, a) && ReadsCommit(s, a)
    ensures !CommitPanics(s, a)
  {
    hide EInv, HistL, NodesL, AllPrsL, NetL, AcksL, DisksL, IsJointCommitted, TermAt;
    if CommitPanics(s, a) {
      ConfigOf(s);
      if a.LogStatus? {
        RunFacts.StatusWithinLog(s, a.v, a.index, a.mci);
      } else {
        RunFacts.CommitWithinLog(s, a.v, a.m, a.mci);
      }
    }
  }

  lemma ConfigOf(s: Sys)
    requires LInv(s)
    ensures s.cfg.incoming != {} && s.cfg.IDs() <= s.nodes.Keys
  {
  }

  lemma StaysHealthy(s: Sys, a: Action, s': Sys)
    requires Healthy(s) && Next(s, a, s') && KeepsPromises(s, a)
    ensures Healthy(s')
  {
    hide LInv, Grow, AllShaped, AllCommitting, NodeStep, Observe, KeepsPromises;
    NextShape(s, a, s');
    NoPanicHere(s, a);
    ConfigOf(s);
    StepCommitting(s, a, s');
    LogSafety.StepKeepsL(s, a, s');
  }

  lemma {:induction false} ActsStayHealthy(s: Sys, acts: seq<Action>, s': Sys)
    requires Healthy(s) && Reaches(s, acts, s') && CrashFree(acts)
    ensures Healthy(s')
    decreases |acts|
  {
    hide Next, Healthy, KeepsPromises;
    if acts != [] {
      var mid :| Next(s, acts[0], mid) && Reaches(mid, acts[1..], s');
      RunFacts.NoPromise(s, acts[0]);
      StaysHealthy(s, acts[0], mid);
      assert forall i | 0 <= i < |acts[1..]| :: acts[1..][i] == acts[i+1];
      ActsStayHealthy(mid, acts[1..], s');
    }
  }

  lemma CanStayHealthy(s: Sys, who: set<NodeId>, s': Sys)
    requires Healthy(s) && Can(s, who, s')
    ensures Healthy(s')
  {
    hide Healthy, Reaches;
    var acts :| Reaches(s, acts, s') && Only(acts, who);
    ActsStayHealthy(s, acts, s');
  }

  lemma {:induction false} RunsAreHealthy(states: seq<Sys>, acts: seq<Action>, i: nat)
    requires IsRun(states, acts) && PromisesKept(states, acts) && i < |states|
    ensures Healthy(states[i])
  {
    hide Next, LInv, AllCommitting, KeepsPromises;
    if i == 0 {
      LogSafety.InitL(states[0]);
      InitCommitting(states[0]);
    } else {
      RunsAreHealthy(states, acts, i - 1);
      StaysHealthy(states[i-1], acts[i-1], states[i]);
    }
  }
}
