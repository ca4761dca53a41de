// What is acknowledged by a quorum is committed: in every leader state the commit
// index has caught up with the quorum, as far as the leader's own term allows.
module CommitRule {
  import opened Quorum
  import opened PlainLog
  import opened RaftNode
  import opened Protocol
  import RunFacts
  import Probing

  /** The quorum's index, if it is of the leader's own term, is committed. */
  ghost predicate Committing(cfg: JointConfig, n: Node) {
    n.role == Leader ==>
      forall c: nat | c >= n.termStart && IsJointCommitted(cfg, Matches(n.prs), At(c)) :: c <= n.committed
  }

  ghost predicate AllCommitting(s: Sys) { forall v | v in s.nodes :: Committing(s.cfg, s.nodes[v]) }

  /** maybeCommit, in this step, asks commitTo for more than the log holds. */
  ghost predicate CommitPanics(s: Sys, a: Action) {
    && a.v in s.nodes && s.nodes[a.v].role == Leader
    && var n := s.nodes[a.v];
    match a
    case LogStatus(_, i, t, mci) => StableToOk(n, i, t) && mci >= n.termStart && mci > |n.log|
    case RecvAppResp(_, m, mci) =>
      && m.AppResp? && m.from in n.prs && n.prs[m.from].matched < m.index
      && mci >= n.termStart && mci > |n.log|
    case _ => false
  }

  /** The largest index of a quorum is one index. */
  lemma QuorumIndexUnique(cfg: JointConfig, acked: map<NodeId, nat>, i: nat, j: nat)
    requires IsJointCommitted(cfg, acked, At(i)) && IsJointCommitted(cfg, acked, At(j))
    ensures i == j
  {
  }

  /** With the quorum's index at hand, maybeCommit leaves nothing to commit. */
  lemma CommitsWhatItReads(cfg: JointConfig, n: Node, mci: nat)
    requires IsJointCommitted(cfg, Matches(n.prs), At(mci)) && (mci >= n.termStart ==> mci <= |n.log|)
    ensures Committing(cfg, MaybeCommit(n, mci))
  {
    hide IsJointCommitted;
    forall c: nat | c >= n.termStart && IsJointCommitted(cfg, Matches(n.prs), At(c))
      ensures c <= MaybeCommit(n, mci).committed
    {
      QuorumIndexUnique(cfg, Matches(n.prs), c, mci);
    }
  }

  /** Steps after which the quorum's index is what it was. */
  lemma SameMatches(cfg: JointConfig, n: Node, n': Node)
    requires Committing(cfg, n) && n.role == Leader && n'.role == Leader
    requires n'.prs.Keys == n.prs.Keys && forall j | j in n.prs :: n'.prs[j].matched == n.prs[j].matched
    requires n'.committed >= n.committed && n'.termStart == n.termStart
    ensures Committing(cfg, n')
  {
    hide IsJointCommitted;
    assert Matches(n'.prs) == Matches(n.prs);
  }

  /** A new leader's quorum index, whatever the votes, is not of its own term. */
  lemma WinCommitting(cfg: JointConfig, n: Node)
    requires cfg.incoming != {}
    ensures Committing(cfg, BecomeLeader(n))
  {
    hide IsJointCommitted;
    var n' := BecomeLeader(n);
    forall c: nat | IsJointCommitted(cfg, Matches(n'.prs), At(c)) ensures c < n'.termStart {
      var u := RunFacts.SomeAcker(cfg, Matches(n'.prs), c);
    }
  }

  lemma AckCommitting(cfg: JointConfig, n: Node, m: Msg, mci: nat)
    requires Committing(cfg, n) && n.role == Leader && m.AppResp?
    requires m.from in n.prs && n.prs[m.from].matched < m.index ==>
      IsJointCommitted(cfg, Matches(Acked(n, m.from, m.index).prs), At(mci)) && (mci >= n.termStart ==> mci <= |n.log|)
    ensures Committing(cfg, StepAppResp(n, m, mci).node)
  {
    hide IsJointCommitted, Committing;
    if m.from in n.prs {
      if n.prs[m.from].matched < m.index {
        CommitsWhatItReads(cfg, Acked(n, m.from, m.index), mci);
      } else {
        SameMatches(cfg, n, Acked(n, m.from, m.index));
      }
    }
  }

  lemma StatusCommitting(cfg: JointConfig, n: Node, i: nat, t: nat, mci: nat)
    requires Committing(cfg, n) && n.role == Leader
    requires StableToOk(n, i, t) ==>
      IsJointCommitted(cfg, Matches(SelfAcked(n, i).prs), At(mci)) && (mci >= n.termStart ==> mci <= |n.log|)
    ensures Committing(cfg, HandleLogStatus(n, i, t, mci).node)
  {
    hide IsJointCommitted, Committing;
    if StableToOk(n, i, t) { CommitsWhatItReads(cfg, SelfAcked(n, i), mci); }
  }

  lemma ReplicationCommitting(s: Sys, a: Action)
    requires Enabled(s, a) && ReadsCommit(s, a) && IsReplication(a) && !CommitPanics(s, a)
    requires Committing(s.cfg, s.nodes[a.v]) && s.nodes[a.v].role == Leader
    ensures Committing(s.cfg, NodeStep(s, a).node)
  {
    hide IsJointCommitted, Committing, FindConflictByTerm, TermAt, HandleLogStatus, StepAppResp;
    var n := s.nodes[a.v];
    if a.LogStatus? {
      StatusCommitting(s.cfg, n, a.index, a.term, a.mci);
    } else if a.RecvAppResp? {
      AckCommitting(s.cfg, n, a.m, a.mci);
    } else {
      SameMatches(s.cfg, n, NodeStep(s, a).node);
    }
  }

  lemma NodeStepCommitting(s: Sys, a: Action)
    requires Enabled(s, a) && ReadsCommit(s, a) && IsNodeStep(a) && !CommitPanics(s, a) && s.cfg.incoming != {}
    requires Committing(s.cfg, s.nodes[a.v])
    ensures Committing(s.cfg, NodeStep(s, a).node)
  {
    hide IsJointCommitted, NodeStep, BecomeLeader;
    var n, n' := s.nodes[a.v], NodeStep(s, a).node;
    if n'.role == Leader {
      if n.role != Leader {
        var votes := Probing.WinShape(s, a);
        WinCommitting(s.cfg, n.(votes := votes));
      } else if IsReplication(a) {
        ReplicationCommitting(s, a);
      } else {
        Probing.OtherwiseSame(s, a);
      }
    }
  }

  lemma StepCommitting(s: Sys, a: Action, s': Sys)
    requires Next(s, a, s') && AllCommitting(s) && !CommitPanics(s, a) && s.cfg.incoming != {}
    ensures AllCommitting(s') && s'.cfg == s.cfg
  {
    hide NodeStep, Committing, ReadsCommit, Observe, CommitPanics;
    forall v | v in s'.nodes ensures Committing(s'.cfg, s'.nodes[v]) {
      if v == a.v && a.Crash? {
        FollowerCommitting(s, a, s');
      } else {
        assert Committing(s.cfg, s.nodes[v]);
        if v == a.v && IsNodeStep(a) { NodeStepCommitting(s, a); }
      }
    }
  }

  lemma FollowerCommitting(s: Sys, a: Action, s': Sys)
    requires a.Crash? && Next(s, a, s')
    ensures Committing(s'.cfg, s'.nodes[a.v])
  {
  }

  lemma InitCommitting(s: Sys)
    requires Init(s)
    ensures AllCommitting(s) && s.cfg.incoming != {}
  {
  }

  /** No step of the run makes commitTo panic at a leader. */
  ghost predicate CommitsQuietly(states: seq<Sys>, acts: seq<Action>) {
    |acts| < |states| && forall i | 0 <= i < |acts| :: !CommitPanics(states[i], acts[i])
  }

  lemma {:induction false} RunCommitting(states: seq<Sys>, acts: seq<Action>, i: nat)
    requires IsRun(states, acts) && CommitsQuietly(states, acts) && i < |states|
    ensures AllCommitting(states[i]) && states[i].cfg.incoming != {}
  {
    hide Next, Init, AllCommitting, CommitPanics;
    if i == 0 {
      InitCommitting(states[0]);
    } else {
      RunCommitting(states, acts, i - 1);
      StepCommitting(states[i-1], acts[i-1], states[i]);
    }
  }

  /**
   * In every leader state of every run in which commitTo does not panic, whatever
   * its crashes, an index of the leader's own term that a quorum has acknowledged is committed.
   */
  lemma QuorumIsCommitted(states: seq<Sys>, acts: seq<Action>, i: nat, v: NodeId, c: nat)
    requires IsRun(states, acts) && CommitsQuietly(states, acts) && i < |states| && v in states[i].nodes
    requires states[i].nodes[v].role == Leader && c >= states[i].nodes[v].termStart
    requires IsQuorum(states[i].cfg, Ackers(states[i].cfg.IDs(), Matches(states[i].nodes[v].prs), c))
    ensures c <= states[i].nodes[v].committed
  {
    hide Next, Init, IsJointCommitted, IsQuorum, CommitsQuietly;
    RunCommitting(states, acts, i);
    var n := states[i].nodes[v];
    var b := QuorumIndex(states[i].cfg, Matches(n.prs), c);
    assert Committing(states[i].cfg, n);
  }

  /** The quorum's index exists, at or above any index a quorum has acknowledged. */
  lemma QuorumIndex(cfg: JointConfig, acked: map<NodeId, nat>, c: nat) returns (b: nat)
    requires cfg.incoming != {} && IsQuorum(cfg, Ackers(cfg.IDs(), acked, c))
    ensures IsJointCommitted(cfg, acked, At(b)) && b >= c
  {
    var hi := AckBound(acked, acked.Keys);
    b := LargestQuorum(cfg, acked, c, hi);
  }

  lemma AckBound(acked: map<NodeId, nat>, ids: set<NodeId>) returns (hi: nat)
    requires ids <= acked.Keys
    ensures forall j | j in ids :: acked[j] <= hi
    decreases ids
  {
    if ids == {} {
      hi := 0;
    } else {
      var j :| j in ids;
      hi := AckBound(acked, ids - {j});
      hi := Max(hi, acked[j]);
    }
  }

  lemma LargestQuorum(cfg: JointConfig, acked: map<NodeId, nat>, c: nat, hi: nat) returns (b: nat)
    requires cfg.incoming != {} && IsQuorum(cfg, Ackers(cfg.IDs(), acked, c))
    requires forall j | j in acked :: acked[j] <= hi
    ensures IsJointCommitted(cfg, acked, At(b)) && b >= c
  {
    hide IsQuorum;
    var k := Max(c, hi) + 1;
    forall j: nat | j >= k ensures !IsQuorum(cfg, Ackers(cfg.IDs(), acked, j)) { NoQuorum(cfg, acked, j); }
    while !IsQuorum(cfg, Ackers(cfg.IDs(), acked, k - 1))
      invariant k > c && forall j: nat | j >= k :: !IsQuorum(cfg, Ackers(cfg.IDs(), acked, j))
      decreases k
    {
      k := k - 1;
    }
    b := k - 1;
    assert cfg.incoming <= cfg.IDs();
  }

  lemma NoQuorum(cfg: JointConfig, acked: map<NodeId, nat>, j: nat)
    requires cfg.incoming != {} && j >= 1 && forall u | u in acked :: acked[u] < j
    ensures !IsQuorum(cfg, Ackers(cfg.IDs(), acked, j))
  {
    assert cfg.incoming * Ackers(cfg.IDs(), acked, j) == {};
  }

  /** Where crashes keep their promises, commitTo does not panic. */
  lemma PromisesCommitQuietly(states: seq<Sys>, acts: seq<Action>)
    requires IsRun(states, acts) && PromisesKept(states, acts)
    ensures CommitsQuietly(states, acts)
  {
    hide Next, Init, PromisesKept, CommitPanics;
    forall i | 0 <= i < |acts| ensures !CommitPanics(states[i], acts[i]) { NoCommitPanic(states, acts, i); }
  }

  lemma NoCommitPanic(states: seq<Sys>, acts: seq<Action>, i: nat)
    requires IsRun(states, acts) && PromisesKept(states, acts) && i < |acts|
    ensures !CommitPanics(states[i], acts[i])
  {
    hide Init, IsJointCommitted, PromisesKept;
    var s, a := states[i], acts[i];
    assert Next(s, a, states[i+1]);
    if CommitPanics(s, a) {
      if a.LogStatus? {
        RunFacts.LeaderStatusNeverPanics(states, acts, i, a.v, a.index, a.term, a.mci);
      } else {
        RunFacts.LeaderCommitsNeverPanic(states, acts, i, a.v, a.m, a.mci);
      }
    }
  }
}
