// How many appends of a new leader one follower can refuse before it is found:
// over whole runs, with both logs moving and messages lost, repeated and late.
module Probing {
  import opened Quorum
  import opened PlainLog
  import opened ProgressSpec
  import opened RaftNode
  import opened Protocol
  import opened Election
  import opened History
  import opened Replication
  import opened Backtracking
  import FollowerSteps
  import LogSafety
  import RunFacts
  import CrashSafety
  import Reelection

  // ---------------------------------------------------------------------------
  // A leader, a follower and the messages between them
  // ---------------------------------------------------------------------------

  /**
   * Leader log L probing at index p, the follower f, and what is in the network
   * of the leader's term t: appends to the follower, rejections back.
   */
  datatype Duel = Duel(L: Log, p: nat, f: Node, t: nat, apps: set<Msg>, rejects: set<Msg>)

  /** The follower has nothing more to refuse: its log has met the leader's, or it has left the term. */
  predicate Met(d: Duel) { d.f.term > d.t || (d.f.term == d.t && Agree(d.L, d.f.log, d.p)) }

  ghost predicate Pending(d: Duel) { exists m :: m in d.rejects && m.AppReject? && m.index == d.p }

  /** The rejection says what a follower with log F answers to the append after m.index. */
  predicate Exact(L: Log, F: Log, m: Msg)
    requires m.AppReject?
  {
    Refused(L, F, m.index) && m.hint == Hint(L, F, m.index) && m.logTerm == TermAt(F, m.hint)
  }

  ghost predicate RejectOk(d: Duel, m: Msg) {
    && m.AppReject? && m.index >= 1 && m.index >= d.p && d.f.term >= d.t
    && (m.index == d.p && !Met(d) ==> Exact(d.L, d.f.log, m))
  }

  ghost predicate DuelOk(d: Duel) {
    && d.p <= |d.L|
    && (forall m | m in d.apps :: m.App? && m.index >= d.p)
    && (forall m | m in d.rejects :: RejectOk(d, m))
  }

  /** How many more rejections the leader can act on. */
  ghost function Budget(d: Duel): nat
    requires d.p <= |d.L|
  {
    if Met(d) then (if Pending(d) then 1 else 0) else |TermsUpTo(d.L, d.p)|
  }

  lemma SomeTerm(L: Log, p: nat)
    requires 1 <= p <= |L|
    ensures |TermsUpTo(L, p)| >= 1
  {
    assert L[p-1].term in TermsUpTo(L, p);
  }

  lemma LeaderAppends(d: Duel, L': Log)
    requires DuelOk(d) && IsPrefix(d.L, L')
    ensures var d' := d.(L := L'); DuelOk(d') && Budget(d') == Budget(d)
  {
    var d' := d.(L := L');
    assert forall i | 0 <= i < |d.L| :: L'[i] == d.L[i];
    assert L'[..d.p] == d.L[..d.p];
    assert Met(d') == Met(d) && TermAt(L', d.p) == TermAt(d.L, d.p);
    assert TermsUpTo(L', d.p) == TermsUpTo(d.L, d.p);
    forall m | m in d'.rejects ensures RejectOk(d', m) { assert RejectOk(d, m); }
    assert Pending(d') == Pending(d);
  }

  lemma LeaderSends(d: Duel, more: set<Msg>)
    requires DuelOk(d) && forall m | m in more :: m.App? && m.index == d.p
    ensures var d' := d.(apps := d.apps + more); DuelOk(d') && Budget(d') == Budget(d)
  {
    var d' := d.(apps := d.apps + more);
    assert Met(d') == Met(d) && Pending(d') == Pending(d);
    forall r | r in d'.rejects ensures RejectOk(d', r) { assert RejectOk(d, r); }
  }

  /** The follower steps: it may change its term, take over entries of the leader, or refuse an append. */
  lemma FollowerMoves(d: Duel, f': Node, more: set<Msg>)
    requires DuelOk(d) && f'.term >= d.f.term
    requires d.f.term == f'.term == d.t ==> f'.log == d.f.log || Agree(d.L, f'.log, d.p)
    requires forall m | m in more ::
      && m.AppReject? && m.index >= 1 && m.index >= d.p
      && d.f.term == f'.term == d.t && f'.log == d.f.log && Exact(d.L, d.f.log, m)
    ensures var d' := d.(f := f', rejects := d.rejects + more); DuelOk(d') && Budget(d') <= Budget(d)
  {
    var d' := d.(f := f', rejects := d.rejects + more);
    forall m | m in d'.rejects ensures RejectOk(d', m) {
      if m in d.rejects { assert RejectOk(d, m); }
    }
    if Met(d') && Pending(d') {
      var m :| m in d'.rejects && m.AppReject? && m.index == d.p;
      assert m in d.rejects;
      assert RejectOk(d, m);
      SomeTerm(d.L, d.p);
    }
  }

  /** The same term at an index means the same log up to it. */
  ghost predicate TermsDecide(L: Log, F: Log) {
    forall k: nat | k <= |L| && TermAt(L, k) == TermAt(F, k) :: Agree(L, F, k)
  }

  /** A fresh rejection is handled: there is one fewer to come. */
  lemma LeaderBacksOff(d: Duel, m: Msg, pr: Pr)
    requires DuelOk(d) && m in d.rejects && m.AppReject? && m.index == d.p
    requires pr.state == Probe && pr.matched == 0 && pr.next == d.p + 1
    requires TermsDecide(d.L, d.f.log) && Probed(d.L, d.f.log, d.p)
    ensures var pr' := OnReject(pr, d.L, m.index, m.hint, m.logTerm);
      && pr'.state == Probe && pr'.matched == 0 && 1 <= pr'.next <= d.p
      && var d' := d.(p := pr'.next - 1); DuelOk(d') && Budget(d') < Budget(d)
  {
    assert RejectOk(d, m);
    var pr' := OnReject(pr, d.L, m.index, m.hint, m.logTerm);
    var d' := d.(p := pr'.next - 1);
    forall r | r in d'.rejects ensures RejectOk(d', r) { assert RejectOk(d, r); }
    assert !Pending(d');
    SomeTerm(d.L, d.p);
    if Met(d) {
      assert Pending(d);
      if d.f.term == d.t { AgreeDown(d.L, d.f.log, d.p, d'.p); }
    } else {
      assert d'.p == NextProbe(d.L, d.f.log, d.p);
      if !Met(d') {
        TermsDrop(d.L, d.f.log, d.p);
        FewerTerms(d.L, d'.p, d.p);
      }
    }
  }

  // ---------------------------------------------------------------------------
  // In the cluster
  // ---------------------------------------------------------------------------

  function Apps(net: set<Msg>, v: NodeId, u: NodeId, t: nat): set<Msg> {
    set m | m in net && m.App? && m.from == v && m.to == u && m.term == t
  }

  function Rejects(net: set<Msg>, v: NodeId, u: NodeId, t: nat): set<Msg> {
    set m | m in net && m.AppReject? && m.from == u && m.to == v && m.term == t
  }

  /** v leads t and has handled no acknowledgement of u's yet. */
  predicate Unheard(s: Sys, v: NodeId, u: NodeId, t: nat) {
    && v in s.nodes && s.nodes[v].role == Leader && s.nodes[v].term == t
    && u in s.nodes && u != v && u in s.nodes[v].prs && s.nodes[v].prs[u].matched == 0
  }

  predicate Probes(s: Sys, v: NodeId, u: NodeId, t: nat) {
    Unheard(s, v, u, t) && s.nodes[v].prs[u].state == Probe && s.nodes[v].prs[u].next >= 1
  }

  function View(s: Sys, v: NodeId, u: NodeId, t: nat): Duel
    requires Probes(s, v, u, t)
  {
    Duel(s.nodes[v].log, s.nodes[v].prs[u].next - 1, s.nodes[u], t, Apps(s.net, v, u, t), Rejects(s.net, v, u, t))
  }

  /** The step makes v act on a rejection from u. */
  predicate ActsOnReject(s: Sys, a: Action, v: NodeId, u: NodeId) {
    && a.RecvAppReject? && a.v == v && a.m.AppReject? && a.m.from == u
    && v in s.nodes && u in s.nodes[v].prs && Fresh(s.nodes[v].prs[u], a.m.index)
  }

  // ---------------------------------------------------------------------------
  // Single steps
  // ---------------------------------------------------------------------------

  lemma SenderIs(s: Sys, a: Action, m: Msg)
    requires Enabled(s, a) && IsNodeStep(a) && m in NodeStep(s, a).msgs
    ensures m.from == s.nodes[a.v].id
  {
    hide FindConflictByTerm, FindConflict, Accept, TermAt, JointVote, RecordVote;
  }

  /** A leader that stays one only changes its progress and log in replication steps. */
  lemma OtherwiseSame(s: Sys, a: Action)
    requires Enabled(s, a) && IsNodeStep(a) && !IsReplication(a) && s.nodes[a.v].role == Leader
    ensures var o := NodeStep(s, a);
      (o.node.role == Leader ==> o.node == s.nodes[a.v]) && forall m | m in o.msgs :: !m.App?
  {
    hide FindConflict, Accept, FindConflictByTerm, TermAt, JointVote;
  }

  /** Nothing that counts between the leader n and u has changed, except that the log may have grown. */
  ghost predicate Holds(n: Node, o: Out, u: NodeId)
    requires u in n.prs && n.prs[u].next >= 1
  {
    && IsPrefix(n.log, o.node.log) && u in o.node.prs
    && (o.node.prs[u].matched == 0 ==> o.node.prs[u].state == Probe && o.node.prs[u].next == n.prs[u].next)
    && forall m | m in o.msgs && m.App? && m.to == u :: m.index == n.prs[u].next - 1
  }

  lemma AckHolds(n: Node, m: Msg, mci: nat, u: NodeId)
    requires m.AppResp? && u in n.prs && n.prs[u].state == Probe && n.prs[u].matched == 0 && n.prs[u].next >= 1
    ensures Holds(n, StepAppResp(n, m, mci), u)
  {
  }

  lemma LeaderStep(s: Sys, a: Action, u: NodeId)
    requires Enabled(s, a) && IsReplication(a) && s.nodes[a.v].role == Leader && u != s.nodes[a.v].id
    requires u in s.nodes[a.v].prs && !ActsOnReject(s, a, a.v, u)
    requires var pr := s.nodes[a.v].prs[u]; pr.state == Probe && pr.matched == 0 && pr.next >= 1
    ensures Holds(s.nodes[a.v], NodeStep(s, a), u)
  {
    hide FindConflictByTerm, TermAt, StepAppResp;
    var n := s.nodes[a.v];
    if a.Propose? { assert (n.log + Stamp(a.ents, n.term))[..|n.log|] == n.log; }
    if a.RecvAppResp? { AckHolds(n, a.m, a.mci, u); }
  }

  /** A node that does not lead changes its log only by taking over an append. */
  lemma FollowerStep(s: Sys, a: Action)
    requires Enabled(s, a) && IsNodeStep(a) && NodeStep(s, a).node.role != Leader
    ensures var n, n' := s.nodes[a.v], NodeStep(s, a).node;
      n'.log == n.log || (&& a.RecvApp? && TermAt(n.log, a.m.index) == a.m.logTerm
                          && n'.log == Accept(n.log, a.m.index, a.m.ents))
  {
    hide StepApp, Accept, FindConflict, FindConflictByTerm, TermAt;
    if a.RecvApp? {
      StepAppLog(s.nodes[a.v], a.m);
    } else if IsReplication(a) {
      ReplicationKeepsLog(s, a);
    } else {
      ElectionKeepsLog(s, a);
    }
  }

  lemma ReplicationKeepsLog(s: Sys, a: Action)
    requires Enabled(s, a) && IsReplication(a) && NodeStep(s, a).node.role != Leader
    ensures NodeStep(s, a).node.log == s.nodes[a.v].log
  {
    hide FindConflictByTerm, TermAt, MaybeCommit, OnAck, OnReject, SelfAcked, Acked;
    CrashSafety.ReplicationSteady(s, a);
  }

  lemma ElectionKeepsLog(s: Sys, a: Action)
    requires Enabled(s, a) && IsNodeStep(a) && !IsReplication(a) && !a.RecvApp? && NodeStep(s, a).node.role != Leader
    ensures NodeStep(s, a).node.log == s.nodes[a.v].log
  {
    hide TermAt, JointVote, RecordVote;
  }

  lemma OnlyAppsRefused(s: Sys, a: Action, m: Msg)
    requires Enabled(s, a) && IsNodeStep(a) && m in NodeStep(s, a).msgs && m.AppReject?
    ensures a.RecvApp?
  {
    hide FindConflictByTerm, FindConflict, Accept, TermAt, JointVote, RecordVote;
  }

  lemma AppRefuses(n: Node, m: Msg, r: Msg)
    requires m.App? && m.term == n.term && r in StepApp(n, m).msgs && r.AppReject?
    ensures var n' := StepApp(n, m).node;
      && n'.log == n.log && n'.term == n.term && r.term == n.term && r.to == m.from && r.index == m.index
      && TermAt(n.log, r.index) != m.logTerm
      && r.hint == FindConflictByTerm(n.log, Min(r.index, |n.log|), m.logTerm)
      && r.logTerm == TermAt(n.log, r.hint)
  {
    hide Accept, FindConflict, FindConflictByTerm, TermAt;
  }

  // ---------------------------------------------------------------------------
  // Steps of the cluster
  // ---------------------------------------------------------------------------

  /** Two states that look the same to the two nodes. */
  lemma SameView(s: Sys, s': Sys, v: NodeId, u: NodeId, t: nat)
    requires Probes(s, v, u, t) && v in s'.nodes && u in s'.nodes
    requires s'.nodes[v] == s.nodes[v] && s'.nodes[u] == s.nodes[u]
    requires Apps(s'.net, v, u, t) == Apps(s.net, v, u, t) && Rejects(s'.net, v, u, t) == Rejects(s.net, v, u, t)
    ensures Probes(s', v, u, t) && View(s', v, u, t) == View(s, v, u, t)
  {
  }

  /** Only v adds appends of v, only u adds rejections of u. */
  lemma NetMoves(s: Sys, a: Action, v: NodeId, u: NodeId, t: nat)
    requires Enabled(s, a) && IsNodeStep(a) && s.nodes[a.v].id == a.v
    ensures var msgs := NodeStep(s, a).msgs;
      && Apps(s.net + msgs, v, u, t) == Apps(s.net, v, u, t) + Apps(msgs, v, u, t)
      && Rejects(s.net + msgs, v, u, t) == Rejects(s.net, v, u, t) + Rejects(msgs, v, u, t)
      && (a.v != v ==> Apps(msgs, v, u, t) == {}) && (a.v != u ==> Rejects(msgs, v, u, t) == {})
  {
    hide NodeStep;
    forall m | m in NodeStep(s, a).msgs ensures m.from == a.v { SenderIs(s, a, m); }
  }

  /** What the invariants say about the two nodes. */
  ghost predicate Ready(s: Sys, v: NodeId, u: NodeId, t: nat) {
    && Probes(s, v, u, t) && s.nodes[v].id == v && s.nodes[u].id == u
    && s.nodes[v].prs[u].next <= |s.nodes[v].log| + 1
    && TermsMonotone(s.nodes[v].log) && TermsMonotone(s.nodes[u].log)
    && PositiveTerms(s.nodes[v].log) && PositiveTerms(s.nodes[u].log)
    && TermsDecide(s.nodes[v].log, s.nodes[u].log)
  }

  lemma IsReady(s: Sys, v: NodeId, u: NodeId, t: nat)
    requires EInv(s) && TermsOk(s.h) && NodesL(s) && AllPrsL(s) && Probes(s, v, u, t)
    ensures Ready(s, v, u, t)
  {
    hide GoodLog, TermsSeen, SafeCommit, TermsOk, HistE, DisksE, NetE, ProbeOk, Settled, TermsMonotone, Agree;
    var n, f := s.nodes[v], s.nodes[u];
    assert NodeE(s.h, v, n) && NodeE(s.h, u, f) && NodeL(s.h, n) && NodeL(s.h, f) && PrsL(s.h, n, s.nodes);
    assert PrL(s.h, n, u, n.prs[u], f);
    RunFacts.LogShape(s.h, n);
    RunFacts.LogShape(s.h, f);
    forall k: nat | k <= |n.log| && TermAt(n.log, k) == TermAt(f.log, k) ensures Agree(n.log, f.log, k) {
      FollowerSteps.MatchAgrees(s.h, f, t, k);
      AgreeSwap(f.log, n.log, k);
    }
  }

  lemma AgreeSwap(a: Log, b: Log, k: nat)
    requires Agree(a, b, k)
    ensures Agree(b, a, k)
  {
  }

  /** The step keeps the duel in order and pays for a rejection acted on. */
  ghost predicate Pays(s: Sys, a: Action, s': Sys, v: NodeId, u: NodeId, t: nat)
    requires Ready(s, v, u, t)
  {
    && Probes(s', v, u, t) && DuelOk(View(s', v, u, t))
    && Budget(View(s', v, u, t)) + (if ActsOnReject(s, a, v, u) then 1 else 0) <= Budget(View(s, v, u, t))
  }

  lemma BackOff(s: Sys, a: Action, s': Sys, u: NodeId, t: nat)
    requires Next(s, a, s') && Ready(s, a.v, u, t) && DuelOk(View(s, a.v, u, t)) && ActsOnReject(s, a, a.v, u)
    ensures Pays(s, a, s', a.v, u, t)
  {
    hide ReadsCommit, Observe, DuelOk, Budget, OnReject, TermsDecide, TermsMonotone;
    var d, pr := View(s, a.v, u, t), s.nodes[a.v].prs[u];
    LeaderBacksOff(d, a.m, pr);
    NetMoves(s, a, a.v, u, t);
    assert NodeStep(s, a).msgs == {};
    var pr' := OnReject(pr, d.L, a.m.index, a.m.hint, a.m.logTerm);
    assert View(s', a.v, u, t) == d.(p := pr'.next - 1);
  }

  lemma LeaderSide(s: Sys, a: Action, s': Sys, u: NodeId, t: nat)
    requires Next(s, a, s') && IsNodeStep(a) && Ready(s, a.v, u, t) && DuelOk(View(s, a.v, u, t))
    requires !ActsOnReject(s, a, a.v, u) && Unheard(s', a.v, u, t)
    ensures Pays(s, a, s', a.v, u, t)
  {
    hide ReadsCommit, Observe, NodeStep, DuelOk, Budget, TermsDecide, TermsMonotone, IsPrefix;
    var d, n, o := View(s, a.v, u, t), s.nodes[a.v], NodeStep(s, a);
    var more := Apps(o.msgs, a.v, u, t);
    NetMoves(s, a, a.v, u, t);
    if IsReplication(a) {
      LeaderStep(s, a, u);
    } else {
      OtherwiseSame(s, a);
      assert more == {};
      PrefixRefl(n.log);
    }
    LeaderAppends(d, o.node.log);
    LeaderSends(d.(L := o.node.log), more);
    assert View(s', a.v, u, t) == d.(L := o.node.log, apps := d.apps + more);
  }

  lemma PrefixRefl(log: Log)
    ensures IsPrefix(log, log)
  {
  }

  /** An append u takes in, in v's term, is one of v's and not before its probe. */
  lemma FromLeader(s: Sys, v: NodeId, u: NodeId, t: nat, m: Msg)
    requires EInv(s) && NetL(s) && NodesL(s) && Ready(s, v, u, t) && DuelOk(View(s, v, u, t))
    requires m in s.net && m.App? && m.to == u && m.term == t
    ensures m.from == v && m.index >= s.nodes[v].prs[u].next - 1 && s.nodes[v].log == s.h.llog[t]
    ensures t in s.h.llog && Slice(s.h, t, m.index, m.ents) && m.logTerm == TermAt(s.nodes[v].log, m.index)
  {
    hide HistE, DisksE, TermsSeen, SafeCommit, ProbeOk, LogL, TermsDecide, TermsMonotone;
    assert MsgE(s.h, m) && MsgL(s.h, s.nodes, m) && NodeE(s.h, v, s.nodes[v]) && NodeL(s.h, s.nodes[v]);
    assert m in View(s, v, u, t).apps;
  }

  lemma TakesOver(s: Sys, v: NodeId, u: NodeId, t: nat, m: Msg)
    requires EInv(s) && TermsOk(s.h) && NetL(s) && NodesL(s) && Ready(s, v, u, t) && DuelOk(View(s, v, u, t))
    requires m in s.net && m.App? && m.to == u && m.term == t && TermAt(s.nodes[u].log, m.index) == m.logTerm
    ensures Agree(s.nodes[v].log, Accept(s.nodes[u].log, m.index, m.ents), s.nodes[v].prs[u].next - 1)
  {
    hide EInv, Accept, FindConflict, TermsSeen, SafeCommit, GoodLog, NetL, TermsOk, DuelOk, TermsMonotone, Agree;
    FromLeader(s, v, u, t, m);
    var L, f := s.nodes[v].log, s.nodes[u];
    assert NodeL(s.h, f) && NodeL(s.h, s.nodes[v]);
    FollowerSteps.MatchAgrees(s.h, f, t, m.index);
    FollowerSteps.AcceptAgrees(s.h, f.log, L, m.index, m.ents);
    AgreeDown(Accept(f.log, m.index, m.ents), L, m.index + |m.ents|, s.nodes[v].prs[u].next - 1);
    AgreeSwap(Accept(f.log, m.index, m.ents), L, s.nodes[v].prs[u].next - 1);
  }

  /** A rejection u sends in v's term is exact. */
  lemma RefusesExactly(s: Sys, a: Action, v: NodeId, t: nat, r: Msg)
    requires EInv(s) && NetL(s) && NodesL(s) && Enabled(s, a) && IsNodeStep(a)
    requires Ready(s, v, a.v, t) && DuelOk(View(s, v, a.v, t))
    requires r in NodeStep(s, a).msgs && r.AppReject? && r.term == t
    ensures var f, f' := s.nodes[a.v], NodeStep(s, a).node;
      && f.term == t && f'.term == t && f'.log == f.log && r.index >= 1
      && r.index >= s.nodes[v].prs[a.v].next - 1 && Exact(s.nodes[v].log, f.log, r)
  {
    hide EInv, NetL, NodesL, DuelOk, TermsDecide, TermsMonotone, StepApp, PositiveTerms, FindConflictByTerm;
    OnlyAppsRefused(s, a, r);
    AppRefuses(s.nodes[a.v], a.m, r);
    FromLeader(s, v, a.v, t, a.m);
  }

  lemma OneLeader(s: Sys, v: NodeId, u: NodeId, t: nat)
    requires NodesE(s) && v in s.nodes && s.nodes[v].role == Leader && s.nodes[v].term == t
    requires u in s.nodes && u != v && s.nodes[u].term == t
    ensures s.nodes[u].role != Leader
  {
    assert NodeE(s.h, u, s.nodes[u]) && NodeE(s.h, v, s.nodes[v]);
  }

  lemma FollowerSide(s: Sys, a: Action, s': Sys, v: NodeId, t: nat)
    requires EInv(s) && TermsOk(s.h) && NetL(s) && NodesL(s) && NodesE(s') && Next(s, a, s') && IsNodeStep(a)
    requires Ready(s, v, a.v, t) && DuelOk(View(s, v, a.v, t))
    ensures Pays(s, a, s', v, a.v, t)
  {
    hide EInv, NodesE, NetL, NodesL, TermsOk, ReadsCommit, Observe, NodeStep, DuelOk, Budget, TermsDecide,
      TermsMonotone, Exact, Accept, TermAt, Agree, PositiveTerms;
    var u := a.v;
    var d, f, o := View(s, v, u, t), s.nodes[u], NodeStep(s, a);
    var more := Rejects(o.msgs, v, u, t);
    NetMoves(s, a, v, u, t);
    CrashSafety.NodeStepMoves(s, a);
    forall m | m in more
      ensures && m.AppReject? && m.index >= 1 && m.index >= d.p
              && f.term == o.node.term == t && o.node.log == f.log && Exact(d.L, f.log, m)
    {
      RefusesExactly(s, a, v, t, m);
    }
    if f.term == o.node.term == t {
      OneLeader(s', v, u, t);
      FollowerStep(s, a);
      if o.node.log != f.log { TakesOver(s, v, u, t, a.m); }
    }
    FollowerMoves(d, o.node, more);
    assert View(s', v, u, t) == d.(f := o.node, rejects := d.rejects + more);
  }

  lemma StepPays(s: Sys, a: Action, s': Sys, v: NodeId, u: NodeId, t: nat)
    requires EInv(s) && TermsOk(s.h) && NetL(s) && NodesL(s) && AllPrsL(s) && NodesE(s')
    requires Next(s, a, s') && !a.Crash? && Probes(s, v, u, t) && DuelOk(View(s, v, u, t)) && Unheard(s', v, u, t)
    ensures Ready(s, v, u, t) && Pays(s, a, s', v, u, t)
  {
    hide HistE, DisksE, NetE, NetL, NodesL, AllPrsL, TermsOk, ReadsCommit, Observe, NodeStep, DuelOk, Budget,
      TermsDecide, TermsMonotone, PositiveTerms;
    IsReady(s, v, u, t);
    if ActsOnReject(s, a, v, u) {
      BackOff(s, a, s', u, t);
    } else if IsNodeStep(a) && a.v == v {
      LeaderSide(s, a, s', u, t);
    } else if IsNodeStep(a) && a.v == u {
      FollowerSide(s, a, s', v, t);
    } else {
      if IsNodeStep(a) {
        assert NodeE(s.h, a.v, s.nodes[a.v]);
        NetMoves(s, a, v, u, t);
      }
      SameView(s, s', v, u, t);
    }
  }

  // ---------------------------------------------------------------------------
  // The start: winning the election
  // ---------------------------------------------------------------------------

  /** Leadership begins in no other way than by a won election. */
  lemma WinShape(s: Sys, a: Action) returns (votes: map<NodeId, bool>)
    requires Enabled(s, a) && IsNodeStep(a) && s.nodes[a.v].role != Leader && NodeStep(s, a).node.role == Leader
    ensures s.nodes[a.v].role == Candidate
    ensures NodeStep(s, a) == Quiet(BecomeLeader(s.nodes[a.v].(votes := votes)))
  {
    hide JointVote, RecordVote, BecomeLeader, StepApp;
    var n := s.nodes[a.v];
    if IsReplication(a) { CrashSafety.ReplicationSteady(s, a); }
    if a.RecvApp? { Reelection.AppSettles(n, a.m); }
    votes := if a.RecvVoteResp? then RecordVote(n.votes, a.m.from, !a.m.reject) else RecordVote(n.votes, n.id, true);
  }

  /** A new leader knows nothing of the others and all of its own log. */
  lemma WinProgress(n: Node, u: NodeId)
    requires u in BecomeLeader(n).prs
    ensures var n' := BecomeLeader(n);
      && IsPrefix(n.log, n'.log)
      && (u != n.id ==> n'.prs[u] == Pr(0, |n.log| + 1, Probe, 0, false))
      && (u == n.id ==> n'.prs[u] == Pr(|n.log|, |n.log| + 1, Replicate, 0, false))
  {
    CrashSafety.WinLog(n);
  }

  /** Nothing of a term is in the network before the term has a leader. */
  lemma NothingYet(s: Sys, v: NodeId, u: NodeId, t: nat)
    requires EInv(s) && TermsOk(s.h) && NetL(s) && !IsLeaderOf(s.h, t, v) && t !in s.h.llog
    ensures Apps(s.net, v, u, t) == {} && Rejects(s.net, v, u, t) == {}
  {
    hide HistE, NodesE, DisksE, TermOk, ProbeOk, SafeCommit;
    forall m | m in s.net ensures m !in Apps(s.net, v, u, t) && m !in Rejects(s.net, v, u, t) {
      assert MsgE(s.h, m) && MsgL(s.h, s.nodes, m);
    }
  }

  /** The budget of a newly elected leader: the distinct terms of the log it was elected with. */
  lemma WinStarts(s: Sys, a: Action, s': Sys, v: NodeId, u: NodeId, t: nat)
    requires EInv(s) && TermsOk(s.h) && NetL(s) && NodesL(s) && NodesE(s') && GrowE(s.h, s'.h)
    requires Next(s, a, s') && !a.Crash? && Unheard(s', v, u, t) && !CrashSafety.Leads(s, v, t)
    ensures v in s.nodes && Probes(s', v, u, t) && DuelOk(View(s', v, u, t))
    ensures Budget(View(s', v, u, t)) <= |TermsUpTo(s.nodes[v].log, |s.nodes[v].log|)|
  {
    hide HistE, DisksE, NetE, NetL, TermsOk, ReadsCommit, Observe, NodeStep, LogL, TermsSeen, SafeCommit, BecomeLeader;
    assert a.v == v && IsNodeStep(a);
    var n := s.nodes[v];
    CrashSafety.NodeStepMoves(s, a);
    var votes := WinShape(s, a);
    WinProgress(n.(votes := votes), u);
    assert NodeL(s.h, n) && NodeE(s.h, v, n) && NodeE(s'.h, v, s'.nodes[v]);
    LedKeys(s.h, t);
    NothingYet(s, v, u, t);
    assert s'.net == s.net + {} == s.net;
    StartBudget(View(s', v, u, t), n.log);
  }

  lemma LedKeys(h: Hist, t: nat)
    requires TermsOk(h)
    ensures t in h.llog <==> t in h.ldr
  {
  }

  lemma StartBudget(d: Duel, base: Log)
    requires d.apps == {} && d.rejects == {} && d.p == |base| && IsPrefix(base, d.L)
    ensures DuelOk(d) && Budget(d) <= |TermsUpTo(base, |base|)|
  {
    assert forall i | 0 <= i < |base| :: base[i] == d.L[i];
    assert TermsUpTo(d.L, d.p) == TermsUpTo(base, |base|);
  }

  // ---------------------------------------------------------------------------
  // Runs
  // ---------------------------------------------------------------------------

  /** How many rejections from u the leader v acts on in steps i up to, not including, j. */
  function Rejections(states: seq<Sys>, acts: seq<Action>, v: NodeId, u: NodeId, i: nat, j: nat): nat
    requires i <= j <= |acts| && |acts| < |states|
  {
    if i == j then 0
    else Rejections(states, acts, v, u, i, j - 1) + (if ActsOnReject(states[j-1], acts[j-1], v, u) then 1 else 0)
  }

  lemma {:induction false} RunPays(states: seq<Sys>, acts: seq<Action>, v: NodeId, u: NodeId, t: nat, i: nat, j: nat)
    requires IsRun(states, acts) && CrashFree(acts) && i <= j <= |acts|
    requires forall k | i <= k <= j :: Unheard(states[k], v, u, t)
    requires Probes(states[i], v, u, t) && DuelOk(View(states[i], v, u, t))
    ensures Probes(states[j], v, u, t) && DuelOk(View(states[j], v, u, t))
    ensures Budget(View(states[j], v, u, t)) + Rejections(states, acts, v, u, i, j) <= Budget(View(states[i], v, u, t))
    decreases j
  {
    hide Next, Init, EInv, NetL, NodesL, AllPrsL, TermsOk, DuelOk, Budget, Unheard, Probes, View;
    if i < j {
      RunPays(states, acts, v, u, t, i, j - 1);
      LogSafety.RunKeepsL(states, acts, j - 1, j);
      InvParts(states[j-1]);
      InvParts(states[j]);
      StepPays(states[j-1], acts[j-1], states[j], v, u, t);
    }
  }

  lemma InvParts(s: Sys)
    requires LInv(s)
    ensures EInv(s) && NodesE(s) && TermsOk(s.h) && NetL(s) && NodesL(s) && AllPrsL(s)
  {
  }

  /**
   * From its election at step i until it handles the first acknowledgement of
   * u's, a leader acts on at most as many rejections from u as there are
   * distinct terms in the log it was elected with.
   */
  lemma RejectionsInRuns(states: seq<Sys>, acts: seq<Action>, v: NodeId, u: NodeId, t: nat, i: nat, j: nat)
    requires IsRun(states, acts) && CrashFree(acts) && i < j <= |acts|
    requires !CrashSafety.Leads(states[i], v, t) && forall k | i < k <= j :: Unheard(states[k], v, u, t)
    ensures v in states[i].nodes
    ensures Rejections(states, acts, v, u, i + 1, j)
            <= |TermsUpTo(states[i].nodes[v].log, |states[i].nodes[v].log|)|
  {
    hide Next, Init, EInv, NetL, NodesL, AllPrsL, TermsOk, DuelOk, Budget, Unheard, Probes, View, Grow;
    LogSafety.RunKeepsL(states, acts, i, i + 1);
    InvParts(states[i]);
    InvParts(states[i+1]);
    GrowHas(states[i].h, states[i+1].h);
    WinStarts(states[i], acts[i], states[i+1], v, u, t);
    RunPays(states, acts, v, u, t, i + 1, j);
  }

  lemma GrowHas(h: Hist, h': Hist)
    requires Grow(h, h')
    ensures GrowE(h, h')
  {
  }
}
