// What holds of elections and logs when nodes crash: a node whose disk has
// reached a term never leads it again, and Log Matching survives every crash of
// a node that has led no term beyond its disk.
module CrashSafety {
  import opened Quorum
  import opened PlainLog
  import opened RaftNode
  import opened Protocol
  import opened Election
  import opened History
  import opened Replication
  import FollowerSteps
  import LogSafety
  import TermSteps

  // ---------------------------------------------------------------------------
  // Roles within a term
  // ---------------------------------------------------------------------------

  predicate Contends(n: Node) { n.role == Candidate || n.role == Leader }

  /** Terms go up, candidates enter a new term, and leaders are candidates first. */
  ghost predicate RoleMoves(n: Node, n': Node) {
    && n'.term >= n.term
    && (n'.term == n.term && Contends(n') ==> Contends(n))
    && (n'.term == n.term && n'.role == Candidate ==> n.role == Candidate)
    && (n'.role == Leader ==> n'.term == n.term)
  }

  lemma ReplicationSteady(s: Sys, a: Action)
    requires Enabled(s, a) && IsReplication(a)
    ensures Steady(s.nodes[a.v], NodeStep(s, a))
  {
    hide FindConflictByTerm, TermAt;
    var n := s.nodes[a.v];
    match a {
      case LogStatus(_, i, t, mci) => LogStatusSteady(n, i, t, mci);
      case RecvAppResp(_, m, mci) => AppRespSteady(n, m, mci);
      case _ =>
    }
  }

  lemma AppMoves(n: Node, m: Msg)
    requires m.App? && m.term == n.term
    ensures RoleMoves(n, StepApp(n, m).node)
  {
    hide FindConflict, Accept, FindConflictByTerm, TermAt;
  }

  lemma ElectionMoves(s: Sys, a: Action)
    requires Enabled(s, a) && IsNodeStep(a) && !IsReplication(a)
    ensures RoleMoves(s.nodes[a.v], NodeStep(s, a).node)
  {
    hide StepApp, TermAt, JointVote, RecordVote;
    if a.RecvApp? { AppMoves(s.nodes[a.v], a.m); }
  }

  lemma NodeStepMoves(s: Sys, a: Action)
    requires Enabled(s, a) && IsNodeStep(a)
    ensures RoleMoves(s.nodes[a.v], NodeStep(s, a).node)
  {
    hide Enabled, NodeStep;
    if IsReplication(a) { ReplicationSteady(s, a); } else { ElectionMoves(s, a); }
  }

  /** v's disk has reached t, and v does not contend for t. */
  predicate Past(s: Sys, v: NodeId, t: nat) {
    && v in s.nodes && v in s.disks && s.disks[v].durable.term >= t
    && s.nodes[v].term >= t && (s.nodes[v].term == t ==> !Contends(s.nodes[v]))
  }

  lemma PersistAdvances(s: Sys, v: NodeId)
    requires DisksE(s) && v in s.nodes && v in s.disks && s.disks[v].queue != []
    ensures s.disks[v].queue[0].term >= s.disks[v].durable.term
  {
    assert DiskE(s.h, v, s.nodes[v], s.disks[v]);
    assert Follows(Chain(s.disks[v])[0], s.disks[v].queue[0]);
  }

  lemma PastStays(s: Sys, a: Action, s': Sys, v: NodeId, t: nat)
    requires DisksE(s) && Past(s, v, t) && Next(s, a, s')
    ensures Past(s', v, t)
  {
    hide NodeStep, Observe, DisksE, ReadsCommit;
    if a.PersistState? {
      PersistAdvances(s, a.v);
    } else if !a.Crash? && a.v == v {
      NodeStepMoves(s, a);
    }
  }

  lemma {:induction false} PastInRuns(states: seq<Sys>, acts: seq<Action>, i: nat, j: nat, v: NodeId, t: nat)
    requires IsRun(states, acts) && i <= j < |states| && Past(states[i], v, t)
    ensures Past(states[j], v, t)
    decreases j
  {
    hide Next, Init;
    if i < j {
      PastInRuns(states, acts, i, j - 1, v, t);
      RunKeepsE(states, acts, j - 1, j - 1);
      PastStays(states[j-1], acts[j-1], states[j], v, t);
    }
  }

  /** A node that crashes after its disk has reached a term never leads that term again. */
  lemma NeverLeadsAgain(states: seq<Sys>, acts: seq<Action>, i: nat, j: nat, t: nat)
    requires IsRun(states, acts) && i < |acts| && i < j < |states| && acts[i].Crash?
    requires acts[i].v in states[i].disks && states[i].disks[acts[i].v].durable.term >= t
    ensures acts[i].v in states[j].nodes
    ensures states[j].nodes[acts[i].v].term == t ==> states[j].nodes[acts[i].v].role != Leader
  {
    assert Next(states[i], acts[i], states[i+1]);
    PastInRuns(states, acts, i + 1, j, acts[i].v, t);
  }

  // ---------------------------------------------------------------------------
  // Log Matching when nodes crash
  // ---------------------------------------------------------------------------

  ghost predicate Written(h: Hist) {
    h.llog.Keys == h.ldr.Keys && 0 !in h.llog && forall t | t in h.llog :: GoodLog(h, h.llog[t])
  }

  ghost predicate NodeM(h: Hist, n: Node) {
    && GoodLog(h, n.log)
    && (n.role == Leader ==> n.term in h.llog && n.log == h.llog[n.term])
    && (n.role == Candidate ==> n.term >= 1)
    && (forall t: nat | IsLeaderOf(h, t, n.id) :: t <= n.term && (t == n.term ==> n.role != Candidate))
  }

  /** A stretch of its leader's log, or an empty probe beyond it. */
  ghost predicate AppM(h: Hist, m: Msg)
    requires m.App?
  {
    && m.term in h.llog
    && (|| (Slice(h, m.term, m.index, m.ents) && m.logTerm == TermAt(h.llog[m.term], m.index))
        || (m.index > 0 && m.logTerm == 0 && m.ents == []))
  }

  ghost predicate NodesM(s: Sys) { forall v | v in s.nodes :: NodeM(s.h, s.nodes[v]) }

  ghost predicate NetM(h: Hist, net: set<Msg>) { forall m | m in net && m.App? :: AppM(h, m) }

  ghost predicate MInv(s: Sys) { Written(s.h) && NodesM(s) && NetM(s.h, s.net) }

  lemma AppMGrows(h: Hist, h': Hist, m: Msg)
    requires GrowTerms(h, h') && m.App? && AppM(h, m)
    ensures AppM(h', m)
  {
    var a, b := h.llog[m.term], h'.llog[m.term];
    assert b[..|a|] == a;
    assert forall k | 0 <= k < |a| :: a[k] == b[..|a|][k];
  }

  lemma AcceptLength(log: Log, p: nat, ents: seq<Entry>)
    requires FindConflict(log, p, ents) <= |log| + 1
    ensures if FindConflict(log, p, ents) == 0 then Accept(log, p, ents) == log
            else |Accept(log, p, ents)| == p + |ents|
  {
  }

  /** An accepted append leaves a log made of leaders' logs. */
  lemma AcceptGood(h: Hist, log: Log, m: Msg)
    requires Written(h) && GoodLog(h, log) && m.App? && AppM(h, m) && TermAt(log, m.index) == m.logTerm
    ensures GoodLog(h, Accept(log, m.index, m.ents))
  {
    hide FindConflict, GoodLog;
    if m.ents == [] { return; }
    var L, p := h.llog[m.term], m.index;
    PositiveTerms(h, L);
    if p > 0 { LogMatching(h, log, L, p); }
    FollowerSteps.AcceptAgrees(h, log, L, p, m.ents);
    AcceptLength(log, p, m.ents);
    if FindConflict(log, p, m.ents) != 0 {
      FollowerSteps.FullAgree(Accept(log, p, m.ents), L, p + |m.ents|);
      PrefixGood(h, L, p + |m.ents|);
    }
  }

  lemma PositiveTerms(h: Hist, log: Log)
    requires Written(h) && GoodLog(h, log)
    ensures forall i | 0 <= i < |log| :: log[i].term >= 1
  {
    forall i | 0 <= i < |log| ensures log[i].term >= 1 { assert GoodAt(h, log, i + 1); }
  }

  // ---------------------------------------------------------------------------
  // Steps
  // ---------------------------------------------------------------------------

  /** How the log of a node may change, and what that means for its role. */
  ghost predicate LogMoves(n: Node, n': Node, h: Hist) {
    || (n'.log == n.log && (n'.role == Leader ==> n.role == Leader))
    || (n'.role == n.role == Leader && Extends(n.log, n'.log, n.term))
    || (n.role == Candidate && n'.role == Leader && n'.log == n.log + [EMPTY_ENTRY.(term := n.term)])
    || (n'.role != Leader && GoodLog(h, n'.log))
  }

  lemma WinLog(n: Node)
    ensures BecomeLeader(n).log == n.log + [EMPTY_ENTRY.(term := n.term)]
  {
    assert Stamp([EMPTY_ENTRY], n.term) == [EMPTY_ENTRY.(term := n.term)];
  }

  lemma RecvAppLog(h: Hist, n: Node, m: Msg)
    requires Written(h) && GoodLog(h, n.log) && m.App? && m.term == n.term && AppM(h, m)
    ensures LogMoves(n, StepApp(n, m).node, h)
  {
    hide Accept, TermAt, FindConflict, AppM, Written;
    StepAppLog(n, m);
    AppMoves(n, m);
    if TermAt(n.log, m.index) == m.logTerm { AcceptGood(h, n.log, m); }
  }

  lemma ReplicationLog(s: Sys, a: Action)
    requires Enabled(s, a) && IsReplication(a)
    ensures LogMoves(s.nodes[a.v], NodeStep(s, a).node, s.h)
  {
    hide FindConflictByTerm, TermAt, GoodLog;
    ReplicationSteady(s, a);
    var n := s.nodes[a.v];
    if a.Propose? { assert (n.log + Stamp(a.ents, n.term))[..|n.log|] == n.log; }
  }

  lemma VoteLog(cfg: JointConfig, h: Hist, n: Node, m: Msg, hs: HardState)
    ensures m.VoteResp? ==> LogMoves(n, HandleVoteResp(cfg, n, m).node, h)
    ensures LogMoves(n, HandleStatePersisted(cfg, n, hs).node, h)
  {
    hide JointVote, RecordVote, GoodLog;
    if m.VoteResp? { WinLog(n.(votes := RecordVote(n.votes, m.from, !m.reject))); }
    WinLog(n.(votes := RecordVote(n.votes, n.id, true)));
  }

  lemma StepLog(s: Sys, a: Action)
    requires Enabled(s, a) && IsNodeStep(a) && MInv(s)
    ensures LogMoves(s.nodes[a.v], NodeStep(s, a).node, s.h)
  {
    hide StepApp, HandleVoteResp, HandleStatePersisted, LogMoves, GoodLog;
    var n := s.nodes[a.v];
    assert NodeM(s.h, n);
    if IsReplication(a) {
      ReplicationLog(s, a);
    } else if a.RecvApp? {
      assert AppM(s.h, a.m);
      RecvAppLog(s.h, n, a.m);
    } else if a.RecvVoteResp? {
      VoteLog(s.cfg, s.h, n, a.m, HardState(0, NONE));
    } else if a.StateStatus? {
      VoteLog(s.cfg, s.h, n, VoteResp(0, 0, 0, true), a.hs);
    } else {
      QuietLog(s, a);
    }
  }

  lemma QuietLog(s: Sys, a: Action)
    requires Enabled(s, a) && IsNodeStep(a) && !IsReplication(a)
    requires !a.RecvApp? && !a.RecvVoteResp? && !a.StateStatus?
    ensures LogMoves(s.nodes[a.v], NodeStep(s, a).node, s.h)
  {
    hide GoodLog, TermAt;
  }

  /** What the observer notes about leaders' logs when n becomes n'. */
  ghost predicate Noted(h: Hist, n: Node, n': Node, h': Hist) {
    && h'.ldr == (if n'.role == Leader then h.ldr[n'.term := n.id] else h.ldr)
    && h'.llog == (if n'.role == Leader then h.llog[n'.term := n'.log] else h.llog)
    && (forall t | t in h.base && t in h.llog :: t in h'.base && h'.base[t] == h.base[t])
  }

  /** The leader's log of a term gets longer by entries of that term, or is the first of its term. */
  lemma LedLog(h: Hist, t: nat, log: Log, ents: seq<Entry>, h': Hist)
    requires Written(h) && GoodLog(h, log) && t >= 1 && (t in h.llog ==> h.llog[t] == log)
    requires forall i | 0 <= i < |ents| :: ents[i].term == t
    requires h'.llog == h.llog[t := log + ents] && h'.ldr.Keys == h.ldr.Keys + {t}
    requires forall x | x in h.base && x in h.llog :: x in h'.base && h'.base[x] == h.base[x]
    ensures GrowTerms(h, h') && Written(h') && GoodLog(h', log + ents)
  {
    assert (log + ents)[..|log|] == log;
    assert GrowTerms(h, h');
    GoodLogGrows(h, h', log);
    TermSteps.ExtendGood(h', log, ents, t);
    forall x | x in h'.llog ensures GoodLog(h', h'.llog[x]) {
      if x != t { GoodLogGrows(h, h', h.llog[x]); }
    }
  }

  lemma HistMoves(h: Hist, n: Node, n': Node, h': Hist)
    requires Written(h) && NodeM(h, n) && RoleMoves(n, n') && LogMoves(n, n', h) && Noted(h, n, n', h')
    requires n.role == Candidate && n'.role == Leader ==> n.term !in h.ldr
    ensures GrowTerms(h, h') && Written(h') && GoodLog(h', n'.log)
    ensures n'.role == Leader ==> n'.term in h'.llog && n'.log == h'.llog[n'.term]
  {
    hide GoodLog;
    if n'.role != Leader {
      assert GrowTerms(h, h');
      GoodLogGrows(h, h', n'.log);
      forall t | t in h'.llog ensures GoodLog(h', h'.llog[t]) { GoodLogGrows(h, h', h.llog[t]); }
    } else {
      var ents := n'.log[|n.log|..];
      assert n'.log == n.log + ents;
      LedLog(h, n.term, n.log, ents, h');
    }
  }

  /** A candidate wins only a term nobody, and not even itself, has led before. */
  lemma WinsNew(s: Sys, v: NodeId, s': Sys)
    requires NodesM(s) && v in s.nodes && v in s'.nodes && GrowE(s.h, s'.h) && NodeE(s'.h, v, s'.nodes[v])
    requires s.nodes[v].id == v && s.nodes[v].role == Candidate && s'.nodes[v].role == Leader
    requires s'.nodes[v].term == s.nodes[v].term
    ensures s.nodes[v].term !in s.h.ldr
  {
    assert NodeM(s.h, s.nodes[v]);
    var t := s.nodes[v].term;
    assert t in s.h.ldr ==> IsLeaderOf(s.h, t, v);
  }

  /** A node that takes no part in a step stands to the new history as it stood to the old one. */
  lemma OthersM(h: Hist, n: Node, n': Node, h': Hist, w: Node)
    requires GrowTerms(h, h') && Noted(h, n, n', h') && NodeM(h, w) && NodeE(h', w.id, w) && n.id != w.id
    ensures NodeM(h', w)
  {
    hide GoodLog;
    GoodLogGrows(h, h', w.log);
    forall t: nat | IsLeaderOf(h', t, w.id)
      ensures t <= w.term && (t == w.term ==> w.role != Candidate)
    {
      assert IsLeaderOf(h, t, w.id);
    }
  }

  /** The stepping node itself. */
  lemma SelfM(h: Hist, n: Node, n': Node, h': Hist)
    requires NodeM(h, n) && RoleMoves(n, n') && Noted(h, n, n', h') && n'.id == n.id
    requires GoodLog(h', n'.log) && (n'.role == Leader ==> n'.term in h'.llog && n'.log == h'.llog[n'.term])
    ensures NodeM(h', n')
  {
    hide GoodLog;
    forall t: nat | IsLeaderOf(h', t, n'.id)
      ensures t <= n'.term && (t == n'.term ==> n'.role != Candidate)
    {
      assert IsLeaderOf(h, t, n.id) || (n'.role == Leader && t == n'.term);
    }
  }

  lemma OnlySendApp(s: Sys, a: Action, m: Msg)
    requires Enabled(s, a) && IsNodeStep(a) && m in NodeStep(s, a).msgs && m.App?
    ensures a.SendApp?
  {
    hide FindConflictByTerm, FindConflict, Accept, TermAt, JointVote, RecordVote;
  }

  lemma BeyondLog(log: Log, p: nat)
    requires p > |log|
    ensures TermAt(log, p) == 0
  {
  }

  lemma SendAppM(h: Hist, n: Node, to: NodeId, k: nat, m: Msg)
    requires NodeM(h, n) && n.role == Leader && to in n.prs && 1 <= n.prs[to].next
    requires k > 0 ==> n.prs[to].next - 1 + k <= |n.log|
    requires m in SendAppend(n, to, k).msgs
    ensures m.App? && AppM(h, m)
  {
    hide GoodLog, Slice, TermAt;
    var p := n.prs[to].next - 1;
    if p + k <= |n.log| { SliceOf(h, n.term, p, k); } else { assert TermAt(n.log, p) == 0 by { BeyondLog(n.log, p); } }
  }

  /** The messages of a step speak for the logs of their leaders, old and new. */
  lemma NetStepM(s: Sys, a: Action, s': Sys)
    requires MInv(s) && NodesM(s') && Next(s, a, s') && IsNodeStep(a) && GrowTerms(s.h, s'.h)
    ensures NetM(s'.h, s'.net)
  {
    hide NodeM, AppM, GrowTerms, Observe, ReadsCommit, NodeStep;
    forall m | m in s'.net && m.App? ensures AppM(s'.h, m) {
      if m in s.net {
        AppMGrows(s.h, s'.h, m);
      } else {
        OnlySendApp(s, a, m);
        SentM(s, a, s', m);
      }
    }
  }

  lemma SentM(s: Sys, a: Action, s': Sys, m: Msg)
    requires NodesM(s) && Next(s, a, s') && a.SendApp? && GrowTerms(s.h, s'.h)
    requires m in NodeStep(s, a).msgs
    ensures m.App? && AppM(s'.h, m)
  {
    hide NodeM, AppM, GrowTerms, Observe, SendAppend;
    SendAppM(s.h, s.nodes[a.v], a.to, a.k, m);
    AppMGrows(s.h, s'.h, m);
  }

  lemma EmitNotes(s: Sys, a: Action, s': Sys)
    requires Next(s, a, s') && IsNodeStep(a) && NodeE(s.h, a.v, s.nodes[a.v]) && NodeE(s'.h, a.v, s'.nodes[a.v])
    ensures s'.nodes == s.nodes[a.v := NodeStep(s, a).node]
    ensures var n, n' := s.nodes[a.v], s'.nodes[a.v];
      (n'.role == Leader ==> n.role == Leader || n'.term !in s.h.llog) ==> Noted(s.h, n, n', s'.h)
  {
    hide NodeStep, ReadsCommit, Enabled;
  }

  lemma NodeStepKeepsM(s: Sys, a: Action, s': Sys)
    requires EInv(s) && EInv(s') && GrowE(s.h, s'.h) && MInv(s) && Next(s, a, s') && IsNodeStep(a)
    ensures MInv(s') && GrowTerms(s.h, s'.h)
  {
    hide NodeStep, ReadsCommit, HistE, DisksE, NetE, GrowTerms, GrowE, NodeM, LogMoves, Observe, Noted;
    var n, n' := s.nodes[a.v], s'.nodes[a.v];
    ElectsM(s, a, s');
    forall u | u in s'.nodes ensures NodeM(s'.h, s'.nodes[u]) {
      if u == a.v {
        SelfM(s.h, n, n', s'.h);
      } else {
        assert NodeM(s.h, s.nodes[u]) && NodeE(s'.h, u, s'.nodes[u]);
        OthersM(s.h, n, n', s'.h, s'.nodes[u]);
      }
    }
    NetStepM(s, a, s');
  }

  lemma ElectsM(s: Sys, a: Action, s': Sys)
    requires EInv(s) && EInv(s') && GrowE(s.h, s'.h) && MInv(s) && Next(s, a, s') && IsNodeStep(a)
    ensures var n, n' := s.nodes[a.v], s'.nodes[a.v];
      && s'.nodes == s.nodes[a.v := n']
      && RoleMoves(n, n') && Noted(s.h, n, n', s'.h) && n'.id == n.id == a.v
      && GrowTerms(s.h, s'.h) && Written(s'.h) && GoodLog(s'.h, n'.log)
      && (n'.role == Leader ==> n'.term in s'.h.llog && n'.log == s'.h.llog[n'.term])
  {
    hide NodeStep, ReadsCommit, GrowTerms, Noted, GoodLog, HistE, DisksE, NetE, Observe;
    var n, n' := s.nodes[a.v], s'.nodes[a.v];
    assert NodeE(s.h, a.v, n) && NodeE(s'.h, a.v, n') && NodeM(s.h, n);
    NodeStepMoves(s, a);
    StepLog(s, a);
    EmitNotes(s, a, s');
    if n'.role == Leader && n.role != Leader { WinsNew(s, a.v, s'); }
    HistMoves(s.h, n, n', s'.h);
  }

  lemma PersistKeepsM(s: Sys, v: NodeId)
    requires MInv(s) && v in s.disks && s.disks[v].queue != []
    ensures MInv(Persist(s, v)) && GrowTerms(s.h, Persist(s, v).h)
  {
    hide GoodLog;
    var s' := Persist(s, v);
    forall t | t in s'.h.llog ensures GoodLog(s'.h, s'.h.llog[t]) { GoodLogGrows(s.h, s'.h, s.h.llog[t]); }
    forall u | u in s'.nodes ensures NodeM(s'.h, s'.nodes[u]) {
      assert NodeM(s.h, s.nodes[u]);
      GoodLogGrows(s.h, s'.h, s.nodes[u].log);
      assert forall t: nat | IsLeaderOf(s'.h, t, s.nodes[u].id) :: IsLeaderOf(s.h, t, s.nodes[u].id);
    }
  }

  /** A restart with a log made of leaders' logs, by a node that led no term beyond its disk. */
  lemma RestartKeepsM(s: Sys, v: NodeId, log: Log, committed: nat, offset: nat)
    requires MInv(s) && v in s.nodes && v in s.disks && s.nodes[v].id == v && GoodLog(s.h, log)
    requires forall t: nat | IsLeaderOf(s.h, t, v) :: t <= s.disks[v].durable.term
    ensures MInv(Restart(s, v, log, committed, offset))
  {
    hide GoodLog;
    var s' := Restart(s, v, log, committed, offset);
    forall u | u in s'.nodes ensures NodeM(s'.h, s'.nodes[u]) {
      if u != v { assert NodeM(s.h, s.nodes[u]); }
    }
  }

  // ---------------------------------------------------------------------------
  // Runs
  // ---------------------------------------------------------------------------

  predicate Leads(s: Sys, v: NodeId, t: nat) { v in s.nodes && s.nodes[v].role == Leader && s.nodes[v].term == t }

  ghost predicate Led(states: seq<Sys>, i: nat, v: NodeId, t: nat) {
    exists j :: 0 <= j <= i < |states| && Leads(states[j], v, t)
  }

  /** The observer has v down as leader of t only if v has been seen leading t. */
  lemma {:induction false} LedBefore(states: seq<Sys>, acts: seq<Action>, i: nat, v: NodeId, t: nat)
    requires IsRun(states, acts) && i < |states| && IsLeaderOf(states[i].h, t, v)
    ensures Led(states, i, v, t)
  {
    hide Init, Next;
    RunKeepsE(states, acts, i, i);
    if i > 0 {
      LedStep(states[i-1], acts[i-1], states[i], v, t);
      if IsLeaderOf(states[i-1].h, t, v) {
        LedBefore(states, acts, i - 1, v, t);
        var j :| 0 <= j <= i - 1 && Leads(states[j], v, t);
      }
    } else {
      InitialLeaders(states[0]);
    }
  }

  lemma InitialLeaders(s: Sys)
    requires Init(s)
    ensures s.h.ldr == map[]
  {
  }

  lemma LedStep(s: Sys, a: Action, s': Sys, v: NodeId, t: nat)
    requires NodesE(s') && Next(s, a, s') && IsLeaderOf(s'.h, t, v)
    ensures IsLeaderOf(s.h, t, v) || Leads(s', v, t)
  {
    hide NodeStep, ReadsCommit;
    assert NodeE(s'.h, a.v, s'.nodes[a.v]);
  }

  /**
   * The crash at step i, if it is one, keeps its promises: the node comes back
   * with a part of a log it had, and its disk has reached every term it has led.
   */
  ghost predicate SafeCrash(states: seq<Sys>, acts: seq<Action>, i: nat)
    requires i < |acts| && i < |states|
  {
    acts[i].Crash? ==>
      && (exists j :: 0 <= j <= i && HadLog(states[j], acts[i].v, acts[i].log))
      && acts[i].v in states[i].disks
      && forall t: nat | Led(states, i, acts[i].v, t) :: t <= states[i].disks[acts[i].v].durable.term
  }

  predicate HadLog(s: Sys, v: NodeId, log: Log) { v in s.nodes && IsPrefix(log, s.nodes[v].log) }

  ghost predicate SafeCrashes(states: seq<Sys>, acts: seq<Action>) {
    |states| == |acts| + 1 && forall i | 0 <= i < |acts| :: SafeCrash(states, acts, i)
  }

  lemma CrashKeepsM(states: seq<Sys>, acts: seq<Action>, i: nat, j: nat)
    requires IsRun(states, acts) && i < |acts| && j <= i && acts[i].Crash? && SafeCrash(states, acts, i)
    requires MInv(states[i]) && MInv(states[j]) && GrowTerms(states[j].h, states[i].h)
    requires HadLog(states[j], acts[i].v, acts[i].log)
    ensures MInv(states[i+1]) && GrowTerms(states[i].h, states[i+1].h)
  {
    hide GoodLog, ReadsCommit, NodeStep, Init, MInv, Restart;
    var s, a := states[i], acts[i];
    assert Next(s, a, states[i+1]);
    RunKeepsE(states, acts, i, i);
    assert NodeE(s.h, a.v, s.nodes[a.v]);
    RestoredGood(states[j], a.v, a.log, s.h);
    forall t: nat | IsLeaderOf(s.h, t, a.v) ensures t <= s.disks[a.v].durable.term {
      LedBefore(states, acts, i, a.v, t);
    }
    RestartKeepsM(s, a.v, a.log, a.committed, a.offset);
    RestartSame(s, a.v, a.log, a.committed, a.offset);
  }

  lemma RestartSame(s: Sys, v: NodeId, log: Log, committed: nat, offset: nat)
    requires v in s.nodes && v in s.disks
    ensures GrowTerms(s.h, Restart(s, v, log, committed, offset).h)
  {
  }

  lemma RestoredGood(s: Sys, v: NodeId, log: Log, h: Hist)
    requires MInv(s) && HadLog(s, v, log) && GrowTerms(s.h, h)
    ensures GoodLog(h, log)
  {
    hide GoodLog;
    assert NodeM(s.h, s.nodes[v]);
    PrefixGood(s.h, s.nodes[v].log, |log|);
    GoodLogGrows(s.h, h, log);
  }

  lemma InitM(s: Sys)
    requires Init(s)
    ensures MInv(s)
  {
    forall v | v in s.nodes ensures NodeM(s.h, s.nodes[v]) {}
  }

  lemma {:induction false} RunKeepsM(states: seq<Sys>, acts: seq<Action>, i: nat, j: nat)
    requires IsRun(states, acts) && SafeCrashes(states, acts) && i <= j < |states|
    ensures MInv(states[i]) && MInv(states[j]) && GrowTerms(states[i].h, states[j].h)
    decreases j, 0
  {
    hide MInv, Init, Next, EInv, GrowE, HadLog;
    if j == 0 {
      InitM(states[0]);
    } else {
      RunKeepsM(states, acts, if i == j then i - 1 else i, j - 1);
      RunStepM(states, acts, j - 1);
      if i < j { LogSafety.GrowTermsTrans(states[i].h, states[j-1].h, states[j].h); }
    }
  }

  lemma {:induction false} RunStepM(states: seq<Sys>, acts: seq<Action>, i: nat)
    requires IsRun(states, acts) && SafeCrashes(states, acts) && i < |acts| && MInv(states[i])
    ensures MInv(states[i+1]) && GrowTerms(states[i].h, states[i+1].h)
    decreases i, 1
  {
    hide MInv, Init, EInv, GrowE, GrowTerms, HadLog, ReadsCommit, NodeStep, Persist, Restart;
    var s, a, s' := states[i], acts[i], states[i+1];
    assert Next(s, a, s') && SafeCrash(states, acts, i);
    RunKeepsE(states, acts, i, i + 1);
    if a.PersistState? {
      PersistKeepsM(s, a.v);
    } else if a.Crash? {
      var j :| 0 <= j <= i && HadLog(states[j], a.v, a.log);
      RunKeepsM(states, acts, j, i);
      CrashKeepsM(states, acts, i, j);
    } else {
      NodeStepKeepsM(s, a, s');
    }
  }

  /**
   * Log Matching with crashes: two logs of the run that hold entries of one
   * term at an index are equal up to it, as long as every node that crashes
   * restores a log it had and has led no term beyond its disk.
   */
  lemma LogMatchingWithCrashes(states: seq<Sys>, acts: seq<Action>, i: nat, j: nat, v: NodeId, w: NodeId, k: nat)
    requires IsRun(states, acts) && SafeCrashes(states, acts) && i < |states| && j < |states|
    requires v in states[i].nodes && w in states[j].nodes
    requires 1 <= k <= |states[i].nodes[v].log| && k <= |states[j].nodes[w].log|
    requires states[i].nodes[v].log[k-1].term == states[j].nodes[w].log[k-1].term
    ensures states[i].nodes[v].log[..k] == states[j].nodes[w].log[..k]
  {
    hide GoodLog, GrowTerms, Init, Next, SafeCrashes;
    var m := Max(i, j);
    RunKeepsM(states, acts, i, m);
    RunKeepsM(states, acts, j, m);
    assert NodeM(states[i].h, states[i].nodes[v]) && NodeM(states[j].h, states[j].nodes[w]);
    GoodLogGrows(states[i].h, states[m].h, states[i].nodes[v].log);
    GoodLogGrows(states[j].h, states[m].h, states[j].nodes[w].log);
    LogMatching(states[m].h, states[i].nodes[v].log, states[j].nodes[w].log, k);
  }
}
