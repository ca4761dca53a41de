// raft.Step on a message from the network: first its term, then the message by
// role. Every such call is at most two transitions of the protocol.
module Delivery {
  import opened Quorum
  import opened PlainLog
  import opened RaftNode
  import opened Protocol

  /** The effects of o and then p. */
  function Then(o: Out, p: Out): Out { Out(p.node, o.msgs + p.msgs, o.hard + p.hard) }

  /** A message of a higher term makes the node a follower of that term first. */
  function TermStep(n: Node, m: Msg): Out {
    BecomeFollowerExt(n, m.term, if m.App? || m.Heartbeat? then m.from else NONE)
  }

  function Handle(cfg: JointConfig, n: Node, m: Msg, mci: nat): Out
    requires !m.Vote?
  {
    match m
    case VoteResp(_, _, _, _) => HandleVoteResp(cfg, n, m)
    case App(_, _, _, _, _, _, _) => StepApp(n, m)
    case AppResp(_, _, _, _) => StepAppResp(n, m, mci)
    case AppReject(_, _, _, _, _, _) => StepAppReject(n, m)
    case Heartbeat(_, _, _, _) => StepHeartbeat(n, m)
  }

  /** `answers`: check-quorum or pre-vote is on, so leaders of lower terms get an answer. */
  function Step(cfg: JointConfig, n: Node, m: Msg, mci: nat, answers: bool): Out {
    if m.term < n.term then
      if answers && (m.App? || m.Heartbeat?) then Out(n, {AppResp(n.id, m.from, n.term, 0)}, []) else Quiet(n)
    else if m.Vote? then HandleVote(n, m)
    else if m.term == n.term then Handle(cfg, n, m, mci)
    else
      var a := TermStep(n, m);
      Then(a, Handle(cfg, a.node, m, mci))
  }

  /** Does handling m at the node's own term panic? */
  predicate HandlePanics(n: Node, m: Msg, mci: nat) {
    match m
    case App(_, _, _, _, _, _, _) => n.role != Leader && AppendPanics(n, m)
    case Heartbeat(_, _, _, _) => n.role != Leader && m.commit > Max(n.committed, |n.log|)
    case AppResp(_, _, _, _) =>
      && n.role == Leader && m.from in n.prs && n.prs[m.from].matched < m.index
      && mci >= n.termStart && mci > Max(n.committed, |n.log|)
    case _ => false
  }

  predicate StepPanics(n: Node, m: Msg, mci: nat) {
    m.term >= n.term && !m.Vote? && HandlePanics(if m.term == n.term then n else TermStep(n, m).node, m, mci)
  }

  /** Whoever handles an append or heartbeat of a term not below its own follows its sender in that term. */
  lemma FollowsSender(cfg: JointConfig, n: Node, m: Msg, mci: nat, answers: bool)
    requires (m.App? || m.Heartbeat?) && m.term >= n.term && (m.term == n.term ==> n.role != Leader)
    ensures var n' := Step(cfg, n, m, mci, answers).node;
      n'.role == Follower && n'.term == m.term && n'.lead == m.from
  {
    hide FindConflict, Accept, FindConflictByTerm, TermAt;
  }

  /** A leader of a lower term that gets an answer learns of the newer term and steps down. */
  lemma StaleLeaderStepsDown(cfg: JointConfig, f: Node, n: Node, m: Msg, mci: nat)
    requires (m.App? || m.Heartbeat?) && m.from == n.id && m.term == n.term && n.term < f.term && n.role == Leader
    ensures exists r :: r in Step(cfg, f, m, mci, true).msgs && r.to == n.id &&
              var n' := Step(cfg, n, r, mci, true).node; n'.role == Follower && n'.term == f.term
  {
    assert AppResp(f.id, n.id, f.term, 0) in Step(cfg, f, m, mci, true).msgs;
  }

  // ---------------------------------------------------------------------------
  // As transitions
  // ---------------------------------------------------------------------------

  function Handling(v: NodeId, m: Msg, mci: nat): Action
    requires !m.Vote?
  {
    match m
    case VoteResp(_, _, _, _) => RecvVoteResp(v, m)
    case App(_, _, _, _, _, _, _) => RecvApp(v, m)
    case AppResp(_, _, _, _) => RecvAppResp(v, m, mci)
    case AppReject(_, _, _, _, _, _) => RecvAppReject(v, m)
    case Heartbeat(_, _, _, _) => RecvBeat(v, m)
  }

  function Transitions(n: Node, m: Msg, mci: nat, answers: bool): seq<Action> {
    var v := m.to;
    if m.term < n.term then
      if answers && (m.App? || m.Heartbeat?) then [AnswerStale(v, m.from)] else []
    else if m.Vote? then [RecvVote(v, m)]
    else if m.term == n.term then [Handling(v, m, mci)]
    else if m.App? || m.Heartbeat? then [ObserveLeader(v, m), Handling(v, m, mci)]
    else [ObserveTerm(v, m.term), Handling(v, m, mci)]
  }

  ghost predicate Reaches(s: Sys, acts: seq<Action>, s': Sys)
    decreases |acts|
  {
    if acts == [] then s' == s
    else exists mid :: Next(s, acts[0], mid) && Reaches(mid, acts[1..], s')
  }

  /** The node, the network and the queue of writes, as a call with these effects leaves them. */
  ghost predicate Effects(s: Sys, v: NodeId, out: Out, s': Sys)
    requires v in s.nodes && v in s.disks
  {
    && s'.cfg == s.cfg && s'.nodes == s.nodes[v := out.node] && s'.net == s.net + out.msgs
    && s'.disks == s.disks[v := s.disks[v].(queue := s.disks[v].queue + out.hard)]
  }

  /** The commit index the leader reads, if it reads one. */
  ghost predicate ReadsIndex(cfg: JointConfig, n: Node, m: Msg, mci: nat) {
    m.AppResp? && m.term == n.term && n.role == Leader && m.from in n.prs && n.prs[m.from].matched < m.index ==>
      IsJointCommitted(cfg, Matches(Acked(n, m.from, m.index).prs), At(mci))
  }

  lemma OneStep(s: Sys, a: Action)
    requires Enabled(s, a) && IsNodeStep(a) && ReadsCommit(s, a)
    ensures Reaches(s, [a], Emit(s, a.v, NodeStep(s, a)))
    ensures Effects(s, a.v, NodeStep(s, a), Emit(s, a.v, NodeStep(s, a)))
  {
    var s' := Emit(s, a.v, NodeStep(s, a));
    assert Next(s, a, s') && [a][1..] == [] && Reaches(s', [], s');
  }

  lemma EffectsNone(s: Sys, v: NodeId)
    requires v in s.nodes && v in s.disks
    ensures Effects(s, v, Quiet(s.nodes[v]), s)
  {
    assert s.nodes[v := s.nodes[v]] == s.nodes && s.net + {} == s.net;
    assert s.disks[v].queue + [] == s.disks[v].queue && s.disks[v := s.disks[v]] == s.disks;
  }

  lemma EffectsTwice(s: Sys, v: NodeId, o: Out, mid: Sys, p: Out, s': Sys)
    requires v in s.nodes && v in s.disks && Effects(s, v, o, mid) && Effects(mid, v, p, s')
    ensures Effects(s, v, Then(o, p), s')
  {
    assert s.net + o.msgs + p.msgs == s.net + (o.msgs + p.msgs);
    assert s.disks[v].queue + o.hard + p.hard == s.disks[v].queue + (o.hard + p.hard);
  }

  lemma TwoSteps(s: Sys, a: Action, b: Action)
    requires Enabled(s, a) && IsNodeStep(a) && ReadsCommit(s, a) && a.v == b.v && IsNodeStep(b)
    requires var mid := Emit(s, a.v, NodeStep(s, a)); Enabled(mid, b) && ReadsCommit(mid, b)
    ensures var mid := Emit(s, a.v, NodeStep(s, a)); var s' := Emit(mid, b.v, NodeStep(mid, b));
      var o, p := NodeStep(s, a), NodeStep(mid, b);
      Reaches(s, [a, b], s') && Effects(s, a.v, Then(o, p), s')
  {
    hide Effects;
    var mid := Emit(s, a.v, NodeStep(s, a));
    OneStep(mid, b);
    assert Next(s, a, mid) && [a, b][1..] == [b];
    EffectsTwice(s, a.v, NodeStep(s, a), mid, NodeStep(mid, b), Emit(mid, b.v, NodeStep(mid, b)));
  }

  lemma NoStep(s: Sys)
    ensures Reaches(s, [], s)
  {
  }

  lemma SameTerm(s: Sys, v: NodeId, m: Msg, mci: nat)
    requires v in s.nodes && v in s.disks && s.nodes[v].id == v && m in s.net && m.to == v && !m.Vote?
    requires m.term == s.nodes[v].term && ReadsIndex(s.cfg, s.nodes[v], m, mci)
    ensures var a := Handling(v, m, mci);
      && a.v == v && IsNodeStep(a) && Enabled(s, a) && ReadsCommit(s, a)
      && NodeStep(s, a) == Handle(s.cfg, s.nodes[v], m, mci)
  {
  }

  lemma HigherTerm(s: Sys, v: NodeId, m: Msg, mci: nat)
    requires v in s.nodes && v in s.disks && s.nodes[v].id == v && m in s.net && m.to == v && !m.Vote?
    requires m.term > s.nodes[v].term
    ensures var a := if m.App? || m.Heartbeat? then ObserveLeader(v, m) else ObserveTerm(v, m.term);
      && Enabled(s, a) && ReadsCommit(s, a) && NodeStep(s, a) == TermStep(s.nodes[v], m)
      && var mid := Emit(s, v, NodeStep(s, a));
         && mid.cfg == s.cfg && v in mid.nodes && v in mid.disks && mid.nodes[v] == TermStep(s.nodes[v], m).node
         && mid.nodes[v].id == v && m in mid.net && mid.nodes[v].term == m.term && mid.nodes[v].role == Follower
  {
  }

  /** Every delivery is a sequence of protocol transitions with the same effects. */
  lemma StepIsTransitions(s: Sys, v: NodeId, m: Msg, mci: nat, answers: bool) returns (s': Sys)
    requires v in s.nodes && v in s.disks && s.nodes[v].id == v && m in s.net && m.to == v
    requires ReadsIndex(s.cfg, s.nodes[v], m, mci)
    ensures Reaches(s, Transitions(s.nodes[v], m, mci, answers), s')
    ensures Effects(s, v, Step(s.cfg, s.nodes[v], m, mci, answers), s')
  {
    hide Effects, Reaches, Handle, Emit, TermStep, ReadsCommit;
    var n := s.nodes[v];
    var acts := Transitions(n, m, mci, answers);
    if acts == [] {
      NoStep(s);
      EffectsNone(s, v);
      s' := s;
    } else if |acts| == 1 {
      if m.term == n.term && !m.Vote? { SameTerm(s, v, m, mci); }
      OneStep(s, acts[0]);
      s' := Emit(s, v, NodeStep(s, acts[0]));
    } else {
      HigherTerm(s, v, m, mci);
      var mid := Emit(s, v, NodeStep(s, acts[0]));
      SameTerm(mid, v, m, mci);
      TwoSteps(s, acts[0], acts[1]);
      s' := Emit(mid, v, NodeStep(mid, acts[1]));
    }
  }

  lemma ReachesMore(s: Sys, a: seq<Action>, mid: Sys, b: seq<Action>, s': Sys)
    requires Reaches(s, a, mid) && Reaches(mid, b, s')
    ensures Reaches(s, a + b, s')
    decreases |a|
  {
    if a == [] {
      assert a + b == b;
    } else {
      var x :| Next(s, a[0], x) && Reaches(x, a[1..], mid);
      assert (a + b)[1..] == a[1..] + b;
      ReachesMore(x, a[1..], mid, b, s');
    }
  }

  lemma OneNext(s: Sys, a: Action, s': Sys)
    requires Next(s, a, s')
    ensures Reaches(s, [a], s')
  {
    assert [a][1..] == [] && Reaches(s', [], s');
  }

  // ---------------------------------------------------------------------------
  // The appends a call sends once it has handled the message
  // ---------------------------------------------------------------------------

  /** May the node send `to` an append of k entries: all it has to say, or at least one entry? */
  predicate CanSend(n: Node, to: NodeId, k: nat) {
    && n.role == Leader && to in n.prs && to != n.id && 1 <= n.prs[to].next
    && (if n.prs[to].next <= |n.log| then 1 <= k <= |n.log| + 1 - n.prs[to].next else k == 0)
  }

  predicate Sendable(n: Node, sends: seq<(NodeId, nat)>)
    decreases |sends|
  {
    sends == [] || (CanSend(n, sends[0].0, sends[0].1) &&
                    Sendable(SendAppend(n, sends[0].0, sends[0].1).node, sends[1..]))
  }

  function SendAll(n: Node, sends: seq<(NodeId, nat)>): Out
    requires Sendable(n, sends)
    decreases |sends|
  {
    if sends == [] then Quiet(n)
    else var o := SendAppend(n, sends[0].0, sends[0].1); Then(o, SendAll(o.node, sends[1..]))
  }

  lemma {:induction false} SendsAreTransitions(s: Sys, v: NodeId, sends: seq<(NodeId, nat)>)
    returns (s': Sys, acts: seq<Action>)
    requires v in s.nodes && v in s.disks && s.nodes[v].id == v && Sendable(s.nodes[v], sends)
    requires forall i | 0 <= i < |sends| :: sends[i].0 in s.nodes
    ensures Reaches(s, acts, s') && Effects(s, v, SendAll(s.nodes[v], sends), s') && CrashFree(acts)
    decreases |sends|
  {
    hide Reaches, Effects, SendAppend;
    if sends == [] {
      NoStep(s);
      EffectsNone(s, v);
      s', acts := s, [];
    } else {
      var a := SendApp(v, sends[0].0, sends[0].1);
      var o := NodeStep(s, a);
      var mid := Emit(s, v, o);
      OneStep(s, a);
      SendKeepsId(s.nodes[v], a.to, a.k);
      var more;
      s', more := SendsAreTransitions(mid, v, sends[1..]);
      EffectsTwice(s, v, o, mid, SendAll(o.node, sends[1..]), s');
      ReachesMore(s, [a], mid, more, s');
      acts := [a] + more;
    }
  }

  lemma SendKeepsId(n: Node, to: NodeId, k: nat)
    requires CanSend(n, to, k)
    ensures SendAppend(n, to, k).node.id == n.id
  {
  }

  /** A run, extended by more transitions. */
  lemma {:induction false} Extend(states: seq<Sys>, acts: seq<Action>, more: seq<Action>, s': Sys)
    returns (states': seq<Sys>, acts': seq<Action>)
    requires IsRun(states, acts) && Reaches(states[|states|-1], more, s')
    ensures IsRun(states', acts') && |states'| >= |states|
    ensures states'[..|states|] == states && states'[|states'|-1] == s' && acts' == acts + more
    decreases |more|
  {
    hide Next, Init;
    if more == [] {
      assert acts + more == acts;
      states', acts' := states, acts;
    } else {
      var mid :| Next(states[|states|-1], more[0], mid) && Reaches(mid, more[1..], s');
      var longer := states + [mid];
      assert longer[..|states|] == states;
      states', acts' := Extend(longer, acts + [more[0]], more[1..], s');
      assert states'[..|states|] == states'[..|longer|][..|states|];
      assert acts + [more[0]] + more[1..] == acts + more;
    }
  }
}
