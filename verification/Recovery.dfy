// Nothing that can happen to a cluster, short of a broken promise, is the end of it:
// from every state of a run every quorum can elect a leader, commit its log, and agree.
module Recovery {
  import opened Quorum
  import opened PlainLog
  import opened ProgressSpec
  import opened RaftNode
  import opened Protocol
  import opened Election
  import opened History
  import opened Replication
  import opened CrashSafety
  import opened Reelection
  import opened Paths
  import opened Health
  import opened CatchUp
  import Electable

  // ---------------------------------------------------------------------------
  // Followers learn what is committed
  // ---------------------------------------------------------------------------

  /** u has the leader's log and has committed all of it. */
  ghost predicate Agreed(s: Sys, v: NodeId, u: NodeId, t: nat) {
    && v in s.nodes && u in s.nodes && s.nodes[u].term == t
    && s.nodes[u].log == s.nodes[v].log && s.nodes[u].committed == |s.nodes[v].log|
  }

  lemma SendsBeat(s: Sys, v: NodeId, u: NodeId, t: nat) returns (s': Sys)
    requires Pair(s, v, u, t) && s.nodes[v].prs[u].matched == |s.nodes[v].log| == s.nodes[v].committed
    ensures Can(s, {v}, s') && v in s'.nodes && s'.nodes[v] == s.nodes[v]
    ensures Heartbeat(v, u, t, |s.nodes[v].log|) in s'.net
  {
    hide Can, Observe;
    s' := CanEmit(s, SendBeat(v, u));
  }

  lemma HearsBeat(s: Sys, u: NodeId, v: NodeId, t: nat, c: nat) returns (s': Sys)
    requires u in s.nodes && u in s.disks && Heartbeat(v, u, t, c) in s.net
    requires s.nodes[u].term == t && s.nodes[u].role != Leader && c == |s.nodes[u].log| && s.nodes[u].committed <= c
    ensures Can(s, {u}, s') && u in s'.nodes && s'.nodes[u].term == t
    ensures s'.nodes[u].log == s.nodes[u].log && s'.nodes[u].committed == c
  {
    hide Can, Observe;
    s' := CanEmit(s, RecvBeat(u, Heartbeat(v, u, t, c)));
  }

  lemma CommittedWithin(s: Sys, u: NodeId)
    requires Healthy(s) && u in s.nodes
    ensures s.nodes[u].committed <= |s.nodes[u].log|
  {
    hide EInv, HistL, AllPrsL, AcksL, NetL, DisksL, AllShaped, CommitRule.AllCommitting;
    hide LogL, TermsSeen, SafeCommit, RoleL;
    assert NodeL(s.h, s.nodes[u]);
    SafeCommitReach(s.h, s.nodes[u].term, s.nodes[u].log, s.nodes[u].committed);
  }

  lemma Learns(s: Sys, v: NodeId, u: NodeId, t: nat) returns (s': Sys)
    requires Healthy(s) && Leads(s, v, t) && u != v && UpToDate(s, v, u, t)
    requires s.nodes[v].committed == |s.nodes[v].log|
    ensures Can(s, {v, u}, s') && Healthy(s') && Agreed(s', v, u, t) && s'.nodes[v] == s.nodes[v]
  {
    hide Can, Healthy;
    PairOf(s, v, u, t);
    NotLeading(s, v, u, t);
    CommittedWithin(s, u);
    var s1 := SendsBeat(s, v, u, t);
    CanFrame(s, {v}, s1);
    assert Same(s, u, s1);
    s' := HearsBeat(s1, u, v, t, |s.nodes[v].log|);
    CanFrame(s1, {u}, s');
    assert Same(s1, v, s');
    CanMore(s, {v}, s1, {u}, s');
    assert {v} + {u} == {v, u};
    CanStayHealthy(s, {v, u}, s');
  }

  lemma {:induction false} LearnAll(s: Sys, q: set<NodeId>, v: NodeId, t: nat) returns (s': Sys)
    requires Healthy(s) && Leads(s, v, t) && v !in q && s.nodes[v].committed == |s.nodes[v].log|
    requires forall u | u in q :: UpToDate(s, v, u, t)
    ensures Can(s, q + {v}, s') && Healthy(s') && v in s'.nodes && s'.nodes[v] == s.nodes[v]
    ensures forall u | u in q :: Agreed(s', v, u, t)
    decreases q
  {
    hide Can, Healthy;
    if q == {} {
      CanStay(s, q + {v});
      s' := s;
    } else {
      var u :| u in q;
      var mid := Learns(s, v, u, t);
      CanFrame(s, {v, u}, mid);
      var rest := q - {u};
      forall w | w in rest ensures UpToDate(mid, v, w, t) { assert UpToDate(s, v, w, t) && Same(s, w, mid); }
      s' := LearnAll(mid, rest, v, t);
      CanFrame(mid, rest + {v}, s');
      assert Same(mid, u, s');
      CanMore(s, {v, u}, mid, rest + {v}, s');
      assert {v, u} + (rest + {v}) == q + {v};
    }
  }

  // ---------------------------------------------------------------------------
  // A quorum agrees
  // ---------------------------------------------------------------------------

  /** v leads t with this log; it and all of q have it and have committed it. */
  ghost predicate Settles(s: Sys, v: NodeId, q: set<NodeId>, t: nat, log: Log) {
    && Leads(s, v, t) && s.nodes[v].log == log && s.nodes[v].committed == |log|
    && forall u | u in q :: Agreed(s, v, u, t)
  }

  /** A leader whose last entry a quorum does not have yet can make the quorum agree on its whole log. */
  lemma Settle(s: Sys, v: NodeId, q: set<NodeId>, t: nat) returns (s': Sys)
    requires Healthy(s) && Leads(s, v, t) && s.nodes[v].log != [] && LastTerm(s.nodes[v].log) == t
    requires q <= s.cfg.IDs() && IsQuorum(s.cfg, q) && forall u | u in q && u != v :: Behind(s, v, u, t)
    ensures Can(s, q + {v}, s') && Settles(s', v, q, t, s.nodes[v].log)
  {
    hide Can, Healthy, IsQuorum, TermAt, LastTerm;
    var peers := q - {v};
    var s1 := SelfCounts(s, v, t);
    CanFrame(s, {v}, s1);
    CanStayHealthy(s, {v}, s1);
    forall u | u in peers ensures Behind(s1, v, u, t) {
      assert Behind(s, v, u, t) && Same(s, u, s1);
      PairOf(s1, v, u, t);
    }
    var s2 := CatchAll(s1, peers, v, t);
    CanFrame(s1, peers + {v}, s2);
    forall u | u in q ensures u in s2.nodes[v].prs && s2.nodes[v].prs[u].matched >= |s2.nodes[v].log| {
      if u != v { assert UpToDate(s2, v, u, t); }
    }
    AllCommitted(s2, v, q, t);
    s' := LearnAll(s2, peers, v, t);
    CanMore(s, {v}, s1, peers + {v}, s2);
    CanMore(s, {v} + (peers + {v}), s2, peers + {v}, s');
    assert {v} + (peers + {v}) + (peers + {v}) == q + {v};
  }

  // ---------------------------------------------------------------------------
  // New entries
  // ---------------------------------------------------------------------------

  /** Nobody has an entry of the leader's term beyond the leader's log. */
  lemma NobodyAhead(s: Sys, v: NodeId, u: NodeId, t: nat)
    requires Healthy(s) && Leads(s, v, t) && u in s.nodes
    ensures TermAt(s.nodes[u].log, |s.nodes[v].log| + 1) != t
  {
    hide EInv, AllPrsL, AcksL, NetL, DisksL, AllShaped, CommitRule.AllCommitting;
    hide BallotsOk, DurableOk, AcksOk, ChosenOk, HistE, TermsSeen, SafeCommit, TermOk;
    var n, f := s.nodes[v], s.nodes[u];
    assert NodeL(s.h, n) && NodeL(s.h, f);
    if |n.log| + 1 <= |f.log| { assert GoodAt(s.h, f.log, |n.log| + 1); }
  }

  /** A proposal is the leader's last entry, and nobody has it yet. */
  lemma Proposes(s: Sys, v: NodeId, t: nat, x: Entry) returns (s': Sys)
    requires Healthy(s) && Leads(s, v, t)
    ensures Can(s, {v}, s') && Healthy(s') && Leads(s', v, t)
    ensures s'.nodes[v] == s.nodes[v].(log := s.nodes[v].log + [x.(term := t)])
    ensures forall u | u in s.nodes && u != v && s.nodes[u].term <= t :: Behind(s', v, u, t)
  {
    hide Can, Healthy, TermAt, Next;
    HasInvariant(s);
    s' := OneProposal(s, v, x);
    CanStep(s, Propose(v, [x]), s');
    CanFrame(s, {v}, s');
    CanStayHealthy(s, {v}, s');
    LastOfMore(s.nodes[v].log, x.(term := t));
    forall u | u in s.nodes && u != v && s.nodes[u].term <= t ensures Behind(s', v, u, t) {
      assert Same(s, u, s');
      NobodyAhead(s, v, u, t);
      PairOf(s', v, u, t);
    }
  }

  lemma LastOfMore(log: Log, x: Entry)
    ensures LastTerm(log + [x]) == x.term
  {
  }

  lemma HasInvariant(s: Sys)
    requires Healthy(s)
    ensures EInv(s)
  {
    hide EInv, HistL, NodesL, AllPrsL, NetL, AcksL, DisksL;
  }

  // ---------------------------------------------------------------------------
  // The theorems
  // ---------------------------------------------------------------------------

  /**
   * From every state of every run whose crashes keep their promises: if v leads a
   * term that u has not left behind, some continuation without a crash brings u's
   * log to v's, one new entry included, u has committed what v had, and v knows
   * it all: Match is the last index, Next is behind it, and u is replicated to
   * without further probing.
   */
  lemma PeerCanCatchUp(states: seq<Sys>, acts: seq<Action>, v: NodeId, u: NodeId, t: nat, x: Entry)
    returns (states': seq<Sys>, acts': seq<Action>)
    requires IsRun(states, acts) && PromisesKept(states, acts) && Leads(states[|acts|], v, t)
    requires u in states[|acts|].nodes && u != v && states[|acts|].nodes[u].term <= t
    ensures Continues(states, acts, states', acts') && Leads(states'[|acts'|], v, t) && u in states'[|acts'|].nodes
    ensures var n, n', f := states[|acts|].nodes[v], states'[|acts'|].nodes[v], states'[|acts'|].nodes[u];
      && n'.log == n.log + [x.(term := t)] && f.log == n'.log && f.term == t && f.committed >= n.committed
      && u in n'.prs && n'.prs[u].matched == |n'.log|
      && n'.prs[u].next == |n'.log| + 1 && n'.prs[u].state == Replicate
    ensures forall w | w != v && w != u :: Same(states[|acts|], w, states'[|acts'|])
  {
    hide Can, Healthy, Next, Init, TermAt, PromisesKept;
    var s := states[|acts|];
    RunsAreHealthy(states, acts, |acts|);
    CommittedWithin(s, v);
    var s1 := Proposes(s, v, t, x);
    CanFrame(s, {v}, s1);
    var s2 := CatchesUp(s1, v, u, t);
    CanMore(s, {v}, s1, {v, u}, s2);
    assert {v} + {v, u} == {v, u};
    CanFrame(s, {v, u}, s2);
    states', acts' := CanExtend(states, acts, {v, u}, s2);
  }

  /**
   * Every proposal can be committed: from every such state with a leader and a
   * quorum of voters that have not left its term behind, some continuation without
   * a crash ends with the proposal and everything before it in the logs of all of
   * the quorum, committed by all of them; nobody else has moved.
   */
  lemma QuorumCanCommit(states: seq<Sys>, acts: seq<Action>, v: NodeId, t: nat, q: set<NodeId>, x: Entry)
    returns (states': seq<Sys>, acts': seq<Action>)
    requires IsRun(states, acts) && PromisesKept(states, acts) && Leads(states[|acts|], v, t)
    requires q <= states[|acts|].cfg.IDs() && IsQuorum(states[|acts|].cfg, q)
    requires forall u | u in q :: u in states[|acts|].nodes ==> states[|acts|].nodes[u].term <= t
    ensures Continues(states, acts, states', acts')
    ensures Settles(states'[|acts'|], v, q, t, states[|acts|].nodes[v].log + [x.(term := t)])
    ensures forall w | w !in q && w != v :: Same(states[|acts|], w, states'[|acts'|])
  {
    hide Can, Healthy, Next, Init, TermAt, PromisesKept, IsQuorum, Settles;
    var s := states[|acts|];
    RunsAreHealthy(states, acts, |acts|);
    HasVoters(s);
    var s1 := Proposes(s, v, t, x);
    CanFrame(s, {v}, s1);
    LastOfMore(s.nodes[v].log, x.(term := t));
    var s2 := Settle(s1, v, q, t);
    CanMore(s, {v}, s1, q + {v}, s2);
    assert {v} + (q + {v}) == q + {v};
    CanFrame(s, q + {v}, s2);
    states', acts' := CanExtend(states, acts, q + {v}, s2);
  }

  /** Nobody has an entry of a term before entering it. */
  lemma TermsBehind(s: Sys, u: NodeId, t: nat, i: nat)
    requires Healthy(s) && u in s.nodes && s.nodes[u].term < t
    ensures TermAt(s.nodes[u].log, i) != t
  {
    hide EInv, HistL, AllPrsL, AcksL, NetL, DisksL, AllShaped, CommitRule.AllCommitting;
    hide TermsSeen, SafeCommit, RoleL, GoodLog;
    assert NodeL(s.h, s.nodes[u]);
  }

  /**
   * Recovery: from every state of every run whose crashes keep their promises, every
   * quorum of voters can elect one of its nodes in a new term and agree with it: some
   * continuation without a crash ends with all of the quorum having committed the
   * same log, which is what the new leader had and its first entry.
   */
  lemma QuorumCanRecover(states: seq<Sys>, acts: seq<Action>, q: set<NodeId>)
    returns (states': seq<Sys>, acts': seq<Action>, v: NodeId, t: nat)
    requires IsRun(states, acts) && PromisesKept(states, acts)
    requires q <= states[|acts|].cfg.IDs() && IsQuorum(states[|acts|].cfg, q)
    ensures Continues(states, acts, states', acts') && v in q && v in states[|acts|].nodes
    ensures states[|acts|].nodes[v].term < t
    ensures Settles(states'[|acts'|], v, q, t, states[|acts|].nodes[v].log + [EMPTY_ENTRY.(term := t)])
    ensures forall w | w !in q :: Same(states[|acts|], w, states'[|acts'|])
  {
    hide Can, Healthy, Next, Init, TermAt, PromisesKept, IsQuorum, Settles, Electable.AtLeast;
    var s := states[|acts|];
    RunsAreHealthy(states, acts, |acts|);
    HasVoters(s);
    HasInvariant(s);
    Electable.QuorumNotEmpty(s, q);
    v := Electable.MostUpToDate(s.nodes, q);
    t := Electable.HighestTerm(s.nodes, q);
    var s1 := Electable.CanWin(s, v, q, t);
    assert q + {v} == q;
    CanFrame(s, q, s1);
    CanStayHealthy(s, q, s1);
    LastOfMore(s.nodes[v].log, EMPTY_ENTRY.(term := t));
    forall u | u in q && u != v ensures Behind(s1, v, u, t) {
      TermsBehind(s, u, t, |s1.nodes[v].log|);
      PairOf(s1, v, u, t);
    }
    var s2 := Settle(s1, v, q, t);
    CanAgain(s, q, s1, s2);
    CanFrame(s, q, s2);
    states', acts' := CanExtend(states, acts, q, s2);
  }
}
