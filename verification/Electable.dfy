// Elections can always be won: of any two nodes one grants the other's request, so
// every quorum has a node that the others elect, from every state of every run.
module Electable {
  import opened Quorum
  import opened PlainLog
  import opened RaftNode
  import opened Protocol
  import opened Election
  import opened Delivery
  import opened Reelection
  import opened Paths

  // ---------------------------------------------------------------------------
  // Who is up-to-date
  // ---------------------------------------------------------------------------

  /** a is at least as up-to-date as b. */
  predicate AtLeast(a: Log, b: Log) { IsUpToDate(b, |a|, LastTerm(a)) }

  /** The voter casts its vote of the new term for the candidate: that is what it hands to its keeper. */
  predicate Grants(f: Node, m: Msg)
    requires m.Vote? && m.term > f.term
  {
    HandleVote(f, m).hard == [HardState(m.term, m.from)]
  }

  /**
   * A request of a new term is granted exactly when the candidate's log is at least
   * as up-to-date; a granted vote is answered only after the disk has it, a refusal at once.
   */
  lemma GrantsIff(f: Node, m: Msg, log: Log)
    requires m.Vote? && m.term > f.term && m.from != NONE && m.index == |log| && m.logTerm == LastTerm(log)
    ensures Grants(f, m) <==> AtLeast(log, f.log)
    ensures HandleVote(f, m).msgs == if Grants(f, m) then {} else {VoteResp(f.id, m.from, m.term, true)}
  {
    hide LastTerm;
  }

  /** Of any two nodes that ask each other for a vote in a new term, at least one gets it. */
  lemma OneGrants(f: Node, g: Node, m: Msg, m': Msg)
    requires m.Vote? && m.term > f.term && m.from == g.id && m.index == |g.log| && m.logTerm == LastTerm(g.log)
    requires m'.Vote? && m'.term > g.term && m'.from == f.id && m'.index == |f.log| && m'.logTerm == LastTerm(f.log)
    ensures Grants(f, m) || Grants(g, m')
  {
    hide LastTerm;
  }

  lemma AtLeastTrans(a: Log, b: Log, c: Log)
    requires AtLeast(a, b) && AtLeast(b, c)
    ensures AtLeast(a, c)
  {
  }

  /** Every quorum, like every set of nodes, has one that is at least as up-to-date as all of it. */
  lemma MostUpToDate(nodes: map<NodeId, Node>, q: set<NodeId>) returns (v: NodeId)
    requires q != {} && q <= nodes.Keys
    ensures v in q && forall u | u in q :: AtLeast(nodes[v].log, nodes[u].log)
    decreases q
  {
    hide LastTerm;
    v :| v in q;
    if q != {v} {
      var w := MostUpToDate(nodes, q - {v});
      if !AtLeast(nodes[v].log, nodes[w].log) {
        v := w;
      } else {
        forall u | u in q - {v} ensures AtLeast(nodes[v].log, nodes[u].log) {
          AtLeastTrans(nodes[v].log, nodes[w].log, nodes[u].log);
        }
      }
    }
  }

  // ---------------------------------------------------------------------------
  // Votes reach the disk
  // ---------------------------------------------------------------------------

  lemma OneWrite(s: Sys, u: NodeId) returns (s': Sys)
    requires EInv(s) && u in s.nodes && s.disks[u].queue != []
    ensures Can(s, {u}, s') && EInv(s') && s'.nodes == s.nodes && s'.net == s.net && s'.cfg == s.cfg
    ensures u in s'.disks && |s'.disks[u].queue| < |s.disks[u].queue|
  {
    hide Can;
    s' := Persist(s, u);
    CanStep(s, PersistState(u), s');
    PersistE(s, u);
  }

  /** The keeper works off the queue; then the node's hard state is on its disk. */
  lemma {:induction false} AllWritten(s: Sys, u: NodeId) returns (s': Sys)
    requires EInv(s) && u in s.nodes
    ensures Can(s, {u}, s') && EInv(s') && s'.nodes == s.nodes && s'.net == s.net && s'.cfg == s.cfg
    ensures IsDurable(s'.h, u, Hard(s.nodes[u]))
    decreases |s.disks[u].queue|
  {
    hide Can, HistE, NodesE, NetE;
    if s.disks[u].queue == [] {
      CanStay(s, {u});
      assert DiskE(s.h, u, s.nodes[u], s.disks[u]);
      s' := s;
    } else {
      var mid := OneWrite(s, u);
      s' := AllWritten(mid, u);
      CanAgain(s, {u}, mid, s');
    }
  }

  // ---------------------------------------------------------------------------
  // Grants
  // ---------------------------------------------------------------------------

  /** The request that v's campaign in t sends to u, and u's readiness to grant it. */
  predicate Willing(s: Sys, u: NodeId, v: NodeId, t: nat, log: Log) {
    && u in s.nodes && u in s.disks && u != v && s.nodes[u].term < t && AtLeast(log, s.nodes[u].log)
    && Vote(v, u, t, |log|, LastTerm(log)) in s.net
  }

  predicate HasGranted(s: Sys, u: NodeId, v: NodeId, t: nat, f: Node) {
    && u in s.nodes && s.nodes[u].term == t && s.nodes[u].log == f.log
    && s.nodes[u].committed == f.committed && VoteResp(u, v, t, false) in s.net
  }

  lemma TakesRequest(s: Sys, u: NodeId, v: NodeId, t: nat, log: Log) returns (s': Sys)
    requires EInv(s) && Willing(s, u, v, t, log) && v != NONE
    ensures Can(s, {u}, s') && u in s'.nodes && s'.nodes[u].id == u && Hard(s'.nodes[u]) == HardState(t, v)
    ensures s'.nodes[u].role == Follower && s'.nodes[u].log == s.nodes[u].log
    ensures s'.nodes[u].committed == s.nodes[u].committed
  {
    hide Can, Observe, LastTerm, IsUpToDate, HistE, NetE, DisksE;
    assert NodeE(s.h, u, s.nodes[u]);
    s' := CanEmit(s, RecvVote(u, Vote(v, u, t, |log|, LastTerm(log))));
  }

  lemma Answers(s: Sys, u: NodeId, v: NodeId, t: nat) returns (s': Sys)
    requires u in s.nodes && u in s.disks && s.nodes[u].id == u && Hard(s.nodes[u]) == HardState(t, v)
    requires s.nodes[u].role == Follower && u != v && v != NONE && IsDurable(s.h, u, HardState(t, v))
    ensures Can(s, {u}, s') && u in s'.nodes && s'.nodes[u] == s.nodes[u].(voted := true)
    ensures VoteResp(u, v, t, false) in s'.net
  {
    hide Can, Observe;
    s' := CanEmit(s, StateStatus(u, HardState(t, v)));
  }

  /** A willing voter takes the request, its disk takes the vote, and then it answers. */
  lemma GrantOne(s: Sys, u: NodeId, v: NodeId, t: nat, log: Log) returns (s': Sys)
    requires EInv(s) && Willing(s, u, v, t, log) && v != NONE
    ensures Can(s, {u}, s') && EInv(s') && HasGranted(s', u, v, t, s.nodes[u])
  {
    hide Can, EInv, LastTerm, AtLeast;
    var s1 := TakesRequest(s, u, v, t, log);
    CanKeepE(s, {u}, s1);
    var s2 := AllWritten(s1, u);
    HasDisk(s2, u);
    s' := Answers(s2, u, v, t);
    CanAgain(s, {u}, s1, s2);
    CanAgain(s, {u}, s2, s');
    CanKeepE(s, {u}, s');
  }

  lemma HasDisk(s: Sys, u: NodeId)
    requires EInv(s) && u in s.nodes
    ensures u in s.disks && s.nodes[u].id == u && u != NONE
  {
    assert NodeE(s.h, u, s.nodes[u]);
  }

  /** All of them, one after the other. */
  lemma {:induction false} GrantAll(s: Sys, todo: set<NodeId>, v: NodeId, t: nat, log: Log) returns (s': Sys)
    requires EInv(s) && v != NONE && forall u | u in todo :: Willing(s, u, v, t, log)
    ensures Can(s, todo, s') && EInv(s')
    ensures forall u | u in todo :: u in s.nodes && HasGranted(s', u, v, t, s.nodes[u])
    decreases todo
  {
    hide Can, EInv, LastTerm, AtLeast;
    if todo == {} {
      CanStay(s, todo);
      s' := s;
    } else {
      var u :| u in todo;
      var mid := GrantOne(s, u, v, t, log);
      CanFrame(s, {u}, mid);
      var rest := todo - {u};
      s' := GrantAll(mid, rest, v, t, log);
      CanFrame(mid, rest, s');
      CanMore(s, {u}, mid, rest, s');
      assert {u} + rest == todo;
    }
  }

  // ---------------------------------------------------------------------------
  // Winning
  // ---------------------------------------------------------------------------

  lemma StepsDown(s: Sys, v: NodeId) returns (s': Sys)
    requires v in s.nodes && v in s.disks
    ensures Can(s, {v}, s') && v in s'.nodes && v in s'.disks && s'.nodes[v].id == s.nodes[v].id
    ensures s'.nodes[v].role != Leader && s'.nodes[v].term == s.nodes[v].term && s'.nodes[v].log == s.nodes[v].log
  {
    hide Can, Observe;
    s' := CanEmit(s, StepDown(v));
  }

  /** Campaigning up to a term above all others, v asks everybody for their vote. */
  lemma AsksAll(s: Sys, v: NodeId, t: nat) returns (s': Sys)
    requires EInv(s) && v in s.nodes && s.nodes[v].term < t
    ensures Can(s, {v}, s') && EInv(s') && Asked(s', v, t, s.nodes[v].log)
  {
    hide Can, EInv, Asked, Reaches;
    HasDisk(s, v);
    var s1 := StepsDown(s, v);
    var acts;
    s', acts := Climb(s1, v, t);
    CanActs(s1, acts, {v}, s');
    CanAgain(s, {v}, s1, s');
    CanKeepE(s, {v}, s');
  }

  lemma OwnVoteOutcome(cfg: JointConfig, n: Node)
    requires n.role == Candidate && n.votes == map[] && n.id != NONE
    ensures var votes := map[n.id := true];
      HandleStatePersisted(cfg, n, HardState(n.term, n.id)) ==
      Quiet(if JointVote(cfg, votes) == VoteWon then BecomeLeader(n.(votes := votes)) else n.(votes := votes))
  {
    hide JointVote, BecomeLeader;
    assert RecordVote(map[], n.id, true) == map[n.id := true];
  }

  /** v's own vote reaches its disk and is counted. */
  lemma CountsOwnVote(s: Sys, v: NodeId, t: nat, log: Log) returns (s': Sys)
    requires EInv(s) && Asked(s, v, t, log)
    ensures Can(s, {v}, s')
    ensures Elected(s', v, t, log) ||
            (&& Running(s', v, t, log) && s'.nodes[v].votes == map[v := true]
             && JointVote(s.cfg, map[v := true]) != VoteWon)
  {
    hide Can, EInv, Observe, JointVote, HandleStatePersisted, BecomeLeader;
    HasDisk(s, v);
    var s1 := AllWritten(s, v);
    HasDisk(s1, v);
    OwnVoteOutcome(s1.cfg, s1.nodes[v]);
    WinState(s1.nodes[v].(votes := map[v := true]));
    s' := CanEmit(s1, StateStatus(v, HardState(t, v)));
    CanAgain(s, {v}, s1, s');
  }

  /** With the answers of a quorum, its own vote included, v wins. */
  lemma CountsAll(s: Sys, v: NodeId, t: nat, log: Log, q: set<NodeId>) returns (s': Sys)
    requires EInv(s) && Asked(s, v, t, log) && IsQuorum(s.cfg, q)
    requires forall u | u in q && u != v :: VoteResp(u, v, t, false) in s.net
    ensures Can(s, {v}, s') && Elected(s', v, t, log)
  {
    hide Can, EInv, Reaches, JointVote, IsQuorum;
    var s1 := CountsOwnVote(s, v, t, log);
    CanFrame(s, {v}, s1);
    if Elected(s1, v, t, log) {
      s' := s1;
    } else {
      YesOnly(s.cfg, map[v := true], q);
      var acts;
      s', acts := Collect(s1, v, t, log, q);
      CanActs(s1, acts, {v}, s');
      CanAgain(s, {v}, s1, s');
    }
  }

  /** v has won a new term with the votes of q, whose other nodes have kept their logs. */
  ghost predicate WonBy(s: Sys, v: NodeId, q: set<NodeId>, t: nat, s': Sys)
    requires v in s.nodes && q <= s.nodes.Keys
  {
    && Elected(s', v, t, s.nodes[v].log)
    && forall u | u in q && u != v :: u in s'.nodes && s'.nodes[u].term == t && s'.nodes[u].log == s.nodes[u].log
  }

  /** A node that is at least as up-to-date as a quorum can win any term above theirs. */
  lemma CanWin(s: Sys, v: NodeId, q: set<NodeId>, t: nat) returns (s': Sys)
    requires EInv(s) && v in s.nodes && s.nodes[v].term < t && q <= s.cfg.IDs() && s.cfg.IDs() <= s.nodes.Keys
    requires IsQuorum(s.cfg, q)
    requires forall u | u in q && u != v :: s.nodes[u].term < t && AtLeast(s.nodes[v].log, s.nodes[u].log)
    ensures Can(s, q + {v}, s') && WonBy(s, v, q, t, s')
  {
    hide Can, EInv, IsQuorum, AtLeast, LastTerm;
    var log, others := s.nodes[v].log, q - {v};
    HasDisk(s, v);
    var s1 := AsksAll(s, v, t);
    CanFrame(s, {v}, s1);
    forall u | u in others ensures Willing(s1, u, v, t, log) { HasDisk(s1, u); }
    var s2 := GrantAll(s1, others, v, t, log);
    CanFrame(s1, others, s2);
    assert Asked(s2, v, t, log);
    s' := CountsAll(s2, v, t, log, q);
    CanFrame(s2, {v}, s');
    CanMore(s, {v}, s1, others, s2);
    CanMore(s, {v} + others, s2, {v}, s');
    assert {v} + others + {v} == q + {v};
  }

  // ---------------------------------------------------------------------------
  // The theorems
  // ---------------------------------------------------------------------------

  lemma HighestTerm(nodes: map<NodeId, Node>, q: set<NodeId>) returns (t: nat)
    requires q <= nodes.Keys
    ensures forall u | u in q :: nodes[u].term < t
    decreases q
  {
    if q == {} {
      t := 0;
    } else {
      var u :| u in q;
      t := HighestTerm(nodes, q - {u});
      t := Max(t, nodes[u].term + 1);
    }
  }

  /**
   * From every state of every run, whatever crashes it had, every quorum of voters
   * can elect one of its nodes: some continuation without a crash ends with that
   * node leading a new term, with the log it had and its first entry.
   */
  lemma QuorumCanElect(states: seq<Sys>, acts: seq<Action>, q: set<NodeId>)
    returns (states': seq<Sys>, acts': seq<Action>, v: NodeId, t: nat)
    requires IsRun(states, acts) && q <= states[|acts|].cfg.IDs() && IsQuorum(states[|acts|].cfg, q)
    ensures Continues(states, acts, states', acts')
    ensures v in q && q <= states[|acts|].nodes.Keys && forall u | u in q :: states[|acts|].nodes[u].term < t
    ensures WonBy(states[|acts|], v, q, t, states'[|acts'|])
  {
    hide Can, EInv, Next, IsQuorum, AtLeast, WonBy;
    var s := states[|acts|];
    RunKeepsE(states, acts, |acts|, |acts|);
    VotersExist(states, acts, |acts|);
    QuorumNotEmpty(s, q);
    v := MostUpToDate(s.nodes, q);
    t := HighestTerm(s.nodes, q);
    var s' := CanWin(s, v, q, t);
    states', acts' := CanExtend(states, acts, q + {v}, s');
  }

  lemma QuorumNotEmpty(s: Sys, q: set<NodeId>)
    requires EInv(s) && IsQuorum(s.cfg, q)
    ensures q != {}
  {
    QuorumInhabited(s.cfg, q);
  }

  lemma {:induction false} VotersExist(states: seq<Sys>, acts: seq<Action>, i: nat)
    requires IsRun(states, acts) && i < |states|
    ensures states[i].cfg.IDs() <= states[i].nodes.Keys
  {
    hide Next;
    if i > 0 {
      VotersExist(states, acts, i - 1);
      StepFrame(states[i-1], acts[i-1], states[i], 0);
    }
  }
}
