// Steps that leave term and log alone: what they owe is mostly bookkeeping.
module CalmSteps {
  import opened Quorum
  import opened RaftNode
  import opened Protocol
  import opened Election
  import opened History
  import opened Replication
  import opened Lift

  /** h with more acknowledgements and nothing else. */
  function WithAcks(h: Hist, acks: set<Ack>): Hist { h.(acks := h.acks + acks) }

  lemma SameTermsOk(h: Hist, h': Hist)
    requires TermsOk(h) && h'.ldr == h.ldr && h'.llog == h.llog && h'.base == h.base && GrowVotes(h, h')
    ensures TermsOk(h')
  {
    forall t | t in h'.llog ensures TermOk(h', t) {
      assert TermOk(h, t);
      GoodLogGrows(h, h', h.llog[t]);
    }
  }

  lemma WithAcksGrows(h: Hist, acks: set<Ack>)
    requires TermsOk(h)
    ensures Grow(h, WithAcks(h, acks)) && TermsOk(WithAcks(h, acks))
  {
    SameTermsOk(h, WithAcks(h, acks));
  }

  /** Same term and log; no new role but follower or pre-candidate; nothing newly committed. */
  predicate CalmNode(n: Node, n': Node) {
    && n'.id == n.id && n'.term == n.term && n'.log == n.log && n'.committed == n.committed
    && n'.offset >= 1 && (n'.receiving ==> n.receiving)
    && (n'.role == Candidate ==> n.role == Candidate)
    && (n'.role == Leader ==> n.role == Leader && n'.termStart == n.termStart)
  }

  lemma CalmNodeL(h: Hist, h': Hist, n: Node, n': Node)
    requires Grow(h, h') && NodeL(h, n) && CalmNode(n, n')
    requires h'.llog == h.llog && h'.ldr == h.ldr && h'.ballots == h.ballots && h'.cands == h.cands
    ensures NodeL(h', n') && Advance(h', n, n')
  {
    GoodLogGrows(h, h', n.log);
    SafeCommitReach(h, n.term, n.log, n.committed);
    SafeCommitGrows(h, h', n.term, n.term, n.log, n.log, n.committed);
  }

  lemma CalmObserve(h: Hist, n: Node, out: Out)
    requires NodeE(h, n.id, n) && NodeL(h, n) && CalmNode(n, out.node)
    ensures Observe(h, n, out) == WithAcks(h, NewAcks(out))
  {
    if n.role == Leader {
      assert h.ldr[n.term := n.id] == h.ldr;
      assert h.llog[n.term := n.log] == h.llog;
    }
  }

  /** New acknowledgements of the node's current term that its log supports. */
  ghost predicate AcksHold(h: Hist, n: Node, acks: set<Ack>) {
    forall a | a in acks :: a.node == n.id && a.term == n.term && AckL(h, a, n)
  }

  lemma AcksHoldGrow(h: Hist, h': Hist, n: Node, n': Node, acks: set<Ack>)
    requires TermsOk(h) && GrowTerms(h, h') && AcksHold(h, n, acks) && Advance(h', n, n') && n'.term == n.term
    ensures AcksHold(h', n', acks)
  {
    forall a | a in acks ensures AckL(h', a, n') { AckGrows(h, h', a, n, n'); }
  }

  lemma CalmStep(cfg: JointConfig, h: Hist, nodes: map<NodeId, Node>, n: Node, out: Out)
    requires TermsOk(h) && NodeE(h, n.id, n) && NodeL(h, n) && CalmNode(n, out.node)
    requires AcksHold(h, n, NewAcks(out))
    requires forall hs | hs in out.hard :: CastFor(h, n.id, hs)
    requires forall m | m in out.msgs :: MsgL(WithAcks(h, NewAcks(out)), nodes[n.id := out.node], m)
    requires PrsL(WithAcks(h, NewAcks(out)), out.node, nodes[n.id := out.node])
    ensures LocalHist(cfg, h, n, out, Observe(h, n, out))
    ensures LocalNode(Observe(h, n, out), nodes[n.id := out.node], n, out)
  {
    var h' := WithAcks(h, NewAcks(out));
    CalmObserve(h, n, out);
    WithAcksGrows(h, NewAcks(out));
    CalmNodeL(h, h', n, out.node);
    AcksHoldGrow(h, h', n, out.node, NewAcks(out));
  }
}

// The role and voting steps that stay within a term and win nothing.
module VotingSteps {
  import opened Quorum
  import opened RaftNode
  import opened Protocol
  import opened Election
  import opened History
  import opened Replication
  import opened Lift
  import opened CalmSteps

  /** Everything the step of v owes the invariant. */
  ghost predicate Owed(s: Sys, v: NodeId, out: Out)
    requires v in s.nodes
  {
    && LocalHist(s.cfg, s.h, s.nodes[v], out, Observe(s.h, s.nodes[v], out))
    && LocalNode(Observe(s.h, s.nodes[v], out), s.nodes[v := out.node], s.nodes[v], out)
  }

  /** What a step lemma may use about the stepping node. */
  ghost predicate Here(s: Sys, v: NodeId) {
    && v in s.nodes && v in s.disks && TermsOk(s.h)
    && NodeE(s.h, v, s.nodes[v]) && NodeL(s.h, s.nodes[v])
  }

  /** The vote a node holds in memory is one it has cast. */
  lemma MemoryCast(h: Hist, v: NodeId, n: Node, d: Disk)
    requires DurableOk(h) && DiskE(h, v, n, d) && DiskL(h, v, d)
    ensures CastFor(h, v, Hard(n))
  {
    if d.queue == [] {
      assert CastFor(h, v, HardState(d.durable.term, h.durable[(v, d.durable.term)]));
    } else {
      assert Chain(d)[|d.queue|] == d.queue[|d.queue| - 1];
    }
  }

  /** A calm step of a node that is not, or no longer, leader and acknowledges nothing. */
  lemma CalmFollower(s: Sys, v: NodeId, out: Out)
    requires Here(s, v) && CalmNode(s.nodes[v], out.node) && out.node.role != Leader
    requires forall m | m in out.msgs :: m.VoteResp?
    requires forall hs | hs in out.hard :: CastFor(s.h, v, hs)
    ensures Owed(s, v, out)
  {
    assert NewAcks(out) == {};
    CalmStep(s.cfg, s.h, s.nodes, s.nodes[v], out);
  }

  lemma PrsSame(h: Hist, h': Hist, nodes: map<NodeId, Node>, n: Node, n': Node)
    requires TermsOk(h) && TermsOk(h') && Grow(h, h') && n.term in h.llog && n.term in h.base && n.role == Leader
    requires forall u | u in nodes :: LogL(h, nodes[u])
    requires n.id in nodes && nodes[n.id] == n && PrsL(h, n, nodes)
    requires CalmNode(n, n') && n'.prs == n.prs
    ensures PrsL(h', n', nodes[n.id := n'])
  {
    forall u | u in nodes ensures Advance(h', nodes[u], nodes[n.id := n'][u]) {}
    PrsCarry(h, h', nodes, nodes[n.id := n'], n, n');
  }

  lemma SelfAckHolds(s: Sys, v: NodeId, n': Node)
    requires Here(s, v) && AcksL(s) && PrsL(s.h, s.nodes[v], s.nodes) && s.nodes[v].role == Leader
    requires n'.id == v && n'.term == s.nodes[v].term && n'.prs == s.nodes[v].prs
    ensures AcksHold(s.h, s.nodes[v], SelfAck(n'))
  {
    var n := s.nodes[v];
    if v in n.prs && n.prs[v].matched > 0 {
      assert PrL(s.h, n, v, n.prs[v], n);
    }
  }

  /** A step at which a leader changes nothing that the invariant reads. */
  lemma IdleLeader(s: Sys, v: NodeId, out: Out)
    requires Here(s, v) && NodesL(s) && AcksL(s) && PrsL(s.h, s.nodes[v], s.nodes)
    requires s.nodes[v].role == Leader && CalmNode(s.nodes[v], out.node) && out.node.prs == s.nodes[v].prs
    requires out.hard == [] && forall m | m in out.msgs :: m.VoteResp?
    ensures Owed(s, v, out)
  {
    var n, h' := s.nodes[v], WithAcks(s.h, NewAcks(out));
    assert AcksIn(out.msgs) == {};
    SelfAckHolds(s, v, out.node);
    assert AcksHold(s.h, n, NewAcks(out));
    WithAcksGrows(s.h, NewAcks(out));
    PrsSame(s.h, h', s.nodes, n, out.node);
    CalmStep(s.cfg, s.h, s.nodes, n, out);
  }
}
