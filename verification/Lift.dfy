// From what a step does at one node to the whole cluster.
module Lift {
  import opened Quorum
  import opened RaftNode
  import opened Protocol
  import opened Election
  import opened History
  import opened Replication

  function NewAcks(out: Out): set<Ack> { AcksIn(out.msgs) + SelfAck(out.node) }

  /** What a node step owes the history. */
  ghost predicate LocalHist(cfg: JointConfig, h: Hist, n: Node, out: Out, h': Hist) {
    var n' := out.node;
    && Grow(h, h') && TermsOk(h')
    && (n'.vote != NONE && n'.term > n.term ==> (n.id, n'.term) in h'.ballots && BallotOk(h', n.id, n'.term))
    && (forall a | a in NewAcks(out) :: a.node == n.id && a.term == n'.term && AckL(h', a, n'))
    && (n'.role == Leader && n'.committed > n.committed ==> ChoiceOk(cfg, h', Choice(n'.term, n'.committed)))
  }

  /** What a node step owes about the node, its peers' view of it, and what it sends. */
  ghost predicate LocalNode(h': Hist, nodes': map<NodeId, Node>, n: Node, out: Out) {
    var n' := out.node;
    && Advance(h', n, n') && NodeL(h', n')
    && PrsL(h', n', nodes')
    && (forall m | m in out.msgs :: MsgL(h', nodes', m))
    && (forall hs | hs in out.hard :: CastFor(h', n.id, hs))
  }

  lemma LiftBallots(h: Hist, n: Node, out: Out, h': Hist)
    requires h' == Observe(h, n, out) && BallotsOk(h) && Grow(h, h') && out.node.id == n.id
    requires out.node.vote != NONE && out.node.term > n.term ==>
               (n.id, out.node.term) in h'.ballots && BallotOk(h', n.id, out.node.term)
    ensures BallotsOk(h')
  {
    forall u, t | (u, t) in h'.ballots ensures t >= 1 && BallotOk(h', u, t) {
      if (u, t) in h.ballots { BallotGrows(h, h', u, t); }
    }
  }

  lemma LiftAckVote(h: Hist, n: Node, out: Out, h': Hist, a: Ack)
    requires h' == Observe(h, n, out) && TermsOk(h) && AcksOk(h) && Grow(h, h') && out.node.id == n.id
    requires a in h.acks && a.index > 0 && (a.node == n.id ==> AckL(h, a, n))
    ensures a.term in h'.llog && a.index <= |h'.llog[a.term]| && AckVoteOk(h', a)
  {
    hide GoodLog, TermsBelow, Kept, TermsOk;
    assert AckVoteOk(h, a);
    forall t | (a.node, t) in h'.ballots && t > a.term
      ensures t >= 1 && KeptUpTo(h', a.term, a.index, h'.ballots[(a.node, t)].log, t - 1)
    {
      if (a.node, t) in h.ballots {
        KeptGrows(h, h', a.term, a.index, h.ballots[(a.node, t)].log, t - 1);
      } else {
        KeptGrows(h, h', a.term, a.index, n.log, n.term);
        KeptHigher(h', a.term, a.index, n.log, n.term, t - 1);
      }
    }
  }

  lemma LiftAcks(cfg: JointConfig, h: Hist, n: Node, out: Out, h': Hist)
    requires h' == Observe(h, n, out) && TermsOk(h) && AcksOk(h)
    requires LocalHist(cfg, h, n, out, h') && out.node.id == n.id && TermsSeen(h', out.node)
    requires forall a | a in h.acks && a.node == n.id :: AckL(h, a, n)
    ensures AcksOk(h')
  {
    forall a | a in h'.acks && a.index > 0
      ensures a.term in h'.llog && a.index <= |h'.llog[a.term]| && AckVoteOk(h', a)
    {
      if a in h.acks { LiftAckVote(h, n, out, h', a); }
    }
  }

  lemma LiftChosen(cfg: JointConfig, h: Hist, n: Node, out: Out, h': Hist)
    requires h' == Observe(h, n, out) && ChosenOk(cfg, h) && LocalHist(cfg, h, n, out, h')
    ensures ChosenOk(cfg, h')
  {
    forall x | x in h'.chosen ensures ChoiceOk(cfg, h', x) {
      if x in h.chosen { HasAckGrows(cfg, h, h', x); }
    }
  }

  lemma LiftHist(cfg: JointConfig, h: Hist, n: Node, out: Out, h': Hist)
    requires h' == Observe(h, n, out) && HistL(cfg, h) && HistE(cfg, h')
    requires LocalHist(cfg, h, n, out, h') && out.node.id == n.id && TermsSeen(h', out.node)
    requires forall a | a in h.acks && a.node == n.id :: AckL(h, a, n)
    ensures HistL(cfg, h')
  {
    LiftBallots(h, n, out, h');
    LiftAcks(cfg, h, n, out, h');
    LiftChosen(cfg, h, n, out, h');
    DurableGrows(h, h');
  }

  lemma ObserveOnlyBy(h: Hist, n: Node, out: Out)
    requires out.node.id == n.id
    ensures OnlyBy(h, Observe(h, n, out), n.id)
  {
  }

  lemma Stays(h': Hist, n: Node)
    ensures Advance(h', n, n)
  {
  }

  /** All nodes have advanced when one has stepped. */
  lemma NodesAdvance(s: Sys, v: NodeId, s': Sys)
    requires v in s.nodes && v in s'.nodes && s'.nodes == s.nodes[v := s'.nodes[v]]
    requires NodesL(s) && Advance(s'.h, s.nodes[v], s'.nodes[v])
    ensures s'.nodes.Keys == s.nodes.Keys
    ensures forall u | u in s.nodes :: LogL(s.h, s.nodes[u]) && Advance(s'.h, s.nodes[u], s'.nodes[u])
  {
    forall u | u in s.nodes ensures LogL(s.h, s.nodes[u]) && Advance(s'.h, s.nodes[u], s'.nodes[u]) {
      assert NodeL(s.h, s.nodes[u]);
      if u != v { Stays(s'.h, s.nodes[u]); }
    }
  }

  /** The step of one node, seen from every other part of the cluster. */
  ghost predicate Stepped(s: Sys, v: NodeId, s': Sys) {
    && v in s.nodes && s'.nodes.Keys == s.nodes.Keys
    && (forall u | u in s.nodes && u != v :: s'.nodes[u] == s.nodes[u])
    && (forall u | u in s.nodes :: LogL(s.h, s.nodes[u]) && Advance(s'.h, s.nodes[u], s'.nodes[u]))
    && TermsOk(s.h) && TermsOk(s'.h) && Grow(s.h, s'.h) && OnlyBy(s.h, s'.h, v)
  }

  lemma LiftNodes(s: Sys, v: NodeId, s': Sys)
    requires Stepped(s, v, s') && NodesE(s) && NodesL(s) && NodeL(s'.h, s'.nodes[v])
    ensures NodesL(s')
  {
    forall u | u in s'.nodes ensures NodeL(s'.h, s'.nodes[u]) {
      assert NodeE(s.h, u, s.nodes[u]);
      if u != v { OtherNodeGrows(s.h, s'.h, v, s.nodes[u]); }
    }
  }

  lemma LiftPrs(s: Sys, v: NodeId, s': Sys)
    requires Stepped(s, v, s') && NodesL(s) && AllPrsL(s) && PrsL(s'.h, s'.nodes[v], s'.nodes)
    ensures AllPrsL(s')
  {
    forall u | u in s'.nodes ensures PrsL(s'.h, s'.nodes[u], s'.nodes) {
      if u != v { LiftPrsOf(s, v, s', u); }
    }
  }

  lemma LiftPrsOf(s: Sys, v: NodeId, s': Sys, u: NodeId)
    requires Stepped(s, v, s') && u in s.nodes && u != v
    requires NodeL(s.h, s.nodes[u]) && PrsL(s.h, s.nodes[u], s.nodes)
    ensures PrsL(s'.h, s.nodes[u], s'.nodes)
  {
    var n := s.nodes[u];
    if n.role == Leader && n.term in s'.h.llog && n.term in s'.h.base {
      forall j | j in n.prs && j in s'.nodes ensures PrL(s'.h, n, j, n.prs[j], s'.nodes[j]) {
        PrGrows(s.h, s'.h, n, j, n.prs[j], s.nodes[j], s'.nodes[j]);
      }
    }
  }

  lemma LiftNet(s: Sys, v: NodeId, msgs: set<Msg>, s': Sys)
    requires Stepped(s, v, s') && NetL(s) && s'.net == s.net + msgs
    requires forall m | m in msgs :: MsgL(s'.h, s'.nodes, m)
    ensures NetL(s')
  {
    forall m | m in s'.net ensures MsgL(s'.h, s'.nodes, m) {
      if m in s.net { MsgGrows(s.h, s'.h, s.nodes, s'.nodes, m); }
    }
  }

  lemma LiftAcksL(s: Sys, v: NodeId, new_: set<Ack>, s': Sys)
    requires Stepped(s, v, s') && AcksL(s) && s'.h.acks == s.h.acks + new_
    requires forall a | a in new_ :: a.node == v && AckL(s'.h, a, s'.nodes[v])
    ensures AcksL(s')
  {
    forall a | a in s'.h.acks && a.node in s'.nodes ensures AckL(s'.h, a, s'.nodes[a.node]) {
      if a in s.h.acks { AckGrows(s.h, s'.h, a, s.nodes[a.node], s'.nodes[a.node]); }
    }
  }

  lemma LiftDisks(s: Sys, v: NodeId, out: Out)
    requires v in s.nodes && v in s.disks && DisksL(s) && GrowVotes(s.h, Observe(s.h, s.nodes[v], out))
    requires forall hs | hs in out.hard :: CastFor(Observe(s.h, s.nodes[v], out), v, hs)
    ensures DisksL(Emit(s, v, out))
  {
    var s' := Emit(s, v, out);
    forall u | u in s'.disks ensures DiskL(s'.h, u, s'.disks[u]) {
      assert DiskL(s.h, u, s.disks[u]);
      forall hs | hs in s'.disks[u].queue ensures CastFor(s'.h, u, hs) {
        if hs in s.disks[u].queue { assert CastFor(s.h, u, hs); }
      }
    }
  }

  lemma EmitSteps(s: Sys, v: NodeId, out: Out)
    requires v in s.nodes && v in s.disks && NodesL(s) && NodeE(s.h, v, s.nodes[v]) && TermsOk(s.h)
    requires LocalHist(s.cfg, s.h, s.nodes[v], out, Observe(s.h, s.nodes[v], out))
    requires Advance(Observe(s.h, s.nodes[v], out), s.nodes[v], out.node)
    ensures Stepped(s, v, Emit(s, v, out))
  {
    hide TermOk, PrL, SafeCommit, BallotOk, AckL, ChoiceOk, Extends, RoleL;
    ObserveOnlyBy(s.h, s.nodes[v], out);
    NodesAdvance(s, v, Emit(s, v, out));
  }

  lemma EmitHist(s: Sys, v: NodeId, out: Out)
    requires v in s.nodes && v in s.disks && HistL(s.cfg, s.h) && AcksL(s) && NodeE(s.h, v, s.nodes[v])
    requires HistE(s.cfg, Observe(s.h, s.nodes[v], out))
    requires LocalHist(s.cfg, s.h, s.nodes[v], out, Observe(s.h, s.nodes[v], out))
    requires TermsSeen(Observe(s.h, s.nodes[v], out), out.node) && out.node.id == v
    ensures HistL(s.cfg, Emit(s, v, out).h)
  {
    LiftHist(s.cfg, s.h, s.nodes[v], out, Observe(s.h, s.nodes[v], out));
  }

  lemma LiftNodesAndPrs(s: Sys, v: NodeId, out: Out)
    requires v in s.nodes && v in s.disks && Stepped(s, v, Emit(s, v, out))
    requires NodesE(s) && NodesL(s) && AllPrsL(s)
    requires LocalNode(Observe(s.h, s.nodes[v], out), s.nodes[v := out.node], s.nodes[v], out)
    ensures NodesL(Emit(s, v, out)) && AllPrsL(Emit(s, v, out))
  {
    LiftNodes(s, v, Emit(s, v, out));
    LiftPrs(s, v, Emit(s, v, out));
  }

  lemma LiftNetAndAcks(s: Sys, v: NodeId, out: Out)
    requires v in s.nodes && v in s.disks && Stepped(s, v, Emit(s, v, out))
    requires NetL(s) && AcksL(s) && NodeE(s.h, v, s.nodes[v])
    requires LocalHist(s.cfg, s.h, s.nodes[v], out, Observe(s.h, s.nodes[v], out))
    requires LocalNode(Observe(s.h, s.nodes[v], out), s.nodes[v := out.node], s.nodes[v], out)
    ensures NetL(Emit(s, v, out)) && AcksL(Emit(s, v, out))
  {
    LiftNet(s, v, out.msgs, Emit(s, v, out));
    assert Emit(s, v, out).h.acks == s.h.acks + NewAcks(out);
    LiftAcksL(s, v, NewAcks(out), Emit(s, v, out));
  }

  lemma LiftL(s: Sys, v: NodeId, out: Out)
    requires LInv(s) && v in s.nodes && EInv(Emit(s, v, out))
    requires LocalHist(s.cfg, s.h, s.nodes[v], out, Observe(s.h, s.nodes[v], out))
    requires LocalNode(Observe(s.h, s.nodes[v], out), s.nodes[v := out.node], s.nodes[v], out)
    ensures LInv(Emit(s, v, out))
  {
    assert NodeE(s.h, v, s.nodes[v]);
    EmitSteps(s, v, out);
    EmitHist(s, v, out);
    LiftNodesAndPrs(s, v, out);
    LiftNetAndAcks(s, v, out);
    LiftDisks(s, v, out);
  }
}
