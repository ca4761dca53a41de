// Steps that enter a new term, and the step that wins an election.
module TermSteps {
  import opened Quorum
  import opened PlainLog
  import opened ProgressSpec
  import opened RaftNode
  import opened Protocol
  import opened Election
  import opened History
  import opened Replication
  import opened Lift
  import opened CalmSteps
  import opened VotingSteps

  // ---------------------------------------------------------------------------
  // Entering a term
  // ---------------------------------------------------------------------------

  predicate EnterNode(n: Node, n': Node) {
    && n'.id == n.id && n'.term > n.term && n'.log == n.log && n'.committed == n.committed
    && n'.offset == n.offset && !n'.receiving
    && (n'.role == Follower || (n'.role == Candidate && n'.vote == n.id))
  }

  lemma EnterGrows(h: Hist, n: Node, out: Out)
    requires TermsOk(h) && NodeL(h, n) && EnterNode(n, out.node)
    requires forall m | m in out.msgs :: m.Vote? || m.VoteResp?
    ensures Grow(h, Observe(h, n, out)) && TermsOk(Observe(h, n, out))
    ensures NewAcks(out) == {} && TermsSeen(Observe(h, n, out), out.node)
  {
    SameTermsOk(h, Observe(h, n, out));
  }

  lemma EnterNodeL(h: Hist, n: Node, out: Out)
    requires TermsOk(h) && NodeL(h, n) && EnterNode(n, out.node)
    requires Grow(h, Observe(h, n, out)) && TermsSeen(Observe(h, n, out), out.node)
    ensures NodeL(Observe(h, n, out), out.node)
  {
    var h', n' := Observe(h, n, out), out.node;
    GoodLogGrows(h, h', n.log);
    SafeCommitReach(h, n.term, n.log, n.committed);
    SafeCommitGrows(h, h', n.term, n'.term, n.log, n.log, n.committed);
    assert n'.term in h.ldr ==> TermOk(h, n'.term);
  }

  /** A campaign votes for itself; a follower votes for a log at least as up-to-date. */
  lemma EnterBallot(h: Hist, n: Node, out: Out, m: Msg)
    requires TermsOk(h) && NodeL(h, n) && EnterNode(n, out.node) && out.node.vote != NONE
    requires Grow(h, Observe(h, n, out))
    requires out.node.role == Follower ==>
               && m.Vote? && VoteL(h, m) && m.from == out.node.vote && m.term == out.node.term
               && IsUpToDate(n.log, m.index, m.logTerm)
    ensures (n.id, out.node.term) in Observe(h, n, out).ballots
    ensures BallotOk(Observe(h, n, out), n.id, out.node.term)
  {
    GoodLogGrows(h, Observe(h, n, out), n.log);
  }

  lemma EnterStep(s: Sys, v: NodeId, out: Out, m: Msg)
    requires Here(s, v) && EnterNode(s.nodes[v], out.node) && out.hard == [Hard(out.node)]
    requires out.node.vote != NONE && out.node.role == Follower ==>
               && m.Vote? && VoteL(s.h, m) && m.from == out.node.vote && m.term == out.node.term
               && IsUpToDate(s.nodes[v].log, m.index, m.logTerm)
    requires forall m | m in out.msgs ::
               m.VoteResp? || (out.node.role == Candidate && m.Vote? && m.from == v && m.term == out.node.term
                               && m.index == |out.node.log| && m.logTerm == LastTerm(out.node.log))
    ensures Owed(s, v, out)
  {
    hide TermsOk, LogL, SafeCommit;
    var n, h' := s.nodes[v], Observe(s.h, s.nodes[v], out);
    EnterGrows(s.h, n, out);
    EnterNodeL(s.h, n, out);
    if out.node.vote != NONE { EnterBallot(s.h, n, out, m); }
  }

  // ---------------------------------------------------------------------------
  // Winning
  // ---------------------------------------------------------------------------

  /** A log of a node in term t, when nobody leads t yet, has only entries of smaller terms. */
  lemma TermsSmaller(h: Hist, log: Log, t: nat)
    requires TermsOk(h) && GoodLog(h, log) && TermsBelow(log, t + 1) && t !in h.ldr
    ensures TermsBelow(log, t)
  {
    forall i | 0 <= i < |log| ensures 1 <= log[i].term < t {
      assert GoodAt(h, log, i + 1);
    }
  }

  lemma ExtendGood(h': Hist, log: Log, ents: seq<Entry>, t: nat)
    requires GoodLog(h', log) && t in h'.llog && h'.llog[t] == log + ents
    requires forall i | 0 <= i < |ents| :: ents[i].term == t
    ensures GoodLog(h', log + ents)
  {
    forall i | 1 <= i <= |log + ents| ensures GoodAt(h', log + ents, i) {
      if i <= |log| {
        assert GoodAt(h', log, i);
        assert (log + ents)[..i] == log[..i];
      }
    }
  }

  /** Only the log of t changes hands or grows. */
  lemma OneTermOk(h: Hist, h': Hist, t: nat)
    requires TermsOk(h) && GrowTerms(h, h') && h'.cands == h.cands
    requires h'.llog.Keys == h.llog.Keys + {t} && h'.ldr.Keys == h.ldr.Keys + {t} && h'.base.Keys == h.base.Keys + {t}
    requires forall x | x in h.llog && x != t ::
               h'.llog[x] == h.llog[x] && h'.ldr[x] == h.ldr[x] && h'.base[x] == h.base[x]
    requires t >= 1 && TermOk(h', t)
    ensures TermsOk(h')
  {
    forall x | x in h'.llog ensures TermOk(h', x) {
      if x != t {
        assert TermOk(h, x);
        GoodLogGrows(h, h', h.llog[x]);
      }
    }
  }

  lemma WinTerms(h: Hist, v: NodeId, t: nat, log: Log, e: Entry, h': Hist)
    requires TermsOk(h) && GoodLog(h, log) && TermsBelow(log, t) && t !in h.ldr && t >= 1 && v != NONE
    requires (v, t) in h.cands && h.cands[(v, t)] == log && e.term == t
    requires h'.ldr == h.ldr[t := v] && h'.llog == h.llog[t := log + [e]] && h'.base == h.base[t := |log|]
    requires h'.cands == h.cands
    ensures GrowTerms(h, h') && TermsOk(h')
  {
    GoodLogGrows(h, h', log);
    ExtendGood(h', log, [e], t);
    assert (log + [e])[..|log|] == log;
    OneTermOk(h, h', t);
  }

  /** The candidate's own progress and those of its peers right after it wins. */
  lemma WinPrs(h': Hist, nodes: map<NodeId, Node>, n: Node, n': Node, t: nat)
    requires TermsOk(h') && t in h'.llog && t in h'.base && h'.base[t] == |n.log| && n'.term == t
    requires n'.id == n.id && n'.log == h'.llog[t] && |n'.log| == |n.log| + 1
    requires forall j | j in n'.prs && j != n.id :: n'.prs[j] == Pr(0, |n.log| + 1, Probe, 0, false)
    requires n.id in n'.prs ==>
               n'.prs[n.id] == Pr(|n.log|, |n.log| + 1, Replicate, 0, false) && Ack(n.id, t, |n.log|) in h'.acks
    requires forall j | j in nodes && j != n.id :: nodes[j].term <= t ==> TermsBelow(nodes[j].log, t)
    ensures PrsL(h', n', nodes[n.id := n'])
  {
    forall j | j in n'.prs && j in nodes[n.id := n'] ensures PrL(h', n', j, n'.prs[j], nodes[n.id := n'][j]) {
      if j != n.id && nodes[j].term == t { EnterBound(h', nodes[j].log, t); }
    }
  }

  lemma WinAck(h': Hist, n': Node, i: nat)
    requires n'.term in h'.llog && n'.log == h'.llog[n'.term] && i <= |n'.log|
    ensures AckL(h', Ack(n'.id, n'.term, i), n')
  {
  }

  lemma WinObserve(h: Hist, n: Node, p: Node)
    requires n.role == Candidate && p == n.(votes := p.votes)
    ensures var n', h' := BecomeLeader(p), Observe(h, n, Quiet(BecomeLeader(p)));
      && h'.ldr == h.ldr[n.term := n.id] && h'.llog == h.llog[n.term := n'.log]
      && h'.base == h.base[n.term := |n.log|] && h'.cands == h.cands && h'.ballots == h.ballots
      && h'.durable == h.durable && h'.chosen == h.chosen && h'.acks == h.acks + SelfAck(n')
    ensures var n' := BecomeLeader(p);
      && n'.id == n.id && n'.term == n.term && n'.vote == n.vote && n'.role == Leader && !n'.receiving
      && n'.log == n.log + [EMPTY_ENTRY.(term := n.term)] && n'.termStart == |n.log| + 1
      && n'.committed == n.committed && n'.offset == n.offset
      && SelfAck(n') == (if n.id in n'.prs then {Ack(n.id, n.term, |n.log|)} else {})
      && (forall j | j in n'.prs && j != n.id :: n'.prs[j] == Pr(0, |n.log| + 1, Probe, 0, false))
      && (n.id in n'.prs ==> n'.prs[n.id] == Pr(|n.log|, |n.log| + 1, Replicate, 0, false))
  {
    assert Stamp([EMPTY_ENTRY], n.term) == [EMPTY_ENTRY.(term := n.term)];
  }

  lemma WinNodeL(h: Hist, h': Hist, n: Node, n': Node)
    requires Grow(h, h') && TermsOk(h') && NodeL(h, n) && n'.id == n.id && n'.term == n.term && n.term in h'.llog
    requires n'.role == Leader && !n'.receiving && n'.log == h'.llog[n.term] && IsPrefix(n.log, n'.log)
    requires n.term in h'.base && n'.termStart == h'.base[n.term] + 1
    requires n'.committed == n.committed && n'.offset == n.offset
    requires h'.ballots == h.ballots && h'.cands == h.cands
    ensures NodeL(h', n') && Advance(h', n, n')
  {
    assert TermOk(h', n.term);
    forall i | 0 <= i < |n'.log| ensures 1 <= n'.log[i].term < n'.term + 1 { LeaderTerms(h', n.term, i); }
    SafeCommitReach(h, n.term, n.log, n.committed);
    assert n'.log[..n.committed] == n'.log[..|n.log|][..n.committed];
    SafeCommitGrows(h, h', n.term, n.term, n.log, n'.log, n.committed);
    forall k | Agree(h'.llog[n.term], n.log, k) ensures Agree(n'.log, n.log, k) {}
  }

  lemma OthersBelow(s: Sys, t: nat)
    requires TermsOk(s.h) && NodesL(s) && t !in s.h.ldr
    ensures forall j | j in s.nodes && s.nodes[j].term <= t :: TermsBelow(s.nodes[j].log, t)
  {
    forall j | j in s.nodes && s.nodes[j].term <= t ensures TermsBelow(s.nodes[j].log, t) {
      assert NodeL(s.h, s.nodes[j]);
      TermsSmaller(s.h, s.nodes[j].log, t);
    }
  }

  lemma WinHere(h: Hist, n: Node, p: Node, h': Hist)
    requires TermsOk(h) && NodeE(h, n.id, n) && NodeL(h, n) && n.role == Candidate
    requires p == n.(votes := p.votes) && n.term !in h.ldr && h' == Observe(h, n, Quiet(BecomeLeader(p)))
    ensures Grow(h, h') && TermsOk(h') && NodeL(h', BecomeLeader(p)) && Advance(h', n, BecomeLeader(p))
    ensures AckL(h', Ack(n.id, n.term, |n.log|), BecomeLeader(p))
  {
    hide TermsOk, AckL, BecomeLeader, Observe, SafeCommit, GrowTerms;
    WinObserve(h, n, p);
    TermsSmaller(h, n.log, n.term);
    WinTerms(h, n.id, n.term, n.log, EMPTY_ENTRY.(term := n.term), h');
    WinNodeL(h, h', n, BecomeLeader(p));
    WinAck(h', BecomeLeader(p), |n.log|);
  }

  lemma WinProgress(s: Sys, v: NodeId, p: Node, h': Hist)
    requires Here(s, v) && NodesL(s) && s.nodes[v].role == Candidate && TermsOk(h')
    requires p == s.nodes[v].(votes := p.votes) && s.nodes[v].term !in s.h.ldr
    requires h' == Observe(s.h, s.nodes[v], Quiet(BecomeLeader(p)))
    ensures PrsL(h', BecomeLeader(p), s.nodes[v := BecomeLeader(p)])
  {
    WinObserve(s.h, s.nodes[v], p);
    OthersBelow(s, s.nodes[v].term);
    WinPrs(h', s.nodes, s.nodes[v], BecomeLeader(p), s.nodes[v].term);
  }

  lemma WinStep(s: Sys, v: NodeId, p: Node)
    requires Here(s, v) && NodesL(s) && s.nodes[v].role == Candidate
    requires p == s.nodes[v].(votes := p.votes) && s.nodes[v].term !in s.h.ldr
    ensures Owed(s, v, Quiet(BecomeLeader(p)))
  {
    hide TermsOk, NodeL, NodesL, PrsL, Advance, BecomeLeader, AckL;
    var n, n' := s.nodes[v], BecomeLeader(p);
    var h' := Observe(s.h, n, Quiet(n'));
    WinHere(s.h, n, p, h');
    WinProgress(s, v, p, h');
    WinObserve(s.h, n, p);
    assert NewAcks(Quiet(n')) == SelfAck(n');
  }
}
