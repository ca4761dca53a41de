// The replication invariant of runs and how it survives a step of
// one node: per node, per message, per acknowledgement, per progress entry.
module Replication {
  import opened Quorum
  import opened PlainLog
  import opened ProgressSpec
  import opened RaftNode
  import opened Protocol
  import opened Election
  import opened History

  // ---------------------------------------------------------------------------
  // Commit indexes
  // ---------------------------------------------------------------------------

  /** Everything up to c is part of what some leader, of a term up to `term`, chose. */
  ghost predicate SafeCommit(h: Hist, term: nat, log: Log, c: nat) {
    c == 0 || exists x :: x in h.chosen && SafeBy(h, term, log, c, x)
  }

  ghost predicate SafeBy(h: Hist, term: nat, log: Log, c: nat, x: Choice) {
    x.term <= term && c <= x.index && x.term in h.llog && Agree(log, h.llog[x.term], c)
  }

  // ---------------------------------------------------------------------------
  // Nodes
  // ---------------------------------------------------------------------------

  ghost predicate TermsSeen(h: Hist, n: Node) {
    && (forall t | (n.id, t) in h.ballots :: t <= n.term)
    && (forall t | (n.id, t) in h.cands :: t <= n.term)
  }

  ghost predicate LogL(h: Hist, n: Node) {
    GoodLog(h, n.log) && TermsBelow(n.log, n.term + 1) && n.offset >= 1
  }

  ghost predicate RoleL(h: Hist, n: Node) {
    && (n.receiving ==> n.term in h.llog && IsPrefix(n.log, h.llog[n.term]))
    && (n.role == Candidate ==>
          && n.term >= 1 && (n.id, n.term) in h.cands && h.cands[(n.id, n.term)] == n.log
          && !IsLeaderOf(h, n.term, n.id))
    && (n.role == Leader ==>
          && !n.receiving && n.term in h.llog && n.log == h.llog[n.term]
          && n.term in h.base && n.termStart == h.base[n.term] + 1)
  }

  ghost predicate NodeL(h: Hist, n: Node) {
    LogL(h, n) && RoleL(h, n) && TermsSeen(h, n) && SafeCommit(h, n.term, n.log, n.committed)
  }

  // ---------------------------------------------------------------------------
  // Probing never undershoots
  // ---------------------------------------------------------------------------

  /** No index above p holds the same term in both logs. */
  ghost predicate CommonBound(a: Log, b: Log, p: nat) {
    forall k | 0 <= k < |a| && k < |b| && a[k].term == b[k].term :: k < p
  }

  /** No entry up to index i has a term above t. */
  ghost predicate TermsWithin(log: Log, i: nat, t: nat) {
    forall k | 0 <= k < i && k < |log| :: log[k].term <= t
  }

  /** In the leader's term the node's log is a prefix of the leader's log. */
  ghost predicate Settled(h: Hist, n: Node, t: nat) {
    n.term > t || (n.term == t && t in h.llog && IsPrefix(n.log, h.llog[t]))
  }

  /** An append after index p from the leader of t cannot leave a foreign tail behind. */
  ghost predicate ProbeOk(h: Hist, n: Node, t: nat, p: nat)
    requires t in h.llog && t in h.base
  {
    && (n.term < t ==> p >= h.base[t])
    && (n.term == t ==> IsPrefix(n.log, h.llog[t]) || CommonBound(n.log, h.llog[t], p))
  }

  ghost predicate PrL(h: Hist, n: Node, j: NodeId, pr: Pr, nj: Node)
    requires n.term in h.llog && n.term in h.base
  {
    && 1 <= pr.next <= |n.log| + 1 && pr.state != Snapshot
    && (pr.matched == 0 || Ack(j, n.term, pr.matched) in h.acks)
    && pr.matched <= |n.log|
    && (j != n.id ==>
          && ProbeOk(h, nj, n.term, pr.next - 1)
          && (pr.state == Replicate ==> Settled(h, nj, n.term)))
  }

  ghost predicate PrsL(h: Hist, n: Node, nodes: map<NodeId, Node>) {
    n.role == Leader && n.term in h.llog && n.term in h.base ==>
      forall j | j in n.prs && j in nodes :: PrL(h, n, j, n.prs[j], nodes[j])
  }

  // ---------------------------------------------------------------------------
  // Messages and acknowledgements
  // ---------------------------------------------------------------------------

  /** `ents` is what the leader of t has after index p. */
  ghost predicate Slice(h: Hist, t: nat, p: nat, ents: seq<Entry>)
    requires t in h.llog
  {
    p + |ents| <= |h.llog[t]| && forall i | 0 <= i < |ents| :: ents[i] == h.llog[t][p + i]
  }

  lemma SliceOf(h: Hist, t: nat, p: nat, k: nat)
    requires t in h.llog && p + k <= |h.llog[t]|
    ensures Slice(h, t, p, h.llog[t][p..p+k])
  {
  }

  ghost predicate AppL(h: Hist, m: Msg, n: Node)
    requires m.App?
  {
    && m.term in h.llog && m.term in h.base
    && var log := h.llog[m.term];
    && Slice(h, m.term, m.index, m.ents)
    && m.logTerm == TermAt(log, m.index)
    && (m.index <= h.base[m.term] ==> m.ents != [])
    && SafeCommit(h, m.term, log, m.commit)
    && ProbeOk(h, n, m.term, m.index)
  }

  /** A rejection from n bounds the common prefix of n's log and the leader's. */
  ghost predicate RejectL(h: Hist, m: Msg, n: Node)
    requires m.AppReject?
  {
    && m.term in h.llog && n.term >= m.term
    && (n.term == m.term && !IsPrefix(n.log, h.llog[m.term]) ==>
          && m.index >= 1 && CommonBound(n.log, h.llog[m.term], m.index - 1)
          && CommonBound(n.log, h.llog[m.term], m.hint) && TermsWithin(n.log, m.hint, m.logTerm))
  }

  ghost predicate BeatL(h: Hist, m: Msg)
    requires m.Heartbeat?
  {
    && m.term in h.llog && SafeCommit(h, m.term, h.llog[m.term], m.commit)
    && (m.commit > 0 ==> HasAck(h, m.to, m.term, m.commit))
  }

  ghost predicate VoteL(h: Hist, m: Msg)
    requires m.Vote?
  {
    && (m.from, m.term) in h.cands
    && |h.cands[(m.from, m.term)]| == m.index && LastTerm(h.cands[(m.from, m.term)]) == m.logTerm
  }

  ghost predicate MsgL(h: Hist, nodes: map<NodeId, Node>, m: Msg) {
    match m
    case Vote(_, _, _, _, _) => VoteL(h, m)
    case VoteResp(_, _, _, _) => true
    case App(_, _, _, _, _, _, _) => m.to in nodes && AppL(h, m, nodes[m.to])
    case AppResp(_, _, _, _) => m.from in nodes && Ack(m.from, m.term, m.index) in h.acks
    case AppReject(_, _, _, _, _, _) => m.from in nodes && RejectL(h, m, nodes[m.from])
    case Heartbeat(_, _, _, _) => BeatL(h, m)
  }

  /** Acknowledged entries are still there, unless a later leader did not have them. */
  ghost predicate AckL(h: Hist, a: Ack, n: Node) {
    a.index > 0 ==>
      && a.term in h.llog && a.index <= |h.llog[a.term]| && a.term <= n.term
      && KeptUpTo(h, a.term, a.index, n.log, n.term)
      && Settled(h, n, a.term)
  }

  ghost predicate DiskL(h: Hist, v: NodeId, d: Disk) {
    forall hs | hs in d.queue :: CastFor(h, v, hs)
  }

  // ---------------------------------------------------------------------------
  // The invariant
  // ---------------------------------------------------------------------------

  ghost predicate NodesL(s: Sys) { forall v | v in s.nodes :: NodeL(s.h, s.nodes[v]) }

  ghost predicate AllPrsL(s: Sys) { forall v | v in s.nodes :: PrsL(s.h, s.nodes[v], s.nodes) }

  ghost predicate DisksL(s: Sys) { forall v | v in s.disks :: DiskL(s.h, v, s.disks[v]) }

  ghost predicate NetL(s: Sys) { forall m | m in s.net :: MsgL(s.h, s.nodes, m) }

  ghost predicate AcksL(s: Sys) {
    forall a | a in s.h.acks && a.node in s.nodes :: AckL(s.h, a, s.nodes[a.node])
  }

  ghost predicate LInv(s: Sys) {
    && EInv(s) && HistL(s.cfg, s.h) && s.cfg.IDs() <= s.nodes.Keys
    && NodesL(s) && AllPrsL(s) && DisksL(s) && NetL(s) && AcksL(s)
  }

  // ---------------------------------------------------------------------------
  // How a node may change, and what that keeps
  // ---------------------------------------------------------------------------

  /**
   * Terms go up; the log changes only within a term, towards the log of that
   * term's leader, and entries that agree with that leader's log are kept.
   */
  ghost predicate Advance(h': Hist, n: Node, n': Node) {
    && n'.id == n.id && n'.term >= n.term
    && (n'.log == n.log ||
        (&& n'.term == n.term && n.term in h'.llog && IsPrefix(n'.log, h'.llog[n.term])
         && KeepsCommon(h'.llog[n.term], n.log, n'.log)))
  }

  /** What `log` shares with the leader's log L is still in log'. */
  ghost predicate KeepsCommon(L: Log, log: Log, log': Log) {
    forall k | Agree(L, log, k) :: Agree(log', log, k)
  }

  lemma PrefixGrows(h: Hist, h': Hist, log: Log, t: nat)
    requires GrowTerms(h, h') && t in h.llog && IsPrefix(log, h.llog[t])
    ensures IsPrefix(log, h'.llog[t])
  {
    assert h'.llog[t][..|log|] == h.llog[t][..|h.llog[t]|][..|log|];
  }

  /** A log without entries of term t meets the leader of t only in that leader's base. */
  lemma EnterBound(h: Hist, log: Log, t: nat)
    requires TermsOk(h) && t in h.llog && TermsBelow(log, t)
    ensures CommonBound(log, h.llog[t], h.base[t])
  {
    forall k | 0 <= k < |log| && k < |h.llog[t]| && log[k].term == h.llog[t][k].term
      ensures k < h.base[t]
    {
      LeaderTerms(h, t, k);
    }
  }

  lemma BoundGrows(h: Hist, h': Hist, log: Log, t: nat, p: nat)
    requires GrowTerms(h, h') && t in h.llog && GoodLog(h, log) && CommonBound(log, h.llog[t], p)
    ensures CommonBound(log, h'.llog[t], p)
  {
    forall k | 0 <= k < |log| && k < |h'.llog[t]| && log[k].term == h'.llog[t][k].term
      ensures k < p
    {
      assert GoodAt(h, log, k + 1);
      if k < |h.llog[t]| {
        assert h.llog[t][k] == h'.llog[t][..|h.llog[t]|][k];
      }
    }
  }

  lemma ProbeGrows(h: Hist, h': Hist, n: Node, n': Node, t: nat, p: nat)
    requires TermsOk(h) && TermsOk(h') && GrowTerms(h, h') && t in h.llog && t in h.base
    requires LogL(h, n) && Advance(h', n, n') && ProbeOk(h, n, t, p)
    ensures ProbeOk(h', n', t, p)
  {
    if n'.term == t && n'.log == n.log {
      if n.term < t {
        EnterBound(h', n.log, t);
      } else if IsPrefix(n.log, h.llog[t]) {
        PrefixGrows(h, h', n.log, t);
      } else {
        BoundGrows(h, h', n.log, t, p);
      }
    }
  }

  lemma SettledGrows(h: Hist, h': Hist, n: Node, n': Node, t: nat)
    requires GrowTerms(h, h') && Advance(h', n, n') && Settled(h, n, t)
    ensures Settled(h', n', t)
  {
    if n'.term == t && n'.log == n.log { PrefixGrows(h, h', n.log, t); }
  }

  lemma SafeCommitGrows(h: Hist, h': Hist, term: nat, term': nat, log: Log, log': Log, c: nat)
    requires GrowTerms(h, h') && h.chosen <= h'.chosen && term <= term'
    requires SafeCommit(h, term, log, c) && (c == 0 || Agree(log', log, c))
    ensures SafeCommit(h', term', log', c)
  {
    if c > 0 {
      var x :| x in h.chosen && SafeBy(h, term, log, c, x);
      GrowAgree(h, h', log, x.term, c);
      AgreeTrans(log', log, h'.llog[x.term], c);
      assert SafeBy(h', term', log', c, x);
    }
  }

  lemma SafeCommitReach(h: Hist, term: nat, log: Log, c: nat)
    requires SafeCommit(h, term, log, c)
    ensures c <= |log|
  {
  }

  lemma LeaderLogGrows(h: Hist, h': Hist, t: nat, k: nat)
    requires GrowTerms(h, h') && t in h.llog && k <= |h.llog[t]|
    ensures Agree(h'.llog[t], h.llog[t], k)
  {
    assert h'.llog[t][..k] == h'.llog[t][..|h.llog[t]|][..k];
  }

  lemma AppGrows(h: Hist, h': Hist, m: Msg, n: Node, n': Node)
    requires TermsOk(h) && TermsOk(h') && Grow(h, h') && m.App? && AppL(h, m, n)
    requires LogL(h, n) && Advance(h', n, n')
    ensures AppL(h', m, n')
  {
    hide TermsOk, SafeCommit, ProbeOk, LogL, Advance;
    var log, log' := h.llog[m.term], h'.llog[m.term];
    assert log'[..|log|] == log;
    ProbeGrows(h, h', n, n', m.term, m.index);
    SafeCommitReach(h, m.term, log, m.commit);
    LeaderLogGrows(h, h', m.term, m.commit);
    SafeCommitGrows(h, h', m.term, m.term, log, log', m.commit);
  }

  lemma RejectGrows(h: Hist, h': Hist, m: Msg, n: Node, n': Node)
    requires GrowTerms(h, h') && m.AppReject? && RejectL(h, m, n)
    requires LogL(h, n) && Advance(h', n, n')
    ensures RejectL(h', m, n')
  {
    if n'.term == m.term && n'.log == n.log && !IsPrefix(n.log, h'.llog[m.term]) {
      if IsPrefix(n.log, h.llog[m.term]) { PrefixGrows(h, h', n.log, m.term); }
      BoundGrows(h, h', n.log, m.term, m.index - 1);
      BoundGrows(h, h', n.log, m.term, m.hint);
    }
  }

  lemma BeatGrows(h: Hist, h': Hist, m: Msg)
    requires Grow(h, h') && m.Heartbeat? && BeatL(h, m)
    ensures BeatL(h', m)
  {
    SafeCommitReach(h, m.term, h.llog[m.term], m.commit);
    LeaderLogGrows(h, h', m.term, m.commit);
    SafeCommitGrows(h, h', m.term, m.term, h.llog[m.term], h'.llog[m.term], m.commit);
  }

  /** Taking the leader's entries keeps an acknowledged prefix, or that leader lacked it. */
  lemma KeptAdvances(h': Hist, n: Node, n': Node, t: nat, i: nat)
    requires t in h'.llog && t <= n.term && Advance(h', n, n') && i <= |h'.llog[t]|
    requires KeptUpTo(h', t, i, n.log, n.term)
    ensures KeptUpTo(h', t, i, n'.log, n'.term)
  {
    forall k | 1 <= k <= i ensures Kept(h', t, k, n'.log, n'.term) {
      if Carried(h', t, k, n'.term) {
        assert Carried(h', t, k, n.term);
        assert Kept(h', t, k, n.log, n.term);
        if n'.log != n.log {
          if t < n.term { assert Agree(h'.llog[n.term], h'.llog[t], k); }
          AgreeTrans(h'.llog[n.term], h'.llog[t], n.log, k);
          AgreeTrans(n'.log, n.log, h'.llog[t], k);
        }
      }
    }
  }

  lemma AckGrows(h: Hist, h': Hist, a: Ack, n: Node, n': Node)
    requires TermsOk(h) && GrowTerms(h, h') && AckL(h, a, n) && Advance(h', n, n')
    ensures AckL(h', a, n')
  {
    if a.index > 0 {
      KeptGrows(h, h', a.term, a.index, n.log, n.term);
      KeptAdvances(h', n, n', a.term, a.index);
      SettledGrows(h, h', n, n', a.term);
    }
  }

  // ---------------------------------------------------------------------------
  // One node steps, the invariant survives
  // ---------------------------------------------------------------------------

  /** Only node v's own terms, votes and candidacies are new. */
  ghost predicate OnlyBy(h: Hist, h': Hist, v: NodeId) {
    && (forall t | t in h'.ldr && h'.ldr[t] != v ::
          t in h.ldr && (t in h.llog && t in h'.llog ==> h'.llog[t] == h.llog[t]))
    && (forall u, t | (u, t) in h'.ballots && u != v :: (u, t) in h.ballots)
    && (forall u, t | (u, t) in h'.cands && u != v :: (u, t) in h.cands)
  }

  lemma OtherNodeGrows(h: Hist, h': Hist, v: NodeId, n: Node)
    requires Grow(h, h') && OnlyBy(h, h', v) && n.id != v && NodeL(h, n) && NodeE(h, n.id, n)
    ensures NodeL(h', n)
  {
    GoodLogGrows(h, h', n.log);
    SafeCommitReach(h, n.term, n.log, n.committed);
    SafeCommitGrows(h, h', n.term, n.term, n.log, n.log, n.committed);
    if n.receiving { PrefixGrows(h, h', n.log, n.term); }
  }

  lemma PrGrows(h: Hist, h': Hist, n: Node, j: NodeId, pr: Pr, nj: Node, nj': Node)
    requires TermsOk(h) && TermsOk(h') && Grow(h, h') && n.term in h.llog && n.term in h.base
    requires LogL(h, nj) && Advance(h', nj, nj') && PrL(h, n, j, pr, nj)
    ensures PrL(h', n, j, pr, nj')
  {
    if j != n.id {
      ProbeGrows(h, h', nj, nj', n.term, pr.next - 1);
      if pr.state == Replicate { SettledGrows(h, h', nj, nj', n.term); }
    }
  }

  /** All progress entries of a leader, carried over to a later history and later peers. */
  lemma PrsCarry(h: Hist, h': Hist, nodes: map<NodeId, Node>, nodes': map<NodeId, Node>, n: Node, n': Node)
    requires TermsOk(h) && TermsOk(h') && Grow(h, h') && n.term in h.llog && n.term in h.base && n.role == Leader
    requires nodes'.Keys == nodes.Keys && PrsL(h, n, nodes)
    requires forall u | u in nodes :: LogL(h, nodes[u]) && Advance(h', nodes[u], nodes'[u])
    requires n'.id == n.id && n'.term == n.term && |n'.log| >= |n.log| && n'.prs == n.prs
    ensures PrsL(h', n', nodes')
  {
    forall j | j in n'.prs && j in nodes' && n'.term in h'.llog && n'.term in h'.base
      ensures PrL(h', n', j, n'.prs[j], nodes'[j])
    {
      PrGrows(h, h', n, j, n.prs[j], nodes[j], nodes'[j]);
    }
  }

  lemma MsgGrows(h: Hist, h': Hist, nodes: map<NodeId, Node>, nodes': map<NodeId, Node>, m: Msg)
    requires TermsOk(h) && TermsOk(h') && Grow(h, h') && nodes'.Keys == nodes.Keys
    requires forall u | u in nodes :: LogL(h, nodes[u]) && Advance(h', nodes[u], nodes'[u])
    requires MsgL(h, nodes, m)
    ensures MsgL(h', nodes', m)
  {
    match m {
      case App(_, to, _, _, _, _, _) => AppGrows(h, h', m, nodes[to], nodes'[to]);
      case AppReject(from, _, _, _, _, _) => RejectGrows(h, h', m, nodes[from], nodes'[from]);
      case Heartbeat(_, _, _, _) => BeatGrows(h, h', m);
      case _ =>
    }
  }

  lemma KeptHigher(h: Hist, t: nat, i: nat, log: Log, hi: nat, hi': nat)
    requires t in h.llog && KeptUpTo(h, t, i, log, hi) && hi <= hi'
    ensures KeptUpTo(h, t, i, log, hi')
  {
    forall k | 1 <= k <= i ensures Kept(h, t, k, log, hi') {
      assert Kept(h, t, k, log, hi);
      if Carried(h, t, k, hi') { assert Carried(h, t, k, hi); }
    }
  }
}
