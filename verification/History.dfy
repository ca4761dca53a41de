// Facts about logs that come from what leaders wrote: Log Matching, the
// history part of the replication invariant, and Leader Completeness
// (sections 5.3 and 5.4.3 of the Raft paper).
module History {
  import opened Quorum
  import opened PlainLog
  import opened RaftNode
  import opened Protocol
  import opened Election

  // ---------------------------------------------------------------------------
  // Logs are made of leaders' logs
  // ---------------------------------------------------------------------------

  /** Up to entry i the log is what the leader of that entry's term wrote. */
  ghost predicate GoodAt(h: Hist, log: Log, i: nat)
    requires 1 <= i <= |log|
  {
    log[i-1].term in h.llog && Agree(log, h.llog[log[i-1].term], i)
  }

  ghost predicate GoodLog(h: Hist, log: Log) {
    forall i | 1 <= i <= |log| :: GoodAt(h, log, i)
  }

  ghost predicate TermsBelow(log: Log, hi: nat) {
    forall i | 0 <= i < |log| :: 1 <= log[i].term < hi
  }

  /** Log Matching: the same term at the same index means the same log up to there. */
  lemma LogMatching(h: Hist, a: Log, b: Log, i: nat)
    requires GoodLog(h, a) && GoodLog(h, b)
    requires 1 <= i <= |a| && i <= |b| && a[i-1].term == b[i-1].term
    ensures Agree(a, b, i)
  {
    assert GoodAt(h, a, i) && GoodAt(h, b, i);
  }

  lemma AgreeDown(a: Log, b: Log, i: nat, k: nat)
    requires Agree(a, b, i) && k <= i
    ensures Agree(a, b, k)
  {
    assert a[..k] == a[..i][..k] && b[..k] == b[..i][..k];
  }

  lemma AgreeTrans(a: Log, b: Log, c: Log, i: nat)
    requires Agree(a, b, i) && Agree(b, c, i)
    ensures Agree(a, c, i)
  {
  }

  lemma AgreeAt(a: Log, b: Log, i: nat, k: nat)
    requires Agree(a, b, i) && k < i
    ensures a[k] == b[k]
  {
    assert a[..i][k] == b[..i][k];
  }

  // ---------------------------------------------------------------------------
  // The history invariant
  // ---------------------------------------------------------------------------

  /** The leader of a term campaigned with its base and appended only entries of its term. */
  ghost predicate TermOk(h: Hist, t: nat)
    requires t in h.llog && t in h.base && t in h.ldr
  {
    var log, b := h.llog[t], h.base[t];
    && GoodLog(h, log) && b < |log| && h.ldr[t] != NONE
    && TermsBelow(log[..b], t)
    && (forall i | b <= i < |log| :: log[i].term == t)
    && (h.ldr[t], t) in h.cands && h.cands[(h.ldr[t], t)] == log[..b]
  }

  ghost predicate TermsOk(h: Hist) {
    && h.llog.Keys == h.ldr.Keys && h.base.Keys == h.ldr.Keys && 0 !in h.ldr
    && forall t | t in h.llog :: TermOk(h, t)
  }

  /** A vote was cast with a log that the candidate's log was at least as up-to-date as. */
  ghost predicate BallotOk(h: Hist, v: NodeId, t: nat)
    requires (v, t) in h.ballots
  {
    var b := h.ballots[(v, t)];
    && (b.cand, t) in h.cands
    && IsUpToDate(b.log, |h.cands[(b.cand, t)]|, LastTerm(h.cands[(b.cand, t)]))
    && GoodLog(h, b.log) && TermsBelow(b.log, t)
  }

  ghost predicate BallotsOk(h: Hist) {
    forall v, t | (v, t) in h.ballots :: t >= 1 && BallotOk(h, v, t)
  }

  predicate CastFor(h: Hist, v: NodeId, hs: HardState) {
    hs.vote == NONE || ((v, hs.term) in h.ballots && h.ballots[(v, hs.term)].cand == hs.vote)
  }

  ghost predicate DurableOk(h: Hist) {
    forall v, t | (v, t) in h.durable :: CastFor(h, v, HardState(t, h.durable[(v, t)]))
  }

  /** All leaders in (t, hi] have the first k entries of the leader of t. */
  ghost predicate Carried(h: Hist, t: nat, k: nat, hi: nat)
    requires t in h.llog
  {
    forall t' | t < t' <= hi && t' in h.llog :: Agree(h.llog[t'], h.llog[t], k)
  }

  /** `log` has the first k entries of the leader of t, unless a leader in (t, hi] did not. */
  ghost predicate Kept(h: Hist, t: nat, k: nat, log: Log, hi: nat)
    requires t in h.llog
  {
    Carried(h, t, k, hi) ==> Agree(log, h.llog[t], k)
  }

  ghost predicate KeptUpTo(h: Hist, t: nat, i: nat, log: Log, hi: nat)
    requires t in h.llog
  {
    forall k | 1 <= k <= i :: Kept(h, t, k, log, hi)
  }

  /** A node votes with a log that still holds what it acknowledged before. */
  ghost predicate AckVoteOk(h: Hist, a: Ack)
    requires a.term in h.llog
  {
    forall t | (a.node, t) in h.ballots && t > a.term ::
      t >= 1 && KeptUpTo(h, a.term, a.index, h.ballots[(a.node, t)].log, t - 1)
  }

  ghost predicate AcksOk(h: Hist) {
    forall a | a in h.acks && a.index > 0 ::
      a.term in h.llog && a.index <= |h.llog[a.term]| && AckVoteOk(h, a)
  }

  ghost predicate HasAck(h: Hist, u: NodeId, t: nat, i: nat) {
    exists a :: a in h.acks && a.node == u && a.term == t && a.index >= i
  }

  ghost function AckedBy(cfg: JointConfig, h: Hist, t: nat, i: nat): set<NodeId> {
    set u | u in cfg.IDs() && HasAck(h, u, t, i)
  }

  /** A chosen index holds an entry of its leader's own term, acknowledged by a quorum in that term. */
  ghost predicate ChoiceOk(cfg: JointConfig, h: Hist, x: Choice) {
    && x.term in h.llog && x.term in h.base
    && h.base[x.term] < x.index <= |h.llog[x.term]|
    && IsQuorum(cfg, AckedBy(cfg, h, x.term, x.index))
  }

  ghost predicate ChosenOk(cfg: JointConfig, h: Hist) {
    forall x | x in h.chosen :: ChoiceOk(cfg, h, x)
  }

  ghost predicate HistL(cfg: JointConfig, h: Hist) {
    && cfg.incoming != {} && HistE(cfg, h)
    && TermsOk(h) && BallotsOk(h) && DurableOk(h) && AcksOk(h) && ChosenOk(cfg, h)
  }

  // ---------------------------------------------------------------------------
  // Leader Completeness
  // ---------------------------------------------------------------------------

  lemma LeaderTerms(h: Hist, t: nat, i: nat)
    requires TermsOk(h) && t in h.llog && i < |h.llog[t]|
    ensures 1 <= h.llog[t][i].term <= t
    ensures i >= h.base[t] <==> h.llog[t][i].term == t
  {
    assert TermOk(h, t);
    if i < h.base[t] { assert h.llog[t][..h.base[t]][i] == h.llog[t][i]; }
  }

  /** Terms never decrease along a log. */
  lemma GoodLogMonotone(h: Hist, log: Log, i: nat, j: nat)
    requires TermsOk(h) && GoodLog(h, log) && i <= j < |log|
    ensures 1 <= log[i].term <= log[j].term
  {
    assert GoodAt(h, log, j + 1);
    var t := log[j].term;
    AgreeAt(log, h.llog[t], j + 1, i);
    LeaderTerms(h, t, i);
  }

  /** A log at least as up-to-date as one holding entry (t, i) holds it too. */
  lemma UpToDateHolds(h: Hist, voter: Log, cand: Log, t: nat, i: nat)
    requires TermsOk(h) && GoodLog(h, voter) && GoodLog(h, cand)
    requires t in h.llog && h.base[t] < i <= |h.llog[t]|
    requires Agree(voter, h.llog[t], i)
    requires IsUpToDate(voter, |cand|, LastTerm(cand))
    requires Carried(h, t, i, LastTerm(cand))
    ensures Agree(cand, h.llog[t], i)
  {
    AgreeAt(voter, h.llog[t], i, i - 1);
    LeaderTerms(h, t, i - 1);
    GoodLogMonotone(h, voter, i - 1, |voter| - 1);
    var tc := LastTerm(cand);
    assert |cand| >= 1 && GoodAt(h, cand, |cand|);
    if tc == LastTerm(voter) {
      assert GoodAt(h, voter, |voter|);
      AgreeDown(cand, h.llog[tc], |cand|, |voter|);
      AgreeTrans(cand, h.llog[tc], voter, |voter|);
      AgreeDown(cand, voter, |voter|, i);
      AgreeTrans(cand, voter, h.llog[t], i);
    } else {
      assert Agree(h.llog[tc], h.llog[t], i);
      if |cand| < i {
        AgreeAt(cand, h.llog[tc], |cand|, |cand| - 1);
        AgreeAt(h.llog[tc], h.llog[t], i, |cand| - 1);
        LeaderTerms(h, t, |cand| - 1);
      }
      AgreeDown(cand, h.llog[tc], |cand|, i);
      AgreeTrans(cand, h.llog[tc], h.llog[t], i);
    }
  }

  /** A voter common to the acknowledging quorum and the new leader's voters. */
  lemma CommonVoter(cfg: JointConfig, h: Hist, x: Choice, t': nat) returns (u: NodeId, a: Ack)
    requires HistL(cfg, h) && ChoiceOk(cfg, h, x) && t' in h.ldr
    ensures (u, t') in h.ballots && h.ballots[(u, t')].cand == h.ldr[t']
    ensures a in h.acks && a.node == u && a.term == x.term && a.index >= x.index
  {
    assert TermOk(h, t');
    var c := h.ldr[t'];
    u := QuorumsMeet(cfg, Backers(cfg, h, t', c), AckedBy(cfg, h, x.term, x.index));
    assert u in Backers(cfg, h, t', c) && u in AckedBy(cfg, h, x.term, x.index);
    assert CastFor(h, u, HardState(t', h.durable[(u, t')]));
    a :| a in h.acks && a.node == u && a.term == x.term && a.index >= x.index;
  }

  /**
   * Leader Completeness: an index chosen in a term is in the log of the leader
   * of every later term.
   */
  lemma {:induction false} LeaderCompleteness(cfg: JointConfig, h: Hist, x: Choice, t': nat)
    requires HistL(cfg, h) && ChoiceOk(cfg, h, x) && t' in h.llog && t' > x.term
    ensures Agree(h.llog[t'], h.llog[x.term], x.index)
    decreases t'
  {
    hide HistE, DurableOk, ChosenOk, AckVoteOk, GoodLog, TermsBelow, IsUpToDate, IsQuorum;
    var t, i := x.term, x.index;
    var u, a := CommonVoter(cfg, h, x, t');
    forall t'' | t < t'' <= t' - 1 && t'' in h.llog ensures Agree(h.llog[t''], h.llog[t], i) {
      LeaderCompleteness(cfg, h, x, t'');
    }
    var b := h.ballots[(u, t')];
    VoterHolds(h, a, t', i);
    assert BallotOk(h, u, t') && TermOk(h, t');
    var cand := h.llog[t'][..h.base[t']];
    PrefixGood(h, h.llog[t'], h.base[t']);
    CandidateTerm(h, t');
    UpToDateHolds(h, b.log, cand, t, i);
    assert cand[..i] == h.llog[t'][..i];
  }

  lemma VoterHolds(h: Hist, a: Ack, t': nat, i: nat)
    requires AcksOk(h) && a in h.acks && 1 <= i <= a.index && a.term < t'
    requires (a.node, t') in h.ballots && a.term in h.llog
    requires Carried(h, a.term, i, t' - 1)
    ensures Agree(h.ballots[(a.node, t')].log, h.llog[a.term], i)
  {
    assert AckVoteOk(h, a);
    assert Kept(h, a.term, i, h.ballots[(a.node, t')].log, t' - 1);
  }

  lemma PrefixGood(h: Hist, log: Log, k: nat)
    requires GoodLog(h, log) && k <= |log|
    ensures GoodLog(h, log[..k])
  {
    forall i | 1 <= i <= k ensures GoodAt(h, log[..k], i) {
      assert GoodAt(h, log, i);
      assert log[..k][..i] == log[..i];
    }
  }

  /** A candidate's entries are all of terms below the one it is elected in. */
  lemma CandidateTerm(h: Hist, t: nat)
    requires TermsOk(h) && t in h.llog
    ensures t >= 1 && LastTerm(h.llog[t][..h.base[t]]) <= t - 1
  {
    assert TermOk(h, t);
  }

  // ---------------------------------------------------------------------------
  // The history only grows
  // ---------------------------------------------------------------------------

  /** b continues a with entries of term t only. */
  predicate Extends(a: Log, b: Log, t: nat) {
    IsPrefix(a, b) && forall i | |a| <= i < |b| :: b[i].term == t
  }

  ghost predicate GrowTerms(h: Hist, h': Hist) {
    forall t | t in h.llog ::
      && t in h'.llog && Extends(h.llog[t], h'.llog[t], t)
      && (t in h.base ==> t in h'.base && h'.base[t] == h.base[t])
  }

  ghost predicate GrowVotes(h: Hist, h': Hist) {
    && (forall x | x in h.cands :: x in h'.cands && h'.cands[x] == h.cands[x])
    && (forall x | x in h.ballots :: x in h'.ballots && h'.ballots[x] == h.ballots[x])
  }

  ghost predicate Grow(h: Hist, h': Hist) {
    GrowE(h, h') && GrowTerms(h, h') && GrowVotes(h, h') && h.acks <= h'.acks && h.chosen <= h'.chosen
  }

  lemma GrowAgree(h: Hist, h': Hist, log: Log, t: nat, k: nat)
    requires GrowTerms(h, h') && t in h.llog && k <= |h.llog[t]|
    ensures Agree(log, h.llog[t], k) <==> Agree(log, h'.llog[t], k)
  {
    assert h'.llog[t][..k] == h.llog[t][..k];
  }

  lemma GoodLogGrows(h: Hist, h': Hist, log: Log)
    requires GrowTerms(h, h') && GoodLog(h, log)
    ensures GoodLog(h', log)
  {
    forall i | 1 <= i <= |log| ensures GoodAt(h', log, i) {
      assert GoodAt(h, log, i);
      GrowAgree(h, h', log, log[i-1].term, i);
    }
  }

  /** A leader that lacked an older leader's entries can never come to hold them. */
  lemma CarriedShrinks(h: Hist, h': Hist, t: nat, k: nat, hi: nat)
    requires TermsOk(h) && GrowTerms(h, h') && t in h.llog && 1 <= k <= |h.llog[t]|
    requires Carried(h', t, k, hi)
    ensures Carried(h, t, k, hi)
  {
    forall t' | t < t' <= hi && t' in h.llog ensures Agree(h.llog[t'], h.llog[t], k) {
      assert Agree(h'.llog[t'], h'.llog[t], k);
      GrowAgree(h, h', h'.llog[t'], t, k);
      if k > |h.llog[t']| {
        AgreeAt(h'.llog[t'], h.llog[t], k, k - 1);
        LeaderTerms(h, t, k - 1);
      } else {
        assert h'.llog[t'][..k] == h.llog[t'][..k];
      }
    }
  }

  lemma KeptGrows(h: Hist, h': Hist, t: nat, i: nat, log: Log, hi: nat)
    requires TermsOk(h) && GrowTerms(h, h') && t in h.llog && i <= |h.llog[t]|
    requires KeptUpTo(h, t, i, log, hi)
    ensures KeptUpTo(h', t, i, log, hi)
  {
    forall k | 1 <= k <= i ensures Kept(h', t, k, log, hi) {
      if Carried(h', t, k, hi) {
        CarriedShrinks(h, h', t, k, hi);
        assert Kept(h, t, k, log, hi);
        GrowAgree(h, h', log, t, k);
      }
    }
  }

  lemma BallotGrows(h: Hist, h': Hist, v: NodeId, t: nat)
    requires GrowTerms(h, h') && GrowVotes(h, h') && (v, t) in h.ballots && BallotOk(h, v, t)
    ensures BallotOk(h', v, t)
  {
    GoodLogGrows(h, h', h.ballots[(v, t)].log);
  }

  lemma HasAckGrows(cfg: JointConfig, h: Hist, h': Hist, x: Choice)
    requires Grow(h, h') && ChoiceOk(cfg, h, x)
    ensures ChoiceOk(cfg, h', x)
  {
    IsQuorumMono(cfg, AckedBy(cfg, h, x.term, x.index), AckedBy(cfg, h', x.term, x.index));
  }

  lemma DurableGrows(h: Hist, h': Hist)
    requires DurableOk(h) && GrowVotes(h, h') && h.durable == h'.durable
    ensures DurableOk(h')
  {
    forall v, t | (v, t) in h'.durable ensures CastFor(h', v, HardState(t, h'.durable[(v, t)])) {
      assert CastFor(h, v, HardState(t, h.durable[(v, t)]));
    }
  }
}
