// Fast back-tracking after rejected appends: where the probes go, that they
// never skip the common prefix, and how many can be rejected.
module Backtracking {
  import opened Quorum
  import opened PlainLog
  import opened ProgressSpec
  import opened RaftNode

  predicate PositiveTerms(log: Log) { forall i | 0 <= i < |log| :: log[i].term >= 1 }

  /** Both logs as Raft keeps them: terms start at 1 and never go down. */
  predicate Probed(L: Log, F: Log, p: nat) {
    TermsMonotone(L) && TermsMonotone(F) && PositiveTerms(L) && PositiveTerms(F) && p <= |L|
  }

  /** Does a follower with log F refuse an append after index p of leader log L? */
  predicate Refused(L: Log, F: Log, p: nat) { TermAt(F, p) != TermAt(L, p) }

  function Hint(L: Log, F: Log, p: nat): nat {
    FindConflictByTerm(F, Min(p, |F|), TermAt(L, p))
  }

  /** The probe that follows a refused one, as MaybeDecrTo leaves Next. */
  function NextProbe(L: Log, F: Log, p: nat): (q: nat)
    requires Probed(L, F, p) && Refused(L, F, p)
    ensures q < p
  {
    var hint := Hint(L, F, p);
    OnReject(Pr(0, p + 1, Probe, 0, true), L, p, hint, TermAt(F, hint)).next - 1
  }

  /** The refused probes, first to last, when the leader starts probing at p. */
  function Refusals(L: Log, F: Log, p: nat): seq<nat>
    requires Probed(L, F, p)
  {
    if Refused(L, F, p) then [p] + Refusals(L, F, NextProbe(L, F, p)) else []
  }

  /** The probe the follower accepts in the end. */
  function Found(L: Log, F: Log, p: nat): nat
    requires Probed(L, F, p)
  {
    if Refused(L, F, p) then Found(L, F, NextProbe(L, F, p)) else p
  }

  // ---------------------------------------------------------------------------
  // The round trip these functions describe
  // ---------------------------------------------------------------------------

  /**
   * One round of real messages: the follower answers an append that does not
   * fit with a rejection, and the leader's probe moves to NextProbe.
   */
  lemma RejectionRound(follower: Node, leader: Node, m: Msg)
    requires m.App? && m.to == follower.id && m.index >= follower.committed && follower.id in leader.prs
    requires m.logTerm == TermAt(leader.log, m.index) && Probed(leader.log, follower.log, m.index)
    requires leader.role == Leader && leader.prs[follower.id].state == Probe
    requires leader.prs[follower.id].next == m.index + 1
    requires Refused(leader.log, follower.log, m.index)
    ensures var out := HandleAppendEntries(follower, m);
      out.node == follower && exists r ::
        && out.msgs == {r} && r.AppReject? && r.from == follower.id && r.to == m.from
        && var pr := StepAppReject(leader, r).node.prs[follower.id];
           pr.state == Probe && !pr.probeSent && pr.next - 1 == NextProbe(leader.log, follower.log, m.index)
  {
    var hint := Hint(leader.log, follower.log, m.index);
    var r := AppReject(follower.id, m.from, follower.term, m.index, hint, TermAt(follower.log, hint));
    assert HandleAppendEntries(follower, m).msgs == {r};
  }

  // ---------------------------------------------------------------------------
  // Soundness
  // ---------------------------------------------------------------------------

  /** A refused probe is never followed by one below an index at which the logs have the same term. */
  lemma NextProbeSound(L: Log, F: Log, p: nat, k: nat)
    requires Probed(L, F, p) && Refused(L, F, p)
    requires k <= p && k <= |F| && !Refused(L, F, k)
    ensures k <= NextProbe(L, F, p)
  {
    var hint := Hint(L, F, p);
    assert TermAt(L, k) <= TermAt(L, p);
    assert k <= hint;
    assert TermAt(F, k) <= TermAt(F, hint);
  }

  /** Two refused probes in a row: the leader's term at the second is smaller. */
  lemma TermsDrop(L: Log, F: Log, p: nat)
    requires Probed(L, F, p) && Refused(L, F, p) && Refused(L, F, NextProbe(L, F, p))
    ensures TermAt(L, NextProbe(L, F, p)) < TermAt(L, p)
  {
    var hint, q := Hint(L, F, p), NextProbe(L, F, p);
    assert TermAt(L, q) <= TermAt(L, p);
    assert TermAt(F, hint) <= TermAt(L, p);
    if TermAt(F, hint) == TermAt(L, p) {
      assert hint < p;
      assert TermAt(L, hint) <= TermAt(L, p);
    } else {
      assert TermAt(L, FindConflictByTerm(L, hint, TermAt(F, hint))) <= TermAt(F, hint);
    }
  }

  /**
   * Back-tracking ends at the largest index not above the first probe at which
   * both logs have the same term; by Log Matching that is their common prefix.
   */
  lemma {:induction false} FindsCommonPrefix(L: Log, F: Log, p: nat, k: nat)
    requires Probed(L, F, p)
    ensures Found(L, F, p) <= p && !Refused(L, F, Found(L, F, p))
    ensures k <= p && k <= |F| && !Refused(L, F, k) ==> k <= Found(L, F, p)
    decreases p
  {
    if Refused(L, F, p) {
      if k <= p && k <= |F| && !Refused(L, F, k) { NextProbeSound(L, F, p, k); }
      FindsCommonPrefix(L, F, NextProbe(L, F, p), k);
    }
  }

  // ---------------------------------------------------------------------------
  // The bound
  // ---------------------------------------------------------------------------

  /** The distinct terms among the first p entries. */
  function TermsUpTo(L: Log, p: nat): set<nat>
    requires p <= |L|
  {
    set i | 0 <= i < p :: L[i].term
  }

  lemma FewerTerms(L: Log, q: nat, p: nat)
    requires TermsMonotone(L) && PositiveTerms(L) && q <= p <= |L| && TermAt(L, q) < TermAt(L, p)
    ensures TermsUpTo(L, q) <= TermsUpTo(L, p) - {TermAt(L, p)}
    ensures |TermsUpTo(L, q)| < |TermsUpTo(L, p)|
  {
    assert L[p-1].term in TermsUpTo(L, p);
    SubsetSize(TermsUpTo(L, q), TermsUpTo(L, p) - {TermAt(L, p)});
  }

  /** At most one probe is refused per distinct term in the leader's log. */
  lemma {:induction false} RefusalsBounded(L: Log, F: Log, p: nat)
    requires Probed(L, F, p)
    ensures |Refusals(L, F, p)| <= |TermsUpTo(L, p)|
    decreases p
  {
    if Refused(L, F, p) {
      assert L[p-1].term in TermsUpTo(L, p);
      var q := NextProbe(L, F, p);
      if Refused(L, F, q) {
        TermsDrop(L, F, p);
        FewerTerms(L, q, p);
        RefusalsBounded(L, F, q);
      } else {
        assert Refusals(L, F, q) == [];
      }
    }
  }
}
