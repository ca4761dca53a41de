// A follower's progress in the leader's eyes, as a value (raft/tracker/progress.go).
module ProgressSpec {
  import opened PlainLog

  datatype PrState = Probe | Replicate | Snapshot

  datatype Pr = Pr(matched: nat, next: nat, state: PrState, pending: nat, probeSent: bool)

  function ResetState(pr: Pr, state: PrState): Pr {
    pr.(probeSent := false, pending := 0, state := state)
  }

  function BecomeProbe(pr: Pr): Pr {
    var next := if pr.state == Snapshot then Max(pr.matched + 1, pr.pending + 1) else pr.matched + 1;
    ResetState(pr, Probe).(next := next)
  }

  function BecomeReplicate(pr: Pr): Pr {
    ResetState(pr, Replicate).(next := pr.matched + 1)
  }

  function MaybeUpdate(pr: Pr, n: nat): Pr {
    var p := if pr.matched < n then pr.(matched := n, probeSent := false) else pr;
    p.(next := Max(pr.next, n + 1))
  }

  function OptimisticUpdate(pr: Pr, n: nat): Pr { pr.(next := n + 1) }

  /** Is a rejection of the append at `rejected` fresh? (uint64 `Next-1` wraps at 0) */
  predicate Fresh(pr: Pr, rejected: nat) {
    if pr.state == Replicate then rejected > pr.matched else pr.next == rejected + 1
  }

  function MaybeDecrTo(pr: Pr, rejected: nat, hint: nat): Pr {
    if !Fresh(pr, rejected) then pr
    else if pr.state == Replicate then pr.(next := pr.matched + 1)
    else pr.(next := Max(Min(rejected, hint + 1), 1), probeSent := false)
  }

  /** The leader's reaction to a positive MsgAppResp. */
  function OnAck(pr: Pr, n: nat): Pr {
    var p := MaybeUpdate(pr, n);
    if pr.matched >= n then p
    else match p.state
      case Probe => BecomeReplicate(p)
      case Snapshot => if p.matched >= p.pending then BecomeReplicate(BecomeProbe(p)) else p
      case Replicate => p
  }

  /** The leader's reaction to a rejected append, given its own log. */
  function OnReject(pr: Pr, log: Log, rejected: nat, hint: nat, hintTerm: nat): Pr {
    var probe := if hintTerm > 0 then FindConflictByTerm(log, hint, hintTerm) else hint;
    var p := MaybeDecrTo(pr, rejected, probe);
    if Fresh(pr, rejected) && p.state == Replicate then BecomeProbe(p) else p
  }
}
