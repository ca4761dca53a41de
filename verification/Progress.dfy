// A follower's progress as the leader keeps it (raft/tracker/progress.go) and
// the pipelined send loop (maybeSendAppend of raft/raft.go).
module Progress {
  import opened PlainLog
  import opened Inflights
  import S = ProgressSpec

  class Progress {
    var matched: nat
    var next: nat
    var state: S.PrState
    var pending: nat
    var probeSent: bool
    const inflights: Inflights

    ghost function View(): S.Pr
      reads this
    {
      S.Pr(matched, next, state, pending, probeSent)
    }

    ghost predicate Valid()
      reads this, inflights
    {
      inflights.Valid()
    }

    /** What NewInflights and raft.reset set up. */
    constructor (next: nat, maxInflight: nat)
      ensures Valid() && View() == S.Pr(0, next, S.Probe, 0, false) && fresh(inflights) && fresh(inflights.buffer)
      ensures inflights.size == maxInflight && inflights.Queue() == []
    {
      inflights := new Inflights(maxInflight);
      matched, this.next, state, pending, probeSent := 0, next, S.Probe, 0, false;
    }

    method ResetState(st: S.PrState)
      requires Valid()
      modifies this, inflights`start, inflights`count
      ensures Valid() && View() == S.ResetState(old(View()), st) && inflights.Queue() == []
    {
      probeSent := false;
      pending := 0;
      state := st;
      inflights.Reset();
    }

    method BecomeProbe()
      requires Valid()
      modifies this, inflights`start, inflights`count
      ensures Valid() && View() == S.BecomeProbe(old(View())) && inflights.Queue() == []
    {
      if state == S.Snapshot {
        var pendingSnapshot := pending;
        ResetState(S.Probe);
        next := Max(matched + 1, pendingSnapshot + 1);
      } else {
        ResetState(S.Probe);
        next := matched + 1;
      }
    }

    method BecomeReplicate()
      requires Valid()
      modifies this, inflights`start, inflights`count
      ensures Valid() && View() == S.BecomeReplicate(old(View())) && inflights.Queue() == []
    {
      ResetState(S.Replicate);
      next := matched + 1;
    }

    method MaybeUpdate(n: nat) returns (updated: bool)
      modifies this
      ensures View() == S.MaybeUpdate(old(View()), n) && updated == (old(matched) < n)
    {
      updated := false;
      if matched < n {
        matched := n;
        updated := true;
        probeSent := false;
      }
      next := Max(next, n + 1);
    }

    method MaybeDecrTo(rejected: nat, matchHint: nat) returns (decreased: bool)
      modifies this
      ensures View() == S.MaybeDecrTo(old(View()), rejected, matchHint)
      ensures decreased == S.Fresh(old(View()), rejected)
    {
      if state == S.Replicate {
        if rejected <= matched { return false; }
        next := matched + 1;
        return true;
      }
      if next - 1 != rejected { return false; }
      next := Max(Min(rejected, matchHint + 1), 1);
      probeSent := false;
      decreased := true;
    }

    method IsPaused() returns (paused: bool)
      requires Valid()
      ensures paused <==>
        match state
        case Probe => probeSent
        case Replicate => |inflights.Queue()| == inflights.size
        case Snapshot => true
    {
      match state {
        case Probe => paused := probeSent;
        case Replicate => paused := inflights.Full();
        case Snapshot => paused := true;
      }
    }

    /** A positive MsgAppResp, up to the decision whether to commit. */
    method OnAck(n: nat) returns (updated: bool)
      requires Valid()
      modifies this, inflights`start, inflights`count
      ensures Valid() && View() == S.OnAck(old(View()), n) && updated == (old(matched) < n)
      ensures old(matched) < n && old(state) == S.Replicate ==> inflights.Queue() == DropLE(old(inflights.Queue()), n)
    {
      updated := MaybeUpdate(n);
      if updated {
        if state == S.Probe {
          BecomeReplicate();
        } else if state == S.Snapshot && matched >= pending {
          BecomeProbe();
          BecomeReplicate();
        } else if state == S.Replicate {
          inflights.FreeLE(n);
        }
      }
    }

    /** A rejected append; `probe` is the leader's findConflictByTerm of the hint. */
    method OnReject(rejected: nat, probe: nat) returns (decreased: bool)
      requires Valid()
      modifies this, inflights`start, inflights`count
      ensures Valid() && decreased == S.Fresh(old(View()), rejected)
      ensures View() == var p := S.MaybeDecrTo(old(View()), rejected, probe);
                        if decreased && p.state == S.Replicate then S.BecomeProbe(p) else p
    {
      decreased := MaybeDecrTo(rejected, probe);
      if decreased && state == S.Replicate { BecomeProbe(); }
    }
  }
}

module Sending {
  import opened PlainLog
  import opened SizeLimit
  import opened Inflights
  import opened Progress
  import S = ProgressSpec

  /** The part of a MsgApp that matters here. */
  datatype Append = Append(index: nat, logTerm: nat, ents: seq<Entry>)

  /** Next is at least 1, as raft.reset and MaybeDecrTo leave it. */
  ghost predicate Ready(pr: Progress)
    reads pr, pr.inflights
  {
    pr.Valid() && pr.next >= 1
  }

  // ---------------------------------------------------------------------------
  // One call of maybeSendAppend
  // ---------------------------------------------------------------------------

  /** IsPaused, with `full` for a full inflight window. */
  predicate Paused(pr: S.Pr, full: bool) {
    match pr.state
    case Probe => pr.probeSent
    case Replicate => full
    case Snapshot => true
  }

  /** `m` carries at least one entry, from Next on, if there is one. */
  ghost predicate IsNext(log: Log, next: nat, m: Append) {
    && 1 <= next && m.index == next - 1 && m.logTerm == TermAt(log, m.index)
    && (m.ents != [] <==> next <= |log|)
    && (m.ents != [] ==> next + |m.ents| <= |log| + 1 && m.ents == Range(log, next, next + |m.ents|))
  }

  /** What sending m makes of the progress. */
  function Advanced(pr: S.Pr, m: Append): S.Pr {
    if m.ents == [] then pr
    else if pr.state == S.Replicate then S.OptimisticUpdate(pr, m.index + |m.ents|)
    else pr.(probeSent := true)
  }

  /** raftLog.entries: what fits, from i on; at least one entry when there is one. */
  method Entries(log: Log, i: nat, maxSize: Limit) returns (ents: seq<Entry>)
    requires 1 <= i
    ensures ents != [] <==> i <= |log|
    ensures ents != [] ==> i + |ents| <= |log| + 1 && ents == Range(log, i, i + |ents|)
    ensures ents != [] ==> ents == Limited(Range(log, i, |log| + 1), maxSize)
  {
    if i > |log| { return []; }
    ents := LimitSize(Range(log, i, |log| + 1), maxSize);
    assert ents == Range(log, i, |log| + 1)[..|ents|];
  }

  /** For a log that still holds everything from Next - 1 on. */
  method MaybeSendAppend(log: Log, pr: Progress, maxSize: Limit, sendIfEmpty: bool) returns (sent: bool, m: Append)
    requires Ready(pr)
    modifies pr, pr.inflights, pr.inflights.buffer
    ensures Ready(pr) && (pr.inflights.buffer == old(pr.inflights.buffer) || fresh(pr.inflights.buffer))
    ensures sent <==> (&& !Paused(old(pr.View()), |old(pr.inflights.Queue())| == pr.inflights.size)
                       && (old(pr.next) <= |log| || sendIfEmpty))
    ensures !sent ==> pr.View() == old(pr.View()) && pr.inflights.Queue() == old(pr.inflights.Queue())
    ensures sent ==> IsNext(log, old(pr.next), m) && pr.View() == Advanced(old(pr.View()), m)
    ensures sent ==>
              pr.inflights.Queue() == old(pr.inflights.Queue()) +
                if m.ents != [] && pr.state == S.Replicate then [m.index + |m.ents|] else []
  {
    m := Append(0, 0, []);
    var paused := pr.IsPaused();
    if paused { return false, m; }
    var ents := Entries(log, pr.next, maxSize);
    if |ents| == 0 && !sendIfEmpty { return false, m; }
    m := Append(pr.next - 1, TermAt(log, pr.next - 1), ents);
    if |ents| != 0 {
      if pr.state == S.Replicate {
        var last := pr.next - 1 + |ents|;
        pr.next := last + 1;
        pr.inflights.Add(last);
      } else {
        pr.probeSent := true;
      }
    }
    sent := true;
  }

  // ---------------------------------------------------------------------------
  // The pipelined send loop
  // ---------------------------------------------------------------------------

  /** The entries of all messages, first to last. */
  function Carried(msgs: seq<Append>): seq<Entry> {
    if msgs == [] then [] else Carried(msgs[..|msgs|-1]) + msgs[|msgs|-1].ents
  }

  /** Each message starts where the one before ended, the first after index `next` - 1. */
  ghost predicate Consecutive(log: Log, next: nat, msgs: seq<Append>) {
    next >= 1 && forall k | 0 <= k < |msgs| ::
      && msgs[k].ents != [] && msgs[k].index == next - 1 + |Carried(msgs[..k])|
      && msgs[k].logTerm == TermAt(log, msgs[k].index)
  }

  /** Where the messages end: one after the last entry they carry. */
  function End(next: nat, msgs: seq<Append>): nat { next + |Carried(msgs)| }

  /** The messages tile the log from `next` up to End. */
  ghost predicate Tiles(log: Log, next: nat, msgs: seq<Append>) {
    && 1 <= next && End(next, msgs) <= |log| + 1
    && Consecutive(log, next, msgs) && Carried(msgs) == Range(log, next, End(next, msgs))
  }

  lemma CarriedMore(msgs: seq<Append>, m: Append)
    ensures Carried(msgs + [m]) == Carried(msgs) + m.ents
  {
    assert (msgs + [m])[..|msgs|] == msgs;
  }

  lemma ConsecutiveMore(log: Log, next: nat, msgs: seq<Append>, m: Append)
    requires Consecutive(log, next, msgs) && m.ents != []
    requires m.index == next - 1 + |Carried(msgs)| && m.logTerm == TermAt(log, m.index)
    ensures Consecutive(log, next, msgs + [m])
  {
    hide Carried;
    var all := msgs + [m];
    forall k | 0 <= k < |all|
      ensures all[k].ents != [] && all[k].index == next - 1 + |Carried(all[..k])|
      ensures all[k].logTerm == TermAt(log, all[k].index)
    {
      assert all[..k] == if k < |msgs| then msgs[..k] else msgs;
    }
  }

  lemma RangeMore(log: Log, lo: nat, mid: nat, hi: nat)
    requires 1 <= lo <= mid <= hi <= |log| + 1
    ensures Range(log, lo, mid) + Range(log, mid, hi) == Range(log, lo, hi)
  {
  }

  lemma TilesMore(log: Log, next: nat, msgs: seq<Append>, m: Append)
    requires Tiles(log, next, msgs) && IsNext(log, End(next, msgs), m) && End(next, msgs) <= |log|
    ensures m.ents != [] && m.index == End(next, msgs) - 1
    ensures Tiles(log, next, msgs + [m]) && End(next, msgs + [m]) == End(next, msgs) + |m.ents| <= |log| + 1
  {
    hide Carried, Range, Consecutive;
    var mid := End(next, msgs);
    CarriedMore(msgs, m);
    ConsecutiveMore(log, next, msgs, m);
    RangeMore(log, next, mid, mid + |m.ents|);
  }

  lemma TilesNone(log: Log, next: nat)
    requires 1 <= next <= |log| + 1
    ensures Tiles(log, next, []) && End(next, []) == next
  {
  }

  /**
   * for r.maybeSendAppend(to, false) { }: while replicating, the messages tile
   * the log from Next on, without gap or overlap, until the log or the window
   * is exhausted; while probing at most one is sent; otherwise none.
   */
  method SendLoop(log: Log, pr: Progress, maxSize: Limit) returns (msgs: seq<Append>)
    requires Ready(pr) && pr.next <= |log| + 1
    modifies pr, pr.inflights, pr.inflights.buffer
    ensures Ready(pr) && pr.View() == old(pr.View()).(next := pr.next, probeSent := pr.probeSent)
    ensures Tiles(log, old(pr.next), msgs)
    ensures pr.next == if pr.state == S.Replicate then End(old(pr.next), msgs) else old(pr.next)
    ensures |pr.inflights.Queue()| == |old(pr.inflights.Queue())| + if pr.state == S.Replicate then |msgs| else 0
    ensures pr.state != S.Replicate ==> |msgs| <= 1 && (Paused(old(pr.View()), false) ==> msgs == [])
    ensures pr.next == |log| + 1 || Paused(pr.View(), |pr.inflights.Queue()| == pr.inflights.size)
  {
    msgs := [];
    ghost var v0, q0 := pr.View(), |pr.inflights.Queue()|;
    TilesNone(log, v0.next);
    hide Tiles, IsNext, End, Ring;
    while true
      invariant Ready(pr) && pr.View() == v0.(next := pr.next, probeSent := pr.probeSent) && pr.next <= |log| + 1
      invariant pr.inflights.buffer == old(pr.inflights.buffer) || fresh(pr.inflights.buffer)
      invariant Tiles(log, v0.next, msgs)
      invariant pr.next == if v0.state == S.Replicate then End(v0.next, msgs) else v0.next
      invariant |pr.inflights.Queue()| == q0 + if v0.state == S.Replicate then |msgs| else 0
      invariant msgs == [] ==> pr.probeSent == v0.probeSent && End(v0.next, msgs) == v0.next
      invariant v0.state != S.Replicate && msgs != [] ==> |msgs| == 1 && Paused(pr.View(), false) && !Paused(v0, false)
      decreases |log| + 1 - pr.next, if pr.probeSent then 0 else 1
    {
      var sent, m := MaybeSendAppend(log, pr, maxSize, false);
      if !sent { break; }
      TilesMore(log, v0.next, msgs, m);
      msgs := msgs + [m];
    }
  }
}
