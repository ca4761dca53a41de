// The raft struct of raft/raft.go: methods that update its fields and its log in
// place, each against the function of RaftNode that specifies it. Methods return
// the messages they hand to Keeper.Send and the hard states to SetHardState.
module Raft {
  import opened Quorum
  import opened PlainLog
  import opened RaftLog
  import P = ProgressSpec
  import N = RaftNode
  import L = LogSpec
  import D = Delivery

  type Msg = N.Msg

  function Sent(msgs: seq<Msg>): set<Msg> { set m | m in msgs }

  /** What the visit in raft.reset leaves of the progress map. */
  function Anew(prs: map<NodeId, P.Pr>, id: NodeId, last: nat): map<NodeId, P.Pr> {
    map j | j in prs :: P.Pr(if j == id then last else 0, last + 1, P.Probe, 0, false)
  }

  method ResetProgress(prs: map<NodeId, P.Pr>, id: NodeId, last: nat) returns (r: map<NodeId, P.Pr>)
    ensures r == Anew(prs, id, last)
  {
    r := prs;
    var todo := prs.Keys;
    while todo != {}
      invariant todo <= prs.Keys && r.Keys == prs.Keys
      invariant forall j | j in prs && j !in todo :: r[j] == Anew(prs, id, last)[j]
      decreases todo
    {
      var j :| j in todo;
      r := r[j := P.Pr(if j == id then last else 0, last + 1, P.Probe, 0, false)];
      todo := todo - {j};
    }
  }

  /** A vote request to every voter but the candidate itself. */
  method VoteRequests(ids: set<NodeId>, id: NodeId, term: nat, last: nat, lastTerm: nat) returns (msgs: seq<Msg>)
    ensures Sent(msgs) == set j | j in ids && j != id :: N.Vote(id, j, term, last, lastTerm)
  {
    msgs := [];
    var todo := ids;
    while todo != {}
      invariant todo <= ids
      invariant forall m | m in msgs ::
        m.Vote? && m.to in ids && m.to != id && m == N.Vote(id, m.to, term, last, lastTerm)
      invariant forall j | j in ids && j !in todo && j != id :: N.Vote(id, j, term, last, lastTerm) in msgs
      decreases todo
    {
      var j :| j in todo;
      if j != id { msgs := msgs + [N.Vote(id, j, term, last, lastTerm)]; }
      todo := todo - {j};
    }
  }

  class Raft {
    const id: NodeId
    const cfg: JointConfig
    const raftLog: RaftLog
    const answers: bool      // checkQuorum or preVote is on
    var term: nat
    var vote: NodeId
    var role: N.Role
    var lead: NodeId
    var voted: bool
    var receiving: bool
    var termStart: nat
    var prs: map<NodeId, P.Pr>
    var votes: map<NodeId, bool>

    /** The node as the step functions see it, terms of compacted entries hidden. */
    ghost function View(): N.Node
      reads this, raftLog, raftLog.storage, raftLog.unstable
    {
      N.Node(id, term, vote, role, lead, voted, receiving, termStart,
             raftLog.Seen(), raftLog.committed, raftLog.unstable.offset, prs, votes)
    }

    ghost predicate Valid()
      reads this, raftLog, raftLog.storage, raftLog.unstable, raftLog.inflight
    {
      raftLog.Valid() && cfg.incoming != {}
    }

    /** Between stableTo and localCommitTo of one step. */
    ghost predicate Lagging()
      reads this, raftLog, raftLog.storage, raftLog.unstable, raftLog.inflight
    {
      raftLog.Refines() && L.Lagging(raftLog.State()) && cfg.incoming != {}
    }

    constructor (id: NodeId, cfg: JointConfig, raftLog: RaftLog, peers: set<NodeId>, answers: bool)
      requires raftLog.Valid() && cfg.incoming != {}
      ensures Valid() && this.id == id && this.cfg == cfg && this.raftLog == raftLog && this.answers == answers
      ensures term == 0 && vote == N.NONE && role == N.Follower && lead == N.NONE && !voted && !receiving
      ensures prs == map j | j in peers ::
                P.Pr(if j == id then |raftLog.plain| else 0, |raftLog.plain| + 1, P.Probe, 0, false)
    {
      this.id, this.cfg, this.raftLog, this.answers := id, cfg, raftLog, answers;
      term, vote, role, lead, voted, receiving, termStart := 0, N.NONE, N.Follower, N.NONE, false, false, 0;
      votes := map[];
      var last := raftLog.LastIndex();
      prs := map j | j in peers :: P.Pr(if j == id then last else 0, last + 1, P.Probe, 0, false);
    }

    // -------------------------------------------------------------------------
    // Role changes
    // -------------------------------------------------------------------------

    method Reset(t: nat)
      requires Valid()
      modifies this
      ensures Valid() && View() == N.Reset(old(View()), t)
    {
      hide Splits, L.Inv;
      if term != t {
        term := t;
        vote := N.NONE;
      }
      lead := N.NONE;
      receiving := false;
      voted := false;
      votes := map[];
      var last := raftLog.LastIndex();
      prs := ResetProgress(prs, id, last);
    }

    method BecomeFollower(t: nat, l: NodeId)
      requires Valid()
      modifies this
      ensures Valid() && View() == N.BecomeFollower(old(View()), t, l)
    {
      Reset(t);
      lead := l;
      role := N.Follower;
    }

    method BecomeFollowerExt(t: nat, l: NodeId) returns (hard: seq<N.HardState>)
      requires Valid()
      modifies this
      ensures Valid() && N.Out(View(), {}, hard) == N.BecomeFollowerExt(old(View()), t, l)
    {
      BecomeFollower(t, l);
      hard := [N.HardState(term, vote)];
    }

    /** Panics for a leader. */
    method BecomeCandidate()
      requires Valid() && role != N.Leader
      modifies this
      ensures Valid() && View() == N.BecomeCandidate(old(View()))
    {
      Reset(term + 1);
      vote := id;
      role := N.Candidate;
    }

    method BecomeLeader()
      requires Valid() && role != N.Follower
      modifies this, raftLog, raftLog.unstable, raftLog.inflight
      ensures Valid() && View() == N.BecomeLeader(old(View()))
    {
      hide Splits, L.Inv, Masked;
      Reset(term);
      lead := id;
      role := N.Leader;
      if id in prs { prs := prs[id := P.BecomeReplicate(prs[id])]; }
      var last := raftLog.LastIndex();
      AppendEntry([N.EMPTY_ENTRY]);
      termStart := last + 1;
    }

    /** campaign for a real election: a vote request to every other voter. */
    method Campaign() returns (msgs: seq<Msg>, hard: seq<N.HardState>)
      requires Valid() && role != N.Leader
      modifies this
      ensures Valid() && N.Out(View(), Sent(msgs), hard) == N.Campaign(cfg, old(View()))
    {
      BecomeCandidate();
      hard := [N.HardState(term, vote)];
      var last := raftLog.LastIndex();
      var lastTerm := raftLog.Term(last);
      msgs := VoteRequests(cfg.IDs(), id, term, last, lastTerm);
    }

    // -------------------------------------------------------------------------
    // Elections
    // -------------------------------------------------------------------------

    method IsUpToDate(lasti: nat, t: nat) returns (ok: bool)
      requires Valid()
      ensures ok == PlainLog.IsUpToDate(raftLog.Seen(), lasti, t)
    {
      var last := raftLog.LastIndex();
      var lastTerm := raftLog.Term(last);
      ok := t > lastTerm || (t == lastTerm && lasti >= last);
    }

    method HandleVote(m: Msg) returns (msgs: seq<Msg>, hard: seq<N.HardState>)
      requires Valid() && m.Vote? && m.term >= term
      modifies this
      ensures Valid() && N.Out(View(), Sent(msgs), hard) == N.HandleVote(old(View()), m)
    {
      hide Splits, L.Inv, TermAt;
      msgs, hard := [], [];
      if m.term == term {
        if m.from == lead {
          if voted { msgs := [N.VoteResp(id, m.from, term, false)]; }
        } else {
          msgs := [N.VoteResp(id, m.from, term, true)];
        }
        return;
      }
      BecomeFollower(m.term, N.NONE);
      var upToDate := IsUpToDate(m.index, m.logTerm);
      if vote == N.NONE && lead == N.NONE && upToDate {
        vote := m.from;
        hard := [N.HardState(term, vote)];
      } else {
        hard := [N.HardState(term, vote)];
        msgs := [N.VoteResp(id, m.from, term, true)];
      }
    }

    /** Records a vote and tallies; the first answer of a peer counts. */
    method Poll(from: NodeId, granted: bool) returns (r: VoteResult)
      modifies `votes
      ensures votes == RecordVote(old(votes), from, granted) && r == JointVote(cfg, votes)
    {
      if from !in votes { votes := votes[from := granted]; }
      r := JointVoteResult(cfg, votes);
    }

    method HandleStatePersisted(t: nat, v: NodeId) returns (msgs: seq<Msg>)
      requires Valid() && role != N.Leader
      modifies this, raftLog, raftLog.unstable, raftLog.inflight
      ensures Valid() && N.Out(View(), Sent(msgs), []) == N.HandleStatePersisted(cfg, old(View()), N.HardState(t, v))
    {
      msgs := [];
      if t != term || v == N.NONE { return; }
      if v == id {
        if role == N.Candidate {
          var r := Poll(id, true);
          if r == VoteWon { BecomeLeader(); }
        }
      } else {
        voted := true;
        msgs := [N.VoteResp(id, v, t, false)];
      }
    }

    method HandleVoteResp(m: Msg) returns (hard: seq<N.HardState>)
      requires Valid() && m.VoteResp?
      modifies this, raftLog, raftLog.unstable, raftLog.inflight
      ensures Valid() && N.Out(View(), {}, hard) == N.HandleVoteResp(cfg, old(View()), m)
    {
      hard := [];
      if role != N.Candidate { return; }
      var r := Poll(m.from, !m.reject);
      match r {
        case VoteWon => BecomeLeader();
        case VoteLost => hard := BecomeFollowerExt(term, N.NONE);
        case VotePending =>
      }
    }

    // -------------------------------------------------------------------------
    // Replication
    // -------------------------------------------------------------------------

    method HandleAppendEntries(m: Msg) returns (msgs: seq<Msg>, panics: bool)
      requires Valid() && m.App?
      modifies this, raftLog, raftLog.unstable, raftLog.inflight
      ensures panics == N.AppendPanics(old(View()), m)
      ensures !panics ==> Valid() && N.Out(View(), Sent(msgs), []) == N.HandleAppendEntries(old(View()), m)
    {
      hide Splits, L.Inv, L.MaybeAppend, L.Taken, Accept, FindConflict, TermAt, Masked;
      msgs, panics := [], false;
      if m.index < raftLog.committed {
        msgs := [N.AppResp(id, m.from, term, raftLog.committed)];
        return;
      }
      raftLog.SeenChanges(m.index, m.ents);
      var ok;
      ok, panics := raftLog.MaybeAppend(m.index, m.logTerm, m.commit, m.ents);
      if panics { return; }
      if !ok {
        var last := raftLog.LastIndex();
        var hint := raftLog.FindConflictByTerm(Min(m.index, last), m.logTerm);
        var hintTerm := raftLog.Term(hint);
        msgs := [N.AppReject(id, m.from, term, m.index, hint, hintTerm)];
      } else if !receiving {
        receiving := true;
      }
    }

    method StepApp(m: Msg) returns (msgs: seq<Msg>, panics: bool)
      requires Valid() && m.App? && m.term == term
      modifies this, raftLog, raftLog.unstable, raftLog.inflight
      ensures !panics ==> Valid() && N.Out(View(), Sent(msgs), []) == N.StepApp(old(View()), m)
      ensures panics <==> old(role) != N.Leader && N.AppendPanics(old(View()), m)
    {
      hide Splits, L.Inv, FindConflict, Accept, TermAt;
      match role {
        case Leader => return [], false;
        case Follower =>
          if m.from != lead { lead := m.from; }
        case _ => BecomeFollower(m.term, m.from);
      }
      msgs, panics := HandleAppendEntries(m);
    }

    method StepHeartbeat(m: Msg) returns (panics: bool)
      requires Valid() && m.Heartbeat? && m.term == term
      modifies this, raftLog, raftLog.inflight
      ensures panics <==> old(role) != N.Leader && m.commit > Max(old(raftLog.committed), |old(raftLog.plain)|)
      ensures !panics ==> Valid() && N.Quiet(View()) == N.StepHeartbeat(old(View()), m)
    {
      hide Splits, L.SortedIn, L.CommitTo;
      match role {
        case Leader => return false;
        case Follower => lead := m.from;
        case _ => BecomeFollower(m.term, m.from);
      }
      panics := raftLog.CommitTo(m.commit);
    }

    // -------------------------------------------------------------------------
    // The leader
    // -------------------------------------------------------------------------

    /** proposeLeader past its guards: the entries get the leader's term and go to the end of the log. */
    method AppendEntry(ents: seq<Entry>)
      requires Valid()
      modifies raftLog, raftLog.unstable, raftLog.inflight
      ensures Valid() && View() == N.AppendEntries(old(View()), ents)
    {
      hide Splits, L.Inv, L.AppendAt, L.AppendOk, Masked, FindConflict, Accept, L.Taken;
      var last := raftLog.LastIndex();
      var es := N.Stamp(ents, term);
      raftLog.AppendLast(es);
      raftLog.SeenChanges(0, es);
      var _, panics := raftLog.Append(last + 1, es);
    }

    /** `mci` is the commit index of the joint quorum; commitTo panics beyond the log. */
    method MaybeCommit() returns (mci: nat, changed: bool, panics: bool)
      requires Lagging()
      modifies raftLog, raftLog.inflight
      ensures IsJointCommitted(cfg, N.Matches(prs), At(mci))
      ensures changed == (mci >= termStart && mci > old(raftLog.committed))
      ensures panics <==> changed && mci > |old(raftLog.plain)|
      ensures !panics ==> View() == N.MaybeCommit(old(View()), mci)
      ensures !panics && changed ==> Valid()
      ensures !changed ==> Lagging() && raftLog.State() == old(raftLog.State())
    {
      hide Splits, L.CommitTo;
      var b := JointCommittedIndex(cfg, N.Matches(prs));
      mci, panics := b.index, false;
      changed := mci >= termStart && mci > raftLog.committed;
      if changed { panics := raftLog.CommitTo(mci); }
    }

    /** MsgLogStatus in any role; the keeper has no write queued at or below i. */
    method LogStatus(i: nat, t: nat) returns (msgs: seq<Msg>, mci: nat, panics: bool)
      requires Valid()
      requires L.Accepts(raftLog.State(), i, t) ==> Above(raftLog.writes, i)
      modifies this, raftLog, raftLog.unstable, raftLog.inflight
      ensures old(role) == N.Leader && N.StableToOk(old(View()), i, t) ==>
                IsJointCommitted(cfg, N.Matches(N.SelfAcked(old(View()), i).prs), At(mci))
      ensures panics ==> old(role) == N.Leader && mci > |old(raftLog.plain)|
      ensures !panics ==> Valid() && N.Out(View(), Sent(msgs), []) == N.HandleLogStatus(old(View()), i, t, mci)
    {
      msgs, mci, panics := [], 0, false;
      if role == N.Leader {
        mci, panics := LeaderLogStatus(i, t);
      } else {
        hide Splits, L.Inv, L.StableTo, TermAt, Masked;
        raftLog.SeenTail(i);
        var ok := raftLog.LogStatus(i, t);
        if ok && role == N.Follower && receiving { msgs := [N.AppResp(id, lead, term, i)]; }
      }
    }

    /** The leader's own progress moves first, so the report may commit. */
    method LeaderLogStatus(i: nat, t: nat) returns (mci: nat, panics: bool)
      requires Valid() && role == N.Leader
      requires L.Accepts(raftLog.State(), i, t) ==> Above(raftLog.writes, i)
      modifies this, raftLog, raftLog.unstable, raftLog.inflight
      ensures N.StableToOk(old(View()), i, t) ==>
                IsJointCommitted(cfg, N.Matches(N.SelfAcked(old(View()), i).prs), At(mci))
      ensures panics ==> mci > |old(raftLog.plain)|
      ensures !panics ==> Valid() && N.Quiet(View()) == N.HandleLogStatus(old(View()), i, t, mci)
    {
      hide Splits, IsJointCommitted, TermAt, L.SortedIn, L.Deliver, Masked;
      mci, panics := 0, false;
      raftLog.SeenTail(i);
      var ok := raftLog.StableTo(i, t);
      if !ok { return; }
      if id in prs { prs := prs[id := P.MaybeUpdate(prs[id], i)]; }
      var changed;
      mci, changed, panics := MaybeCommit();
      if !changed {
        L.LocalCommitKeepsInv(raftLog.State(), raftLog.committed);
        raftLog.LocalCommitTo(raftLog.committed);
      }
    }

    method StepAppResp(m: Msg) returns (mci: nat, panics: bool)
      requires Valid() && m.AppResp?
      modifies this, raftLog, raftLog.inflight
      ensures old(role) == N.Leader && m.from in old(prs) && old(prs)[m.from].matched < m.index ==>
                IsJointCommitted(cfg, N.Matches(N.Acked(old(View()), m.from, m.index).prs), At(mci))
      ensures panics <==>
                && old(role) == N.Leader && m.from in old(prs) && old(prs)[m.from].matched < m.index
                && mci >= old(termStart) && mci > Max(old(raftLog.committed), |old(raftLog.plain)|)
      ensures !panics ==> Valid() && N.Quiet(View()) == N.StepAppResp(old(View()), m, mci)
    {
      hide Splits, L.SortedIn, IsJointCommitted;
      mci, panics := 0, false;
      if role != N.Leader || m.from !in prs { return; }
      var updated := prs[m.from].matched < m.index;
      prs := prs[m.from := P.OnAck(prs[m.from], m.index)];
      if updated {
        var changed;
        mci, changed, panics := MaybeCommit();
      }
    }

    method StepAppReject(m: Msg)
      requires Valid() && m.AppReject?
      modifies this
      ensures Valid() && N.Quiet(View()) == N.StepAppReject(old(View()), m)
    {
      hide Splits, L.Inv;
      if role != N.Leader || m.from !in prs { return; }
      var probe := m.hint;
      if m.logTerm > 0 { probe := raftLog.FindConflictByTerm(m.hint, m.logTerm); }
      var pr := prs[m.from];
      var p := P.MaybeDecrTo(pr, m.index, probe);
      if P.Fresh(pr, m.index) && p.state == P.Replicate { p := P.BecomeProbe(p); }
      prs := prs[m.from := p];
    }

    // -------------------------------------------------------------------------
    // Step
    // -------------------------------------------------------------------------

    /** A message of the node's own term, by type and role. */
    method Handle(m: Msg) returns (msgs: seq<Msg>, hard: seq<N.HardState>, mci: nat, panics: bool)
      requires Valid() && !m.Vote? && m.term == term
      modifies this, raftLog, raftLog.unstable, raftLog.inflight
      ensures D.ReadsIndex(cfg, old(View()), m, mci) && (panics <==> D.HandlePanics(old(View()), m, mci))
      ensures !panics ==> Valid() && N.Out(View(), Sent(msgs), hard) == D.Handle(cfg, old(View()), m, mci)
    {
      hide Splits, L.Inv, IsJointCommitted;
      msgs, hard, mci, panics := [], [], 0, false;
      match m {
        case VoteResp(_, _, _, _) => hard := HandleVoteResp(m);
        case App(_, _, _, _, _, _, _) => msgs, panics := StepApp(m);
        case AppResp(_, _, _, _) => mci, panics := StepAppResp(m);
        case AppReject(_, _, _, _, _, _) => StepAppReject(m);
        case Heartbeat(_, _, _, _) => panics := StepHeartbeat(m);
      }
    }

    /** raft.Step on a message from the network. */
    method Step(m: Msg) returns (msgs: seq<Msg>, hard: seq<N.HardState>, mci: nat, panics: bool)
      requires Valid()
      modifies this, raftLog, raftLog.unstable, raftLog.inflight
      ensures D.ReadsIndex(cfg, old(View()), m, mci) && (panics <==> D.StepPanics(old(View()), m, mci))
      ensures !panics ==> Valid() && N.Out(View(), Sent(msgs), hard) == D.Step(cfg, old(View()), m, mci, answers)
    {
      hide Splits, L.Inv, D.Handle, D.HandlePanics, N.HandleVote, IsJointCommitted;
      msgs, hard, mci, panics := [], [], 0, false;
      if m.term < term {
        if answers && (m.App? || m.Heartbeat?) { msgs := [N.AppResp(id, m.from, term, 0)]; }
      } else if m.Vote? {
        msgs, hard := HandleVote(m);
      } else if m.term == term {
        msgs, hard, mci, panics := Handle(m);
      } else {
        var first := BecomeFollowerExt(m.term, if m.App? || m.Heartbeat? then m.from else N.NONE);
        msgs, hard, mci, panics := Handle(m);
        hard := first + hard;
      }
    }
  }
}
