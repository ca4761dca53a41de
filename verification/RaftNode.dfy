// One raft node as a value: what each step of raft/raft.go does to it, which
// messages it sends and which hard state it hands to the keeper.
module RaftNode {
  import opened Quorum
  import opened PlainLog
  import opened ProgressSpec

  const NONE: NodeId := 0

  datatype Role = Follower | PreCandidate | Candidate | Leader

  datatype HardState = HardState(term: nat, vote: NodeId)

  datatype Node = Node(
    id: NodeId, term: nat, vote: NodeId, role: Role, lead: NodeId,
    voted: bool, receiving: bool, termStart: nat,
    log: Log, committed: nat, offset: nat,
    prs: map<NodeId, Pr>, votes: map<NodeId, bool>)

  datatype Msg =
    | Vote(from: NodeId, to: NodeId, term: nat, index: nat, logTerm: nat)
    | VoteResp(from: NodeId, to: NodeId, term: nat, reject: bool)
    | App(from: NodeId, to: NodeId, term: nat, index: nat, logTerm: nat, ents: seq<Entry>, commit: nat)
    | AppResp(from: NodeId, to: NodeId, term: nat, index: nat)
    | AppReject(from: NodeId, to: NodeId, term: nat, index: nat, hint: nat, logTerm: nat)
    | Heartbeat(from: NodeId, to: NodeId, term: nat, commit: nat)

  /** The effects of a step: new state, messages sent, hard states queued for persistence. */
  datatype Out = Out(node: Node, msgs: set<Msg>, hard: seq<HardState>)

  function Hard(n: Node): HardState { HardState(n.term, n.vote) }

  function Quiet(n: Node): Out { Out(n, {}, []) }

  // ---------------------------------------------------------------------------
  // Role changes
  // ---------------------------------------------------------------------------

  function Reset(n: Node, term: nat): Node {
    n.(term := term,
       vote := if n.term != term then NONE else n.vote,
       lead := NONE, receiving := false, voted := false, votes := map[],
       prs := map j | j in n.prs ::
         Pr(if j == n.id then |n.log| else 0, |n.log| + 1, Probe, 0, false))
  }

  function BecomeFollower(n: Node, term: nat, lead: NodeId): Node {
    Reset(n, term).(lead := lead, role := Follower)
  }

  function BecomeFollowerExt(n: Node, term: nat, lead: NodeId): Out {
    var n' := BecomeFollower(n, term, lead);
    Out(n', {}, [Hard(n')])
  }

  function BecomeCandidate(n: Node): Node {
    Reset(n, n.term + 1).(vote := n.id, role := Candidate)
  }

  function BecomePreCandidate(n: Node): Node {
    n.(votes := map[], lead := NONE, role := PreCandidate)
  }

  function AppendEntries(n: Node, ents: seq<Entry>): Node {
    n.(log := n.log + Stamp(ents, n.term))
  }

  function Stamp(ents: seq<Entry>, term: nat): (r: seq<Entry>)
    ensures |r| == |ents|
    ensures forall i | 0 <= i < |r| :: r[i] == ents[i].(term := term)
  {
    seq(|ents|, i requires 0 <= i < |ents| => ents[i].(term := term))
  }

  const EMPTY_ENTRY := Entry(0, Normal, 0, 0)

  function BecomeLeader(n: Node): Node {
    var r := Reset(n, n.term).(lead := n.id, role := Leader);
    var p := if n.id in r.prs then r.(prs := r.prs[n.id := BecomeReplicate(r.prs[n.id])]) else r;
    AppendEntries(p, [EMPTY_ENTRY]).(termStart := |n.log| + 1)
  }

  function Campaign(cfg: JointConfig, n: Node): Out {
    var n' := BecomeCandidate(n);
    Out(n',
        set id | id in cfg.IDs() && id != n.id :: Vote(n.id, id, n'.term, |n.log|, LastTerm(n.log)),
        [Hard(n')])
  }

  // ---------------------------------------------------------------------------
  // Elections
  // ---------------------------------------------------------------------------

  /** MsgVote with a term not below the node's. */
  function HandleVote(n: Node, m: Msg): Out
    requires m.Vote? && m.term >= n.term
  {
    if m.term == n.term then
      if m.from == n.lead then
        if n.voted then Out(n, {VoteResp(n.id, m.from, n.term, false)}, []) else Quiet(n)
      else Out(n, {VoteResp(n.id, m.from, n.term, true)}, [])
    else
      var f := BecomeFollower(n, m.term, NONE);
      if IsUpToDate(f.log, m.index, m.logTerm) then
        var g := f.(vote := m.from);
        Out(g, {}, [Hard(g)])
      else
        Out(f, {VoteResp(n.id, m.from, f.term, true)}, [Hard(f)])
  }

  /** MsgStateStatus: the hard state (term, vote) has reached stable storage. */
  function HandleStatePersisted(cfg: JointConfig, n: Node, hs: HardState): Out {
    if n.role == Leader || hs.term != n.term || hs.vote == NONE then Quiet(n)
    else if hs.vote == n.id then
      if n.role == Candidate then
        var p := n.(votes := RecordVote(n.votes, n.id, true));
        Quiet(if JointVote(cfg, p.votes) == VoteWon then BecomeLeader(p) else p)
      else Quiet(n)
    else Out(n.(voted := true), {VoteResp(n.id, hs.vote, n.term, false)}, [])
  }

  /** MsgVoteResp of the node's own term. */
  function HandleVoteResp(cfg: JointConfig, n: Node, m: Msg): Out
    requires m.VoteResp?
  {
    if n.role != Candidate then Quiet(n)
    else
      var p := n.(votes := RecordVote(n.votes, m.from, !m.reject));
      match JointVote(cfg, p.votes)
      case VoteWon => Quiet(BecomeLeader(p))
      case VoteLost => BecomeFollowerExt(p, p.term, NONE)
      case VotePending => Quiet(p)
  }

  // ---------------------------------------------------------------------------
  // Replication, follower side
  // ---------------------------------------------------------------------------

  /** Would raftLog.maybeAppend or commitTo panic on this append? */
  predicate AppendPanics(n: Node, m: Msg)
    requires m.App?
  {
    && m.index >= n.committed
    && TermAt(n.log, m.index) == m.logTerm
    && (|| 0 < FindConflict(n.log, m.index, m.ents) <= n.committed
        || FindConflict(n.log, m.index, m.ents) > |n.log| + 1
        || (Max(n.committed, Min(m.commit, m.index + |m.ents|)) > |Accept(n.log, m.index, m.ents)|))
  }

  function HandleAppendEntries(n: Node, m: Msg): Out
    requires m.App?
  {
    if m.index < n.committed then
      Out(n, {AppResp(n.id, m.from, n.term, n.committed)}, [])
    else if TermAt(n.log, m.index) != m.logTerm then
      var hint := FindConflictByTerm(n.log, Min(m.index, |n.log|), m.logTerm);
      Out(n, {AppReject(n.id, m.from, n.term, m.index, hint, TermAt(n.log, hint))}, [])
    else if AppendPanics(n, m) then Quiet(n)
    else
      var c := FindConflict(n.log, m.index, m.ents);
      Quiet(n.(log := Accept(n.log, m.index, m.ents),
               offset := if c == 0 then n.offset else Min(n.offset, c),
               committed := Max(n.committed, Min(m.commit, m.index + |m.ents|)),
               receiving := true))
  }

  /** MsgApp of the node's own term; a (pre-)candidate first becomes a follower. */
  function StepApp(n: Node, m: Msg): Out
    requires m.App?
  {
    match n.role
    case Leader => Quiet(n)
    case Follower => HandleAppendEntries(n.(lead := m.from), m)
    case _ => HandleAppendEntries(BecomeFollower(n, m.term, m.from), m)
  }

  function StepHeartbeat(n: Node, m: Msg): Out
    requires m.Heartbeat?
  {
    if n.role == Leader then Quiet(n)
    else
      var f := if n.role == Follower then n.(lead := m.from) else BecomeFollower(n, m.term, m.from);
      Quiet(if f.committed < m.commit <= |f.log| then f.(committed := m.commit) else f)
  }

  // ---------------------------------------------------------------------------
  // Replication, leader side
  // ---------------------------------------------------------------------------

  function Matches(prs: map<NodeId, Pr>): map<NodeId, nat> {
    map j | j in prs :: prs[j].matched
  }

  /** `mci` is what ProgressTracker.Committed returned. */
  function MaybeCommit(n: Node, mci: nat): Node {
    if mci >= n.termStart && n.committed < mci <= |n.log| then n.(committed := mci) else n
  }

  predicate StableToOk(n: Node, i: nat, t: nat) {
    n.offset <= i <= |n.log| && TermAt(n.log, i) == t
  }

  /** The leader's progress once the keeper reports its own log stable up to i. */
  function SelfAcked(n: Node, i: nat): Node {
    if n.id in n.prs then n.(offset := i + 1, prs := n.prs[n.id := MaybeUpdate(n.prs[n.id], i)])
    else n.(offset := i + 1)
  }

  /** MsgLogStatus: the keeper reports the log persisted up to entry (i, t). */
  function HandleLogStatus(n: Node, i: nat, t: nat, mci: nat): Out {
    if !StableToOk(n, i, t) then Quiet(n)
    else if n.role == Leader then Quiet(MaybeCommit(SelfAcked(n, i), mci))
    else
      var n' := n.(offset := i + 1);
      if n.role == Follower && n.receiving then Out(n', {AppResp(n.id, n.lead, n.term, i)}, [])
      else Quiet(n')
  }

  function Acked(n: Node, from: NodeId, i: nat): Node
    requires from in n.prs
  {
    n.(prs := n.prs[from := OnAck(n.prs[from], i)])
  }

  function StepAppResp(n: Node, m: Msg, mci: nat): Out
    requires m.AppResp?
  {
    if n.role != Leader || m.from !in n.prs then Quiet(n)
    else if n.prs[m.from].matched < m.index then Quiet(MaybeCommit(Acked(n, m.from, m.index), mci))
    else Quiet(Acked(n, m.from, m.index))
  }

  function StepAppReject(n: Node, m: Msg): Out
    requires m.AppReject?
  {
    if n.role != Leader || m.from !in n.prs then Quiet(n)
    else Quiet(n.(prs := n.prs[m.from := OnReject(n.prs[m.from], n.log, m.index, m.hint, m.logTerm)]))
  }

  /** maybeSendAppend: k entries from Next on, at least one when there is one. */
  function SendAppend(n: Node, to: NodeId, k: nat): Out
    requires to in n.prs && 1 <= n.prs[to].next
  {
    var pr := n.prs[to];
    var p := pr.next - 1;
    var ents := if p + k <= |n.log| then n.log[p..p+k] else [];
    var m := App(n.id, to, n.term, p, TermAt(n.log, p), ents, n.committed);
    var pr' := if k == 0 then pr
               else if pr.state == Replicate then OptimisticUpdate(pr, p + k)
               else pr.(probeSent := true);
    Out(n.(prs := n.prs[to := pr']), {m}, [])
  }

  function SendHeartbeat(n: Node, to: NodeId): Out
    requires to in n.prs
  {
    Out(n, {Heartbeat(n.id, to, n.term, Min(n.prs[to].matched, n.committed))}, [])
  }

  function StepUnreachable(n: Node, j: NodeId): Out {
    if n.role == Leader && j in n.prs && n.prs[j].state == Replicate
    then Quiet(n.(prs := n.prs[j := BecomeProbe(n.prs[j])]))
    else Quiet(n)
  }

  /** Role, term, vote, leader and tally are as before, and nothing is written. */
  predicate Steady(n: Node, out: Out) {
    && out.node.id == n.id && out.node.role == n.role && Hard(out.node) == Hard(n)
    && out.node.lead == n.lead && out.node.votes == n.votes && out.node.voted == n.voted && out.hard == []
  }

  lemma LogStatusSteady(n: Node, i: nat, t: nat, mci: nat)
    ensures Steady(n, HandleLogStatus(n, i, t, mci))
    ensures forall m | m in HandleLogStatus(n, i, t, mci).msgs :: m == AppResp(n.id, n.lead, n.term, i)
  {
  }

  lemma AppRespSteady(n: Node, m: Msg, mci: nat)
    requires m.AppResp?
    ensures Steady(n, StepAppResp(n, m, mci)) && StepAppResp(n, m, mci).msgs == {}
  {
  }

  /** An append leaves the log alone or turns it into what Accept makes of it. */
  lemma StepAppLog(n: Node, m: Msg)
    requires m.App?
    ensures StepApp(n, m).node.log == n.log
            || (TermAt(n.log, m.index) == m.logTerm && StepApp(n, m).node.log == Accept(n.log, m.index, m.ents))
  {
    hide TermAt, Accept, FindConflict, FindConflictByTerm;
  }
}
