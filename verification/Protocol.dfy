// The cluster: nodes, their disks, a network that may drop, duplicate and
// reorder, and a history that only observes what the nodes do.
module Protocol {
  import opened Quorum
  import opened PlainLog
  import opened ProgressSpec
  import opened RaftNode

  /** The keeper's stable hard state and the writes still queued before it. */
  datatype Disk = Disk(durable: HardState, queue: seq<HardState>)

  /** A vote as cast in memory: for whom, and the voter's log at that moment. */
  datatype Ballot = Ballot(cand: NodeId, log: Log)

  datatype Ack = Ack(node: NodeId, term: nat, index: nat)

  datatype Choice = Choice(term: nat, index: nat)

  /** What an outside observer has seen so far; no step ever reads it. */
  datatype Hist = Hist(
    ldr: map<nat, NodeId>,               // who became leader in a term
    llog: map<nat, Log>,                 // that leader's log, as far as it has grown
    base: map<nat, nat>,                 // its length just before the leader's first own entry
    cands: map<(NodeId, nat), Log>,      // a candidate's log when it campaigned in a term
    ballots: map<(NodeId, nat), Ballot>, // the vote with which a node entered a term
    acks: set<Ack>,                      // indexes a node acknowledged in a term
    chosen: set<Choice>,                 // indexes a leader committed in its own term
    durable: map<(NodeId, nat), NodeId>) // the vote of each hard state that reached a disk, by term

  datatype Sys = Sys(
    cfg: JointConfig, nodes: map<NodeId, Node>, disks: map<NodeId, Disk>, net: set<Msg>, h: Hist)

  datatype Action =
    | DoCampaign(v: NodeId)                 // election timeout, MsgTimeoutNow, or a won pre-vote
    | DoPreCampaign(v: NodeId)
    | StepDown(v: NodeId)                   // lost vote or pre-vote, or quorum not active
    | ObserveTerm(v: NodeId, term: nat)     // any other message of a higher term
    | ObserveLeader(v: NodeId, m: Msg)      // MsgApp or MsgHeartbeat of a higher term
    | RecvVote(v: NodeId, m: Msg)
    | RecvVoteResp(v: NodeId, m: Msg)
    | StateStatus(v: NodeId, hs: HardState)
    | Propose(v: NodeId, ents: seq<Entry>)
    | SendApp(v: NodeId, to: NodeId, k: nat)
    | SendBeat(v: NodeId, to: NodeId)
    | RecvApp(v: NodeId, m: Msg)
    | RecvBeat(v: NodeId, m: Msg)
    | LogStatus(v: NodeId, index: nat, term: nat, mci: nat)
    | RecvAppResp(v: NodeId, m: Msg, mci: nat)
    | RecvAppReject(v: NodeId, m: Msg)
    | Unreachable(v: NodeId, peer: NodeId)
    | AnswerStale(v: NodeId, to: NodeId)    // empty MsgAppResp to a leader of a lower term
    | PersistState(v: NodeId)               // the keeper completes its oldest hard-state write
    | Crash(v: NodeId, log: Log, committed: nat, offset: nat)

  // ---------------------------------------------------------------------------
  // Node steps
  // ---------------------------------------------------------------------------

  /** A message from the network, addressed to v, that v handles at its own term. */
  predicate Delivered(s: Sys, v: NodeId, m: Msg)
    requires v in s.nodes
  {
    m in s.net && m.to == v && m.term == s.nodes[v].term
  }

  /** The hard state has at some time been the one on v's disk. */
  predicate IsDurable(h: Hist, v: NodeId, hs: HardState) {
    (v, hs.term) in h.durable && h.durable[(v, hs.term)] == hs.vote
  }

  predicate Enabled(s: Sys, a: Action) {
    && a.v in s.nodes && a.v in s.disks
    && var n := s.nodes[a.v];
    match a
    case DoCampaign(v) => n.role != Leader
    case DoPreCampaign(v) => n.role != Leader
    case StepDown(v) => true
    case ObserveTerm(v, term) => term > n.term
    case ObserveLeader(v, m) => m in s.net && m.to == v && m.term > n.term && (m.App? || m.Heartbeat?)
    case RecvVote(v, m) => m in s.net && m.to == v && m.Vote? && m.term >= n.term
    case RecvVoteResp(v, m) => Delivered(s, v, m) && m.VoteResp?
    case StateStatus(v, hs) => IsDurable(s.h, v, hs)
    case Propose(v, ents) => n.role == Leader
    case SendApp(v, to, k) =>
      && n.role == Leader && to in n.prs && to in s.nodes && to != v && 1 <= n.prs[to].next
      && (if n.prs[to].next <= |n.log| then 1 <= k <= |n.log| + 1 - n.prs[to].next else k == 0)
    case SendBeat(v, to) => n.role == Leader && to in n.prs && to in s.nodes && to != v
    case RecvApp(v, m) => Delivered(s, v, m) && m.App?
    case RecvBeat(v, m) => Delivered(s, v, m) && m.Heartbeat?
    case LogStatus(v, index, term, mci) => true
    case RecvAppResp(v, m, mci) => Delivered(s, v, m) && m.AppResp?
    case RecvAppReject(v, m) => Delivered(s, v, m) && m.AppReject?
    case Unreachable(v, peer) => true
    case AnswerStale(v, to) => true
    case PersistState(v) => s.disks[v].queue != []
    case Crash(v, log, committed, offset) => true
  }

  /** `mci` is the quorum's commit index for the progress the leader has after this message. */
  ghost predicate ReadsCommit(s: Sys, a: Action)
    requires Enabled(s, a)
  {
    var n := s.nodes[a.v];
    match a
    case LogStatus(v, index, term, mci) =>
      n.role == Leader && StableToOk(n, index, term) ==>
        IsJointCommitted(s.cfg, Matches(SelfAcked(n, index).prs), At(mci))
    case RecvAppResp(v, m, mci) =>
      n.role == Leader && m.from in n.prs && n.prs[m.from].matched < m.index ==>
        IsJointCommitted(s.cfg, Matches(Acked(n, m.from, m.index).prs), At(mci))
    case _ => true
  }

  predicate IsNodeStep(a: Action) { !a.PersistState? && !a.Crash? }

  /** Steps that leave the node's role, term and vote alone whatever they meet. */
  predicate IsReplication(a: Action) {
    || a.Propose? || a.SendApp? || a.SendBeat? || a.LogStatus? || a.RecvAppResp?
    || a.RecvAppReject? || a.Unreachable? || a.AnswerStale?
  }

  function NodeStep(s: Sys, a: Action): Out
    requires Enabled(s, a) && IsNodeStep(a)
  {
    var n := s.nodes[a.v];
    match a
    case DoCampaign(v) => Campaign(s.cfg, n)
    case DoPreCampaign(v) => Quiet(BecomePreCandidate(n))
    case StepDown(v) => BecomeFollowerExt(n, n.term, NONE)
    case ObserveTerm(v, term) => BecomeFollowerExt(n, term, NONE)
    case ObserveLeader(v, m) => BecomeFollowerExt(n, m.term, m.from)
    case RecvVote(v, m) => HandleVote(n, m)
    case RecvVoteResp(v, m) => HandleVoteResp(s.cfg, n, m)
    case StateStatus(v, hs) => HandleStatePersisted(s.cfg, n, hs)
    case Propose(v, ents) => Quiet(AppendEntries(n, ents))
    case SendApp(v, to, k) => SendAppend(n, to, k)
    case SendBeat(v, to) => SendHeartbeat(n, to)
    case RecvApp(v, m) => StepApp(n, m)
    case RecvBeat(v, m) => StepHeartbeat(n, m)
    case LogStatus(v, index, term, mci) => HandleLogStatus(n, index, term, mci)
    case RecvAppResp(v, m, mci) => StepAppResp(n, m, mci)
    case RecvAppReject(v, m) => StepAppReject(n, m)
    case Unreachable(v, peer) => StepUnreachable(n, peer)
    case AnswerStale(v, to) => Out(n, {AppResp(n.id, to, n.term, 0)}, [])
  }

  // ---------------------------------------------------------------------------
  // History
  // ---------------------------------------------------------------------------

  function AcksIn(msgs: set<Msg>): set<Ack> {
    set m | m in msgs && m.AppResp? :: Ack(m.from, m.term, m.index)
  }

  function SelfAck(n: Node): set<Ack> {
    if n.role == Leader && n.id in n.prs then {Ack(n.id, n.term, n.prs[n.id].matched)} else {}
  }

  /** What the observer notes when `n` turns into `out.node`. */
  function Observe(h: Hist, n: Node, out: Out): Hist {
    var n' := out.node;
    Hist(
      if n'.role == Leader then h.ldr[n'.term := n'.id] else h.ldr,
      if n'.role == Leader then h.llog[n'.term := n'.log] else h.llog,
      if n'.role == Leader && n.role != Leader then h.base[n'.term := |n.log|] else h.base,
      if n'.role == Candidate && n'.term > n.term then h.cands[(n.id, n'.term) := n.log] else h.cands,
      if n'.vote != NONE && n'.term > n.term
      then h.ballots[(n.id, n'.term) := Ballot(n'.vote, n.log)] else h.ballots,
      h.acks + AcksIn(out.msgs) + SelfAck(n'),
      if n'.role == Leader && n'.committed > n.committed
      then h.chosen + {Choice(n'.term, n'.committed)} else h.chosen,
      h.durable)
  }

  function Emit(s: Sys, v: NodeId, out: Out): Sys
    requires v in s.nodes && v in s.disks
  {
    s.(nodes := s.nodes[v := out.node],
       disks := s.disks[v := s.disks[v].(queue := s.disks[v].queue + out.hard)],
       net := s.net + out.msgs,
       h := Observe(s.h, s.nodes[v], out))
  }

  /** The keeper completes its oldest hard-state write. */
  function Persist(s: Sys, v: NodeId): Sys
    requires v in s.disks && s.disks[v].queue != []
  {
    var d := s.disks[v];
    s.(disks := s.disks[v := Disk(d.queue[0], d.queue[1..])],
       h := s.h.(durable := s.h.durable[(v, d.queue[0].term) := d.queue[0].vote]))
  }

  /** Crash and restart: memory and queued writes are lost, the durable hard state is loaded. */
  function Restart(s: Sys, v: NodeId, log: Log, committed: nat, offset: nat): Sys
    requires v in s.nodes && v in s.disks
  {
    var d := s.disks[v];
    var n := s.nodes[v].(term := d.durable.term, vote := d.durable.vote,
                         log := log, committed := committed, offset := offset);
    s.(nodes := s.nodes[v := BecomeFollower(n, n.term, NONE)],
       disks := s.disks[v := d.(queue := [])])
  }

  ghost predicate Next(s: Sys, a: Action, s': Sys) {
    && Enabled(s, a) && ReadsCommit(s, a)
    && s' == match a
             case PersistState(v) => Persist(s, v)
             case Crash(v, log, committed, offset) => Restart(s, v, log, committed, offset)
             case _ => Emit(s, a.v, NodeStep(s, a))
  }

  // ---------------------------------------------------------------------------
  // Runs
  // ---------------------------------------------------------------------------

  function FreshNode(id: NodeId, peers: set<NodeId>): Node {
    Node(id, 0, NONE, Follower, NONE, false, false, 0, [], 0, 1,
         map j | j in peers :: Pr(0, 1, Probe, 0, false), map[])
  }

  function InitialTerms(ids: set<NodeId>): set<(NodeId, nat)> { set v | v in ids :: (v, 0) }

  ghost predicate Init(s: Sys) {
    && s.cfg.incoming != {} && s.cfg.IDs() <= s.nodes.Keys && NONE !in s.nodes
    && s.disks.Keys == s.nodes.Keys
    && (forall v | v in s.nodes :: s.nodes[v] == FreshNode(v, s.nodes.Keys))
    && (forall v | v in s.disks :: s.disks[v] == Disk(HardState(0, NONE), []))
    && s.net == {}
    && s.h == Hist(map[], map[], map[], map[], map[], {}, {}, map x | x in InitialTerms(s.nodes.Keys) :: NONE)
  }

  ghost predicate IsRun(states: seq<Sys>, acts: seq<Action>) {
    && |states| == |acts| + 1
    && Init(states[0])
    && forall i | 0 <= i < |acts| :: Next(states[i], acts[i], states[i+1])
  }

  /**
   * The crash keeps the node's promises: its term and vote are on its disk, and
   * it comes back with a part of its log that holds all it has acknowledged.
   */
  predicate KeepsPromises(s: Sys, a: Action) {
    a.Crash? ==>
      && a.v in s.nodes && a.v in s.disks
      && var n := s.nodes[a.v];
      && s.disks[a.v].durable == Hard(n) && IsPrefix(a.log, n.log) && 1 <= a.offset <= |a.log| + 1
      && a.committed <= n.committed && a.committed <= |a.log|
      && forall x | x in s.h.acks && x.node == a.v :: x.index <= |a.log| || |a.log| == |n.log|
  }

  /** A run in which every crash keeps the promises of its node. */
  ghost predicate PromisesKept(states: seq<Sys>, acts: seq<Action>) {
    |acts| < |states| && forall i | 0 <= i < |acts| :: KeepsPromises(states[i], acts[i])
  }

  ghost predicate CrashFree(acts: seq<Action>) {
    forall i | 0 <= i < |acts| :: !acts[i].Crash?
  }
}
