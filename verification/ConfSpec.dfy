// Membership changes (raft/confchange/confchange.go) as functions on values:
// what each change does, which invariant every change keeps, and why winning
// vote sets before and after a change always share a node.
module ConfSpec {
  import opened Quorum
  import opened ProgressSpec

  /** A Go map used as a set: nil and empty are told apart. */
  datatype Ids = Nil | Ids(all: set<NodeId>) {
    function S(): set<NodeId> { if Nil? then {} else all }
  }

  datatype Peer = Peer(pr: Pr, isLearner: bool)

  datatype Conf = Conf(incoming: set<NodeId>, outgoing: Ids, learners: Ids, learnersNext: Ids, autoLeave: bool) {
    function Voters(): JointConfig { JointConfig(incoming, outgoing.S()) }
  }

  datatype Tracker = Tracker(cfg: Conf, prs: map<NodeId, Peer>)

  datatype Kind = AddNode | AddLearnerNode | RemoveNode | UpdateNode | OtherKind

  datatype Change = Change(kind: Kind, id: NodeId)

  datatype ConfError =
    | InvalidConfig | AlreadyJoint | NoVoters | RemovedAllVoters | UnexpectedKind
    | NotJoint | SimpleInJoint | ManyVotersChanged

  datatype Outcome = Ok(t: Tracker) | Err(e: ConfError)

  const EMPTY := Tracker(Conf({}, Nil, Nil, Nil, false), map[])

  predicate Joint(c: Conf) { c.outgoing.S() != {} }

  // ---------------------------------------------------------------------------
  // Single changes
  // ---------------------------------------------------------------------------

  function NilAwareAdd(m: Ids, id: NodeId): Ids { Ids(m.S() + {id}) }

  function NilAwareDelete(m: Ids, id: NodeId): Ids {
    if m.Nil? || m.S() - {id} == {} then Nil else Ids(m.S() - {id})
  }

  function InitProgress(t: Tracker, id: NodeId, isLearner: bool, last: nat): Tracker {
    Tracker(if isLearner then t.cfg.(learners := NilAwareAdd(t.cfg.learners, id))
            else t.cfg.(incoming := t.cfg.incoming + {id}),
            t.prs[id := Peer(Pr(0, last, Probe, 0, false), isLearner)])
  }

  function MakeVoter(t: Tracker, id: NodeId, last: nat): Tracker {
    if id !in t.prs then InitProgress(t, id, false, last)
    else
      Tracker(t.cfg.(learners := NilAwareDelete(t.cfg.learners, id),
                     learnersNext := NilAwareDelete(t.cfg.learnersNext, id),
                     incoming := t.cfg.incoming + {id}),
              t.prs[id := t.prs[id].(isLearner := false)])
  }

  function Remove(t: Tracker, id: NodeId): Tracker {
    if id !in t.prs then t
    else
      Tracker(t.cfg.(incoming := t.cfg.incoming - {id},
                     learners := NilAwareDelete(t.cfg.learners, id),
                     learnersNext := NilAwareDelete(t.cfg.learnersNext, id)),
              if id in t.cfg.outgoing.S() then t.prs else t.prs - {id})
  }

  function MakeLearner(t: Tracker, id: NodeId, last: nat): Tracker {
    if id !in t.prs then InitProgress(t, id, true, last)
    else if t.prs[id].isLearner then t
    else
      var r := Remove(t, id);
      if id in r.cfg.outgoing.S() then
        Tracker(r.cfg.(learnersNext := NilAwareAdd(r.cfg.learnersNext, id)), r.prs[id := t.prs[id]])
      else
        Tracker(r.cfg.(learners := NilAwareAdd(r.cfg.learners, id)), r.prs[id := t.prs[id].(isLearner := true)])
  }

  function ApplyOne(t: Tracker, cc: Change, last: nat): Tracker {
    if cc.id == 0 then t
    else match cc.kind
      case AddNode => MakeVoter(t, cc.id, last)
      case AddLearnerNode => MakeLearner(t, cc.id, last)
      case RemoveNode => Remove(t, cc.id)
      case _ => t
  }

  function ApplyAll(t: Tracker, ccs: seq<Change>, last: nat): Tracker {
    if ccs == [] then t else ApplyOne(ApplyAll(t, ccs[..|ccs|-1], last), ccs[|ccs|-1], last)
  }

  predicate KnownKinds(ccs: seq<Change>) {
    forall i | 0 <= i < |ccs| :: ccs[i].id != 0 ==> ccs[i].kind != OtherKind
  }

  function Apply(t: Tracker, ccs: seq<Change>, last: nat): Outcome {
    if !KnownKinds(ccs) then Err(UnexpectedKind)
    else
      var r := ApplyAll(t, ccs, last);
      if r.cfg.incoming == {} then Err(RemovedAllVoters) else Ok(r)
  }

  // ---------------------------------------------------------------------------
  // The operations of Changer
  // ---------------------------------------------------------------------------

  /** checkInvariants */
  ghost predicate Checked(t: Tracker) {
    && t.cfg.Voters().IDs() <= t.prs.Keys && t.cfg.learners.S() <= t.prs.Keys && t.cfg.learnersNext.S() <= t.prs.Keys
    && (forall id | id in t.cfg.learnersNext.S() :: id in t.cfg.outgoing.S() && !t.prs[id].isLearner)
    && (forall id | id in t.cfg.learners.S() ::
          id !in t.cfg.outgoing.S() && id !in t.cfg.incoming && t.prs[id].isLearner)
    && (!Joint(t.cfg) ==> t.cfg.outgoing.Nil? && t.cfg.learnersNext.Nil? && !t.cfg.autoLeave)
  }

  /** Config.Clone, which does not copy AutoLeave. */
  function Clone(t: Tracker): Tracker { t.(cfg := t.cfg.(autoLeave := false)) }

  ghost function CheckAndReturn(t: Tracker): Outcome { if Checked(t) then Ok(t) else Err(InvalidConfig) }

  ghost function Simple(t: Tracker, ccs: seq<Change>, last: nat): Outcome {
    if !Checked(Clone(t)) then Err(InvalidConfig)
    else if Joint(t.cfg) then Err(SimpleInJoint)
    else
      var r := Apply(Clone(t), ccs, last);
      if r.Err? then r
      else if SymDiff(t.cfg.incoming, r.t.cfg.incoming) > 1 then Err(ManyVotersChanged)
      else CheckAndReturn(r.t)
  }

  function SymDiff(l: set<NodeId>, r: set<NodeId>): nat { |l - r| + |r - l| }

  /** Outgoing becomes a copy of incoming. */
  function Rotated(t: Tracker): Tracker { t.(cfg := t.cfg.(outgoing := Ids(t.cfg.incoming))) }

  ghost function EnterJoint(t: Tracker, autoLeave: bool, ccs: seq<Change>, last: nat): Outcome {
    if !Checked(Clone(t)) then Err(InvalidConfig)
    else if Joint(t.cfg) then Err(AlreadyJoint)
    else if t.cfg.incoming == {} then Err(NoVoters)
    else
      var r := Apply(Rotated(Clone(t)), ccs, last);
      if r.Err? then r else CheckAndReturn(r.t.(cfg := r.t.cfg.(autoLeave := autoLeave)))
  }

  /** Staged learners become learners; peers that are now neither voter nor learner go. */
  function Left(t: Tracker): Tracker {
    var learners := if t.cfg.learnersNext.S() == {} then t.cfg.learners
                    else Ids(t.cfg.learners.S() + t.cfg.learnersNext.S());
    Tracker(Conf(t.cfg.incoming, Nil, learners, Nil, false),
            map id | id in t.prs && (id !in t.cfg.outgoing.S() || id in t.cfg.incoming || id in learners.S()) ::
              if id in t.cfg.learnersNext.S() then t.prs[id].(isLearner := true) else t.prs[id])
  }

  ghost function LeaveJoint(t: Tracker): Outcome {
    if !Checked(Clone(t)) then Err(InvalidConfig)
    else if !Joint(t.cfg) then Err(NotJoint)
    else CheckAndReturn(Left(t))
  }

  // ---------------------------------------------------------------------------
  // Roles
  // ---------------------------------------------------------------------------

  /** The same configuration as four sets. */
  datatype Roles = Roles(voters: set<NodeId>, outgoing: set<NodeId>, learners: set<NodeId>, next: set<NodeId>)

  function RolesOf(c: Conf): Roles { Roles(c.incoming, c.outgoing.S(), c.learners.S(), c.learnersNext.S()) }

  function Tidy(s: set<NodeId>): Ids { if s == {} then Nil else Ids(s) }

  /** Voters of either half and learners are tracked, nobody else, each as what it is. */
  ghost predicate Draft(t: Tracker) {
    var r := RolesOf(t.cfg);
    && t.prs.Keys == r.voters + r.outgoing + r.learners && 0 !in t.prs
    && (forall id | id in t.prs :: t.prs[id].isLearner <==> id in r.learners)
    && r.learners !! (r.voters + r.outgoing) && r.next <= r.outgoing && r.next !! r.voters
    && t.cfg.learners == Tidy(r.learners) && t.cfg.learnersNext == Tidy(r.next)
  }

  /** The strengthened invariant of every configuration in use. */
  ghost predicate Sound(t: Tracker) {
    && Draft(t) && t.cfg.outgoing == Tidy(t.cfg.outgoing.S()) && (t.cfg.autoLeave ==> Joint(t.cfg))
    && (t.cfg.incoming == {} ==> t == EMPTY)
  }

  lemma SoundIsChecked(t: Tracker)
    requires Sound(t)
    ensures Checked(t) && Checked(Clone(t))
  {
  }

  /** What one change means for the roles. */
  function Changed(r: Roles, cc: Change): Roles {
    var x := {cc.id};
    if cc.id == 0 then r
    else match cc.kind
      case AddNode => Roles(r.voters + x, r.outgoing, r.learners - x, r.next - x)
      case AddLearnerNode =>
        if cc.id in r.outgoing then Roles(r.voters - x, r.outgoing, r.learners - x, r.next + x)
        else Roles(r.voters - x, r.outgoing, r.learners + x, r.next - x)
      case RemoveNode => Roles(r.voters - x, r.outgoing, r.learners - x, r.next - x)
      case _ => r
  }

  lemma MakeVoterRoles(t: Tracker, id: NodeId, last: nat)
    requires Draft(t) && id != 0
    ensures Draft(MakeVoter(t, id, last))
    ensures RolesOf(MakeVoter(t, id, last).cfg) == Changed(RolesOf(t.cfg), Change(AddNode, id))
  {
  }

  lemma RemoveRoles(t: Tracker, id: NodeId)
    requires Draft(t) && id != 0
    ensures Draft(Remove(t, id))
    ensures RolesOf(Remove(t, id).cfg) == Changed(RolesOf(t.cfg), Change(RemoveNode, id))
  {
  }

  /** A node without a role in either half becomes a learner. */
  lemma LearnerRoles(t: Tracker, id: NodeId, pr: Peer)
    requires Draft(t) && id != 0 && id !in t.prs && pr.isLearner
    ensures var t' := Tracker(t.cfg.(learners := NilAwareAdd(t.cfg.learners, id)), t.prs[id := pr]);
      Draft(t') && RolesOf(t'.cfg) == Changed(RolesOf(t.cfg), Change(AddLearnerNode, id))
  {
  }

  /** A node that still votes in the outgoing half is staged to become one. */
  lemma StagedRoles(t: Tracker, id: NodeId, pr: Peer)
    requires Draft(t) && id != 0 && id in t.cfg.outgoing.S() && id !in t.cfg.incoming && !pr.isLearner
    ensures var t' := Tracker(t.cfg.(learnersNext := NilAwareAdd(t.cfg.learnersNext, id)), t.prs[id := pr]);
      Draft(t') && RolesOf(t'.cfg) == Changed(RolesOf(t.cfg), Change(AddLearnerNode, id))
  {
  }

  lemma MakeLearnerRoles(t: Tracker, id: NodeId, last: nat)
    requires Draft(t) && id != 0
    ensures Draft(MakeLearner(t, id, last))
    ensures RolesOf(MakeLearner(t, id, last).cfg) == Changed(RolesOf(t.cfg), Change(AddLearnerNode, id))
  {
    hide NilAwareAdd;
    if id !in t.prs {
      LearnerRoles(t, id, InitProgress(t, id, true, last).prs[id]);
    } else if !t.prs[id].isLearner {
      RemoveRoles(t, id);
      if id in t.cfg.outgoing.S() {
        StagedRoles(Remove(t, id), id, t.prs[id]);
      } else {
        LearnerRoles(Remove(t, id), id, t.prs[id].(isLearner := true));
      }
    }
  }

  function ChangedAll(r: Roles, ccs: seq<Change>): Roles {
    if ccs == [] then r else Changed(ChangedAll(r, ccs[..|ccs|-1]), ccs[|ccs|-1])
  }

  lemma ApplyOneRoles(t: Tracker, cc: Change, last: nat)
    requires Draft(t)
    ensures Draft(ApplyOne(t, cc, last)) && RolesOf(ApplyOne(t, cc, last).cfg) == Changed(RolesOf(t.cfg), cc)
    ensures ApplyOne(t, cc, last).cfg.outgoing == t.cfg.outgoing
    ensures ApplyOne(t, cc, last).cfg.autoLeave == t.cfg.autoLeave
  {
    hide Draft, RolesOf, NilAwareAdd, NilAwareDelete;
    if cc.id != 0 {
      MakeVoterRoles(t, cc.id, last);
      MakeLearnerRoles(t, cc.id, last);
      RemoveRoles(t, cc.id);
    }
  }

  /** A list of changes keeps the draft sound and does to the roles what its members do in turn. */
  lemma {:induction false} ApplyAllRoles(t: Tracker, ccs: seq<Change>, last: nat)
    requires Draft(t)
    ensures Draft(ApplyAll(t, ccs, last)) && RolesOf(ApplyAll(t, ccs, last).cfg) == ChangedAll(RolesOf(t.cfg), ccs)
    ensures ApplyAll(t, ccs, last).cfg.outgoing == t.cfg.outgoing
    ensures ApplyAll(t, ccs, last).cfg.autoLeave == t.cfg.autoLeave
    decreases |ccs|
  {
    if ccs != [] {
      ApplyAllRoles(t, ccs[..|ccs|-1], last);
      ApplyOneRoles(ApplyAll(t, ccs[..|ccs|-1], last), ccs[|ccs|-1], last);
    }
  }

  /** Does this change decide the role of id? */
  predicate Touches(cc: Change, id: NodeId) {
    cc.id == id && id != 0 && (cc.kind == AddNode || cc.kind == AddLearnerNode || cc.kind == RemoveNode)
  }

  /** The kind of the last change that decides the role of id; UpdateNode if there is none. */
  function LastKind(ccs: seq<Change>, id: NodeId): Kind {
    if ccs == [] then UpdateNode
    else if Touches(ccs[|ccs|-1], id) then ccs[|ccs|-1].kind
    else LastKind(ccs[..|ccs|-1], id)
  }

  /** The last change that names a node decides its role; nodes not named keep theirs. */
  lemma {:induction false} LastChangeWins(r: Roles, ccs: seq<Change>, id: NodeId)
    requires r.next <= r.outgoing && r.learners !! r.outgoing
    ensures var k, q := LastKind(ccs, id), ChangedAll(r, ccs);
      && (id in q.voters <==> k == AddNode || (k == UpdateNode && id in r.voters))
      && (id in q.learners <==> (k == AddLearnerNode && id !in r.outgoing) || (k == UpdateNode && id in r.learners))
      && (id in q.next <==> (k == AddLearnerNode && id in r.outgoing) || (k == UpdateNode && id in r.next))
      && q.outgoing == r.outgoing
    decreases |ccs|
  {
    if ccs != [] { LastChangeWins(r, ccs[..|ccs|-1], id); }
  }

  // ---------------------------------------------------------------------------
  // The invariant is inductive, and the final check never fails
  // ---------------------------------------------------------------------------

  lemma DraftSound(t: Tracker, autoLeave: bool)
    requires Draft(t) && t.cfg.outgoing == Tidy(t.cfg.outgoing.S()) && t.cfg.incoming != {}
    requires autoLeave ==> Joint(t.cfg)
    ensures Sound(t.(cfg := t.cfg.(autoLeave := autoLeave))) && Checked(t.(cfg := t.cfg.(autoLeave := autoLeave)))
  {
    SoundIsChecked(t.(cfg := t.cfg.(autoLeave := autoLeave)));
  }

  /** Simple succeeds exactly when its guards allow it; the result is sound and has the expected roles. */
  lemma SimpleExact(t: Tracker, ccs: seq<Change>, last: nat)
    requires Sound(t)
    ensures var q := ChangedAll(RolesOf(t.cfg), ccs);
      Simple(t, ccs, last) ==
        if Joint(t.cfg) then Err(SimpleInJoint)
        else if !KnownKinds(ccs) then Err(UnexpectedKind)
        else if q.voters == {} then Err(RemovedAllVoters)
        else if SymDiff(t.cfg.incoming, q.voters) > 1 then Err(ManyVotersChanged)
        else Ok(ApplyAll(t, ccs, last))
    ensures Simple(t, ccs, last).Ok? ==>
              var u := Simple(t, ccs, last).t;
              Sound(u) && !Joint(u.cfg) && RolesOf(u.cfg) == ChangedAll(RolesOf(t.cfg), ccs)
  {
    SoundIsChecked(t);
    if !Joint(t.cfg) {
      assert Clone(t) == t;
      ApplyAllRoles(t, ccs, last);
      var u := ApplyAll(t, ccs, last);
      assert u.cfg.(autoLeave := false) == u.cfg && u.(cfg := u.cfg) == u;
      if u.cfg.incoming != {} { DraftSound(u, false); }
    }
  }

  lemma EnterJointExact(t: Tracker, autoLeave: bool, ccs: seq<Change>, last: nat)
    requires Sound(t)
    ensures var q := ChangedAll(RolesOf(Rotated(t).cfg), ccs); var u := ApplyAll(Rotated(t), ccs, last);
      EnterJoint(t, autoLeave, ccs, last) ==
        if Joint(t.cfg) then Err(AlreadyJoint)
        else if t.cfg.incoming == {} then Err(NoVoters)
        else if !KnownKinds(ccs) then Err(UnexpectedKind)
        else if q.voters == {} then Err(RemovedAllVoters)
        else Ok(u.(cfg := u.cfg.(autoLeave := autoLeave)))
    ensures EnterJoint(t, autoLeave, ccs, last).Ok? ==>
              var u := EnterJoint(t, autoLeave, ccs, last).t;
              && Sound(u) && Joint(u.cfg) && u.cfg.outgoing.S() == t.cfg.incoming && u.cfg.autoLeave == autoLeave
              && RolesOf(u.cfg) == ChangedAll(RolesOf(Rotated(t).cfg), ccs)
  {
    SoundIsChecked(t);
    if !Joint(t.cfg) && t.cfg.incoming != {} {
      assert Clone(t) == t;
      assert Draft(Rotated(t));
      ApplyAllRoles(Rotated(t), ccs, last);
      var u := ApplyAll(Rotated(t), ccs, last);
      if u.cfg.incoming != {} { DraftSound(u, autoLeave); }
    }
  }

  lemma LeftDraft(t: Tracker)
    requires Draft(t)
    ensures Draft(Left(t))
    ensures RolesOf(Left(t).cfg) ==
            Roles(t.cfg.incoming, {}, t.cfg.learners.S() + t.cfg.learnersNext.S(), {})
  {
  }

  /** LeaveJoint fails only on a config that is not joint. */
  lemma LeaveJointExact(t: Tracker)
    requires Sound(t)
    ensures LeaveJoint(t) == if Joint(t.cfg) then Ok(Left(t)) else Err(NotJoint)
    ensures Joint(t.cfg) ==> Sound(Left(t)) && !Joint(Left(t).cfg)
    ensures RolesOf(Left(t).cfg) == Roles(t.cfg.incoming, {}, t.cfg.learners.S() + t.cfg.learnersNext.S(), {})
  {
    SoundIsChecked(t);
    LeftDraft(t);
    if Joint(t.cfg) {
      var u := Left(t);
      assert u.cfg.(autoLeave := false) == u.cfg && u.(cfg := u.cfg) == u;
      DraftSound(u, false);
    }
  }

  // ---------------------------------------------------------------------------
  // What becomes of the progress
  // ---------------------------------------------------------------------------

  /** Is id, if it has no vote in the outgoing half, removed somewhere in the list? */
  predicate Dropped(t: Tracker, ccs: seq<Change>, id: NodeId) {
    id !in t.cfg.outgoing.S() && Change(RemoveNode, id) in ccs
  }

  /** A tracked node keeps its progress until it is dropped; whoever is tracked anew starts from scratch. */
  ghost predicate ProgressKept(t: Tracker, ccs: seq<Change>, last: nat, u: Tracker) {
    forall id | id in u.prs ::
      u.prs[id].pr == if id in t.prs && !Dropped(t, ccs, id) then t.prs[id].pr else Pr(0, last, Probe, 0, false)
  }

  lemma ApplyOneProgress(t: Tracker, cc: Change, last: nat, id: NodeId)
    requires Draft(t)
    ensures var u := ApplyOne(t, cc, last);
      && (id in u.prs && id in t.prs ==> u.prs[id].pr == t.prs[id].pr)
      && (id in u.prs && id !in t.prs ==> cc.id == id && u.prs[id].pr == Pr(0, last, Probe, 0, false))
      && (id in t.prs && id !in u.prs <==>
            id in t.prs && cc == Change(RemoveNode, id) && id !in t.cfg.outgoing.S())
  {
  }

  /** What a list of changes does to the progress of every node. */
  lemma {:induction false} ApplyAllProgress(t: Tracker, ccs: seq<Change>, last: nat)
    requires Draft(t)
    ensures ProgressKept(t, ccs, last, ApplyAll(t, ccs, last))
    ensures forall id | id in t.prs && !Dropped(t, ccs, id) :: id in ApplyAll(t, ccs, last).prs
    decreases |ccs|
  {
    hide Draft, ApplyOne;
    if ccs != [] {
      var most, cc := ccs[..|ccs|-1], ccs[|ccs|-1];
      var s, u := ApplyAll(t, most, last), ApplyAll(t, ccs, last);
      ApplyAllProgress(t, most, last);
      ApplyAllRoles(t, most, last);
      assert ccs == most + [cc];
      forall id ensures id in u.prs ==>
        u.prs[id].pr == if id in t.prs && !Dropped(t, ccs, id) then t.prs[id].pr else Pr(0, last, Probe, 0, false)
      ensures id in t.prs && !Dropped(t, ccs, id) ==> id in u.prs
      {
        ApplyOneProgress(s, cc, last, id);
      }
    }
  }

  // ---------------------------------------------------------------------------
  // Runs of reconfigurations
  // ---------------------------------------------------------------------------

  datatype Op = DoSimple(ccs: seq<Change>) | DoEnter(autoLeave: bool, ccs: seq<Change>) | DoLeave

  ghost function Do(t: Tracker, op: Op, last: nat): Outcome {
    match op
    case DoSimple(ccs) => Simple(t, ccs, last)
    case DoEnter(autoLeave, ccs) => EnterJoint(t, autoLeave, ccs, last)
    case DoLeave => LeaveJoint(t)
  }

  /** Each configuration results from the one before by a change that succeeded. */
  ghost predicate IsHistory(ts: seq<Tracker>, ops: seq<Op>, lasts: seq<nat>) {
    && |ts| == |ops| + 1 == |lasts| + 1 && ts[0] == EMPTY
    && forall i | 0 <= i < |ops| :: Do(ts[i], ops[i], lasts[i]) == Ok(ts[i+1])
  }

  lemma DoKeeps(t: Tracker, op: Op, last: nat)
    requires Sound(t)
    ensures Do(t, op, last) != Err(InvalidConfig)
    ensures Do(t, op, last).Ok? ==> Sound(Do(t, op, last).t)
  {
    match op {
      case DoSimple(ccs) => SimpleExact(t, ccs, last);
      case DoEnter(autoLeave, ccs) => EnterJointExact(t, autoLeave, ccs, last);
      case DoLeave => LeaveJointExact(t);
    }
  }

  /**
   * What a change that succeeds does to the flow control: whoever is tracked before
   * and after keeps the progress, Match included, unless the list drops the node in
   * between; whoever is tracked anew starts from scratch; and nobody who keeps a role is lost.
   */
  lemma DoProgress(t: Tracker, op: Op, last: nat)
    requires Sound(t) && Do(t, op, last).Ok?
    ensures var u := Do(t, op, last).t;
      match op
      case DoSimple(ccs) => ProgressKept(t, ccs, last, u)
      case DoEnter(_, ccs) => ProgressKept(Rotated(t), ccs, last, u)
      case DoLeave => u.prs.Keys <= t.prs.Keys && forall id | id in u.prs :: u.prs[id].pr == t.prs[id].pr
  {
    match op {
      case DoSimple(ccs) =>
        SimpleExact(t, ccs, last);
        ApplyAllProgress(t, ccs, last);
      case DoEnter(autoLeave, ccs) =>
        EnterJointExact(t, autoLeave, ccs, last);
        assert Draft(Rotated(t));
        ApplyAllProgress(Rotated(t), ccs, last);
      case DoLeave => LeaveJointExact(t);
    }
  }

  /** Every configuration of every history is sound, so no check of the Changer ever fails. */
  lemma {:induction false} HistoryIsSound(ts: seq<Tracker>, ops: seq<Op>, lasts: seq<nat>, i: nat)
    requires IsHistory(ts, ops, lasts) && i < |ts|
    ensures Sound(ts[i])
    ensures forall op, last :: Do(ts[i], op, last) != Err(InvalidConfig)
    decreases i
  {
    if i > 0 {
      HistoryIsSound(ts, ops, lasts, i - 1);
      DoKeeps(ts[i-1], ops[i-1], lasts[i-1]);
    }
    forall op, last ensures Do(ts[i], op, last) != Err(InvalidConfig) { DoKeeps(ts[i], op, last); }
  }

  /** Section 4.3 of Ongaro's thesis: quorums before and after one change share a node. */
  lemma ChangesOverlap(t: Tracker, op: Op, last: nat, s: set<NodeId>, s': set<NodeId>) returns (x: NodeId)
    requires Sound(t) && t.cfg.incoming != {} && Do(t, op, last).Ok?
    requires IsQuorum(t.cfg.Voters(), s) && IsQuorum(Do(t, op, last).t.cfg.Voters(), s')
    ensures x in s && x in s'
  {
    var c := t.cfg.incoming;
    match op {
      case DoSimple(ccs) =>
        SimpleExact(t, ccs, last);
        x := NearbyMajoritiesMeet(c, Do(t, op, last).t.cfg.incoming, s, s');
      case DoEnter(autoLeave, ccs) =>
        EnterJointExact(t, autoLeave, ccs, last);
        x := NearbyMajoritiesMeet(c, c, s, s');
      case DoLeave =>
        LeaveJointExact(t);
        x := NearbyMajoritiesMeet(c, c, s, s');
    }
  }

  /** The same over every history: two elections won on either side of a change share a voter. */
  lemma ElectionsOverlap(ts: seq<Tracker>, ops: seq<Op>, lasts: seq<nat>, i: nat,
                         votes: map<NodeId, bool>, votes': map<NodeId, bool>) returns (x: NodeId)
    requires IsHistory(ts, ops, lasts) && 0 < i < |ops|
    requires JointVote(ts[i].cfg.Voters(), votes) == VoteWon && JointVote(ts[i+1].cfg.Voters(), votes') == VoteWon
    ensures x in votes && votes[x] && x in votes' && votes'[x]
  {
    hide Do, Sound, JointVote, IsQuorum;
    HistoryIsSound(ts, ops, lasts, i - 1);
    HistoryIsSound(ts, ops, lasts, i);
    HasVoters(ts[i-1], ops[i-1], lasts[i-1]);
    var c, c' := ts[i].cfg.Voters(), ts[i+1].cfg.Voters();
    WonHasQuorum(c, votes);
    WonHasQuorum(c', votes');
    x := ChangesOverlap(ts[i], ops[i], lasts[i], Yes(c.IDs(), votes), Yes(c'.IDs(), votes'));
  }

  /** A change that succeeded leaves at least one voter. */
  lemma HasVoters(t: Tracker, op: Op, last: nat)
    requires Sound(t) && Do(t, op, last).Ok?
    ensures Do(t, op, last).t.cfg.incoming != {}
  {
    match op {
      case DoSimple(ccs) => SimpleExact(t, ccs, last);
      case DoEnter(autoLeave, ccs) => EnterJointExact(t, autoLeave, ccs, last);
      case DoLeave => LeaveJointExact(t);
    }
  }
}
