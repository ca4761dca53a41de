// Restoring a configuration from its serialized form (raft/confchange/restore.go)
// and back (ConfState of raft/tracker/tracker.go), in both directions.
module ConfRestore {
  import opened Quorum
  import opened ConfSpec

  datatype ConfState = ConfState(
    voters: seq<NodeId>, learners: seq<NodeId>, votersOutgoing: seq<NodeId>, learnersNext: seq<NodeId>,
    autoLeave: bool)

  // ---------------------------------------------------------------------------
  // Restore
  // ---------------------------------------------------------------------------

  function Each(kind: Kind, ids: seq<NodeId>): (ccs: seq<Change>)
    ensures |ccs| == |ids| && forall i | 0 <= i < |ids| :: ccs[i] == Change(kind, ids[i])
  {
    seq(|ids|, i requires 0 <= i < |ids| => Change(kind, ids[i]))
  }

  /** toConfChangeSingle: first the outgoing config, then the changes on top of it. */
  function Outgoing(cs: ConfState): seq<Change> { Each(AddNode, cs.votersOutgoing) }

  function Incoming(cs: ConfState): seq<Change> {
    Each(RemoveNode, cs.votersOutgoing) + Each(AddNode, cs.voters)
      + Each(AddLearnerNode, cs.learners) + Each(AddLearnerNode, cs.learnersNext)
  }

  /** chain over one Simple per change. */
  ghost function Chain(t: Tracker, ccs: seq<Change>, last: nat): Outcome {
    if ccs == [] then Ok(t)
    else
      var r := Chain(t, ccs[..|ccs|-1], last);
      if r.Err? then r else Simple(r.t, [ccs[|ccs|-1]], last)
  }

  ghost function Restore(t: Tracker, cs: ConfState, last: nat): Outcome {
    if Outgoing(cs) == [] then Chain(t, Incoming(cs), last)
    else
      var r := Chain(t, Outgoing(cs), last);
      if r.Err? then r else EnterJoint(r.t, cs.autoLeave, Incoming(cs), last)
  }

  // ---------------------------------------------------------------------------
  // ConfStates
  // ---------------------------------------------------------------------------

  function Elems(s: seq<NodeId>): set<NodeId> { set x | x in s }

  predicate NoDup(s: seq<NodeId>) { forall i, j | 0 <= i < j < |s| :: s[i] != s[j] }

  predicate Increasing(s: seq<NodeId>) { forall i, j | 0 <= i < j < |s| :: s[i] < s[j] }

  /** ProgressTracker.ConfState: the four sets as sorted slices. */
  ghost predicate IsConfState(t: Tracker, cs: ConfState) {
    && Increasing(cs.voters) && Increasing(cs.learners) && Increasing(cs.votersOutgoing) && Increasing(cs.learnersNext)
    && RolesOf(t.cfg) == RolesIn(cs) && cs.autoLeave == t.cfg.autoLeave
  }

  function RolesIn(cs: ConfState): Roles {
    Roles(Elems(cs.voters), Elems(cs.votersOutgoing), Elems(cs.learners), Elems(cs.learnersNext))
  }

  /** ConfState.Equivalent: equal once sorted. */
  ghost predicate Equivalent(a: ConfState, b: ConfState) {
    && multiset(a.voters) == multiset(b.voters) && multiset(a.learners) == multiset(b.learners)
    && multiset(a.votersOutgoing) == multiset(b.votersOutgoing)
    && multiset(a.learnersNext) == multiset(b.learnersNext) && a.autoLeave == b.autoLeave
  }

  /** No list names a node twice or node 0, learners do not vote, staged learners vote only in the outgoing half. */
  ghost predicate WellFormed(cs: ConfState) {
    var r := RolesIn(cs);
    && NoDup(cs.voters) && NoDup(cs.learners) && NoDup(cs.votersOutgoing) && NoDup(cs.learnersNext)
    && 0 !in r.voters + r.outgoing + r.learners + r.next
    && r.learners !! (r.voters + r.outgoing) && r.next <= r.outgoing && r.next !! r.voters
    && (cs.autoLeave ==> r.outgoing != {})
    && (r.voters == {} ==> r.outgoing == {} && r.learners == {})
  }

  // ---------------------------------------------------------------------------
  // What the change lists mean
  // ---------------------------------------------------------------------------

  lemma {:induction false} LastOfBoth(a: seq<Change>, b: seq<Change>, id: NodeId)
    ensures LastKind(a + b, id) == if LastKind(b, id) != UpdateNode then LastKind(b, id) else LastKind(a, id)
    decreases |b|
  {
    if b == [] {
      assert a + b == a;
    } else {
      assert (a + b)[..|a + b| - 1] == a + b[..|b|-1];
      LastOfBoth(a, b[..|b|-1], id);
    }
  }

  lemma {:induction false} LastOfEach(kind: Kind, ids: seq<NodeId>, id: NodeId)
    requires kind == AddNode || kind == AddLearnerNode || kind == RemoveNode
    ensures LastKind(Each(kind, ids), id) == if id in ids && id != 0 then kind else UpdateNode
    decreases |ids|
  {
    if ids != [] {
      var ccs := Each(kind, ids);
      assert ccs[..|ccs|-1] == Each(kind, ids[..|ids|-1]);
      LastOfEach(kind, ids[..|ids|-1], id);
      assert ids == ids[..|ids|-1] + [ids[|ids|-1]];
    }
  }

  lemma LastOfIncoming(cs: ConfState, id: NodeId)
    requires id != 0
    ensures LastKind(Incoming(cs), id) ==
      if id in cs.learnersNext || id in cs.learners then AddLearnerNode
      else if id in cs.voters then AddNode
      else if id in cs.votersOutgoing then RemoveNode else UpdateNode
  {
    var a, b, c, d := Each(RemoveNode, cs.votersOutgoing), Each(AddNode, cs.voters),
                      Each(AddLearnerNode, cs.learners), Each(AddLearnerNode, cs.learnersNext);
    LastOfBoth(a, b, id);
    LastOfBoth(a + b, c, id);
    LastOfBoth(a + b + c, d, id);
    LastOfEach(RemoveNode, cs.votersOutgoing, id);
    LastOfEach(AddNode, cs.voters, id);
    LastOfEach(AddLearnerNode, cs.learners, id);
    LastOfEach(AddLearnerNode, cs.learnersNext, id);
  }

  /** Whatever was there before, as long as it is the outgoing config, the incoming changes yield `cs`. */
  lemma IncomingRoles(cs: ConfState)
    requires WellFormed(cs)
    ensures var o := Elems(cs.votersOutgoing); ChangedAll(Roles(o, o, {}, {}), Incoming(cs)) == RolesIn(cs)
  {
    var o := Elems(cs.votersOutgoing);
    var q, r := ChangedAll(Roles(o, o, {}, {}), Incoming(cs)), RolesIn(cs);
    forall id ensures (id in q.voters <==> id in r.voters) && (id in q.learners <==> id in r.learners)
                      && (id in q.next <==> id in r.next) && q.outgoing == r.outgoing
    {
      LastChangeWins(Roles(o, o, {}, {}), Incoming(cs), id);
      if id != 0 { LastOfIncoming(cs, id); } else { LastOfZero(Incoming(cs)); }
    }
    assert q.voters == r.voters && q.learners == r.learners && q.next == r.next;
  }

  lemma {:induction false} LastOfZero(ccs: seq<Change>)
    ensures LastKind(ccs, 0) == UpdateNode
    decreases |ccs|
  {
    if ccs != [] { LastOfZero(ccs[..|ccs|-1]); }
  }

  lemma OutgoingRoles(ids: seq<NodeId>)
    requires 0 !in ids
    ensures ChangedAll(Roles({}, {}, {}, {}), Each(AddNode, ids)) == Roles(Elems(ids), {}, {}, {})
  {
    var q := ChangedAll(Roles({}, {}, {}, {}), Each(AddNode, ids));
    forall id ensures (id in q.voters <==> id in Elems(ids)) && id !in q.learners && id !in q.next && q.outgoing == {} {
      LastChangeWins(Roles({}, {}, {}, {}), Each(AddNode, ids), id);
      LastOfEach(AddNode, ids, id);
    }
    assert q.voters == Elems(ids) && q.learners == {} && q.next == {};
  }

  // ---------------------------------------------------------------------------
  // One change at a time
  // ---------------------------------------------------------------------------

  lemma OneChangeNear(r: Roles, cc: Change)
    ensures SymDiff(r.voters, Changed(r, cc).voters) <= 1
  {
    var v := Changed(r, cc).voters;
    SubsetSize(r.voters - v, {cc.id});
    SubsetSize(v - r.voters, {cc.id});
    assert r.voters - v == {} || v - r.voters == {};
  }

  /** A single known change to a config that is not joint fails only by removing the last voter. */
  lemma SimpleOne(t: Tracker, cc: Change, last: nat)
    requires Sound(t) && !Joint(t.cfg) && cc.kind != OtherKind && Changed(RolesOf(t.cfg), cc).voters != {}
    ensures var r := Simple(t, [cc], last);
      r.Ok? && Sound(r.t) && !Joint(r.t.cfg) && RolesOf(r.t.cfg) == Changed(RolesOf(t.cfg), cc)
  {
    hide Draft, Checked, ApplyAll, Simple, Sound, Joint;
    assert [cc][..0] == [] && ChangedAll(RolesOf(t.cfg), [cc]) == Changed(ChangedAll(RolesOf(t.cfg), []), cc);
    OneChangeNear(RolesOf(t.cfg), cc);
    SimpleExact(t, [cc], last);
  }

  ghost predicate AlwaysVoters(r: Roles, ccs: seq<Change>) {
    forall k | 1 <= k <= |ccs| :: ChangedAll(r, ccs[..k]).voters != {}
  }

  lemma {:induction false} ChainExact(t: Tracker, ccs: seq<Change>, last: nat)
    requires Sound(t) && !Joint(t.cfg) && AlwaysVoters(RolesOf(t.cfg), ccs)
    requires forall i | 0 <= i < |ccs| :: ccs[i].kind != OtherKind
    ensures var r := Chain(t, ccs, last);
      r.Ok? && Sound(r.t) && !Joint(r.t.cfg) && RolesOf(r.t.cfg) == ChangedAll(RolesOf(t.cfg), ccs)
    decreases |ccs|
  {
    if ccs != [] {
      var most := ccs[..|ccs|-1];
      forall k | 1 <= k <= |most| ensures ChangedAll(RolesOf(t.cfg), most[..k]).voters != {} {
        assert most[..k] == ccs[..k];
      }
      ChainExact(t, most, last);
      assert ccs[..|ccs|] == ccs;
      SimpleOne(Chain(t, most, last).t, ccs[|ccs|-1], last);
    }
  }

  /** Once added as a voter and never touched otherwise, a node stays a voter. */
  lemma {:induction false} StaysVoter(r: Roles, ccs: seq<Change>, v: NodeId, k: nat)
    requires v != 0 && 1 <= k <= |ccs| && ccs[0] == Change(AddNode, v)
    requires forall i | 0 <= i < |ccs| && ccs[i].id == v :: ccs[i].kind == AddNode
    ensures v in ChangedAll(r, ccs[..k]).voters
    decreases k
  {
    assert ccs[..k][..k-1] == ccs[..k-1];
    if k > 1 { StaysVoter(r, ccs, v, k - 1); }
  }

  // ---------------------------------------------------------------------------
  // The round trip
  // ---------------------------------------------------------------------------

  lemma ElemsOf(s: seq<NodeId>)
    ensures forall i | 0 <= i < |s| :: s[i] in Elems(s)
    ensures Elems(s) == {} <==> s == []
  {
    if s != [] { assert s[0] in Elems(s); }
  }

  lemma PlainIncoming(cs: ConfState)
    requires WellFormed(cs) && cs.votersOutgoing == []
    ensures Incoming(cs) == Each(AddNode, cs.voters) + Each(AddLearnerNode, cs.learners)
    ensures AlwaysVoters(Roles({}, {}, {}, {}), Incoming(cs))
  {
    ElemsOf(cs.voters);
    ElemsOf(cs.learners);
    ElemsOf(cs.learnersNext);
    assert Each(RemoveNode, []) == [] && Each(AddLearnerNode, []) == [];
    var ccs := Incoming(cs);
    if cs.voters == [] {
      assert ccs == [];
    } else {
      var v := cs.voters[0];
      assert forall i | |cs.voters| <= i < |ccs| :: ccs[i].id in Elems(cs.learners);
      forall k | 1 <= k <= |ccs| ensures ChangedAll(Roles({}, {}, {}, {}), ccs[..k]).voters != {} {
        StaysVoter(Roles({}, {}, {}, {}), ccs, v, k);
      }
    }
  }

  lemma OutgoingChain(cs: ConfState, last: nat)
    requires WellFormed(cs) && cs.votersOutgoing != []
    ensures var r := Chain(EMPTY, Outgoing(cs), last);
      r.Ok? && Sound(r.t) && !Joint(r.t.cfg) && RolesOf(r.t.cfg) == Roles(Elems(cs.votersOutgoing), {}, {}, {})
  {
    var ccs, v := Outgoing(cs), cs.votersOutgoing[0];
    assert forall i | 0 <= i < |cs.votersOutgoing| :: cs.votersOutgoing[i] in Elems(cs.votersOutgoing);
    forall k | 1 <= k <= |ccs| ensures ChangedAll(Roles({}, {}, {}, {}), ccs[..k]).voters != {} {
      StaysVoter(Roles({}, {}, {}, {}), ccs, v, k);
    }
    OutgoingRoles(cs.votersOutgoing);
    ChainExact(EMPTY, ccs, last);
  }

  lemma RestorePlain(cs: ConfState, last: nat)
    requires WellFormed(cs) && cs.votersOutgoing == []
    ensures var r := Chain(EMPTY, Incoming(cs), last);
      r.Ok? && Sound(r.t) && RolesOf(r.t.cfg) == RolesIn(cs) && r.t.cfg.autoLeave == cs.autoLeave
  {
    assert Elems(cs.votersOutgoing) == {};
    IncomingRoles(cs);
    PlainIncoming(cs);
    ChainExact(EMPTY, Incoming(cs), last);
  }

  /** Restoring a well-formed ConfState succeeds and yields exactly the roles it lists. */
  lemma RestoreExact(cs: ConfState, last: nat)
    requires WellFormed(cs)
    ensures var r := Restore(EMPTY, cs, last);
      r.Ok? && Sound(r.t) && RolesOf(r.t.cfg) == RolesIn(cs) && r.t.cfg.autoLeave == cs.autoLeave
  {
    hide WellFormed, Chain, EnterJoint, RolesIn, Sound, Incoming;
    if cs.votersOutgoing == [] {
      RestorePlain(cs, last);
    } else {
      OutgoingChain(cs, last);
      JointIncoming(Chain(EMPTY, Outgoing(cs), last).t, cs, last);
    }
  }

  lemma JointIncoming(t: Tracker, cs: ConfState, last: nat)
    requires WellFormed(cs) && Sound(t) && !Joint(t.cfg) && cs.votersOutgoing != []
    requires RolesOf(t.cfg) == Roles(Elems(cs.votersOutgoing), {}, {}, {})
    ensures var r := EnterJoint(t, cs.autoLeave, Incoming(cs), last);
      r.Ok? && Sound(r.t) && RolesOf(r.t.cfg) == RolesIn(cs) && r.t.cfg.autoLeave == cs.autoLeave
  {
    assert cs.votersOutgoing[0] in Elems(cs.votersOutgoing);
    IncomingRoles(cs);
    EnterJointExact(t, cs.autoLeave, Incoming(cs), last);
  }

  lemma {:induction false} NoDupCount(s: seq<NodeId>)
    requires NoDup(s)
    ensures multiset(s) == multiset(Elems(s))
    decreases |s|
  {
    if s != [] {
      var most := s[..|s|-1];
      assert s == most + [s[|s|-1]];
      NoDupCount(most);
      assert Elems(s) == Elems(most) + {s[|s|-1]};
    }
  }

  /** First direction: the ConfState of the restored config is equivalent to the input. */
  lemma RestoreRoundTrip(cs: ConfState, last: nat, cs': ConfState)
    requires WellFormed(cs)
    ensures Restore(EMPTY, cs, last).Ok?
    ensures IsConfState(Restore(EMPTY, cs, last).t, cs') ==> Equivalent(cs', cs)
  {
    RestoreExact(cs, last);
    if IsConfState(Restore(EMPTY, cs, last).t, cs') { SameElemsEquivalent(cs', cs); }
  }

  lemma SameElemsEquivalent(a: ConfState, b: ConfState)
    requires RolesIn(a) == RolesIn(b) && a.autoLeave == b.autoLeave && WellFormed(b)
    requires Increasing(a.voters) && Increasing(a.learners)
    requires Increasing(a.votersOutgoing) && Increasing(a.learnersNext)
    ensures Equivalent(a, b)
  {
    NoDupCount(a.voters); NoDupCount(b.voters);
    NoDupCount(a.learners); NoDupCount(b.learners);
    NoDupCount(a.votersOutgoing); NoDupCount(b.votersOutgoing);
    NoDupCount(a.learnersNext); NoDupCount(b.learnersNext);
  }

  /** Second direction: restoring the ConfState of any config in use rebuilds that very config. */
  lemma RestoreRebuilds(t: Tracker, cs: ConfState, last: nat)
    requires Sound(t) && IsConfState(t, cs)
    ensures WellFormed(cs) && Restore(EMPTY, cs, last).Ok?
    ensures var u := Restore(EMPTY, cs, last).t;
      && u.cfg == t.cfg && u.prs.Keys == t.prs.Keys
      && forall id | id in t.prs :: u.prs[id].isLearner == t.prs[id].isLearner
  {
    RestoreExact(cs, last);
  }

  /** Over every history of successful changes. */
  lemma HistoryRestores(ts: seq<Tracker>, ops: seq<Op>, lasts: seq<nat>, i: nat, cs: ConfState, last: nat)
    requires IsHistory(ts, ops, lasts) && i < |ts| && IsConfState(ts[i], cs)
    ensures Restore(EMPTY, cs, last).Ok? && Restore(EMPTY, cs, last).t.cfg == ts[i].cfg
  {
    HistoryIsSound(ts, ops, lasts, i);
    RestoreRebuilds(ts[i], cs, last);
  }

  // ---------------------------------------------------------------------------
  // Well-formedness is exactly what the round trip needs
  // ---------------------------------------------------------------------------

  lemma {:induction false} ChainSound(t: Tracker, ccs: seq<Change>, last: nat)
    requires Sound(t)
    ensures Chain(t, ccs, last).Ok? ==> Sound(Chain(t, ccs, last).t)
    decreases |ccs|
  {
    if ccs != [] {
      ChainSound(t, ccs[..|ccs|-1], last);
      var r := Chain(t, ccs[..|ccs|-1], last);
      if r.Ok? { DoKeeps(r.t, DoSimple([ccs[|ccs|-1]]), last); }
    }
  }

  lemma RestoreSound(cs: ConfState, last: nat)
    ensures Restore(EMPTY, cs, last).Ok? ==> Sound(Restore(EMPTY, cs, last).t)
  {
    ChainSound(EMPTY, Incoming(cs), last);
    ChainSound(EMPTY, Outgoing(cs), last);
    var r := Chain(EMPTY, Outgoing(cs), last);
    if r.Ok? { DoKeeps(r.t, DoEnter(cs.autoLeave, Incoming(cs)), last); }
  }

  lemma SameCounts(a: seq<NodeId>, b: seq<NodeId>)
    requires Increasing(a) && multiset(a) == multiset(b)
    ensures NoDup(b) && Elems(a) == Elems(b)
  {
    NoDupCount(a);
    assert forall x :: x in a <==> x in multiset(a);
    assert forall x :: x in b <==> x in multiset(b);
    forall i, j | 0 <= i < j < |b| ensures b[i] != b[j] {
      assert b == b[..j] + b[j..];
      assert b[i] in b[..j] && b[j] in b[j..];
      assert multiset(b)[b[j]] == multiset(b[..j])[b[j]] + multiset(b[j..])[b[j]];
    }
  }

  /** newRaft's assertConfStatesEquivalent holds after Restore iff the ConfState was well-formed. */
  lemma RestoreIff(cs: ConfState, last: nat, cs': ConfState)
    requires Restore(EMPTY, cs, last).Ok? ==> IsConfState(Restore(EMPTY, cs, last).t, cs')
    ensures WellFormed(cs) <==> Restore(EMPTY, cs, last).Ok? && Equivalent(cs', cs)
  {
    if WellFormed(cs) { RestoreRoundTrip(cs, last, cs'); }
    if Restore(EMPTY, cs, last).Ok? && Equivalent(cs', cs) {
      RestoreSound(cs, last);
      SoundIsWellFormed(Restore(EMPTY, cs, last).t, cs', cs);
    }
  }

  lemma SoundIsWellFormed(t: Tracker, cs': ConfState, cs: ConfState)
    requires Sound(t) && IsConfState(t, cs') && Equivalent(cs', cs)
    ensures WellFormed(cs)
  {
    SameCounts(cs'.voters, cs.voters);
    SameCounts(cs'.learners, cs.learners);
    SameCounts(cs'.votersOutgoing, cs.votersOutgoing);
    SameCounts(cs'.learnersNext, cs.learnersNext);
  }
}
