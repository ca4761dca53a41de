// The Changer of raft/confchange/confchange.go as it works: a copied config and
// progress map that the changes of a list update in place, and the checks around.
module Changer {
  import opened Quorum
  import opened ProgressSpec
  import opened ConfRestore
  import S = ConfSpec

  type Ids = S.Ids
  type Change = S.Change

  class Draft {
    var incoming: set<NodeId>
    var outgoing: Ids
    var learners: Ids
    var learnersNext: Ids
    var autoLeave: bool
    var prs: map<NodeId, S.Peer>

    ghost function View(): S.Tracker
      reads this
    {
      S.Tracker(S.Conf(incoming, outgoing, learners, learnersNext, autoLeave), prs)
    }

    /** Config.Clone and a copy of the progress map. */
    constructor (t: S.Tracker)
      ensures View() == S.Clone(t)
    {
      incoming, outgoing, learners, learnersNext := t.cfg.incoming, t.cfg.outgoing, t.cfg.learners, t.cfg.learnersNext;
      autoLeave, prs := false, t.prs;
    }

    method InitProgress(id: NodeId, isLearner: bool, last: nat)
      modifies this
      ensures View() == S.InitProgress(old(View()), id, isLearner, last)
    {
      if !isLearner {
        incoming := incoming + {id};
      } else {
        learners := S.NilAwareAdd(learners, id);
      }
      prs := prs[id := S.Peer(Pr(0, last, Probe, 0, false), isLearner)];
    }

    method MakeVoter(id: NodeId, last: nat)
      modifies this
      ensures View() == S.MakeVoter(old(View()), id, last)
    {
      if id !in prs {
        InitProgress(id, false, last);
        return;
      }
      prs := prs[id := prs[id].(isLearner := false)];
      learners := S.NilAwareDelete(learners, id);
      learnersNext := S.NilAwareDelete(learnersNext, id);
      incoming := incoming + {id};
    }

    method Remove(id: NodeId)
      modifies this
      ensures View() == S.Remove(old(View()), id)
    {
      if id !in prs { return; }
      incoming := incoming - {id};
      learners := S.NilAwareDelete(learners, id);
      learnersNext := S.NilAwareDelete(learnersNext, id);
      if id !in outgoing.S() { prs := prs - {id}; }
    }

    method MakeLearner(id: NodeId, last: nat)
      modifies this
      ensures View() == S.MakeLearner(old(View()), id, last)
    {
      if id !in prs {
        InitProgress(id, true, last);
        return;
      }
      var pr := prs[id];
      if pr.isLearner { return; }
      Remove(id);
      if id in outgoing.S() {
        learnersNext := S.NilAwareAdd(learnersNext, id);
        prs := prs[id := pr];
      } else {
        prs := prs[id := pr.(isLearner := true)];
        learners := S.NilAwareAdd(learners, id);
      }
    }

    /** Applies the changes in order; stops at a change of unknown kind. */
    method Apply(ccs: seq<Change>, last: nat) returns (r: S.Outcome)
      modifies this
      ensures r == S.Apply(old(View()), ccs, last)
      ensures r.Ok? ==> r.t == View()
    {
      var i := 0;
      while i < |ccs|
        invariant i <= |ccs| && View() == S.ApplyAll(old(View()), ccs[..i], last)
        invariant S.KnownKinds(ccs[..i])
      {
        var cc := ccs[i];
        assert ccs[..i+1][..i] == ccs[..i];
        if cc.id != 0 {
          match cc.kind {
            case AddNode => MakeVoter(cc.id, last);
            case AddLearnerNode => MakeLearner(cc.id, last);
            case RemoveNode => Remove(cc.id);
            case UpdateNode =>
            case OtherKind => return S.Err(S.UnexpectedKind);
          }
        }
        i := i + 1;
      }
      assert ccs[..i] == ccs;
      if incoming == {} { return S.Err(S.RemovedAllVoters); }
      r := S.Ok(S.Tracker(S.Conf(incoming, outgoing, learners, learnersNext, autoLeave), prs));
    }

    /** checkInvariants, loop by loop. */
    method CheckInvariants() returns (ok: bool)
      ensures ok == S.Checked(View())
    {
      ghost var named := incoming + outgoing.S() + learners.S() + learnersNext.S();
      var todo := incoming + outgoing.S() + learners.S() + learnersNext.S();
      while todo != {}
        invariant todo <= named && named - todo <= prs.Keys
        decreases todo
      {
        var id :| id in todo;
        if id !in prs { return false; }
        todo := todo - {id};
      }
      assert named == named - todo;
      todo := learnersNext.S();
      while todo != {}
        invariant todo <= learnersNext.S() <= prs.Keys
        invariant forall id | id in learnersNext.S() - todo :: id in outgoing.S() && !prs[id].isLearner
        decreases todo
      {
        var id :| id in todo;
        if id !in outgoing.S() || prs[id].isLearner { return false; }
        todo := todo - {id};
      }
      todo := learners.S();
      while todo != {}
        invariant todo <= learners.S() <= prs.Keys
        invariant forall id | id in learners.S() - todo ::
                    id !in outgoing.S() && id !in incoming && prs[id].isLearner
        decreases todo
      {
        var id :| id in todo;
        if id in outgoing.S() || id in incoming || !prs[id].isLearner { return false; }
        todo := todo - {id};
      }
      if outgoing.S() == {} && (!outgoing.Nil? || !learnersNext.Nil? || autoLeave) { return false; }
      ok := true;
    }
  }

  /** The elements of l that are not in r. */
  method CountMissing(l: set<NodeId>, r: set<NodeId>) returns (n: nat)
    ensures n == |l - r|
  {
    n := 0;
    var todo := l;
    while todo != {}
      invariant todo <= l && n + |todo - r| == |l - r|
      decreases todo
    {
      var id :| id in todo;
      if id !in r {
        assert todo - r == ((todo - {id}) - r) + {id};
        n := n + 1;
      } else {
        assert todo - r == (todo - {id}) - r;
      }
      todo := todo - {id};
    }
  }

  method SymDiff(l: set<NodeId>, r: set<NodeId>) returns (n: nat)
    ensures n == S.SymDiff(l, r)
  {
    n := CountMissing(l, r);
    var m := CountMissing(r, l);
    n := n + m;
  }

  // ---------------------------------------------------------------------------
  // The three operations; the tracker passed in is not touched
  // ---------------------------------------------------------------------------

  method Simple(t: S.Tracker, ccs: seq<Change>, last: nat) returns (r: S.Outcome)
    ensures r == S.Simple(t, ccs, last)
  {
    var d := new Draft(t);
    var ok := d.CheckInvariants();
    if !ok { return S.Err(S.InvalidConfig); }
    if d.outgoing.S() != {} { return S.Err(S.SimpleInJoint); }
    r := d.Apply(ccs, last);
    if r.Err? { return; }
    var n := SymDiff(t.cfg.incoming, d.incoming);
    if n > 1 { return S.Err(S.ManyVotersChanged); }
    ok := d.CheckInvariants();
    if !ok { return S.Err(S.InvalidConfig); }
  }

  method EnterJoint(t: S.Tracker, autoLeave: bool, ccs: seq<Change>, last: nat) returns (r: S.Outcome)
    ensures r == S.EnterJoint(t, autoLeave, ccs, last)
  {
    var d := new Draft(t);
    var ok := d.CheckInvariants();
    if !ok { return S.Err(S.InvalidConfig); }
    if d.outgoing.S() != {} { return S.Err(S.AlreadyJoint); }
    if |d.incoming| == 0 { return S.Err(S.NoVoters); }
    d.outgoing := S.Ids.Ids({});
    var todo := d.incoming;
    while todo != {}
      invariant todo <= d.incoming && d.outgoing == S.Ids.Ids(d.incoming - todo)
      invariant d.View() == S.Clone(t).(cfg := S.Clone(t).cfg.(outgoing := d.outgoing))
      decreases todo
    {
      var id :| id in todo;
      d.outgoing := S.Ids.Ids(d.outgoing.all + {id});
      todo := todo - {id};
    }
    assert d.View() == S.Rotated(S.Clone(t));
    r := d.Apply(ccs, last);
    if r.Err? { return; }
    d.autoLeave := autoLeave;
    ok := d.CheckInvariants();
    if !ok { return S.Err(S.InvalidConfig); }
    r := S.Ok(r.t.(cfg := r.t.cfg.(autoLeave := autoLeave)));
  }

  /** `prs` with the staged learners in `done` marked as learners. */
  function Marked(prs: map<NodeId, S.Peer>, done: set<NodeId>): map<NodeId, S.Peer> {
    map id | id in prs :: if id in done then prs[id].(isLearner := true) else prs[id]
  }

  function Joined(m: Ids, done: set<NodeId>): Ids { if done == {} then m else S.Ids.Ids(m.S() + done) }

  lemma JoinedMore(m: Ids, done: set<NodeId>, id: NodeId)
    ensures S.NilAwareAdd(Joined(m, done), id) == Joined(m, done + {id})
  {
    assert m.S() + done + {id} == m.S() + (done + {id});
  }

  lemma MarkedMore(prs: map<NodeId, S.Peer>, done: set<NodeId>, id: NodeId)
    requires id in prs
    ensures id in Marked(prs, done)
    ensures Marked(prs, done)[id := Marked(prs, done)[id].(isLearner := true)] == Marked(prs, done + {id})
  {
  }

  lemma MarkedNone(prs: map<NodeId, S.Peer>)
    ensures Marked(prs, {}) == prs
  {
  }

  method LeaveJoint(t: S.Tracker) returns (r: S.Outcome)
    ensures r == S.LeaveJoint(t)
  {
    var d := new Draft(t);
    var ok := d.CheckInvariants();
    if !ok { return S.Err(S.InvalidConfig); }
    if d.outgoing.S() == {} { return S.Err(S.NotJoint); }
    Promote(d);
    d.learnersNext := S.Nil;
    Forget(d);
    d.outgoing := S.Nil;
    d.autoLeave := false;
    assert d.prs == S.Left(t).prs;
    assert d.View() == S.Left(t);
    ok := d.CheckInvariants();
    if !ok { return S.Err(S.InvalidConfig); }
    r := S.Ok(S.Tracker(S.Conf(d.incoming, S.Nil, d.learners, S.Nil, false), d.prs));
  }

  /** Staged learners become learners. */
  method Promote(d: Draft)
    requires d.learnersNext.S() <= d.prs.Keys
    modifies d`learners, d`prs
    ensures d.learners == Joined(old(d.learners), d.learnersNext.S())
    ensures d.prs == Marked(old(d.prs), d.learnersNext.S())
  {
    var todo := d.learnersNext.S();
    ghost var staged := todo;
    MarkedNone(d.prs);
    assert staged - todo == {} && Joined(d.learners, {}) == d.learners;
    hide Marked, Joined, S.NilAwareAdd;
    while todo != {}
      invariant todo <= staged
      invariant d.learners == Joined(old(d.learners), staged - todo)
      invariant d.prs == Marked(old(d.prs), staged - todo)
      decreases todo
    {
      var id :| id in todo;
      MarkedMore(old(d.prs), staged - todo, id);
      JoinedMore(old(d.learners), staged - todo, id);
      d.learners := S.NilAwareAdd(d.learners, id);
      d.prs := d.prs[id := d.prs[id].(isLearner := true)];
      assert staged - todo + {id} == staged - (todo - {id});
      todo := todo - {id};
    }
    assert staged - todo == staged;
  }

  /** Outgoing voters that are neither voters nor learners any more lose their progress. */
  method Forget(d: Draft)
    modifies d`prs
    ensures d.prs == map id | id in old(d.prs) &&
                       (id !in d.outgoing.S() || id in d.incoming || id in d.learners.S()) :: old(d.prs)[id]
  {
    var todo := d.outgoing.S();
    ghost var done: set<NodeId> := {};
    while todo != {}
      invariant todo + done == d.outgoing.S() && todo !! done
      invariant d.prs == map id | id in old(d.prs) &&
                           (id !in done || id in d.incoming || id in d.learners.S()) :: old(d.prs)[id]
      decreases todo
    {
      var id :| id in todo;
      if id !in d.incoming && id !in d.learners.S() { d.prs := d.prs - {id}; }
      todo, done := todo - {id}, done + {id};
    }
  }

  // ---------------------------------------------------------------------------
  // Restore
  // ---------------------------------------------------------------------------

  method Append(ccs: seq<Change>, kind: S.Kind, ids: seq<NodeId>) returns (r: seq<Change>)
    ensures r == ccs + Each(kind, ids)
  {
    r := ccs;
    var i := 0;
    while i < |ids|
      invariant i <= |ids| && r == ccs + Each(kind, ids[..i])
    {
      r := r + [S.Change.Change(kind, ids[i])];
      assert Each(kind, ids[..i+1]) == Each(kind, ids[..i]) + [S.Change.Change(kind, ids[i])];
      i := i + 1;
    }
    assert ids[..i] == ids;
  }

  method ToConfChangeSingle(cs: ConfState) returns (out: seq<Change>, into: seq<Change>)
    ensures out == Outgoing(cs) && into == Incoming(cs)
  {
    out := Append([], S.AddNode, cs.votersOutgoing);
    into := Append([], S.RemoveNode, cs.votersOutgoing);
    into := Append(into, S.AddNode, cs.voters);
    into := Append(into, S.AddLearnerNode, cs.learners);
    into := Append(into, S.AddLearnerNode, cs.learnersNext);
  }

  /** chain: one Simple after the other, until one fails. */
  method SimpleEach(t: S.Tracker, ccs: seq<Change>, last: nat) returns (r: S.Outcome)
    ensures r == Chain(t, ccs, last)
  {
    r := S.Ok(t);
    var i := 0;
    while i < |ccs|
      invariant i <= |ccs| && r.Ok? && r == Chain(t, ccs[..i], last)
    {
      assert ccs[..i+1][..i] == ccs[..i];
      r := Simple(r.t, [ccs[i]], last);
      if r.Err? {
        ChainStops(t, ccs, i + 1, last);
        return;
      }
      i := i + 1;
    }
    assert ccs[..i] == ccs;
  }

  lemma {:induction false} ChainStops(t: S.Tracker, ccs: seq<Change>, i: nat, last: nat)
    requires i <= |ccs| && Chain(t, ccs[..i], last).Err?
    ensures Chain(t, ccs, last) == Chain(t, ccs[..i], last)
    decreases |ccs|
  {
    if i < |ccs| {
      assert ccs[..|ccs|-1][..i] == ccs[..i];
      ChainStops(t, ccs[..|ccs|-1], i, last);
    } else {
      assert ccs[..i] == ccs;
    }
  }

  method Restore(t: S.Tracker, cs: ConfState, last: nat) returns (r: S.Outcome)
    ensures r == ConfRestore.Restore(t, cs, last)
  {
    var out, into := ToConfChangeSingle(cs);
    if |out| == 0 {
      r := SimpleEach(t, into, last);
    } else {
      r := SimpleEach(t, out, last);
      if r.Ok? { r := EnterJoint(r.t, cs.autoLeave, into, last); }
    }
  }

  // ---------------------------------------------------------------------------
  // ConfState
  // ---------------------------------------------------------------------------

  /** MajorityConfig.Slice: the ids in increasing order. */
  method Slice(c: set<NodeId>) returns (s: seq<NodeId>)
    ensures Increasing(s) && Elems(s) == c
  {
    s := [];
    var todo := c;
    while todo != {}
      invariant todo <= c && Increasing(s) && Elems(s) == c - todo
      decreases todo
    {
      var id :| id in todo;
      assert id !in Elems(s);
      s := Insert(s, id);
      todo := todo - {id};
    }
  }

  method Insert(s: seq<NodeId>, id: NodeId) returns (r: seq<NodeId>)
    requires Increasing(s) && id !in Elems(s)
    ensures Increasing(r) && Elems(r) == Elems(s) + {id}
  {
    var k := 0;
    while k < |s| && s[k] < id
      invariant k <= |s| && forall i | 0 <= i < k :: s[i] < id
    {
      k := k + 1;
    }
    assert k < |s| ==> s[k] in Elems(s);
    r := s[..k] + [id] + s[k..];
    assert forall x :: x in r <==> x in s || x == id;
  }

  method ConfStateOf(t: S.Tracker) returns (cs: ConfState)
    ensures IsConfState(t, cs)
  {
    var voters := Slice(t.cfg.incoming);
    var outgoing := Slice(t.cfg.outgoing.S());
    var learners := Slice(t.cfg.learners.S());
    var next := Slice(t.cfg.learnersNext.S());
    cs := ConfState(voters, learners, outgoing, next, t.cfg.autoLeave);
  }
}
