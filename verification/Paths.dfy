// What can be reached without crashes: steps of some nodes leave all others alone,
// lose no message and keep the invariants.
module Paths {
  import opened Quorum
  import opened Protocol
  import opened Election
  import opened Delivery

  /** Only nodes of `who` step, and none of them crashes. */
  predicate Only(acts: seq<Action>, who: set<NodeId>) {
    forall i | 0 <= i < |acts| :: acts[i].v in who && !acts[i].Crash?
  }

  /** s' can be reached from s by steps of nodes of `who`. */
  ghost predicate Can(s: Sys, who: set<NodeId>, s': Sys) {
    exists acts :: Reaches(s, acts, s') && Only(acts, who)
  }

  lemma CanStay(s: Sys, who: set<NodeId>)
    ensures Can(s, who, s)
  {
    assert Reaches(s, [], s) && Only([], who);
  }

  lemma CanStep(s: Sys, a: Action, s': Sys)
    requires Next(s, a, s') && !a.Crash?
    ensures Can(s, {a.v}, s')
  {
    OneNext(s, a, s');
    assert Only([a], {a.v});
  }

  /** A step of a node that reads no commit index. */
  lemma CanEmit(s: Sys, a: Action) returns (s': Sys)
    requires Enabled(s, a) && IsNodeStep(a) && ReadsCommit(s, a)
    ensures s' == Emit(s, a.v, NodeStep(s, a)) && Can(s, {a.v}, s')
  {
    hide Can;
    s' := Emit(s, a.v, NodeStep(s, a));
    CanStep(s, a, s');
  }

  lemma CanActs(s: Sys, acts: seq<Action>, who: set<NodeId>, s': Sys)
    requires Reaches(s, acts, s') && Only(acts, who)
    ensures Can(s, who, s')
  {
  }

  lemma CanMore(s: Sys, a: set<NodeId>, mid: Sys, b: set<NodeId>, s': Sys)
    requires Can(s, a, mid) && Can(mid, b, s')
    ensures Can(s, a + b, s')
  {
    hide Reaches;
    var x :| Reaches(s, x, mid) && Only(x, a);
    var y :| Reaches(mid, y, s') && Only(y, b);
    ReachesMore(s, x, mid, y, s');
    assert Only(x + y, a + b);
  }

  lemma CanAgain(s: Sys, who: set<NodeId>, mid: Sys, s': Sys)
    requires Can(s, who, mid) && Can(mid, who, s')
    ensures Can(s, who, s')
  {
    hide Can;
    CanMore(s, who, mid, who, s');
    assert who + who == who;
  }

  lemma CanWiden(s: Sys, a: set<NodeId>, s': Sys, b: set<NodeId>)
    requires Can(s, a, s') && a <= b
    ensures Can(s, b, s')
  {
    hide Reaches;
    var x :| Reaches(s, x, s') && Only(x, a);
    assert Only(x, b);
  }

  // ---------------------------------------------------------------------------
  // What stays
  // ---------------------------------------------------------------------------

  /** Nobody comes or goes, no message is lost, and u is as it was. */
  predicate Same(s: Sys, u: NodeId, s': Sys) {
    && (u in s.nodes ==> u in s'.nodes && s'.nodes[u] == s.nodes[u])
    && (u in s.disks ==> u in s'.disks && s'.disks[u] == s.disks[u])
  }

  predicate Grows(s: Sys, s': Sys) {
    s'.cfg == s.cfg && s'.nodes.Keys == s.nodes.Keys && s'.disks.Keys == s.disks.Keys && s.net <= s'.net
  }

  lemma StepFrame(s: Sys, a: Action, s': Sys, u: NodeId)
    requires Next(s, a, s')
    ensures Grows(s, s') && (u != a.v ==> Same(s, u, s'))
  {
    hide NodeStep, ReadsCommit, Observe;
  }

  lemma {:induction false} ActsFrame(s: Sys, acts: seq<Action>, s': Sys, u: NodeId)
    requires Reaches(s, acts, s')
    ensures Grows(s, s') && ((forall i | 0 <= i < |acts| :: acts[i].v != u) ==> Same(s, u, s'))
    decreases |acts|
  {
    hide Next;
    if acts != [] {
      var mid :| Next(s, acts[0], mid) && Reaches(mid, acts[1..], s');
      StepFrame(s, acts[0], mid, u);
      ActsFrame(mid, acts[1..], s', u);
      assert forall i | 0 <= i < |acts[1..]| :: acts[1..][i] == acts[i+1];
    }
  }

  /** Steps of others leave a node alone. */
  lemma CanFrame(s: Sys, who: set<NodeId>, s': Sys)
    requires Can(s, who, s')
    ensures Grows(s, s') && forall u | u !in who :: Same(s, u, s')
  {
    hide Reaches, Same;
    var acts :| Reaches(s, acts, s') && Only(acts, who);
    ActsFrame(s, acts, s', 0);
    forall u | u !in who ensures Same(s, u, s') { ActsFrame(s, acts, s', u); }
  }

  lemma {:induction false} ActsKeepE(s: Sys, acts: seq<Action>, s': Sys)
    requires EInv(s) && Reaches(s, acts, s')
    ensures EInv(s')
    decreases |acts|
  {
    hide Next, EInv, GrowE;
    if acts != [] {
      var mid :| Next(s, acts[0], mid) && Reaches(mid, acts[1..], s');
      StepKeepsE(s, acts[0], mid);
      ActsKeepE(mid, acts[1..], s');
    }
  }

  lemma CanKeepE(s: Sys, who: set<NodeId>, s': Sys)
    requires EInv(s) && Can(s, who, s')
    ensures EInv(s')
  {
    hide EInv, Reaches;
    var acts :| Reaches(s, acts, s') && Only(acts, who);
    ActsKeepE(s, acts, s');
  }

  /** A run that goes on that way. */
  lemma CanExtend(states: seq<Sys>, acts: seq<Action>, who: set<NodeId>, s': Sys)
    returns (states': seq<Sys>, acts': seq<Action>)
    requires IsRun(states, acts) && Can(states[|acts|], who, s')
    ensures Continues(states, acts, states', acts') && states'[|acts'|] == s'
  {
    hide Next, Init, Reaches;
    var more :| Reaches(states[|acts|], more, s') && Only(more, who);
    states', acts' := Extend(states, acts, more, s');
    assert acts'[..|acts|] == acts && acts'[|acts|..] == more;
  }

  /** (states', acts') is a run that goes on from (states, acts) without a crash. */
  ghost predicate Continues(states: seq<Sys>, acts: seq<Action>, states': seq<Sys>, acts': seq<Action>) {
    && IsRun(states', acts') && |acts| <= |acts'| && acts'[..|acts|] == acts
    && |states| <= |states'| && states'[..|states|] == states && CrashFree(acts'[|acts|..])
  }
}
