// Majority and joint quorums: vote tallies, the committed index, and the
// overlap facts every safety argument rests on (raft/quorum).
module Quorum {

  type NodeId = nat

  /** Two majority configurations; decisions need both (an empty half never objects). */
  datatype JointConfig = JointConfig(incoming: set<NodeId>, outgoing: set<NodeId>) {
    function IDs(): set<NodeId> { incoming + outgoing }
  }

  datatype VoteResult = VotePending | VoteLost | VoteWon

  /** A commit bound: an empty majority config imposes none (math.MaxUint64 in the source). */
  datatype Bound = Unbounded | At(index: nat)

  // ---------------------------------------------------------------------------
  // Quorums as sets
  // ---------------------------------------------------------------------------

  predicate MajQuorum(c: set<NodeId>, s: set<NodeId>) {
    c == {} || |c * s| >= |c| / 2 + 1
  }

  predicate IsQuorum(cfg: JointConfig, s: set<NodeId>) {
    MajQuorum(cfg.incoming, s) && MajQuorum(cfg.outgoing, s)
  }

  lemma SubsetSize<T>(a: set<T>, b: set<T>)
    requires a <= b
    ensures |a| <= |b|
  {
    assert b == a + (b - a);
  }

  lemma MajQuorumMono(c: set<NodeId>, s: set<NodeId>, t: set<NodeId>)
    requires MajQuorum(c, s)
    requires c * s <= t
    ensures MajQuorum(c, t)
  {
    SubsetSize(c * s, c * t);
  }

  lemma IsQuorumMono(cfg: JointConfig, s: set<NodeId>, t: set<NodeId>)
    requires IsQuorum(cfg, s)
    requires s * cfg.IDs() <= t
    ensures IsQuorum(cfg, t)
  {
    MajQuorumMono(cfg.incoming, s, t);
    MajQuorumMono(cfg.outgoing, s, t);
  }

  /** Two majorities whose configs differ by at most one member share a member. */
  lemma NearbyMajoritiesMeet(c: set<NodeId>, d: set<NodeId>, s: set<NodeId>, t: set<NodeId>) returns (x: NodeId)
    requires c != {} && d != {}
    requires |c - d| + |d - c| <= 1
    requires MajQuorum(c, s) && MajQuorum(d, t)
    ensures x in c && x in d && x in s && x in t
  {
    var cs, dt := c * s, d * t;
    var u := c + d;
    assert c == (c * d) + (c - d) && d == (c * d) + (d - c) && u == (c * d) + (c - d) + (d - c);
    assert |cs + dt| + |cs * dt| == |cs| + |dt|;
    SubsetSize(cs + dt, u);
    assert |cs * dt| >= 1;
    x :| x in cs * dt;
  }

  /** Any two quorums of one non-empty configuration share a voter. */
  lemma QuorumsMeet(cfg: JointConfig, s: set<NodeId>, t: set<NodeId>) returns (x: NodeId)
    requires cfg.incoming != {}
    requires IsQuorum(cfg, s) && IsQuorum(cfg, t)
    ensures x in cfg.IDs() && x in s && x in t
  {
    x := NearbyMajoritiesMeet(cfg.incoming, cfg.incoming, s, t);
  }

  // ---------------------------------------------------------------------------
  // Votes
  // ---------------------------------------------------------------------------

  function Yes(c: set<NodeId>, votes: map<NodeId, bool>): set<NodeId> {
    set id | id in c && id in votes && votes[id]
  }

  function Missing(c: set<NodeId>, votes: map<NodeId, bool>): set<NodeId> {
    set id | id in c && id !in votes
  }

  function MajVote(c: set<NodeId>, votes: map<NodeId, bool>): VoteResult {
    var q := |c| / 2 + 1;
    if c == {} || |Yes(c, votes)| >= q then VoteWon
    else if |Yes(c, votes)| + |Missing(c, votes)| >= q then VotePending
    else VoteLost
  }

  function JointVote(cfg: JointConfig, votes: map<NodeId, bool>): VoteResult {
    var r1, r2 := MajVote(cfg.incoming, votes), MajVote(cfg.outgoing, votes);
    if r1 == r2 then r1
    else if r1 == VoteLost || r2 == VoteLost then VoteLost
    else VotePending
  }

  /** `yes` is the set of yes-voters of a full ballot that extends the partial `votes`. */
  ghost predicate Completes(votes: map<NodeId, bool>, yes: set<NodeId>) {
    forall id | id in votes :: votes[id] <==> id in yes
  }

  lemma MajVoteBounds(c: set<NodeId>, votes: map<NodeId, bool>, yes: set<NodeId>)
    requires Completes(votes, yes)
    ensures MajVote(c, votes) == VoteWon ==> MajQuorum(c, yes)
    ensures MajVote(c, votes) == VoteLost ==> !MajQuorum(c, yes)
    ensures yes == Yes(c, votes) ==> (MajQuorum(c, yes) ==> MajVote(c, votes) == VoteWon)
  {
    SubsetSize(Yes(c, votes), c * yes);
    assert c * yes <= Yes(c, votes) + Missing(c, votes);
    SubsetSize(c * yes, Yes(c, votes) + Missing(c, votes));
    if yes == Yes(c, votes) { assert c * yes == yes; }
  }

  /** The optimistic completion: every voter still missing says yes. */
  lemma MajVoteOptimist(c: set<NodeId>, votes: map<NodeId, bool>, yes: set<NodeId>)
    requires Completes(votes, yes)
    requires Missing(c, votes) <= yes
    ensures MajQuorum(c, yes) <==> MajVote(c, votes) != VoteLost
  {
    assert c * yes == Yes(c, votes) + Missing(c, votes);
    assert |Yes(c, votes) + Missing(c, votes)| == |Yes(c, votes)| + |Missing(c, votes)|;
  }

  /** The pessimistic completion: every voter still missing says no. */
  lemma MajVotePessimist(c: set<NodeId>, votes: map<NodeId, bool>, yes: set<NodeId>)
    requires Completes(votes, yes)
    requires c * yes == Yes(c, votes)
    ensures MajQuorum(c, yes) <==> MajVote(c, votes) == VoteWon
  {
  }

  lemma JointVoteBounds(cfg: JointConfig, votes: map<NodeId, bool>, yes: set<NodeId>)
    requires Completes(votes, yes)
    ensures JointVote(cfg, votes) == VoteWon ==> IsQuorum(cfg, yes)
    ensures JointVote(cfg, votes) == VoteLost ==> !IsQuorum(cfg, yes)
  {
    MajVoteBounds(cfg.incoming, votes, yes);
    MajVoteBounds(cfg.outgoing, votes, yes);
  }

  lemma WorstCase(cfg: JointConfig, votes: map<NodeId, bool>) returns (yes: set<NodeId>)
    ensures Completes(votes, yes)
    ensures IsQuorum(cfg, yes) ==> JointVote(cfg, votes) == VoteWon
  {
    yes := set id | id in votes && votes[id];
    assert cfg.incoming * yes == Yes(cfg.incoming, votes);
    assert cfg.outgoing * yes == Yes(cfg.outgoing, votes);
    MajVotePessimist(cfg.incoming, votes, yes);
    MajVotePessimist(cfg.outgoing, votes, yes);
  }

  lemma BestCase(cfg: JointConfig, votes: map<NodeId, bool>) returns (yes: set<NodeId>)
    ensures Completes(votes, yes)
    ensures !IsQuorum(cfg, yes) ==> JointVote(cfg, votes) == VoteLost
  {
    yes := (set id | id in votes && votes[id]) + Missing(cfg.incoming, votes) + Missing(cfg.outgoing, votes);
    MajVoteOptimist(cfg.incoming, votes, yes);
    MajVoteOptimist(cfg.outgoing, votes, yes);
  }

  /** Three-valued semantics: won iff every completion wins, lost iff none does. */
  lemma VoteResultExact(cfg: JointConfig, votes: map<NodeId, bool>)
    ensures JointVote(cfg, votes) == VoteWon <==>
            (forall yes | Completes(votes, yes) :: IsQuorum(cfg, yes))
    ensures JointVote(cfg, votes) == VoteLost <==>
            (forall yes | Completes(votes, yes) :: !IsQuorum(cfg, yes))
  {
    forall yes | Completes(votes, yes)
      ensures JointVote(cfg, votes) == VoteWon ==> IsQuorum(cfg, yes)
      ensures JointVote(cfg, votes) == VoteLost ==> !IsQuorum(cfg, yes)
    {
      JointVoteBounds(cfg, votes, yes);
    }
    var worst := WorstCase(cfg, votes);
    var best := BestCase(cfg, votes);
  }

  /** What an election win gives: a quorum of recorded yes votes. */
  lemma WonHasQuorum(cfg: JointConfig, votes: map<NodeId, bool>)
    requires JointVote(cfg, votes) == VoteWon
    ensures IsQuorum(cfg, Yes(cfg.IDs(), votes))
  {
    var yes := set id | id in votes && votes[id];
    assert Completes(votes, yes);
    VoteResultExact(cfg, votes);
    IsQuorumMono(cfg, yes, Yes(cfg.IDs(), votes));
  }

  /** RecordVote: the first vote of a node stands. */
  function RecordVote(votes: map<NodeId, bool>, id: NodeId, v: bool): map<NodeId, bool> {
    if id in votes then votes else votes[id := v]
  }

  function RecordVotes(votes: map<NodeId, bool>, ballots: seq<(NodeId, bool)>): map<NodeId, bool>
    decreases |ballots|
  {
    if ballots == [] then votes
    else RecordVotes(RecordVote(votes, ballots[0].0, ballots[0].1), ballots[1..])
  }

  lemma {:induction false} RecordVotesKeeps(votes: map<NodeId, bool>, ballots: seq<(NodeId, bool)>)
    ensures forall id | id in votes ::
              id in RecordVotes(votes, ballots) && RecordVotes(votes, ballots)[id] == votes[id]
    decreases |ballots|
  {
    if ballots != [] {
      RecordVotesKeeps(RecordVote(votes, ballots[0].0, ballots[0].1), ballots[1..]);
    }
  }

  /** A decided election stays decided, whatever further votes are recorded. */
  lemma DecidedStaysDecided(cfg: JointConfig, votes: map<NodeId, bool>, ballots: seq<(NodeId, bool)>)
    ensures JointVote(cfg, votes) != VotePending ==>
              JointVote(cfg, RecordVotes(votes, ballots)) == JointVote(cfg, votes)
  {
    var later := RecordVotes(votes, ballots);
    RecordVotesKeeps(votes, ballots);
    VoteResultExact(cfg, votes);
    VoteResultExact(cfg, later);
    forall yes | Completes(later, yes) ensures Completes(votes, yes) {}
  }

  lemma TallyYes(done: set<NodeId>, votes: map<NodeId, bool>, id: NodeId)
    requires id !in done
    ensures |Yes(done + {id}, votes)| == |Yes(done, votes)| + (if id in votes && votes[id] then 1 else 0)
  {
    if id in votes && votes[id] {
      assert Yes(done + {id}, votes) == Yes(done, votes) + {id};
    } else {
      assert Yes(done + {id}, votes) == Yes(done, votes);
    }
  }

  lemma TallyMissing(done: set<NodeId>, votes: map<NodeId, bool>, id: NodeId)
    requires id !in done
    ensures |Missing(done + {id}, votes)| == |Missing(done, votes)| + (if id in votes then 0 else 1)
  {
    if id in votes {
      assert Missing(done + {id}, votes) == Missing(done, votes);
    } else {
      assert Missing(done + {id}, votes) == Missing(done, votes) + {id};
    }
  }

  method MajorityVoteResult(c: set<NodeId>, votes: map<NodeId, bool>) returns (r: VoteResult)
    ensures r == MajVote(c, votes)
  {
    if |c| == 0 { return VoteWon; }
    var no, yes, missing := 0, 0, 0;
    var todo := c;
    ghost var done: set<NodeId> := {};
    while todo != {}
      invariant todo !! done && todo + done == c
      invariant yes == |Yes(done, votes)| && missing == |Missing(done, votes)|
      decreases |todo|
    {
      var id :| id in todo;
      TallyYes(done, votes, id);
      TallyMissing(done, votes, id);
      todo, done := todo - {id}, done + {id};
      if id !in votes {
        missing := missing + 1;
      } else if votes[id] {
        yes := yes + 1;
      } else {
        no := no + 1;
      }
    }
    assert done == c;
    var q := |c| / 2 + 1;
    if yes >= q { return VoteWon; }
    if yes + missing >= q { return VotePending; }
    return VoteLost;
  }

  method JointVoteResult(cfg: JointConfig, votes: map<NodeId, bool>) returns (r: VoteResult)
    ensures r == VoteWon <==> forall yes | Completes(votes, yes) :: IsQuorum(cfg, yes)
    ensures r == VoteLost <==> forall yes | Completes(votes, yes) :: !IsQuorum(cfg, yes)
    ensures r == JointVote(cfg, votes)
  {
    var r1 := MajorityVoteResult(cfg.incoming, votes);
    var r2 := MajorityVoteResult(cfg.outgoing, votes);
    VoteResultExact(cfg, votes);
    if r1 == r2 { return r1; }
    if r1 == VoteLost || r2 == VoteLost { return VoteLost; }
    return VotePending;
  }

  // ---------------------------------------------------------------------------
  // Committed index
  // ---------------------------------------------------------------------------

  function AckOf(acked: map<NodeId, nat>, id: NodeId): nat {
    if id in acked then acked[id] else 0
  }

  function Ackers(c: set<NodeId>, acked: map<NodeId, nat>, i: nat): set<NodeId> {
    set id | id in c && i <= AckOf(acked, id)
  }

  /** `i` is the largest index that a majority of `c` has acknowledged. */
  ghost predicate IsMajCommitted(c: set<NodeId>, acked: map<NodeId, nat>, i: nat) {
    && |Ackers(c, acked, i)| >= |c| / 2 + 1
    && forall j | i < j :: |Ackers(c, acked, j)| < |c| / 2 + 1
  }

  /** The optimum in a joint config: acknowledged by a majority of every non-empty half. */
  ghost predicate IsJointCommitted(cfg: JointConfig, acked: map<NodeId, nat>, b: Bound) {
    match b
    case Unbounded => cfg.incoming == {} && cfg.outgoing == {}
    case At(i) =>
      && cfg.IDs() != {}
      && IsQuorum(cfg, Ackers(cfg.IDs(), acked, i))
      && forall j | i < j :: !IsQuorum(cfg, Ackers(cfg.IDs(), acked, j))
  }

  lemma AckersAnti(c: set<NodeId>, acked: map<NodeId, nat>, i: nat, j: nat)
    requires i <= j
    ensures Ackers(c, acked, j) <= Ackers(c, acked, i)
    ensures |Ackers(c, acked, j)| <= |Ackers(c, acked, i)|
  {
    SubsetSize(Ackers(c, acked, j), Ackers(c, acked, i));
  }

  lemma JointAckers(cfg: JointConfig, acked: map<NodeId, nat>, i: nat)
    ensures IsQuorum(cfg, Ackers(cfg.IDs(), acked, i)) <==>
            && (cfg.incoming != {} ==> |Ackers(cfg.incoming, acked, i)| >= |cfg.incoming| / 2 + 1)
            && (cfg.outgoing != {} ==> |Ackers(cfg.outgoing, acked, i)| >= |cfg.outgoing| / 2 + 1)
  {
    assert cfg.incoming * Ackers(cfg.IDs(), acked, i) == Ackers(cfg.incoming, acked, i);
    assert cfg.outgoing * Ackers(cfg.IDs(), acked, i) == Ackers(cfg.outgoing, acked, i);
  }

  /** The joint optimum is the smaller of the two halves' optima. */
  lemma JointFromHalves(cfg: JointConfig, acked: map<NodeId, nat>, b0: Bound, b1: Bound)
    requires b0 == Unbounded <==> cfg.incoming == {}
    requires b1 == Unbounded <==> cfg.outgoing == {}
    requires b0.At? ==> IsMajCommitted(cfg.incoming, acked, b0.index)
    requires b1.At? ==> IsMajCommitted(cfg.outgoing, acked, b1.index)
    ensures IsJointCommitted(cfg, acked, MinBound(b0, b1))
  {
    var b := MinBound(b0, b1);
    if b.At? {
      if b0.At? { AckersAnti(cfg.incoming, acked, b.index, b0.index); }
      if b1.At? { AckersAnti(cfg.outgoing, acked, b.index, b1.index); }
      JointAckers(cfg, acked, b.index);
      forall j | b.index < j ensures !IsQuorum(cfg, Ackers(cfg.IDs(), acked, j)) {
        JointAckers(cfg, acked, j);
      }
    }
  }

  function MinBound(a: Bound, b: Bound): Bound {
    if a == Unbounded then b
    else if b == Unbounded || a.index < b.index then a
    else b
  }

  ghost predicate Sorted(s: seq<nat>) {
    forall i, j | 0 <= i < j < |s| :: s[i] <= s[j]
  }

  method InsertionSort(a: array<nat>)
    modifies a
    ensures Sorted(a[..])
    ensures multiset(a[..]) == old(multiset(a[..]))
  {
    var i := 1;
    while i < a.Length
      invariant 1 <= i
      invariant i <= a.Length || a.Length == 0
      invariant forall x, y | 0 <= x < y < i && y < a.Length :: a[x] <= a[y]
      invariant multiset(a[..]) == old(multiset(a[..]))
    {
      var j := i;
      while j > 0 && a[j] < a[j - 1]
        invariant 0 <= j <= i < a.Length
        invariant forall x, y | 0 <= x < y <= i && y != j :: a[x] <= a[y]
        invariant multiset(a[..]) == old(multiset(a[..]))
      {
        a[j], a[j - 1] := a[j - 1], a[j];
        j := j - 1;
      }
      i := i + 1;
    }
  }

  function CountGe(s: seq<nat>, v: nat): nat {
    if s == [] then 0 else (if s[0] >= v then 1 else 0) + CountGe(s[1..], v)
  }

  lemma {:induction false} CountGeSplit(s: seq<nat>, t: seq<nat>, v: nat)
    ensures CountGe(s + t, v) == CountGe(s, v) + CountGe(t, v)
  {
    if s == [] {
      assert s + t == t;
    } else {
      assert (s + t)[1..] == s[1..] + t;
      CountGeSplit(s[1..], t, v);
    }
  }

  lemma CountGeRemove(t: seq<nat>, k: nat, v: nat)
    requires k < |t|
    ensures multiset(t[..k] + t[k+1..]) == multiset(t) - multiset{t[k]}
    ensures CountGe(t, v) == CountGe(t[..k] + t[k+1..], v) + (if t[k] >= v then 1 else 0)
  {
    assert t == t[..k] + ([t[k]] + t[k+1..]);
    assert ([t[k]] + t[k+1..])[1..] == t[k+1..];
    CountGeSplit(t[..k], [t[k]] + t[k+1..], v);
    CountGeSplit(t[..k], t[k+1..], v);
  }

  lemma {:induction false} CountGePermutation(s: seq<nat>, t: seq<nat>, v: nat)
    requires multiset(s) == multiset(t)
    ensures CountGe(s, v) == CountGe(t, v)
    decreases |s|
  {
    assert |s| == |multiset(s)| == |multiset(t)| == |t|;
    if s != [] {
      assert s[0] in multiset(t);
      var k :| 0 <= k < |t| && t[k] == s[0];
      CountGeRemove(s, 0, v);
      CountGeRemove(t, k, v);
      CountGePermutation(s[..0] + s[1..], t[..k] + t[k+1..], v);
    }
  }

  lemma {:induction false} CountGeAll(s: seq<nat>, v: nat, ge: bool)
    requires forall x | x in s :: (x >= v) == ge
    ensures CountGe(s, v) == if ge then |s| else 0
  {
    if s != [] {
      assert s[0] in s;
      forall x | x in s[1..] ensures (x >= v) == ge { assert x in s; }
      CountGeAll(s[1..], v, ge);
    }
  }

  /** In a sorted sequence, position n-q holds the largest value that q elements reach. */
  lemma SortedQuantile(s: seq<nat>, pos: nat)
    requires Sorted(s) && pos < |s|
    ensures CountGe(s, s[pos]) >= |s| - pos
    ensures forall v | s[pos] < v :: CountGe(s, v) < |s| - pos
  {
    hide CountGe;
    assert s == s[..pos] + s[pos..];
    CountGeSplit(s[..pos], s[pos..], s[pos]);
    forall x | x in s[pos..] ensures x >= s[pos] {
      var k :| 0 <= k < |s[pos..]| && s[pos..][k] == x;
      assert x == s[pos + k];
    }
    CountGeAll(s[pos..], s[pos], true);
    forall v | s[pos] < v ensures CountGe(s, v) < |s| - pos {
      assert s == s[..pos+1] + s[pos+1..];
      CountGeSplit(s[..pos+1], s[pos+1..], v);
      CountGeAll(s[..pos+1], v, false);
      CountGeAtMost(s[pos+1..], v);
    }
  }

  lemma {:induction false} CountGeAtMost(s: seq<nat>, v: nat)
    ensures CountGe(s, v) <= |s|
  {
    if s != [] { CountGeAtMost(s[1..], v); }
  }

  /** `s` lists, in some order, the index each member of `done` has acknowledged. */
  ghost predicate Reports(s: seq<nat>, done: set<NodeId>, acked: map<NodeId, nat>) {
    forall v: nat :: CountGe(s, v) == |ReportsGe(done, acked, v)|
  }

  function ReportsGe(done: set<NodeId>, acked: map<NodeId, nat>, v: nat): set<NodeId> {
    set id | id in done && id in acked && acked[id] >= v
  }

  lemma NoReports(acked: map<NodeId, nat>)
    ensures Reports([], {}, acked)
  {
    assert forall v: nat :: ReportsGe({}, acked, v) == {};
  }

  lemma ReportOne(s: seq<nat>, done: set<NodeId>, acked: map<NodeId, nat>, id: NodeId)
    requires Reports(s, done, acked) && id !in done
    ensures id in acked ==> Reports([acked[id]] + s, done + {id}, acked)
    ensures id !in acked ==> Reports(s, done + {id}, acked)
  {
    forall v: nat
      ensures id in acked ==> CountGe([acked[id]] + s, v) == |ReportsGe(done + {id}, acked, v)|
      ensures id !in acked ==> CountGe(s, v) == |ReportsGe(done + {id}, acked, v)|
    {
      if id in acked {
        assert ([acked[id]] + s)[1..] == s;
        if acked[id] >= v {
          assert ReportsGe(done + {id}, acked, v) == ReportsGe(done, acked, v) + {id};
        } else {
          assert ReportsGe(done + {id}, acked, v) == ReportsGe(done, acked, v);
        }
      } else {
        assert ReportsGe(done + {id}, acked, v) == ReportsGe(done, acked, v);
      }
    }
  }

  /** Zero-filled slots stand for the voters that have not reported. */
  lemma ReportsAreAckers(s: seq<nat>, zeros: nat, c: set<NodeId>, acked: map<NodeId, nat>, v: nat)
    requires zeros <= |s| == |c|
    requires forall k | 0 <= k < zeros :: s[k] == 0
    requires Reports(s[zeros..], c, acked)
    ensures CountGe(s, v) == |Ackers(c, acked, v)|
  {
    if v == 0 {
      CountGeAll(s, 0, true);
      assert Ackers(c, acked, 0) == c;
    } else {
      assert s == s[..zeros] + s[zeros..];
      CountGeSplit(s[..zeros], s[zeros..], v);
      CountGeAll(s[..zeros], v, false);
      assert ReportsGe(c, acked, v) == Ackers(c, acked, v);
    }
  }

  method FillReports(c: set<NodeId>, acked: map<NodeId, nat>) returns (srt: array<nat>)
    ensures fresh(srt) && srt.Length == |c|
    ensures forall v: nat :: CountGe(srt[..], v) == |Ackers(c, acked, v)|
  {
    hide Reports, CountGe, Ackers;
    var n := |c|;
    srt := new nat[n](_ => 0);
    var i := n;
    var todo := c;
    ghost var done: set<NodeId> := {};
    assert srt[n..] == [];
    NoReports(acked);
    while todo != {}
      invariant todo !! done && todo + done == c
      invariant |todo| <= i <= n
      invariant forall k | 0 <= k < i :: srt[k] == 0
      invariant Reports(srt[i..], done, acked)
      decreases todo
    {
      var id :| id in todo;
      ReportOne(srt[i..], done, acked, id);
      if id in acked {
        ghost var tail := srt[i..];
        i := i - 1;
        srt[i] := acked[id];
        assert srt[i..] == [acked[id]] + tail;
      }
      todo, done := todo - {id}, done + {id};
    }
    assert done == c;
    forall v: nat ensures CountGe(srt[..], v) == |Ackers(c, acked, v)| {
      ReportsAreAckers(srt[..], i, c, acked, v);
    }
  }

  method MajorityCommittedIndex(c: set<NodeId>, acked: map<NodeId, nat>) returns (b: Bound)
    ensures b == Unbounded <==> c == {}
    ensures b.At? ==> IsMajCommitted(c, acked, b.index)
  {
    var n := |c|;
    if n == 0 { return Unbounded; }
    var srt := FillReports(c, acked);
    ghost var filled := srt[..];
    InsertionSort(srt);
    var pos := n - (n / 2 + 1);
    SortedQuantile(srt[..], pos);
    forall v: nat ensures CountGe(srt[..], v) == |Ackers(c, acked, v)| {
      CountGePermutation(srt[..], filled, v);
    }
    return At(srt[pos]);
  }

  method JointCommittedIndex(cfg: JointConfig, acked: map<NodeId, nat>) returns (b: Bound)
    ensures IsJointCommitted(cfg, acked, b)
  {
    var b0 := MajorityCommittedIndex(cfg.incoming, acked);
    var b1 := MajorityCommittedIndex(cfg.outgoing, acked);
    JointFromHalves(cfg, acked, b0, b1);
    if b0 == Unbounded { return b1; }
    if b1 == Unbounded || b0.index < b1.index { return b0; }
    return b1;
  }
}
