// limitSize of raft/util.go: as many leading entries as fit, but at least one.
module SizeLimit {
  import opened PlainLog

  datatype Limit = NoLimit | AtMost(bytes: nat)

  function Total(ents: seq<Entry>): nat {
    if ents == [] then 0 else Total(ents[..|ents|-1]) + ents[|ents|-1].size
  }

  /** Grow a prefix of length k while the next entry still fits. */
  function Extend(ents: seq<Entry>, bytes: nat, k: nat): (r: nat)
    requires k <= |ents|
    ensures k <= r <= |ents|
    ensures r > k ==> Total(ents[..r]) <= bytes
    ensures r < |ents| ==> Total(ents[..r+1]) > bytes
    decreases |ents| - k
  {
    if k < |ents| && Total(ents[..k+1]) <= bytes then Extend(ents, bytes, k + 1) else k
  }

  function Limited(ents: seq<Entry>, limit: Limit): (r: seq<Entry>)
    ensures |r| <= |ents| && r == ents[..|r|] && (ents != [] ==> r != [])
  {
    if ents == [] || limit.NoLimit? then ents else ents[..Extend(ents, limit.bytes, 1)]
  }

  method LimitSize(ents: seq<Entry>, limit: Limit) returns (r: seq<Entry>)
    ensures r == Limited(ents, limit)
  {
    if |ents| == 0 || limit == NoLimit { return ents; }
    var size := ents[0].size;
    var k := 1;
    assert ents[..1] == [ents[0]] && Total([ents[0]]) == Total([]) + ents[0].size by {
      assert [ents[0]][..0] == [];
    }
    while k < |ents|
      invariant 1 <= k <= |ents| && size == Total(ents[..k])
      invariant Extend(ents, limit.bytes, 1) == Extend(ents, limit.bytes, k)
    {
      assert ents[..k+1][..k] == ents[..k];
      size := size + ents[k].size;
      if size > limit.bytes { break; }
      k := k + 1;
    }
    r := ents[..k];
  }

  lemma {:induction false} TotalGrows(ents: seq<Entry>, i: nat, j: nat)
    requires i <= j <= |ents|
    ensures Total(ents[..i]) <= Total(ents[..j])
    decreases j
  {
    if i < j {
      assert ents[..j][..j-1] == ents[..j-1];
      TotalGrows(ents, i, j - 1);
    }
  }

  /** No longer prefix fits. */
  lemma LimitedIsLongest(ents: seq<Entry>, bytes: nat, k: nat)
    requires 1 <= k <= |ents| && (k == 1 || Total(ents[..k]) <= bytes)
    ensures k <= |Limited(ents, AtMost(bytes))|
    ensures |Limited(ents, AtMost(bytes))| > 1 ==> Total(Limited(ents, AtMost(bytes))) <= bytes
  {
    var r := Extend(ents, bytes, 1);
    if r < k { TotalGrows(ents, r + 1, k); }
  }

  /** Limiting a part first is harmless: the cut falls in the same place. */
  lemma LimitedSplit(a: seq<Entry>, b: seq<Entry>, limit: Limit)
    ensures |Limited(a, limit)| < |a| ==> Limited(a + b, limit) == Limited(a, limit)
    ensures |Limited(a, limit)| == |a| ==> Limited(a, limit) + b == a + b
  {
    if a != [] && limit.AtMost? && |Limited(a, limit)| < |a| {
      ExtendSplit(a, b, limit.bytes, 1);
    }
  }

  lemma {:induction false} ExtendSplit(a: seq<Entry>, b: seq<Entry>, bytes: nat, k: nat)
    requires k <= |a| && Extend(a, bytes, k) < |a|
    ensures Extend(a + b, bytes, k) == Extend(a, bytes, k)
    decreases |a| - k
  {
    assert (a + b)[..k+1] == a[..k+1];
    if Total(a[..k+1]) <= bytes { ExtendSplit(a, b, bytes, k + 1); }
  }
}
