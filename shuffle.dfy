/** GenerateRandomIndices: a Fisher-Yates shuffle of a contiguous range of slots.
    The random draws are an input: step k of the shuffle swaps positions k and c[k]. */
module FisherYates {
  import opened Slots

  /** Length of the range lo..hi (inclusive); 0 when hi < lo. */
  function Count(lo: int, hi: int): nat {
    if hi < lo then 0 else hi - lo + 1
  }

  /** The list [lo, lo + 1, ..., hi] that the shuffle starts from. */
  function Range(lo: int, hi: int): seq<int> {
    seq(Count(lo, hi), k => lo + k)
  }

  function Swap(s: seq<int>, i: int, j: int): seq<int>
    requires 0 <= i < |s| && 0 <= j < |s|
  {
    s[i := s[j]][j := s[i]]
  }

  /** `c` holds a draw for every step k <= i, each as `Random.Range(0, k + 1)` yields it:
      0 <= c[k] <= k, since the upper bound of Random.Range(int, int) is excluded. */
  predicate ChoicesUpTo(c: seq<int>, i: int) {
    i < |c| && forall k :: 0 <= k <= i ==> 0 <= c[k] <= k
  }

  /** Draws for shuffling a list of `n` elements (entry 0 is never used). */
  predicate ValidChoices(c: seq<int>, n: nat) {
    |c| == n && ChoicesUpTo(c, n - 1)
  }

  /** The Fisher-Yates steps i, i - 1, ..., 1 applied to `s`. */
  function ShuffleDown(s: seq<int>, c: seq<int>, i: int): (r: seq<int>)
    requires i < |s| && ChoicesUpTo(c, i)
    ensures |r| == |s|
    decreases i
  {
    if i <= 0 then s else ShuffleDown(Swap(s, i, c[i]), c, i - 1)
  }

  /** The whole shuffle, from the last index down to 1. */
  function Shuffle(s: seq<int>, c: seq<int>): seq<int>
    requires ValidChoices(c, |s|)
  {
    ShuffleDown(s, c, |s| - 1)
  }

  /** A list without repeats: read as a placement of all its entries, it is injective. */
  predicate Distinct(s: seq<int>) {
    Injective(s, |s|)
  }

  /** `p` is a permutation of lo..hi. */
  predicate IsPermutationOfRange(p: seq<int>, lo: int, hi: int) {
    multiset(p) == multiset(Range(lo, hi))
  }

  lemma SwapPermutes(s: seq<int>, i: int, j: int)
    requires 0 <= i < |s| && 0 <= j < |s|
    ensures multiset(Swap(s, i, j)) == multiset(s)
  {
  }

  /** Each Fisher-Yates step is a swap, so the shuffle keeps the multiset of the list. */
  lemma {:induction false} ShuffleDownPermutes(s: seq<int>, c: seq<int>, i: int)
    requires i < |s| && ChoicesUpTo(c, i)
    ensures multiset(ShuffleDown(s, c, i)) == multiset(s)
    decreases i
  {
    if i > 0 {
      SwapPermutes(s, i, c[i]);
      ShuffleDownPermutes(Swap(s, i, c[i]), c, i - 1);
    }
  }

  /** The steps from i down only read the draws at indices 0..i. */
  lemma {:induction false} ShuffleDownFrame(s: seq<int>, c1: seq<int>, c2: seq<int>, i: int)
    requires i < |s| && ChoicesUpTo(c1, i) && ChoicesUpTo(c2, i)
    requires forall k :: 0 <= k <= i ==> c1[k] == c2[k]
    ensures ShuffleDown(s, c1, i) == ShuffleDown(s, c2, i)
    decreases i
  {
    if i > 0 {
      ShuffleDownFrame(Swap(s, i, c1[i]), c1, c2, i - 1);
    }
  }

  /** One backward step of the construction: swapping t[i] into position i of `s` leaves a
      prefix s'[..i] that is a rearrangement of t[..i] and a suffix s'[i..] equal to t[i..]. */
  lemma SwapTowards(s: seq<int>, t: seq<int>, i: int, j: int)
    requires 0 <= j <= i < |s| && |t| == |s|
    requires s[i + 1..] == t[i + 1..] && s[j] == t[i]
    requires multiset(s[..i + 1]) == multiset(t[..i + 1])
    ensures Swap(s, i, j)[i..] == t[i..]
    ensures multiset(Swap(s, i, j)[..i]) == multiset(t[..i])
  {
    var s' := Swap(s, i, j);
    assert s'[..i + 1] == Swap(s[..i + 1], i, j);
    SwapPermutes(s[..i + 1], i, j);
    assert s'[i] == t[i];
    assert s'[..i + 1] == s'[..i] + [t[i]];
    assert t[..i + 1] == t[..i] + [t[i]];
    assert multiset(s'[..i]) == multiset(s'[..i + 1]) - multiset{t[i]};
    assert multiset(t[..i]) == multiset(t[..i + 1]) - multiset{t[i]};
    assert s'[i..] == [t[i]] + t[i + 1..];
  }

  /** Every rearrangement of `s` that keeps s[i+1..] in place is reached by some draws for steps i..1
      (the draws for steps <= i are returned, one per step). */
  lemma {:induction false} ShuffleDownReaches(s: seq<int>, t: seq<int>, i: int) returns (c: seq<int>)
    requires -1 <= i < |s| && |t| == |s|
    requires s[i + 1..] == t[i + 1..]
    requires multiset(s[..i + 1]) == multiset(t[..i + 1])
    ensures |c| == i + 1 && ChoicesUpTo(c, i)
    ensures ShuffleDown(s, c, i) == t
    decreases i + 1
  {
    if i == -1 {
      assert s == s[0..] && t == t[0..];
      c := [];
    } else {
      var j := IndexIn(s[..i + 1], t[i]);
      SwapTowards(s, t, i, j);
      var s' := Swap(s, i, j);
      var c' := ShuffleDownReaches(s', t, i - 1);
      c := c' + [j];
      assert forall k :: 0 <= k < i ==> c[k] == c'[k];
      if i > 0 {
        ShuffleDownFrame(s', c, c', i - 1);
      } else {
        assert s == s' == s'[0..];
      }
    }
  }

  /** A position of `x` in `s`, given that `s` holds `x`. */
  lemma IndexIn(s: seq<int>, x: int) returns (j: int)
    requires x in multiset(s)
    ensures 0 <= j < |s| && s[j] == x
  {
    j :| 0 <= j < |s| && s[j] == x;
  }

  /** Fisher-Yates is onto: every permutation of `s` is the result of some valid draws. */
  lemma ShuffleIsOnto(s: seq<int>, t: seq<int>)
    requires multiset(s) == multiset(t)
    ensures exists c :: ValidChoices(c, |s|) && Shuffle(s, c) == t
  {
    assert |s| == |multiset(s)| == |multiset(t)| == |t|;
    assert s[..|s|] == s && t[..|t|] == t;
    var c := ShuffleDownReaches(s, t, |s| - 1);
    assert ValidChoices(c, |s|) && Shuffle(s, c) == t;
  }

  function Map(f: int -> int, s: seq<int>): (r: seq<int>)
    ensures |r| == |s|
  {
    seq(|s|, k requires 0 <= k < |s| => f(s[k]))
  }

  /** Relabelling the elements commutes with shuffling: the draws act on positions only. */
  lemma {:induction false} ShuffleDownMap(f: int -> int, s: seq<int>, c: seq<int>, i: int)
    requires i < |s| && ChoicesUpTo(c, i)
    ensures Map(f, ShuffleDown(s, c, i)) == ShuffleDown(Map(f, s), c, i)
    decreases i
  {
    if i > 0 {
      assert Map(f, Swap(s, i, c[i])) == Swap(Map(f, s), i, c[i]);
      ShuffleDownMap(f, Swap(s, i, c[i]), c, i - 1);
    }
  }

  lemma {:induction false} DistinctMultiplicity(s: seq<int>, x: int)
    requires Distinct(s)
    ensures multiset(s)[x] <= 1
    decreases |s|
  {
    if s != [] {
      assert s == [s[0]] + s[1..];
      assert Distinct(s[1..]);
      DistinctMultiplicity(s[1..], x);
      if s[0] == x {
        assert x !in s[1..];
      }
    }
  }

  /** A rearrangement of a list without repeats has no repeats. */
  lemma DistinctFromMultiset(p: seq<int>, q: seq<int>)
    requires multiset(p) == multiset(q) && Distinct(q)
    ensures Distinct(p)
  {
    forall i, j | 0 <= i < |p| && 0 <= j < |p| && i != j
      ensures p[i] != p[j]
    {
      if p[i] == p[j] {
        var a, b := if i < j then i else j, if i < j then j else i;
        assert p == p[..b] + p[b..];
        assert p[a] in multiset(p[..b]) && p[b] in multiset(p[b..]);
        assert multiset(p)[p[i]] >= 2;
        DistinctMultiplicity(q, p[i]);
        assert false;
      }
    }
  }

  lemma RangeFacts(lo: int, hi: int)
    ensures |Range(lo, hi)| == Count(lo, hi)
    ensures Distinct(Range(lo, hi))
    ensures forall v :: v in Range(lo, hi) <==> lo <= v <= hi
  {
    var r := Range(lo, hi);
    forall v | lo <= v <= hi
      ensures v in r
    {
      assert r[v - lo] == v;
    }
  }

  /** A permutation of lo..hi has Count(lo, hi) elements, all distinct, and holds exactly the values lo..hi. */
  lemma PermutationOfRangeFacts(p: seq<int>, lo: int, hi: int)
    requires IsPermutationOfRange(p, lo, hi)
    ensures |p| == Count(lo, hi)
    ensures Distinct(p)
    ensures forall v :: v in p <==> lo <= v <= hi
  {
    RangeFacts(lo, hi);
    assert |p| == |multiset(p)| == |multiset(Range(lo, hi))| == |Range(lo, hi)|;
    DistinctFromMultiset(p, Range(lo, hi));
    forall v
      ensures v in p <==> lo <= v <= hi
    {
      assert v in p <==> v in multiset(p);
      assert v in Range(lo, hi) <==> v in multiset(Range(lo, hi));
    }
  }

  /** GenerateRandomIndices(startIndex, endIndex): fill a list with startIndex..endIndex, then
      Fisher-Yates shuffle it in place (step i swaps indices[i] and indices[j] with j = choices[i]),
      and return it as an array. */
  method GenerateRandomIndices(startIndex: int, endIndex: int, choices: seq<int>) returns (result: array<int>)
    requires ValidChoices(choices, Count(startIndex, endIndex))
    ensures fresh(result)
    ensures result.Length == Count(startIndex, endIndex)
    ensures result[..] == Shuffle(Range(startIndex, endIndex), choices)
    ensures IsPermutationOfRange(result[..], startIndex, endIndex)
  {
    var indices: seq<int> := [];
    var i := startIndex;
    while i <= endIndex
      invariant startIndex <= i && (i <= endIndex + 1 || i == startIndex)
      invariant indices == Range(startIndex, i - 1)
    {
      indices := indices + [i];
      i := i + 1;
    }
    assert indices == Range(startIndex, endIndex);

    i := |indices| - 1;
    while i > 0
      invariant -1 <= i < |indices| == Count(startIndex, endIndex)
      invariant ShuffleDown(indices, choices, i) == Shuffle(Range(startIndex, endIndex), choices)
    {
      var j := choices[i];
      var temp := indices[i];
      indices := indices[i := indices[j]];
      indices := indices[j := temp];
      i := i - 1;
    }

    result := new int[|indices|](k requires 0 <= k < |indices| => indices[k]);
    assert result[..] == indices;
    ShuffleDownPermutes(Range(startIndex, endIndex), choices, Count(startIndex, endIndex) - 1);
  }
}
