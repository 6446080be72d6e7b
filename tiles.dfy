/** Tile sets of Shut the Box: the open tiles, kept as a strictly increasing
    sequence of distinct values in 1..9 (the `tuple(S)` the game uses as a key). */
module Tiles {

  datatype Option<+T> = None | Some(value: T)

  /** Python's `sum` over a tile tuple. */
  function Sum(s: seq<int>): int
  {
    if s == [] then 0 else s[0] + Sum(s[1..])
  }

  lemma {:induction false} SumAppend(a: seq<int>, b: seq<int>)
    ensures Sum(a + b) == Sum(a) + Sum(b)
  {
    if a == [] {
      assert a + b == b;
    } else {
      assert (a + b)[1..] == a[1..] + b;
      SumAppend(a[1..], b);
    }
  }

  /** The nine tiles the game starts with, `(1, 2, ..., 9)`. */
  const Universe: seq<int> := seq(9, i => i + 1)

  /** The universe written out; kept apart so that proofs about the universe
      do not evaluate the search over all nine tiles literally. */
  lemma UniverseFacts()
    ensures Universe == [1, 2, 3, 4, 5, 6, 7, 8, 9]
    ensures |Universe| == 9 && IsTileSet(Universe) && Sum(Universe) == 45
  {
    var nine := [1, 2, 3, 4, 5, 6, 7, 8, 9];
    assert Universe == nine;
    assert Sum(nine[8..]) == 9;
    assert Sum(nine[6..]) == 24;
    assert Sum(nine[4..]) == 35;
    assert Sum(nine[2..]) == 42;
  }

  predicate IsIncreasing(s: seq<int>)
  {
    forall i, j :: 0 <= i < j < |s| ==> s[i] < s[j]
  }

  predicate IsTileSet(s: seq<int>)
  {
    IsIncreasing(s) && forall i :: 0 <= i < |s| ==> 1 <= s[i] <= 9
  }

  /** `c` is obtained from `s` by deleting elements, keeping their order. */
  predicate IsSubsequence(c: seq<int>, s: seq<int>)
  {
    if c == [] then true
    else if s == [] then false
    else (c[0] == s[0] && IsSubsequence(c[1..], s[1..])) || IsSubsequence(c, s[1..])
  }

  /** Sum of the tile values x, x+1, ..., 9. */
  function TailSum(x: int): int
    decreases 10 - x
  {
    if x > 9 then 0 else x + TailSum(x + 1)
  }

  lemma {:induction false} TailSumAntitone(x: int, y: int)
    requires 0 <= x <= y
    ensures 0 <= TailSum(y) <= TailSum(x)
    decreases 10 - x
  {
    if x <= 9 && x < y {
      TailSumAntitone(x + 1, y);
    } else if x <= 9 {
      TailSumAntitone(x + 1, x + 1);
    }
  }

  lemma {:induction false} IncreasingTail(s: seq<int>)
    requires IsIncreasing(s) && s != []
    ensures IsIncreasing(s[1..])
    ensures forall k :: 0 <= k < |s[1..]| ==> s[0] < s[1..][k]
  {
  }

  lemma {:induction false} SumBelowTailSum(s: seq<int>, b: int)
    requires IsTileSet(s) && 1 <= b
    requires forall k :: 0 <= k < |s| ==> b <= s[k]
    ensures 0 <= Sum(s) <= TailSum(b)
    ensures s != [] ==> 1 <= Sum(s)
    decreases |s|
  {
    if s == [] {
      TailSumAntitone(b, b);
    } else {
      IncreasingTail(s);
      SumBelowTailSum(s[1..], s[0] + 1);
      TailSumAntitone(b, s[0]);
    }
  }

  /** Every tile set sums to at most 45, the total of all nine tiles, and a
      non-empty one to at least 1: this is why the 45 cap of the subset search
      never cuts a branch, and why a threshold handed to the opponent is positive. */
  lemma TileSetSum(s: seq<int>)
    requires IsTileSet(s)
    ensures 0 <= Sum(s) <= 45
    ensures s != [] ==> 1 <= Sum(s)
  {
    SumBelowTailSum(s, 1);
  }

  lemma {:induction false} SubsequenceMembers(c: seq<int>, s: seq<int>)
    requires IsSubsequence(c, s)
    ensures |c| <= |s|
    ensures forall y :: y in c ==> y in s
  {
    if c != [] {
      if c[0] == s[0] && IsSubsequence(c[1..], s[1..]) {
        SubsequenceMembers(c[1..], s[1..]);
        assert c == [c[0]] + c[1..];
        assert s == [s[0]] + s[1..];
      } else {
        SubsequenceMembers(c, s[1..]);
        assert s == [s[0]] + s[1..];
      }
    }
  }

  lemma {:induction false} SubsequenceIncreasing(c: seq<int>, s: seq<int>)
    requires IsSubsequence(c, s) && IsIncreasing(s)
    ensures IsIncreasing(c)
  {
    if c != [] {
      IncreasingTail(s);
      if c[0] == s[0] && IsSubsequence(c[1..], s[1..]) {
        SubsequenceIncreasing(c[1..], s[1..]);
        SubsequenceMembers(c[1..], s[1..]);
        forall i, j | 0 <= i < j < |c| ensures c[i] < c[j] {
          assert c[j] == c[1..][j - 1];
          assert c[j] in s[1..];
          if i > 0 {
            assert c[i] == c[1..][i - 1];
          }
        }
      } else {
        SubsequenceIncreasing(c, s[1..]);
      }
    }
  }

  /** A subsequence of a tile set is a tile set. */
  lemma SubsequenceOfTileSet(c: seq<int>, s: seq<int>)
    requires IsSubsequence(c, s) && IsTileSet(s)
    ensures IsTileSet(c)
  {
    SubsequenceIncreasing(c, s);
    SubsequenceMembers(c, s);
    forall i | 0 <= i < |c| ensures 1 <= c[i] <= 9 {
      assert c[i] in s;
    }
  }

  /** An increasing sequence whose elements all occur in the increasing
      sequence `s` is a subsequence of `s`. */
  lemma {:induction false} IncreasingIsSubsequence(c: seq<int>, s: seq<int>)
    requires IsIncreasing(c) && IsIncreasing(s)
    requires forall y :: y in c ==> y in s
    ensures IsSubsequence(c, s)
    decreases |s|
  {
    if c != [] {
      assert c[0] in c;
      IncreasingTail(s);
      IncreasingTail(c);
      if c[0] == s[0] {
        forall y | y in c[1..] ensures y in s[1..] {
          assert y in c;
          assert y != s[0];
        }
        IncreasingIsSubsequence(c[1..], s[1..]);
      } else {
        forall y | y in c ensures y in s[1..] {
          assert y in s;
          assert y != s[0];
        }
        IncreasingIsSubsequence(c, s[1..]);
      }
    }
  }

  /** Every tile set is a subsequence of the universe (1, ..., 9). */
  lemma TileSetInUniverse(c: seq<int>)
    requires IsTileSet(c)
    ensures IsSubsequence(c, Universe)
  {
    forall y | y in c ensures y in Universe {
      var i :| 0 <= i < |c| && c[i] == y;
      assert Universe[y - 1] == y;
    }
    assert IsIncreasing(Universe);
    IncreasingIsSubsequence(c, Universe);
  }
}
