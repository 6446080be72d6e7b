/** The (chosen, remaining) pairs the subset search produces, and what it
    means for such a pair to split a tile tuple. */
module Partitions {
  import opened Tiles

  /** One leaf of the search: `(tuple(visited), tuple(excluded))`. */
  datatype Split = Split(chosen: seq<int>, remaining: seq<int>)

  /** Prefixes `v` to every chosen side and `e` to every remaining side. */
  function Extend(v: seq<int>, e: seq<int>, ps: seq<Split>): (qs: seq<Split>)
    ensures |qs| == |ps|
    ensures forall k :: 0 <= k < |ps| ==> qs[k] == Split(v + ps[k].chosen, e + ps[k].remaining)
  {
    seq(|ps|, k requires 0 <= k < |ps| => Split(v + ps[k].chosen, e + ps[k].remaining))
  }

  /** All splits of `s` in the order of the depth-first search: every split
      that takes `s[0]` comes before every split that leaves it out. */
  function Splits(s: seq<int>): seq<Split>
  {
    if s == [] then [Split([], [])]
    else
      var rest := Splits(s[1..]);
      Extend([s[0]], [], rest) + Extend([], [s[0]], rest)
  }

  /** `s` is an interleaving of `c` and `r`: each element of `s` goes to
      exactly one side, and each side keeps the order it has in `s`. */
  predicate Interleaving(c: seq<int>, r: seq<int>, s: seq<int>)
  {
    if s == [] then c == [] && r == []
    else
      || (c != [] && c[0] == s[0] && Interleaving(c[1..], r, s[1..]))
      || (r != [] && r[0] == s[0] && Interleaving(c, r[1..], s[1..]))
  }

  function Pow2(n: nat): nat
  {
    if n == 0 then 1 else 2 * Pow2(n - 1)
  }

  lemma ExtendConcat(v: seq<int>, e: seq<int>, a: seq<Split>, b: seq<Split>)
    ensures Extend(v, e, a + b) == Extend(v, e, a) + Extend(v, e, b)
  {
    assert forall k :: 0 <= k < |a + b| ==> Extend(v, e, a + b)[k] == (Extend(v, e, a) + Extend(v, e, b))[k];
  }

  lemma ExtendExtend(v: seq<int>, e: seq<int>, v': seq<int>, e': seq<int>, ps: seq<Split>)
    ensures Extend(v, e, Extend(v', e', ps)) == Extend(v + v', e + e', ps)
  {
    forall k | 0 <= k < |ps|
      ensures Extend(v, e, Extend(v', e', ps))[k] == Extend(v + v', e + e', ps)[k]
    {
      assert v + (v' + ps[k].chosen) == (v + v') + ps[k].chosen;
      assert e + (e' + ps[k].remaining) == (e + e') + ps[k].remaining;
    }
  }

  /** The search visits 2^|s| leaves. */
  lemma {:induction false} SplitsCount(s: seq<int>)
    ensures |Splits(s)| == Pow2(|s|)
  {
    if s != [] {
      SplitsCount(s[1..]);
    }
  }

  /** Soundness: every recorded pair splits `s` (chosen and remaining
      interleave to `s`). */
  lemma {:induction false} SplitsSound(s: seq<int>)
    ensures forall p :: p in Splits(s) ==> Interleaving(p.chosen, p.remaining, s)
  {
    if s != [] {
      var rest := Splits(s[1..]);
      SplitsSound(s[1..]);
      forall p | p in Splits(s) ensures Interleaving(p.chosen, p.remaining, s) {
        var k := SplitsStep(s, p);
        TakeFirstSound(s, rest[k]);
        LeaveFirstSound(s, rest[k]);
      }
    }
  }

  /** A split of a non-empty `s` is a split of `s[1..]` with `s[0]` added to
      one side; returns the index of that split of `s[1..]`. */
  lemma SplitsStep(s: seq<int>, p: Split) returns (k: nat)
    requires s != [] && p in Splits(s)
    ensures k < |Splits(s[1..])|
    ensures p == Split([s[0]] + Splits(s[1..])[k].chosen, Splits(s[1..])[k].remaining)
         || p == Split(Splits(s[1..])[k].chosen, [s[0]] + Splits(s[1..])[k].remaining)
  {
    var rest := Splits(s[1..]);
    var taken := Extend([s[0]], [], rest);
    var left := Extend([], [s[0]], rest);
    assert Splits(s) == taken + left;
    if p in taken {
      k := ExtendMember([s[0]], [], rest, p);
      assert [] + rest[k].remaining == rest[k].remaining;
    } else {
      k := ExtendMember([], [s[0]], rest, p);
      assert [] + rest[k].chosen == rest[k].chosen;
    }
  }

  /** A member of an extended sequence is some split extended; returns its index. */
  lemma ExtendMember(v: seq<int>, e: seq<int>, ps: seq<Split>, p: Split) returns (k: nat)
    requires p in Extend(v, e, ps)
    ensures k < |ps| && p == Split(v + ps[k].chosen, e + ps[k].remaining)
  {
    var qs := Extend(v, e, ps);
    k :| k < |qs| && qs[k] == p;
  }

  lemma TakeFirstSound(s: seq<int>, q: Split)
    requires s != [] && Interleaving(q.chosen, q.remaining, s[1..])
    ensures Interleaving([s[0]] + q.chosen, q.remaining, s)
  {
    assert ([s[0]] + q.chosen)[1..] == q.chosen;
  }

  lemma LeaveFirstSound(s: seq<int>, q: Split)
    requires s != [] && Interleaving(q.chosen, q.remaining, s[1..])
    ensures Interleaving(q.chosen, [s[0]] + q.remaining, s)
  {
    assert ([s[0]] + q.remaining)[1..] == q.remaining;
  }

  /** Completeness: every way of splitting `s` is recorded. */
  lemma {:induction false} SplitsComplete(c: seq<int>, r: seq<int>, s: seq<int>)
    requires Interleaving(c, r, s)
    ensures Split(c, r) in Splits(s)
  {
    if s != [] {
      if c != [] && c[0] == s[0] && Interleaving(c[1..], r, s[1..]) {
        SplitsComplete(c[1..], r, s[1..]);
        TakeFirstComplete(s, c, r);
      } else {
        SplitsComplete(c, r[1..], s[1..]);
        LeaveFirstComplete(s, c, r);
      }
    }
  }

  lemma TakeFirstComplete(s: seq<int>, c: seq<int>, r: seq<int>)
    requires s != [] && c != [] && c[0] == s[0] && Split(c[1..], r) in Splits(s[1..])
    ensures Split(c, r) in Splits(s)
  {
    var rest := Splits(s[1..]);
    var k :| 0 <= k < |rest| && rest[k] == Split(c[1..], r);
    var taken: seq<Split> := Extend([s[0]], [], rest);
    assert Split(c, r) in taken by {
      assert c == [s[0]] + c[1..] && r == [] + r;
      assert taken[k] == Split(c, r);
    }
    assert Splits(s) == taken + Extend([], [s[0]], rest);
  }

  lemma LeaveFirstComplete(s: seq<int>, c: seq<int>, r: seq<int>)
    requires s != [] && r != [] && r[0] == s[0] && Split(c, r[1..]) in Splits(s[1..])
    ensures Split(c, r) in Splits(s)
  {
    var rest := Splits(s[1..]);
    var k :| 0 <= k < |rest| && rest[k] == Split(c, r[1..]);
    var left: seq<Split> := Extend([], [s[0]], rest);
    assert Split(c, r) in left by {
      assert r == [s[0]] + r[1..] && c == [] + c;
      assert left[k] == Split(c, r);
    }
    assert Splits(s) == Extend([s[0]], [], rest) + left;
  }

  lemma {:induction false} InterleavingMembers(c: seq<int>, r: seq<int>, s: seq<int>)
    requires Interleaving(c, r, s)
    ensures |c| + |r| == |s|
    ensures forall y :: y in c ==> y in s
    ensures forall y :: y in r ==> y in s
    ensures IsSubsequence(c, s) && IsSubsequence(r, s)
  {
    if s == [] {
    } else if c != [] && c[0] == s[0] && Interleaving(c[1..], r, s[1..]) {
      InterleavingMembers(c[1..], r, s[1..]);
      assert c == [c[0]] + c[1..];
      assert s == [s[0]] + s[1..];
      SubsequenceSkip(r, s);
    } else {
      InterleavingMembers(c, r[1..], s[1..]);
      assert r == [r[0]] + r[1..];
      assert s == [s[0]] + s[1..];
      SubsequenceSkip(c, s);
    }
  }

  lemma SubsequenceSkip(c: seq<int>, s: seq<int>)
    requires s != [] && IsSubsequence(c, s[1..])
    ensures IsSubsequence(c, s)
  {
  }

  lemma {:induction false} InterleavingSum(c: seq<int>, r: seq<int>, s: seq<int>)
    requires Interleaving(c, r, s)
    ensures Sum(c) + Sum(r) == Sum(s)
  {
    if s == [] {
    } else if c != [] && c[0] == s[0] && Interleaving(c[1..], r, s[1..]) {
      InterleavingSum(c[1..], r, s[1..]);
    } else {
      InterleavingSum(c, r[1..], s[1..]);
    }
  }

  lemma {:induction false} InterleavingMultiset(c: seq<int>, r: seq<int>, s: seq<int>)
    requires Interleaving(c, r, s)
    ensures multiset(c) + multiset(r) == multiset(s)
  {
    if s == [] {
    } else if c != [] && c[0] == s[0] && Interleaving(c[1..], r, s[1..]) {
      InterleavingMultiset(c[1..], r, s[1..]);
      assert c == [c[0]] + c[1..];
      assert s == [s[0]] + s[1..];
    } else {
      InterleavingMultiset(c, r[1..], s[1..]);
      assert r == [r[0]] + r[1..];
      assert s == [s[0]] + s[1..];
    }
  }

  lemma {:induction false} InterleavingDisjoint(c: seq<int>, r: seq<int>, s: seq<int>)
    requires Interleaving(c, r, s) && IsIncreasing(s)
    ensures forall y :: y in c ==> y !in r
  {
    if s != [] {
      IncreasingTail(s);
      if c != [] && c[0] == s[0] && Interleaving(c[1..], r, s[1..]) {
        InterleavingDisjoint(c[1..], r, s[1..]);
        InterleavingMembers(c[1..], r, s[1..]);
        assert c == [c[0]] + c[1..];
        assert s[0] !in s[1..];
      } else {
        InterleavingDisjoint(c, r[1..], s[1..]);
        InterleavingMembers(c, r[1..], s[1..]);
        assert r == [r[0]] + r[1..];
        assert s[0] !in s[1..];
      }
    }
  }

  /** Each recorded pair partitions `s`: chosen and remaining keep the order
      of `s`, are disjoint when `s` has distinct tiles, hold together exactly
      the tiles of `s`, and are tile sets when `s` is one. */
  lemma SplitPartitions(s: seq<int>, p: Split)
    requires p in Splits(s)
    ensures IsSubsequence(p.chosen, s) && IsSubsequence(p.remaining, s)
    ensures multiset(p.chosen) + multiset(p.remaining) == multiset(s)
    ensures |p.chosen| + |p.remaining| == |s|
    ensures Sum(p.chosen) + Sum(p.remaining) == Sum(s)
    ensures IsIncreasing(s) ==> forall y :: y in p.chosen ==> y !in p.remaining
    ensures IsTileSet(s) ==> IsTileSet(p.chosen) && IsTileSet(p.remaining)
  {
    SplitsSound(s);
    InterleavingMembers(p.chosen, p.remaining, s);
    InterleavingMultiset(p.chosen, p.remaining, s);
    InterleavingSum(p.chosen, p.remaining, s);
    if IsIncreasing(s) {
      InterleavingDisjoint(p.chosen, p.remaining, s);
    }
    if IsTileSet(s) {
      SubsequenceOfTileSet(p.chosen, s);
      SubsequenceOfTileSet(p.remaining, s);
    }
  }

  /** For distinct tiles, no subset is produced twice: the 2^|s| leaves
      carry pairwise different chosen sides. */
  lemma {:induction false} SplitsDistinct(s: seq<int>)
    requires IsIncreasing(s)
    ensures forall i, j :: 0 <= i < j < |Splits(s)| ==> Splits(s)[i].chosen != Splits(s)[j].chosen
  {
    if s != [] {
      var rest := Splits(s[1..]);
      var taken: seq<Split> := Extend([s[0]], [], rest);
      var left: seq<Split> := Extend([], [s[0]], rest);
      assert Splits(s) == taken + left;
      IncreasingTail(s);
      SplitsDistinct(s[1..]);
      forall i: int, j: int | 0 <= i < j < |taken + left|
        ensures (taken + left)[i].chosen != (taken + left)[j].chosen
      {
        var n := |taken|;
        if j < n {
          assert (taken + left)[i] == taken[i] && (taken + left)[j] == taken[j];
          ConsDistinct(s[0], rest[i].chosen, rest[j].chosen);
        } else if i >= n {
          assert (taken + left)[i] == left[i - n] && (taken + left)[j] == left[j - n];
          assert [] + rest[i - n].chosen == rest[i - n].chosen;
          assert [] + rest[j - n].chosen == rest[j - n].chosen;
        } else {
          assert (taken + left)[i] == taken[i] && (taken + left)[j] == left[j - n];
          TakenLeftDistinct(s, i, j - n);
        }
      }
    }
  }

  /** Prefixing the same tile keeps two different sequences different. */
  lemma ConsDistinct(x: int, a: seq<int>, b: seq<int>)
    requires a != b
    ensures [x] + a != [x] + b
  {
    assert ([x] + a)[1..] == a && ([x] + b)[1..] == b;
  }

  /** A split that takes the first tile and one that leaves it have
      different chosen sides, because the first tile of an increasing
      sequence occurs nowhere in its rest. */
  lemma TakenLeftDistinct(s: seq<int>, i: nat, k: nat)
    requires IsIncreasing(s) && s != []
    requires i < |Splits(s[1..])| && k < |Splits(s[1..])|
    ensures [s[0]] + Splits(s[1..])[i].chosen != [] + Splits(s[1..])[k].chosen
  {
    var q := Splits(s[1..])[k];
    SplitsSound(s[1..]);
    assert q in Splits(s[1..]);
    InterleavingMembers(q.chosen, q.remaining, s[1..]);
    assert s[0] !in s[1..];
    assert s[0] !in q.chosen;
    assert ([s[0]] + Splits(s[1..])[i].chosen)[0] == s[0];
  }

  lemma {:induction false} InterleavingWithNothing(s: seq<int>)
    ensures Interleaving(s, [], s) && Interleaving([], s, s)
  {
    if s != [] {
      InterleavingWithNothing(s[1..]);
    }
  }

  /** Every subsequence of `s` is the chosen side of some recorded split. */
  lemma {:induction false} SubsequenceIsChosen(c: seq<int>, s: seq<int>)
    requires IsSubsequence(c, s)
    ensures exists r :: Split(c, r) in Splits(s)
  {
    var r := Complement(c, s);
    SplitsComplete(c, r, s);
  }

  lemma {:induction false} ComplementInterleaves(c: seq<int>, s: seq<int>)
    requires IsSubsequence(c, s)
    ensures Interleaving(c, ComplementOf(c, s), s)
  {
    if c == [] {
      InterleavingWithNothing(s);
    } else if c[0] == s[0] && IsSubsequence(c[1..], s[1..]) {
      ComplementInterleaves(c[1..], s[1..]);
    } else {
      ComplementInterleaves(c, s[1..]);
    }
  }

  /** The tiles of `s` not taken by its subsequence `c`. */
  function Complement(c: seq<int>, s: seq<int>): (r: seq<int>)
    requires IsSubsequence(c, s)
    ensures Interleaving(c, r, s)
  {
    ComplementInterleaves(c, s);
    ComplementOf(c, s)
  }

  function ComplementOf(c: seq<int>, s: seq<int>): seq<int>
    requires IsSubsequence(c, s)
  {
    if c == [] then s
    else if c[0] == s[0] && IsSubsequence(c[1..], s[1..]) then ComplementOf(c[1..], s[1..])
    else [s[0]] + ComplementOf(c, s[1..])
  }
}
