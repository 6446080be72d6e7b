/** The subset index `Game._subset_memo`: for a tile tuple S and a target r,
    the set of (chosen, remaining) splits of S whose chosen side sums to r.
    It is filled by a depth-first search over the positions of S. */
module SubsetIndex {
  import opened Tiles
  import opened Partitions

  /** The dictionary key `(tuple(S), r)`. */
  datatype Key = Key(tiles: seq<int>, target: int)

  /** Reading a `defaultdict(set)`: a key never written reads as the empty set. */
  function Lookup(m: map<Key, set<Split>>, k: Key): set<Split>
  {
    if k in m then m[k] else {}
  }

  /** The leaves the search reaches from position `i` with the running sum
      `sumVisited` and the decisions `visited`/`excluded` taken so far, in
      the order it reaches them; a branch whose sum exceeds 45 is cut. Each
      remaining position at most doubles the number of leaves. */
  function Leaves(s: seq<int>, i: nat, sumVisited: int, visited: seq<int>, excluded: seq<int>): (ps: seq<Split>)
    requires i <= |s|
    ensures |ps| <= Pow2(|s| - i)
    decreases |s| - i
  {
    if sumVisited > 45 then []
    else if i >= |s| then [Split(visited, excluded)]
    else
      Leaves(s, i + 1, sumVisited + s[i], visited + [s[i]], excluded)
      + Leaves(s, i + 1, sumVisited, visited, excluded + [s[i]])
  }

  /** Every leaf of the search extends the decisions already taken: the
      chosen side begins with `visited` and the other side with `excluded`. */
  lemma {:induction false} LeavesExtend(s: seq<int>, i: nat, sumVisited: int, visited: seq<int>, excluded: seq<int>)
    requires i <= |s|
    ensures forall p :: p in Leaves(s, i, sumVisited, visited, excluded) ==> visited <= p.chosen && excluded <= p.remaining
    decreases |s| - i
  {
    if sumVisited <= 45 && i < |s| {
      LeavesExtend(s, i + 1, sumVisited + s[i], visited + [s[i]], excluded);
      LeavesExtend(s, i + 1, sumVisited, visited, excluded + [s[i]]);
    }
  }

  /** What one search over `s` adds under key `k`, given its leaves `ps`. */
  function Recorded(k: Key, s: seq<int>, ps: seq<Split>): set<Split>
  {
    if k.tiles == s then set p | p in ps && Sum(p.chosen) == k.target else {}
  }

  lemma RecordedConcat(k: Key, s: seq<int>, a: seq<Split>, b: seq<Split>)
    ensures Recorded(k, s, a + b) == Recorded(k, s, a) + Recorded(k, s, b)
  {
  }

  predicate IsChosenIn(c: seq<int>, ps: seq<Split>)
  {
    exists j :: 0 <= j < |ps| && ps[j].chosen == c
  }

  /** What the searches over the chosen sides of `top[..n]` add under key `k`. */
  function Revisited(k: Key, top: seq<Split>, n: nat): set<Split>
    requires n <= |top|
  {
    if exists j :: 0 <= j < n && top[j].chosen == k.tiles
    then Recorded(k, k.tiles, Leaves(k.tiles, 0, 0, [], []))
    else {}
  }

  /** What `_generate_all_subsets(s)` adds under key `k`: the search over `s`
      itself, then one search over each chosen side it produced. */
  function Indexed(k: Key, s: seq<int>): set<Split>
  {
    var top := Leaves(s, 0, 0, [], []);
    Recorded(k, s, top)
    + (if IsChosenIn(k.tiles, top) then Recorded(k, k.tiles, Leaves(k.tiles, 0, 0, [], [])) else {})
  }

  /** The splits of `s` whose chosen side sums to `r`: the legal moves for roll `r`. */
  function SplitsSumming(s: seq<int>, r: int): set<Split>
  {
    set p | p in Splits(s) && Sum(p.chosen) == r
  }

  /** The index the game needs: under every tile set and target exactly the
      splits summing to that target, and nothing under any other key. */
  ghost predicate IndexComplete(m: map<Key, set<Split>>)
  {
    forall k :: Lookup(m, k) == (if IsTileSet(k.tiles) then SplitsSumming(k.tiles, k.target) else {})
  }

  lemma {:induction false} SumNonnegative(s: seq<int>)
    requires forall k :: 0 <= k < |s| ==> 0 <= s[k]
    ensures 0 <= Sum(s)
  {
    if s != [] {
      SumNonnegative(s[1..]);
    }
  }

  /** On tiles that are not negative and sum to at most 45, the cap never cuts
      a branch: the search yields exactly `Splits`, prefixed by the decisions
      already taken. */
  lemma {:induction false} LeavesUnpruned(s: seq<int>, i: nat, sumVisited: int, visited: seq<int>, excluded: seq<int>)
    requires i <= |s|
    requires forall k :: 0 <= k < |s| ==> 0 <= s[k]
    requires sumVisited + Sum(s[i..]) <= 45
    ensures Leaves(s, i, sumVisited, visited, excluded) == Extend(visited, excluded, Splits(s[i..]))
    decreases |s| - i
  {
    SumNonnegative(s[i..]);
    if i == |s| {
      assert s[i..] == [];
      assert visited + [] == visited && excluded + [] == excluded;
    } else {
      var x := s[i];
      assert s[i..][1..] == s[i + 1..];
      var rest := Splits(s[i + 1..]);
      SumNonnegative(s[i + 1..]);
      LeavesUnpruned(s, i + 1, sumVisited + x, visited + [x], excluded);
      LeavesUnpruned(s, i + 1, sumVisited, visited, excluded + [x]);
      ExtendConcat(visited, excluded, Extend([x], [], rest), Extend([], [x], rest));
      ExtendExtend(visited, excluded, [x], [], rest);
      ExtendExtend(visited, excluded, [], [x], rest);
      assert excluded + [] == excluded && visited + [] == visited;
    }
  }

  lemma ExtendNothing(ps: seq<Split>)
    ensures Extend([], [], ps) == ps
  {
    assert forall k :: 0 <= k < |ps| ==> Extend([], [], ps)[k] == ps[k];
  }

  /** The guard `sumVisited > 45` never fires on a tile set: the search over a
      tile set yields all 2^|s| splits of it, each exactly once. */
  lemma SearchFindsAllSplits(s: seq<int>)
    requires IsTileSet(s)
    ensures Leaves(s, 0, 0, [], []) == Splits(s)
    ensures |Leaves(s, 0, 0, [], [])| == Pow2(|s|)
  {
    TileSetSum(s);
    assert s[0..] == s;
    LeavesUnpruned(s, 0, 0, [], []);
    ExtendNothing(Splits(s));
    SplitsCount(s);
  }

  /** Indexing a tile set `u` that holds every tile set as a subsequence, on
      an empty index, gives the complete index: every tile set S' and every
      target r map to exactly the splits of S' summing to r, and every other
      key reads as the empty set. */
  lemma IndexCompleteFrom(m: map<Key, set<Split>>, u: seq<int>)
    requires IsTileSet(u)
    requires forall c :: IsTileSet(c) ==> IsSubsequence(c, u)
    requires forall k :: Lookup(m, k) == Indexed(k, u)
    ensures IndexComplete(m)
  {
    SearchFindsAllSplits(u);
    var top := Leaves(u, 0, 0, [], []);
    forall k ensures Lookup(m, k) == (if IsTileSet(k.tiles) then SplitsSumming(k.tiles, k.target) else {}) {
      if IsTileSet(k.tiles) {
        SubsequenceIsChosen(k.tiles, u);
        var r :| Split(k.tiles, r) in Splits(u);
        var j :| 0 <= j < |top| && top[j] == Split(k.tiles, r);
        assert IsChosenIn(k.tiles, top);
        SearchFindsAllSplits(k.tiles);
      } else {
        assert k.tiles != u;
        if IsChosenIn(k.tiles, top) {
          var j :| 0 <= j < |top| && top[j].chosen == k.tiles;
          SplitPartitions(u, top[j]);
          assert false;
        }
      }
    }
  }

  /** `_generate_all_subsets` run on the universe (1, ..., 9) over an empty
      index yields the complete index. */
  lemma UniverseIndexComplete(m: map<Key, set<Split>>)
    requires forall k :: Lookup(m, k) == Indexed(k, Universe)
    ensures IndexComplete(m)
  {
    UniverseFacts();
    forall c | IsTileSet(c) ensures IsSubsequence(c, Universe) {
      TileSetInUniverse(c);
    }
    IndexCompleteFrom(m, Universe);
  }

  /** Every split stored in a complete index under `(S, r)` partitions S:
      both sides keep S's order, they share no tile, together they hold
      exactly S's tiles, and the chosen side sums to `r`. */
  lemma IndexedSplitPartitions(m: map<Key, set<Split>>, k: Key, p: Split)
    requires IndexComplete(m) && p in Lookup(m, k)
    ensures IsTileSet(k.tiles) && Sum(p.chosen) == k.target
    ensures Interleaving(p.chosen, p.remaining, k.tiles)
    ensures multiset(p.chosen) + multiset(p.remaining) == multiset(k.tiles)
    ensures forall y :: y in p.chosen ==> y !in p.remaining
  {
    SplitsSound(k.tiles);
    SplitPartitions(k.tiles, p);
  }

  lemma {:induction false} NothingRemaining(c: seq<int>, s: seq<int>)
    requires Interleaving(c, [], s)
    ensures c == s
  {
    if s != [] {
      NothingRemaining(c[1..], s[1..]);
    }
  }

  lemma {:induction false} NothingChosen(r: seq<int>, s: seq<int>)
    requires Interleaving([], r, s)
    ensures r == s
  {
    if s != [] {
      NothingChosen(r[1..], s[1..]);
    }
  }

  /** For a tile set `u`, its full sum has the single split (all of u, none)
      and target 0 the single split (none, all of u). */
  lemma AllOrNothing(u: seq<int>)
    requires IsTileSet(u)
    ensures SplitsSumming(u, Sum(u)) == {Split(u, [])}
    ensures SplitsSumming(u, 0) == {Split([], u)}
  {
    InterleavingWithNothing(u);
    SplitsComplete(u, [], u);
    SplitsComplete([], u, u);
    forall p | p in SplitsSumming(u, Sum(u)) ensures p == Split(u, []) {
      SplitPartitions(u, p);
      SplitsSound(u);
      if p.remaining != [] {
        TileSetSum(p.remaining);
      }
      NothingRemaining(p.chosen, u);
    }
    forall p | p in SplitsSumming(u, 0) ensures p == Split([], u) {
      SplitPartitions(u, p);
      SplitsSound(u);
      if p.chosen != [] {
        TileSetSum(p.chosen);
      }
      NothingChosen(p.remaining, u);
    }
  }

  /** In the universe, target 45 has the single split (all nine, none) and
      target 0 the single split (none, all nine). */
  lemma UniverseExtremes()
    ensures SplitsSumming(Universe, 45) == {Split(Universe, [])}
    ensures SplitsSumming(Universe, 0) == {Split([], Universe)}
  {
    UniverseFacts();
    AllOrNothing(Universe);
  }

  /** `Game` as far as the subset index goes: it owns `_subset_memo`. */
  class Game {
    var subsetMemo: map<Key, set<Split>>

    constructor ()
      ensures subsetMemo == map[]
    {
      subsetMemo := map[];
    }

    /** The inner `dfs(i, sumVisited)` of `_generate_subsets`: returns the
        leaves it reaches and records each under `(S, sumVisited)`. */
    method Dfs(s: seq<int>, i: nat, sumVisited: int, visited: seq<int>, excluded: seq<int>) returns (found: seq<Split>)
      requires i <= |s| && sumVisited == Sum(visited)
      modifies this
      ensures found == Leaves(s, i, sumVisited, visited, excluded)
      ensures forall k :: Lookup(subsetMemo, k) == Lookup(old(subsetMemo), k) + Recorded(k, s, found)
      decreases |s| - i
    {
      if sumVisited > 45 {
        return [];
      }
      if i >= |s| {
        var pair := Split(visited, excluded);
        found := [pair];
        var key := Key(s, sumVisited);
        subsetMemo := subsetMemo[key := Lookup(subsetMemo, key) + {pair}];
        return;
      }
      SumAppend(visited, [s[i]]);
      var taken := Dfs(s, i + 1, sumVisited + s[i], visited + [s[i]], excluded);
      var left := Dfs(s, i + 1, sumVisited, visited, excluded + [s[i]]);
      found := taken + left;
      forall k ensures Recorded(k, s, found) == Recorded(k, s, taken) + Recorded(k, s, left) {
        RecordedConcat(k, s, taken, left);
      }
    }

    /** `_generate_subsets(S)`: the splits of S in search order, each
        recorded under its chosen side's sum. */
    method GenerateSubsets(s: seq<int>) returns (subsets: seq<Split>)
      modifies this
      ensures subsets == Leaves(s, 0, 0, [], [])
      ensures forall k :: Lookup(subsetMemo, k) == Lookup(old(subsetMemo), k) + Recorded(k, s, subsets)
    {
      subsets := Dfs(s, 0, 0, [], []);
    }

    /** `_generate_all_subsets(S)`: indexes S and every chosen side found in it. */
    method GenerateAllSubsets(s: seq<int>)
      modifies this
      ensures forall k :: Lookup(subsetMemo, k) == Lookup(old(subsetMemo), k) + Indexed(k, s)
    {
      var top := GenerateSubsets(s);
      for i := 0 to |top|
        invariant forall k :: Lookup(subsetMemo, k) == Lookup(old(subsetMemo), k) + Recorded(k, s, top) + Revisited(k, top, i)
      {
        var c := top[i].chosen;
        ghost var before := subsetMemo;
        var _ := GenerateSubsets(c);
        forall k
          ensures Lookup(subsetMemo, k) == Lookup(old(subsetMemo), k) + Recorded(k, s, top) + Revisited(k, top, i + 1)
        {
          if k.tiles == c {
            assert top[i].chosen == k.tiles;
          }
        }
      }
    }

    /** The first step of `Game.run`: index the universe (1, ..., 9) on the
        fresh, empty index. */
    method IndexUniverse()
      requires subsetMemo == map[]
      modifies this
      ensures IndexComplete(subsetMemo)
    {
      GenerateAllSubsets(Universe);
      UniverseIndexComplete(subsetMemo);
    }
  }
}
