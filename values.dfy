/** The value recurrence of `Player1._expected_value` and
    `Player2._expected_value`, written as pure functions over exact reals.
    A value is the winning probability of the player to move: Player1's
    values are Player1's, Player2's values are Player2's (finishing below
    Player1's score). Player1 takes the complement of Player2's value at
    the hand-off.

    A state is a tile tuple plus a roll: no roll (or roll 0, since the code
    tests `not r`) is a stochastic state, a roll `r` a decision state. */
module Values {
  import opened Tiles
  import opened Partitions
  import opened Dice

  /** Python's `not r` on the roll argument. */
  predicate Pending(roll: Option<int>)
  {
    roll.None? || roll.value == 0
  }

  function Max(a: int, b: int): int { if a < b then b else a }
  function Min(a: int, b: int): int { if a < b then a else b }

  /** The splits among `ps` whose chosen side sums to `r`, in order. */
  function SummingTo(ps: seq<Split>, r: int): (qs: seq<Split>)
    ensures forall p :: p in qs <==> p in ps && Sum(p.chosen) == r
    ensures qs == [] <==> forall p :: p in ps ==> Sum(p.chosen) != r
  {
    if ps == [] then []
    else (if Sum(ps[0].chosen) == r then [ps[0]] else []) + SummingTo(ps[1..], r)
  }

  lemma SplitsSizes(s: seq<int>)
    ensures forall p :: p in Splits(s) ==> |p.chosen| + |p.remaining| == |s|
  {
    forall p | p in Splits(s) ensures |p.chosen| + |p.remaining| == |s| {
      SplitPartitions(s, p);
    }
  }

  /** The legal moves for roll `r` on tiles `s`. A non-zero roll closes at
      least one tile, so every remainder is shorter than `s`. */
  function Moves(s: seq<int>, r: int): (ms: seq<Split>)
    ensures forall p :: p in ms <==> p in Splits(s) && Sum(p.chosen) == r
    ensures ms == [] <==> forall p :: p in Splits(s) ==> Sum(p.chosen) != r
    ensures r != 0 ==> forall k :: 0 <= k < |ms| ==> |ms[k].remaining| < |s|
  {
    SplitsSizes(s);
    SummingTo(Splits(s), r)
  }

  /** `max_v = 0.0` followed by `max_v = max(max_v, v)` for each value: the
      largest value, or 0.0 when there is none larger. */
  function MaxFloor(vs: seq<real>): (m: real)
    ensures 0.0 <= m
    ensures forall k :: 0 <= k < |vs| ==> vs[k] <= m
    ensures m == 0.0 || exists k :: 0 <= k < |vs| && vs[k] == m
  {
    if vs == [] then 0.0
    else
      var m := MaxFloor(vs[..|vs| - 1]);
      if m < vs[|vs| - 1] then vs[|vs| - 1] else m
  }

  /** The only value meeting MaxFloor's contract is MaxFloor itself. */
  lemma MaxFloorUnique(vs: seq<real>, m: real)
    requires 0.0 <= m
    requires forall k :: 0 <= k < |vs| ==> vs[k] <= m
    requires m == 0.0 || exists k :: 0 <= k < |vs| && vs[k] == m
    ensures m == MaxFloor(vs)
  {
  }

  /** `p * v` for a weight `p` and a probability `v`: at most the weight. */
  function Scale(w: real, d: real): (x: real)
    requires 0.0 <= w && 0.0 <= d <= 1.0
    ensures 0.0 <= x <= w
  {
    assert w * (1.0 - d) >= 0.0;
    w * d
  }

  // ---------------------------------------------------------------- Player1

  /** Player1 about to roll on tiles `s`. */
  function Stochastic1(s: seq<int>): (v: real)
    ensures 0.0 <= v <= 1.0
    decreases |s|, 2
  {
    DiceTables();
    if s == [] then 1.0
    else if Sum(s) > 6 then RollSum1(s, TwoDiceProb, 2, 11)
    else if 0 <= Sum(s) <= 6 then RollSum1(s, OneDieProb, 1, 6)
    else 0.0
  }

  /** The weighted sum over the first `n` rolls `lo, lo + 1, ...` of the
      decision values, roll `lo + k` weighted by `ws[k]`. */
  function RollSum1(s: seq<int>, ws: seq<real>, lo: int, n: nat): (v: real)
    requires 1 <= lo && n <= |ws| && NonNegative(ws)
    ensures 0.0 <= v <= Partial(ws, n)
    decreases |s|, 1, n
  {
    if n == 0 then 0.0
    else
      var d := Decision1(s, lo + n - 1);
      var earlier := RollSum1(s, ws, lo, n - 1);
      earlier + Scale(ws[n - 1], d)
  }

  /** Player1 on tiles `s` having rolled `r`. */
  function Decision1(s: seq<int>, r: int): (v: real)
    requires r != 0
    ensures 0.0 <= v <= 1.0
    decreases |s|, 0
  {
    var ms := Moves(s, r);
    if |ms| == 0 then 1.0 - Stochastic2(Universe, Sum(s))
    else MaxFloor(seq(|ms|, k requires 0 <= k < |ms| => Stochastic1(ms[k].remaining)))
  }

  /** `Player1._expected_value(S, r)`. */
  function Value1(s: seq<int>, roll: Option<int>): (v: real)
    ensures 0.0 <= v <= 1.0
  {
    if Pending(roll) then Stochastic1(s) else Decision1(s, roll.value)
  }

  // ---------------------------------------------------------------- Player2

  /** Player2 about to roll on tiles `s`, against Player1's score `t`. */
  function Stochastic2(s: seq<int>, t: int): (v: real)
    ensures 0.0 <= v <= 1.0
    decreases |s|, 2
  {
    DiceTables();
    if Sum(s) < t then 1.0
    else if Sum(s) >= Max(7, t) then RollSum2(s, t, TwoDiceProb, 2, 11)
    else if Min(0, t) <= Sum(s) <= 6 then RollSum2(s, t, OneDieProb, 1, 6)
    else 0.0
  }

  function RollSum2(s: seq<int>, t: int, ws: seq<real>, lo: int, n: nat): (v: real)
    requires 1 <= lo && n <= |ws| && NonNegative(ws)
    ensures 0.0 <= v <= Partial(ws, n)
    decreases |s|, 1, n
  {
    if n == 0 then 0.0
    else
      var d := Decision2(s, lo + n - 1, t);
      var earlier := RollSum2(s, t, ws, lo, n - 1);
      earlier + Scale(ws[n - 1], d)
  }

  /** Player2 on tiles `s` having rolled `r`, against Player1's score `t`. */
  function Decision2(s: seq<int>, r: int, t: int): (v: real)
    requires r != 0
    ensures 0.0 <= v <= 1.0
    decreases |s|, 0
  {
    var ms := Moves(s, r);
    if |ms| == 0 && Sum(s) == t then 0.5
    else if |ms| == 0 && Sum(s) > t then 0.0
    else MaxFloor(seq(|ms|, k requires 0 <= k < |ms| => Stochastic2(ms[k].remaining, t)))
  }

  /** `Player2._expected_value(S, r)` with `_prev_score` `t`. */
  function Value2(s: seq<int>, roll: Option<int>, t: int): (v: real)
    ensures 0.0 <= v <= 1.0
  {
    if Pending(roll) then Stochastic2(s, t) else Decision2(s, roll.value, t)
  }

  // ---------------------------------------------------------------- optimality

  /** A Player1 decision takes the best legal move: its value is at least the
      value of every legal remainder, and is either 0.0 or the value of one of
      them. */
  lemma Decision1IsBest(s: seq<int>, r: int)
    requires r != 0
    ensures forall p :: p in Moves(s, r) ==> Stochastic1(p.remaining) <= Decision1(s, r)
    ensures Moves(s, r) != [] ==> Decision1(s, r) == 0.0 || exists p :: p in Moves(s, r) && Stochastic1(p.remaining) == Decision1(s, r)
  {
    var ms := Moves(s, r);
    if ms == [] { return; }
    var vs := seq(|ms|, k requires 0 <= k < |ms| => Stochastic1(ms[k].remaining));
    assert Decision1(s, r) == MaxFloor(vs);
    forall p | p in ms ensures Stochastic1(p.remaining) <= Decision1(s, r) {
      var k :| 0 <= k < |ms| && ms[k] == p;
      assert vs[k] == Stochastic1(p.remaining);
    }
    if Decision1(s, r) != 0.0 {
      var k :| 0 <= k < |vs| && vs[k] == Decision1(s, r);
      assert ms[k] in ms;
    }
  }

  /** The same for Player2, whose decision with legal moves also takes the best one. */
  lemma Decision2IsBest(s: seq<int>, r: int, t: int)
    requires r != 0
    ensures forall p :: p in Moves(s, r) ==> Stochastic2(p.remaining, t) <= Decision2(s, r, t)
    ensures Moves(s, r) != [] ==> Decision2(s, r, t) == 0.0 || exists p :: p in Moves(s, r) && Stochastic2(p.remaining, t) == Decision2(s, r, t)
  {
    var ms := Moves(s, r);
    if ms == [] { return; }
    var vs := seq(|ms|, k requires 0 <= k < |ms| => Stochastic2(ms[k].remaining, t));
    assert Decision2(s, r, t) == MaxFloor(vs);
    forall p | p in ms ensures Stochastic2(p.remaining, t) <= Decision2(s, r, t) {
      var k :| 0 <= k < |ms| && ms[k] == p;
      assert vs[k] == Stochastic2(p.remaining, t);
    }
    if Decision2(s, r, t) != 0.0 {
      var k :| 0 <= k < |vs| && vs[k] == Decision2(s, r, t);
      assert ms[k] in ms;
    }
  }

  // ---------------------------------------------------------------- steps
  //
  // Proof hints for the roll loops of `Players.Player.WeighRolls1` and
  // `WeighRolls2`: each states one unfolding of a definition, or one
  // substitution, so that the loops need not unfold the recurrence in their
  // own, larger proof context. They are not properties of the program.

  /** Hint: after roll `r` Player1 is in the decision state for `r`. */
  lemma RolledValue1(s: seq<int>, r: int)
    requires r != 0
    ensures Value1(s, Some(r)) == Decision1(s, r)
  {
  }

  /** Hint: the same for Player2. */
  lemma RolledValue2(s: seq<int>, r: int, t: int)
    requires r != 0
    ensures Value2(s, Some(r), t) == Decision2(s, r, t)
  {
  }

  /** Hint: the loop's roll `roll` is the roll `lo + k` of the sum. */
  lemma SameRoll1(s: seq<int>, roll: int, lo: int, k: int)
    requires roll == lo + k && roll != 0
    ensures Decision1(s, roll) == Decision1(s, lo + k)
  {
  }

  /** Hint: one more roll added to Player1's dice-weighted sum. */
  lemma RollSum1Step(s: seq<int>, ws: seq<real>, lo: int, k: nat)
    requires 1 <= lo && k < |ws| && NonNegative(ws)
    ensures RollSum1(s, ws, lo, k + 1) == RollSum1(s, ws, lo, k) + Scale(ws[k], Decision1(s, lo + k))
  {
  }

  /** Hint: the same for Player2. */
  lemma SameRoll2(s: seq<int>, roll: int, lo: int, k: int, t: int)
    requires roll == lo + k && roll != 0
    ensures Decision2(s, roll, t) == Decision2(s, lo + k, t)
  {
  }

  /** Hint: one more roll added to Player2's dice-weighted sum. */
  lemma RollSum2Step(s: seq<int>, t: int, ws: seq<real>, lo: int, k: nat)
    requires 1 <= lo && k < |ws| && NonNegative(ws)
    ensures RollSum2(s, t, ws, lo, k + 1) == RollSum2(s, t, ws, lo, k) + Scale(ws[k], Decision2(s, lo + k, t))
  {
  }
}
