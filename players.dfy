/** The players of `game.py`: `Player1` (the rolling player, trying to shut
    the box) and `Player2` (the player trying to beat Player1's score), with
    the value table `_v_table` they share and fill by memoised recursion, and
    the move choice `_optimal_move` they have in common. */
module Players {
  import opened Tiles
  import opened Partitions
  import opened SubsetIndex
  import opened Dice
  import opened Values

  /** Which of the two `Player` subclasses an object is. */
  datatype Role = Rolling | Target

  /** `action_type`: report the value of the start state, or the best move. */
  datatype Action = Expect | Move

  /** The value-table key `(tuple(S), r, t)`. */
  datatype StateKey = StateKey(tiles: seq<int>, roll: Option<int>, threshold: int)

  /** What an entry of the table stands for. In a run started by Player1 the
      keys with threshold 0 are Player1's own states and every other key is
      a state of a Player2 opponent; in a run started by Player2 every key
      is a Player2 state. */
  ghost function KeyValue(k: StateKey, rollingRun: bool): (v: real)
    ensures 0.0 <= v <= 1.0
  {
    if rollingRun && k.threshold == 0 then Value1(k.tiles, k.roll)
    else Value2(k.tiles, k.roll, k.threshold)
  }

  /** `_optimal_move`: no legal move (`[]`), the chosen side of a best move,
      or the case where no move has a positive value, in which the source
      ends in `list(None)` and raises. */
  datatype MoveOutcome = NoMove | Best(chosen: seq<int>) | NoPositiveMove

  /** What `play` returns: a value or a move. */
  datatype PlayResult = Expected(value: real) | Moved(move: MoveOutcome)

  /** The dictionary `_v_table`, shared by a player and every opponent it creates. */
  class ValueTable {
    var entries: map<StateKey, real>
    ghost const rollingRun: bool

    /** Every stored value is the exact value of its state. */
    ghost predicate Valid()
      reads this
    {
      forall k :: k in entries ==> entries[k] == KeyValue(k, rollingRun)
    }

    constructor (ghost rollingRun: bool)
      ensures entries == map[] && this.rollingRun == rollingRun
      ensures Valid()
    {
      entries := map[];
      this.rollingRun := rollingRun;
    }
  }

  /** A set-level reading of the decision rule: a value that bounds every
      option, is non-negative, and is 0.0 or attained, is the decision value. */
  lemma Decision1FromSet(s: seq<int>, r: int, m: real)
    requires r != 0 && SplitsSumming(s, r) != {}
    requires 0.0 <= m
    requires forall p :: p in SplitsSumming(s, r) ==> Stochastic1(p.remaining) <= m
    requires m == 0.0 || exists p :: p in SplitsSumming(s, r) && Stochastic1(p.remaining) == m
    ensures m == Decision1(s, r)
  {
    var p0 :| p0 in SplitsSumming(s, r);
    assert p0 in Moves(s, r);
    Decision1IsBest(s, r);
    if m != 0.0 {
      var p :| p in SplitsSumming(s, r) && Stochastic1(p.remaining) == m;
      assert p in Moves(s, r);
    }
    if Decision1(s, r) != 0.0 {
      var q :| q in Moves(s, r) && Stochastic1(q.remaining) == Decision1(s, r);
      assert q in SplitsSumming(s, r);
    }
  }

  /** `max_v` after the moves `done`: non-negative, at least the value of
      each, and 0.0 or the value of one of them. */
  ghost predicate BestOf1(done: set<Split>, m: real)
  {
    && 0.0 <= m
    && (forall p :: p in done ==> Stochastic1(p.remaining) <= m)
    && (m == 0.0 || exists p :: p in done && Stochastic1(p.remaining) == m)
  }

  /** One step of the `max_v = max(max_v, v_next)` loop keeps `BestOf1`. */
  lemma BestOfStep1(done: set<Split>, act: Split, m: real, v: real)
    requires BestOf1(done, m) && v == Value1(act.remaining, None)
    ensures BestOf1(done + {act}, if m < v then v else m)
  {
  }

  /** The same for Player2 against Player1's score `t`. */
  ghost predicate BestOf2(done: set<Split>, t: int, m: real)
  {
    && 0.0 <= m
    && (forall p :: p in done ==> Stochastic2(p.remaining, t) <= m)
    && (m == 0.0 || exists p :: p in done && Stochastic2(p.remaining, t) == m)
  }

  lemma BestOfStep2(done: set<Split>, act: Split, t: int, m: real, v: real)
    requires BestOf2(done, t, m) && v == Value2(act.remaining, None, t)
    ensures BestOf2(done + {act}, t, if m < v then v else m)
  {
  }

  lemma Decision2FromSet(s: seq<int>, r: int, t: int, m: real)
    requires r != 0
    requires 0.0 <= m
    requires forall p :: p in SplitsSumming(s, r) ==> Stochastic2(p.remaining, t) <= m
    requires m == 0.0 || exists p :: p in SplitsSumming(s, r) && Stochastic2(p.remaining, t) == m
    requires SplitsSumming(s, r) == {} ==> Sum(s) < t
    ensures m == Decision2(s, r, t)
  {
    if SplitsSumming(s, r) != {} {
      var p0 :| p0 in SplitsSumming(s, r);
      assert p0 in Moves(s, r);
      Decision2IsBest(s, r, t);
      if m != 0.0 {
        var p :| p in SplitsSumming(s, r) && Stochastic2(p.remaining, t) == m;
        assert p in Moves(s, r);
      }
      if Decision2(s, r, t) != 0.0 {
        var q :| q in Moves(s, r) && Stochastic2(q.remaining, t) == Decision2(s, r, t);
        assert q in SplitsSumming(s, r);
      }
    }
  }

  /** With no split summing to the roll there is no legal move. */
  lemma NoMoves(s: seq<int>, r: int)
    requires SplitsSumming(s, r) == {}
    ensures Moves(s, r) == []
  {
    forall p | p in Splits(s) ensures Sum(p.chosen) != r {
      assert p !in SplitsSumming(s, r);
    }
  }

  /** The legal moves recorded for a tile set are exactly its splits whose
      chosen side sums to the roll; for a non-zero roll each leaves a tile
      set with fewer tiles. */
  lemma ActionsShrink(s: seq<int>, r: int)
    requires IsTileSet(s) && r != 0
    ensures forall p :: p in SplitsSumming(s, r) ==> IsTileSet(p.remaining) && |p.remaining| < |s|
  {
    forall p | p in SplitsSumming(s, r) ensures IsTileSet(p.remaining) && |p.remaining| < |s| {
      SplitPartitions(s, p);
    }
  }

  class Player {
    const role: Role
    const action: Action
    const tiles: seq<int>
    /** `_prev_score`: 0 for Player1, Player1's final score for Player2. */
    const prevScore: int
    const rollSum: int
    const subsetMemo: map<Key, set<Split>>
    const vTable: ValueTable

    constructor (role: Role, action: Action, tiles: seq<int>, prevScore: int, rollSum: int,
                 subsetMemo: map<Key, set<Split>>, vTable: ValueTable)
      ensures this.role == role && this.action == action && this.tiles == tiles
      ensures this.prevScore == prevScore && this.rollSum == rollSum
      ensures this.subsetMemo == subsetMemo && this.vTable == vTable
    {
      this.role := role;
      this.action := action;
      this.tiles := tiles;
      this.prevScore := prevScore;
      this.rollSum := rollSum;
      this.subsetMemo := subsetMemo;
      this.vTable := vTable;
    }

    /** The player works on a complete subset index and a valid value table
        whose keys cannot collide: Player1 (threshold 0) only in a run it
        started, and a Player2 in such a run only with a positive threshold. */
    ghost predicate Ready()
      reads this, vTable
    {
      && IndexComplete(subsetMemo)
      && vTable.Valid()
      && (role == Rolling ==> prevScore == 0 && vTable.rollingRun)
      && (role == Target ==> !(vTable.rollingRun && prevScore == 0))
    }

    /** The value of this player about to roll on tiles `s`. */
    ghost function RollValue(s: seq<int>): real
    {
      if role == Rolling then Stochastic1(s) else Stochastic2(s, prevScore)
    }

    /** `Player1._expected_value(S, r)`: looks the state up in the table, and
        otherwise computes its value, stores it and returns it. */
    method ExpectedValue1(s: seq<int>, r: Option<int>) returns (v: real)
      requires Ready() && role == Rolling && IsTileSet(s)
      requires Pending(r) || s != []
      modifies vTable
      ensures Ready()
      ensures v == Value1(s, r)
      ensures old(vTable.entries).Keys <= vTable.entries.Keys
      ensures StateKey(s, r, prevScore) in vTable.entries
      decreases |s|, if Pending(r) then 4 else 1
    {
      var key := StateKey(s, r, prevScore);
      if key in vTable.entries {
        return vTable.entries[key];
      }
      if Pending(r) {
        v := RollTurn1(s);
      } else {
        v := ChooseMove1(s, r.value);
      }
      vTable.entries := vTable.entries[key := v];
    }

    /** The stochastic state of `Player1._expected_value`: 1.0 on an empty
        box, otherwise the dice-weighted sum of the decision values, over two
        dice above a tile sum of 6 and one die otherwise. */
    method RollTurn1(s: seq<int>) returns (v: real)
      requires Ready() && role == Rolling && IsTileSet(s)
      modifies vTable
      ensures Ready()
      ensures v == Stochastic1(s)
      ensures old(vTable.entries).Keys <= vTable.entries.Keys
      decreases |s|, 3
    {
      if s == [] {
        return 1.0;
      }
      var totalSum := Sum(s);
      DiceTables();
      v := 0.0;
      if totalSum > 6 {
        v := WeighRolls1(s, TwoDiceProb, 2);
      } else if 0 <= totalSum <= 6 {
        v := WeighRolls1(s, OneDieProb, 1);
      }
    }

    /** The `for roll in range(...)` loop of a Player1 stochastic state:
        `v_sum` accumulates `p * _expected_value(S, roll)` for the rolls
        `lo, lo + 1, ...`, roll `lo + k` weighted by `ws[k]`. */
    method WeighRolls1(s: seq<int>, ws: seq<real>, lo: int) returns (vSum: real)
      requires Ready() && role == Rolling && IsTileSet(s) && s != []
      requires 1 <= lo && NonNegative(ws)
      modifies vTable
      ensures Ready()
      ensures vSum == RollSum1(s, ws, lo, |ws|)
      ensures old(vTable.entries).Keys <= vTable.entries.Keys
      decreases |s|, 2
    {
      vSum := 0.0;
      for k := 0 to |ws|
        invariant Ready()
        invariant old(vTable.entries).Keys <= vTable.entries.Keys
        invariant vSum == RollSum1(s, ws, lo, k)
      {
        var roll := lo + k;
        var x := ExpectedValue1(s, Some(roll));
        RolledValue1(s, roll);
        SameRoll1(s, roll, lo, k);
        RollSum1Step(s, ws, lo, k);
        vSum := vSum + Scale(ws[k], x);
      }
    }

    /** The decision state of `Player1._expected_value`: with no legal move
        the turn passes to a fresh Player2 who must beat the tiles left, and
        otherwise the best remainder is taken. */
    method ChooseMove1(s: seq<int>, r: int) returns (v: real)
      requires Ready() && role == Rolling && IsTileSet(s) && s != [] && r != 0
      modifies vTable
      ensures Ready()
      ensures v == Decision1(s, r)
      ensures old(vTable.entries).Keys <= vTable.entries.Keys
      decreases |s|, 0
    {
      var actions := Lookup(subsetMemo, Key(s, r));
      assert actions == SplitsSumming(s, r);
      if actions == {} {
        v := Concede1(s, r);
        return;
      }
      ActionsShrink(s, r);
      var maxV := 0.0;
      var todo := actions;
      ghost var done: set<Split> := {};
      while todo != {}
        invariant todo <= actions && done <= actions
        invariant forall p :: p in actions && p !in todo ==> p in done
        invariant Ready()
        invariant old(vTable.entries).Keys <= vTable.entries.Keys
        invariant BestOf1(done, maxV)
        decreases todo
      {
        var act :| act in todo;
        var vNext := ExpectedValue1(act.remaining, None);
        BestOfStep1(done, act, maxV, vNext);
        maxV := if maxV < vNext then vNext else maxV;
        todo := todo - {act};
        done := done + {act};
      }
      assert done == actions;
      Decision1FromSet(s, r, maxV);
      v := maxV;
    }

    /** Player1 can close no tile: a Player2 on a full box must beat the
        sum of the tiles left open, and Player1 wins when it fails. */
    method Concede1(s: seq<int>, r: int) returns (v: real)
      requires Ready() && role == Rolling && IsTileSet(s) && s != [] && r != 0
      requires SplitsSumming(s, r) == {}
      modifies vTable
      ensures Ready()
      ensures v == Decision1(s, r)
      ensures old(vTable.entries).Keys <= vTable.entries.Keys
    {
      var totalSum := Sum(s);
      NoMoves(s, r);
      TileSetSum(s);
      var opponent := new Player(Target, Expect, Universe, totalSum, 0, subsetMemo, vTable);
      UniverseFacts();
      var p2v := opponent.ExpectedValue2(Universe, None);
      v := 1.0 - p2v;
    }

    /** `Player2._expected_value(S, r)`, against Player1's score `_prev_score`. */
    method ExpectedValue2(s: seq<int>, r: Option<int>) returns (v: real)
      requires Ready() && role == Target && IsTileSet(s)
      modifies vTable
      ensures Ready()
      ensures v == Value2(s, r, prevScore)
      ensures old(vTable.entries).Keys <= vTable.entries.Keys
      ensures StateKey(s, r, prevScore) in vTable.entries
      decreases |s|, if Pending(r) then 4 else 1
    {
      var key := StateKey(s, r, prevScore);
      if key in vTable.entries {
        return vTable.entries[key];
      }
      if Pending(r) {
        v := RollTurn2(s);
      } else {
        v := ChooseMove2(s, r.value);
      }
      vTable.entries := vTable.entries[key := v];
    }

    /** The stochastic state of `Player2._expected_value`: 1.0 once Player2
        is below Player1's score, otherwise `sum(v_arr)` of the dice-weighted
        decision values, over two dice from a tile sum of max(7, t) up and one
        die from min(0, t) to 6. */
    method RollTurn2(s: seq<int>) returns (v: real)
      requires Ready() && role == Target && IsTileSet(s)
      modifies vTable
      ensures Ready()
      ensures v == Stochastic2(s, prevScore)
      ensures old(vTable.entries).Keys <= vTable.entries.Keys
      decreases |s|, 3
    {
      var totalSum := Sum(s);
      var t := prevScore;
      if totalSum < t {
        return 1.0;
      }
      DiceTables();
      var vArr: seq<real> := [];
      if totalSum >= Max(7, t) {
        vArr := WeighRolls2(s, TwoDiceProb, 2);
      } else if Min(0, t) <= totalSum <= 6 {
        vArr := WeighRolls2(s, OneDieProb, 1);
      }
      v := Total(vArr);
    }

    /** The `for roll in range(...)` loop of a Player2 stochastic state:
        `v_arr` collects `p * _expected_value(S, roll)` for the rolls
        `lo, lo + 1, ...`, roll `lo + k` weighted by `ws[k]`. */
    method WeighRolls2(s: seq<int>, ws: seq<real>, lo: int) returns (vArr: seq<real>)
      requires Ready() && role == Target && IsTileSet(s)
      requires 1 <= lo && NonNegative(ws)
      modifies vTable
      ensures Ready()
      ensures |vArr| == |ws|
      ensures Total(vArr) == RollSum2(s, prevScore, ws, lo, |ws|)
      ensures old(vTable.entries).Keys <= vTable.entries.Keys
      decreases |s|, 2
    {
      vArr := [];
      for k := 0 to |ws|
        invariant Ready()
        invariant old(vTable.entries).Keys <= vTable.entries.Keys
        invariant |vArr| == k
        invariant Total(vArr) == RollSum2(s, prevScore, ws, lo, k)
      {
        var roll := lo + k;
        var x := ExpectedValue2(s, Some(roll));
        RolledValue2(s, roll, prevScore);
        SameRoll2(s, roll, lo, k, prevScore);
        RollSum2Step(s, prevScore, ws, lo, k);
        TotalAppend(vArr, Scale(ws[k], x));
        vArr := vArr + [Scale(ws[k], x)];
      }
    }

    /** The decision state of `Player2._expected_value`: with no legal move
        a tie is worth 0.5 and a higher score 0.0 to Player2, and otherwise
        the best remainder for Player2 is taken. */
    method ChooseMove2(s: seq<int>, r: int) returns (v: real)
      requires Ready() && role == Target && IsTileSet(s) && r != 0
      modifies vTable
      ensures Ready()
      ensures v == Decision2(s, r, prevScore)
      ensures old(vTable.entries).Keys <= vTable.entries.Keys
      decreases |s|, 0
    {
      var totalSum := Sum(s);
      var t := prevScore;
      var actions := Lookup(subsetMemo, Key(s, r));
      assert actions == SplitsSumming(s, r);
      if actions == {} {
        NoMoves(s, r);
        if totalSum == t {
          return 0.5;
        }
        if totalSum > t {
          return 0.0;
        }
      }
      ActionsShrink(s, r);
      var maxV := 0.0;
      var todo := actions;
      ghost var done: set<Split> := {};
      while todo != {}
        invariant todo <= actions && done <= actions
        invariant forall p :: p in actions && p !in todo ==> p in done
        invariant Ready()
        invariant old(vTable.entries).Keys <= vTable.entries.Keys
        invariant BestOf2(done, t, maxV)
        decreases todo
      {
        var act :| act in todo;
        var vNext := ExpectedValue2(act.remaining, None);
        BestOfStep2(done, act, t, maxV, vNext);
        maxV := if maxV < vNext then vNext else maxV;
        todo := todo - {act};
        done := done + {act};
      }
      assert done == actions;
      Decision2FromSet(s, r, t, maxV);
      v := maxV;
    }

    /** `self._expected_value(S, r)` dispatched on the player's class. */
    method ExpectedValue(s: seq<int>, r: Option<int>) returns (v: real)
      requires Ready() && IsTileSet(s)
      requires role == Rolling ==> Pending(r) || s != []
      modifies vTable
      ensures Ready()
      ensures v == (if role == Rolling then Value1(s, r) else Value2(s, r, prevScore))
      ensures 0.0 <= v <= 1.0
    {
      if role == Rolling {
        v := ExpectedValue1(s, r);
      } else {
        v := ExpectedValue2(s, r);
      }
    }

    /** `_optimal_move(r)`: the chosen side of a legal move for roll `r` whose
        remaining tiles are worth the most to this player, provided that
        value is positive. */
    method OptimalMove(r: int) returns (m: MoveOutcome)
      requires Ready() && IsTileSet(tiles)
      modifies vTable
      ensures Ready()
      ensures m == NoMove <==> SplitsSumming(tiles, r) == {}
      ensures m.Best? ==> exists p :: p in SplitsSumming(tiles, r) && p.chosen == m.chosen
                                      && 0.0 < RollValue(p.remaining)
                                      && forall q :: q in SplitsSumming(tiles, r) ==> RollValue(q.remaining) <= RollValue(p.remaining)
      ensures m.NoPositiveMove? ==> forall q :: q in SplitsSumming(tiles, r) ==> RollValue(q.remaining) == 0.0
    {
      var actions := Lookup(subsetMemo, Key(tiles, r));
      if actions == {} {
        return NoMove;
      }
      var maxV := 0.0;
      var bestMove: Option<seq<int>> := None;
      var todo := actions;
      forall p | p in actions ensures IsTileSet(p.remaining) {
        SplitPartitions(tiles, p);
      }
      while todo != {}
        invariant todo <= actions
        invariant Ready()
        invariant 0.0 <= maxV
        invariant forall q :: q in actions - todo ==> RollValue(q.remaining) <= maxV
        invariant bestMove.None? ==> maxV == 0.0
        invariant bestMove.Some? ==> exists p :: p in actions - todo && p.chosen == bestMove.value
                                                && RollValue(p.remaining) == maxV && 0.0 < maxV
        decreases todo
      {
        var act :| act in todo;
        todo := todo - {act};
        var currV := ExpectedValue(act.remaining, None);
        if currV > maxV {
          maxV := currV;
          bestMove := Some(act.chosen);
        }
      }
      if bestMove.None? {
        forall q | q in actions ensures RollValue(q.remaining) == 0.0 {
          assert 0.0 <= Value1(q.remaining, None) && 0.0 <= Value2(q.remaining, None, prevScore);
        }
        return NoPositiveMove;
      }
      m := Best(bestMove.value);
    }

    /** `play()`: the value of the start state or the best move for the roll. */
    method Play() returns (res: PlayResult)
      requires Ready() && IsTileSet(tiles)
      modifies vTable
      ensures Ready()
      ensures action == Expect ==> res == Expected(if role == Rolling then Value1(tiles, None) else Value2(tiles, None, prevScore))
      ensures action == Move ==> res.Moved? && (res.move == NoMove <==> SplitsSumming(tiles, rollSum) == {})
      ensures action == Move && res.move.Best? ==>
                exists p :: p in SplitsSumming(tiles, rollSum) && p.chosen == res.move.chosen
                            && 0.0 < RollValue(p.remaining)
                            && forall q :: q in SplitsSumming(tiles, rollSum) ==> RollValue(q.remaining) <= RollValue(p.remaining)
      ensures action == Move && res.move.NoPositiveMove? ==>
                forall q :: q in SplitsSumming(tiles, rollSum) ==> RollValue(q.remaining) == 0.0
    {
      if action == Expect {
        var v := ExpectedValue(tiles, None);
        res := Expected(v);
      } else {
        var m := OptimalMove(rollSum);
        res := Moved(m);
      }
    }
  }

  /** The value to the player who moves of the tiles `s` it leaves open:
      Player1's winning chance, or Player2's against Player1's score `t`. */
  ghost function RemainderValue(playerOne: bool, t: int, s: seq<int>): real
  {
    if playerOne then Value1(s, None) else Value2(s, None, t)
  }

  /** `Game.run` without its printing: index the universe, then let the
      chosen player play on a fresh value table. Player1 receives the
      fourth command-line value as its roll, Player2 the fifth. */
  method RunGame(playerOne: bool, action: Action, prevScore: int, rollSum: int, tiles: seq<int>)
    returns (res: PlayResult)
    requires IsTileSet(tiles)
    ensures action == Expect ==> res == Expected(if playerOne then Value1(tiles, None) else Value2(tiles, None, prevScore))
    ensures action == Move ==> res.Moved?
    ensures action == Move ==> (res.move == NoMove <==> SplitsSumming(tiles, if playerOne then prevScore else rollSum) == {})
    ensures action == Move && res.move.Best? ==>
              var roll := if playerOne then prevScore else rollSum;
              exists p :: p in SplitsSumming(tiles, roll) && p.chosen == res.move.chosen
                          && 0.0 < RemainderValue(playerOne, prevScore, p.remaining)
                          && forall q :: q in SplitsSumming(tiles, roll) ==>
                               RemainderValue(playerOne, prevScore, q.remaining) <= RemainderValue(playerOne, prevScore, p.remaining)
    ensures action == Move && res.move.NoPositiveMove? ==>
              var roll := if playerOne then prevScore else rollSum;
              forall q :: q in SplitsSumming(tiles, roll) ==> RemainderValue(playerOne, prevScore, q.remaining) == 0.0
  {
    var game := new Game();
    game.IndexUniverse();
    var table := new ValueTable(playerOne);
    var player: Player;
    if playerOne {
      player := new Player(Rolling, action, tiles, 0, prevScore, game.subsetMemo, table);
    } else {
      player := new Player(Target, action, tiles, prevScore, rollSum, game.subsetMemo, table);
    }
    res := player.Play();
  }

  /** Player1 with the single tile 9 open and a roll of 9 closes it: the
      only legal move takes the tile and shuts the box, which is worth 1.0. */
  method ShutLastTile() returns (res: PlayResult)
    ensures res == Moved(Best([9]))
  {
    AllOrNothing([9]);
    assert Sum([9]) == 9;
    res := RunGame(true, Move, 9, 0, [9]);
    assert RemainderValue(true, 9, []) == 1.0;
  }

  /** Player1 with the single tile 1 open and a roll of 5 has no move. */
  method NoMoveBelowRoll() returns (res: PlayResult)
    ensures res == Moved(NoMove)
  {
    var one := [1];
    var none := [Split([], [])];
    assert one[1..] == [] && Splits([]) == none;
    assert Splits(one) == Extend([1], [], none) + Extend([], [1], none);
    forall p ensures p !in SplitsSumming(one, 5) {
      if p in Splits(one) {
        assert p == Extend([1], [], none)[0] || p == Extend([], [1], none)[0];
        assert [1] + [] == one && Sum(one) == 1;
        assert Sum(p.chosen) <= 1;
      }
    }
    assert SplitsSumming(one, 5) == {};
    res := RunGame(true, Move, 5, 0, one);
  }
}
