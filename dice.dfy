/** The dice distributions of `Player.__init__`, as exact rationals. */
module Dice {

  /** `_two_dice_prob`: the weight of roll `r` (2..12) is `TwoDiceProb[r - 2]`. */
  const TwoDiceProb: seq<real> := [1.0 / 36.0, 2.0 / 36.0, 3.0 / 36.0, 4.0 / 36.0, 5.0 / 36.0, 6.0 / 36.0,
                                   5.0 / 36.0, 4.0 / 36.0, 3.0 / 36.0, 2.0 / 36.0, 1.0 / 36.0]

  /** The one-die weight `1./6` of each roll 1..6: the weight of roll `r` is `OneDieProb[r - 1]`. */
  const OneDieProb: seq<real> := [1.0 / 6.0, 1.0 / 6.0, 1.0 / 6.0, 1.0 / 6.0, 1.0 / 6.0, 1.0 / 6.0]

  /** Sum of the first `n` weights of a table, accumulated left to right. */
  function Partial(ws: seq<real>, n: nat): real
    requires n <= |ws|
  {
    if n == 0 then 0.0 else Partial(ws, n - 1) + ws[n - 1]
  }

  function Total(ws: seq<real>): real
  {
    Partial(ws, |ws|)
  }

  /** Appending to a table leaves the sums of its first `n` weights alone. */
  lemma {:induction false} PartialPrefix(a: seq<real>, b: seq<real>, n: nat)
    requires n <= |a|
    ensures Partial(a + b, n) == Partial(a, n)
  {
    if n > 0 {
      PartialPrefix(a, b, n - 1);
    }
  }

  /** `sum(v_arr)` extended by one more term. */
  lemma TotalAppend(a: seq<real>, x: real)
    ensures Total(a + [x]) == Total(a) + x
  {
    PartialPrefix(a, [x], |a|);
  }

  predicate NonNegative(ws: seq<real>)
  {
    forall k :: 0 <= k < |ws| ==> 0.0 <= ws[k]
  }

  function Abs(x: int): nat
  {
    if x < 0 then -x else x
  }

  /** Both tables are probability distributions (non-negative, summing to 1),
      and the two-dice table is the triangular law of the sum of two fair
      dice: roll r = k + 2 has (6 - |r - 7|) of the 36 outcomes. */
  lemma DiceTables()
    ensures |TwoDiceProb| == 11 && |OneDieProb| == 6
    ensures NonNegative(TwoDiceProb) && NonNegative(OneDieProb)
    ensures Total(TwoDiceProb) == 1.0 && Total(OneDieProb) == 1.0
    ensures forall k :: 0 <= k < |TwoDiceProb| ==> TwoDiceProb[k] == (6 - Abs(k + 2 - 7)) as real / 36.0
  {
    var two := TwoDiceProb;
    assert Partial(two, 3) == 6.0 / 36.0;
    assert Partial(two, 6) == 21.0 / 36.0;
    assert Partial(two, 9) == 33.0 / 36.0;
    var one := OneDieProb;
    assert Partial(one, 3) == 3.0 / 6.0;
  }
}
