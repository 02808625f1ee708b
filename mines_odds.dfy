/**
 * The Mines multiplier of app.py: the chance that `gems` distinct tiles of the
 * 5x5 board all miss `mines` mines, and the payout derived from it, shared by
 * the reveal and the cash-out actions.
 */
module MinesOdds {
  import opened Common

  const BoardSize: int := 25

  /** The house keeps 3% of the fair payout. */
  const HouseFactor: real := 0.97

  /** The chance that the tile revealed after `i` safe ones is safe too. */
  function Factor(mines: int, i: nat): real
    requires i < BoardSize
  {
    (BoardSize - mines - i) as real / (BoardSize - i) as real
  }

  lemma FactorBounds(mines: int, i: nat)
    requires 0 <= mines <= BoardSize && i < BoardSize
    ensures i < BoardSize - mines ==> 0.0 < Factor(mines, i) <= 1.0
    ensures i == BoardSize - mines ==> Factor(mines, i) == 0.0
    ensures i < BoardSize - mines - 1 ==> 0.0 <= Factor(mines + 1, i) <= Factor(mines, i)
  {
    var d := (BoardSize - i) as real;
    if i <= BoardSize - mines {
      RatioBounds((BoardSize - mines - i) as real, d);
    }
    if i < BoardSize - mines - 1 {
      RatioBounds((BoardSize - mines - 1 - i) as real, d);
      RatioMonotone((BoardSize - mines - 1 - i) as real, (BoardSize - mines - i) as real, d);
    }
  }

  lemma RatioBounds(n: real, d: real)
    requires 0.0 < d && 0.0 <= n <= d
    ensures 0.0 <= n / d <= 1.0
    ensures 0.0 < n ==> 0.0 < n / d
  {
    var q := n / d;
    assert q * d == n;
  }

  lemma RatioMonotone(n1: real, n2: real, d: real)
    requires 0.0 < d && n1 <= n2
    ensures n1 / d <= n2 / d
  {
    var q1, q2 := n1 / d, n2 / d;
    assert q1 * d == n1 && q2 * d == n2;
  }

  /** The factors of the multiplier loop, one per revealed gem. */
  function Factors(mines: int, gems: nat): (fs: seq<real>)
    requires gems <= BoardSize
    ensures |fs| == gems
    ensures forall i :: 0 <= i < gems ==> fs[i] == Factor(mines, i)
  {
    seq(gems, i requires 0 <= i < gems => Factor(mines, i))
  }

  /** The product of a sequence of reals, multiplied from the left. */
  function Product(fs: seq<real>): real {
    if fs == [] then 1.0 else Product(fs[..|fs| - 1]) * fs[|fs| - 1]
  }

  /**
   * `prod_{i < gems} (25 - mines - i) / (25 - i)`: the chance that `gems`
   * distinct tiles all miss the mines.
   */
  function Survival(mines: int, gems: nat): real
    requires gems <= BoardSize
  {
    Product(Factors(mines, gems))
  }

  /** One more gem multiplies the chance by one more factor. */
  lemma SurvivalStep(mines: int, gems: nat)
    requires gems < BoardSize
    ensures Survival(mines, gems + 1) == Survival(mines, gems) * Factor(mines, gems)
  {
    assert Factors(mines, gems + 1)[..gems] == Factors(mines, gems);
  }

  /** A product of factors in [0, 1] lies in [0, 1]; of factors in (0, 1], in (0, 1]. */
  lemma {:induction false} ProductInUnitRange(fs: seq<real>)
    requires forall i :: 0 <= i < |fs| ==> 0.0 <= fs[i] <= 1.0
    ensures 0.0 <= Product(fs) <= 1.0
    ensures (forall i :: 0 <= i < |fs| ==> 0.0 < fs[i]) ==> 0.0 < Product(fs)
  {
    if fs != [] {
      var init, last := fs[..|fs| - 1], fs[|fs| - 1];
      ProductInUnitRange(init);
      MulAtMostOne(Product(init), last);
      MulMonotone(0.0, Product(init), 0.0, last);
      if forall i :: 0 <= i < |fs| ==> 0.0 < fs[i] {
        assert forall i :: 0 <= i < |init| ==> 0.0 < init[i] by {
          forall i | 0 <= i < |init| ensures 0.0 < init[i] {
            assert init[i] == fs[i];
          }
        }
        MulPositive(Product(init), last);
      }
    }
  }

  /** A zero factor makes the product zero. */
  lemma {:induction false} ProductWithZero(fs: seq<real>, k: nat)
    requires k < |fs| && fs[k] == 0.0
    ensures Product(fs) == 0.0
  {
    if k < |fs| - 1 {
      ProductWithZero(fs[..|fs| - 1], k);
    }
  }

  /** Pointwise smaller non-negative factors give a smaller product. */
  lemma {:induction false} ProductMonotone(fs: seq<real>, gs: seq<real>)
    requires |fs| == |gs|
    requires forall i :: 0 <= i < |fs| ==> 0.0 <= fs[i] <= gs[i]
    ensures 0.0 <= Product(fs) <= Product(gs)
  {
    if fs != [] {
      var n := |fs| - 1;
      ProductMonotone(fs[..n], gs[..n]);
      MulMonotone(Product(fs[..n]), Product(gs[..n]), fs[n], gs[n]);
    }
  }

  /** While the revealed gems fit among the safe tiles the chance is positive and at most one. */
  lemma SurvivalInUnitRange(mines: int, gems: nat)
    requires 0 <= mines <= BoardSize && gems <= BoardSize - mines
    ensures 0.0 < Survival(mines, gems) <= 1.0
  {
    var fs := Factors(mines, gems);
    forall i | 0 <= i < gems ensures 0.0 < fs[i] <= 1.0 {
      FactorBounds(mines, i);
    }
    ProductInUnitRange(fs);
  }

  lemma SurvivalShrinks(mines: int, gems: nat)
    requires 0 <= mines <= BoardSize && 0 < gems <= BoardSize - mines
    ensures Survival(mines, gems) <= Survival(mines, gems - 1)
  {
    var fs := Factors(mines, gems);
    var n := gems - 1;
    assert fs[..n] == Factors(mines, n);
    SurvivalInUnitRange(mines, n);
    FactorBounds(mines, n);
    ProductDropLastShrinks(fs);
  }

  /** Multiplying by a last factor in [0, 1] cannot raise a non-negative product. */
  lemma ProductDropLastShrinks(fs: seq<real>)
    requires |fs| > 0 && 0.0 <= Product(fs[..|fs| - 1]) && 0.0 <= fs[|fs| - 1] <= 1.0
    ensures Product(fs) <= Product(fs[..|fs| - 1])
  {
    MulAtMostOne(Product(fs[..|fs| - 1]), fs[|fs| - 1]);
  }

  /**
   * While the revealed gems fit among the safe tiles the chance is positive, at
   * most one, and shrinks with every gem; once they exceed them it is zero.
   */
  lemma SurvivalBounds(mines: int, gems: nat)
    requires 0 <= mines <= BoardSize && gems <= BoardSize
    ensures gems <= BoardSize - mines ==> 0.0 < Survival(mines, gems) <= 1.0
    ensures gems > BoardSize - mines ==> Survival(mines, gems) == 0.0
    ensures 0 < gems <= BoardSize - mines ==> Survival(mines, gems) <= Survival(mines, gems - 1)
  {
    if gems <= BoardSize - mines {
      SurvivalInUnitRange(mines, gems);
      if gems > 0 {
        SurvivalShrinks(mines, gems);
      }
    } else {
      FactorBounds(mines, BoardSize - mines);
      ProductWithZero(Factors(mines, gems), BoardSize - mines);
    }
  }

  lemma MulAtMostOne(a: real, b: real)
    requires 0.0 <= a && 0.0 <= b <= 1.0
    ensures a * b <= a
  {
    assert a * (1.0 - b) >= 0.0;
  }

  lemma MulPositive(a: real, b: real)
    requires 0.0 < a && 0.0 < b
    ensures 0.0 < a * b
  {
  }

  /** More mines never make surviving the same number of reveals likelier. */
  lemma SurvivalAntitoneInMines(mines: int, gems: nat)
    requires 0 <= mines < BoardSize && gems <= BoardSize - (mines + 1)
    ensures Survival(mines + 1, gems) <= Survival(mines, gems)
  {
    var fs, gs := Factors(mines + 1, gems), Factors(mines, gems);
    forall i | 0 <= i < gems ensures 0.0 <= fs[i] <= gs[i] {
      FactorBounds(mines, i);
    }
    ProductMonotone(fs, gs);
  }

  lemma MulMonotone(a: real, b: real, c: real, d: real)
    requires 0.0 <= a <= b && 0.0 <= c <= d
    ensures a * c <= b * d
  {
    assert a * c <= b * c;
    assert b * c <= b * d;
  }

  /** The payout the reveal and cash-out actions compute: `1 / (survival * 0.97)`. */
  function MinesPayoutAsWritten(mines: int, gems: nat): real
    requires 0 <= mines <= BoardSize && gems <= BoardSize - mines
  {
    SurvivalBounds(mines, gems);
    1.0 / (Survival(mines, gems) * HouseFactor)
  }

  /**
   * As written, the 0.97 divides instead of multiplying: whatever the number of
   * gems, the expected return `survival * payout` is 1/0.97, above the stake,
   * and cashing out before any reveal pays about 1.03 times the stake.
   */
  lemma AsWrittenFavoursPlayer(mines: int, gems: nat)
    requires 0 <= mines <= BoardSize && gems <= BoardSize - mines
    ensures Survival(mines, gems) > 0.0
    ensures Survival(mines, gems) * MinesPayoutAsWritten(mines, gems) == 1.0 / HouseFactor > 1.0
    ensures MinesPayoutAsWritten(mines, 0) > 1.0
  {
    SurvivalBounds(mines, gems);
    var s := Survival(mines, gems);
    assert s * (1.0 / (s * HouseFactor)) == 1.0 / HouseFactor;
  }

  /** The fair payout for the survival chance, less the house's 3%. */
  function MinesPayout(mines: int, gems: nat): real
    requires 0 <= mines <= BoardSize && gems <= BoardSize - mines
  {
    SurvivalBounds(mines, gems);
    HouseFactor / Survival(mines, gems)
  }

  /** The corrected payout returns 97% of the stake in expectation, for every cash-out point. */
  lemma MinesExpectedReturn(mines: int, gems: nat)
    requires 0 <= mines <= BoardSize && gems <= BoardSize - mines
    ensures Survival(mines, gems) * MinesPayout(mines, gems) == HouseFactor
  {
    SurvivalBounds(mines, gems);
    DivCancel(HouseFactor, Survival(mines, gems));
  }

  /**
   * The payout the routes compute is the corrected one divided by 0.97 twice,
   * so it always pays more than the corrected one.
   */
  lemma AsWrittenOverpays(mines: int, gems: nat)
    requires 0 <= mines <= BoardSize && gems <= BoardSize - mines
    ensures MinesPayoutAsWritten(mines, gems) * (HouseFactor * HouseFactor) == MinesPayout(mines, gems)
    ensures MinesPayout(mines, gems) < MinesPayoutAsWritten(mines, gems)
  {
    SurvivalBounds(mines, gems);
    var s := Survival(mines, gems);
    var a, b := MinesPayoutAsWritten(mines, gems), MinesPayout(mines, gems);
    assert a * (s * HouseFactor) == 1.0;
    assert b * s == HouseFactor;
    assert (a * (HouseFactor * HouseFactor)) * s == HouseFactor * (a * (s * HouseFactor));
    assert (a * (HouseFactor * HouseFactor)) * s == b * s;
    assert 0.0 < b;
    assert a * (HouseFactor * HouseFactor) < a;
  }

  lemma DivCancel(a: real, s: real)
    requires s != 0.0
    ensures s * (a / s) == a
  {
  }

  /** Cashing out before the first reveal returns less than the stake. */
  lemma MinesPayoutBeforeReveal(mines: int)
    requires 0 <= mines <= BoardSize
    ensures MinesPayout(mines, 0) == HouseFactor < 1.0
  {
    assert Factors(mines, 0) == [];
  }

  /** Every further gem raises the payout, or keeps it. */
  lemma MinesPayoutGrowsWithGems(mines: int, gems: nat)
    requires 0 <= mines <= BoardSize && 0 < gems <= BoardSize - mines
    ensures MinesPayout(mines, gems - 1) <= MinesPayout(mines, gems)
  {
    SurvivalBounds(mines, gems);
    DivAntitone(Survival(mines, gems), Survival(mines, gems - 1));
  }

  /** The payout the routes compute also never falls as gems are found. */
  lemma AsWrittenGrowsWithGems(mines: int, gems: nat)
    requires 0 <= mines <= BoardSize && 0 < gems <= BoardSize - mines
    ensures MinesPayoutAsWritten(mines, gems - 1) <= MinesPayoutAsWritten(mines, gems)
  {
    MinesPayoutGrowsWithGems(mines, gems);
    AsWrittenOverpays(mines, gems - 1);
    AsWrittenOverpays(mines, gems);
  }

  /** For the same number of gems, one more mine pays at least as much. */
  lemma MinesPayoutGrowsWithMines(mines: int, gems: nat)
    requires 0 <= mines < BoardSize && gems <= BoardSize - (mines + 1)
    ensures MinesPayout(mines, gems) <= MinesPayout(mines + 1, gems)
  {
    SurvivalAntitoneInMines(mines, gems);
    SurvivalBounds(mines + 1, gems);
    DivAntitone(Survival(mines + 1, gems), Survival(mines, gems));
  }

  /** The payout the routes compute also never falls with more mines. */
  lemma AsWrittenGrowsWithMines(mines: int, gems: nat)
    requires 0 <= mines < BoardSize && gems <= BoardSize - (mines + 1)
    ensures MinesPayoutAsWritten(mines, gems) <= MinesPayoutAsWritten(mines + 1, gems)
  {
    MinesPayoutGrowsWithMines(mines, gems);
    AsWrittenOverpays(mines, gems);
    AsWrittenOverpays(mines + 1, gems);
  }

  lemma DivAntitone(small: real, large: real)
    requires 0.0 < small <= large
    ensures HouseFactor / large <= HouseFactor / small
  {
    var a, b := HouseFactor / large, HouseFactor / small;
    assert a * large == HouseFactor && b * small == HouseFactor;
  }

  /** Python's ZeroDivisionError: more gems than the board has safe tiles. */
  datatype OddsError = ZeroDivision

  /**
   * The multiplier loop of the reveal and cash-out actions.  The positions the
   * player sends are not checked against the board, so the gem count can pass
   * the number of safe tiles; the division then fails.
   */
  method MinesMultiplier(mines: int, gems: nat) returns (r: Result<real, OddsError>)
    requires 0 <= mines <= BoardSize
    ensures r.Err? <==> gems > BoardSize - mines
    ensures r.Ok? ==> gems <= BoardSize - mines && r.value == MinesPayoutAsWritten(mines, gems)
  {
    var p := 1.0;
    for i := 0 to gems
      invariant i <= BoardSize && p == Survival(mines, i)
    {
      if BoardSize - i == 0 {
        return Err(ZeroDivision);
      }
      SurvivalStep(mines, i);
      p := p * Factor(mines, i);
    }
    SurvivalBounds(mines, gems);
    if p == 0.0 {
      return Err(ZeroDivision);
    }
    r := Ok(1.0 / (p * HouseFactor));
  }
}
