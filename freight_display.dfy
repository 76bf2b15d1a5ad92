/**
 * What the result cards and the result banner decide from the derived
 * statistics: the gain or loss branch, chosen on the sign of the net
 * difference, and the percentage the banner prints beside it.  Colours,
 * layout and number formatting are not modelled.
 */
module FreightDisplay {
  import opened FreightStats

  /** The branch every sign-dependent part of the screen takes. */
  datatype Verdict = Gain | Loss

  /**
   * The card border, the profit colour and the banner all pick the gain
   * branch on `netDifference >= 0`, so a zero difference counts as a gain.
   */
  function VerdictOf(s: Stats): (v: Verdict)
    ensures s.netDifference == 0.0 ==> v == Gain
    ensures v == Loss <==> s.netDifference < 0.0
  {
    if s.netDifference >= 0.0 then Gain else Loss
  }

  /** `Math.abs`, as the loss banner applies it to the percentage. */
  function Abs(x: real): (r: real)
    ensures r >= 0.0 && (r == x || r == -x)
  {
    if x >= 0.0 then x else -x
  }

  /**
   * With a positive load the gain branch is shown exactly when the new rate
   * reaches the break-even rate.
   */
  lemma GainIffRateReachesBreakEven(i: Inputs)
    requires i.loadUnits > 0.0
    ensures VerdictOf(ComputeStats(i)) == Gain <==> i.newFleteUnit >= ComputeStats(i).breakEvenFlete
  {
    NetDifferenceSign(i);
  }

  /** Charging exactly the break-even rate is shown as a gain (of zero). */
  lemma BreakEvenShowsGain(i: Inputs)
    requires i.loadUnits > 0.0
    ensures VerdictOf(ComputeStats(WithNewRate(i, ComputeStats(i).breakEvenFlete))) == Gain
  {
    BreakEvenRestoresProfit(i);
  }

  /** The screen opens on the gain branch. */
  lemma DefaultShowsGain()
    ensures VerdictOf(ComputeStats(DEFAULT_INPUTS)) == Gain
  {
    DefaultScenario();
  }

  /**
   * Keeping the old rate of 11 Bs per sack over 100 sacks while the 500 Bs
   * diesel budget is repriced is shown as a loss.
   */
  lemma UnchangedRateShowsLoss()
    ensures VerdictOf(ComputeStats(Inputs(500.0, 11.0, 11.0, 100.0))) == Loss
  {
    var s := ComputeStats(Inputs(500.0, 11.0, 11.0, 100.0));
    assert s.fuelIncreaseBs * DIESEL_OLD == 500.0 * (DIESEL_NEW - DIESEL_OLD);
  }

  /**
   * The banner's percentage as written: the gain text prints
   * `profitChangePercent` after a literal "+", the loss text prints its
   * absolute value.
   */
  function BannerPercentAsWritten(s: Stats): (r: real)
    ensures VerdictOf(s) == Loss ==> r >= 0.0
  {
    if VerdictOf(s) == Gain then s.profitChangePercent else Abs(s.profitChangePercent)
  }

  /**
   * On a trip that lost money before (`profitOld < 0`), any improvement
   * gives a negative `profitChangePercent`, so the gain banner prints a "+"
   * followed by a negative number.  This happens exactly then.
   */
  lemma GainBannerNegativeIff(i: Inputs)
    ensures VerdictOf(ComputeStats(i)) == Gain && BannerPercentAsWritten(ComputeStats(i)) < 0.0
        <==> ComputeStats(i).netDifference > 0.0 && ComputeStats(i).profitOld < 0.0
  {
    var s := ComputeStats(i);
    if s.profitOld != 0.0 {
      QuotientSign(s.profitChangePercent, s.profitOld, s.netDifference * 100.0);
    }
  }

  lemma QuotientSign(q: real, d: real, n: real)
    requires d != 0.0 && q * d == n
    ensures q < 0.0 <==> (n > 0.0 && d < 0.0) || (n < 0.0 && d > 0.0)
  {
    if d > 0.0 {
      if q < 0.0 { assert q * d < 0.0; }
      if q > 0.0 { assert q * d > 0.0; }
    } else {
      if q < 0.0 { assert q * d > 0.0; }
      if q > 0.0 { assert q * d < 0.0; }
    }
  }

  /**
   * A concrete trip showing it: 410 Bs of diesel, 11 Bs per sack before and
   * 200 now, 10 sacks.  The old profit is -300 Bs, the new one is positive,
   * and the gain banner would read "+-406.6%".
   */
  lemma GainBannerNegativeExample()
    ensures VerdictOf(ComputeStats(Inputs(410.0, 11.0, 200.0, 10.0))) == Gain
    ensures BannerPercentAsWritten(ComputeStats(Inputs(410.0, 11.0, 200.0, 10.0))) < 0.0
  {
    var i := Inputs(410.0, 11.0, 200.0, 10.0);
    var s := ComputeStats(i);
    assert s.profitOld == -300.0;
    assert s.newDieselCost * DIESEL_OLD == 410.0 * DIESEL_NEW;
    assert s.netDifference > 0.0;
    GainBannerNegativeIff(i);
  }

  /**
   * The banner's percentage as intended: the magnitude of the relative
   * profit change in both branches, since each branch supplies its own
   * wording ("+" for a gain, "loss" for a loss).
   */
  function BannerPercent(s: Stats): (r: real)
    ensures r >= 0.0
    ensures VerdictOf(s) == Loss ==> r == BannerPercentAsWritten(s)
  {
    Abs(s.profitChangePercent)
  }

  /**
   * The corrected banner percentage is the size of the net difference
   * relative to the size of the old profit, and zero when there was none.
   */
  lemma BannerPercentIsRelativeChange(i: Inputs)
    ensures ComputeStats(i).profitOld == 0.0 ==> BannerPercent(ComputeStats(i)) == 0.0
    ensures ComputeStats(i).profitOld != 0.0 ==>
      BannerPercent(ComputeStats(i)) * Abs(ComputeStats(i).profitOld)
        == Abs(ComputeStats(i).netDifference) * 100.0
  {
    BannerPercentOfProportion(ComputeStats(i));
  }

  /** BannerPercentIsRelativeChange for any statistics whose percent is proportional. */
  lemma BannerPercentOfProportion(s: Stats)
    requires s.profitOld == 0.0 ==> s.profitChangePercent == 0.0
    requires s.profitOld != 0.0 ==> s.profitChangePercent * s.profitOld == s.netDifference * 100.0
    ensures s.profitOld == 0.0 ==> BannerPercent(s) == 0.0
    ensures s.profitOld != 0.0 ==> BannerPercent(s) * Abs(s.profitOld) == Abs(s.netDifference) * 100.0
  {
    if s.profitOld != 0.0 {
      AbsMul(s.profitChangePercent, s.profitOld);
      AbsMul(s.netDifference, 100.0);
    }
  }

  lemma AbsMul(a: real, b: real)
    ensures Abs(a * b) == Abs(a) * Abs(b)
  {
    if a < 0.0 && b >= 0.0 { assert a * b <= 0.0; }
    if a >= 0.0 && b < 0.0 { assert a * b <= 0.0; }
    if a < 0.0 && b < 0.0 { assert a * b > 0.0; }
  }

  /**
   * The corrected banner agrees with the as-written one everywhere except
   * on the trips of GainBannerNegativeIff.
   */
  lemma BannerPercentMatchesOtherwise(i: Inputs)
    requires !(ComputeStats(i).netDifference > 0.0 && ComputeStats(i).profitOld < 0.0)
    ensures BannerPercent(ComputeStats(i)) == BannerPercentAsWritten(ComputeStats(i))
  {
    GainBannerNegativeIff(i);
  }
}
