/**
 * The trip-profit derivation of the freight calculator: from the old diesel
 * budget, the old and new freight rate per sack and the number of sacks it
 * derives twelve statistics comparing the trip before and after the diesel
 * price adjustment.  Everything is over `real`; the source runs on IEEE
 * doubles, whose rounding, overflow and underflow are not modelled.
 */
module FreightStats {

  /** Official diesel price, in bolivianos per litre, before the adjustment. */
  const DIESEL_OLD: real := 3.72
  /** Official diesel price, in bolivianos per litre, after the adjustment. */
  const DIESEL_NEW: real := 9.80

  /** The four user-editable inputs, already parsed into numbers. */
  datatype Inputs = Inputs(
    oldDieselBudget: real,  // bolivianos spent on diesel per trip before
    oldFleteUnit: real,     // freight rate per sack before
    newFleteUnit: real,     // freight rate per sack now
    loadUnits: real         // number of sacks carried
  )

  /** The values the screen starts with. */
  const DEFAULT_INPUTS: Inputs := Inputs(410.0, 11.00, 14.74, 400.0)

  /** The snapshot of derived statistics, one field per value the screen shows. */
  datatype Stats = Stats(
    liters: real,
    newDieselCost: real,
    fuelIncreaseBs: real,
    fuelIncreasePercent: real,
    revenueOld: real,
    revenueNew: real,
    profitOld: real,
    profitNew: real,
    netDifference: real,
    profitChangePercent: real,
    breakEvenFlete: real,
    fleteIncreasePercent: real
  )

  /**
   * Percent change from `before` to `now`, guarded against a zero `before`
   * exactly as the derivation guards both of its relative changes: a zero
   * base gives 0 rather than a division by zero.
   */
  function PercentChange(now: real, before: real): (r: real)
    ensures before == 0.0 ==> r == 0.0
    ensures before != 0.0 ==> r * before == (now - before) * 100.0
    ensures before > 0.0 ==> (r >= 0.0 <==> now >= before)
  {
    if before != 0.0 then (now / before - 1.0) * 100.0 else 0.0
  }

  /**
   * The derivation, one binding per statistic in the source's order, with
   * its guards as written: `profitOld != 0`, `loadUnits > 0` (so a negative
   * load also yields a zero break-even rate) and `oldFleteUnit != 0`.  The
   * only unguarded divisor is the constant DIESEL_OLD, so no division here
   * is by zero.
   */
  function ComputeStats(i: Inputs): (s: Stats)
    // the litres bought give back the old budget at the old price
    ensures s.liters * DIESEL_OLD == i.oldDieselBudget
    ensures s.newDieselCost * DIESEL_OLD == i.oldDieselBudget * DIESEL_NEW
    // the fuel increase is the budget scaled by the price rise, so it is
    // non-negative exactly when the budget is
    ensures s.fuelIncreaseBs * DIESEL_OLD == i.oldDieselBudget * (DIESEL_NEW - DIESEL_OLD)
    ensures s.fuelIncreaseBs >= 0.0 <==> i.oldDieselBudget >= 0.0
    // the price rise in percent depends on no input: 608/3.72 %
    ensures s.fuelIncreasePercent == 15200.0 / 93.0
    // the net difference is the change in revenue minus the fuel increase
    ensures s.revenueNew - s.revenueOld == i.loadUnits * (i.newFleteUnit - i.oldFleteUnit)
    ensures s.netDifference == i.loadUnits * (i.newFleteUnit - i.oldFleteUnit) - s.fuelIncreaseBs
    // profit change relative to the old profit, zero when there was none
    ensures s.profitOld == 0.0 ==> s.profitChangePercent == 0.0
    ensures s.profitOld != 0.0 ==> s.profitChangePercent * s.profitOld == s.netDifference * 100.0
    // the break-even rate pays the new diesel cost and leaves the old profit
    ensures i.loadUnits <= 0.0 ==> s.breakEvenFlete == 0.0
    ensures i.loadUnits > 0.0 ==> s.breakEvenFlete * i.loadUnits - s.newDieselCost == s.profitOld
    // the applied rate increase, zero when there was no old rate
    ensures i.oldFleteUnit == 0.0 ==> s.fleteIncreasePercent == 0.0
    ensures i.oldFleteUnit != 0.0 ==>
      s.fleteIncreasePercent * i.oldFleteUnit == (i.newFleteUnit - i.oldFleteUnit) * 100.0
  {
    var liters := i.oldDieselBudget / DIESEL_OLD;
    var newDieselCost := liters * DIESEL_NEW;
    var fuelIncreaseBs := newDieselCost - i.oldDieselBudget;
    var fuelIncreasePercent := (DIESEL_NEW / DIESEL_OLD - 1.0) * 100.0;

    var revenueOld := i.loadUnits * i.oldFleteUnit;
    var revenueNew := i.loadUnits * i.newFleteUnit;

    var profitOld := revenueOld - i.oldDieselBudget;
    var profitNew := revenueNew - newDieselCost;

    var netDifference := profitNew - profitOld;
    var profitChangePercent := PercentChange(profitNew, profitOld);

    var breakEvenFlete := if i.loadUnits > 0.0 then (profitOld + newDieselCost) / i.loadUnits else 0.0;

    var fleteIncreasePercent := PercentChange(i.newFleteUnit, i.oldFleteUnit);

    Stats(liters, newDieselCost, fuelIncreaseBs, fuelIncreasePercent,
          revenueOld, revenueNew, profitOld, profitNew,
          netDifference, profitChangePercent, breakEvenFlete, fleteIncreasePercent)
  }

  /** The same inputs with the new freight rate replaced. */
  function WithNewRate(i: Inputs, rate: real): (j: Inputs)
    ensures j.newFleteUnit == rate
    ensures j.oldDieselBudget == i.oldDieselBudget && j.oldFleteUnit == i.oldFleteUnit
    ensures j.loadUnits == i.loadUnits
  {
    i.(newFleteUnit := rate)
  }

  /**
   * The break-even rate depends only on the situation before the price
   * change: whatever new rate is typed in, it does not move.
   */
  lemma BreakEvenIgnoresNewRate(i: Inputs, rate: real)
    ensures ComputeStats(WithNewRate(i, rate)).breakEvenFlete == ComputeStats(i).breakEvenFlete
    ensures ComputeStats(WithNewRate(i, rate)).profitOld == ComputeStats(i).profitOld
  {
    var s, t := ComputeStats(i), ComputeStats(WithNewRate(i, rate));
    assert t.newDieselCost == s.newDieselCost;
    assert t.profitOld == s.profitOld;
  }

  /**
   * With a positive load the net difference is the load times the gap
   * between the new rate and the break-even rate.
   */
  lemma NetDifferenceIsRateGap(i: Inputs)
    requires i.loadUnits > 0.0
    ensures ComputeStats(i).netDifference
         == i.loadUnits * (i.newFleteUnit - ComputeStats(i).breakEvenFlete)
  {
    var s := ComputeStats(i);
    RateGap(i.loadUnits, i.newFleteUnit, s.breakEvenFlete, s.profitOld, s.newDieselCost, s.profitNew);
  }

  /** The algebra behind NetDifferenceIsRateGap, on plain reals. */
  lemma RateGap(load: real, rate: real, breakEven: real, profitOld: real, cost: real, profitNew: real)
    requires breakEven * load - cost == profitOld
    requires profitNew == load * rate - cost
    ensures profitNew - profitOld == load * (rate - breakEven)
  {
    calc {
      load * (rate - breakEven);
      load * rate - breakEven * load;
      load * rate - (profitOld + cost);
      profitNew - profitOld;
    }
  }

  /**
   * With a positive load the net difference has the sign of the gap between
   * the new rate and the break-even rate.
   */
  lemma NetDifferenceSign(i: Inputs)
    requires i.loadUnits > 0.0
    ensures ComputeStats(i).netDifference >= 0.0 <==> i.newFleteUnit >= ComputeStats(i).breakEvenFlete
    ensures ComputeStats(i).netDifference > 0.0 <==> i.newFleteUnit > ComputeStats(i).breakEvenFlete
  {
    var s := ComputeStats(i);
    var gap := i.newFleteUnit - s.breakEvenFlete;
    NetDifferenceIsRateGap(i);
    ProductSign(i.loadUnits, gap);
    assert s.netDifference == i.loadUnits * gap;
  }

  lemma ProductSign(a: real, b: real)
    requires a > 0.0
    ensures a * b >= 0.0 <==> b >= 0.0
    ensures a * b > 0.0 <==> b > 0.0
  {
    if b < 0.0 {
      assert a * b < 0.0;
    }
  }

  /** The break-even rate is the only new rate with a zero net difference. */
  lemma BreakEvenIsUnique(i: Inputs, rate: real)
    requires i.loadUnits > 0.0
    ensures ComputeStats(WithNewRate(i, rate)).netDifference == 0.0
        <==> rate == ComputeStats(i).breakEvenFlete
  {
    BreakEvenIgnoresNewRate(i, rate);
    NetDifferenceSign(WithNewRate(i, rate));
  }

  /**
   * Charging the break-even rate keeps the previous profit: recomputing with
   * it as the new rate gives a zero net difference.
   */
  lemma BreakEvenRestoresProfit(i: Inputs)
    requires i.loadUnits > 0.0
    ensures ComputeStats(WithNewRate(i, ComputeStats(i).breakEvenFlete)).profitNew
         == ComputeStats(i).profitOld
    ensures ComputeStats(WithNewRate(i, ComputeStats(i).breakEvenFlete)).netDifference == 0.0
  {
    var be := ComputeStats(i).breakEvenFlete;
    BreakEvenIsUnique(i, be);
    BreakEvenIgnoresNewRate(i, be);
  }

  /**
   * The scenario the screen opens with: 410 Bs of diesel, 11.00 Bs per sack
   * before, 14.74 Bs now, 400 sacks.
   */
  lemma DefaultScenario()
    ensures ComputeStats(DEFAULT_INPUTS).liters == 10250.0 / 93.0
    ensures ComputeStats(DEFAULT_INPUTS).newDieselCost == 100450.0 / 93.0
    ensures ComputeStats(DEFAULT_INPUTS).revenueOld == 4400.0
    ensures ComputeStats(DEFAULT_INPUTS).revenueNew == 5896.0
    ensures ComputeStats(DEFAULT_INPUTS).profitOld == 3990.0
    ensures ComputeStats(DEFAULT_INPUTS).netDifference == 76808.0 / 93.0
    ensures ComputeStats(DEFAULT_INPUTS).netDifference > 0.0
  {
    var s := ComputeStats(DEFAULT_INPUTS);
    assert s.liters * 3.72 == 410.0;
    assert s.newDieselCost * 3.72 == 410.0 * 9.80;
  }
}
