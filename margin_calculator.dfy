/** The margin decision engine of services/RC_SKU_margin_history/margin_calculator.py.
    Decimal margins are modelled as exact reals. */
module MarginCalculator {

  /** The constants dictionary handed to the engine. */
  datatype MarginConstants = MarginConstants(
    maxCapPercent: real,
    minLevelFlag: bool,
    minLevelPercent: real,
    fixationFlag: bool,
    fixationPercent: real)

  /** The module-level MARGIN_CONSTANTS bundle. */
  const DefaultConstants := MarginConstants(0.25, true, -0.10, false, 0.15)

  /** The base adjustment ("formula without limit"): one hundredth of the gap
      between the fact and the plan is subtracted from or added to the base
      margin, and only the upward result is capped. */
  function FormulaWithoutLimit(plannedOrders: int, actualOrders: int, baseMarginPercent: real, maxCapPercent: real): (f: real)
    ensures actualOrders < plannedOrders ==> f == baseMarginPercent - (plannedOrders - actualOrders) as real / 100.0
    ensures actualOrders < plannedOrders ==> f < baseMarginPercent
    ensures actualOrders == plannedOrders ==> f == baseMarginPercent
    ensures actualOrders > plannedOrders ==> f <= maxCapPercent && f <= baseMarginPercent + (actualOrders - plannedOrders) as real / 100.0
    ensures actualOrders > plannedOrders ==> f == maxCapPercent || f == baseMarginPercent + (actualOrders - plannedOrders) as real / 100.0
  {
    if actualOrders < plannedOrders then
      baseMarginPercent - (plannedOrders - actualOrders) as real / 100.0
    else if actualOrders > plannedOrders then
      var potential := baseMarginPercent + (actualOrders - plannedOrders) as real / 100.0;
      if potential <= maxCapPercent then potential else maxCapPercent
    else
      baseMarginPercent
  }

  /** Holds when neither the stock rule nor fixation decides the result. */
  predicate FormulaApplies(stock: int, constants: MarginConstants) {
    stock != 0 && !constants.fixationFlag
  }

  /** The priority chain: stock exhausted, then fixation, then the base
      adjustment with the optional floor. */
  function CalculateTargetMargin(plannedOrdersPerSku: int, actualOrders: int, stock: int, baseMarginPercent: real, constants: MarginConstants): (r: real)
    ensures stock == 0 ==> r == constants.maxCapPercent
    ensures stock != 0 && constants.fixationFlag ==> r == constants.fixationPercent
    ensures stock != 0 && !constants.fixationFlag && constants.minLevelFlag ==> r >= constants.minLevelPercent
    ensures FormulaApplies(stock, constants) ==>
      var f := FormulaWithoutLimit(plannedOrdersPerSku, actualOrders, baseMarginPercent, constants.maxCapPercent);
      && (!constants.minLevelFlag || f >= constants.minLevelPercent ==> r == f)
      && (constants.minLevelFlag && f < constants.minLevelPercent ==> r == constants.minLevelPercent)
  {
    if stock == 0 then
      constants.maxCapPercent
    else if constants.fixationFlag then
      constants.fixationPercent
    else
      var f := FormulaWithoutLimit(plannedOrdersPerSku, actualOrders, baseMarginPercent, constants.maxCapPercent);
      if constants.minLevelFlag && f < constants.minLevelPercent then constants.minLevelPercent else f
  }

  /** Fewer orders than planned lower the margin by the gap over 100 when the
      floor does not fire. */
  lemma DownwardAdjustment(planned: int, actual: int, stock: int, base: real, constants: MarginConstants)
    requires FormulaApplies(stock, constants) && actual < planned
    requires !constants.minLevelFlag || base - (planned - actual) as real / 100.0 >= constants.minLevelPercent
    ensures CalculateTargetMargin(planned, actual, stock, base, constants) == base - (planned - actual) as real / 100.0
  {
  }

  /** More orders than planned never push the result above the cap unless the
      floor itself sits above it. */
  lemma UpwardAdjustmentCapped(planned: int, actual: int, stock: int, base: real, constants: MarginConstants)
    requires FormulaApplies(stock, constants) && actual > planned
    ensures var r := CalculateTargetMargin(planned, actual, stock, base, constants);
      r <= constants.maxCapPercent || (constants.minLevelFlag && r == constants.minLevelPercent)
  {
  }

  /** Meeting the plan exactly leaves the base margin unchanged unless the floor fires. */
  lemma PlanMetKeepsBase(planned: int, stock: int, base: real, constants: MarginConstants)
    requires FormulaApplies(stock, constants)
    requires !constants.minLevelFlag || base >= constants.minLevelPercent
    ensures CalculateTargetMargin(planned, planned, stock, base, constants) == base
  {
  }

  /** With the base within the cap, more actual orders never lower the result. */
  lemma MonotoneInActualOrders(planned: int, actual1: int, actual2: int, stock: int, base: real, constants: MarginConstants)
    requires FormulaApplies(stock, constants)
    requires base <= constants.maxCapPercent
    requires actual1 <= actual2
    ensures CalculateTargetMargin(planned, actual1, stock, base, constants)
         <= CalculateTargetMargin(planned, actual2, stock, base, constants)
  {
  }

  /** The bound on the base is needed: from a base of 0.30 one extra order
      drops the result from 0.30 to the 0.25 cap. */
  lemma MonotonicityNeedsBaseWithinCap()
    ensures CalculateTargetMargin(10, 10, 5, 0.30, DefaultConstants) == 0.30
    ensures CalculateTargetMargin(10, 11, 5, 0.30, DefaultConstants) == 0.25
  {
  }

  /** Worked examples with the default constants. */
  lemma DefaultConstantsExamples()
    ensures CalculateTargetMargin(10, 5, 0, 0.20, DefaultConstants) == 0.25
    ensures CalculateTargetMargin(10, 20, 5, 0.20, DefaultConstants) == 0.25
    ensures CalculateTargetMargin(10, 3, 5, 0.05, DefaultConstants) == -0.02
    ensures CalculateTargetMargin(10, 5, 5, 0.30, DefaultConstants.(fixationFlag := true)) == 0.15
  {
  }
}
