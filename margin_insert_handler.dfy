/** The second copy of the margin engine, in web/handlers/RC_SKU_Margin_insert_handler.py,
    which computes the base adjustment before applying the priority rules,
    and the calculation the insert handler records. */
module MarginInsertHandler {
  import opened Wrappers
  import MarginCalculator
  import SkuMetrics
  import MarginHistory

  /** The handler module's own MARGIN_CONSTANTS. */
  const DefaultConstants := MarginCalculator.MarginConstants(0.25, true, -0.10, false, 0.15)

  /** calculate_target_margin as the handler writes it: the formula first,
      then stock, fixation and the floor. */
  function CalculateTargetMargin(plannedOrders: int, actualOrders: int, stock: int, baseMarginPercent: real,
                                 constants: MarginCalculator.MarginConstants): (r: real)
    ensures stock == 0 ==> r == constants.maxCapPercent
    ensures stock != 0 && constants.fixationFlag ==> r == constants.fixationPercent
    ensures r == MarginCalculator.CalculateTargetMargin(plannedOrders, actualOrders, stock, baseMarginPercent, constants)
  {
    var formulaWithoutLimit :=
      if actualOrders < plannedOrders then
        baseMarginPercent - (plannedOrders - actualOrders) as real / 100.0
      else if actualOrders > plannedOrders then
        var potential := baseMarginPercent + (actualOrders - plannedOrders) as real / 100.0;
        if potential <= constants.maxCapPercent then potential else constants.maxCapPercent
      else
        baseMarginPercent;
    if stock == 0 then
      constants.maxCapPercent
    else if constants.fixationFlag then
      constants.fixationPercent
    else if constants.minLevelFlag && formulaWithoutLimit < constants.minLevelPercent then
      constants.minLevelPercent
    else
      formulaWithoutLimit
  }

  /** With the floor enabled and the formula at or above it, the formula is
      returned unchanged. */
  lemma FloorSilentReturnsFormula(plannedOrders: int, actualOrders: int, stock: int, base: real,
                                  constants: MarginCalculator.MarginConstants)
    requires stock != 0 && !constants.fixationFlag && constants.minLevelFlag
    requires MarginCalculator.FormulaWithoutLimit(plannedOrders, actualOrders, base, constants.maxCapPercent) >= constants.minLevelPercent
    ensures CalculateTargetMargin(plannedOrders, actualOrders, stock, base, constants)
         == MarginCalculator.FormulaWithoutLimit(plannedOrders, actualOrders, base, constants.maxCapPercent)
  {
  }

  /** Both modules ship the same constants. */
  lemma SameDefaultConstants()
    ensures DefaultConstants == MarginCalculator.DefaultConstants
  {
  }

  /** What the handler stores for one SKU: the calculated and the base margin. */
  datatype Calculation = Calculation(calculatedMarginPercent: real, baseMarginPercent: real)

  /** The handler's call: the plan is the row's planned_orders column. */
  function CalculationFor(metric: SkuMetrics.Columns, baseMarginPercent: real): (c: Calculation)
    ensures c.baseMarginPercent == baseMarginPercent
    ensures c.calculatedMarginPercent ==
      MarginCalculator.CalculateTargetMargin(metric.plannedOrders, metric.actualOrders, metric.stock, baseMarginPercent, DefaultConstants)
  {
    Calculation(
      CalculateTargetMargin(metric.plannedOrders, metric.actualOrders, metric.stock, baseMarginPercent, DefaultConstants),
      baseMarginPercent)
  }

  /** The planned_orders_per_sku column plays no part in the calculation. */
  lemma PlannedOrdersPerSkuIgnored(metric: SkuMetrics.Columns, perSku: int, base: real)
    ensures CalculationFor(metric.(plannedOrdersPerSku := perSku), base) == CalculationFor(metric, base)
  {
  }

  /** With the default constants a SKU in stock never gets less than -0.10,
      and one out of stock gets the 0.25 cap. */
  lemma DefaultCalculationBounds(metric: SkuMetrics.Columns, base: real)
    ensures metric.stock == 0 ==> CalculationFor(metric, base).calculatedMarginPercent == 0.25
    ensures metric.stock != 0 ==> CalculationFor(metric, base).calculatedMarginPercent >= -0.10
  {
  }

  datatype HandlerError = SkuNotFound(skuId: int)

  /** The calculation step of the insert handler: a missing SKU row is an
      error; otherwise the calculation is stored as a new history entry. */
  method RecordMargin(history: MarginHistory.MarginHistoryTable, skuId: int, metric: Option<SkuMetrics.Columns>,
                      baseMarginPercent: real, targetDate: Option<int>, today: int)
    returns (r: Result<MarginHistory.Entry, HandlerError>)
    requires history.Valid()
    modifies history
    ensures history.Valid()
    ensures metric.None? ==> r == Err(SkuNotFound(skuId)) && history.entries == old(history.entries)
    ensures metric.Some? ==> r.Ok? && history.entries == old(history.entries) + [r.value]
    ensures metric.Some? ==>
      && r.value.skuId == skuId
      && r.value.calculatedMarginPercent == CalculationFor(metric.value, baseMarginPercent).calculatedMarginPercent
      && r.value.baseMarginPercent == baseMarginPercent
      && r.value.createdAt == (if targetDate.Some? then targetDate.value else today)
  {
    if metric.None? {
      return Err(SkuNotFound(skuId));
    }
    var c := CalculationFor(metric.value, baseMarginPercent);
    var e := history.CreateMarginHistoryEntry(skuId, c.calculatedMarginPercent, c.baseMarginPercent, targetDate, today);
    r := Ok(e);
  }
}
