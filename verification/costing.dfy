/** Assembling a calculation result: `calculateTotalCost` of
    `src/utils/calculator.ts`, and the rule by which the calculator form
    (`handleCalculate` in `src/components/Calculator.tsx`) replaces the
    freight with the optimizer's cost for optimised sea FCL shipments. */
module Costing {
  import opened Wrappers
  import opened Types
  import Freight
  import Optimizer

  /** Freight by transport mode; the total is the freight alone (bank and
      other charges are not added). */
  function CalculateTotalCost(d: ShipmentDetails, seaRates: SeaFreightRates, airRates: AirFreightRates)
    : (r: CalculationResult)
    requires d.transportMode == Air ==> |airRates.brackets| > 0
    ensures r.totalCost == r.freightCost
    ensures d.transportMode == Sea ==> r.freightCost == Freight.SeaFreight(d, seaRates)
    ensures d.transportMode == Air ==> r.freightCost == Freight.AirFreight(d, airRates)
    ensures d.transportMode == Air ==> r.freightCost >= airRates.min
    ensures r.containerCombination.None?
  {
    var freight :=
      if d.transportMode == Sea then Freight.SeaFreight(d, seaRates)
      else Freight.AirFreight(d, airRates);
    CalculationResult(freight, freight, None)
  }

  /** Whether the form asks the optimizer: sea, full container load, optimisation on. */
  predicate Optimises(d: ShipmentDetails, useOptimization: bool) {
    d.transportMode == Sea && d.isFCL && useOptimization
  }

  /** The form's calculation: the plain result, or, when optimising, the same
      result with freight and total set to the optimizer's cost and the
      chosen containers attached. The optimizer's failure propagates. */
  function HandleCalculate(d: ShipmentDetails, seaRates: SeaFreightRates, airRates: AirFreightRates,
                           useOptimization: bool)
    : (r: Result<CalculationResult, Optimizer.OptimizerError>)
    requires d.transportMode == Air ==> |airRates.brackets| > 0
    ensures !Optimises(d, useOptimization) ==> r == Success(CalculateTotalCost(d, seaRates, airRates))
    ensures Optimises(d, useOptimization) ==>
              var o := Optimizer.CalculateOptimalContainers(d.volume, d.grossWeight, seaRates, d.isReeferContainer);
              && (r.Failure? <==> o.Failure?)
              && (r.Success? ==>
                    && r.value.freightCost == o.value.totalCost
                    && r.value.totalCost == o.value.totalCost
                    && r.value.containerCombination
                       == Some(CombinationSummary(o.value.containers, o.value.totalCost)))
  {
    var plain := CalculateTotalCost(d, seaRates, airRates);
    if Optimises(d, useOptimization) then
      match Optimizer.CalculateOptimalContainers(d.volume, d.grossWeight, seaRates, d.isReeferContainer)
      case Failure(e) => Failure(e)
      case Success(o) =>
        Success(plain.(freightCost := o.totalCost, totalCost := o.totalCost,
                       containerCombination := Some(CombinationSummary(o.containers, o.totalCost))))
    else
      Success(plain)
  }
}
