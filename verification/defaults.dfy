/** The default rate tables of `src/utils/defaults.ts`, and the worked
    examples of the repository's tests stated against them.
    The default FCL table carries no reefer flags although the record type
    requires one; here the general-purpose and high-cube types are
    non-reefer and the RF/RH types are reefer, as the calculator form and the
    reefer test read them. */
module Defaults {
  import opened Wrappers
  import opened Types
  import opened Combinations
  import Freight
  import Charges
  import Costing
  import opened Optimizer

  const GP20: FclEntry := FclEntry("20' GP", ContainerSpec(25000.0, 33.0, 165.0, false))
  const GP40: FclEntry := FclEntry("40' GP", ContainerSpec(29000.0, 67.0, 330.0, false))
  const HC40: FclEntry := FclEntry("40' HC", ContainerSpec(29000.0, 76.0, 330.0, false))
  const RF20: FclEntry := FclEntry("20' RF", ContainerSpec(21000.0, 27.0, 183.0, true))
  const RF40: FclEntry := FclEntry("40' RF", ContainerSpec(26000.0, 58.0, 383.0, true))
  const RH40: FclEntry := FclEntry("40' RH", ContainerSpec(26000.0, 66.0, 383.0, true))

  const DefaultSeaRates: SeaFreightRates :=
    SeaFreightRates([GP20, GP40, HC40, RF20, RF40, RH40], LclRates(7.5, 12.8, 0.0))

  /** 999999 kg stands for an unbounded last bracket. */
  const DefaultAirRates: AirFreightRates :=
    AirFreightRates(17.0, [Bracket(45.0, 1.05), Bracket(100.0, 0.93), Bracket(300.0, 0.88),
                           Bracket(500.0, 0.88), Bracket(1000.0, 0.82), Bracket(999999.0, 0.82)])

  const DefaultBankCharges: BankCharges :=
    BankCharges(26.99, CappedPercentFee(1.0, 13.49, Some(67.47)), PercentFee(1.25, 13.49), 26.99)

  const DefaultOtherCharges: OtherCharges :=
    OtherCharges(PercentFee(0.08, 8.1), 13.49, PercentFee(0.25, 67.47), PercentFee(1.0, 134.94))

  /** The default FCL table has distinct keys, positive capacities and
      non-negative costs, so it meets the optimizer's optimality premise. */
  lemma DefaultCatalogWellFormed()
    ensures DistinctNames(DefaultSeaRates.fcl)
    ensures NonNegativeCosts(DefaultSeaRates.fcl)
    ensures forall e :: e in DefaultSeaRates.fcl ==> e.spec.maxWeight > 0.0 && e.spec.maxVolume > 0.0
  {
  }

  /** Bracket bounds strictly increase, so each weight falls in exactly one
      half-open bracket; 500 kg lies in `[500, 1000)` at 0.82 per kg. */
  lemma DefaultBracketsSelectByInterval()
    ensures Freight.Ascending(DefaultAirRates.brackets)
    ensures Freight.FirstBracket(DefaultAirRates.brackets, 500.0) == 4
    ensures DefaultAirRates.brackets[Freight.FirstBracket(DefaultAirRates.brackets, 500.0)].rate == 0.82
  {
  }

  function Shipment(grossWeight: real, volume: real, isFCL: bool, containerType: Option<string>, mode: Mode)
    : ShipmentDetails
  {
    ShipmentDetails(grossWeight, volume, isFCL, containerType, mode, false)
  }

  /** The examples of the calculation tests, on a 9200 kg / 20 CBM shipment:
      chargeable weights by air, LCL priced by volume although a container
      type is named, and air freight in the top bracket. */
  lemma DefaultCalculationExamples()
    ensures Freight.ChargeableWeight(9200.0, 20.0, Air) == 9200.0
    ensures Freight.ChargeableWeight(9200.0, 100.0, Air) == 16700.0
    ensures Freight.SeaFreight(Shipment(9200.0, 20.0, false, Some("20' GP"), Sea), DefaultSeaRates) == 150.0
    ensures Freight.AirFreight(Shipment(9200.0, 20.0, true, Some("20' GP"), Air), DefaultAirRates) == 7544.0
  {
  }

  /** LCL examples: 15000 kg / 10 CBM is priced by weight, 3000 kg / 10 CBM
      by volume. */
  lemma DefaultLclExamples()
    ensures Freight.SeaFreight(Shipment(15000.0, 10.0, false, None, Sea), DefaultSeaRates) == 192.0
    ensures Freight.SeaFreight(Shipment(3000.0, 10.0, false, None, Sea), DefaultSeaRates) == 75.0
  {
  }

  /** Air examples, one per bracket exercised by the tests, and the minimum charge. */
  lemma DefaultAirExamples()
    ensures Freight.AirFreight(Shipment(30.0, 0.1, false, None, Air), DefaultAirRates) == 31.5
    ensures Freight.AirFreight(Shipment(80.0, 0.3, false, None, Air), DefaultAirRates) == 74.4
    ensures Freight.AirFreight(Shipment(100.0, 1.0, false, None, Air), DefaultAirRates) == 146.96
    ensures Freight.AirFreight(Shipment(5.0, 0.01, false, None, Air), DefaultAirRates) == 17.0
  {
  }

  /** Air pricing by weight break is not monotone: 99 kg falls in the
      0.93 bracket and costs 92.07, while 100 kg falls in the 0.88 bracket and
      costs 88. */
  lemma DefaultAirWeightBreak()
    ensures Freight.AirFreight(Shipment(99.0, 0.1, false, None, Air), DefaultAirRates) == 92.07
    ensures Freight.AirFreight(Shipment(100.0, 0.1, false, None, Air), DefaultAirRates) == 88.0
  {
  }

  /** Sea FCL total: one 20' GP costs 165, and the total equals the freight. */
  lemma DefaultSeaTotalCost()
    ensures var r := Costing.CalculateTotalCost(Shipment(9200.0, 20.0, true, Some("20' GP"), Sea),
                                                DefaultSeaRates, DefaultAirRates);
            r.freightCost == 165.0 && r.totalCost == 165.0
  {
  }

  /** Sea FCL freight of one 40' GP is 330. */
  lemma DefaultFortyFootFreight()
    ensures Freight.SeaFreight(Shipment(18000.0, 50.0, true, Some("40' GP"), Sea), DefaultSeaRates) == 330.0
  {
  }

  /** Air total: 500 kg in 2 CBM is charged on 500 kg at 0.82, 410 in all. */
  lemma DefaultAirTotalCost()
    ensures var r := Costing.CalculateTotalCost(Shipment(500.0, 2.0, false, None, Air),
                                                DefaultSeaRates, DefaultAirRates);
            r.freightCost == 410.0 && r.totalCost == 410.0
  {
  }

  /** With the default table the acceptance fee hits its ceiling from a value
      of 6747 on. */
  lemma DefaultAcceptanceCapped(value: real)
    requires value >= 6747.0
    ensures Charges.Acceptance(value, DefaultBankCharges.acceptance) == 67.47
  {
  }

  /** The non-reefer filter keeps the general-purpose and high-cube types, in key order. */
  lemma DefaultGeneralPurpose()
    ensures Admissible(DefaultSeaRates.fcl, false) == [GP20, GP40, HC40]
  {
    var general, reefer := [GP20, GP40, HC40], [RF20, RF40, RH40];
    assert DefaultSeaRates.fcl == general + reefer;
    AdmissibleConcat(general, reefer, false);
    AdmissibleUniform(general, false);
    AdmissibleUniform(reefer, false);
    assert general + [] == general;
  }

  /** The reefer filter keeps the RF and RH types, in key order. */
  lemma DefaultReefer()
    ensures Admissible(DefaultSeaRates.fcl, true) == [RF20, RF40, RH40]
  {
    var general, reefer := [GP20, GP40, HC40], [RF20, RF40, RH40];
    assert DefaultSeaRates.fcl == general + reefer;
    AdmissibleConcat(general, reefer, true);
    AdmissibleUniform(general, true);
    AdmissibleUniform(reefer, true);
    assert [] + reefer == reefer;
  }

  /** The 20' GP is the strictly cheapest general-purpose type, and the 20' RF
      the strictly cheapest reefer type. */
  lemma DefaultCheapestFirst()
    ensures FirstStrictlyCheapest([GP20, GP40, HC40])
    ensures FirstStrictlyCheapest([RF20, RF40, RH40])
  {
  }

  /** A non-empty requirement within one 20' GP is met by exactly one 20' GP
      at 165 (the tests' 15 CBM / 5000 kg and 10 CBM / 5000 kg). */
  lemma SmallShipmentOne20GP(requiredVolume: real, requiredWeight: real)
    requires requiredVolume <= 33.0 && requiredWeight <= 25000.0
    requires requiredVolume > 0.0 || requiredWeight > 0.0
    ensures CalculateOptimalContainers(requiredVolume, requiredWeight, DefaultSeaRates, false)
            == Success(ContainerCombination(map["20' GP" := 1], 165.0, 33.0, 25000.0, true))
  {
    DefaultGeneralPurpose();
    DefaultCheapestFirst();
    DefaultCatalogWellFormed();
    CheapestFirstTypeAlone(requiredVolume, requiredWeight, DefaultSeaRates, false);
  }

  /** A non-empty requirement within one 20' RF is met by exactly one 20' RF
      at 183 when a reefer is requested, and no general-purpose type appears. */
  lemma SmallReeferShipmentOne20RF(requiredVolume: real, requiredWeight: real)
    requires requiredVolume <= 27.0 && requiredWeight <= 21000.0
    requires requiredVolume > 0.0 || requiredWeight > 0.0
    ensures CalculateOptimalContainers(requiredVolume, requiredWeight, DefaultSeaRates, true)
            == Success(ContainerCombination(map["20' RF" := 1], 183.0, 27.0, 21000.0, true))
  {
    DefaultReefer();
    DefaultCheapestFirst();
    DefaultCatalogWellFormed();
    CheapestFirstTypeAlone(requiredVolume, requiredWeight, DefaultSeaRates, true);
  }

  /** Of the general-purpose types, the 40' HC holds the most volume. */
  lemma DefaultLargestGeneralPurpose()
    ensures var ts := [GP20, GP40, HC40]; ts[Largest(ts)] == HC40
  {
  }

  /** Twenty containers of any general-purpose type hold at most 1520 CBM. */
  lemma DefaultGeneralPurposeCap(requiredVolume: real)
    requires requiredVolume > 1520.0
    ensures var ts := [GP20, GP40, HC40];
            forall i :: 0 <= i < |ts| ==>
              0.0 <= ts[i].spec.maxVolume && MaxContainers as real * ts[i].spec.maxVolume < requiredVolume
  {
  }

  /** More than 1520 CBM (the tests' 5000 CBM / 1000000 kg among them) cannot
      be covered by 20 containers of at most 76 CBM, so the answer is the
      invalid fallback of one 40' HC, the largest non-reefer type. */
  lemma MassiveShipmentFallsBack(requiredVolume: real, requiredWeight: real)
    requires requiredVolume > 1520.0
    ensures CalculateOptimalContainers(requiredVolume, requiredWeight, DefaultSeaRates, false)
            == Success(ContainerCombination(map["40' HC" := 1], 330.0, 76.0, 29000.0, false))
  {
    DefaultGeneralPurpose();
    DefaultGeneralPurposeCap(requiredVolume);
    DefaultLargestGeneralPurpose();
    BeyondCapFallsBack(requiredVolume, requiredWeight, DefaultSeaRates, false);
  }

  /** `n` 40' HC containers (76 CBM and 29000 kg each) within the cap cover
      any requirement up to their capacity, so the answer is valid, covers the
      requirement and costs at most `330 * n` (the tests' 50 CBM / 20000 kg,
      100 CBM / 50000 kg, 80 CBM / 5000 kg and 200 CBM / 100000 kg among them). */
  lemma DefaultHighCubesSuffice(requiredVolume: real, requiredWeight: real, n: nat)
    requires n <= MaxContainers
    requires requiredVolume <= 76.0 * n as real && requiredWeight <= 29000.0 * n as real
    ensures var r := CalculateOptimalContainers(requiredVolume, requiredWeight, DefaultSeaRates, false);
            && r.Success? && r.value.valid
            && r.value.totalVolume >= requiredVolume && r.value.totalWeight >= requiredWeight
            && r.value.totalCost <= 330.0 * n as real
  {
    DefaultGeneralPurpose();
    DefaultCatalogWellFormed();
    HighCubeSums(n);
    OptimizerOptimal(requiredVolume, requiredWeight, DefaultSeaRates, false, map["40' HC" := n]);
  }

  /** The record of `n` 40' HC containers, summed over the general-purpose types. */
  lemma HighCubeSums(n: nat)
    ensures var ts, counts := [GP20, GP40, HC40], map["40' HC" := n];
            && WeightedSum(ts, counts, Units) == n as real
            && WeightedSum(ts, counts, Volume) == 76.0 * n as real
            && WeightedSum(ts, counts, Weight) == 29000.0 * n as real
            && WeightedSum(ts, counts, Cost) == 330.0 * n as real
  {
    var ts := [GP20, GP40, HC40];
    assert DistinctNames(ts);
    forall m: Measure ensures WeightedSum(ts, map[ts[2].name := n], m) == n as real * Of(ts[2].spec, m) {
      SingleTypeWeightedSum(ts, 2, n, m, |ts|);
    }
  }
}
