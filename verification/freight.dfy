/** Freight pricing of `src/utils/calculator.ts`: chargeable weight, sea
    freight (FCL per container, LCL per ton / per CBM) and air freight by
    weight bracket. */
module Freight {
  import opened Wrappers
  import opened Types

  /** Volumetric weight of one CBM for air freight (the IATA convention of
      166.67 kg, rounded to 167). */
  const KgPerCbm: real := 167.0

  /** Kilograms per metric ton, for the LCL per-ton rate. */
  const KgPerTon: real := 1000.0

  /** Chargeable weight: the greater of gross and volumetric weight for air;
      the gross weight for sea. */
  function ChargeableWeight(grossWeight: real, volume: real, mode: Mode): (r: real)
    ensures mode == Air ==> r >= grossWeight && r >= volume * KgPerCbm
    ensures mode == Air ==> r == grossWeight || r == volume * KgPerCbm
    ensures mode == Sea ==> r == grossWeight
  {
    if mode == Air then Max(grossWeight, volume * KgPerCbm) else grossWeight
  }

  /** The FCL branch is taken only for a full load naming a container type;
      an absent or empty name is falsy and falls through to LCL. */
  predicate NamesContainer(d: ShipmentDetails) {
    d.isFCL && d.containerType.Some? && d.containerType.value != ""
  }

  /** LCL price: the greatest of the per-ton price, the per-CBM price and the minimum. */
  function LclFreight(d: ShipmentDetails, lcl: LclRates): (r: real)
    ensures r >= d.grossWeight / KgPerTon * lcl.wTne
    ensures r >= d.volume * lcl.mMtq
    ensures r >= lcl.min
    ensures r == d.grossWeight / KgPerTon * lcl.wTne || r == d.volume * lcl.mMtq || r == lcl.min
  {
    var costByWeight := d.grossWeight / KgPerTon * lcl.wTne;
    var costByVolume := d.volume * lcl.mMtq;
    Max(Max(costByWeight, costByVolume), lcl.min)
  }

  /** With non-negative LCL rates, more weight or more volume never costs less. */
  lemma LclFreightMonotone(d: ShipmentDetails, d': ShipmentDetails, lcl: LclRates)
    requires d.grossWeight <= d'.grossWeight && d.volume <= d'.volume
    requires lcl.wTne >= 0.0 && lcl.mMtq >= 0.0
    ensures LclFreight(d, lcl) <= LclFreight(d', lcl)
  {
    assert (d'.grossWeight - d.grossWeight) / KgPerTon * lcl.wTne >= 0.0;
    assert (d'.volume - d.volume) * lcl.mMtq >= 0.0;
  }

  /** Sea freight: the flat cost of one container of the named type (0 for a
      name the catalog lacks), otherwise the LCL price. */
  function SeaFreight(d: ShipmentDetails, rates: SeaFreightRates): (r: real)
    ensures NamesContainer(d) && Lookup(rates.fcl, d.containerType.value).Some? ==>
              r == Lookup(rates.fcl, d.containerType.value).value.cost
    ensures NamesContainer(d) && Lookup(rates.fcl, d.containerType.value).None? ==> r == 0.0
    ensures !NamesContainer(d) ==> r == LclFreight(d, rates.lcl)
  {
    if NamesContainer(d) then
      match Lookup(rates.fcl, d.containerType.value)
      case None => 0.0
      case Some(spec) => spec.cost
    else
      LclFreight(d, rates.lcl)
  }

  /** The bracket the rate loop settles on when it has passed brackets
      `0..i-1` without a match: the first bracket from `i` on whose exclusive
      bound lies above `w`, or the last bracket when none does (the loop's
      default rate is the last bracket's). */
  function FirstBracketFrom(brackets: seq<Bracket>, w: real, i: nat): (k: nat)
    requires i < |brackets|
    requires forall j :: 0 <= j < i ==> brackets[j].maxWeight <= w
    ensures i <= k < |brackets|
    ensures forall j :: 0 <= j < k ==> brackets[j].maxWeight <= w
    ensures w < brackets[k].maxWeight || k == |brackets| - 1
    decreases |brackets| - i
  {
    if w < brackets[i].maxWeight || i == |brackets| - 1 then i
    else FirstBracketFrom(brackets, w, i + 1)
  }

  /** The index of the bracket whose rate applies to chargeable weight `w`. */
  function FirstBracket(brackets: seq<Bracket>, w: real): (k: nat)
    requires |brackets| > 0
    ensures k < |brackets|
    ensures forall j :: 0 <= j < k ==> brackets[j].maxWeight <= w
    ensures w < brackets[k].maxWeight || k == |brackets| - 1
  {
    FirstBracketFrom(brackets, w, 0)
  }

  /** Bracket bounds strictly increase. */
  predicate Ascending(brackets: seq<Bracket>) {
    forall i, j :: 0 <= i < j < |brackets| ==> brackets[i].maxWeight < brackets[j].maxWeight
  }

  /** Weight `w` lies in the half-open interval of bracket `k`: at or above the
      previous bound and below its own, the last interval being unbounded. */
  predicate InInterval(brackets: seq<Bracket>, w: real, k: nat)
    requires k < |brackets|
  {
    && (k == 0 || brackets[k - 1].maxWeight <= w)
    && (w < brackets[k].maxWeight || k == |brackets| - 1)
  }

  /** With ascending bounds, first-match selection picks exactly the bracket
      whose half-open interval holds the weight. */
  lemma BracketInterval(brackets: seq<Bracket>, w: real, k: nat)
    requires |brackets| > 0 && Ascending(brackets)
    requires k < |brackets|
    ensures FirstBracket(brackets, w) == k <==> InInterval(brackets, w, k)
  {
  }

  /** Air freight: chargeable weight times the selected bracket's rate,
      raised to the air minimum. The source reads the last bracket
      unconditionally, so an empty bracket list is not a valid input. */
  function AirFreight(d: ShipmentDetails, rates: AirFreightRates): (r: real)
    requires |rates.brackets| > 0
    ensures var w := ChargeableWeight(d.grossWeight, d.volume, Air);
            var rate := rates.brackets[FirstBracket(rates.brackets, w)].rate;
            && r >= rates.min
            && r >= w * rate
            && (r == rates.min || r == w * rate)
  {
    var w := ChargeableWeight(d.grossWeight, d.volume, Air);
    var rate := rates.brackets[FirstBracket(rates.brackets, w)].rate;
    Max(w * rate, rates.min)
  }
}
