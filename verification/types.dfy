/** The records of `src/utils/types.ts`, with `number` read as an exact `real`. */
module Types {
  import opened Wrappers

  datatype Mode = Sea | Air

  /** One shipment as entered in the calculator form. `containerType` is the
      optional field of the interface; `isReeferContainer` is read with
      `|| false`, as the form does, so an absent flag is `false`. */
  datatype ShipmentDetails = ShipmentDetails(
    grossWeight: real,         // kg
    volume: real,              // CBM
    isFCL: bool,
    containerType: Option<string>,
    transportMode: Mode,
    isReeferContainer: bool)

  /** Capacity and price of one container type. */
  datatype ContainerSpec = ContainerSpec(maxWeight: real, maxVolume: real, cost: real, isReefer: bool)

  /** One key of the `fcl` record together with its value. The record itself
      is a sequence of entries, so that the key order, which decides every
      tie in the optimizer, is explicit. */
  datatype FclEntry = FclEntry(name: string, spec: ContainerSpec)

  /** LCL unit rates: `mMtq` per CBM, `wTne` per ton, and a minimum charge. */
  datatype LclRates = LclRates(mMtq: real, wTne: real, min: real)

  datatype SeaFreightRates = SeaFreightRates(fcl: seq<FclEntry>, lcl: LclRates)

  /** A weight bracket: `rate` per kg applies below the exclusive bound `maxWeight`. */
  datatype Bracket = Bracket(maxWeight: real, rate: real)

  datatype AirFreightRates = AirFreightRates(min: real, brackets: seq<Bracket>)

  /** A fee of `rate` percent of the value, floored at `min`. */
  datatype PercentFee = PercentFee(rate: real, min: real)

  /** A percent fee with an optional ceiling. */
  datatype CappedPercentFee = CappedPercentFee(rate: real, min: real, max: Option<real>)

  datatype BankCharges = BankCharges(
    openingCable: real,
    acceptance: CappedPercentFee,
    payment: PercentFee,
    cable: real)

  datatype OtherCharges = OtherCharges(
    importInspection: PercentFee,
    importCustoms: real,
    importForwarder: PercentFee,
    exwOverseas: PercentFee)

  /** The optional `containerCombination` part of a calculation result. */
  datatype CombinationSummary = CombinationSummary(containers: map<string, nat>, totalCost: real)

  datatype CalculationResult = CalculationResult(
    freightCost: real,
    totalCost: real,
    containerCombination: Option<CombinationSummary>)

  /** The keys of a record are distinct; every catalog the model works on has this shape. */
  predicate DistinctNames(fcl: seq<FclEntry>) {
    forall i, j :: 0 <= i < j < |fcl| ==> fcl[i].name != fcl[j].name
  }

  /** The names of a catalog, as a set. */
  function Names(fcl: seq<FclEntry>): set<string> {
    set e | e in fcl :: e.name
  }

  /** Record access `fcl[name]`: the entry stored under `name`, if any. */
  function Lookup(fcl: seq<FclEntry>, name: string): (r: Option<ContainerSpec>)
    ensures r.Some? ==> FclEntry(name, r.value) in fcl
    ensures r.None? ==> name !in Names(fcl)
  {
    if |fcl| == 0 then None
    else if fcl[0].name == name then Some(fcl[0].spec)
    else Lookup(fcl[1..], name)
  }

  /** In a catalog with distinct keys, looking up an entry's name yields that entry. */
  lemma LookupEntry(fcl: seq<FclEntry>, k: nat)
    requires DistinctNames(fcl)
    requires k < |fcl|
    ensures Lookup(fcl, fcl[k].name) == Some(fcl[k].spec)
  {
  }

  /** `Math.max` and `Math.min` over exact reals. */
  function Max(a: real, b: real): real {
    if a >= b then a else b
  }

  function Min(a: real, b: real): real {
    if a <= b then a else b
  }
}
