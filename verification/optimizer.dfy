/** `calculateOptimalContainers` of `src/utils/calculator.ts`: a depth-first
    branch-and-bound search for the cheapest multiset of container types whose
    summed capacities cover a required volume and weight, using at most
    `MaxContainers` containers, with a largest-container fallback. */
module Optimizer {
  import opened Wrappers
  import opened Types
  import opened Combinations

  /** The search never grows a combination past this many containers. */
  const MaxContainers: nat := 20

  /** The optimizer's answer. When `valid` is false the combination is the
      fallback of one largest container and covers nothing in particular. */
  datatype ContainerCombination = ContainerCombination(
    containers: map<string, nat>,
    totalCost: real,
    totalVolume: real,
    totalWeight: real,
    valid: bool)

  /** The fallback reduces the admissible types without an initial value,
      which throws when there are none. */
  datatype OptimizerError = NoContainerTypes

  /** The catalog entries whose reefer flag matches the request, in key order. */
  function Admissible(fcl: seq<FclEntry>, isReefer: bool): (ts: seq<FclEntry>)
    ensures |ts| <= |fcl|
  {
    if |fcl| == 0 then []
    else if fcl[0].spec.isReefer == isReefer then [fcl[0]] + Admissible(fcl[1..], isReefer)
    else Admissible(fcl[1..], isReefer)
  }

  /** The filter keeps exactly the catalog's types with the requested reefer
      flag, and keeps names distinct. */
  lemma {:induction false} AdmissibleMembers(fcl: seq<FclEntry>, isReefer: bool)
    ensures var ts := Admissible(fcl, isReefer);
            && (forall e :: e in ts <==> e in fcl && e.spec.isReefer == isReefer)
            && (DistinctNames(fcl) ==> DistinctNames(ts))
  {
    if |fcl| > 0 {
      AdmissibleMembers(fcl[1..], isReefer);
      assert fcl == [fcl[0]] + fcl[1..];
    }
  }

  /** The filter distributes over concatenation, so it keeps the catalog's order. */
  lemma {:induction false} AdmissibleConcat(a: seq<FclEntry>, b: seq<FclEntry>, isReefer: bool)
    ensures Admissible(a + b, isReefer) == Admissible(a, isReefer) + Admissible(b, isReefer)
    decreases |a|
  {
    if |a| > 0 {
      assert (a + b)[1..] == a[1..] + b;
      AdmissibleConcat(a[1..], b, isReefer);
    } else {
      assert a + b == b;
    }
  }

  /** A catalog whose types all have the requested reefer flag passes the
      filter unchanged, and one whose types all have the other flag is
      filtered away entirely. */
  lemma {:induction false} AdmissibleUniform(fcl: seq<FclEntry>, isReefer: bool)
    ensures (forall i :: 0 <= i < |fcl| ==> fcl[i].spec.isReefer == isReefer) ==> Admissible(fcl, isReefer) == fcl
    ensures (forall i :: 0 <= i < |fcl| ==> fcl[i].spec.isReefer != isReefer) ==> Admissible(fcl, isReefer) == []
  {
    if |fcl| > 0 {
      AdmissibleUniform(fcl[1..], isReefer);
      assert [fcl[0]] + fcl[1..] == fcl;
    }
  }

  /** No container type has a negative cost. */
  predicate NonNegativeCosts(fcl: seq<FclEntry>) {
    forall e :: e in fcl ==> e.spec.cost >= 0.0
  }

  /** A node meets both requirements. */
  predicate Covers(ts: seq<FclEntry>, requiredVolume: real, requiredWeight: real, picks: seq<nat>)
    requires InRange(ts, picks)
  {
    Total(ts, picks, Volume) >= requiredVolume && Total(ts, picks, Weight) >= requiredWeight
  }

  /** What the best-so-far accumulator may hold: nothing yet, or a node of at
      most `MaxContainers` containers that meets both requirements. */
  predicate Candidate(ts: seq<FclEntry>, requiredVolume: real, requiredWeight: real, best: Option<seq<nat>>) {
    best.Some? ==>
      && InRange(ts, best.value)
      && |best.value| <= MaxContainers
      && Covers(ts, requiredVolume, requiredWeight, best.value)
  }

  function CostOf(ts: seq<FclEntry>, picks: seq<nat>): real
    requires InRange(ts, picks)
  {
    Total(ts, picks, Cost)
  }

  /** `findCombinations(picks, index)` with the closure variable
      `bestCombination` passed in as `best` and handed back as the result.
      A covering node is recorded when it is strictly cheaper than the best
      so far and the branch ends; otherwise the branch is pruned when it is
      no cheaper than the best so far or already holds `MaxContainers`
      containers, and is extended by one more container of each type from
      `index` on.
      The accumulator only ever holds a covering node, is never lost, and is
      replaced only by a strictly cheaper one, so ties keep the first found. */
  function Find(ts: seq<FclEntry>, requiredVolume: real, requiredWeight: real,
                picks: seq<nat>, index: nat, best: Option<seq<nat>>): (r: Option<seq<nat>>)
    requires InRange(ts, picks) && |picks| <= MaxContainers && index <= |ts|
    requires Candidate(ts, requiredVolume, requiredWeight, best)
    ensures Candidate(ts, requiredVolume, requiredWeight, r)
    ensures best.Some? ==> r.Some? && (r == best || CostOf(ts, r.value) < CostOf(ts, best.value))
    decreases MaxContainers - |picks|, |ts| - index, 1
  {
    if Covers(ts, requiredVolume, requiredWeight, picks) then
      if best.None? || CostOf(ts, picks) < CostOf(ts, best.value) then Some(picks) else best
    else if best.Some? && CostOf(ts, picks) >= CostOf(ts, best.value) then
      best
    else if |picks| >= MaxContainers then
      best
    else
      TryEach(ts, requiredVolume, requiredWeight, picks, index, best)
  }

  /** The loop `for (i = index; i < types.length; i++)` of `findCombinations`:
      extends the node with type `i` (which may repeat) and searches on from
      `i`, threading the best-so-far through the iterations. */
  function TryEach(ts: seq<FclEntry>, requiredVolume: real, requiredWeight: real,
                   picks: seq<nat>, i: nat, best: Option<seq<nat>>): (r: Option<seq<nat>>)
    requires InRange(ts, picks) && |picks| < MaxContainers && i <= |ts|
    requires Candidate(ts, requiredVolume, requiredWeight, best)
    ensures Candidate(ts, requiredVolume, requiredWeight, r)
    ensures best.Some? ==> r.Some? && (r == best || CostOf(ts, r.value) < CostOf(ts, best.value))
    decreases MaxContainers - |picks|, |ts| - i, 0
  {
    if i == |ts| then best
    else
      var best' := Find(ts, requiredVolume, requiredWeight, picks + [i], i, best);
      TryEach(ts, requiredVolume, requiredWeight, picks, i + 1, best')
  }

  /** The whole search, `findCombinations({}, 0, 0, 0, 0)` from no best. */
  function Search(ts: seq<FclEntry>, requiredVolume: real, requiredWeight: real): (r: Option<seq<nat>>)
    ensures Candidate(ts, requiredVolume, requiredWeight, r)
    ensures requiredVolume <= 0.0 && requiredWeight <= 0.0 ==> r == Some([])
    ensures |ts| == 0 && !(requiredVolume <= 0.0 && requiredWeight <= 0.0) ==> r.None?
  {
    Find(ts, requiredVolume, requiredWeight, [], 0, None)
  }

  /** The fallback's `reduce` over the first `n` types: the first type of
      greatest `maxVolume` (a later type replaces the running choice only
      when strictly larger). */
  function LargestUpTo(ts: seq<FclEntry>, n: nat): (k: nat)
    requires 0 < n <= |ts|
    ensures k < n
    ensures forall j :: 0 <= j < n ==> ts[j].spec.maxVolume <= ts[k].spec.maxVolume
    ensures forall j :: 0 <= j < k ==> ts[j].spec.maxVolume < ts[k].spec.maxVolume
  {
    if n == 1 then 0
    else
      var best := LargestUpTo(ts, n - 1);
      if ts[n - 1].spec.maxVolume > ts[best].spec.maxVolume then n - 1 else best
  }

  function Largest(ts: seq<FclEntry>): (k: nat)
    requires |ts| > 0
    ensures k < |ts|
    ensures forall j :: 0 <= j < |ts| ==> ts[j].spec.maxVolume <= ts[k].spec.maxVolume
    ensures forall j :: 0 <= j < k ==> ts[j].spec.maxVolume < ts[k].spec.maxVolume
  {
    LargestUpTo(ts, |ts|)
  }

  /** The valid combination a search node stands for. */
  function Found(ts: seq<FclEntry>, picks: seq<nat>): ContainerCombination
    requires InRange(ts, picks)
  {
    ContainerCombination(Tally(ts, picks), Total(ts, picks, Cost), Total(ts, picks, Volume),
                         Total(ts, picks, Weight), true)
  }

  /** One container of the given type, marked invalid. */
  function Fallback(e: FclEntry): ContainerCombination {
    ContainerCombination(map[e.name := 1], e.spec.cost, e.spec.maxVolume, e.spec.maxWeight, false)
  }

  /** Every type after the first costs more than the first. */
  predicate FirstStrictlyCheapest(ts: seq<FclEntry>)
    requires |ts| > 0
  {
    forall i :: 0 < i < |ts| ==> ts[i].spec.cost > ts[0].spec.cost
  }

  /** The optimizer entry point. */
  function CalculateOptimalContainers(requiredVolume: real, requiredWeight: real,
                                      rates: SeaFreightRates, isReeferContainer: bool)
    : (r: Result<ContainerCombination, OptimizerError>)
    ensures r.Success? && r.value.valid ==>
              r.value.totalVolume >= requiredVolume && r.value.totalWeight >= requiredWeight
    ensures r.Failure? <==>
              |Admissible(rates.fcl, isReeferContainer)| == 0
              && !(requiredVolume <= 0.0 && requiredWeight <= 0.0)
    ensures requiredVolume <= 0.0 && requiredWeight <= 0.0 ==>
              r == Success(ContainerCombination(map[], 0.0, 0.0, 0.0, true))
    ensures r.Success? && !r.value.valid ==>
              var ts := Admissible(rates.fcl, isReeferContainer);
              |ts| > 0 && r.value == Fallback(ts[Largest(ts)])
  {
    var ts := Admissible(rates.fcl, isReeferContainer);
    match Search(ts, requiredVolume, requiredWeight)
    case Some(picks) => Success(Found(ts, picks))
    case None =>
      if |ts| == 0 then Failure(NoContainerTypes)
      else Success(Fallback(ts[Largest(ts)]))
  }

  /** When no catalog entry carries the requested reefer flag, the filter
      keeps nothing and a positive requirement fails: the fallback's
      `reduce` has no element to start from. */
  lemma NoMatchingFlagFails(requiredVolume: real, requiredWeight: real, rates: SeaFreightRates,
                            isReeferContainer: bool)
    requires forall i :: 0 <= i < |rates.fcl| ==> rates.fcl[i].spec.isReefer != isReeferContainer
    requires requiredVolume > 0.0 || requiredWeight > 0.0
    ensures CalculateOptimalContainers(requiredVolume, requiredWeight, rates, isReeferContainer)
            == Failure(NoContainerTypes)
  {
    AdmissibleUniform(rates.fcl, isReeferContainer);
  }

  /** A valid answer reports at most `MaxContainers` containers, only of
      types whose reefer flag matches the request, each present at least
      once, and its totals are the count-weighted sums of the reported
      counts. */
  lemma OptimizerSound(requiredVolume: real, requiredWeight: real, rates: SeaFreightRates, isReeferContainer: bool)
    requires DistinctNames(rates.fcl)
    ensures var r := CalculateOptimalContainers(requiredVolume, requiredWeight, rates, isReeferContainer);
            var ts := Admissible(rates.fcl, isReeferContainer);
            r.Success? && r.value.valid ==>
              && (forall k :: k in r.value.containers ==>
                    r.value.containers[k] >= 1
                    && Lookup(rates.fcl, k).Some?
                    && Lookup(rates.fcl, k).value.isReefer == isReeferContainer)
              && WeightedSum(ts, r.value.containers, Units) <= MaxContainers as real
              && r.value.totalCost == WeightedSum(ts, r.value.containers, Cost)
              && r.value.totalVolume == WeightedSum(ts, r.value.containers, Volume)
              && r.value.totalWeight == WeightedSum(ts, r.value.containers, Weight)
  {
    var r := CalculateOptimalContainers(requiredVolume, requiredWeight, rates, isReeferContainer);
    var ts := Admissible(rates.fcl, isReeferContainer);
    AdmissibleMembers(rates.fcl, isReeferContainer);
    var found := Search(ts, requiredVolume, requiredWeight);
    if found.Some? {
      var picks := found.value;
      var counts := Tally(ts, picks);
      forall k | k in counts
        ensures Lookup(rates.fcl, k).Some? && Lookup(rates.fcl, k).value.isReefer == isReeferContainer
      {
        var e :| e in ts && e.name == k;
        var j :| 0 <= j < |rates.fcl| && rates.fcl[j] == e;
        LookupEntry(rates.fcl, j);
      }
      TallyWeightedSum(ts, picks, Units);
      TotalUnits(ts, picks);
      TallyWeightedSum(ts, picks, Cost);
      TallyWeightedSum(ts, picks, Volume);
      TallyWeightedSum(ts, picks, Weight);
    }
  }

  /** Every element of `ext` is at least `index`. */
  predicate FromIndex(ext: seq<nat>, index: nat) {
    forall k :: 0 <= k < |ext| ==> index <= ext[k]
  }

  lemma {:induction false} TotalNonNegative(ts: seq<FclEntry>, picks: seq<nat>)
    requires InRange(ts, picks) && NonNegativeCosts(ts)
    ensures CostOf(ts, picks) >= 0.0
    decreases |picks|
  {
    if |picks| > 0 {
      TotalNonNegative(ts, picks[..|picks| - 1]);
      assert ts[picks[|picks| - 1]] in ts;
    }
  }

  /** With non-negative costs, the search from node `picks` ends with a best
      no costlier than any covering completion `picks + ext` of at most
      `MaxContainers` containers that it enumerates (a non-decreasing `ext`
      starting at `index` or later). */
  lemma {:induction false} FindReaches(ts: seq<FclEntry>, requiredVolume: real, requiredWeight: real,
                                       picks: seq<nat>, index: nat, best: Option<seq<nat>>, ext: seq<nat>)
    requires InRange(ts, picks) && |picks| <= MaxContainers && index <= |ts|
    requires Candidate(ts, requiredVolume, requiredWeight, best)
    requires NonNegativeCosts(ts)
    requires InRange(ts, ext) && NonDecreasing(ext) && FromIndex(ext, index)
    requires |picks| + |ext| <= MaxContainers
    requires Covers(ts, requiredVolume, requiredWeight, picks + ext)
    ensures var r := Find(ts, requiredVolume, requiredWeight, picks, index, best);
            r.Some? && CostOf(ts, r.value) <= CostOf(ts, picks + ext)
    decreases MaxContainers - |picks|, |ts| - index, 2
  {
    TotalAppend(ts, picks, ext, Cost);
    TotalNonNegative(ts, ext);
    if !Covers(ts, requiredVolume, requiredWeight, picks)
       && !(best.Some? && CostOf(ts, picks) >= CostOf(ts, best.value))
    {
      assert ext == [] ==> picks + ext == picks;
      TryEachReaches(ts, requiredVolume, requiredWeight, picks, index, best, ext);
    }
  }

  /** The loop over types `i..` reaches every covering completion whose first
      added type is `i` or later. */
  lemma {:induction false} TryEachReaches(ts: seq<FclEntry>, requiredVolume: real, requiredWeight: real,
                                          picks: seq<nat>, i: nat, best: Option<seq<nat>>, ext: seq<nat>)
    requires InRange(ts, picks) && |picks| < MaxContainers && i <= |ts|
    requires Candidate(ts, requiredVolume, requiredWeight, best)
    requires NonNegativeCosts(ts)
    requires InRange(ts, ext) && NonDecreasing(ext) && |ext| > 0 && i <= ext[0]
    requires |picks| + |ext| <= MaxContainers
    requires Covers(ts, requiredVolume, requiredWeight, picks + ext)
    ensures var r := TryEach(ts, requiredVolume, requiredWeight, picks, i, best);
            r.Some? && CostOf(ts, r.value) <= CostOf(ts, picks + ext)
    decreases MaxContainers - |picks|, |ts| - i, 1
  {
    if i == ext[0] {
      TryFirstReaches(ts, requiredVolume, requiredWeight, picks, i, best, ext);
    } else {
      var best' := Find(ts, requiredVolume, requiredWeight, picks + [i], i, best);
      TryEachReaches(ts, requiredVolume, requiredWeight, picks, i + 1, best', ext);
    }
  }

  /** The iteration that adds the completion's first type, `i`, reaches it:
      the search from `picks + [i]` reaches the rest of the completion, and
      the remaining iterations keep the bound. */
  lemma {:induction false} TryFirstReaches(ts: seq<FclEntry>, requiredVolume: real, requiredWeight: real,
                                           picks: seq<nat>, i: nat, best: Option<seq<nat>>, ext: seq<nat>)
    requires InRange(ts, picks) && |picks| < MaxContainers && i < |ts|
    requires Candidate(ts, requiredVolume, requiredWeight, best)
    requires NonNegativeCosts(ts)
    requires InRange(ts, ext) && NonDecreasing(ext) && |ext| > 0 && i == ext[0]
    requires |picks| + |ext| <= MaxContainers
    requires Covers(ts, requiredVolume, requiredWeight, picks + ext)
    ensures var r := TryEach(ts, requiredVolume, requiredWeight, picks, i, best);
            r.Some? && CostOf(ts, r.value) <= CostOf(ts, picks + ext)
    decreases MaxContainers - |picks|, |ts| - i, 0
  {
    var best' := Find(ts, requiredVolume, requiredWeight, picks + [i], i, best);
    var rest := ext[1..];
    assert (picks + [i]) + rest == picks + ext;
    assert FromIndex(rest, i);
    FindReaches(ts, requiredVolume, requiredWeight, picks + [i], i, best, rest);
    KeepsBound(ts, requiredVolume, requiredWeight, picks, i + 1, best', CostOf(ts, picks + ext));
  }

  /** A best-so-far within `bound` stays within it through the rest of the loop. */
  lemma KeepsBound(ts: seq<FclEntry>, requiredVolume: real, requiredWeight: real,
                   picks: seq<nat>, i: nat, best: Option<seq<nat>>, bound: real)
    requires InRange(ts, picks) && |picks| < MaxContainers && i <= |ts|
    requires Candidate(ts, requiredVolume, requiredWeight, best)
    requires best.Some? && CostOf(ts, best.value) <= bound
    ensures var r := TryEach(ts, requiredVolume, requiredWeight, picks, i, best);
            r.Some? && CostOf(ts, r.value) <= bound
  {
  }

  /** Bounded optimality of the search: with non-negative costs, a result is
      found and costs no more than any covering multiset of at most
      `MaxContainers` admissible containers. A multiset is given as a
      `containers` record; names outside the admissible types are ignored. */
  lemma OptimizerOptimal(requiredVolume: real, requiredWeight: real, rates: SeaFreightRates,
                         isReeferContainer: bool, counts: map<string, nat>)
    requires NonNegativeCosts(rates.fcl)
    requires var ts := Admissible(rates.fcl, isReeferContainer);
             && WeightedSum(ts, counts, Units) <= MaxContainers as real
             && WeightedSum(ts, counts, Volume) >= requiredVolume
             && WeightedSum(ts, counts, Weight) >= requiredWeight
    ensures var r := CalculateOptimalContainers(requiredVolume, requiredWeight, rates, isReeferContainer);
            var ts := Admissible(rates.fcl, isReeferContainer);
            r.Success? && r.value.valid && r.value.totalCost <= WeightedSum(ts, counts, Cost)
  {
    var ts := Admissible(rates.fcl, isReeferContainer);
    AdmissibleMembers(rates.fcl, isReeferContainer);
    var ext := ExpandUpTo(ts, counts, |ts|);
    ExpandTotal(ts, counts, Units, |ts|);
    ExpandTotal(ts, counts, Volume, |ts|);
    ExpandTotal(ts, counts, Weight, |ts|);
    ExpandTotal(ts, counts, Cost, |ts|);
    TotalUnits(ts, ext);
    ExpandNonDecreasing(ts, counts, |ts|);
    assert [] + ext == ext;
    FindReaches(ts, requiredVolume, requiredWeight, [], 0, None, ext);
  }

  /** Raising either requirement never makes a valid answer cheaper: if the
      larger requirement is met within the cap, so is the smaller one, at no
      greater cost. */
  lemma OptimizerMonotone(requiredVolume: real, requiredWeight: real,
                          requiredVolume': real, requiredWeight': real,
                          rates: SeaFreightRates, isReeferContainer: bool)
    requires requiredVolume <= requiredVolume' && requiredWeight <= requiredWeight'
    requires DistinctNames(rates.fcl) && NonNegativeCosts(rates.fcl)
    requires var r' := CalculateOptimalContainers(requiredVolume', requiredWeight', rates, isReeferContainer);
             r'.Success? && r'.value.valid
    ensures var r := CalculateOptimalContainers(requiredVolume, requiredWeight, rates, isReeferContainer);
            var r' := CalculateOptimalContainers(requiredVolume', requiredWeight', rates, isReeferContainer);
            r.Success? && r.value.valid && r.value.totalCost <= r'.value.totalCost
  {
    var r' := CalculateOptimalContainers(requiredVolume', requiredWeight', rates, isReeferContainer);
    OptimizerSound(requiredVolume', requiredWeight', rates, isReeferContainer);
    OptimizerOptimal(requiredVolume, requiredWeight, rates, isReeferContainer, r'.value.containers);
  }

  /** When the first admissible type is strictly the cheapest, has a positive
      cost and covers a non-empty requirement on its own, the answer is
      exactly one container of that type. */
  lemma CheapestFirstTypeAlone(requiredVolume: real, requiredWeight: real, rates: SeaFreightRates,
                               isReeferContainer: bool)
    requires DistinctNames(rates.fcl) && NonNegativeCosts(rates.fcl)
    requires requiredVolume > 0.0 || requiredWeight > 0.0
    requires var ts := Admissible(rates.fcl, isReeferContainer);
             && |ts| > 0
             && ts[0].spec.cost > 0.0
             && ts[0].spec.maxVolume >= requiredVolume
             && ts[0].spec.maxWeight >= requiredWeight
             && FirstStrictlyCheapest(ts)
    ensures var ts := Admissible(rates.fcl, isReeferContainer);
            CalculateOptimalContainers(requiredVolume, requiredWeight, rates, isReeferContainer)
            == Success(ContainerCombination(map[ts[0].name := 1], ts[0].spec.cost,
                                            ts[0].spec.maxVolume, ts[0].spec.maxWeight, true))
  {
    var ts := Admissible(rates.fcl, isReeferContainer);
    AdmissibleMembers(rates.fcl, isReeferContainer);
    var single := map[ts[0].name := 1];
    forall m: Measure ensures WeightedSum(ts, single, m) == Of(ts[0].spec, m) {
      SingleTypeWeightedSum(ts, 0, 1, m, |ts|);
    }
    OptimizerOptimal(requiredVolume, requiredWeight, rates, isReeferContainer, single);
    var picks := Search(ts, requiredVolume, requiredWeight).value;
    TotalAtLeast(ts, picks, Cost, ts[0].spec.cost);
    assert |picks| != 0;
    assert |picks| == 1;
    assert picks == [picks[0]];
    assert picks[0] == 0;
    assert picks[..0] == [];
    assert Tally(ts, picks) == single;
    assert Total(ts, picks, Cost) == ts[0].spec.cost;
    assert Total(ts, picks, Volume) == ts[0].spec.maxVolume;
    assert Total(ts, picks, Weight) == ts[0].spec.maxWeight;
  }

  /** The search finds nothing when even `MaxContainers` containers of the
      largest type hold less than the required volume. */
  lemma SearchFailsBeyondCap(ts: seq<FclEntry>, requiredVolume: real, requiredWeight: real)
    requires |ts| > 0
    requires forall i :: 0 <= i < |ts| ==>
               0.0 <= ts[i].spec.maxVolume && MaxContainers as real * ts[i].spec.maxVolume < requiredVolume
    ensures Search(ts, requiredVolume, requiredWeight).None?
  {
    forall picks | InRange(ts, picks) && |picks| <= MaxContainers
      ensures Total(ts, picks, Volume) < requiredVolume
    {
      var hi := ts[Largest(ts)].spec.maxVolume;
      TotalAtMost(ts, picks, Volume, hi, MaxContainers);
    }
  }

  /** When even `MaxContainers` containers of the largest admissible type
      hold less than the required volume, the answer is the invalid fallback
      of one largest container. */
  lemma BeyondCapFallsBack(requiredVolume: real, requiredWeight: real, rates: SeaFreightRates,
                           isReeferContainer: bool)
    requires var ts := Admissible(rates.fcl, isReeferContainer);
             && |ts| > 0
             && forall i :: 0 <= i < |ts| ==>
                  0.0 <= ts[i].spec.maxVolume && MaxContainers as real * ts[i].spec.maxVolume < requiredVolume
    ensures var ts := Admissible(rates.fcl, isReeferContainer);
            CalculateOptimalContainers(requiredVolume, requiredWeight, rates, isReeferContainer)
            == Success(Fallback(ts[Largest(ts)]))
  {
    SearchFailsBeyondCap(Admissible(rates.fcl, isReeferContainer), requiredVolume, requiredWeight);
  }
}
