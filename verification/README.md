# Freight calculator core, modelled in Dafny

This project models the pricing engine and the container optimizer of a
freight cost calculator: `src/utils/calculator.ts`, the default rate tables
of `src/utils/defaults.ts`, and the rule in `src/components/Calculator.tsx`
by which the form swaps in the optimizer's cost. Numbers are exact `real`s.

- `Types` holds the records: shipment details, FCL catalog, LCL rates, air
  brackets, bank and other charges, and results. The FCL catalog is a JS
  object keyed by container name. Here it is a sequence of `(name, spec)`
  entries in key order, and lookups go by name.
- `Freight` holds chargeable weight (167 kg per CBM by air), sea freight
  (flat FCL cost or the LCL maximum of per-ton, per-CBM and minimum) and
  air freight (first bracket whose bound exceeds the weight, raised to the
  air minimum).
- `Charges` holds the bank and other charges: percentages of the goods
  value, floored at a minimum, and for the acceptance fee capped when a
  non-zero cap is set.
- `Combinations` is the arithmetic of the search. A search node is the
  sequence of picked type indices. Its running sums are `Total`, and its
  `containers` record is `Tally`.
- `Optimizer` is `calculateOptimalContainers`:
  - It filters the catalog by reefer flag.
  - It runs a branch-and-bound search over multisets of at most 20
    containers. The closure's best-so-far is an explicit accumulator,
    threaded through the mutually recursive `Find` and `TryEach`.
  - When nothing is found it falls back to one container of the largest
    type.
- `Costing` holds `calculateTotalCost` (total = freight) and the form's
  optimisation rule.
- `Defaults` holds the default tables and the repository's test examples,
  stated as lemmas about them.

`defaults.ts` gives the FCL types no `isReefer` flag. As written, the
filter's strict comparison with `false` or `true` then keeps no type, and
the fallback's `reduce` throws for every positive requirement
(`Optimizer.NoMatchingFlagFails` states this for any catalog whose flags
all differ from the request). The optimization tests only make sense with
flags, so the default tables here assume the general-purpose and high-cube
types are non-reefer and the RF/RH types are reefer.

Under those assumed flags, tests and code disagree in one place.
`tests/optimization.test.ts:118-138` expects a valid answer of more than 60
containers for 5000 CBM. The cap of 20 makes that impossible, so
`Defaults.MassiveShipmentFallsBack` proves what the code returns: the
invalid one-container fallback.

## Model

| member | source | states |
|---|---|---|
| Types.Lookup | src/utils/calculator.ts:24-25 | A found spec is stored under that name in the catalog; a miss means no entry has that name |
| Types.LookupEntry | src/utils/types.ts:19 | With distinct keys, each catalog entry is found under its own name |
| Freight.ChargeableWeight | src/utils/calculator.ts:10-17 | By air, the result is at least the gross weight and at least 167 kg per CBM, and equals one of them; by sea, it is the gross weight |
| Freight.LclFreight | src/utils/calculator.ts:34-40 | The LCL price is at least the per-ton price, the per-CBM price and the minimum, and equals one of the three |
| Freight.LclFreightMonotone | src/utils/calculator.ts:36-39 | With non-negative rates, more weight or volume never lowers the LCL price |
| Freight.SeaFreight | src/utils/calculator.ts:19-41 | A full load naming a type costs that type's flat cost, or 0 when the catalog lacks it; anything else is priced as LCL |
| Freight.FirstBracket | src/utils/calculator.ts:49-57 | The chosen bracket has every earlier bound at or below the weight, and its own bound above it unless it is the last bracket |
| Freight.BracketInterval | src/utils/calculator.ts:52-57 | With ascending bounds, a bracket is chosen exactly when the weight lies in its half-open interval |
| Freight.AirFreight | src/utils/calculator.ts:43-61 | Air freight is at least the minimum and at least weight times the chosen rate, and equals one of them |
| Charges.Floored | src/utils/calculator.ts:79-82 | A floored fee is at least its minimum and its percentage, and equals one of them |
| Charges.PercentOfMonotone | src/utils/calculator.ts:72 | With a non-negative rate, a percentage of the value grows with the value |
| Charges.FlooredMonotone | src/utils/calculator.ts:79-82 | With a non-negative rate, a floored fee grows with the value |
| Charges.Acceptance | src/utils/calculator.ts:70-76 | Without a non-zero cap, the acceptance fee is the floored percentage. With one, it is at most the cap and at least the smaller of minimum and cap. When minimum ≤ cap, it is the percentage clamped into [minimum, cap] |
| Charges.CalculateBankCharges | src/utils/calculator.ts:63-88 | Bank charges are at least the flat fees plus the least acceptance and the payment minimum, and at least the fees plus the acceptance fee and the payment percentage. They equal the flat fees plus the acceptance fee plus the floored payment. With a cap, they are at most the fees plus the cap and the floored payment |
| Charges.BankChargesMonotone | src/utils/calculator.ts:63-88 | With non-negative rates, bank charges never decrease as the value grows |
| Charges.CalculateOtherCharges | src/utils/calculator.ts:90-118 | Other charges equal customs plus the three floored fees, so they are at least customs plus the three minimums, and at least customs plus the three percentages |
| Charges.OtherChargesMonotone | src/utils/calculator.ts:90-118 | With non-negative rates, other charges never decrease as the value grows |
| Costing.CalculateTotalCost | src/utils/calculator.ts:120-140 | The total equals the freight. Sea uses sea freight; air uses air freight, which is at least the air minimum. No combination is attached |
| Costing.HandleCalculate | src/components/Calculator.tsx:21-53 | Outside sea + FCL + optimisation, the result is the plain total. Inside, freight and total become the optimizer's cost, its containers are attached, and its failure is the only failure |
| Combinations.TotalAppend | src/utils/calculator.ts:207-211 | Running sums over a concatenation of picks add up |
| Combinations.TotalUnits | src/utils/calculator.ts:194 | The unit count of a node is its number of picks |
| Combinations.Tally | src/utils/calculator.ts:204-205 | The containers record names only catalog types, each with a count of at least 1 |
| Combinations.TallyWeightedSum | src/utils/calculator.ts:204-211 | Weighting a node's containers record by any measure gives exactly that node's running sum |
| Combinations.SingleTypeWeightedSum | src/utils/calculator.ts:228 | A record of c containers of one type weighs c times that type's measure |
| Combinations.TotalAtMost | src/utils/calculator.ts:193-197 | At most n picks, each at most hi ≥ 0, total at most n·hi |
| Combinations.TotalAtLeast | src/utils/calculator.ts:209 | Picks each at least lo ≥ 0 total at least 0, at least lo with one pick, and at least 2·lo with two |
| Combinations.ExpandTotal | src/utils/calculator.ts:200-213 | Writing a containers record out as a node in catalog order keeps every weighted sum |
| Optimizer.Admissible | src/utils/calculator.ts:157-159 | The reefer filter. Its own contract says only that it never grows the catalog; what it keeps is stated by AdmissibleMembers, AdmissibleConcat and AdmissibleUniform |
| Optimizer.AdmissibleMembers | src/utils/calculator.ts:157-159 | The filter keeps exactly the catalog types whose reefer flag matches, and keeps names distinct |
| Optimizer.AdmissibleConcat | src/utils/calculator.ts:157-159 | The filter distributes over concatenation, so it keeps catalog order |
| Optimizer.AdmissibleUniform | src/utils/calculator.ts:157-159 | A catalog whose flags all match passes unchanged; one whose flags all differ filters to nothing |
| Optimizer.Find | src/utils/calculator.ts:167-198 | The best-so-far always covers both requirements within 20 containers. Once set it is never lost, and it is replaced only by a strictly cheaper node |
| Optimizer.TryEach | src/utils/calculator.ts:199-214 | The loop over types keeps the same accumulator invariant as Find |
| Optimizer.Search | src/utils/calculator.ts:217 | A found node covers within 20 containers. A requirement ≤ 0 is met by the empty node; with no admissible types, a positive requirement gives nothing |
| Optimizer.Largest | src/utils/calculator.ts:219-225 | The fallback type has the greatest volume, and no earlier type has as much |
| Optimizer.CalculateOptimalContainers | src/utils/calculator.ts:150-237 | A valid answer covers both requirements. Failure happens exactly when no type is admissible and some requirement is positive. Zero requirements give an empty valid answer at cost 0. An invalid answer is one largest container |
| Optimizer.OptimizerSound | src/utils/calculator.ts:174-186 | A valid answer holds 1 or more of each admissible type it names, with the requested reefer flag, at most 20 in all, and its totals are the count-weighted sums of its record |
| Optimizer.FindReaches | src/utils/calculator.ts:167-198 | With non-negative costs, the search from any node ends no costlier than every covering completion it enumerates |
| Optimizer.TryEachReaches | src/utils/calculator.ts:199-214 | The loop from type i reaches every covering completion whose first type is i or later |
| Optimizer.TryFirstReaches | src/utils/calculator.ts:200-213 | The iteration adding a completion's first type reaches that completion |
| Optimizer.KeepsBound | src/utils/calculator.ts:199-214 | A best-so-far within a bound stays within it through the loop |
| Optimizer.OptimizerOptimal | src/utils/calculator.ts:162-217 | With non-negative costs, if any multiset of at most 20 admissible containers covers the requirement, the answer is valid and costs no more than it |
| Optimizer.OptimizerMonotone | src/utils/calculator.ts:175-191 | With non-negative costs and distinct names, lowering either requirement never makes a valid answer invalid or dearer |
| Optimizer.CheapestFirstTypeAlone | src/utils/calculator.ts:174-186 | With distinct names and non-negative costs, for a positive requirement, when the first admissible type has a positive cost, is strictly cheapest and covers the requirement alone, the answer is exactly one container of it |
| Optimizer.NoMatchingFlagFails | src/utils/calculator.ts:157-225 | When no catalog entry has the requested reefer flag, a positive requirement fails with no container types |
| Optimizer.SearchFailsBeyondCap | src/utils/calculator.ts:193-197 | With at least one admissible type and non-negative volumes, when 20 of every type hold less than the required volume, the search finds nothing |
| Optimizer.BeyondCapFallsBack | src/utils/calculator.ts:219-234 | In that case the answer is the invalid fallback of one largest container |
| Defaults.DefaultCatalogWellFormed | src/utils/defaults.ts:3-11 | The default FCL table has distinct keys, positive capacities and non-negative costs |
| Defaults.DefaultGeneralPurpose | src/utils/defaults.ts:4-11 | The non-reefer filter keeps 20' GP, 40' GP and 40' HC, in that order |
| Defaults.DefaultReefer | src/utils/defaults.ts:4-11 | The reefer filter keeps 20' RF, 40' RF and 40' RH, in that order |
| Defaults.DefaultBracketsSelectByInterval | src/utils/defaults.ts:19-28 | Default bracket bounds ascend, and 500 kg selects the 0.82 bracket |
| Defaults.DefaultCalculationExamples | tests/calculation.test.ts:16-45 | Chargeable weights 9200 and 16700; a shipment that names a container but is not a full load (9200 kg/20 CBM) is priced as LCL at 150; 9200 kg by air costs 7544 |
| Defaults.DefaultLclExamples | tests/integration.test.ts:47-69 | LCL examples: 15000 kg/10 CBM costs 192 and 3000 kg/10 CBM costs 75 |
| Defaults.DefaultAirExamples | tests/integration.test.ts:73-144 | Air freights 31.5, 74.4 and 146.96 in three brackets, and the minimum 17 (the 9200 kg case at 7544 is in Defaults.DefaultCalculationExamples; air pricing ignores the FCL fields) |
| Defaults.DefaultAirWeightBreak | src/utils/defaults.ts:22-24 | Air pricing is not monotone: 99 kg costs 92.07 while 100 kg costs 88 |
| Defaults.DefaultSeaTotalCost | tests/calculation.test.ts:47-58 | One 20' GP by sea: freight and total are 165 |
| Defaults.DefaultFortyFootFreight | tests/integration.test.ts:31-42 | One 40' GP by sea costs 330 |
| Defaults.DefaultAirTotalCost | tests/integration.test.ts:172-192 | 500 kg in 2 CBM by air: freight and total are 410 |
| Defaults.DefaultAcceptanceCapped | src/utils/defaults.ts:35-37 | From a goods value of 6747 on, the default acceptance fee sits at its cap of 67.47 |
| Defaults.DefaultLargestGeneralPurpose | src/utils/defaults.ts:4-11 | Among the general-purpose types the fallback picks the 40' HC |
| Defaults.SmallShipmentOne20GP | tests/optimization.test.ts:6-14 | A positive requirement within 33 CBM and 25000 kg gives exactly one 20' GP at 165, valid |
| Defaults.SmallReeferShipmentOne20RF | tests/optimization.test.ts:103-116 | A positive reefer requirement within 27 CBM and 21000 kg gives exactly one 20' RF at 183, with no general-purpose type |
| Defaults.DefaultHighCubesSuffice | tests/optimization.test.ts:16-90 | A requirement that n ≤ 20 high cubes cover gets a valid answer that covers it and costs at most 330·n |
| Defaults.MassiveShipmentFallsBack | tests/optimization.test.ts:118-138 | More than 1520 CBM gives the invalid fallback: one 40' HC at 330 with 76 CBM and 29000 kg |

## Left out

- The React screens (`App.tsx`, `Settings.tsx`, the form's rendering) and `RatesContext.tsx` are not modelled. The rate tables are passed in as parameters. The exchange-rate type is unused by the core.
- Numbers are exact reals. IEEE-754 rounding is not modelled. The tests that compare with `toBeCloseTo` are stated as exact equalities.
- NaN and infinities are not modelled. Negative inputs are: every function takes any real and computes what the source computes.
- The total is the freight alone: `calculateTotalCost` adds neither bank nor other charges, applies no currency conversion and has no unit cost, and the model does the same.
- The air-rate fields `mscMin`, `awc`, `myc` and `msc` are left out, because no calculation reads them.
- Object-key behaviour of the FCL table is not modelled: prototype keys, and integer-like keys sorting first. The catalog is a sequence with distinct names in the order given.
- `defaults.ts` gives no `isReefer` flag. The default tables here assume the general-purpose and high-cube types are non-reefer and the RF/RH types are reefer; without flags the source's optimizer throws for every positive requirement.
- Freight.AirFreight: requires a non-empty bracket list, because the source reads the last bracket first and throws on an empty list.
- Costing.CalculateTotalCost: requires non-empty air brackets for air shipments, for the same reason.
- Costing.HandleCalculate: requires non-empty air brackets for air shipments too, because the form calls `calculateTotalCost` first.
- Optimizer.CalculateOptimalContainers: the source's default `isReeferContainer = false` is not modelled; callers pass `false` explicitly.
- Optimizer.CalculateOptimalContainers: with no admissible type and a positive requirement, the source's `reduce` throws. The model returns `Failure(NoContainerTypes)` instead.
- Optimizer.Find: among equally cheap covering nodes it keeps the first one found. Which node that is, for example for the 40 CBM / 15000 kg test, is not characterised beyond this rule.
- Defaults.DefaultHighCubesSuffice: states validity, coverage and a cost bound. The tests' container-count bounds (2 to 4, at least 3) are not stated.
- The massive-shipment test's timing bound (`performance.now`) is not modelled.
