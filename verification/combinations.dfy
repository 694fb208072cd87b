/** Multisets of container types as the optimizer builds them: a search node
    is the sequence of indices (into the admissible container types) of the
    containers added so far, and the totals the search keeps in running sums
    are sums over that sequence. */
module Combinations {
  import opened Types

  /** The quantities summed over a combination; `Units` counts containers. */
  datatype Measure = Cost | Volume | Weight | Units

  function Of(s: ContainerSpec, m: Measure): real {
    match m
    case Cost => s.cost
    case Volume => s.maxVolume
    case Weight => s.maxWeight
    case Units => 1.0
  }

  /** Every pick names one of the types. */
  predicate InRange(ts: seq<FclEntry>, picks: seq<nat>) {
    forall k :: 0 <= k < |picks| ==> picks[k] < |ts|
  }

  predicate NonDecreasing(s: seq<nat>) {
    forall i, j :: 0 <= i <= j < |s| ==> s[i] <= s[j]
  }

  /** The running sum of one measure over the picks, added in pick order. */
  function Total(ts: seq<FclEntry>, picks: seq<nat>, m: Measure): real
    requires InRange(ts, picks)
    decreases |picks|
  {
    if |picks| == 0 then 0.0
    else Total(ts, picks[..|picks| - 1], m) + Of(ts[picks[|picks| - 1]].spec, m)
  }

  /** Totals of a concatenation add up. */
  lemma {:induction false} TotalAppend(ts: seq<FclEntry>, a: seq<nat>, b: seq<nat>, m: Measure)
    requires InRange(ts, a) && InRange(ts, b)
    ensures InRange(ts, a + b)
    ensures Total(ts, a + b, m) == Total(ts, a, m) + Total(ts, b, m)
    decreases |b|
  {
    if |b| > 0 {
      var b' := b[..|b| - 1];
      assert (a + b)[..|a + b| - 1] == a + b';
      assert (a + b)[|a + b| - 1] == b[|b| - 1];
      TotalAppend(ts, a, b', m);
    } else {
      assert a + b == a;
    }
  }

  /** The `Units` total is the number of containers. */
  lemma {:induction false} TotalUnits(ts: seq<FclEntry>, picks: seq<nat>)
    requires InRange(ts, picks)
    ensures Total(ts, picks, Units) == |picks| as real
    decreases |picks|
  {
    if |picks| > 0 {
      TotalUnits(ts, picks[..|picks| - 1]);
    }
  }

  /** When every type's measure is at most `hi >= 0`, at most `n` picks total at most `n*hi`. */
  lemma {:induction false} TotalAtMost(ts: seq<FclEntry>, picks: seq<nat>, m: Measure, hi: real, n: nat)
    requires InRange(ts, picks) && |picks| <= n && 0.0 <= hi
    requires forall i :: 0 <= i < |ts| ==> Of(ts[i].spec, m) <= hi
    ensures Total(ts, picks, m) <= n as real * hi
    decreases |picks|
  {
    if |picks| > 0 {
      var last := |picks| - 1;
      TotalAtMost(ts, picks[..last], m, hi, n - 1);
      assert Total(ts, picks[..last], m) <= Times(n - 1, hi);
      assert Of(ts[picks[last]].spec, m) <= hi;
    } else {
      TimesNonNegative(n, hi);
    }
    assert Total(ts, picks, m) <= Times(n, hi);
  }

  lemma TimesNonNegative(c: nat, x: real)
    requires 0.0 <= x
    ensures 0.0 <= Times(c, x)
  {
  }

  /** When every type's measure is at least `lo >= 0`, one pick totals at
      least `lo` and two or more at least `2*lo`. */
  lemma {:induction false} TotalAtLeast(ts: seq<FclEntry>, picks: seq<nat>, m: Measure, lo: real)
    requires InRange(ts, picks) && lo >= 0.0
    requires forall i :: 0 <= i < |ts| ==> lo <= Of(ts[i].spec, m)
    ensures Total(ts, picks, m) >= 0.0
    ensures |picks| >= 1 ==> Total(ts, picks, m) >= lo
    ensures |picks| >= 2 ==> Total(ts, picks, m) >= 2.0 * lo
    decreases |picks|
  {
    if |picks| > 0 {
      TotalAtLeast(ts, picks[..|picks| - 1], m, lo);
    }
  }

  /** The record holding `c` containers of type `k` and nothing else weighs
      `c` times that type's measure (names are distinct). */
  lemma {:induction false} SingleTypeWeightedSum(ts: seq<FclEntry>, k: nat, c: nat, m: Measure, n: nat)
    requires DistinctNames(ts) && k < |ts| && n <= |ts|
    ensures WeightedSumUpTo(ts, map[ts[k].name := c], m, n)
            == (if k < n then c as real * Of(ts[k].spec, m) else 0.0)
  {
    if n > 0 {
      SingleTypeWeightedSum(ts, k, c, m, n - 1);
      if n - 1 != k {
        assert ts[n - 1].name != ts[k].name;
        assert Get(map[ts[k].name := c], ts[n - 1].name) == 0;
      }
    }
  }

  /** The count stored under `k` in a `containers` record; 0 when absent. */
  function Get(m: map<string, nat>, k: string): nat {
    if k in m then m[k] else 0
  }

  /** `c * x` for a count `c`, as repeated addition. */
  function Times(c: nat, x: real): (r: real)
    ensures r == c as real * x
  {
    if c == 0 then 0.0 else Times(c - 1, x) + x
  }

  /** The `containers` record of a node: each pick bumps the count stored
      under its type's name. */
  function Tally(ts: seq<FclEntry>, picks: seq<nat>): (m: map<string, nat>)
    requires InRange(ts, picks)
    ensures m.Keys <= Names(ts)
    ensures forall k :: k in m ==> m[k] >= 1
    decreases |picks|
  {
    if |picks| == 0 then map[]
    else
      var prior := Tally(ts, picks[..|picks| - 1]);
      var entry := ts[picks[|picks| - 1]];
      assert entry.name in Names(ts);
      prior[entry.name := Get(prior, entry.name) + 1]
  }

  /** The count-weighted sum of one measure over the first `n` types, each
      weighted by the count a `containers` record stores under its name. */
  function WeightedSumUpTo(ts: seq<FclEntry>, counts: map<string, nat>, m: Measure, n: nat): real
    requires n <= |ts|
  {
    if n == 0 then 0.0
    else WeightedSumUpTo(ts, counts, m, n - 1) + Times(Get(counts, ts[n - 1].name), Of(ts[n - 1].spec, m))
  }

  function WeightedSum(ts: seq<FclEntry>, counts: map<string, nat>, m: Measure): real {
    WeightedSumUpTo(ts, counts, m, |ts|)
  }

  /** Bumping the count of type `j` adds that type's measure once (names are distinct). */
  lemma {:induction false} WeightedSumBump(ts: seq<FclEntry>, counts: map<string, nat>, m: Measure, j: nat, n: nat)
    requires DistinctNames(ts) && j < |ts| && n <= |ts|
    ensures WeightedSumUpTo(ts, counts[ts[j].name := Get(counts, ts[j].name) + 1], m, n)
            == WeightedSumUpTo(ts, counts, m, n) + (if j < n then Of(ts[j].spec, m) else 0.0)
  {
    if n > 0 {
      var bumped := counts[ts[j].name := Get(counts, ts[j].name) + 1];
      WeightedSumBump(ts, counts, m, j, n - 1);
      if n - 1 == j {
        assert Get(bumped, ts[j].name) == Get(counts, ts[j].name) + 1;
      } else {
        assert ts[n - 1].name != ts[j].name;
        assert Get(bumped, ts[n - 1].name) == Get(counts, ts[n - 1].name);
      }
    }
  }

  /** An empty record weighs nothing. */
  lemma {:induction false} WeightedSumEmpty(ts: seq<FclEntry>, m: Measure, n: nat)
    requires n <= |ts|
    ensures WeightedSumUpTo(ts, map[], m, n) == 0.0
  {
    if n > 0 {
      WeightedSumEmpty(ts, m, n - 1);
    }
  }

  /** The record of a node, weighted by any measure, gives the node's running total. */
  lemma {:induction false} TallyWeightedSum(ts: seq<FclEntry>, picks: seq<nat>, m: Measure)
    requires DistinctNames(ts) && InRange(ts, picks)
    ensures WeightedSum(ts, Tally(ts, picks), m) == Total(ts, picks, m)
    decreases |picks|
  {
    if |picks| == 0 {
      WeightedSumEmpty(ts, m, |ts|);
    } else {
      var prefix := picks[..|picks| - 1];
      TallyWeightedSum(ts, prefix, m);
      WeightedSumBump(ts, Tally(ts, prefix), m, picks[|picks| - 1], |ts|);
    }
  }

  /** `c` copies of type `i`. */
  function Repeat(i: nat, c: nat): (s: seq<nat>)
    ensures |s| == c
    ensures forall k :: 0 <= k < c ==> s[k] == i
  {
    if c == 0 then [] else Repeat(i, c - 1) + [i]
  }

  lemma {:induction false} TotalRepeat(ts: seq<FclEntry>, i: nat, c: nat, m: Measure)
    requires i < |ts|
    ensures InRange(ts, Repeat(i, c))
    ensures Total(ts, Repeat(i, c), m) == Times(c, Of(ts[i].spec, m))
  {
    if c == 0 {
      assert Repeat(i, c) == [];
    } else {
      var s := Repeat(i, c);
      TotalRepeat(ts, i, c - 1, m);
      assert s[..c - 1] == Repeat(i, c - 1);
      assert s[c - 1] == i;
    }
  }

  /** A `containers` record over the first `n` types written out as a
      node: the order in which the search would build it. */
  function ExpandUpTo(ts: seq<FclEntry>, counts: map<string, nat>, n: nat): (picks: seq<nat>)
    requires n <= |ts|
    ensures forall k :: 0 <= k < |picks| ==> picks[k] < n
  {
    if n == 0 then []
    else ExpandUpTo(ts, counts, n - 1) + Repeat(n - 1, Get(counts, ts[n - 1].name))
  }

  /** The written-out node lists the types in the order of the catalog. */
  lemma {:induction false} ExpandNonDecreasing(ts: seq<FclEntry>, counts: map<string, nat>, n: nat)
    requires n <= |ts|
    ensures NonDecreasing(ExpandUpTo(ts, counts, n))
  {
    if n > 0 {
      ExpandNonDecreasing(ts, counts, n - 1);
    }
  }

  /** Writing a record out as a node keeps every count-weighted sum. */
  lemma {:induction false} ExpandTotal(ts: seq<FclEntry>, counts: map<string, nat>, m: Measure, n: nat)
    requires n <= |ts|
    ensures InRange(ts, ExpandUpTo(ts, counts, n))
    ensures Total(ts, ExpandUpTo(ts, counts, n), m) == WeightedSumUpTo(ts, counts, m, n)
  {
    if n > 0 {
      var c := Get(counts, ts[n - 1].name);
      ExpandTotal(ts, counts, m, n - 1);
      TotalRepeat(ts, n - 1, c, m);
      TotalAppend(ts, ExpandUpTo(ts, counts, n - 1), Repeat(n - 1, c), m);
    }
  }
}
