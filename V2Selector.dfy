// MEV bundle selection: rank the simulated bundles by adjusted gas price,
// highest first and stably, then greedily take them while the bundle count
// stays below the cap and the bundle's gas fits in what is left of the limit.
module MevSource {
  import opened Transactions

  datatype MevBundle = MevBundle(transactions: seq<Transaction>, blockNumber: nat, minTimestamp: nat, maxTimestamp: nat)

  datatype SimulatedMevBundle = SimulatedMevBundle(bundle: MevBundle, gasUsed: int, bundleAdjustedGasPrice: nat)

  // ---------------------------------------------------------------------------
  // Ranking: a stable sort by adjusted gas price, descending
  // ---------------------------------------------------------------------------

  ghost predicate NonIncreasingPrice(s: seq<SimulatedMevBundle>)
  {
    forall i, j :: 0 <= i < j < |s| ==> s[j].bundleAdjustedGasPrice <= s[i].bundleAdjustedGasPrice
  }

  /** The candidates whose adjusted gas price is `price`, in their order in `s`. */
  function PricedAt(s: seq<SimulatedMevBundle>, price: nat): seq<SimulatedMevBundle>
  {
    if s == [] then []
    else (if s[0].bundleAdjustedGasPrice == price then [s[0]] else []) + PricedAt(s[1..], price)
  }

  /** Inserts `x` before the first element whose price is not above its own. */
  function InsertByPrice(x: SimulatedMevBundle, s: seq<SimulatedMevBundle>): seq<SimulatedMevBundle>
  {
    if s == [] || s[0].bundleAdjustedGasPrice <= x.bundleAdjustedGasPrice then [x] + s
    else [s[0]] + InsertByPrice(x, s[1..])
  }

  /** `OrderByDescending(b => b.BundleAdjustedGasPrice)` as a stable insertion sort. */
  function OrderByAdjustedGasPriceDescending(s: seq<SimulatedMevBundle>): seq<SimulatedMevBundle>
  {
    if s == [] then [] else InsertByPrice(s[0], OrderByAdjustedGasPriceDescending(s[1..]))
  }

  lemma {:induction false} InsertByPricePermutes(x: SimulatedMevBundle, s: seq<SimulatedMevBundle>)
    ensures multiset(InsertByPrice(x, s)) == multiset(s) + multiset{x}
  {
    if s != [] && x.bundleAdjustedGasPrice < s[0].bundleAdjustedGasPrice {
      InsertByPricePermutes(x, s[1..]);
      assert s == [s[0]] + s[1..];
    }
  }

  lemma {:induction false} InsertByPriceKeepsOrder(x: SimulatedMevBundle, s: seq<SimulatedMevBundle>)
    requires NonIncreasingPrice(s)
    ensures NonIncreasingPrice(InsertByPrice(x, s))
    ensures InsertByPrice(x, s)[0] == x || (s != [] && InsertByPrice(x, s)[0] == s[0])
  {
    if s != [] && x.bundleAdjustedGasPrice < s[0].bundleAdjustedGasPrice {
      var tail := InsertByPrice(x, s[1..]);
      assert NonIncreasingPrice(s[1..]);
      InsertByPriceKeepsOrder(x, s[1..]);
      var r := [s[0]] + tail;
      forall i, j | 0 <= i < j < |r|
        ensures r[j].bundleAdjustedGasPrice <= r[i].bundleAdjustedGasPrice
      {
        if i == 0 {
          assert r[j] == tail[j - 1];
          assert tail[0] == x || tail[0] == s[1];
          assert tail[0].bundleAdjustedGasPrice <= s[0].bundleAdjustedGasPrice;
          if j > 1 {
            assert tail[j - 1].bundleAdjustedGasPrice <= tail[0].bundleAdjustedGasPrice;
          }
        } else {
          assert r[i] == tail[i - 1] && r[j] == tail[j - 1];
        }
      }
    }
  }

  /** The ranking is a permutation of the candidates. */
  lemma {:induction false} OrderIsPermutation(s: seq<SimulatedMevBundle>)
    ensures multiset(OrderByAdjustedGasPriceDescending(s)) == multiset(s)
  {
    if s != [] {
      OrderIsPermutation(s[1..]);
      InsertByPricePermutes(s[0], OrderByAdjustedGasPriceDescending(s[1..]));
      assert s == [s[0]] + s[1..];
    }
  }

  /** The ranking puts higher adjusted gas prices first. */
  lemma {:induction false} OrderIsNonIncreasing(s: seq<SimulatedMevBundle>)
    ensures NonIncreasingPrice(OrderByAdjustedGasPriceDescending(s))
  {
    if s != [] {
      OrderIsNonIncreasing(s[1..]);
      InsertByPriceKeepsOrder(s[0], OrderByAdjustedGasPriceDescending(s[1..]));
    }
  }

  /** `PricedAt` of a sequence with a known first element. */
  lemma PricedAtCons(a: SimulatedMevBundle, t: seq<SimulatedMevBundle>, price: nat)
    ensures PricedAt([a] + t, price) == (if a.bundleAdjustedGasPrice == price then [a] else []) + PricedAt(t, price)
  {
    assert ([a] + t)[1..] == t;
  }

  lemma {:induction false} InsertByPriceStable(x: SimulatedMevBundle, s: seq<SimulatedMevBundle>, price: nat)
    ensures PricedAt(InsertByPrice(x, s), price) ==
      (if x.bundleAdjustedGasPrice == price then [x] else []) + PricedAt(s, price)
  {
    if s == [] || s[0].bundleAdjustedGasPrice <= x.bundleAdjustedGasPrice {
      PricedAtCons(x, s, price);
    } else {
      // s[0] is priced above x, so at most one of the two is at `price`.
      InsertByPriceStable(x, s[1..], price);
      PricedAtCons(s[0], InsertByPrice(x, s[1..]), price);
      PricedAtCons(s[0], s[1..], price);
      assert s == [s[0]] + s[1..];
    }
  }

  /** Ties keep their source order: for every price the sorted and unsorted candidates at that price agree. */
  lemma {:induction false} OrderIsStable(s: seq<SimulatedMevBundle>, price: nat)
    ensures PricedAt(OrderByAdjustedGasPriceDescending(s), price) == PricedAt(s, price)
  {
    if s != [] {
      OrderIsStable(s[1..], price);
      InsertByPriceStable(s[0], OrderByAdjustedGasPriceDescending(s[1..]), price);
    }
  }

  // ---------------------------------------------------------------------------
  // Packing: the greedy count- and gas-capped scan, as a reference function
  // ---------------------------------------------------------------------------

  function GasSum(s: seq<SimulatedMevBundle>): int
  {
    if s == [] then 0 else s[0].gasUsed + GasSum(s[1..])
  }

  /** The bundles chosen from `candidates`, scanned in order, with `budget` gas and `slots` places left. */
  function Pack(candidates: seq<SimulatedMevBundle>, budget: int, slots: int): seq<SimulatedMevBundle>
  {
    if candidates == [] || slots <= 0 then []
    else if candidates[0].gasUsed <= budget then
      [candidates[0]] + Pack(candidates[1..], budget - candidates[0].gasUsed, slots - 1)
    else Pack(candidates[1..], budget, slots)
  }

  /** `r` is `s` with some elements left out. */
  ghost predicate IsSubsequence(r: seq<SimulatedMevBundle>, s: seq<SimulatedMevBundle>)
  {
    r == [] || (s != [] && ((r[0] == s[0] && IsSubsequence(r[1..], s[1..])) || IsSubsequence(r, s[1..])))
  }

  function BundlesOf(s: seq<SimulatedMevBundle>): seq<MevBundle>
  {
    seq(|s|, k requires 0 <= k < |s| => s[k].bundle)
  }

  lemma BundlesOfAppend(s: seq<SimulatedMevBundle>, x: SimulatedMevBundle)
    ensures BundlesOf(s + [x]) == BundlesOf(s) + [x.bundle]
  {
    var l, r := BundlesOf(s + [x]), BundlesOf(s) + [x.bundle];
    assert |l| == |r|;
    forall k | 0 <= k < |l| ensures l[k] == r[k] {
      if k < |s| { assert (s + [x])[k] == s[k]; }
    }
  }

  lemma {:induction false} GasSumAppend(a: seq<SimulatedMevBundle>, b: seq<SimulatedMevBundle>)
    ensures GasSum(a + b) == GasSum(a) + GasSum(b)
  {
    if a == [] {
      assert a + b == b;
    } else {
      assert (a + b)[1..] == a[1..] + b;
      GasSumAppend(a[1..], b);
    }
  }

  /** Scanning one more candidate extends the earlier choice and never revises it: the candidate is taken iff a place is left and its gas fits. */
  lemma {:induction false} PackSnoc(candidates: seq<SimulatedMevBundle>, x: SimulatedMevBundle, budget: int, slots: int)
    ensures Pack(candidates + [x], budget, slots) ==
      Pack(candidates, budget, slots) +
      (if |Pack(candidates, budget, slots)| < slots && x.gasUsed <= budget - GasSum(Pack(candidates, budget, slots))
       then [x] else [])
  {
    if candidates == [] {
      assert candidates + [x] == [x];
    } else if slots > 0 {
      assert (candidates + [x])[0] == candidates[0];
      assert (candidates + [x])[1..] == candidates[1..] + [x];
      var c := candidates[0];
      if c.gasUsed <= budget {
        PackSnoc(candidates[1..], x, budget - c.gasUsed, slots - 1);
      } else {
        PackSnoc(candidates[1..], x, budget, slots);
      }
    }
  }

  /** At most `slots` bundles are taken, and none at all when the cap is not positive. */
  lemma {:induction false} PackWithinCap(candidates: seq<SimulatedMevBundle>, budget: int, slots: int)
    ensures |Pack(candidates, budget, slots)| <= if slots < 0 then 0 else slots
    ensures slots <= 0 ==> Pack(candidates, budget, slots) == []
  {
    if candidates != [] && slots > 0 {
      var c := candidates[0];
      if c.gasUsed <= budget {
        PackWithinCap(candidates[1..], budget - c.gasUsed, slots - 1);
      } else {
        PackWithinCap(candidates[1..], budget, slots);
      }
    }
  }

  /** The gas of the taken bundles fits in the budget whenever anything is taken. */
  lemma {:induction false} PackWithinBudget(candidates: seq<SimulatedMevBundle>, budget: int, slots: int)
    ensures Pack(candidates, budget, slots) != [] ==> GasSum(Pack(candidates, budget, slots)) <= budget
    ensures budget >= 0 ==> GasSum(Pack(candidates, budget, slots)) <= budget
  {
    if candidates != [] && slots > 0 {
      var c := candidates[0];
      if c.gasUsed <= budget {
        PackWithinBudget(candidates[1..], budget - c.gasUsed, slots - 1);
      } else {
        PackWithinBudget(candidates[1..], budget, slots);
      }
    }
  }

  /** Bundles are taken whole, in scan order, each at most once. */
  lemma {:induction false} PackIsSubsequence(candidates: seq<SimulatedMevBundle>, budget: int, slots: int)
    ensures IsSubsequence(Pack(candidates, budget, slots), candidates)
  {
    if candidates != [] && slots > 0 {
      var c := candidates[0];
      var r := Pack(candidates, budget, slots);
      if c.gasUsed <= budget {
        PackIsSubsequence(candidates[1..], budget - c.gasUsed, slots - 1);
        assert r[0] == c && r[1..] == Pack(candidates[1..], budget - c.gasUsed, slots - 1);
      } else {
        PackIsSubsequence(candidates[1..], budget, slots);
      }
    }
  }

  lemma {:induction false} SubsequenceMembers(r: seq<SimulatedMevBundle>, s: seq<SimulatedMevBundle>)
    requires IsSubsequence(r, s)
    ensures forall x :: x in r ==> x in s
  {
    if r != [] {
      if r[0] == s[0] && IsSubsequence(r[1..], s[1..]) {
        SubsequenceMembers(r[1..], s[1..]);
        assert r == [r[0]] + r[1..];
      } else {
        SubsequenceMembers(r, s[1..]);
      }
    }
  }

  /** A subsequence of a price-ordered sequence is price-ordered. */
  lemma {:induction false} SubsequenceKeepsOrder(r: seq<SimulatedMevBundle>, s: seq<SimulatedMevBundle>)
    requires IsSubsequence(r, s) && NonIncreasingPrice(s)
    ensures NonIncreasingPrice(r)
  {
    if r != [] {
      assert NonIncreasingPrice(s[1..]);
      if r[0] == s[0] && IsSubsequence(r[1..], s[1..]) {
        SubsequenceKeepsOrder(r[1..], s[1..]);
        SubsequenceMembers(r[1..], s[1..]);
        forall j | 0 < j < |r|
          ensures r[j].bundleAdjustedGasPrice <= r[0].bundleAdjustedGasPrice
        {
          assert r[j] == r[1..][j - 1];
          assert r[j] in s[1..];
        }
      } else {
        SubsequenceKeepsOrder(r, s[1..]);
      }
    }
  }

  /** When no candidate fits in the gas limit, nothing is taken. */
  lemma {:induction false} PackNothingFits(candidates: seq<SimulatedMevBundle>, budget: int, slots: int)
    requires forall x :: x in candidates ==> budget < x.gasUsed
    ensures Pack(candidates, budget, slots) == []
  {
    if candidates != [] && slots > 0 {
      assert candidates[0] in candidates;
      PackNothingFits(candidates[1..], budget, slots);
    }
  }

  lemma {:induction false} PackGasNonNegative(candidates: seq<SimulatedMevBundle>, budget: int, slots: int)
    requires forall x :: x in candidates ==> 0 <= x.gasUsed
    ensures GasSum(Pack(candidates, budget, slots)) >= 0
  {
    if candidates != [] && slots > 0 {
      assert candidates[0] in candidates;
      if candidates[0].gasUsed <= budget {
        PackGasNonNegative(candidates[1..], budget - candidates[0].gasUsed, slots - 1);
      } else {
        PackGasNonNegative(candidates[1..], budget, slots);
      }
    }
  }

  /**
   * Greedy maximality: when the cap is not reached and gas is never negative,
   * every candidate that fits in the gas left over was taken.
   */
  lemma {:induction false} PackIsMaximal(candidates: seq<SimulatedMevBundle>, budget: int, slots: int)
    requires forall x :: x in candidates ==> 0 <= x.gasUsed
    requires |Pack(candidates, budget, slots)| < slots
    ensures forall x :: x in candidates && x.gasUsed <= budget - GasSum(Pack(candidates, budget, slots)) ==>
      x in Pack(candidates, budget, slots)
  {
    if candidates != [] {
      var c := candidates[0];
      var r := Pack(candidates, budget, slots);
      assert c in candidates;
      assert forall x :: x in candidates[1..] ==> x in candidates;
      if c.gasUsed <= budget {
        var rest := Pack(candidates[1..], budget - c.gasUsed, slots - 1);
        PackIsMaximal(candidates[1..], budget - c.gasUsed, slots - 1);
        assert r == [c] + rest;
        GasSumAppend([c], rest);
        assert GasSum([c]) == c.gasUsed;
      } else {
        PackIsMaximal(candidates[1..], budget, slots);
        PackGasNonNegative(candidates[1..], budget, slots);
      }
      forall x | x in candidates && x.gasUsed <= budget - GasSum(r)
        ensures x in r
      {
        if x != c {
          assert x in candidates[1..];
        }
      }
    }
  }

  /** Once the cap is reached, later candidates are never examined: they cannot change the result. */
  lemma {:induction false} PackIgnoresRestAfterCap(
    candidates: seq<SimulatedMevBundle>, rest: seq<SimulatedMevBundle>, budget: int, slots: int)
    requires |Pack(candidates, budget, slots)| >= slots
    ensures Pack(candidates + rest, budget, slots) == Pack(candidates, budget, slots)
  {
    if candidates == [] {
      assert candidates + rest == rest;
    } else if slots > 0 {
      assert (candidates + rest)[0] == candidates[0];
      assert (candidates + rest)[1..] == candidates[1..] + rest;
      var c := candidates[0];
      if c.gasUsed <= budget {
        PackIgnoresRestAfterCap(candidates[1..], rest, budget - c.gasUsed, slots - 1);
      } else {
        PackIgnoresRestAfterCap(candidates[1..], rest, budget, slots);
      }
    }
  }

  // ---------------------------------------------------------------------------
  // The selector
  // ---------------------------------------------------------------------------

  /** The candidates GetBundles takes, before they are unwrapped to bundles. */
  function Selection(simulatedBundles: seq<SimulatedMevBundle>, gasLimit: int, maxMergedBundles: int): seq<SimulatedMevBundle>
  {
    Pack(OrderByAdjustedGasPriceDescending(simulatedBundles), gasLimit, maxMergedBundles)
  }

  class V2Selector {
    const maxMergedBundles: int

    constructor (maxMergedBundles: int)
      ensures this.maxMergedBundles == maxMergedBundles
    {
      this.maxMergedBundles := maxMergedBundles;
    }

    /** The bundles for the next block, from the already simulated candidates. */
    method GetBundles(simulatedBundles: seq<SimulatedMevBundle>, gasLimit: int) returns (bundles: seq<MevBundle>)
      ensures bundles == BundlesOf(Selection(simulatedBundles, gasLimit, maxMergedBundles))
    {
      var includedBundles: seq<MevBundle> := [];
      var totalGasUsed := 0;
      ghost var taken: seq<SimulatedMevBundle> := [];

      var sorted := OrderByAdjustedGasPriceDescending(simulatedBundles);
      var i := 0;
      while i < |sorted|
        invariant 0 <= i <= |sorted|
        invariant taken == Pack(sorted[..i], gasLimit, maxMergedBundles)
        invariant includedBundles == BundlesOf(taken)
        invariant totalGasUsed == GasSum(taken)
      {
        var simulatedBundle := sorted[i];
        if |includedBundles| < maxMergedBundles {
          if simulatedBundle.gasUsed <= gasLimit - totalGasUsed {
            includedBundles := includedBundles + [simulatedBundle.bundle];
            totalGasUsed := totalGasUsed + simulatedBundle.gasUsed;
            BundlesOfAppend(taken, simulatedBundle);
            GasSumAppend(taken, [simulatedBundle]);
            taken := taken + [simulatedBundle];
          }
          PackStep(sorted, i, gasLimit, maxMergedBundles);
        } else {
          PackCapReached(sorted, i, gasLimit, maxMergedBundles);
          break;
        }
        i := i + 1;
      }
      assert i == |sorted| ==> sorted[..i] == sorted;

      bundles := if |includedBundles| > 0 then includedBundles else [];
    }
  }

  /** One iteration of the scan, in terms of the prefix scanned so far. */
  lemma PackStep(sorted: seq<SimulatedMevBundle>, i: nat, budget: int, slots: int)
    requires i < |sorted|
    ensures Pack(sorted[..i + 1], budget, slots) ==
      Pack(sorted[..i], budget, slots) +
      (if |Pack(sorted[..i], budget, slots)| < slots && sorted[i].gasUsed <= budget - GasSum(Pack(sorted[..i], budget, slots))
       then [sorted[i]] else [])
  {
    assert sorted[..i + 1] == sorted[..i] + [sorted[i]];
    PackSnoc(sorted[..i], sorted[i], budget, slots);
  }

  /** Breaking out of the scan once the cap is reached gives the whole scan's result. */
  lemma PackCapReached(sorted: seq<SimulatedMevBundle>, i: nat, budget: int, slots: int)
    requires i <= |sorted| && |Pack(sorted[..i], budget, slots)| >= slots
    ensures Pack(sorted, budget, slots) == Pack(sorted[..i], budget, slots)
  {
    assert sorted[..i] + sorted[i..] == sorted;
    PackIgnoresRestAfterCap(sorted[..i], sorted[i..], budget, slots);
  }

  // ---------------------------------------------------------------------------
  // What the selection promises
  // ---------------------------------------------------------------------------

  /** Count, gas, order and whole-bundle inclusion of the selection. */
  lemma SelectionProperties(simulatedBundles: seq<SimulatedMevBundle>, gasLimit: int, maxMergedBundles: int)
    ensures var r := Selection(simulatedBundles, gasLimit, maxMergedBundles);
      && |r| <= (if maxMergedBundles < 0 then 0 else maxMergedBundles)
      && (r != [] ==> GasSum(r) <= gasLimit)
      && IsSubsequence(r, OrderByAdjustedGasPriceDescending(simulatedBundles))
      && NonIncreasingPrice(r)
      && forall x :: x in r ==> x in simulatedBundles
  {
    var sorted := OrderByAdjustedGasPriceDescending(simulatedBundles);
    var r := Selection(simulatedBundles, gasLimit, maxMergedBundles);
    OrderIsPermutation(simulatedBundles);
    OrderIsNonIncreasing(simulatedBundles);
    PackWithinCap(sorted, gasLimit, maxMergedBundles);
    PackWithinBudget(sorted, gasLimit, maxMergedBundles);
    PackIsSubsequence(sorted, gasLimit, maxMergedBundles);
    SubsequenceKeepsOrder(r, sorted);
    SubsequenceMembers(r, sorted);
    forall x | x in r ensures x in simulatedBundles {
      assert x in multiset(sorted);
    }
  }

  /** No candidate fits in the gas limit: the selection is empty. */
  lemma SelectionEmptyWhenNothingFits(simulatedBundles: seq<SimulatedMevBundle>, gasLimit: int, maxMergedBundles: int)
    requires forall x :: x in simulatedBundles ==> gasLimit < x.gasUsed
    ensures Selection(simulatedBundles, gasLimit, maxMergedBundles) == []
  {
    var sorted := OrderByAdjustedGasPriceDescending(simulatedBundles);
    OrderIsPermutation(simulatedBundles);
    forall x | x in sorted ensures gasLimit < x.gasUsed {
      assert x in multiset(simulatedBundles);
    }
    PackNothingFits(sorted, gasLimit, maxMergedBundles);
  }

  /** Below the cap and with non-negative gas, no candidate left out would still have fitted. */
  lemma SelectionIsMaximal(simulatedBundles: seq<SimulatedMevBundle>, gasLimit: int, maxMergedBundles: int)
    requires forall x :: x in simulatedBundles ==> 0 <= x.gasUsed
    requires |Selection(simulatedBundles, gasLimit, maxMergedBundles)| < maxMergedBundles
    ensures var r := Selection(simulatedBundles, gasLimit, maxMergedBundles);
      forall x :: x in simulatedBundles && x !in r ==> gasLimit - GasSum(r) < x.gasUsed
  {
    var sorted := OrderByAdjustedGasPriceDescending(simulatedBundles);
    OrderIsPermutation(simulatedBundles);
    forall x | x in sorted ensures 0 <= x.gasUsed {
      assert x in multiset(sorted);
    }
    forall x | x in simulatedBundles ensures x in sorted {
      assert x in multiset(simulatedBundles);
    }
    PackIsMaximal(sorted, gasLimit, maxMergedBundles);
  }

  /** Three candidates priced 10, 8 and 5 have exactly one ranking, whatever order they arrive in. */
  lemma RankingOfThree(c1: SimulatedMevBundle, c2: SimulatedMevBundle, c3: SimulatedMevBundle, t: seq<SimulatedMevBundle>)
    requires c1.bundleAdjustedGasPrice == 10 && c2.bundleAdjustedGasPrice == 8 && c3.bundleAdjustedGasPrice == 5
    requires multiset(t) == multiset{c1, c2, c3}
    requires NonIncreasingPrice(t)
    ensures t == [c1, c2, c3]
  {
    assert |t| == |multiset(t)| == 3;
    forall k | 0 <= k < 3 ensures t[k] == c1 || t[k] == c2 || t[k] == c3 {
      assert t[k] in multiset(t);
    }
    assert c1 in multiset(t) && c3 in multiset(t);
    var i1 :| 0 <= i1 < 3 && t[i1] == c1;
    var i3 :| 0 <= i3 < 3 && t[i3] == c3;
    // the first is priced at least 10 and the last at most 5
    assert t[0].bundleAdjustedGasPrice >= t[i1].bundleAdjustedGasPrice;
    assert t[2].bundleAdjustedGasPrice <= t[i3].bundleAdjustedGasPrice;
    assert t[0] == c1 && t[2] == c3;
    // the middle one is neither c1 nor c3, which occur once each
    assert t == [c1, t[1], c3];
    assert c2 in multiset(t);
  }

  /**
   * The worked example: prices 10, 8, 5 with gas 5, 6, 3 and a gas limit of 8,
   * in any input order. With two places c1 is taken (3 gas left), c2 needs 6
   * and is skipped, c3 needs 3 and is taken; with one place c1 fills it.
   */
  lemma WorkedExample(c1: SimulatedMevBundle, c2: SimulatedMevBundle, c3: SimulatedMevBundle, s: seq<SimulatedMevBundle>)
    requires c1.gasUsed == 5 && c1.bundleAdjustedGasPrice == 10
    requires c2.gasUsed == 6 && c2.bundleAdjustedGasPrice == 8
    requires c3.gasUsed == 3 && c3.bundleAdjustedGasPrice == 5
    requires multiset(s) == multiset{c1, c2, c3}
    ensures Selection(s, 8, 2) == [c1, c3]
    ensures Selection(s, 8, 1) == [c1]
  {
    OrderIsPermutation(s);
    OrderIsNonIncreasing(s);
    RankingOfThree(c1, c2, c3, OrderByAdjustedGasPriceDescending(s));
    var ranked := [c1, c2, c3];
    assert ranked[1..] == [c2, c3] && ranked[1..][1..] == [c3] && [c3][1..] == [];
    assert Pack([c3], 3, 1) == [c3];
    assert Pack([c2, c3], 3, 1) == [c3];
    assert Pack(ranked, 8, 2) == [c1, c3];
    assert Pack([c2, c3], 3, 0) == [];
    assert Pack(ranked, 8, 1) == [c1];
  }
}
