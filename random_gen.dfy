/** The sampler object: the table is built in place in its array fields by the
    constructor's loop, and `NextNum` scans it for a given uniform draw. */
module Sampler {
  import opened Precision
  import opened Distribution

  class RandomGen {
    var randomNums: array<int>
    var cumProbabilities: array<real>
    var totalNonZeroProbElement: nat

    /** Slots up to the counter hold a valid table; the slots after it stay 0. */
    ghost predicate Valid()
      reads this, randomNums, cumProbabilities
    {
      totalNonZeroProbElement <= cumProbabilities.Length
      && randomNums.Length == totalNonZeroProbElement
      && (forall k :: totalNonZeroProbElement <= k < cumProbabilities.Length ==> cumProbabilities[k] == 0.0)
      && ValidTable(View())
    }

    /** The table the object holds: the retained values and the filled slots. */
    ghost function View(): Table
      reads this, randomNums, cumProbabilities
      requires totalNonZeroProbElement <= cumProbabilities.Length
    {
      Table(randomNums[..], cumProbabilities[..totalNonZeroProbElement])
    }

    /** The allocation at the start of construction: a zeroed running-sum array
        as long as the input, and no retained entry yet. */
    constructor (n: nat)
      ensures fresh(randomNums) && fresh(cumProbabilities)
      ensures cumProbabilities.Length == n && randomNums.Length == 0
      ensures totalNonZeroProbElement == 0
      ensures forall k :: 0 <= k < n ==> cumProbabilities[k] == 0.0
    {
      randomNums := new int[0];
      cumProbabilities := new real[n](_ => 0.0);
      totalNonZeroProbElement := 0;
    }

    /** Constructs a sampler, or reports why the arrays are refused. */
    static method Create(values: seq<int>, weights: seq<Weight>) returns (res: Result<RandomGen>)
      ensures res.Err? <==> Build(values, weights).Err?
      ensures res.Err? ==> res.error == Build(values, weights).error
      ensures res.Ok? ==> fresh(res.value) && res.value.Valid()
                          && res.value.View() == Build(values, weights).value
    {
      if |values| != |weights| || |weights| == 0 {
        return Err(BadShape);
      }
      var g := new RandomGen(|weights|);
      var o := g.Load(values, weights);
      if o.Fail? {
        return Err(o.error);
      }
      return Ok(g);
    }

    /** The state after the constructor's loop has gone through the first `i`
        entries without throwing: the filled slots are the running sums of the
        entries retained so far, the other slots are 0, and `validNums` holds
        the retained values. */
    ghost predicate Scanned(values: seq<int>, weights: seq<Weight>, i: nat, validNums: seq<int>)
      reads this, cumProbabilities
    {
      |values| == |weights| == cumProbabilities.Length && i <= |weights|
      && totalNonZeroProbElement <= i
      && (forall j :: 0 <= j < i ==> !Rejected(weights, j))
      && cumProbabilities[..totalNonZeroProbElement] == PrefixSums(KeptWeights(weights[..i]))
      && (forall k :: totalNonZeroProbElement <= k < cumProbabilities.Length ==> cumProbabilities[k] == 0.0)
      && validNums == KeptValues(values[..i], weights[..i])
    }

    /** The validation loop of the constructor, then the checks after it. */
    method Load(values: seq<int>, weights: seq<Weight>) returns (o: Outcome)
      requires |values| == |weights| == cumProbabilities.Length && 0 < |weights|
      requires totalNonZeroProbElement == 0
      requires forall k :: 0 <= k < cumProbabilities.Length ==> cumProbabilities[k] == 0.0
      modifies this, cumProbabilities
      ensures cumProbabilities == old(cumProbabilities)
      ensures o.Fail? <==> Build(values, weights).Err?
      ensures o.Fail? ==> o.error == Build(values, weights).error
      ensures o.Pass? ==> fresh(randomNums) && Valid() && View() == Build(values, weights).value
    {
      var validNums: seq<int> := [];
      var n := |weights|;
      assert weights[..0] == [] && values[..0] == [];
      for i := 0 to n
        invariant cumProbabilities == old(cumProbabilities)
        invariant Scanned(values, weights, i, validNums)
      {
        o, validNums := Absorb(values, weights, i, validNums);
        if o.Fail? {
          return;
        }
      }
      assert weights[..n] == weights && values[..n] == values;
      FirstRejectedAt(weights, n);
      o := Finish(values, weights, validNums);
    }

    /** One turn of the constructor's loop on entry `i`: reject a weight that
        is out of range; skip one within PRECISION of 0; otherwise store the
        running sum in the next slot, reject it if it exceeds 1, and keep the
        value. */
    method Absorb(values: seq<int>, weights: seq<Weight>, i: nat, validNums: seq<int>)
      returns (o: Outcome, nums: seq<int>)
      requires Scanned(values, weights, i, validNums) && i < |weights|
      modifies this, cumProbabilities
      ensures cumProbabilities == old(cumProbabilities)
      ensures o.Fail? ==> 0 < |values| && Build(values, weights) == Err(o.error)
      ensures o.Pass? ==> Scanned(values, weights, i + 1, nums)
    {
      nums := validNums;
      var prob := weights[i];
      KeptWeightsStep(weights, i);
      KeptValuesStep(values, weights, i);
      if IsNanOrInfinite(prob) || IsLessThan(prob.value, 0.0) || IsGreaterThan(prob.value, 1.0) {
        FirstRejectedAt(weights, i);
        return Fail(InvalidProbability(prob)), nums;
      }
      ghost var kept := KeptWeights(weights[..i]);
      if !EqualsWithPrecision(prob.value, 0.0) {
        var t := totalNonZeroProbElement;
        RunningSumStep(weights, i);
        cumProbabilities[t] := if t == 0 then prob.value else prob.value + cumProbabilities[t - 1];
        if IsGreaterThan(cumProbabilities[t], 1.0) {
          FirstRejectedAt(weights, i);
          return Fail(CumulativeExceedsOne), nums;
        }
        assert cumProbabilities[..t + 1] == cumProbabilities[..t] + [cumProbabilities[t]];
        totalNonZeroProbElement := t + 1;
        nums := nums + [values[i]];
      } else {
        assert KeptWeights(weights[..i + 1]) == kept;
      }
      o := Pass;
    }

    /** The checks after the loop: some entry was retained and the last running
        sum is exactly 1; then the retained values become the value array. */
    method Finish(values: seq<int>, weights: seq<Weight>, validNums: seq<int>) returns (o: Outcome)
      requires |values| == |weights| == cumProbabilities.Length && 0 < |weights|
      requires FirstRejected(weights, 0) == |weights|
      requires totalNonZeroProbElement <= cumProbabilities.Length
      requires cumProbabilities[..totalNonZeroProbElement] == PrefixSums(KeptWeights(weights))
      requires forall k :: totalNonZeroProbElement <= k < cumProbabilities.Length ==> cumProbabilities[k] == 0.0
      requires validNums == KeptValues(values, weights)
      modifies this
      ensures cumProbabilities == old(cumProbabilities)
      ensures totalNonZeroProbElement == old(totalNonZeroProbElement)
      ensures o.Fail? <==> Build(values, weights).Err?
      ensures o.Fail? ==> o.error == Build(values, weights).error
      ensures o.Pass? ==> fresh(randomNums) && Valid() && View() == Build(values, weights).value
    {
      var total := totalNonZeroProbElement;
      ghost var kept := KeptWeights(weights);
      BuildNoneRejected(values, weights);
      KeptLength(values, weights);
      if total == 0 {
        return Fail(OnlyZeroProbabilities);
      }
      assert kept[..total] == kept;
      if cumProbabilities[total - 1] != 1.0 {
        return Fail(TotalNotOne);
      }
      ghost var built := Build(values, weights).value;
      assert ValidTable(built);
      randomNums := new int[total](k requires 0 <= k < |validNums| => validNums[k]);
      assert randomNums[..] == validNums;
      assert View() == built;
      return Pass;
    }

    /** The value for the uniform draw `r`: the first slot whose running sum is
        at least `r`, and the last retained value when there is none. */
    method NextNum(r: real) returns (x: int)
      requires Valid()
      ensures x == Select(View(), r)
    {
      ghost var t := View();
      for i := 0 to cumProbabilities.Length
        invariant forall j :: 0 <= j < i ==> cumProbabilities[j] < r
      {
        if r <= cumProbabilities[i] {
          if totalNonZeroProbElement <= i {
            assert false;
          }
          assert FirstCovering(t.cum, r, 0) == i;
          return randomNums[i];
        }
      }
      assert FirstCovering(t.cum, r, 0) == |t.cum|;
      return randomNums[randomNums.Length - 1];
    }
  }
}
