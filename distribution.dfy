/** The behaviour of the weighted sampler stated on values: which entries the
    constructor keeps, the cumulative table it builds, the error it reports,
    and which table entry a uniform draw selects. */
module Distribution {
  import opened Precision

  /** Why construction is refused; one case per IllegalArgumentException of the constructor. */
  datatype Error =
    | BadShape                          // arrays of different lengths, or empty
    | InvalidProbability(prob: Weight)  // a weight below 0, above 1, NaN or infinite
    | CumulativeExceedsOne              // a running sum above 1 beyond the tolerance
    | OnlyZeroProbabilities             // every weight within the tolerance of 0
    | TotalNotOne                       // the last running sum is not exactly 1

  datatype Result<T> = Ok(value: T) | Err(error: Error)

  datatype Outcome = Pass | Fail(error: Error)

  /** A built sampler: the retained values in input order and, entry for entry,
      the running sum of their weights. */
  datatype Table = Table(nums: seq<int>, cum: seq<real>)

  // ---------------------------------------------------------------------------
  // Validation of one weight, and the filter
  // ---------------------------------------------------------------------------

  /** The weight passes the per-entry check: finite, not below 0 and not above 1
      by PRECISION or more. */
  predicate InRange(w: Weight)
    ensures InRange(w) <==> w.Finite? && -PRECISION < w.value < 1.0 + PRECISION
  {
    !IsNanOrInfinite(w) && !IsLessThan(w.value, 0.0) && !IsGreaterThan(w.value, 1.0)
  }

  /** The entry gets a slot in the table: its weight is not within PRECISION of 0. */
  predicate Retained(w: Weight)
    ensures Retained(w) <==> w.Finite? && (w.value <= -PRECISION || PRECISION <= w.value)
  {
    w.Finite? && !EqualsWithPrecision(w.value, 0.0)
  }

  function Sum(xs: seq<real>): real
  {
    if xs == [] then 0.0 else Sum(xs[..|xs| - 1]) + xs[|xs| - 1]
  }

  /** The running sums of `xs`, one per element; the last one is the total. */
  function PrefixSums(xs: seq<real>): (ps: seq<real>)
    ensures |ps| == |xs|
    ensures xs != [] ==> ps[|xs| - 1] == Sum(xs)
  {
    if xs == [] then [] else PrefixSums(xs[..|xs| - 1]) + [Sum(xs)]
  }

  /** The weights of the retained entries, in input order. */
  function KeptWeights(ws: seq<Weight>): (kw: seq<real>)
  {
    if ws == [] then []
    else
      var last := ws[|ws| - 1];
      KeptWeights(ws[..|ws| - 1]) + (if Retained(last) then [last.value] else [])
  }

  /** The values of the retained entries, in input order. */
  function KeptValues(vs: seq<int>, ws: seq<Weight>): (kv: seq<int>)
    requires |vs| == |ws|
    ensures |kv| <= |vs|
  {
    if ws == [] then []
    else
      KeptValues(vs[..|vs| - 1], ws[..|ws| - 1])
      + (if Retained(ws[|ws| - 1]) then [vs[|vs| - 1]] else [])
  }

  /** The input positions of the retained entries (KeptIndicesSpec: increasing,
      and every retained position among them). */
  function KeptIndices(ws: seq<Weight>): (idx: seq<nat>)
    ensures forall k :: 0 <= k < |idx| ==> idx[k] < |ws| && Retained(ws[idx[k]])
  {
    if ws == [] then []
    else
      var n := |ws| - 1;
      KeptIndices(ws[..n]) + (if Retained(ws[n]) then [n] else [])
  }

  // ---------------------------------------------------------------------------
  // Construction
  // ---------------------------------------------------------------------------

  /** The constructor's loop throws at entry i, once it gets there: the weight
      is out of range, or it is retained and lifts the running sum above 1. */
  predicate Rejected(ws: seq<Weight>, i: nat)
    requires i < |ws|
    ensures Rejected(ws, i) <==>
              !InRange(ws[i])
              || (Retained(ws[i]) && 1.0 + PRECISION <= Sum(KeptWeights(ws[..i + 1])))
  {
    !InRange(ws[i]) || (Retained(ws[i]) && IsGreaterThan(Sum(KeptWeights(ws[..i + 1])), 1.0))
  }

  /** The least rejected position at or after `from`, or |ws| when there is none. */
  function FirstRejected(ws: seq<Weight>, from: nat): (i: nat)
    requires from <= |ws|
    ensures from <= i <= |ws|
    ensures i < |ws| ==> Rejected(ws, i)
    ensures forall j :: from <= j < i ==> !Rejected(ws, j)
    decreases |ws| - from
  {
    if from == |ws| then from
    else if Rejected(ws, from) then from
    else FirstRejected(ws, from + 1)
  }

  /** What constructing a sampler from `values` and `weights` yields. */
  function Build(values: seq<int>, weights: seq<Weight>): (r: Result<Table>)
    ensures r == Err(BadShape) <==> |values| != |weights| || |weights| == 0
    ensures r.Ok? ==> ValidTable(r.value)
  {
    if |values| != |weights| || |weights| == 0 then Err(BadShape)
    else
      var i := FirstRejected(weights, 0);
      if i < |weights| then
        if !InRange(weights[i]) then Err(InvalidProbability(weights[i]))
        else Err(CumulativeExceedsOne)
      else
        var kept := KeptWeights(weights);
        if kept == [] then Err(OnlyZeroProbabilities)
        else if Sum(kept) != 1.0 then Err(TotalNotOne)
        else
          NotRejectedInRange(weights);
          KeptTableValid(values, weights);
          Ok(Table(KeptValues(values, weights), PrefixSums(kept)))
  }

  predicate StrictlyIncreasing(xs: seq<real>)
  {
    forall k, l :: 0 <= k < l < |xs| ==> xs[k] < xs[l]
  }

  /** The invariant of a built table. */
  predicate ValidTable(t: Table)
  {
    |t.nums| == |t.cum| && 0 < |t.cum|
    && PRECISION <= t.cum[0]
    && StrictlyIncreasing(t.cum)
    && t.cum[|t.cum| - 1] == 1.0
  }

  // ---------------------------------------------------------------------------
  // Sampling
  // ---------------------------------------------------------------------------

  /** The least position at or after `from` whose running sum is at least the
      draw `r`, or |cum| when there is none. */
  function FirstCovering(cum: seq<real>, r: real, from: nat): (i: nat)
    requires from <= |cum|
    ensures from <= i <= |cum|
    ensures i < |cum| ==> r <= cum[i]
    ensures forall j :: from <= j < i ==> cum[j] < r
    decreases |cum| - from
  {
    if from == |cum| then from
    else if r <= cum[from] then from
    else FirstCovering(cum, r, from + 1)
  }

  /** The table position a draw selects: the first whose running sum is at least
      the draw, and the last one when no running sum is. */
  function SelectIndex(t: Table, r: real): (i: nat)
    requires 0 < |t.cum|
    ensures i < |t.cum|
    ensures forall j :: 0 <= j < i ==> t.cum[j] < r
    ensures r <= t.cum[i] || i == |t.cum| - 1
  {
    var i := FirstCovering(t.cum, r, 0);
    if i < |t.cum| then i else |t.cum| - 1
  }

  /** The value a draw selects. */
  function Select(t: Table, r: real): (x: int)
    requires |t.nums| == |t.cum| && 0 < |t.cum|
    ensures x in t.nums
  {
    t.nums[SelectIndex(t, r)]
  }

  // ---------------------------------------------------------------------------
  // Lemmas: sums and the filter
  // ---------------------------------------------------------------------------

  lemma SumAppend(xs: seq<real>, x: real)
    ensures Sum(xs + [x]) == Sum(xs) + x
  {
    assert (xs + [x])[..|xs|] == xs;
  }

  /** Extending the input by one entry extends the running sums by one. */
  lemma PrefixSumsAppend(xs: seq<real>, x: real)
    ensures PrefixSums(xs + [x]) == PrefixSums(xs) + [Sum(xs) + x]
  {
    var ys := xs + [x];
    assert ys[..|ys| - 1] == xs;
    assert PrefixSums(ys) == PrefixSums(xs) + [Sum(ys)];
    SumAppend(xs, x);
  }

  /** One more input entry adds its weight to the kept ones exactly when it is retained. */
  lemma KeptWeightsStep(ws: seq<Weight>, i: nat)
    requires i < |ws|
    ensures KeptWeights(ws[..i + 1])
         == KeptWeights(ws[..i]) + (if Retained(ws[i]) then [ws[i].value] else [])
  {
    assert ws[..i + 1][..i] == ws[..i];
  }

  /** One more input entry adds its value to the kept ones exactly when it is retained. */
  lemma KeptValuesStep(vs: seq<int>, ws: seq<Weight>, i: nat)
    requires |vs| == |ws| && i < |ws|
    ensures KeptValues(vs[..i + 1], ws[..i + 1])
         == KeptValues(vs[..i], ws[..i]) + (if Retained(ws[i]) then [vs[i]] else [])
  {
    assert ws[..i + 1][..i] == ws[..i];
    assert vs[..i + 1][..i] == vs[..i];
  }

  /** A retained entry extends the running sums by the last running sum (0 when
      there is none yet) plus its own weight. */
  lemma RunningSumStep(ws: seq<Weight>, i: nat)
    requires i < |ws| && Retained(ws[i])
    ensures var kept := KeptWeights(ws[..i]);
            var s := (if kept == [] then 0.0 else PrefixSums(kept)[|kept| - 1]) + ws[i].value;
            Sum(KeptWeights(ws[..i + 1])) == s
            && PrefixSums(KeptWeights(ws[..i + 1])) == PrefixSums(kept) + [s]
  {
    var kept := KeptWeights(ws[..i]);
    KeptWeightsStep(ws, i);
    SumAppend(kept, ws[i].value);
    PrefixSumsAppend(kept, ws[i].value);
    assert kept[..|kept|] == kept;
  }

  /** The first position the loop throws at is the one FirstRejected finds. */
  lemma FirstRejectedAt(ws: seq<Weight>, i: nat)
    requires i <= |ws|
    requires forall j :: 0 <= j < i ==> !Rejected(ws, j)
    requires i < |ws| ==> Rejected(ws, i)
    ensures FirstRejected(ws, 0) == i
  {
  }

  /** Once no entry is rejected, the outcome depends only on the retained weights. */
  lemma BuildNoneRejected(values: seq<int>, weights: seq<Weight>)
    requires |values| == |weights| && 0 < |weights|
    requires FirstRejected(weights, 0) == |weights|
    ensures var kept := KeptWeights(weights);
            Build(values, weights)
            == if kept == [] then Err(OnlyZeroProbabilities)
               else if Sum(kept) != 1.0 then Err(TotalNotOne)
               else Ok(Table(KeptValues(values, weights), PrefixSums(kept)))
  {
  }

  /** There are as many kept values as kept weights. */
  lemma {:induction false} KeptLength(vs: seq<int>, ws: seq<Weight>)
    requires |vs| == |ws|
    ensures |KeptValues(vs, ws)| == |KeptWeights(ws)|
  {
    if ws != [] {
      KeptLength(vs[..|vs| - 1], ws[..|ws| - 1]);
    }
  }

  /** The kept positions increase, and every retained position is among them. */
  lemma {:induction false} KeptIndicesSpec(ws: seq<Weight>)
    ensures forall k, l :: 0 <= k < l < |KeptIndices(ws)| ==> KeptIndices(ws)[k] < KeptIndices(ws)[l]
    ensures forall j :: 0 <= j < |ws| && Retained(ws[j]) ==> j in KeptIndices(ws)
  {
    if ws != [] {
      var n := |ws| - 1;
      KeptIndicesSpec(ws[..n]);
      var idx := KeptIndices(ws[..n]);
      assert KeptIndices(ws) == idx + (if Retained(ws[n]) then [n] else []);
      forall j | 0 <= j < n && Retained(ws[j]) ensures j in idx {
        assert ws[..n][j] == ws[j];
      }
    }
  }

  /** The kept weights are the weights at the kept positions. */
  lemma {:induction false} KeptWeightsAt(ws: seq<Weight>)
    ensures |KeptWeights(ws)| == |KeptIndices(ws)|
    ensures forall k :: 0 <= k < |KeptIndices(ws)| ==> KeptWeights(ws)[k] == ws[KeptIndices(ws)[k]].value
  {
    if ws != [] {
      var n := |ws| - 1;
      var init := ws[..n];
      KeptWeightsAt(init);
      var idx, kept := KeptIndices(init), KeptWeights(init);
      assert forall k :: 0 <= k < |idx| ==> kept[k] == ws[idx[k]].value;
      if Retained(ws[n]) {
        assert KeptIndices(ws) == idx + [n] && KeptWeights(ws) == kept + [ws[n].value];
      } else {
        assert KeptIndices(ws) == idx && KeptWeights(ws) == kept;
      }
    }
  }

  /** The kept values are the values at the kept positions. */
  lemma {:induction false} KeptValuesAt(vs: seq<int>, ws: seq<Weight>)
    requires |vs| == |ws|
    ensures |KeptValues(vs, ws)| == |KeptIndices(ws)|
    ensures forall k :: 0 <= k < |KeptIndices(ws)| ==> KeptValues(vs, ws)[k] == vs[KeptIndices(ws)[k]]
  {
    if ws != [] {
      var n := |ws| - 1;
      KeptValuesAt(vs[..n], ws[..n]);
      var idx, kept := KeptIndices(ws[..n]), KeptValues(vs[..n], ws[..n]);
      assert forall k :: 0 <= k < |idx| ==> kept[k] == vs[idx[k]];
      if Retained(ws[n]) {
        assert KeptIndices(ws) == idx + [n] && KeptValues(vs, ws) == kept + [vs[n]];
      } else {
        assert KeptIndices(ws) == idx && KeptValues(vs, ws) == kept;
      }
    }
  }

  /** Every kept weight of in-range entries is at least PRECISION, so positive. */
  lemma {:induction false} KeptWeightsPositive(ws: seq<Weight>)
    requires forall j :: 0 <= j < |ws| ==> InRange(ws[j])
    ensures forall k :: 0 <= k < |KeptWeights(ws)| ==> PRECISION <= KeptWeights(ws)[k]
  {
    if ws != [] {
      KeptWeightsPositive(ws[..|ws| - 1]);
    }
  }

  /** Running sums of positive weights strictly increase. */
  lemma {:induction false} PositiveSumsIncrease(xs: seq<real>)
    requires forall k :: 0 <= k < |xs| ==> 0.0 < xs[k]
    ensures StrictlyIncreasing(PrefixSums(xs))
  {
    if xs != [] {
      var init := xs[..|xs| - 1];
      PositiveSumsIncrease(init);
      var ps := PrefixSums(xs);
      assert ps == PrefixSums(init) + [Sum(xs)];
      if init != [] {
        assert init[..|init|] == init;
        assert PrefixSums(init)[|init| - 1] == Sum(init);
      }
    }
  }

  /** With in-range weights, the kept sum of a prefix of the input never
      exceeds the kept sum of the whole input. */
  lemma {:induction false} KeptSumMonotone(ws: seq<Weight>, j: nat)
    requires forall i :: 0 <= i < |ws| ==> InRange(ws[i])
    requires j <= |ws|
    ensures Sum(KeptWeights(ws[..j])) <= Sum(KeptWeights(ws))
    decreases |ws| - j
  {
    if j == |ws| {
      assert ws[..j] == ws;
    } else {
      KeptWeightsStep(ws, j);
      var before := KeptWeights(ws[..j]);
      if Retained(ws[j]) {
        SumAppend(before, ws[j].value);
      } else {
        assert KeptWeights(ws[..j + 1]) == before;
      }
      KeptSumMonotone(ws, j + 1);
    }
  }

  // ---------------------------------------------------------------------------
  // Lemmas: construction
  // ---------------------------------------------------------------------------

  /** When no entry is rejected, every weight passed the per-entry check. */
  lemma NotRejectedInRange(ws: seq<Weight>)
    requires FirstRejected(ws, 0) == |ws|
    ensures forall j :: 0 <= j < |ws| ==> InRange(ws[j])
  {
    forall j | 0 <= j < |ws| ensures InRange(ws[j]) {
      assert !Rejected(ws, j);
    }
  }

  /** Each running sum is the previous one plus the entry's own weight. */
  lemma {:induction false} PrefixSumsStep(xs: seq<real>, k: nat)
    requires k < |xs|
    ensures PrefixSums(xs)[k] == (if k == 0 then 0.0 else PrefixSums(xs)[k - 1]) + xs[k]
    decreases |xs|
  {
    var n := |xs| - 1;
    var init := xs[..n];
    assert PrefixSums(xs) == PrefixSums(init) + [Sum(xs)];
    if k < n {
      PrefixSumsStep(init, k);
    } else if k == 0 {
      assert init == [];
    }
  }

  /** Entry k of the running sums is the sum of the first k+1 elements. */
  lemma {:induction false} PrefixSumsAt(xs: seq<real>)
    ensures forall k :: 0 <= k < |xs| ==> PrefixSums(xs)[k] == Sum(xs[..k + 1])
  {
    if xs != [] {
      var n := |xs| - 1;
      var init := xs[..n];
      PrefixSumsAt(init);
      assert PrefixSums(xs) == PrefixSums(init) + [Sum(xs)];
      forall k | 0 <= k < |xs| ensures PrefixSums(xs)[k] == Sum(xs[..k + 1]) {
        if k < n {
          assert init[..k + 1] == xs[..k + 1];
        } else {
          assert xs[..k + 1] == xs;
        }
      }
    }
  }

  /** Consecutive running sums differ by the entry's own weight. */
  lemma PrefixSumsSteps(xs: seq<real>)
    ensures 0 < |xs| ==> PrefixSums(xs)[0] == xs[0]
    ensures forall k :: 0 < k < |xs| ==> PrefixSums(xs)[k] - PrefixSums(xs)[k - 1] == xs[k]
  {
    forall k | 0 <= k < |xs|
      ensures PrefixSums(xs)[k] == (if k == 0 then 0.0 else PrefixSums(xs)[k - 1]) + xs[k]
    {
      PrefixSumsStep(xs, k);
    }
  }

  /** The table made of in-range entries whose retained weights add up to 1 is valid. */
  lemma KeptTableValid(values: seq<int>, weights: seq<Weight>)
    requires |values| == |weights|
    requires forall j :: 0 <= j < |weights| ==> InRange(weights[j])
    requires KeptWeights(weights) != [] && Sum(KeptWeights(weights)) == 1.0
    ensures ValidTable(Table(KeptValues(values, weights), PrefixSums(KeptWeights(weights))))
  {
    var kept := KeptWeights(weights);
    KeptLength(values, weights);
    KeptWeightsPositive(weights);
    PositiveSumsIncrease(kept);
    assert kept[..|kept|] == kept;
    PrefixSumsStep(kept, 0);
  }

  /** Construction succeeds exactly when the arrays have one equal, non-zero
      length, every weight is in range, some entry is retained and the retained
      weights add up to exactly 1. The per-prefix check never decides success. */
  lemma BuildSucceedsIff(values: seq<int>, weights: seq<Weight>)
    ensures Build(values, weights).Ok? <==>
              |values| == |weights| && 0 < |weights|
              && (forall j :: 0 <= j < |weights| ==> InRange(weights[j]))
              && KeptWeights(weights) != []
              && Sum(KeptWeights(weights)) == 1.0
  {
    if |values| == |weights| && 0 < |weights| {
      var i := FirstRejected(weights, 0);
      if i == |weights| {
        NotRejectedInRange(weights);
      }
      if (forall j :: 0 <= j < |weights| ==> InRange(weights[j])) && Sum(KeptWeights(weights)) == 1.0 {
        if i < |weights| {
          KeptSumMonotone(weights, i + 1);
          assert false;
        }
      }
    }
  }

  /** With every weight in range and retained weights adding up to exactly 1,
      construction yields the kept values and their running sums. */
  lemma BuildAccepts(values: seq<int>, weights: seq<Weight>, kept: seq<real>)
    requires |values| == |weights| && 0 < |weights|
    requires forall j :: 0 <= j < |weights| ==> InRange(weights[j])
    requires KeptWeights(weights) == kept && kept != [] && Sum(kept) == 1.0
    ensures Build(values, weights) == Ok(Table(KeptValues(values, weights), PrefixSums(kept)))
  {
    BuildSucceedsIff(values, weights);
  }

  /** A built table holds, in input order, the value of each retained entry,
      and each retained weight is at least PRECISION. */
  lemma BuildTableEntries(values: seq<int>, weights: seq<Weight>)
    requires Build(values, weights).Ok?
    ensures var t := Build(values, weights).value;
            var idx := KeptIndices(weights);
            |t.nums| == |idx|
            && forall k :: 0 <= k < |idx| ==>
                 t.nums[k] == values[idx[k]] && PRECISION <= weights[idx[k]].value
  {
    assert FirstRejected(weights, 0) == |weights|;
    NotRejectedInRange(weights);
    KeptValuesAt(values, weights);
    KeptWeightsAt(weights);
  }

  /** In a built table each running sum exceeds the previous one (0 for the
      first) by exactly the weight of its entry: the interval of draws an entry
      takes is as wide as its weight. */
  lemma BuildTableWidths(values: seq<int>, weights: seq<Weight>)
    requires Build(values, weights).Ok?
    ensures var t := Build(values, weights).value;
            var idx := KeptIndices(weights);
            |t.cum| == |idx|
            && t.cum[0] == weights[idx[0]].value
            && forall k :: 0 < k < |idx| ==> t.cum[k] - t.cum[k - 1] == weights[idx[k]].value
  {
    assert FirstRejected(weights, 0) == |weights|;
    KeptWeightsAt(weights);
    PrefixSumsSteps(KeptWeights(weights));
  }

  // ---------------------------------------------------------------------------
  // Lemmas: sampling
  // ---------------------------------------------------------------------------

  /** A draw selects position i exactly when it lies above the previous running
      sum and at most the running sum of i; the last position also takes every
      draw above 1. Each interval is as wide as the entry's weight (BuildTableWidths). */
  lemma SelectInterval(t: Table, r: real, i: nat)
    requires ValidTable(t) && i < |t.cum|
    ensures SelectIndex(t, r) == i <==>
              (i == 0 || t.cum[i - 1] < r) && (r <= t.cum[i] || i == |t.cum| - 1)
  {
  }

  /** A draw of at most 1 always lands on an entry whose running sum covers it. */
  lemma SelectCovers(t: Table, r: real)
    requires ValidTable(t) && r <= 1.0
    ensures r <= t.cum[SelectIndex(t, r)]
  {
  }

  /** The selected value is the value of a retained input entry. */
  lemma SelectRetained(values: seq<int>, weights: seq<Weight>, r: real)
    requires Build(values, weights).Ok?
    ensures var t := Build(values, weights).value;
            var k := SelectIndex(t, r);
            k < |KeptIndices(weights)|
            && Retained(weights[KeptIndices(weights)[k]])
            && Select(t, r) == values[KeptIndices(weights)[k]]
  {
    BuildTableEntries(values, weights);
  }

  /** A value that only ever has weights within PRECISION of 0 is never selected. */
  lemma ZeroWeightNeverSelected(values: seq<int>, weights: seq<Weight>, v: int, r: real)
    requires Build(values, weights).Ok?
    requires forall j :: 0 <= j < |values| && values[j] == v ==> !Retained(weights[j])
    ensures Select(Build(values, weights).value, r) != v
  {
    SelectRetained(values, weights, r);
  }

  /** When a single entry is retained, every draw selects its value. */
  lemma SoleRetainedAlwaysSelected(values: seq<int>, weights: seq<Weight>, j: nat, r: real)
    requires Build(values, weights).Ok?
    requires j < |weights|
    requires forall i :: 0 <= i < |weights| && i != j ==> !Retained(weights[i])
    ensures Select(Build(values, weights).value, r) == values[j]
  {
    BuildTableEntries(values, weights);
    KeptIndicesSpec(weights);
    var idx := KeptIndices(weights);
    assert forall k :: 0 <= k < |idx| ==> idx[k] == j;
  }
}
