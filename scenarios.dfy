/** The concrete cases of the sampler's unit tests, stated on the model. */
module Scenarios {
  import opened Precision
  import opened Distribution
  import opened Sampler

  function Weights(ps: seq<real>): (ws: seq<Weight>)
    ensures |ws| == |ps|
    ensures forall k :: 0 <= k < |ps| ==> ws[k] == Finite(ps[k])
  {
    seq(|ps|, k requires 0 <= k < |ps| => Finite(ps[k]))
  }

  /** The per-entry check tolerates PRECISION on both sides: a slightly negative
      weight passes and is dropped, a weight slightly above 1 passes and is kept. */
  lemma ToleranceEdges()
    ensures InRange(Finite(-0.00005)) && !Retained(Finite(-0.00005))
    ensures InRange(Finite(1.00005)) && Retained(Finite(1.00005))
    ensures !InRange(Finite(-0.0001)) && !InRange(Finite(1.0001))
    ensures !InRange(NaN) && !InRange(Infinite(false)) && !InRange(Infinite(true))
  {
  }

  /** Arrays of different lengths, or empty ones, are refused. */
  lemma ShapeCases()
    ensures Build([0], Weights([0.1, 0.2])) == Err(BadShape)
    ensures Build([1, 2], Weights([0.0, 1.0, 0.0, 3.0])) == Err(BadShape)
    ensures Build([1, 2], Weights([1.0, 3.0, 0.0, 0.0])) == Err(BadShape)
    ensures Build([], []) == Err(BadShape)
  {
  }

  /** Only zero weights: nothing is retained. */
  lemma OnlyZeroCases()
    ensures Build([0], [Finite(0.0)]) == Err(OnlyZeroProbabilities)
    ensures Build([1, 2], [Finite(0.0), Finite(0.0)]) == Err(OnlyZeroProbabilities)
  {
    var w := [Finite(0.0), Finite(0.0)];
    KeptWeightsStep(w, 0);
    KeptWeightsStep(w, 1);
    assert w[..0] == [] && w[..2] == w;
    assert [Finite(0.0)][..0] == [];
  }

  /** A NaN weight is refused as an invalid probability. */
  lemma NaNCase()
    ensures Build([1, 2], [NaN, Finite(0.4)]) == Err(InvalidProbability(NaN))
  {
    assert Rejected([NaN, Finite(0.4)], 0);
  }

  /** Weights adding up to 0.3 are refused at the final check. */
  lemma TotalCase()
    ensures Build([1, 2], [Finite(0.1), Finite(0.2)]) == Err(TotalNotOne)
  {
    var w := [Finite(0.1), Finite(0.2)];
    KeptWeightsStep(w, 0);
    KeptWeightsStep(w, 1);
    assert w[..0] == [] && w[..2] == w;
    assert KeptWeights(w) == [0.1, 0.2];
    assert Sum([0.1, 0.2]) == Sum([0.1]) + 0.2;
    assert Rejected(w, 0) == false && Rejected(w, 1) == false by {
      assert Sum([0.1]) == 0.1;
    }
    assert FirstRejected(w, 0) == 2;
  }

  /** A second weight of 0.6 lifts the running sum to 1.2 and is refused there. */
  lemma CumulativeCase()
    ensures Build([1, 2], [Finite(0.6), Finite(0.6)]) == Err(CumulativeExceedsOne)
  {
    var w := [Finite(0.6), Finite(0.6)];
    KeptWeightsStep(w, 0);
    KeptWeightsStep(w, 1);
    assert w[..0] == [];
    assert KeptWeights(w[..1]) == [0.6] && KeptWeights(w[..2]) == [0.6, 0.6];
    assert Sum([0.6, 0.6]) == Sum([0.6]) + 0.6;
    assert !Rejected(w, 0) by {
      assert Sum([0.6]) == 0.6;
    }
    assert Rejected(w, 1);
    FirstRejectedAt(w, 1);
  }

  /** The final check is exact: a total within PRECISION of 1 is still refused. */
  lemma ExactTotal()
    ensures Build([7], [Finite(0.99995)]) == Err(TotalNotOne)
    ensures Build([7], [Finite(1.00005)]) == Err(TotalNotOne)
  {
    var a := [Finite(0.99995)];
    KeptWeightsStep(a, 0);
    assert a[..0] == [] && a[..1] == a;
    assert Sum([0.99995]) == 0.99995;
    var b := [Finite(1.00005)];
    KeptWeightsStep(b, 0);
    assert b[..0] == [] && b[..1] == b;
    assert Sum([1.00005]) == 1.00005;
  }

  /** The first four example entries keep the weights 0.3 and 0.5. */
  lemma ExampleKeptWeightsHead()
    ensures KeptWeights(ExampleWeights()[..4]) == [0.3, 0.5]
  {
    var ws := ExampleWeights();
    assert KeptWeights(ws[..1]) == [] by { KeptWeightsStep(ws, 0); assert ws[..0] == []; }
    assert KeptWeights(ws[..2]) == [] by { KeptWeightsStep(ws, 1); }
    assert KeptWeights(ws[..3]) == [0.3] by { KeptWeightsStep(ws, 2); }
    KeptWeightsStep(ws, 3);
  }

  /** The example keeps the entries of weights 0.3, 0.5 and 0.2. */
  lemma ExampleKeptWeights()
    ensures KeptWeights(ExampleWeights()) == [0.3, 0.5, 0.2]
  {
    var ws := ExampleWeights();
    ExampleKeptWeightsHead();
    assert KeptWeights(ws[..5]) == [0.3, 0.5] by { KeptWeightsStep(ws, 4); }
    assert KeptWeights(ws[..6]) == [0.3, 0.5, 0.2] by { KeptWeightsStep(ws, 5); }
    assert KeptWeights(ws[..7]) == [0.3, 0.5, 0.2] by { KeptWeightsStep(ws, 6); }
    assert ws[..7] == ws;
  }

  /** The first four example entries keep the values 2 and 1. */
  lemma ExampleKeptValuesHead()
    ensures KeptValues(ExampleValues()[..4], ExampleWeights()[..4]) == [2, 1]
  {
    var vs := ExampleValues();
    var ws := ExampleWeights();
    assert KeptValues(vs[..1], ws[..1]) == [] by { KeptValuesStep(vs, ws, 0); assert ws[..0] == []; assert vs[..0] == []; }
    assert KeptValues(vs[..2], ws[..2]) == [] by { KeptValuesStep(vs, ws, 1); }
    assert KeptValues(vs[..3], ws[..3]) == [2] by { KeptValuesStep(vs, ws, 2); }
    KeptValuesStep(vs, ws, 3);
  }

  /** The example keeps the values 2, 1 and 4. */
  lemma ExampleKeptValues()
    ensures KeptValues(ExampleValues(), ExampleWeights()) == [2, 1, 4]
  {
    var vs := ExampleValues();
    var ws := ExampleWeights();
    ExampleKeptValuesHead();
    assert KeptValues(vs[..5], ws[..5]) == [2, 1] by { KeptValuesStep(vs, ws, 4); }
    assert KeptValues(vs[..6], ws[..6]) == [2, 1, 4] by { KeptValuesStep(vs, ws, 5); }
    assert KeptValues(vs[..7], ws[..7]) == [2, 1, 4] by { KeptValuesStep(vs, ws, 6); }
    assert ws[..7] == ws && vs[..7] == vs;
  }

  /** The running sums of 0.3, 0.5 and 0.2 are 0.3, 0.8 and 1. */
  lemma ExampleSums()
    ensures PrefixSums([0.3, 0.5, 0.2]) == [0.3, 0.8, 1.0]
    ensures Sum([0.3, 0.5, 0.2]) == 1.0
  {
    var kept := [0.3, 0.5, 0.2];
    PrefixSumsSteps(kept);
    assert kept[..3] == kept;
  }

  /** Values [-1, -4, 2, 1, 3, 4, 5] with weights [0, 0, 0.3, 0.5, 0, 0.2, 0]
      keep 2, 1 and 4 with running sums 0.3, 0.8 and 1. */
  lemma ExampleTable()
    ensures Build(ExampleValues(), ExampleWeights()) == Ok(Table([2, 1, 4], [0.3, 0.8, 1.0]))
  {
    ExampleKeptWeights();
    ExampleKeptValues();
    ExampleSums();
    BuildAccepts(ExampleValues(), ExampleWeights(), [0.3, 0.5, 0.2]);
  }

  function ExampleValues(): seq<int>
  {
    [-1, -4, 2, 1, 3, 4, 5]
  }

  function ExampleWeights(): seq<Weight>
  {
    [Finite(0.0), Finite(0.0), Finite(0.3), Finite(0.5), Finite(0.0), Finite(0.2), Finite(0.0)]
  }

  /** Draws 0.2 and 0.3 give 2, draw 0.35 gives 1, draws 0.85 and 0.98 give 4. */
  lemma ExampleDraws()
    ensures var t := Table([2, 1, 4], [0.3, 0.8, 1.0]);
            Select(t, 0.2) == 2 && Select(t, 0.3) == 2 && Select(t, 0.35) == 1
            && Select(t, 0.85) == 4 && Select(t, 0.98) == 4
  {
    var t := Table([2, 1, 4], [0.3, 0.8, 1.0]);
    assert ValidTable(t);
    SelectInterval(t, 0.2, 0);
    SelectInterval(t, 0.3, 0);
    SelectInterval(t, 0.35, 1);
    SelectInterval(t, 0.85, 2);
    SelectInterval(t, 0.98, 2);
  }

  function ZeroCaseWeights(): seq<Weight>
  {
    [Finite(0.1), Finite(0.0), Finite(0.6), Finite(0.3)]
  }

  /** Weights [0.1, 0, 0.6, 0.3] keep 0.1, 0.6 and 0.3, which add up to 1. */
  lemma ZeroCaseKept()
    ensures KeptWeights(ZeroCaseWeights()) == [0.1, 0.6, 0.3]
    ensures Sum([0.1, 0.6, 0.3]) == 1.0
  {
    var w := ZeroCaseWeights();
    ZeroCaseKeptHead();
    assert KeptWeights(w[..3]) == [0.1, 0.6] by { KeptWeightsStep(w, 2); }
    assert KeptWeights(w[..4]) == [0.1, 0.6, 0.3] by { KeptWeightsStep(w, 3); }
    assert w[..4] == w;
    ZeroCaseSum();
  }

  /** The first two of [0.1, 0, 0.6, 0.3] keep only 0.1. */
  lemma ZeroCaseKeptHead()
    ensures KeptWeights(ZeroCaseWeights()[..2]) == [0.1]
  {
    var w := ZeroCaseWeights();
    assert KeptWeights(w[..1]) == [0.1] by { KeptWeightsStep(w, 0); assert w[..0] == []; }
    KeptWeightsStep(w, 1);
  }

  /** 0.1, 0.6 and 0.3 add up to 1. */
  lemma ZeroCaseSum()
    ensures Sum([0.1, 0.6, 0.3]) == 1.0
  {
    var kept := [0.1, 0.6, 0.3];
    assert kept[..2] == [0.1, 0.6] && [0.1, 0.6][..1] == [0.1];
  }

  /** The only entry of value 2 in [1, 2, 3, 4] has weight 0 and is dropped. */
  lemma ZeroCaseDropped()
    ensures forall j :: 0 <= j < 4 && [1, 2, 3, 4][j] == 2 ==> !Retained(ZeroCaseWeights()[j])
  {
    assert ZeroCaseWeights()[1] == Finite(0.0);
  }

  /** Weights [0.1, 0, 0.6, 0.3] never give 2. */
  lemma ZeroWeightCase(r: real)
    ensures Build([1, 2, 3, 4], ZeroCaseWeights()).Ok?
    ensures Select(Build([1, 2, 3, 4], ZeroCaseWeights()).value, r) != 2
  {
    ZeroCaseKept();
    BuildAccepts([1, 2, 3, 4], ZeroCaseWeights(), [0.1, 0.6, 0.3]);
    ZeroCaseDropped();
    ZeroWeightNeverSelected([1, 2, 3, 4], ZeroCaseWeights(), 2, r);
  }

  function SoleCaseWeights(): seq<Weight>
  {
    [Finite(0.0), Finite(1.0), Finite(0.0), Finite(0.0)]
  }

  /** Weights [0, 1, 0, 0] keep only the weight 1. */
  lemma SoleCaseKept()
    ensures KeptWeights(SoleCaseWeights()) == [1.0]
    ensures Sum([1.0]) == 1.0
  {
    var w := SoleCaseWeights();
    assert KeptWeights(w[..1]) == [] by { KeptWeightsStep(w, 0); assert w[..0] == []; }
    assert KeptWeights(w[..2]) == [1.0] by { KeptWeightsStep(w, 1); }
    assert KeptWeights(w[..3]) == [1.0] by { KeptWeightsStep(w, 2); }
    assert KeptWeights(w[..4]) == [1.0] by { KeptWeightsStep(w, 3); }
    assert w[..4] == w;
    assert [1.0][..0] == [];
  }

  /** Every weight of [0, 1, 0, 0] but the second is dropped. */
  lemma SoleCaseZeros()
    ensures forall i :: 0 <= i < |SoleCaseWeights()| && i != 1 ==> !Retained(SoleCaseWeights()[i])
  {
    var w := SoleCaseWeights();
    assert w[0] == w[2] == w[3] == Finite(0.0);
  }

  /** Weights [0, 1, 0, 0] always give 2. */
  lemma SoleWeightCase(r: real)
    ensures Build([1, 2, 3, 4], SoleCaseWeights()).Ok?
    ensures Select(Build([1, 2, 3, 4], SoleCaseWeights()).value, r) == 2
  {
    SoleCaseKept();
    BuildAccepts([1, 2, 3, 4], SoleCaseWeights(), [1.0]);
    SoleCaseZeros();
    SoleRetainedAlwaysSelected([1, 2, 3, 4], SoleCaseWeights(), 1, r);
  }

  /** The example driven through the object, as the unit test does: the
      draws 0.2, 0.3, 0.35, 0.85 and 0.98 give 2, 2, 1, 4 and 4. */
  method ExampleThroughObject() returns (xs: seq<int>)
    ensures xs == [2, 2, 1, 4, 4]
  {
    ExampleTable();
    ExampleDraws();
    var res := RandomGen.Create(ExampleValues(), ExampleWeights());
    var g := res.value;
    var a := g.NextNum(0.2);
    var b := g.NextNum(0.3);
    var c := g.NextNum(0.35);
    var d := g.NextNum(0.85);
    var e := g.NextNum(0.98);
    xs := [a, b, c, d, e];
  }
}
