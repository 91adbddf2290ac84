/**
 * The computation both calculators share: `sum(value * weight) / sum(weight)`
 * over an ordered sequence, or 0 when the weights add up to zero.
 */
module Averages {

  /** One term of the average: a grade point or semester GPA, weighted by its credits. */
  datatype Entry = Entry(value: real, weight: real)

  /** What one entry adds to the total points. */
  function Points(e: Entry): real {
    e.value * e.weight
  }

  /** The `total_points` accumulator after the loop has visited every entry, in order. */
  function TotalPoints(es: seq<Entry>): real {
    if es == [] then 0.0 else TotalPoints(es[..|es| - 1]) + Points(es[|es| - 1])
  }

  /** The `total_credits` accumulator after the loop has visited every entry, in order. */
  function TotalWeight(es: seq<Entry>): real {
    if es == [] then 0.0 else TotalWeight(es[..|es| - 1]) + es[|es| - 1].weight
  }

  /**
   * The weighted average: when the weights add up to something nonzero, the
   * number that, multiplied by the total weight, gives the total points;
   * otherwise 0 rather than a division by zero.
   */
  function WeightedAverage(es: seq<Entry>): (avg: real)
    ensures TotalWeight(es) == 0.0 ==> avg == 0.0
    ensures TotalWeight(es) != 0.0 ==> avg * TotalWeight(es) == TotalPoints(es)
  {
    var w := TotalWeight(es);
    if w != 0.0 then TotalPoints(es) / w else 0.0
  }

  predicate PositiveWeights(es: seq<Entry>) {
    forall i :: 0 <= i < |es| ==> es[i].weight > 0.0
  }

  predicate ValuesWithin(es: seq<Entry>, lo: real, hi: real) {
    forall i :: 0 <= i < |es| ==> lo <= es[i].value <= hi
  }

  /** With positive weights the total weight is never negative, and it is positive exactly when there is an entry. */
  lemma {:induction false} TotalWeightPositive(es: seq<Entry>)
    requires PositiveWeights(es)
    ensures TotalWeight(es) >= 0.0
    ensures TotalWeight(es) > 0.0 <==> es != []
    decreases |es|
  {
    if es != [] {
      TotalWeightPositive(es[..|es| - 1]);
    }
  }

  /** The accumulators of a concatenation are the sums of the parts' accumulators. */
  lemma {:induction false} TotalsOfConcat(a: seq<Entry>, b: seq<Entry>)
    ensures TotalPoints(a + b) == TotalPoints(a) + TotalPoints(b)
    ensures TotalWeight(a + b) == TotalWeight(a) + TotalWeight(b)
    decreases |b|
  {
    if b == [] {
      assert a + b == a;
    } else {
      var b' := b[..|b| - 1];
      assert (a + b)[..|a + b| - 1] == a + b';
      assert (a + b)[|a + b| - 1] == b[|b| - 1];
      TotalsOfConcat(a, b');
    }
  }

  /** With non-negative weights, values in `[lo, hi]` keep the total points between `lo` and `hi` times the total weight. */
  lemma {:induction false} TotalPointsWithin(es: seq<Entry>, lo: real, hi: real)
    requires PositiveWeights(es) && ValuesWithin(es, lo, hi)
    ensures lo * TotalWeight(es) <= TotalPoints(es) <= hi * TotalWeight(es)
    decreases |es|
  {
    if es != [] {
      var init, e := es[..|es| - 1], es[|es| - 1];
      TotalPointsWithin(init, lo, hi);
      assert (e.value - lo) * e.weight >= 0.0;
      assert (hi - e.value) * e.weight >= 0.0;
    }
  }

  /**
   * With positive weights and at least one entry, the average lies between any
   * bounds of the values: it is never below the smallest value nor above the largest.
   */
  lemma AverageWithin(es: seq<Entry>, lo: real, hi: real)
    requires es != [] && PositiveWeights(es) && ValuesWithin(es, lo, hi)
    ensures lo <= WeightedAverage(es) <= hi
  {
    TotalPointsWithin(es, lo, hi);
    TotalWeightPositive(es);
    QuotientWithin(TotalPoints(es), TotalWeight(es), lo, hi);
  }

  lemma QuotientWithin(p: real, w: real, lo: real, hi: real)
    requires w > 0.0 && lo * w <= p <= hi * w
    ensures lo <= p / w <= hi
  {
    var q := p / w;
    assert q * w == p;
    assert (q - lo) * w >= 0.0;
    assert (hi - q) * w >= 0.0;
  }

  /** The smallest and largest value of a nonempty sequence of entries. */
  function MinValue(es: seq<Entry>): (m: real)
    requires es != []
    ensures forall i :: 0 <= i < |es| ==> m <= es[i].value
    ensures exists i :: 0 <= i < |es| && es[i].value == m
  {
    if |es| == 1 then es[0].value
    else
      var m := MinValue(es[..|es| - 1]);
      assert es[..|es| - 1][0] == es[0];
      if es[|es| - 1].value < m then es[|es| - 1].value else m
  }

  function MaxValue(es: seq<Entry>): (m: real)
    requires es != []
    ensures forall i :: 0 <= i < |es| ==> es[i].value <= m
    ensures exists i :: 0 <= i < |es| && es[i].value == m
  {
    if |es| == 1 then es[0].value
    else
      var m := MaxValue(es[..|es| - 1]);
      assert es[..|es| - 1][0] == es[0];
      if es[|es| - 1].value > m then es[|es| - 1].value else m
  }

  /** With positive weights, the average lies between the smallest and the largest value. */
  lemma AverageBetweenMinAndMax(es: seq<Entry>)
    requires es != [] && PositiveWeights(es)
    ensures MinValue(es) <= WeightedAverage(es) <= MaxValue(es)
  {
    AverageWithin(es, MinValue(es), MaxValue(es));
  }

  /** When every entry has the same value `v`, the total points are `v` times the total weight. */
  lemma {:induction false} TotalPointsOfConstant(es: seq<Entry>, v: real)
    requires forall i :: 0 <= i < |es| ==> es[i].value == v
    ensures TotalPoints(es) == v * TotalWeight(es)
    decreases |es|
  {
    if es != [] {
      TotalPointsOfConstant(es[..|es| - 1], v);
    }
  }

  /** Entries that all have value `v` average to `v`, whatever the weights, unless the weights cancel out. */
  lemma AverageOfConstant(es: seq<Entry>, v: real)
    requires forall i :: 0 <= i < |es| ==> es[i].value == v
    requires TotalWeight(es) != 0.0
    ensures WeightedAverage(es) == v
  {
    TotalPointsOfConstant(es, v);
    QuotientOfMultiple(TotalPoints(es), TotalWeight(es), v);
  }

  lemma QuotientOfMultiple(p: real, w: real, v: real)
    requires w != 0.0 && p == v * w
    ensures p / w == v
  {
  }

  /** The accumulators of a two-entry sequence. */
  lemma TotalsOfPair(x: Entry, y: Entry)
    ensures TotalPoints([x, y]) == Points(x) + Points(y)
    ensures TotalWeight([x, y]) == x.weight + y.weight
  {
    assert [x, y][..1] == [x] && [x][..0] == [];
    assert TotalPoints([x]) == Points(x);
    assert TotalWeight([x]) == x.weight;
  }

  /** Multiplying the average back by the total weight recovers the total points, unless the weights cancel out while points remain. */
  lemma AverageTimesWeight(es: seq<Entry>)
    requires TotalWeight(es) != 0.0 || TotalPoints(es) == 0.0
    ensures WeightedAverage(es) * TotalWeight(es) == TotalPoints(es)
  {
  }

  /** A group of entries summarised as one entry: its average, weighted by its total weight. */
  function GroupEntry(es: seq<Entry>): (e: Entry)
    requires TotalWeight(es) != 0.0 || TotalPoints(es) == 0.0
    ensures e.weight == TotalWeight(es)
    ensures Points(e) == TotalPoints(es)
  {
    AverageTimesWeight(es);
    Entry(WeightedAverage(es), TotalWeight(es))
  }

  /** The average depends only on the two accumulators. */
  lemma SameTotalsSameAverage(x: seq<Entry>, y: seq<Entry>)
    requires TotalPoints(x) == TotalPoints(y) && TotalWeight(x) == TotalWeight(y)
    ensures WeightedAverage(x) == WeightedAverage(y)
  {
  }

  /** The examples: two equally weighted values average to their midpoint; no entries average to 0. */
  lemma AverageExamples()
    ensures WeightedAverage([Entry(4.0, 3.0), Entry(3.0, 3.0)]) == 3.5
    ensures WeightedAverage([Entry(3.5, 15.0), Entry(3.8, 12.0)]) == 109.0 / 30.0
    ensures WeightedAverage([]) == 0.0
  {
    TotalsOfPair(Entry(4.0, 3.0), Entry(3.0, 3.0));
    TotalsOfPair(Entry(3.5, 15.0), Entry(3.8, 12.0));
  }
}
