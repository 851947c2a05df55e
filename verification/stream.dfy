/** The state that `subscribeToMeanValues` captures for one upstream
    subscription, and the callback the upstream service runs per datum. */
module Streams {
  import opened Telemetry
  import opened Window
  import opened Means

  class MeanStream {
    /** `object.samples` of the resolved object. */
    const samples: Option<int>
    /** The `source` names of the object's range values. */
    const keysForRanges: seq<string>
    /** The bounded history of data. */
    var lastNData: seq<Record>
    /** Every datum delivered so far, in arrival order. */
    ghost var received: seq<Record>

    /** The history is the last `Kept(n, samples)` of the `n` data received. */
    ghost predicate Valid()
      reads this
    {
      lastNData == LastN(received, samples)
    }

    /** `subscribeToMeanValues` up to the upstream subscription: the history
        starts empty and the range keys are the metadata's source names. */
    constructor (samples: Option<int>, rangeValues: seq<ValueMetadatum>)
      ensures Valid()
      ensures this.samples == samples
      ensures |keysForRanges| == |rangeValues|
      ensures forall i | 0 <= i < |rangeValues| :: keysForRanges[i] == rangeValues[i].source
      ensures lastNData == [] && received == []
    {
      this.samples := samples;
      keysForRanges := seq(|rangeValues|, i requires 0 <= i < |rangeValues| => rangeValues[i].source);
      lastNData := [];
      received := [];
    }

    /** Append the datum, then shift off the oldest one if the history has
        grown past `samples`. */
    method Push(datum: Record)
      requires Valid()
      modifies this
      ensures Valid()
      ensures received == old(received) + [datum]
      ensures lastNData == Pushed(old(lastNData), datum, samples)
      ensures |lastNData| == Kept(|received|, samples)
    {
      PushKeepsLastN(received, datum, samples);
      lastNData := lastNData + [datum];
      if samples.Some? && |lastNData| > samples.value {
        lastNData := lastNData[1..];
      }
      received := received + [datum];
    }

    /** The upstream callback: push the datum, then build the mean record
        that is handed to the downstream callback. The stored history keeps
        the data as received; the mean record is a separate value. */
    method OnDatum(datum: Record) returns (meanDatum: Record)
      requires Valid()
      requires NumericWhereSelected(datum, keysForRanges, Pushed(lastNData, datum, samples))
      modifies this
      ensures Valid()
      ensures received == old(received) + [datum]
      ensures lastNData == Pushed(old(lastNData), datum, samples)
      ensures IsMeanDatum(meanDatum, datum, keysForRanges, lastNData)
    {
      Push(datum);
      meanDatum := CalculateMeansForDatum(datum, keysForRanges, lastNData);
    }
  }

  /** When `samples` is at least 1 or missing, the history handed to
      `calculateMean` holds the new datum, so every averaged field comes out
      a number. */
  lemma ForwardedMeanIsNumber(lastNData: seq<Record>, datum: Record, samples: Option<int>, key: string)
    requires samples.None? || samples.value >= 1
    requires AllNumeric(Pushed(lastNData, datum, samples), key)
    ensures CalculateMean(Pushed(lastNData, datum, samples), key).Num?
  {
  }

  /** When `samples` is zero or negative, the one shift empties the history
      again after each push, so every averaged field comes out as 0 / 0. */
  lemma NonPositiveSamplesForwardNaN(received: seq<Record>, datum: Record, c: int, key: string)
    requires c <= 0
    ensures Pushed(LastN(received, Some(c)), datum, Some(c)) == []
    ensures CalculateMean(Pushed(LastN(received, Some(c)), datum, Some(c)), key) == NaN
  {
  }

  /** A datum whose only field is `sin`. */
  function SinDatum(x: real): (datum: Record)
  {
    map["sin" := Num(x)]
  }

  /** Sum of `sin` over a history of `sin`-only data, one element at a time. */
  lemma SigmaSinCons(x: real, rest: seq<Record>)
    requires AllNumeric(rest, "sin")
    ensures AllNumeric([SinDatum(x)] + rest, "sin")
    ensures Sigma([SinDatum(x)] + rest, "sin") == x + Sigma(rest, "sin")
  {
    assert ([SinDatum(x)] + rest)[1..] == rest;
  }

  /** The mean of `sin` over the history [a, b, c], for `sin`-only data. */
  lemma MeanOfThreeSin(a: real, b: real, c: real)
    ensures AllNumeric([SinDatum(a), SinDatum(b), SinDatum(c)], "sin")
    ensures CalculateMean([SinDatum(a), SinDatum(b), SinDatum(c)], "sin") == Num((a + b + c) / 3.0)
  {
    SigmaSinCons(c, []);
    assert [SinDatum(c)] == [SinDatum(c)] + [];
    SigmaSinCons(b, [SinDatum(c)]);
    assert [SinDatum(b), SinDatum(c)] == [SinDatum(b)] + [SinDatum(c)];
    SigmaSinCons(a, [SinDatum(b), SinDatum(c)]);
    assert [SinDatum(a), SinDatum(b), SinDatum(c)] == [SinDatum(a)] + [SinDatum(b), SinDatum(c)];
  }

  /** The mean of `sin` over the history [a, b], for `sin`-only data. */
  lemma MeanOfTwoSin(a: real, b: real)
    ensures AllNumeric([SinDatum(a), SinDatum(b)], "sin")
    ensures CalculateMean([SinDatum(a), SinDatum(b)], "sin") == Num((a + b) / 2.0)
  {
    SigmaSinCons(b, []);
    assert [SinDatum(b)] == [SinDatum(b)] + [];
    SigmaSinCons(a, [SinDatum(b)]);
    assert [SinDatum(a), SinDatum(b)] == [SinDatum(a)] + [SinDatum(b)];
  }

  /** With `samples` 3 and `sin` arriving as 1, 2, 3, 4, the forwarded `sin`
      values are 1, 1.5, 2 and 3 (the last one the mean of 2, 3 and 4). */
  lemma SinScenario()
    ensures var w1 := Pushed([], SinDatum(1.0), Some(3));
      var w2 := Pushed(w1, SinDatum(2.0), Some(3));
      var w3 := Pushed(w2, SinDatum(3.0), Some(3));
      var w4 := Pushed(w3, SinDatum(4.0), Some(3));
      && AllNumeric(w1, "sin") && CalculateMean(w1, "sin") == Num(1.0)
      && AllNumeric(w2, "sin") && CalculateMean(w2, "sin") == Num(1.5)
      && AllNumeric(w3, "sin") && CalculateMean(w3, "sin") == Num(2.0)
      && AllNumeric(w4, "sin") && CalculateMean(w4, "sin") == Num(3.0)
  {
    var d1, d2, d3, d4 := SinDatum(1.0), SinDatum(2.0), SinDatum(3.0), SinDatum(4.0);
    assert Pushed([], d1, Some(3)) == [d1];
    assert Pushed([d1], d2, Some(3)) == [d1, d2];
    assert Pushed([d1, d2], d3, Some(3)) == [d1, d2, d3];
    assert Pushed([d1, d2, d3], d4, Some(3)) == [d2, d3, d4];
    MeanOfSingleton(d1, "sin");
    MeanOfTwoSin(1.0, 2.0);
    MeanOfThreeSin(1.0, 2.0, 3.0);
    MeanOfThreeSin(2.0, 3.0, 4.0);
  }
}
