/** The mean of one field over the history (`calculateMean`) and the mean
    record built from the newest datum (`calculateMeansForDatum`). */
module Means {
  import opened Telemetry

  /** Every datum of the history carries a number under `key`. */
  predicate AllNumeric(w: seq<Record>, key: string)
  {
    forall r: Record | r in w :: key in r && r[key].Num?
  }

  /** Reference definition of the sum: Σ w[i][key]. */
  function Sigma(w: seq<Record>, key: string): (sum: real)
    requires AllNumeric(w, key)
  {
    if w == [] then 0.0 else w[0][key].x + Sigma(w[1..], key)
  }

  /** The `reduce` of `calculateMean`: the running sum folded left to right. */
  function ReduceSum(sum: real, w: seq<Record>, key: string): (total: real)
    requires AllNumeric(w, key)
    decreases |w|
  {
    if w == [] then sum else ReduceSum(sum + w[0][key].x, w[1..], key)
  }

  /** The left fold and the reference sum agree, for any starting value. */
  lemma {:induction false} ReduceIsSigma(sum: real, w: seq<Record>, key: string)
    requires AllNumeric(w, key)
    ensures ReduceSum(sum, w, key) == sum + Sigma(w, key)
    decreases |w|
  {
    if w != [] {
      ReduceIsSigma(sum + w[0][key].x, w[1..], key);
    }
  }

  /** `calculateMean`: the reduced sum divided by the length of the history;
      over an empty history this is 0 / 0, which is NaN. */
  function CalculateMean(lastNData: seq<Record>, key: string): (r: Value)
    requires AllNumeric(lastNData, key)
    ensures lastNData == [] <==> r == NaN
    ensures lastNData != [] ==> r == Num(Sigma(lastNData, key) / (|lastNData| as real))
  {
    ReduceIsSigma(0.0, lastNData, key);
    if lastNData == [] then NaN else Num(ReduceSum(0.0, lastNData, key) / (|lastNData| as real))
  }

  /** A lower bound on every term bounds the reference sum from below. */
  lemma {:induction false} SigmaAtLeast(w: seq<Record>, key: string, lo: real)
    requires AllNumeric(w, key)
    requires forall i | 0 <= i < |w| :: lo <= w[i][key].x
    ensures (|w| as real) * lo <= Sigma(w, key)
  {
    if w != [] {
      var rest := w[1..];
      assert forall i | 0 <= i < |rest| :: rest[i] == w[i + 1];
      SigmaAtLeast(rest, key, lo);
      StepProduct(|rest| as real, lo);
    }
  }

  /** An upper bound on every term bounds the reference sum from above. */
  lemma {:induction false} SigmaAtMost(w: seq<Record>, key: string, hi: real)
    requires AllNumeric(w, key)
    requires forall i | 0 <= i < |w| :: w[i][key].x <= hi
    ensures Sigma(w, key) <= (|w| as real) * hi
  {
    if w != [] {
      var rest := w[1..];
      assert forall i | 0 <= i < |rest| :: rest[i] == w[i + 1];
      SigmaAtMost(rest, key, hi);
      StepProduct(|rest| as real, hi);
    }
  }

  /** One more term adds one more copy of the bound. */
  lemma StepProduct(n: real, c: real)
    ensures (n + 1.0) * c == n * c + c
  {
  }

  /** The mean lies between the smallest and the largest value averaged. */
  lemma MeanWithinBounds(w: seq<Record>, key: string, lo: real, hi: real)
    requires w != [] && AllNumeric(w, key)
    requires forall i | 0 <= i < |w| :: lo <= w[i][key].x <= hi
    ensures CalculateMean(w, key).Num?
    ensures lo <= CalculateMean(w, key).x <= hi
  {
    SigmaAtLeast(w, key, lo);
    SigmaAtMost(w, key, hi);
    DivideBounds(Sigma(w, key), |w| as real, lo, hi);
  }

  /** Dividing bounds on `n` terms' sum by `n` bounds the average. */
  lemma DivideBounds(s: real, n: real, lo: real, hi: real)
    requires n > 0.0 && n * lo <= s <= n * hi
    ensures lo <= s / n <= hi
  {
    var m := s / n;
    assert m * n == s;
  }

  /** Over a history of one datum the mean is that datum's own value. */
  lemma MeanOfSingleton(datum: Record, key: string)
    requires key in datum && datum[key].Num?
    ensures AllNumeric([datum], key)
    ensures CalculateMean([datum], key) == datum[key]
  {
    assert [datum][1..] == [];
    assert Sigma([datum], key) == datum[key].x + Sigma([], key);
  }

  /** What `calculateMeansForDatum` needs to produce numbers: each key of the
      datum that is to be averaged is numeric throughout the history. */
  predicate NumericWhereSelected(datum: Record, keysToMean: seq<string>, lastNData: seq<Record>)
  {
    forall key | key in datum && key in keysToMean :: AllNumeric(lastNData, key)
  }

  /** `meanDatum` is the mean record for `datum`: the same keys as `datum`;
      a key listed in `keysToMean` holds the history's mean for that key,
      every other key holds the datum's own value. */
  predicate IsMeanDatum(meanDatum: Record, datum: Record, keysToMean: seq<string>, lastNData: seq<Record>)
    requires NumericWhereSelected(datum, keysToMean, lastNData)
  {
    && meanDatum.Keys == datum.Keys
    && (forall key | key in datum && key in keysToMean :: meanDatum[key] == CalculateMean(lastNData, key))
    && (forall key | key in datum && key !in keysToMean :: meanDatum[key] == datum[key])
  }

  /** `calculateMeansForDatum`: copy the datum, then overwrite each of its own
      keys that is listed in `keysToMean` with the mean over the history. */
  method CalculateMeansForDatum(datum: Record, keysToMean: seq<string>, lastNData: seq<Record>)
    returns (meanDatum: Record)
    requires NumericWhereSelected(datum, keysToMean, lastNData)
    ensures IsMeanDatum(meanDatum, datum, keysToMean, lastNData)
  {
    meanDatum := datum;
    var pending := datum.Keys;
    while pending != {}
      invariant pending <= datum.Keys
      invariant meanDatum.Keys == datum.Keys
      invariant forall key | key in datum && key !in pending && key in keysToMean ::
        meanDatum[key] == CalculateMean(lastNData, key)
      invariant forall key | key in datum && (key in pending || key !in keysToMean) ::
        meanDatum[key] == datum[key]
      decreases pending
    {
      var key :| key in pending;
      if key in keysToMean {
        meanDatum := meanDatum[key := CalculateMean(lastNData, key)];
      }
      pending := pending - {key};
    }
  }

  /** The mean record is determined by its inputs: the order in which the
      datum's keys are visited does not matter. */
  lemma MeanDatumUnique(a: Record, b: Record, datum: Record, keysToMean: seq<string>, lastNData: seq<Record>)
    requires NumericWhereSelected(datum, keysToMean, lastNData)
    requires IsMeanDatum(a, datum, keysToMean, lastNData)
    requires IsMeanDatum(b, datum, keysToMean, lastNData)
    ensures a == b
  {
    assert forall key | key in a :: a[key] == b[key];
  }

  /** The first datum of a stream comes out unchanged: with a history of one,
      every averaged field is its own mean. */
  lemma FirstDatumUnchanged(meanDatum: Record, datum: Record, keysToMean: seq<string>)
    requires NumericWhereSelected(datum, keysToMean, [datum])
    requires IsMeanDatum(meanDatum, datum, keysToMean, [datum])
    ensures meanDatum == datum
  {
    forall key | key in datum
      ensures meanDatum[key] == datum[key]
    {
      if key in keysToMean {
        assert datum in [datum];
        MeanOfSingleton(datum, key);
      }
    }
  }
}
