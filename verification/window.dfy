/** The bounded history `lastNData` kept per upstream subscription: every
    datum is appended, and when the history is then longer than the object's
    `samples` property the oldest datum is shifted off. */
module Window {
  import opened Telemetry

  /** The history after one arrival: append, then at most one shift. A missing
      `samples` property makes the comparison false, so nothing is evicted. */
  function Pushed(lastNData: seq<Record>, datum: Record, samples: Option<int>): (w: seq<Record>)
    ensures w != [] ==> w[|w| - 1] == datum
  {
    var grown := lastNData + [datum];
    if samples.Some? && |grown| > samples.value then grown[1..] else grown
  }

  /** How many of `n` arrivals the history keeps: `min(n, samples)`, none when
      `samples` is not positive, all of them when it is missing. */
  function Kept(n: nat, samples: Option<int>): (k: nat)
    ensures k <= n
    ensures samples.Some? && samples.value >= 1 && n >= 1 ==> k >= 1
    ensures samples.Some? ==> k <= if samples.value < 0 then 0 else samples.value
  {
    if samples.None? then n
    else if samples.value <= 0 then 0
    else if n <= samples.value then n
    else samples.value
  }

  /** Reference definition of the history: the last `Kept` arrivals, in
      arrival order. */
  function LastN(received: seq<Record>, samples: Option<int>): (w: seq<Record>)
  {
    received[|received| - Kept(|received|, samples)..]
  }

  /** The history after a whole sequence of arrivals, starting empty. */
  function Replay(data: seq<Record>, samples: Option<int>): (w: seq<Record>)
  {
    if data == [] then [] else Pushed(Replay(data[..|data| - 1], samples), data[|data| - 1], samples)
  }

  /** One push takes the last-N history of `received` to the last-N history of
      `received + [datum]`: a single shift suffices to restore the bound. */
  lemma PushKeepsLastN(received: seq<Record>, datum: Record, samples: Option<int>)
    ensures Pushed(LastN(received, samples), datum, samples) == LastN(received + [datum], samples)
  {
    var n := |received|;
    var k := Kept(n, samples);
    var k' := Kept(n + 1, samples);
    var all := received + [datum];
    assert received[n - k..] + [datum] == all[n - k..];
    if samples.Some? && k + 1 > samples.value {
      assert k' == k;
      assert all[n - k..][1..] == all[n + 1 - k'..];
    } else {
      assert k' == k + 1;
    }
  }

  /** The history after `n` arrivals holds exactly the last `Kept(n, samples)`
      of them, in arrival order: `min(n, samples)` for a positive `samples`,
      none for a non-positive one, all of them when `samples` is missing. */
  lemma {:induction false} ReplayIsLastN(data: seq<Record>, samples: Option<int>)
    ensures Replay(data, samples) == LastN(data, samples)
  {
    if data != [] {
      var prefix := data[..|data| - 1];
      ReplayIsLastN(prefix, samples);
      PushKeepsLastN(prefix, data[|data| - 1], samples);
      assert prefix + [data[|data| - 1]] == data;
    }
  }

  /** The capacity invariant: after `n` arrivals with `samples == C >= 1`,
      the history holds `min(n, C)` data, never more than `C`. */
  lemma ReplayLength(data: seq<Record>, c: int)
    requires c >= 1
    ensures |Replay(data, Some(c))| == if |data| <= c then |data| else c
    ensures |Replay(data, Some(c))| <= c
  {
    ReplayIsLastN(data, Some(c));
  }

  /** The newest arrival is always in the history (when `samples` allows any),
      and it is the last element. */
  lemma {:induction false} NewestIsLast(data: seq<Record>, samples: Option<int>)
    requires data != []
    requires samples.None? || samples.value >= 1
    ensures Replay(data, samples) != []
    ensures Replay(data, samples)[|Replay(data, samples)| - 1] == data[|data| - 1]
  {
    ReplayIsLastN(data, samples);
  }
}
