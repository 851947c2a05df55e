# Telemetry mean provider, modelled in Dafny

This project models the telemetry mean provider of Open MCT
(`src/plugins/telemetryMean/src/TelemetryMeanProvider.js`). The provider
serves domain objects of type `telemetry-mean`. Each such object wraps
another telemetry point. On `subscribe`, the provider resolves the wrapped
object and subscribes to its live telemetry. It keeps the last `samples`
data in a history (`lastNData`). For every arriving datum it forwards a copy
in which each "range" field is replaced by the mean of that field over the
history. Historical requests are refused.

The files follow the source's pieces:

- `telemetry.dfy` (module `Telemetry`): data records (`map<string, Value>`),
  domain objects, metadata entries and opaque upstream handles.
- `window.dfy` (module `Window`): the push-then-shift update of `lastNData`
  as a function, with a reference definition (the last `Kept(n, samples)`
  data) and the lemmas that connect them.
- `means.dfy` (module `Means`): `calculateMean` as the left fold that
  `reduce` performs, proved equal to Σ / length. `calculateMeansForDatum` is
  a method whose loop overwrites the selected keys of a copy.
- `stream.dfy` (module `Streams`): class `MeanStream`, the state captured by
  `subscribeToMeanValues`. Its fields are `samples`, `keysForRanges` and
  `lastNData`, plus a ghost history of everything received. `Push` and
  `OnDatum` (the upstream callback) update it in place.
- `subscription.dfy` (module `Subscriptions`): class `Subscription`, the
  variables captured by `subscribeToWrappedObject` (`unsubscribeCalled`,
  `wrappedUnsubscribe`), with a ghost count of upstream unsubscribe calls.
  Each of its methods is tied to a step function on values. Lemmas over
  whole event sequences prove the cancellation properties.
- `provider.dfy` (module `Provider`): `canProvideTelemetry`,
  `supportsSubscribe`, `supportsRequest`, `request` and `subscribe`.

Points where the model follows the code's exact behaviour:

- The code reads the window capacity as `object.samples` of the *resolved*
  (wrapped) object (TelemetryMeanProvider.js line 82, `object` being the
  argument of `subscribeToMeanValues`), not from the `telemetry-mean` object
  itself. `Subscription.OnResolved` passes the wrapped object's `samples` to
  the stream.
- A `samples` property that is absent makes `length > samples` false. The
  history is then never trimmed, and the model keeps every datum
  (`samples == None`).
- With `samples` zero or negative, the single shift empties the history after
  every push. The mean is then 0 / 0, modelled as `NaN`
  (`Streams.NonPositiveSamplesForwardNaN`).
- In the code a missing field does not count as 0: `sum + undefined` is
  `NaN`. The model requires the averaged fields to be numeric in every datum
  of the history (see "Left out").

External collaborators are parameters. The resolution of the wrapped object
is the explicit event `Subscription.OnResolved(wrapped, rangeValues,
upstream)`. `wrapped == None` stands for a falsy result. `rangeValues` is
the metadata service's answer to `valuesForHints(['range'])`. `upstream` is
the unsubscribe function that the telemetry service's `subscribe` returns.
The delivery of data is a call of `MeanStream.OnDatum`. The downstream
callback receives its result.

## Model

| member | source | states |
|---|---|---|
| `Window.Pushed` | src/plugins/telemetryMean/src/TelemetryMeanProvider.js:81-84 | after a push, whenever the history is non-empty, its last element is the newest datum (that the history is empty for `samples` at most 0, when starting from the window invariant's history, is stated by `Streams.NonPositiveSamplesForwardNaN`) |
| `Window.Kept` | src/plugins/telemetryMean/src/TelemetryMeanProvider.js:81-84 | the history length after n pushes is at most n and at most `samples` (0 for non-positive `samples`), and at least 1 once a push happened with `samples >= 1` |
| `Window.PushKeepsLastN` | src/plugins/telemetryMean/src/TelemetryMeanProvider.js:81-84 | one push followed by at most one shift takes the last-N window of the received data to the last-N window of the received data plus the new datum |
| `Window.ReplayIsLastN` | src/plugins/telemetryMean/src/TelemetryMeanProvider.js:79-84 | the history after any sequence of n pushes equals exactly the last `Kept(n, samples)` pushed data, in arrival order: `min(n, samples)` for positive `samples`, none for `samples` at most 0, all n when `samples` is absent |
| `Window.ReplayLength` | src/plugins/telemetryMean/src/TelemetryMeanProvider.js:82-83 | with capacity C >= 1, the history length after n pushes is `min(n, C)` and never exceeds C |
| `Window.NewestIsLast` | src/plugins/telemetryMean/src/TelemetryMeanProvider.js:81 | when `samples` is at least 1 or absent, the history is non-empty and its last element is the newest datum |
| `Means.ReduceIsSigma` | src/plugins/telemetryMean/src/TelemetryMeanProvider.js:105-107 | the `reduce` fold from any start value equals that start value plus Σ of the field over the history |
| `Means.CalculateMean` | src/plugins/telemetryMean/src/TelemetryMeanProvider.js:104-108 | for a non-empty history the result is Σ w[i][key] divided by the history length; for an empty history it is NaN, and only then |
| `Means.MeanWithinBounds` | src/plugins/telemetryMean/src/TelemetryMeanProvider.js:104-108 | for a non-empty, numeric history, the mean is a number and lies between any lower and upper bound of the averaged values |
| `Means.MeanOfSingleton` | src/plugins/telemetryMean/src/TelemetryMeanProvider.js:104-108 | over a one-datum history the mean is that datum's value |
| `Means.CalculateMeansForDatum` | src/plugins/telemetryMean/src/TelemetryMeanProvider.js:92-102 | the result has exactly the datum's keys; each key listed in `keysToMean` holds the history's mean; every other key holds the datum's value |
| `Means.MeanDatumUnique` | src/plugins/telemetryMean/src/TelemetryMeanProvider.js:95-99 | the mean record is fully determined by datum, keys and history, so the order of the key loop does not matter |
| `Means.FirstDatumUnchanged` | src/plugins/telemetryMean/src/TelemetryMeanProvider.js:92-102 | with a one-datum history, the mean record equals the datum |
| `Streams.MeanStream.constructor` | src/plugins/telemetryMean/src/TelemetryMeanProvider.js:72-77 | the history starts empty; the range keys are the metadata entries' `source` names, in order |
| `Streams.MeanStream.Push` | src/plugins/telemetryMean/src/TelemetryMeanProvider.js:81-84 | the history becomes push-then-shift of the old one, stays the last `Kept(n, samples)` of everything received, and has length `Kept(n, samples)`: `min(n, samples)` for positive `samples`, 0 for `samples` at most 0, n when `samples` is absent |
| `Streams.MeanStream.OnDatum` | src/plugins/telemetryMean/src/TelemetryMeanProvider.js:79-89 | the datum is pushed (the history keeps the data as received), and the forwarded record is the mean record of the datum over the new history |
| `Streams.ForwardedMeanIsNumber` | src/plugins/telemetryMean/src/TelemetryMeanProvider.js:81-86 | when `samples` is at least 1 or absent, each averaged field of the forwarded record is a number |
| `Streams.NonPositiveSamplesForwardNaN` | src/plugins/telemetryMean/src/TelemetryMeanProvider.js:82-84 | when `samples` is at most 0, the history is empty after every push and the mean is NaN |
| `Streams.SinScenario` | src/plugins/telemetryMean/src/TelemetryMeanProvider.js:81-87 | with `samples` 3 and `sin` values 1, 2, 3, 4 the forwarded `sin` values are 1, 1.5, 2 and 3 |
| `Subscriptions.AttachesSnoc` | src/plugins/telemetryMean/src/TelemetryMeanProvider.js:55-56 | one more event attaches exactly when the earlier events already attached, or it is a truthy resolution with no `unsubscribe` before it |
| `Subscriptions.RunCharacterised` | src/plugins/telemetryMean/src/TelemetryMeanProvider.js:50-65 | after any event sequence: the flag is set iff `unsubscribe` was called; a handle is held iff a truthy resolution came before every `unsubscribe`, and it is that resolution's handle; no upstream unsubscribe is called without a handle; a set flag and a held handle imply the upstream unsubscribe has been called |
| `Subscriptions.UnresolvedIsDetached` | src/plugins/telemetryMean/src/TelemetryMeanProvider.js:51-52 | before the resolution no handle is held and no upstream unsubscribe has been called |
| `Subscriptions.CancelBeforeResolutionNeverAttaches` | src/plugins/telemetryMean/src/TelemetryMeanProvider.js:52-64 | if `unsubscribe` is called before the resolution, no handle is ever held, no upstream unsubscribe is called and nothing is delivered |
| `Subscriptions.FalsyResolutionNeverAttaches` | src/plugins/telemetryMean/src/TelemetryMeanProvider.js:55-57 | a falsy resolution leaves the handle undefined and nothing is delivered |
| `Subscriptions.NoDeliveryAfterUnsubscribe` | src/plugins/telemetryMean/src/TelemetryMeanProvider.js:60-64 | once `unsubscribe` has been called, the upstream service is not delivering |
| `Subscriptions.UnsubscribeAfterAttachReleases` | src/plugins/telemetryMean/src/TelemetryMeanProvider.js:60-64 | an `unsubscribe` call after attaching calls the upstream unsubscribe function once more |
| `Subscriptions.SubscribeToMeanValues` | src/plugins/telemetryMean/src/TelemetryMeanProvider.js:69-79 | a fresh stream with an empty history, the resolved object's `samples`, and the metadata's range source names as keys |
| `Subscriptions.Subscription.constructor` | src/plugins/telemetryMean/src/TelemetryMeanProvider.js:50-52 | the flag starts false, no handle is held, no events have happened |
| `Subscriptions.Subscription.OnResolved` | src/plugins/telemetryMean/src/TelemetryMeanProvider.js:54-58 | a stream is created and the handle kept iff `unsubscribe` had not been called and the object is truthy; otherwise the handle stays undefined; the state is one `Step` of the old state |
| `Subscriptions.Subscription.Unsubscribe` | src/plugins/telemetryMean/src/TelemetryMeanProvider.js:60-65 | the flag is set, the handle is unchanged, the upstream unsubscribe count grows by one iff a handle is held, and afterwards nothing is delivered |
| `Provider.CanProvideTelemetry` | src/plugins/telemetryMean/src/TelemetryMeanProvider.js:29-31 | holds iff the object's type is `telemetry-mean` |
| `Provider.SupportsSubscribe` | src/plugins/telemetryMean/src/TelemetryMeanProvider.js:37-38 | the same predicate as `canProvideTelemetry` |
| `Provider.SupportsRequest` | src/plugins/telemetryMean/src/TelemetryMeanProvider.js:33-35 | always false |
| `Provider.Request` | src/plugins/telemetryMean/src/TelemetryMeanProvider.js:114-116 | always fails with the "not supported" message |
| `Provider.Subscribe` | src/plugins/telemetryMean/src/TelemetryMeanProvider.js:40-48 | a fresh subscription for the object's `telemetryPoint` (the identifier that `getWrappedObject`, lines 45-48, resolves; `Provider.WrappedObjectId`), not yet resolved, with no handle and the flag unset |

## Left out

- Promise scheduling (`openmct.objects.get`, `.then`): resolution is the explicit `OnResolved` event, and a promise settles at most once (`!Resolved()` precondition). A resolution that fails or never settles is a sequence of events without a `Resolution`.
- The telemetry service (`getMetadata(...).valuesForHints`, `telemetry.subscribe`): the range metadata and the upstream handle are inputs. That the upstream stops delivering once its unsubscribe function has been called is its contract, stated by `Subscriptions.Delivering`.
- `Means.CalculateMean`, `Means.CalculateMeansForDatum`, `Streams.MeanStream.OnDatum`: JavaScript coercion of missing or non-numeric fields (`undefined` gives NaN, `null` counts as 0, strings concatenate) is not modelled. The averaged fields are required to be numbers in every datum of the history.
- Floating-point arithmetic: numbers are reals, so sums and divisions are exact.
- The JSON round trip that copies the datum: the copy is the datum itself. Fields that JSON drops or changes (functions, `undefined`, NaN) are not modelled.
- A `samples` property that is not an integer (a string or a fraction) is not modelled. Only absent and integer values are.
- `chooseValueToMean` returns a constant, and the code never uses its result.
- `Subscriptions.UnsubscribeAfterAttachReleases`: repeated `unsubscribe` calls each call the upstream function again. The model counts these calls and does not claim "exactly once".
- `Subscriptions.Subscription.OnResolved`: attaching is one atomic step here. The code stores `wrappedUnsubscribe` only after `subscribeToMeanValues`, and with it `telemetry.subscribe`, has returned (lines 56 and 79). Suppose the upstream service delivers a datum during that call and the downstream callback calls `unsubscribe`. Then line 61 sets the flag, line 62 finds no handle to release, and line 56 stores the handle afterwards, so the upstream subscription stays open. The model has no event inside the attach, so `Subscriptions.NoDeliveryAfterUnsubscribe` does not cover that interleaving.
- `Streams.MeanStream`: `samples` is fixed when the stream is created, whereas the code re-reads `object.samples` from the live resolved object on every datum (line 82). If that property shrank below the current history length, the source would keep the history over capacity for good, since each datum is one push followed by at most one shift (lines 81-84); the model cannot express that change.
- Data are values: `lastNData` holds the very objects that the upstream service delivers (line 81). If the upstream later mutated or reused a datum object, later means would change. The `map<string, Value>` model cannot express that aliasing.
- The provider's constructor only stores the platform object, so it has no counterpart here.
