/** Values exchanged with the telemetry platform: telemetry data records,
    domain objects and the opaque handles that the platform's subscription
    service returns. */
module Telemetry {

  datatype Option<+T> = None | Some(value: T)

  datatype Result<+R, +E> = Success(value: R) | Failure(error: E)

  /** One field of a telemetry datum, as it would appear in a JSON object.
      `NaN` is what a mean over an empty window evaluates to (0 / 0). */
  datatype Value = Num(x: real) | NaN | Text(s: string) | Bool(b: bool) | Null

  /** A telemetry datum: field name to field value. */
  type Record = map<string, Value>

  /** The properties of a domain object that the provider reads: its `type`
      (here `kind`), the identifier of the telemetry point it wraps, and its
      `samples` property, `None` when the object has no such property. */
  datatype DomainObject = DomainObject(kind: string, telemetryPoint: string, samples: Option<int>)

  /** One entry of the metadata service's answer to `valuesForHints(['range'])`. */
  datatype ValueMetadatum = ValueMetadatum(source: string)

  /** The unsubscribe function returned by the upstream subscription service;
      opaque to the provider. */
  datatype Handle = Handle(id: nat)
}
