/** The provider's entry points: which objects it serves, that it serves
    subscriptions only, and `subscribe` itself. */
module Provider {
  import opened Telemetry
  import opened Subscriptions

  const MeanType := "telemetry-mean"

  const RequestNotSupported := "Historical requests not supported for Telemetry Averager"

  /** The provider serves exactly the objects of type `telemetry-mean`. */
  function CanProvideTelemetry(domainObject: DomainObject): (r: bool)
    ensures r <==> domainObject.kind == MeanType
  {
    domainObject.kind == MeanType
  }

  /** `supportsSubscribe` is the same function as `canProvideTelemetry`. */
  function SupportsSubscribe(domainObject: DomainObject): (r: bool)
    ensures r <==> domainObject.kind == MeanType
  {
    CanProvideTelemetry(domainObject)
  }

  /** Historical requests are never supported. */
  function SupportsRequest(): (r: bool)
    ensures !r
  {
    false
  }

  /** `request` throws, whatever it is asked for. */
  function Request(domainObject: DomainObject, request: Record): (r: Result<seq<Record>, string>)
    ensures r == Failure(RequestNotSupported)
  {
    Failure(RequestNotSupported)
  }

  /** `getWrappedObject`: the identifier of the telemetry point to resolve. */
  function WrappedObjectId(domainObject: DomainObject): (objectId: string)
  {
    domainObject.telemetryPoint
  }

  /** `subscribe`: start resolving the wrapped object and hand back the
      subscription, whose `Unsubscribe` is the returned function. Nothing
      has resolved and nothing is attached yet. */
  method Subscribe(domainObject: DomainObject) returns (subscription: Subscription)
    ensures fresh(subscription) && subscription.Valid()
    ensures subscription.objectId == domainObject.telemetryPoint
    ensures subscription.events == [] && subscription.State() == Initial
  {
    subscription := new Subscription(WrappedObjectId(domainObject));
  }
}
