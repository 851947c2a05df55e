/** The state captured by `subscribeToWrappedObject`: whether `unsubscribe`
    has been called, and the upstream unsubscribe function once the
    resolved object has been subscribed to. Resolution of the object is an
    explicit event here rather than a promise continuation. */
module Subscriptions {
  import opened Telemetry
  import opened Streams

  /** The captured variables, plus the number of times the upstream
      unsubscribe function has been called. */
  datatype SubState = SubState(unsubscribeCalled: bool, wrappedUnsubscribe: Option<Handle>, upstreamUnsubscribes: nat)

  const Initial := SubState(false, None, 0)

  /** What can happen to one subscription: the object resolves (to a truthy
      object, whose upstream subscription would return `upstream`, or to a
      falsy one), or the returned `unsubscribe` is called. */
  datatype Event = Resolution(truthy: bool, upstream: Handle) | UnsubscribeCall

  /** One event: a resolution attaches only when `unsubscribe` has not been
      called and the object is truthy; `unsubscribe` raises the flag and calls
      the upstream unsubscribe function whenever there is one. */
  function Step(s: SubState, e: Event): (s': SubState)
  {
    match e
    case Resolution(truthy, upstream) =>
      if !s.unsubscribeCalled && truthy then s.(wrappedUnsubscribe := Some(upstream)) else s
    case UnsubscribeCall =>
      s.(unsubscribeCalled := true,
         upstreamUnsubscribes := if s.wrappedUnsubscribe.Some? then s.upstreamUnsubscribes + 1 else s.upstreamUnsubscribes)
  }

  /** The state after a sequence of events, from the initial state. */
  function Run(events: seq<Event>): (s: SubState)
  {
    if events == [] then Initial else Step(Run(events[..|events| - 1]), events[|events| - 1])
  }

  /** A promise settles at most once. */
  predicate AtMostOneResolution(events: seq<Event>)
  {
    forall i, j | 0 <= i < j < |events| :: !(events[i].Resolution? && events[j].Resolution?)
  }

  /** Reference definition of attaching: some resolution to a truthy object
      comes before every `unsubscribe` call. */
  ghost predicate Attaches(events: seq<Event>)
  {
    exists i | 0 <= i < |events| :: events[i].Resolution? && events[i].truthy && UnsubscribeCall !in events[..i]
  }

  /** The upstream service is delivering data: it has been subscribed to and
      its unsubscribe function has not been called. */
  predicate Delivering(s: SubState)
  {
    s.wrappedUnsubscribe.Some? && s.upstreamUnsubscribes == 0
  }

  /** Attaching after one more event: either the earlier events attached,
      or the new event is a truthy resolution with no `unsubscribe` before it. */
  lemma AttachesSnoc(pre: seq<Event>, e: Event)
    ensures Attaches(pre + [e]) <==> Attaches(pre) || (e.Resolution? && e.truthy && UnsubscribeCall !in pre)
  {
    var all := pre + [e];
    forall i | 0 <= i < |pre| ensures all[i] == pre[i] && all[..i] == pre[..i] {
    }
    assert all[..|pre|] == pre;
    if Attaches(pre) {
      var i :| 0 <= i < |pre| && pre[i].Resolution? && pre[i].truthy && UnsubscribeCall !in pre[..i];
      assert all[i] == pre[i] && all[..i] == pre[..i];
    }
    if Attaches(all) {
      var i :| 0 <= i < |all| && all[i].Resolution? && all[i].truthy && UnsubscribeCall !in all[..i];
      if i < |pre| {
        assert all[i] == pre[i] && all[..i] == pre[..i];
      }
    }
  }

  /** What the state says about the events that led to it. */
  lemma {:induction false} RunCharacterised(events: seq<Event>)
    requires AtMostOneResolution(events)
    ensures Run(events).unsubscribeCalled <==> UnsubscribeCall in events
    ensures Run(events).wrappedUnsubscribe.Some? <==> Attaches(events)
    ensures Run(events).wrappedUnsubscribe.Some? ==> Resolution(true, Run(events).wrappedUnsubscribe.value) in events
    ensures Run(events).upstreamUnsubscribes > 0 ==> Run(events).wrappedUnsubscribe.Some?
    ensures Run(events).unsubscribeCalled && Run(events).wrappedUnsubscribe.Some? ==> Run(events).upstreamUnsubscribes > 0
  {
    if events != [] {
      var pre := events[..|events| - 1];
      var e := events[|events| - 1];
      assert events == pre + [e];
      assert AtMostOneResolution(pre) by {
        forall i, j | 0 <= i < j < |pre|
          ensures !(pre[i].Resolution? && pre[j].Resolution?)
        {
          assert pre[i] == events[i] && pre[j] == events[j];
        }
      }
      RunCharacterised(pre);
      AttachesSnoc(pre, e);
      if e.Resolution? {
        forall i | 0 <= i < |pre| ensures !pre[i].Resolution? {
          assert events[i] == pre[i];
        }
        assert !Attaches(pre);
      }
    }
  }

  /** Cancellation before resolution: if `unsubscribe` is called before the
      object resolves, the resolution never opens an upstream subscription,
      and no upstream unsubscribe is ever called. */
  lemma CancelBeforeResolutionNeverAttaches(events: seq<Event>, k: nat)
    requires AtMostOneResolution(events)
    requires k < |events| && events[k] == UnsubscribeCall
    requires forall i | 0 <= i < k :: !events[i].Resolution?
    ensures Run(events).wrappedUnsubscribe == None
    ensures Run(events).upstreamUnsubscribes == 0
    ensures !Delivering(Run(events))
  {
    RunCharacterised(events);
  }

  /** A falsy resolution never opens an upstream subscription. */
  lemma FalsyResolutionNeverAttaches(events: seq<Event>)
    requires AtMostOneResolution(events)
    requires forall i | 0 <= i < |events| :: events[i].Resolution? ==> !events[i].truthy
    ensures Run(events).wrappedUnsubscribe == None
    ensures !Delivering(Run(events))
  {
    RunCharacterised(events);
  }

  /** Once `unsubscribe` has been called, the upstream service is no longer
      delivering: either it was never subscribed to, or its unsubscribe
      function has been called. */
  lemma NoDeliveryAfterUnsubscribe(events: seq<Event>)
    requires AtMostOneResolution(events)
    requires UnsubscribeCall in events
    ensures !Delivering(Run(events))
  {
    RunCharacterised(events);
  }

  /** Cancellation after attaching calls the upstream unsubscribe function. */
  lemma UnsubscribeAfterAttachReleases(events: seq<Event>)
    requires AtMostOneResolution(events)
    requires Attaches(events)
    ensures Run(events + [UnsubscribeCall]).upstreamUnsubscribes == Run(events).upstreamUnsubscribes + 1
  {
    RunCharacterised(events);
    assert (events + [UnsubscribeCall])[..|events|] == events;
  }

  /** Before the resolution there is no upstream unsubscribe function. */
  lemma {:induction false} UnresolvedIsDetached(events: seq<Event>)
    requires forall i | 0 <= i < |events| :: !events[i].Resolution?
    ensures Run(events).wrappedUnsubscribe == None
    ensures Run(events).upstreamUnsubscribes == 0
  {
    if events != [] {
      UnresolvedIsDetached(events[..|events| - 1]);
    }
  }

  /** Appending an event that keeps resolution unique runs one more step. */
  lemma Extend(events: seq<Event>, e: Event)
    requires AtMostOneResolution(events)
    requires e.Resolution? ==> forall i | 0 <= i < |events| :: !events[i].Resolution?
    ensures AtMostOneResolution(events + [e])
    ensures Run(events + [e]) == Step(Run(events), e)
  {
    var all := events + [e];
    assert all[..|all| - 1] == events;
    forall i, j | 0 <= i < j < |all|
      ensures !(all[i].Resolution? && all[j].Resolution?)
    {
      assert all[i] == events[i];
      if j < |events| {
        assert all[j] == events[j];
      }
    }
  }

  /** `subscribeToMeanValues` up to the upstream subscription call: a new
      stream whose history starts empty, with the resolved object's
      `samples` and the range keys taken from its metadata. */
  method SubscribeToMeanValues(wrappedObject: DomainObject, rangeValues: seq<ValueMetadatum>) returns (stream: MeanStream)
    ensures fresh(stream) && stream.Valid()
    ensures stream.samples == wrappedObject.samples
    ensures stream.lastNData == [] && stream.received == []
    ensures |stream.keysForRanges| == |rangeValues|
    ensures forall i | 0 <= i < |rangeValues| :: stream.keysForRanges[i] == rangeValues[i].source
  {
    stream := new MeanStream(wrappedObject.samples, rangeValues);
  }

  class Subscription {
    /** The identifier that `getWrappedObject` resolves. */
    ghost const objectId: string
    var unsubscribeCalled: bool
    var wrappedUnsubscribe: Option<Handle>
    ghost var upstreamUnsubscribes: nat
    /** The events so far, in order. */
    ghost var events: seq<Event>

    ghost function State(): (s: SubState)
      reads this
    {
      SubState(unsubscribeCalled, wrappedUnsubscribe, upstreamUnsubscribes)
    }

    ghost predicate Valid()
      reads this
    {
      AtMostOneResolution(events) && State() == Run(events)
    }

    ghost predicate Resolved()
      reads this
    {
      exists i | 0 <= i < |events| :: events[i].Resolution?
    }

    /** `subscribeToWrappedObject` before the resolution settles. */
    constructor (objectId: string)
      ensures Valid() && this.objectId == objectId
      ensures events == [] && State() == Initial
    {
      this.objectId := objectId;
      unsubscribeCalled := false;
      wrappedUnsubscribe := None;
      upstreamUnsubscribes := 0;
      events := [];
    }

    /** The continuation of the resolution: when `unsubscribe` has not been
        called and the object is truthy, subscribe to its mean values (the
        new stream is what the upstream service feeds) and keep the upstream
        unsubscribe function. */
    method OnResolved(wrapped: Option<DomainObject>, rangeValues: seq<ValueMetadatum>, upstream: Handle)
      returns (stream: MeanStream?)
      requires Valid() && !Resolved()
      modifies this
      ensures Valid() && Resolved()
      ensures events == old(events) + [Resolution(wrapped.Some?, upstream)]
      ensures State() == Step(old(State()), Resolution(wrapped.Some?, upstream))
      ensures stream != null <==> !old(unsubscribeCalled) && wrapped.Some?
      ensures stream != null ==> wrappedUnsubscribe == Some(upstream)
      ensures stream == null ==> wrappedUnsubscribe == None
      ensures stream != null ==>
        && fresh(stream) && stream.Valid()
        && stream.samples == wrapped.value.samples
        && stream.lastNData == [] && stream.received == []
        && |stream.keysForRanges| == |rangeValues|
        && (forall i | 0 <= i < |rangeValues| :: stream.keysForRanges[i] == rangeValues[i].source)
    {
      UnresolvedIsDetached(events);
      Extend(events, Resolution(wrapped.Some?, upstream));
      var attach := !unsubscribeCalled && wrapped.Some?;
      if attach {
        wrappedUnsubscribe := Some(upstream);
      }
      events := events + [Resolution(wrapped.Some?, upstream)];
      assert events[|events| - 1].Resolution?;
      stream := null;
      if attach {
        stream := SubscribeToMeanValues(wrapped.value, rangeValues);
      }
    }

    /** The returned `unsubscribe`: raise the flag, and call the upstream
        unsubscribe function if there is one (on every call). */
    method Unsubscribe()
      requires Valid()
      modifies this
      ensures Valid()
      ensures events == old(events) + [UnsubscribeCall]
      ensures State() == Step(old(State()), UnsubscribeCall)
      ensures unsubscribeCalled && wrappedUnsubscribe == old(wrappedUnsubscribe)
      ensures upstreamUnsubscribes ==
        if wrappedUnsubscribe.Some? then old(upstreamUnsubscribes) + 1 else old(upstreamUnsubscribes)
      ensures !Delivering(State())
    {
      unsubscribeCalled := true;
      if wrappedUnsubscribe.Some? {
        upstreamUnsubscribes := upstreamUnsubscribes + 1;
      }
      Extend(events, UnsubscribeCall);
      events := events + [UnsubscribeCall];
      assert events[|events| - 1] == UnsubscribeCall;
      NoDeliveryAfterUnsubscribe(events);
    }
  }
}
