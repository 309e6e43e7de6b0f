/**
 * The Objective-C API of the builder: five setters, each returning a fresh
 * builder and clearing the Swift delegate, and `start(onSuccess:onError:)`.
 */
module ObjectiveCBuilder {
  import opened Wrappers
  import opened SubscriberConfiguration

  function Connection(b: Builder, configuration: ConnectionConfiguration): (r: Builder)
    ensures r.connection == Some(configuration)
    ensures r.logConfiguration == b.logConfiguration && r.trackingId == b.trackingId
    ensures r.resolution == b.resolution && r.delegateObjectiveC == b.delegateObjectiveC
    ensures r.delegate.None?
  {
    Builder(Some(configuration), b.logConfiguration, b.trackingId, b.resolution, None, b.delegateObjectiveC)
  }

  function TrackingId(b: Builder, trackingId: string): (r: Builder)
    ensures r.trackingId == Some(trackingId)
    ensures r.connection == b.connection && r.logConfiguration == b.logConfiguration
    ensures r.resolution == b.resolution && r.delegateObjectiveC == b.delegateObjectiveC
    ensures r.delegate.None?
  {
    Builder(b.connection, b.logConfiguration, Some(trackingId), b.resolution, None, b.delegateObjectiveC)
  }

  function Resolution(b: Builder, resolution: SubscriberConfiguration.Resolution): (r: Builder)
    ensures r.resolution == Some(resolution)
    ensures r.connection == b.connection && r.logConfiguration == b.logConfiguration
    ensures r.trackingId == b.trackingId && r.delegateObjectiveC == b.delegateObjectiveC
    ensures r.delegate.None?
  {
    Builder(b.connection, b.logConfiguration, b.trackingId, Some(resolution), None, b.delegateObjectiveC)
  }

  function Delegate(b: Builder, delegate: SubscriberDelegateObjectiveC): (r: Builder)
    ensures r.delegateObjectiveC == Some(delegate)
    ensures r.connection == b.connection && r.logConfiguration == b.logConfiguration
    ensures r.trackingId == b.trackingId && r.resolution == b.resolution
    ensures r.delegate.None?
  {
    Builder(b.connection, b.logConfiguration, b.trackingId, b.resolution, None, Some(delegate))
  }

  function Log(b: Builder, configuration: LogConfiguration): (r: Builder)
    ensures r.logConfiguration == Some(configuration)
    ensures r.connection == b.connection && r.trackingId == b.trackingId
    ensures r.resolution == b.resolution && r.delegateObjectiveC == b.delegateObjectiveC
    ensures r.delegate.None?
  {
    Builder(b.connection, Some(configuration), b.trackingId, b.resolution, None, b.delegateObjectiveC)
  }

  /**
   * `start(onSuccess:onError:)`: the same checks as the Swift variant, with
   * onError in place of the failed completion; on success the Objective-C
   * delegate is wired and the Swift delegate cleared.
   */
  function Start(b: Builder): (r: StartOutcome)
    ensures r.subscriber.Some? <==> Complete(b)
    ensures b.connection.None? ==> r == Rejected(MissingError(ConnectionField))
    ensures b.connection.Some? && b.logConfiguration.None? ==> r == Rejected(MissingError(LogField))
    ensures b.connection.Some? && b.logConfiguration.Some? && b.trackingId.None?
      ==> r == Rejected(MissingError(TrackingIdField))
    ensures !Complete(b) ==> FailureReports(r.effects) == 1 && !ConstructsAnything(r.effects)
    ensures Complete(b) ==> r.subscriber.value == DefaultSubscriber(
      b.logConfiguration.value,
      DefaultAblySubscriberService(b.connection.value, b.trackingId.value, b.resolution),
      None, b.delegateObjectiveC)
    ensures Complete(b) ==> r == Built(Validate(b).value, None, b.delegateObjectiveC)
    ensures Complete(b) ==> FailureReports(r.effects) == 0 && multiset(r.effects)[StartForwarded] == 1
  {
    match Validate(b)
    case Failure(e) => Rejected(e)
    case Success(v) => Built(v, None, b.delegateObjectiveC)
  }
}
