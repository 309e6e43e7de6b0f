/**
 * The Swift API of the builder: five setters, each returning a fresh builder
 * and clearing the Objective-C delegate, and `start(completion:)`.
 */
module SwiftBuilder {
  import opened Wrappers
  import opened SubscriberConfiguration

  function Connection(b: Builder, configuration: ConnectionConfiguration): (r: Builder)
    ensures r.connection == Some(configuration)
    ensures r.logConfiguration == b.logConfiguration && r.trackingId == b.trackingId
    ensures r.resolution == b.resolution && r.delegate == b.delegate
    ensures r.delegateObjectiveC.None?
  {
    Builder(Some(configuration), b.logConfiguration, b.trackingId, b.resolution, b.delegate, None)
  }

  function Log(b: Builder, configuration: LogConfiguration): (r: Builder)
    ensures r.logConfiguration == Some(configuration)
    ensures r.connection == b.connection && r.trackingId == b.trackingId
    ensures r.resolution == b.resolution && r.delegate == b.delegate
    ensures r.delegateObjectiveC.None?
  {
    Builder(b.connection, Some(configuration), b.trackingId, b.resolution, b.delegate, None)
  }

  function TrackingId(b: Builder, trackingId: string): (r: Builder)
    ensures r.trackingId == Some(trackingId)
    ensures r.connection == b.connection && r.logConfiguration == b.logConfiguration
    ensures r.resolution == b.resolution && r.delegate == b.delegate
    ensures r.delegateObjectiveC.None?
  {
    Builder(b.connection, b.logConfiguration, Some(trackingId), b.resolution, b.delegate, None)
  }

  function Resolution(b: Builder, resolution: SubscriberConfiguration.Resolution): (r: Builder)
    ensures r.resolution == Some(resolution)
    ensures r.connection == b.connection && r.logConfiguration == b.logConfiguration
    ensures r.trackingId == b.trackingId && r.delegate == b.delegate
    ensures r.delegateObjectiveC.None?
  {
    Builder(b.connection, b.logConfiguration, b.trackingId, Some(resolution), b.delegate, None)
  }

  function Delegate(b: Builder, delegate: SubscriberDelegate): (r: Builder)
    ensures r.delegate == Some(delegate)
    ensures r.connection == b.connection && r.logConfiguration == b.logConfiguration
    ensures r.trackingId == b.trackingId && r.resolution == b.resolution
    ensures r.delegateObjectiveC.None?
  {
    Builder(b.connection, b.logConfiguration, b.trackingId, b.resolution, Some(delegate), None)
  }

  /**
   * `start(completion:)`: on an incomplete configuration the completion gets
   * the error once and nil is returned; otherwise the service and the
   * subscriber are built, the Swift delegate is wired, the Objective-C
   * delegate is cleared and the completion is handed to the subscriber.
   */
  function Start(b: Builder): (r: StartOutcome)
    ensures r.subscriber.Some? <==> Complete(b)
    ensures b.connection.None? ==> r == Rejected(MissingError(ConnectionField))
    ensures b.connection.Some? && b.logConfiguration.None? ==> r == Rejected(MissingError(LogField))
    ensures b.connection.Some? && b.logConfiguration.Some? && b.trackingId.None?
      ==> r == Rejected(MissingError(TrackingIdField))
    ensures !Complete(b) ==> FailureReports(r.effects) == 1 && !ConstructsAnything(r.effects)
    ensures Complete(b) ==> r.subscriber.value == DefaultSubscriber(
      b.logConfiguration.value,
      DefaultAblySubscriberService(b.connection.value, b.trackingId.value, b.resolution),
      b.delegate, None)
    ensures Complete(b) ==> r == Built(Validate(b).value, b.delegate, None)
    ensures Complete(b) ==> FailureReports(r.effects) == 0 && multiset(r.effects)[StartForwarded] == 1
  {
    match Validate(b)
    case Failure(e) => Rejected(e)
    case Success(v) => Built(v, b.delegate, None)
  }
}
