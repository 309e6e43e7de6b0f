/**
 * The state of a subscriber builder, the error it reports for an incomplete
 * configuration, and the validation that both `start` variants perform
 * before anything is constructed.
 */
module SubscriberConfiguration {
  import opened Wrappers

  /** Connection settings for the realtime service; their contents are not interpreted here. */
  datatype ConnectionConfiguration = ConnectionConfiguration(handle: nat)
  /** Logging settings; their contents are not interpreted here. */
  datatype LogConfiguration = LogConfiguration(handle: nat)
  /** A resolution preference; its contents are not interpreted here. */
  datatype Resolution = Resolution(handle: nat)
  /** A non-owning reference to a delegate of the Swift API. */
  datatype SubscriberDelegate = SubscriberDelegate(handle: nat)
  /** A non-owning reference to a delegate of the Objective-C API. */
  datatype SubscriberDelegateObjectiveC = SubscriberDelegateObjectiveC(handle: nat)

  /** The six fields of a builder. Every field is optional until set. */
  datatype Builder = Builder(
    connection: Option<ConnectionConfiguration>,
    logConfiguration: Option<LogConfiguration>,
    trackingId: Option<string>,
    resolution: Option<Resolution>,
    delegate: Option<SubscriberDelegate>,
    delegateObjectiveC: Option<SubscriberDelegateObjectiveC>)

  /** The public `init()`: a builder with nothing configured. */
  function Empty(): (b: Builder)
    ensures b.connection.None? && b.logConfiguration.None? && b.trackingId.None?
    ensures b.resolution.None? && b.delegate.None? && b.delegateObjectiveC.None?
  {
    Builder(None, None, None, None, None, None)
  }

  /** The kinds of error information the builder can produce. */
  datatype ErrorType = IncompleteConfiguration(missingProperty: string, forBuilderOption: string)

  /** The structured error value delivered to the caller's failure callback. */
  datatype ErrorInformation = ErrorInformation(kind: ErrorType)

  /** The fields `start` insists on, in the order it checks them. */
  datatype MandatoryField = ConnectionField | LogField | TrackingIdField

  const CheckOrder: seq<MandatoryField> := [ConnectionField, LogField, TrackingIdField]

  predicate IsSet(b: Builder, f: MandatoryField)
  {
    match f
    case ConnectionField => b.connection.Some?
    case LogField => b.logConfiguration.Some?
    case TrackingIdField => b.trackingId.Some?
  }

  /** Every mandatory field is present. */
  predicate Complete(b: Builder)
  {
    b.connection.Some? && b.logConfiguration.Some? && b.trackingId.Some?
  }

  /** The guards of `start` all pass exactly when every mandatory field is set. */
  lemma ValidateSucceedsIffAllSet(b: Builder)
    ensures Validate(b).Success? <==> forall f :: IsSet(b, f)
  {
    if !Complete(b) {
      assert !IsSet(b, ConnectionField) || !IsSet(b, LogField) || !IsSet(b, TrackingIdField);
    }
  }

  /** The error that names a missing field and the builder option that sets it. */
  function MissingError(f: MandatoryField): (e: ErrorInformation)
    ensures f == ConnectionField ==> e.kind == IncompleteConfiguration("ConnectionConfiguration", "connection")
    ensures f == LogField ==> e.kind == IncompleteConfiguration("LogConfiguration", "log")
    ensures f == TrackingIdField ==> e.kind == IncompleteConfiguration("TrackingId", "trackingId")
  {
    match f
    case ConnectionField => ErrorInformation(IncompleteConfiguration("ConnectionConfiguration", "connection"))
    case LogField => ErrorInformation(IncompleteConfiguration("LogConfiguration", "log"))
    case TrackingIdField => ErrorInformation(IncompleteConfiguration("TrackingId", "trackingId"))
  }

  lemma MissingErrorInjective(f: MandatoryField, g: MandatoryField)
    ensures MissingError(f) == MissingError(g) <==> f == g
  {
  }

  /** What the guards of `start` unwrap when they all pass. */
  datatype Validated = Validated(
    connection: ConnectionConfiguration,
    logConfiguration: LogConfiguration,
    trackingId: string,
    resolution: Option<Resolution>)

  /**
   * The chain of `guard` statements shared by both `start` variants:
   * connection first, then the log configuration, then the tracking id.
   * The resolution is optional and is passed through as it is.
   */
  function Validate(b: Builder): (r: Result<Validated, ErrorInformation>)
    ensures r.Success? <==> Complete(b)
    ensures r.Success? ==>
              && r.value.connection == b.connection.value
              && r.value.logConfiguration == b.logConfiguration.value
              && r.value.trackingId == b.trackingId.value
              && r.value.resolution == b.resolution
    ensures r.Failure? ==> exists f :: !IsSet(b, f) && r.error == MissingError(f)
  {
    if b.connection.None? then
      assert !IsSet(b, ConnectionField);
      Failure(MissingError(ConnectionField))
    else if b.logConfiguration.None? then
      assert !IsSet(b, LogField);
      Failure(MissingError(LogField))
    else if b.trackingId.None? then
      assert !IsSet(b, TrackingIdField);
      Failure(MissingError(TrackingIdField))
    else
      Success(Validated(b.connection.value, b.logConfiguration.value, b.trackingId.value, b.resolution))
  }

  /**
   * Validation reports the FIRST missing field in the check order, whatever
   * the later fields hold.
   */
  lemma ValidateReportsFirstMissing(b: Builder, i: nat)
    requires i < |CheckOrder|
    requires !IsSet(b, CheckOrder[i])
    requires forall j :: 0 <= j < i ==> IsSet(b, CheckOrder[j])
    ensures Validate(b) == Failure(MissingError(CheckOrder[i]))
  {
    if i > 0 { assert IsSet(b, CheckOrder[0]); }
    if i > 1 { assert IsSet(b, CheckOrder[1]); }
  }

  /** Conversely, a reported error always names the first missing field. */
  lemma ValidateErrorIsFirstMissing(b: Builder)
    requires Validate(b).Failure?
    ensures exists i ::
              && 0 <= i < |CheckOrder| && !IsSet(b, CheckOrder[i])
              && (forall j :: 0 <= j < i ==> IsSet(b, CheckOrder[j]))
              && Validate(b).error == MissingError(CheckOrder[i])
  {
    if b.connection.None? {
      assert !IsSet(b, CheckOrder[0]);
    } else if b.logConfiguration.None? {
      assert IsSet(b, CheckOrder[0]) && !IsSet(b, CheckOrder[1]);
    } else {
      assert IsSet(b, CheckOrder[0]) && IsSet(b, CheckOrder[1]) && !IsSet(b, CheckOrder[2]);
    }
  }

  /** The realtime service the builder constructs; what it does is not modelled. */
  datatype AblySubscriberService = DefaultAblySubscriberService(
    configuration: ConnectionConfiguration,
    trackingId: string,
    resolution: Option<Resolution>)

  /** The subscriber the builder constructs, with the delegates `start` assigns to it. */
  datatype Subscriber = DefaultSubscriber(
    logConfiguration: LogConfiguration,
    ablyService: AblySubscriberService,
    delegate: Option<SubscriberDelegate>,
    delegateObjectiveC: Option<SubscriberDelegateObjectiveC>)

  /** The observable actions a call of `start` takes, in order. */
  datatype Effect =
    | FailureReported(error: ErrorInformation)   // completion(.failure(e)) or onError(e)
    | ServiceConstructed(service: AblySubscriberService)
    | SubscriberConstructed(subscriber: Subscriber)
    | StartForwarded                              // subscriber.start(...) with the caller's callbacks

  /** What `start` returns (nil or a subscriber) together with the actions it took. */
  datatype StartOutcome = StartOutcome(subscriber: Option<Subscriber>, effects: seq<Effect>)

  /** How many times a failure was reported to the caller. */
  function FailureReports(effects: seq<Effect>): (n: nat)
    ensures n == 0 <==> forall i :: 0 <= i < |effects| ==> !effects[i].FailureReported?
  {
    if effects == [] then 0
    else (if effects[0].FailureReported? then 1 else 0) + FailureReports(effects[1..])
  }

  /** Whether any service or subscriber object was constructed. */
  predicate ConstructsAnything(effects: seq<Effect>)
  {
    exists e :: e in effects && (e.ServiceConstructed? || e.SubscriberConstructed?)
  }

  /** The outcome every failed `start` has: one report, nothing built, nil returned. */
  function Rejected(e: ErrorInformation): (r: StartOutcome)
    ensures r.subscriber.None?
    ensures r.effects == [FailureReported(e)]
    ensures StartForwarded !in r.effects
    ensures FailureReports(r.effects) == 1 && !ConstructsAnything(r.effects)
  {
    var effects := [FailureReported(e)];
    assert FailureReports(effects[1..]) == 0;
    StartOutcome(None, effects)
  }

  /** The subscriber-side wiring common to both variants on success. */
  function Built(v: Validated, delegate: Option<SubscriberDelegate>,
                 delegateObjectiveC: Option<SubscriberDelegateObjectiveC>): (r: StartOutcome)
    ensures r.subscriber.Some?
    ensures r.subscriber.value.ablyService == DefaultAblySubscriberService(v.connection, v.trackingId, v.resolution)
    ensures r.subscriber.value.logConfiguration == v.logConfiguration
    ensures r.subscriber.value.delegate == delegate
    ensures r.subscriber.value.delegateObjectiveC == delegateObjectiveC
    ensures FailureReports(r.effects) == 0 && ConstructsAnything(r.effects)
    ensures r.effects == [ServiceConstructed(r.subscriber.value.ablyService),
                          SubscriberConstructed(r.subscriber.value), StartForwarded]
  {
    var service := DefaultAblySubscriberService(v.connection, v.trackingId, v.resolution);
    var subscriber := DefaultSubscriber(v.logConfiguration, service, delegate, delegateObjectiveC);
    var effects := [ServiceConstructed(service), SubscriberConstructed(subscriber), StartForwarded];
    assert FailureReports(effects[1..]) == FailureReports(effects[2..]) == 0 by {
      assert effects[1..][1..] == effects[2..];
      assert effects[2..][1..] == [];
    }
    StartOutcome(Some(subscriber), effects)
  }
}
