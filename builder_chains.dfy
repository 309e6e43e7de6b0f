/**
 * Fluent use of the builder: a sequence of setter calls, from either API,
 * applied one after another. The lemmas here say what a whole chain leaves
 * in each field, when `start` on the result succeeds, and which delegate it
 * then wires.
 */
module BuilderChains {
  import opened Wrappers
  import opened SubscriberConfiguration
  import SwiftBuilder
  import ObjectiveCBuilder

  /** One setter call, tagged with the API it belongs to. */
  datatype Step =
    | SwiftConnection(connection: ConnectionConfiguration)
    | SwiftLog(logConfiguration: LogConfiguration)
    | SwiftTrackingId(trackingId: string)
    | SwiftResolution(resolution: Resolution)
    | SwiftDelegate(delegate: SubscriberDelegate)
    | ObjectiveCConnection(connection: ConnectionConfiguration)
    | ObjectiveCLog(logConfiguration: LogConfiguration)
    | ObjectiveCTrackingId(trackingId: string)
    | ObjectiveCResolution(resolution: Resolution)
    | ObjectiveCDelegate(delegateObjectiveC: SubscriberDelegateObjectiveC)
  {
    predicate IsObjectiveC()
    {
      ObjectiveCConnection? || ObjectiveCLog? || ObjectiveCTrackingId? || ObjectiveCResolution? || ObjectiveCDelegate?
    }
  }

  function Apply(b: Builder, s: Step): (r: Builder)
  {
    match s
    case SwiftConnection(c) => SwiftBuilder.Connection(b, c)
    case SwiftLog(l) => SwiftBuilder.Log(b, l)
    case SwiftTrackingId(t) => SwiftBuilder.TrackingId(b, t)
    case SwiftResolution(r) => SwiftBuilder.Resolution(b, r)
    case SwiftDelegate(d) => SwiftBuilder.Delegate(b, d)
    case ObjectiveCConnection(c) => ObjectiveCBuilder.Connection(b, c)
    case ObjectiveCLog(l) => ObjectiveCBuilder.Log(b, l)
    case ObjectiveCTrackingId(t) => ObjectiveCBuilder.TrackingId(b, t)
    case ObjectiveCResolution(r) => ObjectiveCBuilder.Resolution(b, r)
    case ObjectiveCDelegate(d) => ObjectiveCBuilder.Delegate(b, d)
  }

  /** `b.step0(...).step1(...)...`: each call returns the builder the next one is made on. */
  function Chain(b: Builder, steps: seq<Step>): (r: Builder)
    decreases |steps|
  {
    if steps == [] then b else Chain(Apply(b, steps[0]), steps[1..])
  }

  // What a single step sets in each configuration field, if anything.

  function StepConnection(s: Step): (c: Option<ConnectionConfiguration>)
  {
    if s.SwiftConnection? || s.ObjectiveCConnection? then Some(s.connection) else None
  }

  function StepLog(s: Step): (l: Option<LogConfiguration>)
  {
    if s.SwiftLog? || s.ObjectiveCLog? then Some(s.logConfiguration) else None
  }

  function StepTrackingId(s: Step): (t: Option<string>)
  {
    if s.SwiftTrackingId? || s.ObjectiveCTrackingId? then Some(s.trackingId) else None
  }

  function StepResolution(s: Step): (res: Option<Resolution>)
  {
    if s.SwiftResolution? || s.ObjectiveCResolution? then Some(s.resolution) else None
  }

  /**
   * Reference reading of a configuration field after a chain: the value of
   * the last step that sets it, or the initial value when no step does.
   */
  function LastSet<T>(steps: seq<Step>, select: Step -> Option<T>, initial: Option<T>): (v: Option<T>)
    decreases |steps|
  {
    if steps == [] then initial
    else if select(steps[|steps| - 1]).Some? then select(steps[|steps| - 1])
    else LastSet(steps[..|steps| - 1], select, initial)
  }

  /**
   * Reference reading of the Swift delegate after a chain: scanning back from
   * the end, a Swift `delegate` call decides it, an Objective-C call clears it.
   */
  function SwiftDelegateAfter(steps: seq<Step>, initial: Option<SubscriberDelegate>): (d: Option<SubscriberDelegate>)
    decreases |steps|
  {
    if steps == [] then initial
    else if steps[|steps| - 1].IsObjectiveC() then None
    else if steps[|steps| - 1].SwiftDelegate? then Some(steps[|steps| - 1].delegate)
    else SwiftDelegateAfter(steps[..|steps| - 1], initial)
  }

  /** The mirror image for the Objective-C delegate. */
  function ObjectiveCDelegateAfter(steps: seq<Step>, initial: Option<SubscriberDelegateObjectiveC>)
    : (d: Option<SubscriberDelegateObjectiveC>)
    decreases |steps|
  {
    if steps == [] then initial
    else if !steps[|steps| - 1].IsObjectiveC() then None
    else if steps[|steps| - 1].ObjectiveCDelegate? then Some(steps[|steps| - 1].delegateObjectiveC)
    else ObjectiveCDelegateAfter(steps[..|steps| - 1], initial)
  }

  /** Some step of the chain sets the field `select` reads. */
  predicate SomeStepSets<T>(steps: seq<Step>, select: Step -> Option<T>)
  {
    exists i :: 0 <= i < |steps| && select(steps[i]).Some?
  }

  /** Extending a chain by one call is applying that call to the chain's result. */
  lemma {:induction false} ChainSnoc(b: Builder, steps: seq<Step>, s: Step)
    ensures Chain(b, steps + [s]) == Apply(Chain(b, steps), s)
    decreases |steps|
  {
    if steps == [] {
      assert [] + [s] == [s];
      assert [s][1..] == [];
    } else {
      assert (steps + [s])[0] == steps[0];
      assert (steps + [s])[1..] == steps[1..] + [s];
      ChainSnoc(Apply(b, steps[0]), steps[1..], s);
    }
  }

  /**
   * A partially configured builder can be reused: continuing from the
   * builder a prefix produced is the same as running the whole chain.
   */
  lemma {:induction false} ChainAppend(b: Builder, prefix: seq<Step>, suffix: seq<Step>)
    ensures Chain(b, prefix + suffix) == Chain(Chain(b, prefix), suffix)
    decreases |prefix|
  {
    if prefix == [] {
      assert [] + suffix == suffix;
    } else {
      assert (prefix + suffix)[0] == prefix[0];
      assert (prefix + suffix)[1..] == prefix[1..] + suffix;
      ChainAppend(Apply(b, prefix[0]), prefix[1..], suffix);
    }
  }

  /** What one call does to each field, in the terms of the reference readings. */
  lemma ApplyFields(b: Builder, s: Step)
    ensures Apply(b, s).connection == if StepConnection(s).Some? then StepConnection(s) else b.connection
    ensures Apply(b, s).logConfiguration == if StepLog(s).Some? then StepLog(s) else b.logConfiguration
    ensures Apply(b, s).trackingId == if StepTrackingId(s).Some? then StepTrackingId(s) else b.trackingId
    ensures Apply(b, s).resolution == if StepResolution(s).Some? then StepResolution(s) else b.resolution
    ensures Apply(b, s).delegate ==
              if s.IsObjectiveC() then None else if s.SwiftDelegate? then Some(s.delegate) else b.delegate
    ensures Apply(b, s).delegateObjectiveC ==
              if !s.IsObjectiveC() then None
              else if s.ObjectiveCDelegate? then Some(s.delegateObjectiveC) else b.delegateObjectiveC
  {
  }

  /** Every field after a chain agrees with its reference reading. */
  lemma {:induction false} ChainFields(b: Builder, steps: seq<Step>)
    ensures Chain(b, steps).connection == LastSet(steps, StepConnection, b.connection)
    ensures Chain(b, steps).logConfiguration == LastSet(steps, StepLog, b.logConfiguration)
    ensures Chain(b, steps).trackingId == LastSet(steps, StepTrackingId, b.trackingId)
    ensures Chain(b, steps).resolution == LastSet(steps, StepResolution, b.resolution)
    ensures Chain(b, steps).delegate == SwiftDelegateAfter(steps, b.delegate)
    ensures Chain(b, steps).delegateObjectiveC == ObjectiveCDelegateAfter(steps, b.delegateObjectiveC)
    decreases |steps|
  {
    if steps != [] {
      var prefix, last := steps[..|steps| - 1], steps[|steps| - 1];
      assert steps == prefix + [last];
      ChainSnoc(b, prefix, last);
      ChainFields(b, prefix);
      ApplyFields(Chain(b, prefix), last);
    }
  }

  /** A field is present after a chain exactly when it was already set or some step sets it. */
  lemma {:induction false} LastSetPresent<T>(steps: seq<Step>, select: Step -> Option<T>, initial: Option<T>)
    ensures LastSet(steps, select, initial).Some? <==> initial.Some? || SomeStepSets(steps, select)
    decreases |steps|
  {
    if steps != [] {
      var prefix := steps[..|steps| - 1];
      LastSetPresent(prefix, select, initial);
      if SomeStepSets(prefix, select) {
        var i :| 0 <= i < |prefix| && select(prefix[i]).Some?;
        assert select(steps[i]).Some?;
      }
      if SomeStepSets(steps, select) && !select(steps[|steps| - 1]).Some? {
        var i :| 0 <= i < |steps| && select(steps[i]).Some?;
        assert select(prefix[i]).Some?;
      }
    }
  }

  /** A chain ending in a call of one API leaves only that API's delegate possibly set. */
  lemma ChainAtMostOneDelegate(b: Builder, steps: seq<Step>)
    requires steps != []
    ensures steps[|steps| - 1].IsObjectiveC() ==> Chain(b, steps).delegate.None?
    ensures !steps[|steps| - 1].IsObjectiveC() ==> Chain(b, steps).delegateObjectiveC.None?
  {
    var prefix, last := steps[..|steps| - 1], steps[|steps| - 1];
    assert steps == prefix + [last];
    ChainSnoc(b, prefix, last);
  }

  /**
   * Starting from `init()`, either `start` returns a subscriber exactly when
   * the chain set a connection, a log configuration and a tracking id,
   * through either API and in any order.
   */
  lemma StartAfterChain(steps: seq<Step>)
    ensures SwiftBuilder.Start(Chain(Empty(), steps)).subscriber.Some?
      <==> SomeStepSets(steps, StepConnection) && SomeStepSets(steps, StepLog) && SomeStepSets(steps, StepTrackingId)
    ensures ObjectiveCBuilder.Start(Chain(Empty(), steps)).subscriber.Some?
      <==> SomeStepSets(steps, StepConnection) && SomeStepSets(steps, StepLog) && SomeStepSets(steps, StepTrackingId)
  {
    ChainFields(Empty(), steps);
    LastSetPresent(steps, StepConnection, None);
    LastSetPresent(steps, StepLog, None);
    LastSetPresent(steps, StepTrackingId, None);
  }

  /**
   * On success the Swift `start` wires the Swift delegate the chain leaves,
   * and the Objective-C `start` the Objective-C delegate; the other is nil.
   */
  lemma StartWiresChainDelegate(b: Builder, steps: seq<Step>)
    requires Complete(Chain(b, steps))
    ensures SwiftBuilder.Start(Chain(b, steps)).subscriber.value.delegate == SwiftDelegateAfter(steps, b.delegate)
    ensures SwiftBuilder.Start(Chain(b, steps)).subscriber.value.delegateObjectiveC.None?
    ensures ObjectiveCBuilder.Start(Chain(b, steps)).subscriber.value.delegate.None?
    ensures ObjectiveCBuilder.Start(Chain(b, steps)).subscriber.value.delegateObjectiveC
      == ObjectiveCDelegateAfter(steps, b.delegateObjectiveC)
  {
    ChainFields(b, steps);
  }

  /**
   * Mixing the APIs drops a delegate: a Swift delegate followed by any
   * Objective-C setter is gone by the time the Swift `start` runs.
   */
  lemma MixedApiClearsSwiftDelegate(b: Builder, d: SubscriberDelegate, s: Step, rest: seq<Step>)
    requires s.IsObjectiveC()
    requires forall k :: 0 <= k < |rest| ==> !rest[k].SwiftDelegate?
    requires Complete(Chain(b, [SwiftDelegate(d), s] + rest))
    ensures SwiftBuilder.Start(Chain(b, [SwiftDelegate(d), s] + rest)).subscriber.value.delegate.None?
  {
    var steps := [SwiftDelegate(d), s] + rest;
    ChainFields(b, steps);
    NoSwiftDelegateAfterObjectiveC(steps, b.delegate, 1);
  }

  /** Once an Objective-C call occurs with no later Swift `delegate` call, the Swift delegate is nil. */
  lemma {:induction false} NoSwiftDelegateAfterObjectiveC(steps: seq<Step>, initial: Option<SubscriberDelegate>, j: nat)
    requires j < |steps| && steps[j].IsObjectiveC()
    requires forall k :: j < k < |steps| ==> !steps[k].SwiftDelegate?
    ensures SwiftDelegateAfter(steps, initial).None?
    decreases |steps|
  {
    if j < |steps| - 1 && !steps[|steps| - 1].IsObjectiveC() {
      NoSwiftDelegateAfterObjectiveC(steps[..|steps| - 1], initial, j);
    }
  }

  /**
   * The two `start` variants make the same decision and report the same
   * error; on success they build the same service and differ only in the
   * delegate they wire.
   */
  lemma StartVariantsAgree(b: Builder)
    ensures !Complete(b) ==> SwiftBuilder.Start(b) == ObjectiveCBuilder.Start(b)
    ensures Complete(b) ==>
              && SwiftBuilder.Start(b).subscriber.Some? && ObjectiveCBuilder.Start(b).subscriber.Some?
              && SwiftBuilder.Start(b).subscriber.value.ablyService == ObjectiveCBuilder.Start(b).subscriber.value.ablyService
              && SwiftBuilder.Start(b).subscriber.value.logConfiguration
                 == ObjectiveCBuilder.Start(b).subscriber.value.logConfiguration
  {
  }
}
