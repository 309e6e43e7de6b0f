# Subscriber builder model

This project models the subscriber builder of the Ably Asset Tracking SDK for
iOS (`DefaultSubscriberBuilder`). The builder collects the configuration a
subscriber needs. That is the connection settings, the log configuration, the
tracking id, an optional resolution preference and a delegate. It does so
through fluent setters. Each setter returns a fresh builder and never changes
the one it is called on. `start` checks that the mandatory fields are present.
It then builds the realtime service and the subscriber and wires the delegate.

The builder has two APIs, one for Swift and one for Objective-C. Both have
the same five setters and their own `start`. The one quirk: every Swift
setter clears the Objective-C delegate, and every Objective-C setter clears
the Swift delegate.

Modules:

- `Wrappers`: `Option` and `Result`.
- `SubscriberConfiguration`: the six-field `Builder` record, the
  `incompleteConfiguration` error, and the guard chain `Validate` that both
  `start` variants share. It also defines the outcome of `start`: what it
  returns (nil or a subscriber), and the actions it takes in order (failure
  reported, service built, subscriber built, start handed to the subscriber).
- `SwiftBuilder`, `ObjectiveCBuilder`: the setters and `start` of each API.
- `BuilderChains`: a sequence of setter calls applied one after another
  (fluent chaining, with reuse of partly configured builders). It has
  reference readings of each field after a chain, and proofs, by induction
  over the chain, that the builder agrees with them.

The builder is a value here, not a class. Its fields are only ever assigned
by its initialisers, so "setters never modify the receiver" holds by
construction.

`start` requires a log configuration as well as the connection and the
tracking id, and checks it second, between those two
(`DefaultSubscriberBuilder.swift:35-40`).

## Model

| member | source | states |
|---|---|---|
| SubscriberConfiguration.Empty | Subscriber/Sources/DefaultSubscriberBuilder.swift:4-11 | the public `init()` leaves all six fields nil |
| SubscriberConfiguration.MissingError | Subscriber/Sources/DefaultSubscriberBuilder.swift:30-44 | the error for each missing field names the property and the builder option: ConnectionConfiguration/connection, LogConfiguration/log, TrackingId/trackingId |
| SubscriberConfiguration.ValidateSucceedsIffAllSet | Subscriber/Sources/DefaultSubscriberBuilder.swift:28-47 | the three guards all pass exactly when every mandatory field is set |
| SubscriberConfiguration.MissingErrorInjective | Subscriber/Sources/DefaultSubscriberBuilder.swift:30-44 | the three errors are pairwise distinct, so the reported error identifies the missing field |
| SubscriberConfiguration.Validate | Subscriber/Sources/DefaultSubscriberBuilder.swift:27-47 | validation succeeds iff connection, log and trackingId are all present; it then yields exactly those values and passes the resolution through unchanged; a failure names a field that is missing |
| SubscriberConfiguration.ValidateReportsFirstMissing | Subscriber/Sources/DefaultSubscriberBuilder.swift:27-47 | if the i-th field in the order connection, log, trackingId is missing and all earlier ones are present, that field's error is reported, whatever the later fields hold |
| SubscriberConfiguration.ValidateErrorIsFirstMissing | Subscriber/Sources/DefaultSubscriberBuilder.swift:27-47 | conversely, every reported error names the first missing field in that order |
| SubscriberConfiguration.Rejected | Subscriber/Sources/DefaultSubscriberBuilder.swift:31-32 | a rejected start returns nil, its only action is reporting that error once, it constructs no service or subscriber and does not forward start |
| SubscriberConfiguration.Built | Subscriber/Sources/DefaultSubscriberBuilder.swift:49-57 | a successful start builds the service from connection, trackingId and resolution and the subscriber from the log configuration and that service, assigns the given delegates, reports no failure; its actions are exactly: construct the service, construct the subscriber, hand the callbacks to the subscriber's start once |
| SwiftBuilder.Connection | Subscriber/Sources/DefaultSubscriberBuilder.swift:60-67 | the connection is replaced; log, trackingId, resolution and Swift delegate are copied; the Objective-C delegate is cleared |
| SwiftBuilder.Log | Subscriber/Sources/DefaultSubscriberBuilder.swift:69-76 | the log configuration is replaced; the other four configuration fields are copied; the Objective-C delegate is cleared |
| SwiftBuilder.TrackingId | Subscriber/Sources/DefaultSubscriberBuilder.swift:78-85 | the tracking id is replaced; the other four configuration fields are copied; the Objective-C delegate is cleared |
| SwiftBuilder.Resolution | Subscriber/Sources/DefaultSubscriberBuilder.swift:87-94 | the resolution is replaced; the other four configuration fields are copied; the Objective-C delegate is cleared |
| SwiftBuilder.Delegate | Subscriber/Sources/DefaultSubscriberBuilder.swift:96-103 | the Swift delegate is replaced; the four configuration fields are copied; the Objective-C delegate is cleared |
| SwiftBuilder.Start | Subscriber/Sources/DefaultSubscriberBuilder.swift:27-58 | a subscriber is returned iff configuration is complete; a missing connection, else log, else trackingId gives that field's error reported once with nil returned and nothing constructed; on success the subscriber carries the service built from the configuration, the Swift delegate and a nil Objective-C delegate, the actions are those of a successful build, and start is forwarded exactly once |
| ObjectiveCBuilder.Connection | Subscriber/Sources/DefaultSubscriberBuilder.swift:140-147 | the connection is replaced; the other fields are copied; the Swift delegate is cleared |
| ObjectiveCBuilder.TrackingId | Subscriber/Sources/DefaultSubscriberBuilder.swift:149-156 | the tracking id is replaced; the other fields are copied; the Swift delegate is cleared |
| ObjectiveCBuilder.Resolution | Subscriber/Sources/DefaultSubscriberBuilder.swift:158-165 | the resolution is replaced; the other fields are copied; the Swift delegate is cleared |
| ObjectiveCBuilder.Delegate | Subscriber/Sources/DefaultSubscriberBuilder.swift:167-174 | the Objective-C delegate is replaced; the configuration fields are copied; the Swift delegate is cleared |
| ObjectiveCBuilder.Log | Subscriber/Sources/DefaultSubscriberBuilder.swift:176-183 | the log configuration is replaced; the other fields are copied; the Swift delegate is cleared |
| ObjectiveCBuilder.Start | Subscriber/Sources/DefaultSubscriberBuilder.swift:107-138 | the same checks in the same order as the Swift start, with the error going to onError exactly once; on success the subscriber carries a nil Swift delegate and the builder's Objective-C delegate, and start is forwarded exactly once |
| BuilderChains.ChainSnoc | Subscriber/Sources/DefaultSubscriberBuilder.swift:60-183 | extending a chain of setter calls by one call is the same as applying that call to the chain's result |
| BuilderChains.ChainAppend | Subscriber/Sources/DefaultSubscriberBuilder.swift:60-183 | chains compose: running a prefix of setter calls and then the rest from its result equals running the whole chain |
| BuilderChains.ApplyFields | Subscriber/Sources/DefaultSubscriberBuilder.swift:60-183 | each of the ten setters sets only its own field, keeps the other configuration fields, and clears the delegate of the other API |
| BuilderChains.ChainFields | Subscriber/Sources/DefaultSubscriberBuilder.swift:60-183 | after any chain of calls from either API, each configuration field holds the value of the last call that set it (or its initial value); the Swift delegate is decided by the last Swift delegate call or Objective-C call, whichever comes later, and symmetrically for the Objective-C delegate |
| BuilderChains.LastSetPresent | Subscriber/Sources/DefaultSubscriberBuilder.swift:60-183 | a field is present after a chain iff it was present before or some call in the chain sets it |
| BuilderChains.ChainAtMostOneDelegate | Subscriber/Sources/DefaultSubscriberBuilder.swift:60-183 | after a nonempty chain, the delegate of the API not used by the last call is nil |
| BuilderChains.StartAfterChain | Subscriber/Sources/DefaultSubscriberBuilder.swift:27-57 | starting from `init()`, either start returns a subscriber iff the chain set a connection, a log configuration and a tracking id, through either API and in any order |
| BuilderChains.StartWiresChainDelegate | Subscriber/Sources/DefaultSubscriberBuilder.swift:54-55 | on success the Swift start wires the Swift delegate the chain leaves and a nil Objective-C delegate; the Objective-C start does the reverse (lines 134-135) |
| BuilderChains.MixedApiClearsSwiftDelegate | Subscriber/Sources/DefaultSubscriberBuilder.swift:140-183 | a Swift delegate set before any Objective-C setter, with no later Swift delegate call, is nil in the subscriber the Swift start builds |
| BuilderChains.NoSwiftDelegateAfterObjectiveC | Subscriber/Sources/DefaultSubscriberBuilder.swift:140-183 | once an Objective-C call occurs and no Swift delegate call follows it, the Swift delegate after the chain is nil |
| BuilderChains.StartVariantsAgree | Subscriber/Sources/DefaultSubscriberBuilder.swift:107-138 | the two start variants reject the same builders with the same outcome; on success they build the same service and log configuration |

## Left out

- The construction of `DefaultAblySubscriberService` and `DefaultSubscriber` is an opaque outcome. It records which values they are built from, and nothing of what those objects do afterwards.
- The later completion of the subscriber's own start comes through the handed-over callbacks and is asynchronous: it belongs to the subscriber and the realtime service. The model records only that the callbacks are handed over.
- `ConnectionConfiguration`, `LogConfiguration`, `Resolution` and the delegates are opaque handles. Their contents are never inspected by the builder.
- Delegates are `weak` references in the source. Here they are plain optional handles. Reference counting and a delegate being deallocated are not modelled.
- `Subscriber/Sources/DefaultSubscriber.swift` is not part of this model. Its initializer does not match the one the builder calls, and it only forwards calls.
- The subscriber's connection-status derivation and event queue are not part of this model. They belong to the subscriber and the realtime service, not to the builder.
