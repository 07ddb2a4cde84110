# Mediator signature classifier

A Dafny model of `MediatorConfiguration` from SmallRye Reactive Messaging: the
component that looks at a mediator method's declared return type and
parameter types, and at which of `@Incoming` and `@Outgoing` it carries,
and decides its shape (`SUBSCRIBER`, `PUBLISHER`, `PROCESSOR` or
`STREAM_TRANSFORMER`), how it consumes (`NONE`, `PAYLOAD`, `MESSAGE`,
`STREAM_OF_PAYLOAD`, `STREAM_OF_MESSAGE`), how it produces (`NONE`,
individual, completion-stage or stream, each of payloads or messages) and
whether it uses the MicroProfile builder stream types — or rejects the
signature with a configuration error.

Files:

- `java_types.dfy` (module `JavaTypes`): type descriptors in place of Java
  reflection. A `TypeDesc` is a raw class tag plus its type arguments; it is
  parameterized exactly when it has arguments; a Java `ParameterizedType`
  with no actual arguments is represented as a plain type (see "Left out"). `IsSubclass` is the assignability relation among
  the class identities the classifier tests: reflexive, `Object` above every
  class but the primitive `void`, `Processor` below both `Publisher` and
  `Subscriber`, and a class implementing one of `Publisher`, `Subscriber`,
  `Processor`, `CompletionStage` or `Message` below that interface (and, for
  `Processor`, below its two superinterfaces).
  `IsAssignable(t, C)` stands for `ClassUtils.isAssignable` and
  `TypeUtils.isAssignable(t, C.class)`; `MessageIsAssignableTo(t)` for the
  reverse test `TypeUtils.isAssignable(Message.class, t)`.
- `classification.dfy` (module `Classification`): the classifier as pure
  functions, one per Java method, each with a contract that states its
  accept/reject conditions, its error reasons and the modes it picks.
  `Classify` is `compute` on a freshly constructed object.
- `mediator_configuration.dfy` (module `Mediators`): the class itself, with
  the fields `compute` and the validations assign, and imperative methods
  that mirror the Java ones, early throws included (a throw is an error
  returned through the `error` out-parameter). Each method's postcondition
  gives the complete new state in terms of the pure classification and the
  old state.
- `supported_signatures.dfy` (module `SupportedSignatures`): an independent
  reference, the signatures the source documents as supported (the comment
  lists in each validation) with the configuration each is meant to get,
  proved to be classified exactly so; and lemmas about behaviour outside that
  list.

The code is modelled as written, including these behaviours:

- `getParameterFromReturnType` returns the FIRST type argument whatever index
  it is asked for, so a returned `Processor<I, O>` consumes and produces by
  `I` alone, and its second type argument is never consulted.
- `getParameterFromMethodArgument` inspects the return type, not the
  parameter, so a stream transformer consumes and produces by the returned
  stream's element type and its `@Incoming` error can never be raised.
- A publisher of a stream tests whether `Message` is assignable to the element
  type (the reverse of every other test): an `Object` element counts as a
  message, a class implementing `Message` as a payload.
- A processor returning neither a stream nor a processor reads parameter 0
  before any other check: with no parameter it fails with an out-of-range
  error (`ParameterIndexOutOfBounds(0)`), even for a `CompletionStage` return
  without a type argument, and extra parameters are ignored. So without a
  parameter the missing-type-argument error of line 150 is never reached.
- A stream transformer is recognised from the first parameter alone, so
  extra parameters are accepted.
- Fields are assigned as the validation proceeds, so a rejected signature
  leaves some fields written (the shape, the recorded bindings, the
  production NONE set first by the subscriber validation, and in two
  branches the consumption), and `useBuilderTypes` is only assigned by some
  branches. `Compute`'s postcondition states all of this; on a fresh object a
  successful `Compute` gives exactly `Classify` (`Configure`), and computing
  twice changes nothing more (`ComputeTwice`, `ComputeIsIdempotent`).

## Model

| member | source | states |
|---|---|---|
| `Classification.ParameterFromReturnType` | smallrye-reactive-messaging-provider/src/main/java/io/smallrye/reactive/messaging/MediatorConfiguration.java:201-211 | present exactly when the return type has more than `index` type arguments, and then it is the first argument whatever the index |
| `Classification.ParameterFromMethodArgument` | smallrye-reactive-messaging-provider/src/main/java/io/smallrye/reactive/messaging/MediatorConfiguration.java:213-227 | for any parameter position that exists it equals the lookup in the return type; the parameters' own types are never consulted |
| `Classification.IsReturningAPublisherOrAPublisherBuilder` | smallrye-reactive-messaging-provider/src/main/java/io/smallrye/reactive/messaging/MediatorConfiguration.java:411-414 | holds exactly for a return type of class Publisher, Processor or PublisherBuilder, or a class implementing Publisher or Processor |
| `Classification.IsConsumingAPublisherOrAPublisherBuilder` | smallrye-reactive-messaging-provider/src/main/java/io/smallrye/reactive/messaging/MediatorConfiguration.java:417-424 | holds exactly when a first parameter exists and is of class Publisher, Processor or PublisherBuilder, or a class implementing Publisher or Processor |
| `Classification.DeduceShape` | smallrye-reactive-messaging-provider/src/main/java/io/smallrye/reactive/messaging/MediatorConfiguration.java:78-90 | SUBSCRIBER iff only @Incoming; PUBLISHER iff no @Incoming; STREAM_TRANSFORMER iff both and the return type and the first parameter are publishers (Processor and implementations included); PROCESSOR otherwise |
| `Classification.ValidateSubscriber` | smallrye-reactive-messaging-provider/src/main/java/io/smallrye/reactive/messaging/MediatorConfiguration.java:304-356 | accepted iff a Subscriber return has no parameters and a type argument, or any other return has exactly one parameter; each of the four @Incoming errors iff its condition; production NONE; a stream is consumed iff a Subscriber is returned, and messages iff the examined type (type argument or parameter) is a Message |
| `Classification.ValidatePublisher` | smallrye-reactive-messaging-provider/src/main/java/io/smallrye/reactive/messaging/MediatorConfiguration.java:229-290 | accepted iff the return type is not `void`, there is no parameter, and it is not a CompletionStage without type argument; each of those three @Outgoing errors iff its condition, `void` checked before the parameters; on success consumption NONE, production never NONE, a stream iff a Publisher/PublisherBuilder is returned, of messages iff Message is assignable to the element, builder flag iff PublisherBuilder, INDIVIDUAL_MESSAGE iff a Message is returned, else the completion-stage or payload mode |
| `Classification.ValidateMethodReturningAProcessor` | smallrye-reactive-messaging-provider/src/main/java/io/smallrye/reactive/messaging/MediatorConfiguration.java:186-199 | any parameter rejected; otherwise accepted iff at least two type arguments; both modes are streams, agree on message versus payload, and follow the first type argument; builder flag iff ProcessorBuilder |
| `Classification.ValidateMethodConsumingSingleAndProducingAPublisher` | smallrye-reactive-messaging-provider/src/main/java/io/smallrye/reactive/messaging/MediatorConfiguration.java:175-184 | rejected (@Outgoing) iff the return type has no type argument; production follows the element type, consumption the raw parameter type, both as streams; builder flag iff PublisherBuilder |
| `Classification.ValidateProcessor` | smallrye-reactive-messaging-provider/src/main/java/io/smallrye/reactive/messaging/MediatorConfiguration.java:112-159 | Processor/ProcessorBuilder returns go to the processor validation before Publisher/PublisherBuilder returns, which need exactly one parameter; other returns fail out of range with no parameter, and with a parameter are accepted iff not a CompletionStage without type argument (that error iff so), and then produce a completion stage or an item and consume MESSAGE iff parameter 0 is a Message |
| `Classification.ValidateMethodConsumingAndProducingAPublisher` | smallrye-reactive-messaging-provider/src/main/java/io/smallrye/reactive/messaging/MediatorConfiguration.java:161-173 | rejected with the @Outgoing error iff the return type has no type argument; both modes are streams and agree on message versus payload, following the returned element; builder flag iff PublisherBuilder |
| `Classification.ValidateStreamTransformer` | smallrye-reactive-messaging-provider/src/main/java/io/smallrye/reactive/messaging/MediatorConfiguration.java:101-109 | accepted iff the returned stream declares a type argument, else rejected against @Outgoing; consumes and produces streams, each of messages iff the RETURNED element is a Message; builder flag iff PublisherBuilder |
| `Classification.Classify` | smallrye-reactive-messaging-provider/src/main/java/io/smallrye/reactive/messaging/MediatorConfiguration.java:78-99 | on success the shape is the deduced one, production is NONE iff SUBSCRIBER and consumption NONE iff PUBLISHER, the builder flag only for builder return types; an out-of-range failure only for a parameterless PROCESSOR |
| `Mediators.MediatorConfiguration.constructor` | smallrye-reactive-messaging-provider/src/main/java/io/smallrye/reactive/messaging/MediatorConfiguration.java:69-72 | keeps the method and bean class; no shape, no bindings, modes NONE, builder flag false |
| `Mediators.MediatorConfiguration.IncomingChannel` | smallrye-reactive-messaging-provider/src/main/java/io/smallrye/reactive/messaging/MediatorConfiguration.java:366-371 | absent iff no @Incoming is recorded, otherwise its channel name |
| `Mediators.MediatorConfiguration.OutgoingChannel` | smallrye-reactive-messaging-provider/src/main/java/io/smallrye/reactive/messaging/MediatorConfiguration.java:358-363 | absent iff no @Outgoing is recorded, otherwise its channel name |
| `Mediators.MediatorConfiguration.Compute` | smallrye-reactive-messaging-provider/src/main/java/io/smallrye/reactive/messaging/MediatorConfiguration.java:78-99 | throws exactly what `Classify` rejects; sets the deduced shape, records the bindings the shape's validation records, and leaves the modes `Classify` gives on success, or only what was written before the throw |
| `Mediators.MediatorConfiguration.ValidateStreamTransformer` | smallrye-reactive-messaging-provider/src/main/java/io/smallrye/reactive/messaging/MediatorConfiguration.java:101-109 | records both bindings, then behaves as the stream-to-stream validation |
| `Mediators.MediatorConfiguration.ValidateProcessor` | smallrye-reactive-messaging-provider/src/main/java/io/smallrye/reactive/messaging/MediatorConfiguration.java:112-159 | records both bindings; outcome and written fields as `Classification.ValidateProcessor`, the builder flag untouched in the single-item branch |
| `Mediators.MediatorConfiguration.ValidateMethodConsumingAndProducingAPublisher` | smallrye-reactive-messaging-provider/src/main/java/io/smallrye/reactive/messaging/MediatorConfiguration.java:161-173 | outcome and written fields as the pure stream-to-stream validation |
| `Mediators.MediatorConfiguration.ValidateMethodConsumingSingleAndProducingAPublisher` | smallrye-reactive-messaging-provider/src/main/java/io/smallrye/reactive/messaging/MediatorConfiguration.java:175-184 | outcome and written fields as the pure item-to-stream validation |
| `Mediators.MediatorConfiguration.ValidateMethodReturningAProcessor` | smallrye-reactive-messaging-provider/src/main/java/io/smallrye/reactive/messaging/MediatorConfiguration.java:186-199 | outcome as the pure processor validation; with one type argument the consumption is written before the throw |
| `Mediators.MediatorConfiguration.ValidatePublisher` | smallrye-reactive-messaging-provider/src/main/java/io/smallrye/reactive/messaging/MediatorConfiguration.java:229-290 | records @Outgoing; outcome as the pure publisher validation; consumption NONE is written before the CompletionStage check can throw; the builder flag is only ever set to true |
| `Mediators.MediatorConfiguration.ValidateSubscriber` | smallrye-reactive-messaging-provider/src/main/java/io/smallrye/reactive/messaging/MediatorConfiguration.java:304-356 | records @Incoming and sets production NONE before any check; outcome as the pure subscriber validation |
| `Mediators.Configure` | smallrye-reactive-messaging-provider/src/main/java/io/smallrye/reactive/messaging/MediatorConfiguration.java:399-409 | constructing, computing and reading the getters `shape()`, `production()`, `consumption()`, `usesBuilderTypes()` gives exactly `Classify` |
| `Mediators.ComputeTwice` | smallrye-reactive-messaging-provider/src/main/java/io/smallrye/reactive/messaging/MediatorConfiguration.java:92-98 | computing the same object twice with the same bindings reports the same outcome and leaves identical fields |
| `Mediators.ComputeIsIdempotent` | smallrye-reactive-messaging-provider/src/main/java/io/smallrye/reactive/messaging/MediatorConfiguration.java:79-90 | from any prior state, a second compute with the same bindings changes no field |
| `Mediators.ComputedFieldsAreValid` | smallrye-reactive-messaging-provider/src/main/java/io/smallrye/reactive/messaging/MediatorConfiguration.java:78-99 | from any prior state, a successful compute leaves production NONE iff SUBSCRIBER, consumption NONE iff PUBLISHER, and the bindings the shape uses recorded |
| `SupportedSignatures.DocumentedSignaturesAreClassified` | smallrye-reactive-messaging-provider/src/main/java/io/smallrye/reactive/messaging/MediatorConfiguration.java:101-356 | every signature in the documented lists of the four validations is accepted with the documented shape and modes |
| `SupportedSignatures.EveryProductionIsReachable` | smallrye-reactive-messaging-provider/src/main/java/io/smallrye/reactive/messaging/MediatorConfiguration.java:261-289 | each production mode other than NONE is what some publisher is given |
| `SupportedSignatures.EveryConsumptionIsReachable` | smallrye-reactive-messaging-provider/src/main/java/io/smallrye/reactive/messaging/MediatorConfiguration.java:319-353 | each consumption mode other than NONE is what some subscriber is given |
| `SupportedSignatures.EveryShapeIsReachable` | smallrye-reactive-messaging-provider/src/main/java/io/smallrye/reactive/messaging/MediatorConfiguration.java:80-98 | each shape is the outcome of some accepted signature and binding combination |
| `SupportedSignatures.StreamTransformerIgnoresParameterTypeArguments` | smallrye-reactive-messaging-provider/src/main/java/io/smallrye/reactive/messaging/MediatorConfiguration.java:167-169 | replacing a stream transformer's parameters by any whose first is still a stream leaves the outcome unchanged |
| `SupportedSignatures.MessageStreamConsumedAsPayloads` | smallrye-reactive-messaging-provider/src/main/java/io/smallrye/reactive/messaging/MediatorConfiguration.java:161-173 | `Publisher<O> method(Publisher<Message<I>>)` is told to consume a stream of payloads |
| `SupportedSignatures.ProcessorSecondTypeArgumentIgnored` | smallrye-reactive-messaging-provider/src/main/java/io/smallrye/reactive/messaging/MediatorConfiguration.java:190-196 | replacing a returned Processor's type arguments after the first by any single type never changes the outcome |
| `SupportedSignatures.SingleItemProcessorWithoutParameter` | smallrye-reactive-messaging-provider/src/main/java/io/smallrye/reactive/messaging/MediatorConfiguration.java:144-150 | a parameterless processor returning neither a stream nor a processor fails out of range on parameter 0 |
| `SupportedSignatures.PublisherElementTestIsReversed` | smallrye-reactive-messaging-provider/src/main/java/io/smallrye/reactive/messaging/MediatorConfiguration.java:242-272 | a parameterless Publisher/PublisherBuilder method (or one returning a Publisher implementation) is accepted, and produces messages iff its first type argument (the return type itself when it has none) is of class Message or Object |
| `SupportedSignatures.ImplementationClassifiedAsItsInterface` | smallrye-reactive-messaging-provider/src/main/java/io/smallrye/reactive/messaging/MediatorConfiguration.java:78-356 | replacing a returned implementation class by the interface it implements never changes the outcome, for any bindings and any shape: every return-type test (lines 133-137, 261-280, 319-332 and 411-414) is by assignability |
| `SupportedSignatures.CompletableFuturePublishesACompletionStage` | smallrye-reactive-messaging-provider/src/main/java/io/smallrye/reactive/messaging/MediatorConfiguration.java:280-285 | an @Outgoing `CompletableFuture<O> method()` produces a completion stage of payloads |

## Left out

- `Classification.ValidatePublisher`: a `ParameterizedType` with no actual type arguments (a non-generic class nested in a generic one, such as `Outer<String>.Inner`) is modelled as a plain type, so the model accepts such a publisher as `INDIVIDUAL_PAYLOAD`; the read of argument 0 at line 246 would throw ArrayIndexOutOfBoundsException for it before the `void` check. Elsewhere such a type behaves like a plain one, since the other lookups test the argument count.
- Java reflection (`Method`, `getGenericReturnType`, `ParameterizedType`) is replaced by the `TypeDesc`/`Signature` descriptors; wildcards, type variables, arrays, primitive types other than `void`, and the boxed `Void` class are not distinguished from plain payload classes.
- A class implementing several of the tested interfaces at once, or implementing `PublisherBuilder` or `ProcessorBuilder`, has no tag; each implementation tag stands for exactly one interface.
- The assignability tests of commons-lang3 (`ClassUtils.isAssignable`, `TypeUtils.isAssignable`) are replaced by the explicit `IsSubclass` relation on the class tags above; generic arguments never take part in them, as for raw target classes in the library.
- `getIncomingProviderType` and `getOutgoingProviderType` (lines 373-385) are not modelled: bindings carry only their channel name.
- `methodAsString`, `getMethod` and `getBeanClass` are not modelled as members; the method and bean class are constant fields of the class.
- Error messages are a context tag and a reason; `Reason.Text` gives the reason's text but the full message (prefix and method name) is not built. The direct throw at line 140 uses the prefix "@Outgoing and @Incoming" without a colon; the model tags it `IncomingAndOutgoing` like the other two-annotation errors.
- The `Objects.requireNonNull` checks of the constructor: the model's arguments cannot be null.
- The `default` branch of the shape switch (line 97) cannot be reached and is not modelled.
- Exceptions become the `error` out-parameter of each method; unwinding through callers is not modelled beyond returning it.
- The runtime behaviour of the Reactive Streams and MicroProfile stream types: only their identities matter here.
