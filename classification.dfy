/**
 * The mediator signature classifier as pure functions: the shape is deduced
 * from the channel bindings and the signature, then one validation per shape
 * either rejects the signature or fixes how the mediator consumes and
 * produces. The names of the enumerations' constants are those of
 * MediatorConfiguration's Shape, Production and Consumption.
 */
module Classification {
  import opened JavaTypes

  datatype Shape = SUBSCRIBER | PUBLISHER | PROCESSOR | STREAM_TRANSFORMER

  datatype Production =
    | STREAM_OF_MESSAGE | STREAM_OF_PAYLOAD
    | INDIVIDUAL_PAYLOAD | INDIVIDUAL_MESSAGE
    | COMPLETION_STAGE_OF_PAYLOAD | COMPLETION_STAGE_OF_MESSAGE
    | NONE
  {
    predicate IsMessage() {
      this == Production.STREAM_OF_MESSAGE || this == INDIVIDUAL_MESSAGE || this == COMPLETION_STAGE_OF_MESSAGE
    }
    predicate IsStream() {
      this == Production.STREAM_OF_MESSAGE || this == Production.STREAM_OF_PAYLOAD
    }
  }

  datatype Consumption =
    | STREAM_OF_MESSAGE | STREAM_OF_PAYLOAD
    | MESSAGE | PAYLOAD
    | NONE
  {
    predicate IsMessage() {
      this == Consumption.STREAM_OF_MESSAGE || this == MESSAGE
    }
    predicate IsStream() {
      this == Consumption.STREAM_OF_MESSAGE || this == Consumption.STREAM_OF_PAYLOAD
    }
  }

  /** The annotations an error message names. */
  datatype Annotation = Incoming | Outgoing | IncomingAndOutgoing

  datatype Reason =
    | SubscriberWithParameters
    | SubscriberWithoutTypeParameter
    | CompletionStageSubscriberArity
    | UnsupportedSignature
    | VoidPublisher
    | PublisherWithParameters
    | CompletionStageWithoutTypeParameter
    | PublisherWithoutTypeParameter
    | ConsumedPublisherWithoutTypeParameter
    | ProcessorWithParameters
    | ProcessorWithoutTypeParameters
    | PublisherProcessorArity
    | ProcessorCompletionStageWithoutTypeParameter
  {
    /** The text that follows the method's name in the error message. */
    function Text(): string {
      match this
      case SubscriberWithParameters => "when returning a Subscriber, no parameters are expected"
      case SubscriberWithoutTypeParameter => "the returned Subscriber must declare a type parameter"
      case CompletionStageSubscriberArity => "when returning a CompletionStage, one parameter is expected"
      case UnsupportedSignature => "Unsupported signature"
      case VoidPublisher => "the method must not be `void`"
      case PublisherWithParameters => "no parameters expected"
      case CompletionStageWithoutTypeParameter => "expected a parameter for the returned CompletionStage"
      case PublisherWithoutTypeParameter => "Expected a type parameter for the returned Publisher"
      case ConsumedPublisherWithoutTypeParameter => "Expected a type parameter for the consumed Publisher"
      case ProcessorWithParameters => "the method must not have parameters"
      case ProcessorWithoutTypeParameters => "Expected 2 type parameters for the returned Processor"
      case PublisherProcessorArity => "one parameter expected"
      case ProcessorCompletionStageWithoutTypeParameter => "Expected a type parameter in the return CompletionStage"
    }
  }

  /**
   * What classification can throw: a configuration error
   * (IllegalArgumentException) naming the annotations and the reason, or the
   * out-of-range read of a parameter that does not exist.
   */
  datatype Error =
    | Invalid(annotation: Annotation, reason: Reason)
    | ParameterIndexOutOfBounds(index: nat)

  datatype Result<+T> = Ok(value: T) | Err(error: Error)

  function ErrorOf<T>(r: Result<T>): Option<Error> {
    if r.Err? then Some(r.error) else None
  }

  /** The outcome of a classification that does not throw. */
  datatype Config = Config(shape: Shape, production: Production, consumption: Consumption, useBuilderTypes: bool) {
    /** Produces nothing exactly for a sink; consumes nothing exactly for a source. */
    predicate Valid() {
      && (production == Production.NONE <==> shape == SUBSCRIBER)
      && (consumption == Consumption.NONE <==> shape == PUBLISHER)
    }
  }

  // The envelope test and the modes it selects.

  predicate IsMessage(t: TypeDesc) {
    IsAssignable(t, Message)
  }

  function StreamProduction(element: TypeDesc): Production {
    if IsMessage(element) then Production.STREAM_OF_MESSAGE else Production.STREAM_OF_PAYLOAD
  }

  function CompletionStageProduction(element: TypeDesc): Production {
    if IsMessage(element) then Production.COMPLETION_STAGE_OF_MESSAGE else Production.COMPLETION_STAGE_OF_PAYLOAD
  }

  function ItemProduction(t: TypeDesc): Production {
    if IsMessage(t) then Production.INDIVIDUAL_MESSAGE else Production.INDIVIDUAL_PAYLOAD
  }

  function StreamConsumption(element: TypeDesc): Consumption {
    if IsMessage(element) then Consumption.STREAM_OF_MESSAGE else Consumption.STREAM_OF_PAYLOAD
  }

  function ItemConsumption(t: TypeDesc): Consumption {
    if IsMessage(t) then Consumption.MESSAGE else Consumption.PAYLOAD
  }

  predicate IsPublisherOrBuilder(t: TypeDesc) {
    IsAssignable(t, Publisher) || IsAssignable(t, PublisherBuilder)
  }

  predicate IsProcessorOrBuilder(t: TypeDesc) {
    IsAssignable(t, Processor) || IsAssignable(t, ProcessorBuilder)
  }

  // Type-argument lookup.

  /**
   * getParameterFromReturnType: present when the return type has at least
   * `index + 1` type arguments, and then always the FIRST one.
   */
  function ParameterFromReturnType(m: Signature, index: nat): (r: Option<TypeDesc>)
    ensures r.Some? <==> index < |m.returnType.arguments|
    ensures r.Some? ==> r.value == m.returnType.arguments[0]
  {
    var t := m.returnType;
    if !t.IsParameterized() then None
    else if |t.arguments| >= index + 1 then Some(t.arguments[0])
    else None
  }

  /**
   * getParameterFromMethodArgument: after a length check on the parameters
   * that no existing position fails, it inspects the RETURN type, so the
   * parameters' own type arguments are never consulted.
   */
  function ParameterFromMethodArgument(m: Signature, argIndex: nat, index: nat): (r: Option<TypeDesc>)
    ensures argIndex <= |m.parameterTypes| ==> r == ParameterFromReturnType(m, index)
    ensures argIndex > |m.parameterTypes| ==> r == None
  {
    if |m.parameterTypes| < argIndex then None
    else
      var t := m.returnType;
      if !t.IsParameterized() then None
      else if |t.arguments| >= index + 1 then Some(t.arguments[0])
      else None
  }

  /** isReturningAPublisherOrAPublisherBuilder; a Processor is a Publisher. */
  predicate IsReturningAPublisherOrAPublisherBuilder(m: Signature)
    ensures IsReturningAPublisherOrAPublisherBuilder(m) <==>
              || m.returnType.raw in {Publisher, Processor, PublisherBuilder}
              || m.returnType.raw.PublisherImpl? || m.returnType.raw.ProcessorImpl?
  {
    IsPublisherOrBuilder(m.returnType)
  }

  /** isConsumingAPublisherOrAPublisherBuilder: looks at the first parameter only. */
  predicate IsConsumingAPublisherOrAPublisherBuilder(m: Signature)
    ensures IsConsumingAPublisherOrAPublisherBuilder(m) <==>
              && |m.parameterTypes| >= 1
              && (|| m.parameterTypes[0].raw in {Publisher, Processor, PublisherBuilder}
                  || m.parameterTypes[0].raw.PublisherImpl? || m.parameterTypes[0].raw.ProcessorImpl?)
  {
    |m.parameterTypes| >= 1 && IsPublisherOrBuilder(m.parameterTypes[0])
  }

  /** The first decision of compute: which shape the bindings and the signature select. */
  function DeduceShape(m: Signature, hasIncoming: bool, hasOutgoing: bool): (s: Shape)
    ensures s == SUBSCRIBER <==> hasIncoming && !hasOutgoing
    ensures s == PUBLISHER <==> !hasIncoming
    ensures s == STREAM_TRANSFORMER <==>
              && hasIncoming && hasOutgoing
              && (|| m.returnType.raw in {Publisher, Processor, PublisherBuilder}
                  || m.returnType.raw.PublisherImpl? || m.returnType.raw.ProcessorImpl?)
              && |m.parameterTypes| >= 1
              && (|| m.parameterTypes[0].raw in {Publisher, Processor, PublisherBuilder}
                  || m.parameterTypes[0].raw.PublisherImpl? || m.parameterTypes[0].raw.ProcessorImpl?)
  {
    if hasIncoming && hasOutgoing then
      if IsReturningAPublisherOrAPublisherBuilder(m) && IsConsumingAPublisherOrAPublisherBuilder(m)
      then STREAM_TRANSFORMER
      else PROCESSOR
    else if hasIncoming then SUBSCRIBER
    else PUBLISHER
  }

  /** validateSubscriber */
  function ValidateSubscriber(m: Signature): (r: Result<Config>)
    ensures r.Ok? ==> r.value.shape == SUBSCRIBER && r.value.Valid() && !r.value.useBuilderTypes
    ensures r.Err? ==> r.error.Invalid? && r.error.annotation == Incoming
    // which signatures are accepted
    ensures r.Ok? <==>
              if IsAssignable(m.returnType, Subscriber)
              then |m.parameterTypes| == 0 && m.returnType.IsParameterized()
              else |m.parameterTypes| == 1
    // a returned Subscriber consumes a stream, anything else one item at a time
    ensures r.Ok? ==> (r.value.consumption.IsStream() <==> IsAssignable(m.returnType, Subscriber))
    ensures r.Ok? && IsAssignable(m.returnType, Subscriber) ==>
              (r.value.consumption.IsMessage() <==> IsMessage(m.returnType.arguments[0]))
    ensures r.Ok? && !IsAssignable(m.returnType, Subscriber) ==>
              (r.value.consumption.IsMessage() <==> IsMessage(m.parameterTypes[0]))
    // the reported reason
    ensures r == Err(Invalid(Incoming, SubscriberWithParameters)) <==>
              IsAssignable(m.returnType, Subscriber) && |m.parameterTypes| != 0
    ensures r == Err(Invalid(Incoming, SubscriberWithoutTypeParameter)) <==>
              IsAssignable(m.returnType, Subscriber) && |m.parameterTypes| == 0 && !m.returnType.IsParameterized()
    ensures r == Err(Invalid(Incoming, CompletionStageSubscriberArity)) <==>
              !IsAssignable(m.returnType, Subscriber) && IsAssignable(m.returnType, CompletionStage)
              && |m.parameterTypes| != 1
    ensures r == Err(Invalid(Incoming, UnsupportedSignature)) <==>
              !IsAssignable(m.returnType, Subscriber) && !IsAssignable(m.returnType, CompletionStage)
              && |m.parameterTypes| != 1
  {
    var returnType := m.returnType;
    var t := ParameterFromReturnType(m, 0);
    if IsAssignable(returnType, Subscriber) then
      if m.ParameterCount() != 0 then Err(Invalid(Incoming, SubscriberWithParameters))
      else if t.None? then Err(Invalid(Incoming, SubscriberWithoutTypeParameter))
      else Ok(Config(SUBSCRIBER, Production.NONE, StreamConsumption(t.value), false))
    else if IsAssignable(returnType, CompletionStage) then
      if m.ParameterCount() != 1 then Err(Invalid(Incoming, CompletionStageSubscriberArity))
      else Ok(Config(SUBSCRIBER, Production.NONE, ItemConsumption(m.parameterTypes[0]), false))
    else if m.ParameterCount() == 1 then
      Ok(Config(SUBSCRIBER, Production.NONE, ItemConsumption(m.parameterTypes[0]), false))
    else
      Err(Invalid(Incoming, UnsupportedSignature))
  }

  /**
   * The type whose envelope-ness validatePublisher tests for a stream: the
   * first type argument, or the return type itself when it is not generic.
   */
  function PublishedElement(m: Signature): TypeDesc {
    if m.returnType.IsParameterized() then m.returnType.arguments[0] else m.returnType
  }

  /** validatePublisher */
  function ValidatePublisher(m: Signature): (r: Result<Config>)
    ensures r.Ok? ==> r.value.shape == PUBLISHER && r.value.Valid()
    ensures r.Ok? ==> r.value.consumption == Consumption.NONE && r.value.production != Production.NONE
    ensures r.Err? ==> r.error.Invalid? && r.error.annotation == Outgoing
    // which signatures are accepted
    ensures r.Ok? <==>
              && m.returnType.raw != Void
              && |m.parameterTypes| == 0
              && !(IsAssignable(m.returnType, CompletionStage) && !m.returnType.IsParameterized())
    // `void` is rejected before the parameters are counted
    ensures r == Err(Invalid(Outgoing, VoidPublisher)) <==> m.returnType.raw == Void
    ensures r == Err(Invalid(Outgoing, PublisherWithParameters)) <==>
              m.returnType.raw != Void && |m.parameterTypes| != 0
    // only a CompletionStage needs a type argument
    ensures r == Err(Invalid(Outgoing, CompletionStageWithoutTypeParameter)) <==>
              IsAssignable(m.returnType, CompletionStage) && |m.parameterTypes| == 0 && !m.returnType.IsParameterized()
    // dispatch on the return type, in priority order
    ensures r.Ok? ==> (r.value.production.IsStream() <==> IsPublisherOrBuilder(m.returnType))
    ensures r.Ok? ==> (r.value.useBuilderTypes <==> m.returnType.raw == PublisherBuilder)
    ensures r.Ok? && r.value.production.IsStream() ==>
              (r.value.production == Production.STREAM_OF_MESSAGE <==> MessageIsAssignableTo(PublishedElement(m)))
    ensures r.Ok? && !IsPublisherOrBuilder(m.returnType) ==>
              (r.value.production == Production.INDIVIDUAL_MESSAGE <==> IsMessage(m.returnType))
    ensures r.Ok? && !IsPublisherOrBuilder(m.returnType) && !IsMessage(m.returnType) ==>
              r.value.production == (if IsAssignable(m.returnType, CompletionStage)
                                     then CompletionStageProduction(m.returnType.arguments[0])
                                     else Production.INDIVIDUAL_PAYLOAD)
  {
    var returnType := m.returnType;
    var element := PublishedElement(m);
    if returnType.raw == Void then Err(Invalid(Outgoing, VoidPublisher))
    else if m.ParameterCount() != 0 then Err(Invalid(Outgoing, PublisherWithParameters))
    else if IsAssignable(returnType, Publisher) then
      Ok(Config(PUBLISHER, if MessageIsAssignableTo(element) then Production.STREAM_OF_MESSAGE else Production.STREAM_OF_PAYLOAD,
                Consumption.NONE, false))
    else if IsAssignable(returnType, PublisherBuilder) then
      Ok(Config(PUBLISHER, if MessageIsAssignableTo(element) then Production.STREAM_OF_MESSAGE else Production.STREAM_OF_PAYLOAD,
                Consumption.NONE, true))
    else if IsAssignable(returnType, Message) then
      Ok(Config(PUBLISHER, Production.INDIVIDUAL_MESSAGE, Consumption.NONE, false))
    else if IsAssignable(returnType, CompletionStage) then
      match ParameterFromReturnType(m, 0)
      case None => Err(Invalid(Outgoing, CompletionStageWithoutTypeParameter))
      case Some(t) => Ok(Config(PUBLISHER, CompletionStageProduction(t), Consumption.NONE, false))
    else
      Ok(Config(PUBLISHER, Production.INDIVIDUAL_PAYLOAD, Consumption.NONE, false))
  }

  /** validateMethodReturningAProcessor: `Processor<I, O> method()` and its builder form. */
  function ValidateMethodReturningAProcessor(m: Signature): (r: Result<Config>)
    ensures r.Ok? ==> r.value.shape == PROCESSOR && r.value.Valid()
    ensures r.Err? ==> r.error.Invalid? && r.error.annotation == IncomingAndOutgoing
    ensures |m.parameterTypes| != 0 ==> r == Err(Invalid(IncomingAndOutgoing, ProcessorWithParameters))
    ensures |m.parameterTypes| == 0 ==>
              (r.Ok? <==> |m.returnType.arguments| >= 2)
              && (r.Err? ==> r.error == Invalid(IncomingAndOutgoing, ProcessorWithoutTypeParameters))
    // both modes are read off the first type argument, so they always agree
    ensures r.Ok? ==> r.value.consumption.IsStream() && r.value.production.IsStream()
    ensures r.Ok? ==> (r.value.consumption == Consumption.STREAM_OF_MESSAGE <==> r.value.production == Production.STREAM_OF_MESSAGE)
    ensures r.Ok? ==> (r.value.production.IsMessage() <==> IsMessage(m.returnType.arguments[0]))
    ensures r.Ok? ==> (r.value.useBuilderTypes <==> m.returnType.raw == ProcessorBuilder)
  {
    if m.ParameterCount() != 0 then Err(Invalid(IncomingAndOutgoing, ProcessorWithParameters))
    else
      match ParameterFromReturnType(m, 0)
      case None => Err(Invalid(IncomingAndOutgoing, ProcessorWithoutTypeParameters))
      case Some(type1) =>
        match ParameterFromReturnType(m, 1)
        case None => Err(Invalid(IncomingAndOutgoing, ProcessorWithoutTypeParameters))
        case Some(type2) =>
          Ok(Config(PROCESSOR, StreamProduction(type2), StreamConsumption(type1),
                    IsAssignable(m.returnType, ProcessorBuilder)))
  }

  /** validateMethodConsumingSingleAndProducingAPublisher: `Publisher<O> method(I)` and its builder form. */
  function ValidateMethodConsumingSingleAndProducingAPublisher(m: Signature): (r: Result<Config>)
    requires |m.parameterTypes| >= 1
    ensures r.Ok? ==> r.value.shape == PROCESSOR && r.value.Valid()
    ensures r.Err? <==> !m.returnType.IsParameterized()
    ensures r.Err? ==> r.error == Invalid(Outgoing, PublisherWithoutTypeParameter)
    ensures r.Ok? ==> r.value.consumption.IsStream() && r.value.production.IsStream()
    ensures r.Ok? ==> (r.value.production.IsMessage() <==> IsMessage(m.returnType.arguments[0]))
    // the parameter is the item itself: its raw type is tested
    ensures r.Ok? ==> (r.value.consumption.IsMessage() <==> IsMessage(m.parameterTypes[0]))
    ensures r.Ok? ==> (r.value.useBuilderTypes <==> m.returnType.raw == PublisherBuilder)
  {
    match ParameterFromReturnType(m, 0)
    case None => Err(Invalid(Outgoing, PublisherWithoutTypeParameter))
    case Some(t) =>
      Ok(Config(PROCESSOR, StreamProduction(t), StreamConsumption(m.parameterTypes[0]),
                IsAssignable(m.returnType, PublisherBuilder)))
  }

  /** validateProcessor */
  function ValidateProcessor(m: Signature): (r: Result<Config>)
    ensures r.Ok? ==> r.value.shape == PROCESSOR && r.value.Valid()
    // Processor and ProcessorBuilder are recognised before Publisher and PublisherBuilder
    ensures IsProcessorOrBuilder(m.returnType) ==> r == ValidateMethodReturningAProcessor(m)
    ensures !IsProcessorOrBuilder(m.returnType) && IsPublisherOrBuilder(m.returnType) ==>
              r == if |m.parameterTypes| != 1 then Err(Invalid(IncomingAndOutgoing, PublisherProcessorArity))
                   else ValidateMethodConsumingSingleAndProducingAPublisher(m)
    // a single item in, a single item out: parameter 0 is read unconditionally
    ensures !IsProcessorOrBuilder(m.returnType) && !IsPublisherOrBuilder(m.returnType) ==>
              && (|m.parameterTypes| == 0 ==> r == Err(ParameterIndexOutOfBounds(0)))
              && (|m.parameterTypes| > 0 ==>
                    (r.Ok? <==> !(IsAssignable(m.returnType, CompletionStage) && !m.returnType.IsParameterized())))
              && ((|m.parameterTypes| > 0 && IsAssignable(m.returnType, CompletionStage) && !m.returnType.IsParameterized())
                    <==> r == Err(Invalid(IncomingAndOutgoing, ProcessorCompletionStageWithoutTypeParameter)))
              && (r.Ok? ==> !r.value.production.IsStream() && !r.value.consumption.IsStream()
                            && !r.value.useBuilderTypes
                            && (r.value.consumption.IsMessage() <==> IsMessage(m.parameterTypes[0])))
    ensures r.Ok? && !r.value.production.IsStream() ==>
              r.value.production == (if IsAssignable(m.returnType, CompletionStage)
                                     then CompletionStageProduction(m.returnType.arguments[0])
                                     else ItemProduction(m.returnType))
  {
    var returnType := m.returnType;
    if IsProcessorOrBuilder(returnType) then
      ValidateMethodReturningAProcessor(m)
    else if IsPublisherOrBuilder(returnType) then
      if m.ParameterCount() != 1 then Err(Invalid(IncomingAndOutgoing, PublisherProcessorArity))
      else ValidateMethodConsumingSingleAndProducingAPublisher(m)
    else if m.ParameterCount() == 0 then
      Err(ParameterIndexOutOfBounds(0))
    else
      var param := m.parameterTypes[0];
      if IsAssignable(returnType, CompletionStage) then
        match ParameterFromReturnType(m, 0)
        case None => Err(Invalid(IncomingAndOutgoing, ProcessorCompletionStageWithoutTypeParameter))
        case Some(t) => Ok(Config(PROCESSOR, CompletionStageProduction(t), ItemConsumption(param), false))
      else
        Ok(Config(PROCESSOR, ItemProduction(returnType), ItemConsumption(param), false))
  }

  /**
   * validateMethodConsumingAndProducingAPublisher: the consumed stream's
   * element type is looked up in the return type, like the produced one.
   */
  function ValidateMethodConsumingAndProducingAPublisher(m: Signature): (r: Result<Config>)
    ensures r.Ok? ==> r.value.shape == STREAM_TRANSFORMER && r.value.Valid()
    // a missing type argument is reported against @Outgoing; the @Incoming error cannot arise
    ensures r.Err? <==> !m.returnType.IsParameterized()
    ensures r.Err? ==> r.error == Invalid(Outgoing, PublisherWithoutTypeParameter)
    ensures r.Ok? ==> r.value.consumption.IsStream() && r.value.production.IsStream()
    ensures r.Ok? ==> (r.value.consumption.IsMessage() <==> r.value.production.IsMessage())
    ensures r.Ok? ==> (r.value.production.IsMessage() <==> IsMessage(m.returnType.arguments[0]))
    ensures r.Ok? ==> (r.value.useBuilderTypes <==> m.returnType.raw == PublisherBuilder)
  {
    match ParameterFromReturnType(m, 0)
    case None => Err(Invalid(Outgoing, PublisherWithoutTypeParameter))
    case Some(t) =>
      match ParameterFromMethodArgument(m, 0, 0)
      case None => Err(Invalid(Incoming, ConsumedPublisherWithoutTypeParameter))
      case Some(pt) =>
        Ok(Config(STREAM_TRANSFORMER, StreamProduction(t), StreamConsumption(pt),
                  IsAssignable(m.returnType, PublisherBuilder)))
  }

  /** validateStreamTransformer */
  function ValidateStreamTransformer(m: Signature): (r: Result<Config>)
    ensures r.Ok? <==> m.returnType.IsParameterized()
    ensures r.Ok? ==> r.value.shape == STREAM_TRANSFORMER && r.value.Valid()
    ensures r.Ok? ==> r.value.consumption.IsStream() && r.value.production.IsStream()
    ensures r.Ok? ==> (r.value.consumption.IsMessage() <==> IsMessage(m.returnType.arguments[0]))
    ensures r.Ok? ==> (r.value.production.IsMessage() <==> IsMessage(m.returnType.arguments[0]))
    ensures r.Ok? ==> (r.value.useBuilderTypes <==> m.returnType.raw == PublisherBuilder)
    ensures r.Err? ==> r.error == Invalid(Outgoing, PublisherWithoutTypeParameter)
  {
    ValidateMethodConsumingAndProducingAPublisher(m)
  }

  /**
   * compute, for a freshly constructed MediatorConfiguration: the shape,
   * then that shape's validation.
   */
  function Classify(m: Signature, hasIncoming: bool, hasOutgoing: bool): (r: Result<Config>)
    ensures r.Ok? ==> r.value.shape == DeduceShape(m, hasIncoming, hasOutgoing)
    ensures r.Ok? ==> r.value.Valid()
    ensures r.Ok? && r.value.useBuilderTypes ==> m.returnType.raw in {PublisherBuilder, ProcessorBuilder}
    ensures r.Err? && r.error.ParameterIndexOutOfBounds? ==>
              r.error.index == 0 && |m.parameterTypes| == 0 && DeduceShape(m, hasIncoming, hasOutgoing) == PROCESSOR
  {
    match DeduceShape(m, hasIncoming, hasOutgoing)
    case SUBSCRIBER => ValidateSubscriber(m)
    case PUBLISHER => ValidatePublisher(m)
    case PROCESSOR => ValidateProcessor(m)
    case STREAM_TRANSFORMER => ValidateStreamTransformer(m)
  }
}
