/**
 * MediatorConfiguration as the object it is: fields that `compute` and the
 * validations assign step by step, throwing part way through on a rejected
 * signature. Each method is specified by the pure classification of module
 * Classification plus the exact set of fields it has written by the time it
 * returns or throws.
 */
module Mediators {
  import opened JavaTypes
  import opened Classification

  /** An @Incoming or @Outgoing annotation; `value` is the channel name. */
  datatype Binding = Binding(value: string)

  /** The mutable fields of a MediatorConfiguration, as one value. */
  datatype Fields = Fields(
    shape: Option<Shape>,
    incoming: Option<Binding>,
    outgoing: Option<Binding>,
    production: Production,
    consumption: Consumption,
    useBuilderTypes: bool)

  /** The fields of a newly constructed MediatorConfiguration. */
  function Initial(): Fields {
    Fields(None, None, None, Production.NONE, Consumption.NONE, false)
  }

  /**
   * Whether the validation of shape `s` assigns useBuilderTypes when it
   * succeeds; the other branches leave the field as it was.
   */
  predicate AssignsBuilderFlag(m: Signature, s: Shape) {
    match s
    case SUBSCRIBER => false
    case PUBLISHER => !IsAssignable(m.returnType, Publisher) && IsAssignable(m.returnType, PublisherBuilder)
    case PROCESSOR => IsProcessorOrBuilder(m.returnType) || IsPublisherOrBuilder(m.returnType)
    case STREAM_TRANSFORMER => true
  }

  /**
   * Consumption after a validation threw `e`: the two validations that assign
   * it before throwing are a publisher returning a raw CompletionStage, and a
   * processor returning a Processor with a single type argument.
   */
  function ConsumptionAfterError(m: Signature, e: Error, previous: Consumption): Consumption {
    if e == Invalid(Outgoing, CompletionStageWithoutTypeParameter) then Consumption.NONE
    else if e == Invalid(IncomingAndOutgoing, ProcessorWithoutTypeParameters) && |m.returnType.arguments| == 1
    then StreamConsumption(m.returnType.arguments[0])
    else previous
  }

  /**
   * The fields after a validation whose outcome is `r`: on success the modes
   * of `r` (the builder flag only where the branch assigns it), on failure
   * only what was assigned before the throw.
   */
  function Written(m: Signature, r: Result<Config>, assignsFlag: bool, before: Fields): Fields {
    match r
    case Ok(c) =>
      before.(production := c.production, consumption := c.consumption,
              useBuilderTypes := if assignsFlag then c.useBuilderTypes else before.useBuilderTypes)
    case Err(e) =>
      before.(consumption := ConsumptionAfterError(m, e, before.consumption))
  }

  /** All fields after compute(incoming, outgoing), from the fields before it. */
  function ComputeEffect(m: Signature, incoming: Option<Binding>, outgoing: Option<Binding>, before: Fields): Fields {
    var s := DeduceShape(m, incoming.Some?, outgoing.Some?);
    var bound := before.(
      shape := Some(s),
      incoming := if s == PUBLISHER then before.incoming else incoming,
      outgoing := if s == SUBSCRIBER then before.outgoing else outgoing,
      production := if s == SUBSCRIBER then Production.NONE else before.production);
    Written(m, Classify(m, incoming.Some?, outgoing.Some?), AssignsBuilderFlag(m, s), bound)
  }

  /**
   * Computing twice with the same bindings leaves the object as computing
   * once did, whatever state it started in.
   */
  lemma ComputeIsIdempotent(m: Signature, incoming: Option<Binding>, outgoing: Option<Binding>, before: Fields)
    ensures var once := ComputeEffect(m, incoming, outgoing, before);
            ComputeEffect(m, incoming, outgoing, once) == once
  {
  }

  /**
   * Whatever state the object was in, a compute that does not throw leaves
   * modes that satisfy the configuration invariant, and records the bindings
   * the shape uses.
   */
  lemma ComputedFieldsAreValid(m: Signature, incoming: Option<Binding>, outgoing: Option<Binding>, before: Fields)
    requires Classify(m, incoming.Some?, outgoing.Some?).Ok?
    ensures var after := ComputeEffect(m, incoming, outgoing, before);
            && after.shape.Some?
            && Config(after.shape.value, after.production, after.consumption, after.useBuilderTypes).Valid()
            && (after.shape.value != PUBLISHER ==> after.incoming == incoming)
            && (after.shape.value != SUBSCRIBER ==> after.outgoing == outgoing)
  {
  }

  class MediatorConfiguration {
    const signature: Signature
    const beanClass: string

    var shape: Option<Shape>
    var incoming: Option<Binding>
    var outgoing: Option<Binding>
    /** What the mediator produces and how. */
    var production: Production
    /** What the mediator consumes and how. */
    var consumption: Consumption
    /** Whether the MicroProfile builder stream types are used. */
    var useBuilderTypes: bool

    function State(): Fields
      reads this
    {
      Fields(shape, incoming, outgoing, production, consumption, useBuilderTypes)
    }

    constructor (signature: Signature, beanClass: string)
      ensures this.signature == signature && this.beanClass == beanClass
      ensures State() == Initial()
    {
      this.signature := signature;
      this.beanClass := beanClass;
      shape := None;
      incoming := None;
      outgoing := None;
      production := Production.NONE;
      consumption := Consumption.NONE;
      useBuilderTypes := false;
    }

    /** getIncoming: the incoming channel name, absent when no @Incoming was recorded. */
    function IncomingChannel(): (name: Option<string>)
      reads this
      ensures name.Some? <==> incoming.Some?
      ensures name.Some? ==> name.value == incoming.value.value
    {
      if incoming.None? then None else Some(incoming.value.value)
    }

    /** getOutgoing: the outgoing channel name, absent when no @Outgoing was recorded. */
    function OutgoingChannel(): (name: Option<string>)
      reads this
      ensures name.Some? <==> outgoing.Some?
      ensures name.Some? ==> name.value == outgoing.value.value
    {
      if outgoing.None? then None else Some(outgoing.value.value)
    }

    method Compute(incoming: Option<Binding>, outgoing: Option<Binding>) returns (error: Option<Error>)
      modifies this
      ensures State() == ComputeEffect(signature, incoming, outgoing, old(State()))
      ensures error == ErrorOf(Classify(signature, incoming.Some?, outgoing.Some?))
    {
      if incoming.Some? && outgoing.Some? {
        if IsReturningAPublisherOrAPublisherBuilder(signature) && IsConsumingAPublisherOrAPublisherBuilder(signature) {
          shape := Some(STREAM_TRANSFORMER);
        } else {
          shape := Some(PROCESSOR);
        }
      } else if incoming.Some? {
        shape := Some(SUBSCRIBER);
      } else {
        shape := Some(PUBLISHER);
      }

      match shape.value {
        case SUBSCRIBER => error := ValidateSubscriber(incoming);
        case PUBLISHER => error := ValidatePublisher(outgoing);
        case PROCESSOR => error := ValidateProcessor(incoming, outgoing);
        case STREAM_TRANSFORMER => error := ValidateStreamTransformer(incoming, outgoing);
      }
    }

    method ValidateStreamTransformer(incoming: Option<Binding>, outgoing: Option<Binding>) returns (error: Option<Error>)
      modifies this
      ensures State() == Written(signature, Classification.ValidateStreamTransformer(signature), true,
                                 old(State()).(incoming := incoming, outgoing := outgoing))
      ensures error == ErrorOf(Classification.ValidateStreamTransformer(signature))
    {
      this.incoming := incoming;
      this.outgoing := outgoing;
      error := ValidateMethodConsumingAndProducingAPublisher();
    }

    method ValidateProcessor(incoming: Option<Binding>, outgoing: Option<Binding>) returns (error: Option<Error>)
      modifies this
      ensures State() == Written(signature, Classification.ValidateProcessor(signature), AssignsBuilderFlag(signature, PROCESSOR),
                                 old(State()).(incoming := incoming, outgoing := outgoing))
      ensures error == ErrorOf(Classification.ValidateProcessor(signature))
    {
      this.incoming := incoming;
      this.outgoing := outgoing;

      var returnType := signature.returnType;
      if IsAssignable(returnType, Processor) || IsAssignable(returnType, ProcessorBuilder) {
        error := ValidateMethodReturningAProcessor();
      } else if IsAssignable(returnType, Publisher) || IsAssignable(returnType, PublisherBuilder) {
        if signature.ParameterCount() != 1 {
          return Some(Invalid(IncomingAndOutgoing, PublisherProcessorArity));
        }
        error := ValidateMethodConsumingSingleAndProducingAPublisher();
      } else {
        if signature.ParameterCount() == 0 {
          return Some(ParameterIndexOutOfBounds(0));
        }
        var param := signature.parameterTypes[0];
        if IsAssignable(returnType, CompletionStage) {
          var t := ParameterFromReturnType(signature, 0);
          if t.None? {
            return Some(Invalid(IncomingAndOutgoing, ProcessorCompletionStageWithoutTypeParameter));
          }
          production := CompletionStageProduction(t.value);
          consumption := ItemConsumption(param);
        } else {
          production := ItemProduction(returnType);
          consumption := ItemConsumption(param);
        }
        error := None;
      }
    }

    method ValidateMethodConsumingAndProducingAPublisher() returns (error: Option<Error>)
      modifies this
      ensures State() == Written(signature, Classification.ValidateMethodConsumingAndProducingAPublisher(signature), true, old(State()))
      ensures error == ErrorOf(Classification.ValidateMethodConsumingAndProducingAPublisher(signature))
    {
      var t := ParameterFromReturnType(signature, 0);
      if t.None? {
        return Some(Invalid(Outgoing, PublisherWithoutTypeParameter));
      }
      production := StreamProduction(t.value);

      var pt := ParameterFromMethodArgument(signature, 0, 0);
      if pt.None? {
        return Some(Invalid(Incoming, ConsumedPublisherWithoutTypeParameter));
      }
      consumption := StreamConsumption(pt.value);

      useBuilderTypes := IsAssignable(signature.returnType, PublisherBuilder);
      error := None;
    }

    method ValidateMethodConsumingSingleAndProducingAPublisher() returns (error: Option<Error>)
      requires |signature.parameterTypes| >= 1
      modifies this
      ensures State() == Written(signature, Classification.ValidateMethodConsumingSingleAndProducingAPublisher(signature), true, old(State()))
      ensures error == ErrorOf(Classification.ValidateMethodConsumingSingleAndProducingAPublisher(signature))
    {
      var t := ParameterFromReturnType(signature, 0);
      if t.None? {
        return Some(Invalid(Outgoing, PublisherWithoutTypeParameter));
      }
      production := StreamProduction(t.value);
      consumption := StreamConsumption(signature.parameterTypes[0]);
      useBuilderTypes := IsAssignable(signature.returnType, PublisherBuilder);
      error := None;
    }

    method ValidateMethodReturningAProcessor() returns (error: Option<Error>)
      modifies this
      ensures State() == Written(signature, Classification.ValidateMethodReturningAProcessor(signature), true, old(State()))
      ensures error == ErrorOf(Classification.ValidateMethodReturningAProcessor(signature))
    {
      if signature.ParameterCount() != 0 {
        return Some(Invalid(IncomingAndOutgoing, ProcessorWithParameters));
      }
      var type1 := ParameterFromReturnType(signature, 0);
      if type1.None? {
        return Some(Invalid(IncomingAndOutgoing, ProcessorWithoutTypeParameters));
      }
      consumption := StreamConsumption(type1.value);

      var type2 := ParameterFromReturnType(signature, 1);
      if type2.None? {
        return Some(Invalid(IncomingAndOutgoing, ProcessorWithoutTypeParameters));
      }
      production := StreamProduction(type2.value);

      useBuilderTypes := IsAssignable(signature.returnType, ProcessorBuilder);
      error := None;
    }

    method ValidatePublisher(outgoing: Option<Binding>) returns (error: Option<Error>)
      modifies this
      ensures State() == Written(signature, Classification.ValidatePublisher(signature), AssignsBuilderFlag(signature, PUBLISHER),
                                 old(State()).(outgoing := outgoing))
      ensures error == ErrorOf(Classification.ValidatePublisher(signature))
    {
      this.outgoing := outgoing;

      var returnType := signature.returnType;
      var element := signature.returnType;
      if element.IsParameterized() {
        element := element.arguments[0];
      }

      if returnType.raw == Void {
        return Some(Invalid(Outgoing, VoidPublisher));
      }
      if signature.ParameterCount() != 0 {
        return Some(Invalid(Outgoing, PublisherWithParameters));
      }

      consumption := Consumption.NONE;

      if IsAssignable(returnType, Publisher) {
        production := if MessageIsAssignableTo(element) then Production.STREAM_OF_MESSAGE else Production.STREAM_OF_PAYLOAD;
        return None;
      }
      if IsAssignable(returnType, PublisherBuilder) {
        production := if MessageIsAssignableTo(element) then Production.STREAM_OF_MESSAGE else Production.STREAM_OF_PAYLOAD;
        useBuilderTypes := true;
        return None;
      }
      if IsAssignable(returnType, Message) {
        production := Production.INDIVIDUAL_MESSAGE;
        return None;
      }
      if IsAssignable(returnType, CompletionStage) {
        var t := ParameterFromReturnType(signature, 0);
        if t.None? {
          return Some(Invalid(Outgoing, CompletionStageWithoutTypeParameter));
        }
        production := CompletionStageProduction(t.value);
        return None;
      }
      production := Production.INDIVIDUAL_PAYLOAD;
      error := None;
    }

    method ValidateSubscriber(incoming: Option<Binding>) returns (error: Option<Error>)
      modifies this
      ensures State() == Written(signature, Classification.ValidateSubscriber(signature), false,
                                 old(State()).(incoming := incoming, production := Production.NONE))
      ensures error == ErrorOf(Classification.ValidateSubscriber(signature))
    {
      this.incoming := incoming;
      production := Production.NONE;

      var returnType := signature.returnType;
      var t := ParameterFromReturnType(signature, 0);

      if IsAssignable(returnType, Subscriber) {
        if signature.ParameterCount() != 0 {
          return Some(Invalid(Incoming, SubscriberWithParameters));
        }
        if t.None? {
          return Some(Invalid(Incoming, SubscriberWithoutTypeParameter));
        }
        consumption := StreamConsumption(t.value);
        return None;
      }

      if IsAssignable(returnType, CompletionStage) {
        if signature.ParameterCount() != 1 {
          return Some(Invalid(Incoming, CompletionStageSubscriberArity));
        }
        consumption := ItemConsumption(signature.parameterTypes[0]);
        return None;
      }

      if signature.ParameterCount() == 1 {
        consumption := ItemConsumption(signature.parameterTypes[0]);
        return None;
      }
      error := Some(Invalid(Incoming, UnsupportedSignature));
    }
  }

  /**
   * Classifying a signature: construct a MediatorConfiguration, compute, and
   * read back its getters. This is exactly the pure classification.
   */
  method Configure(m: Signature, beanClass: string, incoming: Option<Binding>, outgoing: Option<Binding>)
    returns (r: Result<Config>)
    ensures r == Classify(m, incoming.Some?, outgoing.Some?)
  {
    var mc := new MediatorConfiguration(m, beanClass);
    var error := mc.Compute(incoming, outgoing);
    if error.Some? {
      r := Err(error.value);
    } else {
      r := Ok(Config(mc.shape.value, mc.production, mc.consumption, mc.useBuilderTypes));
    }
  }

  /**
   * Computing the same object twice with the same bindings reports the same
   * outcome and leaves every field as the first computation did.
   */
  method ComputeTwice(m: Signature, beanClass: string, incoming: Option<Binding>, outgoing: Option<Binding>)
    returns (first: Option<Error>, second: Option<Error>, once: Fields, twice: Fields)
    ensures first == second && once == twice
    ensures first == ErrorOf(Classify(m, incoming.Some?, outgoing.Some?))
  {
    var mc := new MediatorConfiguration(m, beanClass);
    first := mc.Compute(incoming, outgoing);
    once := mc.State();
    second := mc.Compute(incoming, outgoing);
    twice := mc.State();
    ComputeIsIdempotent(m, incoming, outgoing, Initial());
  }
}
