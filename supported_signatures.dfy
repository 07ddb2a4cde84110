/**
 * An independent reference for the classifier: the signatures that
 * MediatorConfiguration documents as supported, each with the configuration
 * it is meant to receive, and the proof that the classification gives each
 * exactly that. The lemmas after it state, over all signatures, how the code
 * behaves outside that list.
 */
module SupportedSignatures {
  import opened JavaTypes
  import opened Classification

  /** `Message<X>` when `messages`, else the payload class `X` itself. */
  function Item(messages: bool, name: string): TypeDesc {
    if messages then Of(Message, Plain(Payload(name))) else Plain(Payload(name))
  }

  /**
   * A documented signature. `messages` chooses between the Message<I>/Message<O>
   * form and the bare I/O form; `i` and `o` name the payload classes;
   * `builder` chooses the MicroProfile builder type over the Reactive Streams one.
   */
  datatype Documented =
    // Subscriber<Message<I>> method()               Subscriber<I> method()
    | SubscriberOfStream(messages: bool, i: string)
    // CompletionStage<R> method(Message<I> m)       CompletionStage<R> method(I i)
    | SubscriberOfAsyncItem(messages: bool, i: string, r: string)
    // void method(Message<I> m)                     void method(I i)   (or R instead of void)
    | SubscriberOfItem(messages: bool, i: string, returnsVoid: bool, r: string)
    // Publisher<Message<O>> method()                Publisher<O> method()   (and the builder forms)
    | PublisherOfStream(messages: bool, builder: bool, o: string)
    // Message<O> method()                           O method()
    | PublisherOfItem(messages: bool, o: string)
    // CompletionStage<Message<O>> method()          CompletionStage<O> method()
    | PublisherOfAsyncItem(messages: bool, o: string)
    // Processor<Message<I>, Message<O>> method()    Processor<I, O> method()   (and the builder forms)
    | ProcessorStage(messages: bool, builder: bool, i: string, o: string)
    // Publisher<Message<O>> method(Message<I> msg)  Publisher<O> method(I payload)   (and the builder forms)
    | ProcessorOfItemToStream(messages: bool, builder: bool, i: string, o: string)
    // Message<O> method(Message<I> msg)             O method(I payload)
    | ProcessorOfItem(messages: bool, i: string, o: string)
    // CompletionStage<Message<O>> method(Message<I> msg)   CompletionStage<O> method(I payload)
    | ProcessorOfAsyncItem(messages: bool, i: string, o: string)
    // Publisher<Message<O>> method(Publisher<Message<I>> publisher)   (and the bare and builder forms)
    | StreamTransformer(messages: bool, builder: bool, i: string, o: string)
  {
    predicate HasIncoming() {
      !(PublisherOfStream? || PublisherOfItem? || PublisherOfAsyncItem?)
    }

    predicate HasOutgoing() {
      !(SubscriberOfStream? || SubscriberOfAsyncItem? || SubscriberOfItem?)
    }

    function Signature(): Signature {
      match this
      case SubscriberOfStream(msg, i) => JavaTypes.Signature(Of(ClassTag.Subscriber, Item(msg, i)), [])
      case SubscriberOfAsyncItem(msg, i, r) =>
        JavaTypes.Signature(Of(CompletionStage, Plain(Payload(r))), [Item(msg, i)])
      case SubscriberOfItem(msg, i, returnsVoid, r) =>
        JavaTypes.Signature(Plain(if returnsVoid then Void else Payload(r)), [Item(msg, i)])
      case PublisherOfStream(msg, builder, o) =>
        JavaTypes.Signature(Of(if builder then PublisherBuilder else ClassTag.Publisher, Item(msg, o)), [])
      case PublisherOfItem(msg, o) => JavaTypes.Signature(Item(msg, o), [])
      case PublisherOfAsyncItem(msg, o) => JavaTypes.Signature(Of(CompletionStage, Item(msg, o)), [])
      case ProcessorStage(msg, builder, i, o) =>
        JavaTypes.Signature(TypeDesc(if builder then ProcessorBuilder else ClassTag.Processor, [Item(msg, i), Item(msg, o)]), [])
      case ProcessorOfItemToStream(msg, builder, i, o) =>
        JavaTypes.Signature(Of(if builder then PublisherBuilder else ClassTag.Publisher, Item(msg, o)), [Item(msg, i)])
      case ProcessorOfItem(msg, i, o) => JavaTypes.Signature(Item(msg, o), [Item(msg, i)])
      case ProcessorOfAsyncItem(msg, i, o) => JavaTypes.Signature(Of(CompletionStage, Item(msg, o)), [Item(msg, i)])
      case StreamTransformer(msg, builder, i, o) =>
        var stream := if builder then PublisherBuilder else ClassTag.Publisher;
        JavaTypes.Signature(Of(stream, Item(msg, o)), [Of(stream, Item(msg, i))])
    }

    /** The configuration the documentation promises for this signature. */
    function Expected(): Config {
      match this
      case SubscriberOfStream(msg, _) =>
        Config(SUBSCRIBER, Production.NONE, if msg then Consumption.STREAM_OF_MESSAGE else Consumption.STREAM_OF_PAYLOAD, false)
      case SubscriberOfAsyncItem(msg, _, _) =>
        Config(SUBSCRIBER, Production.NONE, if msg then MESSAGE else PAYLOAD, false)
      case SubscriberOfItem(msg, _, _, _) =>
        Config(SUBSCRIBER, Production.NONE, if msg then MESSAGE else PAYLOAD, false)
      case PublisherOfStream(msg, builder, _) =>
        Config(PUBLISHER, if msg then Production.STREAM_OF_MESSAGE else Production.STREAM_OF_PAYLOAD, Consumption.NONE, builder)
      case PublisherOfItem(msg, _) =>
        Config(PUBLISHER, if msg then INDIVIDUAL_MESSAGE else INDIVIDUAL_PAYLOAD, Consumption.NONE, false)
      case PublisherOfAsyncItem(msg, _) =>
        Config(PUBLISHER, if msg then COMPLETION_STAGE_OF_MESSAGE else COMPLETION_STAGE_OF_PAYLOAD, Consumption.NONE, false)
      case ProcessorStage(msg, builder, _, _) =>
        Config(PROCESSOR, if msg then Production.STREAM_OF_MESSAGE else Production.STREAM_OF_PAYLOAD,
               if msg then Consumption.STREAM_OF_MESSAGE else Consumption.STREAM_OF_PAYLOAD, builder)
      case ProcessorOfItemToStream(msg, builder, _, _) =>
        Config(PROCESSOR, if msg then Production.STREAM_OF_MESSAGE else Production.STREAM_OF_PAYLOAD,
               if msg then Consumption.STREAM_OF_MESSAGE else Consumption.STREAM_OF_PAYLOAD, builder)
      case ProcessorOfItem(msg, _, _) =>
        Config(PROCESSOR, if msg then INDIVIDUAL_MESSAGE else INDIVIDUAL_PAYLOAD, if msg then MESSAGE else PAYLOAD, false)
      case ProcessorOfAsyncItem(msg, _, _) =>
        Config(PROCESSOR, if msg then COMPLETION_STAGE_OF_MESSAGE else COMPLETION_STAGE_OF_PAYLOAD,
               if msg then MESSAGE else PAYLOAD, false)
      case StreamTransformer(msg, builder, _, _) =>
        Config(STREAM_TRANSFORMER, if msg then Production.STREAM_OF_MESSAGE else Production.STREAM_OF_PAYLOAD,
               if msg then Consumption.STREAM_OF_MESSAGE else Consumption.STREAM_OF_PAYLOAD, builder)
    }
  }

  /** Every documented signature is accepted, with the documented modes. */
  lemma DocumentedSignaturesAreClassified(d: Documented)
    ensures Classify(d.Signature(), d.HasIncoming(), d.HasOutgoing()) == Ok(d.Expected())
  {
    match d
    case SubscriberOfStream(_, _) => DocumentedSubscribersAreClassified(d);
    case SubscriberOfAsyncItem(_, _, _) => DocumentedSubscribersAreClassified(d);
    case SubscriberOfItem(_, _, _, _) => DocumentedSubscribersAreClassified(d);
    case PublisherOfStream(_, _, _) => DocumentedPublishersAreClassified(d);
    case PublisherOfItem(_, _) => DocumentedPublishersAreClassified(d);
    case PublisherOfAsyncItem(_, _) => DocumentedPublishersAreClassified(d);
    case ProcessorStage(_, _, _, _) => DocumentedProcessorStagesAreClassified(d);
    case ProcessorOfItemToStream(_, _, _, _) => DocumentedItemToStreamProcessorsAreClassified(d);
    case ProcessorOfItem(_, _, _) => DocumentedItemProcessorsAreClassified(d);
    case ProcessorOfAsyncItem(_, _, _) => DocumentedAsyncItemProcessorsAreClassified(d);
    case StreamTransformer(_, _, _, _) => DocumentedStreamTransformersAreClassified(d);
  }

  lemma DocumentedSubscribersAreClassified(d: Documented)
    requires d.SubscriberOfStream? || d.SubscriberOfAsyncItem? || d.SubscriberOfItem?
    ensures Classify(d.Signature(), d.HasIncoming(), d.HasOutgoing()) == Ok(d.Expected())
  {
  }

  lemma DocumentedPublishersAreClassified(d: Documented)
    requires d.PublisherOfStream? || d.PublisherOfItem? || d.PublisherOfAsyncItem?
    ensures Classify(d.Signature(), d.HasIncoming(), d.HasOutgoing()) == Ok(d.Expected())
  {
  }

  lemma DocumentedProcessorStagesAreClassified(d: Documented)
    requires d.ProcessorStage?
    ensures Classify(d.Signature(), d.HasIncoming(), d.HasOutgoing()) == Ok(d.Expected())
  {
  }

  lemma DocumentedItemToStreamProcessorsAreClassified(d: Documented)
    requires d.ProcessorOfItemToStream?
    ensures Classify(d.Signature(), d.HasIncoming(), d.HasOutgoing()) == Ok(d.Expected())
  {
  }

  lemma DocumentedItemProcessorsAreClassified(d: Documented)
    requires d.ProcessorOfItem?
    ensures Classify(d.Signature(), d.HasIncoming(), d.HasOutgoing()) == Ok(d.Expected())
  {
  }

  lemma DocumentedAsyncItemProcessorsAreClassified(d: Documented)
    requires d.ProcessorOfAsyncItem?
    ensures Classify(d.Signature(), d.HasIncoming(), d.HasOutgoing()) == Ok(d.Expected())
  {
  }

  lemma DocumentedStreamTransformersAreClassified(d: Documented)
    requires d.StreamTransformer?
    ensures Classify(d.Signature(), d.HasIncoming(), d.HasOutgoing()) == Ok(d.Expected())
  {
  }

  /** Every production mode is what some publisher method produces. */
  lemma EveryProductionIsReachable(p: Production)
    requires p != Production.NONE
    ensures exists m: Signature :: Classify(m, false, true) == Ok(Config(PUBLISHER, p, Consumption.NONE, false))
  {
    var d: Documented;
    match p {
      case STREAM_OF_MESSAGE => d := PublisherOfStream(true, false, "O");
      case STREAM_OF_PAYLOAD => d := PublisherOfStream(false, false, "O");
      case INDIVIDUAL_MESSAGE => d := PublisherOfItem(true, "O");
      case INDIVIDUAL_PAYLOAD => d := PublisherOfItem(false, "O");
      case COMPLETION_STAGE_OF_MESSAGE => d := PublisherOfAsyncItem(true, "O");
      case COMPLETION_STAGE_OF_PAYLOAD => d := PublisherOfAsyncItem(false, "O");
    }
    DocumentedSignaturesAreClassified(d);
    assert Classify(d.Signature(), false, true) == Ok(Config(PUBLISHER, p, Consumption.NONE, false));
  }

  /** Every consumption mode is what some subscriber method consumes. */
  lemma EveryConsumptionIsReachable(c: Consumption)
    requires c != Consumption.NONE
    ensures exists m: Signature :: Classify(m, true, false) == Ok(Config(SUBSCRIBER, Production.NONE, c, false))
  {
    var d: Documented;
    match c {
      case STREAM_OF_MESSAGE => d := SubscriberOfStream(true, "I");
      case STREAM_OF_PAYLOAD => d := SubscriberOfStream(false, "I");
      case MESSAGE => d := SubscriberOfItem(true, "I", true, "");
      case PAYLOAD => d := SubscriberOfItem(false, "I", true, "");
    }
    DocumentedSignaturesAreClassified(d);
    assert Classify(d.Signature(), true, false) == Ok(Config(SUBSCRIBER, Production.NONE, c, false));
  }

  /** Every shape is the outcome of some accepted signature and binding combination. */
  lemma EveryShapeIsReachable(s: Shape)
    ensures exists m: Signature, hasIncoming: bool, hasOutgoing: bool ::
              Classify(m, hasIncoming, hasOutgoing).Ok? && Classify(m, hasIncoming, hasOutgoing).value.shape == s
  {
    var d: Documented;
    match s {
      case SUBSCRIBER => d := SubscriberOfItem(false, "I", true, "");
      case PUBLISHER => d := PublisherOfItem(false, "O");
      case PROCESSOR => d := ProcessorOfItem(false, "I", "O");
      case STREAM_TRANSFORMER => d := StreamTransformer(false, false, "I", "O");
    }
    DocumentedSignaturesAreClassified(d);
    var m, hasIncoming, hasOutgoing := d.Signature(), d.HasIncoming(), d.HasOutgoing();
    assert Classify(m, hasIncoming, hasOutgoing).Ok? && Classify(m, hasIncoming, hasOutgoing).value.shape == s;
  }

  /**
   * A stream transformer's consumption is read off the RETURN type: its
   * parameters may be replaced by any others whose first is still a stream,
   * and the outcome does not change.
   */
  lemma StreamTransformerIgnoresParameterTypeArguments(m: Signature, parameterTypes: seq<TypeDesc>)
    requires DeduceShape(m, true, true) == STREAM_TRANSFORMER
    requires |parameterTypes| >= 1 && IsPublisherOrBuilder(parameterTypes[0])
    ensures Classify(Signature(m.returnType, parameterTypes), true, true) == Classify(m, true, true)
  {
  }

  /**
   * Hence a transformer whose parameter is a stream of messages but whose
   * result is a stream of payloads is told to consume payloads.
   */
  lemma MessageStreamConsumedAsPayloads(i: string, o: string)
    ensures var m := Signature(Of(ClassTag.Publisher, Plain(Payload(o))),
                               [Of(ClassTag.Publisher, Of(Message, Plain(Payload(i))))]);
            Classify(m, true, true) == Ok(Config(STREAM_TRANSFORMER, Production.STREAM_OF_PAYLOAD, Consumption.STREAM_OF_PAYLOAD, false))
  {
  }

  /**
   * A Processor's second type argument is never consulted: its output mode
   * follows the first, so `Processor<Message<I>, O>` produces messages.
   */
  lemma ProcessorSecondTypeArgumentIgnored(m: Signature, second: TypeDesc)
    requires m.returnType.raw in {ClassTag.Processor, ProcessorBuilder} && |m.returnType.arguments| >= 2
    ensures var m' := Signature(TypeDesc(m.returnType.raw, [m.returnType.arguments[0], second]), m.parameterTypes);
            Classify(m', true, true) == Classify(m, true, true)
  {
  }

  /**
   * A processor method returning neither a stream nor a processor reads its
   * parameter 0 before anything else: with no parameter it fails out of
   * range, even when a bare CompletionStage return would also be rejected.
   */
  lemma SingleItemProcessorWithoutParameter(m: Signature)
    requires !IsProcessorOrBuilder(m.returnType) && !IsPublisherOrBuilder(m.returnType)
    requires |m.parameterTypes| == 0
    ensures Classify(m, true, true) == Err(ParameterIndexOutOfBounds(0))
  {
  }

  /**
   * A publisher of a stream tests whether Message is assignable to the
   * element type, not the reverse: `Object` and `Message<X>` elements are
   * messages, a class implementing Message is a payload.
   */
  lemma PublisherElementTestIsReversed(m: Signature)
    requires (m.returnType.raw in {ClassTag.Publisher, PublisherBuilder} || m.returnType.raw.PublisherImpl?) && |m.parameterTypes| == 0
    ensures Classify(m, false, true).Ok?
    ensures Classify(m, false, true).value.production == Production.STREAM_OF_MESSAGE <==>
              PublishedElement(m).raw in {Message, Object}
  {
  }

  /** The interface a class implementing one of the tested interfaces stands for. */
  function InterfaceOf(c: ClassTag): ClassTag {
    match c
    case PublisherImpl(_) => ClassTag.Publisher
    case SubscriberImpl(_) => ClassTag.Subscriber
    case ProcessorImpl(_) => ClassTag.Processor
    case CompletionStageImpl(_) => CompletionStage
    case MessageImpl(_) => Message
    case _ => c
  }

  /** `m` with its returned class replaced by the interface that class implements. */
  function WithInterfaceReturned(m: Signature): Signature {
    Signature(TypeDesc(InterfaceOf(m.returnType.raw), m.returnType.arguments), m.parameterTypes)
  }

  /**
   * Every test on the return type is an assignability test, so a returned
   * class implementing Publisher, Subscriber, Processor, CompletionStage or
   * Message is classified exactly as the interface itself would be.
   */
  lemma ImplementationClassifiedAsItsInterface(m: Signature, hasIncoming: bool, hasOutgoing: bool)
    ensures Classify(WithInterfaceReturned(m), hasIncoming, hasOutgoing) == Classify(m, hasIncoming, hasOutgoing)
  {
    var m' := WithInterfaceReturned(m);
    assert DeduceShape(m', hasIncoming, hasOutgoing) == DeduceShape(m, hasIncoming, hasOutgoing);
    match DeduceShape(m, hasIncoming, hasOutgoing)
    case SUBSCRIBER => SubscriberSeesOnlyTheInterface(m);
    case PUBLISHER => PublisherSeesOnlyTheInterface(m);
    case PROCESSOR => ProcessorSeesOnlyTheInterface(m);
    case STREAM_TRANSFORMER =>
  }

  lemma SubscriberSeesOnlyTheInterface(m: Signature)
    ensures ValidateSubscriber(WithInterfaceReturned(m)) == ValidateSubscriber(m)
  {
  }

  lemma PublisherSeesOnlyTheInterface(m: Signature)
    ensures ValidatePublisher(WithInterfaceReturned(m)) == ValidatePublisher(m)
  {
  }

  lemma ProcessorSeesOnlyTheInterface(m: Signature)
    ensures ValidateProcessor(WithInterfaceReturned(m)) == ValidateProcessor(m)
  {
    if IsProcessorOrBuilder(m.returnType) {
      ProcessorStageSeesOnlyTheInterface(m);
    } else if IsPublisherOrBuilder(m.returnType) {
      if |m.parameterTypes| == 1 {
        ItemToStreamSeesOnlyTheInterface(m);
      }
    } else if |m.parameterTypes| != 0 {
      ItemProcessorSeesOnlyTheInterface(m);
    }
  }

  lemma ProcessorStageSeesOnlyTheInterface(m: Signature)
    ensures ValidateMethodReturningAProcessor(WithInterfaceReturned(m)) == ValidateMethodReturningAProcessor(m)
  {
  }

  lemma ItemToStreamSeesOnlyTheInterface(m: Signature)
    requires |m.parameterTypes| >= 1
    ensures ValidateMethodConsumingSingleAndProducingAPublisher(WithInterfaceReturned(m))
            == ValidateMethodConsumingSingleAndProducingAPublisher(m)
  {
  }

  lemma ItemProcessorSeesOnlyTheInterface(m: Signature)
    requires |m.parameterTypes| >= 1 && !IsProcessorOrBuilder(m.returnType) && !IsPublisherOrBuilder(m.returnType)
    ensures ValidateProcessor(WithInterfaceReturned(m)) == ValidateProcessor(m)
  {
  }

  /**
   * Hence `CompletableFuture<O> method()` under @Outgoing produces a
   * completion stage of payloads, like `CompletionStage<O> method()`.
   */
  lemma CompletableFuturePublishesACompletionStage(o: string)
    ensures var m := Signature(TypeDesc(CompletionStageImpl("CompletableFuture"), [Plain(Payload(o))]), []);
            Classify(m, false, true) == Ok(Config(PUBLISHER, COMPLETION_STAGE_OF_PAYLOAD, Consumption.NONE, false))
  {
  }
}
