/**
 * Descriptors for the declared types of a mediator method, standing in for
 * Java reflection (`Method`, `ParameterizedType`) and for the commons-lang
 * assignability tests the classifier performs on them.
 */
module JavaTypes {

  datatype Option<+T> = None | Some(value: T)

  /**
   * The raw class of a declared type. Only the identities the classifier
   * tests are distinguished; a user or library class that implements one
   * of the tested interfaces carries that interface, and every other class
   * is a `Payload`.
   */
  datatype ClassTag =
    | Void                          // the primitive `void` (Void.TYPE), not the boxed class
    | Object                        // java.lang.Object
    | Publisher                     // org.reactivestreams.Publisher
    | Subscriber                    // org.reactivestreams.Subscriber
    | Processor                     // org.reactivestreams.Processor, a Subscriber and a Publisher
    | PublisherBuilder              // MicroProfile Reactive Streams PublisherBuilder
    | ProcessorBuilder              // MicroProfile Reactive Streams ProcessorBuilder
    | CompletionStage               // java.util.concurrent.CompletionStage
    | Message                       // the envelope type
    | PublisherImpl(name: string)       // a class implementing Publisher
    | SubscriberImpl(name: string)      // a class implementing Subscriber
    | ProcessorImpl(name: string)       // a class implementing Processor
    | CompletionStageImpl(name: string) // a class implementing CompletionStage, such as CompletableFuture
    | MessageImpl(name: string)         // a class implementing Message
    | Payload(name: string)             // any other class

  /**
   * `c` may be assigned to `d`: the subtype relation among the tags above.
   * The primitive `void` is assignable to nothing but itself.
   */
  predicate IsSubclass(c: ClassTag, d: ClassTag) {
    || c == d
    || (d == Object && c != Void)
    || ((c == Processor || c.ProcessorImpl?) && (d == Publisher || d == Subscriber))
    || (c.ProcessorImpl? && d == Processor)
    || (c.PublisherImpl? && d == Publisher)
    || (c.SubscriberImpl? && d == Subscriber)
    || (c.CompletionStageImpl? && d == CompletionStage)
    || (c.MessageImpl? && d == Message)
  }

  lemma SubclassIsPartialOrder(a: ClassTag, b: ClassTag, c: ClassTag)
    ensures IsSubclass(a, a)
    ensures IsSubclass(a, b) && IsSubclass(b, a) ==> a == b
    ensures IsSubclass(a, b) && IsSubclass(b, c) ==> IsSubclass(a, c)
  {
  }

  /**
   * A declared (generic) type: its raw class and its actual type arguments.
   * A type is parameterized exactly when `arguments` is not empty; a Java
   * ParameterizedType with no actual arguments (a non-generic class nested
   * in a generic one) is represented as a plain type.
   */
  datatype TypeDesc = TypeDesc(raw: ClassTag, arguments: seq<TypeDesc>) {
    predicate IsParameterized() {
      |arguments| > 0
    }
  }

  /** A non-generic type. */
  function Plain(c: ClassTag): TypeDesc {
    TypeDesc(c, [])
  }

  /** `c<arg>` */
  function Of(c: ClassTag, arg: TypeDesc): TypeDesc {
    TypeDesc(c, [arg])
  }

  /**
   * `ClassUtils.isAssignable(t, to)` and `TypeUtils.isAssignable(t, to)`
   * for a raw target class: generics of `t` play no part.
   */
  predicate IsAssignable(t: TypeDesc, to: ClassTag) {
    IsSubclass(t.raw, to)
  }

  /**
   * `TypeUtils.isAssignable(Message.class, t)`: the raw envelope class may
   * be assigned to `t` (the test in the reverse direction).
   */
  predicate MessageIsAssignableTo(t: TypeDesc) {
    IsSubclass(Message, t.raw)
  }

  /** The reflected contract of a mediator method. */
  datatype Signature = Signature(returnType: TypeDesc, parameterTypes: seq<TypeDesc>) {
    function ParameterCount(): nat {
      |parameterTypes|
    }
  }
}
