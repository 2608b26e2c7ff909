/**
 * JetStream stream and consumer configuration records and their
 * functional-option builders (pkg/server/stream_options.go).
 *
 * As in ServerOptions, each `With*` closure is a value of an override type
 * and the builders run the overrides left to right on fixed defaults.  All
 * stream overrides but `WithConsumer` write one field; `WithConsumer`
 * appends to the stream's consumer list.
 */
module JetStreamOptions {
  import opened Wrappers

  /** nats.go StorageType, in its declaration order (FileStorage is the zero value). */
  datatype StorageType = FileStorage | MemoryStorage

  /** nats.go AckPolicy, in its declaration order (AckNonePolicy is the zero value). */
  datatype AckPolicy = AckNonePolicy | AckAllPolicy | AckExplicitPolicy

  /** nats.go DeliverPolicy, in its declaration order (DeliverAllPolicy is the zero value). */
  datatype DeliverPolicy =
    | DeliverAllPolicy
    | DeliverLastPolicy
    | DeliverNewPolicy
    | DeliverByStartSequencePolicy
    | DeliverByStartTimePolicy
    | DeliverLastPerSubjectPolicy

  /** The client library's consumer configuration, as far as this layer fills it in. */
  datatype ConsumerConfig = ConsumerConfig(
    durable: string,
    ackPolicy: AckPolicy,
    ackWait: Duration,
    maxDeliver: int,
    deliverPolicy: DeliverPolicy,
    maxAckPending: int)

  /** The client library's stream configuration, as far as this layer fills it in. */
  datatype StreamConfig = StreamConfig(
    name: string,
    subjects: seq<string>,
    storage: StorageType,
    replicas: int)

  /** One consumer bound to a stream. */
  datatype ConsumerOptions = ConsumerOptions(
    durable: string,
    ackPolicy: AckPolicy,
    maxDeliver: int,
    ackWait: Duration,
    deliverPolicy: DeliverPolicy,
    maxAckPending: int)
  {
    function ToNATS(): ConsumerConfig {
      ConsumerConfig(durable, ackPolicy, ackWait, maxDeliver, deliverPolicy, maxAckPending)
    }
  }

  /** One stream and the consumers to attach to it, in order. */
  datatype StreamOptions = StreamOptions(
    name: string,
    subjects: seq<string>,
    storage: StorageType,
    replicas: int,
    consumers: seq<ConsumerOptions>)
  {
    /** The stream's configuration for the client library; consumers are attached separately. */
    function ToNATS(): StreamConfig {
      StreamConfig(name, subjects, storage, replicas)
    }
  }

  // ===== Consumer builder =====

  datatype ConsumerOption =
    | WithDurable(durable: string)
    | WithAckPolicy(ackPolicy: AckPolicy)
    | WithMaxDeliver(maxDeliver: int)
    | WithAckWait(ackWait: Duration)
    | WithDeliverPolicy(deliverPolicy: DeliverPolicy)
    | WithMaxAckPending(maxAckPending: int)

  datatype ConsumerField =
    DurableField | AckPolicyField | MaxDeliverField | AckWaitField | DeliverPolicyField | MaxAckPendingField

  datatype ConsumerValue = Name(name: string) | Ack(ack: AckPolicy) | Count(count: int) | Deliver(deliver: DeliverPolicy)

  function ConsumerGet(c: ConsumerOptions, f: ConsumerField): ConsumerValue {
    match f
    case DurableField => Name(c.durable)
    case AckPolicyField => Ack(c.ackPolicy)
    case MaxDeliverField => Count(c.maxDeliver)
    case AckWaitField => Count(c.ackWait)
    case DeliverPolicyField => Deliver(c.deliverPolicy)
    case MaxAckPendingField => Count(c.maxAckPending)
  }

  /** The same view of the client library's record. */
  function ConsumerConfigGet(c: ConsumerConfig, f: ConsumerField): ConsumerValue {
    match f
    case DurableField => Name(c.durable)
    case AckPolicyField => Ack(c.ackPolicy)
    case MaxDeliverField => Count(c.maxDeliver)
    case AckWaitField => Count(c.ackWait)
    case DeliverPolicyField => Deliver(c.deliverPolicy)
    case MaxAckPendingField => Count(c.maxAckPending)
  }

  function ConsumerTarget(opt: ConsumerOption): ConsumerField {
    match opt
    case WithDurable(_) => DurableField
    case WithAckPolicy(_) => AckPolicyField
    case WithMaxDeliver(_) => MaxDeliverField
    case WithAckWait(_) => AckWaitField
    case WithDeliverPolicy(_) => DeliverPolicyField
    case WithMaxAckPending(_) => MaxAckPendingField
  }

  function ConsumerPayload(opt: ConsumerOption): ConsumerValue {
    match opt
    case WithDurable(d) => Name(d)
    case WithAckPolicy(p) => Ack(p)
    case WithMaxDeliver(m) => Count(m)
    case WithAckWait(w) => Count(w)
    case WithDeliverPolicy(p) => Deliver(p)
    case WithMaxAckPending(m) => Count(m)
  }

  function ApplyConsumer(c: ConsumerOptions, opt: ConsumerOption): ConsumerOptions {
    match opt
    case WithDurable(d) => c.(durable := d)
    case WithAckPolicy(p) => c.(ackPolicy := p)
    case WithMaxDeliver(m) => c.(maxDeliver := m)
    case WithAckWait(w) => c.(ackWait := w)
    case WithDeliverPolicy(p) => c.(deliverPolicy := p)
    case WithMaxAckPending(m) => c.(maxAckPending := m)
  }

  function ApplyAllConsumer(c: ConsumerOptions, opts: seq<ConsumerOption>): ConsumerOptions
    decreases |opts|
  {
    if |opts| == 0 then c
    else ApplyConsumer(ApplyAllConsumer(c, opts[..|opts| - 1]), opts[|opts| - 1])
  }

  /** Explicit acknowledgement, five delivery attempts, a thirty-second ack wait; the rest zero values. */
  function ConsumerDefaults(): ConsumerOptions {
    ConsumerOptions("", AckExplicitPolicy, 5, 30 * Second, DeliverAllPolicy, 0)
  }

  method NewConsumerOptions(opts: seq<ConsumerOption>) returns (c: ConsumerOptions)
    ensures c == ApplyAllConsumer(ConsumerDefaults(), opts)
  {
    c := ConsumerDefaults();
    for i := 0 to |opts|
      invariant c == ApplyAllConsumer(ConsumerDefaults(), opts[..i])
    {
      assert opts[..i + 1][..i] == opts[..i];
      c := ApplyConsumer(c, opts[i]);
    }
    assert opts[..|opts|] == opts;
  }

  // ===== Stream builder =====

  datatype StreamOption =
    | WithStreamName(name: string)
    | WithSubjects(subjects: seq<string>)
    | WithStorage(storage: StorageType)
    | WithReplicas(replicas: int)
    | WithConsumer(consumer: ConsumerOptions)

  /** The scalar fields of a stream; the consumer list is treated apart. */
  datatype StreamField = NameField | SubjectsField | StorageField | ReplicasField

  datatype StreamValue =
    | NameValue(name: string)
    | SubjectsValue(subjects: seq<string>)
    | StorageValue(storage: StorageType)
    | ReplicasValue(replicas: int)

  function StreamGet(s: StreamOptions, f: StreamField): StreamValue {
    match f
    case NameField => NameValue(s.name)
    case SubjectsField => SubjectsValue(s.subjects)
    case StorageField => StorageValue(s.storage)
    case ReplicasField => ReplicasValue(s.replicas)
  }

  function StreamConfigGet(s: StreamConfig, f: StreamField): StreamValue {
    match f
    case NameField => NameValue(s.name)
    case SubjectsField => SubjectsValue(s.subjects)
    case StorageField => StorageValue(s.storage)
    case ReplicasField => ReplicasValue(s.replicas)
  }

  /** A stream override that writes one scalar field, as opposed to `WithConsumer`. */
  predicate IsSetter(opt: StreamOption) {
    !opt.WithConsumer?
  }

  function StreamTarget(opt: StreamOption): StreamField
    requires IsSetter(opt)
  {
    match opt
    case WithStreamName(_) => NameField
    case WithSubjects(_) => SubjectsField
    case WithStorage(_) => StorageField
    case WithReplicas(_) => ReplicasField
  }

  function StreamPayload(opt: StreamOption): StreamValue
    requires IsSetter(opt)
  {
    match opt
    case WithStreamName(n) => NameValue(n)
    case WithSubjects(ss) => SubjectsValue(ss)
    case WithStorage(st) => StorageValue(st)
    case WithReplicas(r) => ReplicasValue(r)
  }

  /** True when `opt` writes the scalar field `f`. */
  predicate Writes(opt: StreamOption, f: StreamField) {
    IsSetter(opt) && StreamTarget(opt) == f
  }

  function ApplyStream(s: StreamOptions, opt: StreamOption): StreamOptions {
    match opt
    case WithStreamName(n) => s.(name := n)
    case WithSubjects(ss) => s.(subjects := ss)
    case WithStorage(st) => s.(storage := st)
    case WithReplicas(r) => s.(replicas := r)
    case WithConsumer(c) => s.(consumers := s.consumers + [c])
  }

  function ApplyAllStream(s: StreamOptions, opts: seq<StreamOption>): StreamOptions
    decreases |opts|
  {
    if |opts| == 0 then s
    else ApplyStream(ApplyAllStream(s, opts[..|opts| - 1]), opts[|opts| - 1])
  }

  /** File storage and one replica; no name, subjects or consumers. */
  function StreamDefaults(): StreamOptions {
    StreamOptions("", [], FileStorage, 1, [])
  }

  method NewStreamOptions(opts: seq<StreamOption>) returns (s: StreamOptions)
    ensures s == ApplyAllStream(StreamDefaults(), opts)
  {
    s := StreamDefaults();
    for i := 0 to |opts|
      invariant s == ApplyAllStream(StreamDefaults(), opts[..i])
    {
      assert opts[..i + 1][..i] == opts[..i];
      s := ApplyStream(s, opts[i]);
    }
    assert opts[..|opts|] == opts;
  }

  /** The consumers named by the `WithConsumer` overrides of `opts`, in order. */
  function ConsumersOf(opts: seq<StreamOption>): seq<ConsumerOptions>
    decreases |opts|
  {
    if |opts| == 0 then []
    else
      var last := opts[|opts| - 1];
      ConsumersOf(opts[..|opts| - 1]) + if last.WithConsumer? then [last.consumer] else []
  }

  /** The number of `WithConsumer` overrides in `opts`. */
  function CountConsumerOverrides(opts: seq<StreamOption>): nat
    decreases |opts|
  {
    if |opts| == 0 then 0
    else CountConsumerOverrides(opts[..|opts| - 1]) + if opts[|opts| - 1].WithConsumer? then 1 else 0
  }

  // ----- Properties of the consumer builder -----

  lemma ConsumerDefaultsAsDocumented()
    ensures var c := ApplyAllConsumer(ConsumerDefaults(), []);
      && c.ackPolicy == AckExplicitPolicy && c.maxDeliver == 5 && c.ackWait == 30 * Second
      && c.durable == "" && c.deliverPolicy == DeliverAllPolicy && c.maxAckPending == 0
  {
  }

  lemma ConsumerFieldsDetermine(a: ConsumerOptions, b: ConsumerOptions)
    requires forall f: ConsumerField :: ConsumerGet(a, f) == ConsumerGet(b, f)
    ensures a == b
  {
    assert ConsumerGet(a, DurableField) == ConsumerGet(b, DurableField);
    assert ConsumerGet(a, AckPolicyField) == ConsumerGet(b, AckPolicyField);
    assert ConsumerGet(a, MaxDeliverField) == ConsumerGet(b, MaxDeliverField);
    assert ConsumerGet(a, AckWaitField) == ConsumerGet(b, AckWaitField);
    assert ConsumerGet(a, DeliverPolicyField) == ConsumerGet(b, DeliverPolicyField);
    assert ConsumerGet(a, MaxAckPendingField) == ConsumerGet(b, MaxAckPendingField);
  }

  lemma ApplyConsumerWritesOnlyTarget(c: ConsumerOptions, opt: ConsumerOption, f: ConsumerField)
    ensures ConsumerGet(ApplyConsumer(c, opt), f)
         == if f == ConsumerTarget(opt) then ConsumerPayload(opt) else ConsumerGet(c, f)
  {
  }

  lemma ApplyConsumerIdempotent(c: ConsumerOptions, opt: ConsumerOption)
    ensures ApplyConsumer(ApplyConsumer(c, opt), opt) == ApplyConsumer(c, opt)
  {
    forall f: ConsumerField
      ensures ConsumerGet(ApplyConsumer(ApplyConsumer(c, opt), opt), f) == ConsumerGet(ApplyConsumer(c, opt), f)
    {
      ApplyConsumerWritesOnlyTarget(ApplyConsumer(c, opt), opt, f);
      ApplyConsumerWritesOnlyTarget(c, opt, f);
    }
    ConsumerFieldsDetermine(ApplyConsumer(ApplyConsumer(c, opt), opt), ApplyConsumer(c, opt));
  }

  lemma {:induction false} ConsumerUnwrittenFieldKept(c: ConsumerOptions, opts: seq<ConsumerOption>, f: ConsumerField)
    requires forall j :: 0 <= j < |opts| ==> ConsumerTarget(opts[j]) != f
    ensures ConsumerGet(ApplyAllConsumer(c, opts), f) == ConsumerGet(c, f)
    decreases |opts|
  {
    if |opts| > 0 {
      var n := |opts|;
      ConsumerUnwrittenFieldKept(c, opts[..n - 1], f);
      ApplyConsumerWritesOnlyTarget(ApplyAllConsumer(c, opts[..n - 1]), opts[n - 1], f);
    }
  }

  lemma {:induction false} ConsumerLastWriteWins(c: ConsumerOptions, opts: seq<ConsumerOption>, k: nat)
    requires k < |opts|
    requires forall j :: k < j < |opts| ==> ConsumerTarget(opts[j]) != ConsumerTarget(opts[k])
    ensures ConsumerGet(ApplyAllConsumer(c, opts), ConsumerTarget(opts[k])) == ConsumerPayload(opts[k])
    decreases |opts|
  {
    var n := |opts|;
    ApplyConsumerWritesOnlyTarget(ApplyAllConsumer(c, opts[..n - 1]), opts[n - 1], ConsumerTarget(opts[k]));
    if k < n - 1 {
      ConsumerLastWriteWins(c, opts[..n - 1], k);
    }
  }

  /** The client record carries all six consumer settings, each under its own name. */
  lemma ConsumerToNATSCopies(c: ConsumerOptions, f: ConsumerField)
    ensures ConsumerConfigGet(c.ToNATS(), f) == ConsumerGet(c, f)
  {
  }

  /** No consumer setting is lost in the conversion. */
  lemma ConsumerToNATSInjective(a: ConsumerOptions, b: ConsumerOptions)
    ensures a.ToNATS() == b.ToNATS() <==> a == b
  {
  }

  // ----- Properties of the stream builder -----

  lemma StreamDefaultsAsDocumented()
    ensures var s := ApplyAllStream(StreamDefaults(), []);
      && s.storage == FileStorage && s.replicas == 1
      && s.name == "" && s.subjects == [] && s.consumers == []
  {
  }

  lemma StreamFieldsDetermine(a: StreamOptions, b: StreamOptions)
    requires forall f: StreamField :: StreamGet(a, f) == StreamGet(b, f)
    requires a.consumers == b.consumers
    ensures a == b
  {
    assert StreamGet(a, NameField) == StreamGet(b, NameField);
    assert StreamGet(a, SubjectsField) == StreamGet(b, SubjectsField);
    assert StreamGet(a, StorageField) == StreamGet(b, StorageField);
    assert StreamGet(a, ReplicasField) == StreamGet(b, ReplicasField);
  }

  /**
   * A setter writes its own field (WithSubjects replaces the whole subject
   * list) and nothing else; WithConsumer appends exactly its consumer and
   * leaves every scalar field alone.
   */
  lemma ApplyStreamEffect(s: StreamOptions, opt: StreamOption, f: StreamField)
    ensures StreamGet(ApplyStream(s, opt), f) == if Writes(opt, f) then StreamPayload(opt) else StreamGet(s, f)
    ensures ApplyStream(s, opt).consumers
         == s.consumers + if opt.WithConsumer? then [opt.consumer] else []
  {
  }

  lemma ApplyStreamSetterIdempotent(s: StreamOptions, opt: StreamOption)
    requires IsSetter(opt)
    ensures ApplyStream(ApplyStream(s, opt), opt) == ApplyStream(s, opt)
  {
    forall f: StreamField
      ensures StreamGet(ApplyStream(ApplyStream(s, opt), opt), f) == StreamGet(ApplyStream(s, opt), f)
    {
      ApplyStreamEffect(ApplyStream(s, opt), opt, f);
      ApplyStreamEffect(s, opt, f);
    }
    StreamFieldsDetermine(ApplyStream(ApplyStream(s, opt), opt), ApplyStream(s, opt));
  }

  /** Subjects given in two calls do not accumulate: the later list replaces the earlier one. */
  lemma WithSubjectsReplaces(s: StreamOptions, first: seq<string>, second: seq<string>)
    ensures ApplyAllStream(s, [WithSubjects(first), WithSubjects(second)]).subjects == second
  {
    assert [WithSubjects(first), WithSubjects(second)][..1] == [WithSubjects(first)];
  }

  /** Adding the same consumer twice attaches it twice. */
  lemma WithConsumerNotIdempotent(s: StreamOptions, c: ConsumerOptions)
    ensures ApplyStream(ApplyStream(s, WithConsumer(c)), WithConsumer(c)) != ApplyStream(s, WithConsumer(c))
  {
    assert |ApplyStream(ApplyStream(s, WithConsumer(c)), WithConsumer(c)).consumers|
        == |ApplyStream(s, WithConsumer(c)).consumers| + 1;
  }

  lemma {:induction false} ApplyAllStreamConcat(s: StreamOptions, xs: seq<StreamOption>, ys: seq<StreamOption>)
    ensures ApplyAllStream(s, xs + ys) == ApplyAllStream(ApplyAllStream(s, xs), ys)
    decreases |ys|
  {
    if |ys| == 0 {
      assert xs + ys == xs;
    } else {
      var n := |ys|;
      assert (xs + ys)[..|xs + ys| - 1] == xs + ys[..n - 1];
      assert (xs + ys)[|xs + ys| - 1] == ys[n - 1];
      ApplyAllStreamConcat(s, xs, ys[..n - 1]);
    }
  }

  lemma {:induction false} StreamUnwrittenFieldKept(s: StreamOptions, opts: seq<StreamOption>, f: StreamField)
    requires forall j :: 0 <= j < |opts| ==> !Writes(opts[j], f)
    ensures StreamGet(ApplyAllStream(s, opts), f) == StreamGet(s, f)
    decreases |opts|
  {
    if |opts| > 0 {
      var n := |opts|;
      StreamUnwrittenFieldKept(s, opts[..n - 1], f);
      ApplyStreamEffect(ApplyAllStream(s, opts[..n - 1]), opts[n - 1], f);
    }
  }

  lemma {:induction false} StreamLastWriteWins(s: StreamOptions, opts: seq<StreamOption>, k: nat)
    requires k < |opts| && IsSetter(opts[k])
    requires forall j :: k < j < |opts| ==> !Writes(opts[j], StreamTarget(opts[k]))
    ensures StreamGet(ApplyAllStream(s, opts), StreamTarget(opts[k])) == StreamPayload(opts[k])
    decreases |opts|
  {
    var n := |opts|;
    ApplyStreamEffect(ApplyAllStream(s, opts[..n - 1]), opts[n - 1], StreamTarget(opts[k]));
    if k < n - 1 {
      StreamLastWriteWins(s, opts[..n - 1], k);
    }
  }

  /** The consumer list is the starting list followed by the WithConsumer arguments, in call order. */
  lemma {:induction false} ConsumersAccumulate(s: StreamOptions, opts: seq<StreamOption>)
    ensures ApplyAllStream(s, opts).consumers == s.consumers + ConsumersOf(opts)
    ensures |ConsumersOf(opts)| == CountConsumerOverrides(opts)
    decreases |opts|
  {
    if |opts| > 0 {
      var n := |opts|;
      ConsumersAccumulate(s, opts[..n - 1]);
      ApplyStreamEffect(ApplyAllStream(s, opts[..n - 1]), opts[n - 1], NameField);
    }
  }

  /** ConsumersOf keeps the order of the overrides across any split of the list. */
  lemma {:induction false} ConsumersOfConcat(xs: seq<StreamOption>, ys: seq<StreamOption>)
    ensures ConsumersOf(xs + ys) == ConsumersOf(xs) + ConsumersOf(ys)
    decreases |ys|
  {
    if |ys| == 0 {
      assert xs + ys == xs;
    } else {
      var n := |ys|;
      assert (xs + ys)[..|xs + ys| - 1] == xs + ys[..n - 1];
      assert (xs + ys)[|xs + ys| - 1] == ys[n - 1];
      ConsumersOfConcat(xs, ys[..n - 1]);
    }
  }

  /** Later overrides never change or drop a consumer attached by earlier ones. */
  lemma EarlierConsumersKept(s: StreamOptions, xs: seq<StreamOption>, ys: seq<StreamOption>)
    ensures ApplyAllStream(s, xs).consumers <= ApplyAllStream(s, xs + ys).consumers
  {
    ConsumersAccumulate(s, xs);
    ConsumersAccumulate(s, xs + ys);
    ConsumersOfConcat(xs, ys);
  }

  /** The stream's client record carries the four scalar settings, each under its own name. */
  lemma StreamToNATSCopies(s: StreamOptions, f: StreamField)
    ensures StreamConfigGet(s.ToNATS(), f) == StreamGet(s, f)
  {
  }

  /** The stream's client record depends on its scalar settings and not on its consumers. */
  lemma StreamToNATSOmitsConsumers(a: StreamOptions, b: StreamOptions)
    ensures a.ToNATS() == b.ToNATS() <==> a.(consumers := b.consumers) == b
  {
  }
}
