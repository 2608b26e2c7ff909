/**
 * The embedded server's configuration record and its functional-option
 * builder (pkg/server/options.go).
 *
 * Each `With*` function of the source returns a closure that writes one
 * field of a freshly allocated record; here such a closure is a value of
 * `Option` and running it is `Apply`.  `NewOptions` starts from the fixed
 * defaults and runs the overrides left to right.
 */
module ServerOptions {
  import opened Wrappers

  /** Default directory for file-backed JetStream storage. */
  const DefaultStoreDir: string := "/var/lib/nats/jetstream"

  /** Configuration of one embedded server instance. */
  datatype Options = Options(
    jetStream: bool,
    trace: bool,
    debug: bool,
    host: string,
    port: int,
    noLog: bool,
    noSigs: bool,
    storeDir: string,
    readyTimeout: Duration)
  {
    /** The engine's own configuration record, built field by field. */
    function ToNATSOptions(): NatsOptions {
      NatsOptions(jetStream, trace, debug, host, port, noLog, noSigs, storeDir)
    }
  }

  /**
   * The part of the engine's configuration this layer fills in; every other
   * engine setting keeps its zero value.
   */
  datatype NatsOptions = NatsOptions(
    jetStream: bool,
    trace: bool,
    debug: bool,
    host: string,
    port: int,
    noLog: bool,
    noSigs: bool,
    storeDir: string)

  /** One override, named after the `With*` function that returns it. */
  datatype Option =
    | WithJetStream(enabled: bool)
    | WithTrace(enabled: bool)
    | WithDebug(enabled: bool)
    | WithHost(host: string)
    | WithPort(port: int)
    | WithNoLog(enabled: bool)
    | WithNoSigs(enabled: bool)
    | WithStoreDir(dir: string)
    | WithReadyTimeout(timeout: Duration)

  /** The fields of `Options`, so that properties can quantify over them. */
  datatype Field =
    JetStream | Trace | Debug | Host | Port | NoLog | NoSigs | StoreDir | ReadyTimeout

  /** The value held by a field. */
  datatype Value = Flag(flag: bool) | Text(text: string) | Number(number: int)

  function Get(o: Options, f: Field): Value {
    match f
    case JetStream => Flag(o.jetStream)
    case Trace => Flag(o.trace)
    case Debug => Flag(o.debug)
    case Host => Text(o.host)
    case Port => Number(o.port)
    case NoLog => Flag(o.noLog)
    case NoSigs => Flag(o.noSigs)
    case StoreDir => Text(o.storeDir)
    case ReadyTimeout => Number(o.readyTimeout)
  }

  /** The same view of the engine record, which has no readiness timeout. */
  function NatsGet(n: NatsOptions, f: Field): Value
    requires f != ReadyTimeout
  {
    match f
    case JetStream => Flag(n.jetStream)
    case Trace => Flag(n.trace)
    case Debug => Flag(n.debug)
    case Host => Text(n.host)
    case Port => Number(n.port)
    case NoLog => Flag(n.noLog)
    case NoSigs => Flag(n.noSigs)
    case StoreDir => Text(n.storeDir)
  }

  /** The field an override writes. */
  function Target(opt: Option): Field {
    match opt
    case WithJetStream(_) => JetStream
    case WithTrace(_) => Trace
    case WithDebug(_) => Debug
    case WithHost(_) => Host
    case WithPort(_) => Port
    case WithNoLog(_) => NoLog
    case WithNoSigs(_) => NoSigs
    case WithStoreDir(_) => StoreDir
    case WithReadyTimeout(_) => ReadyTimeout
  }

  /** The value an override writes. */
  function Payload(opt: Option): Value {
    match opt
    case WithJetStream(b) => Flag(b)
    case WithTrace(b) => Flag(b)
    case WithDebug(b) => Flag(b)
    case WithHost(h) => Text(h)
    case WithPort(p) => Number(p)
    case WithNoLog(b) => Flag(b)
    case WithNoSigs(b) => Flag(b)
    case WithStoreDir(d) => Text(d)
    case WithReadyTimeout(d) => Number(d)
  }

  /** Runs the closure an override stands for on the record `o`. */
  function Apply(o: Options, opt: Option): Options {
    match opt
    case WithJetStream(b) => o.(jetStream := b)
    case WithTrace(b) => o.(trace := b)
    case WithDebug(b) => o.(debug := b)
    case WithHost(h) => o.(host := h)
    case WithPort(p) => o.(port := p)
    case WithNoLog(b) => o.(noLog := b)
    case WithNoSigs(b) => o.(noSigs := b)
    case WithStoreDir(d) => o.(storeDir := d)
    case WithReadyTimeout(d) => o.(readyTimeout := d)
  }

  /** Runs the overrides on `o`, first to last. */
  function ApplyAll(o: Options, opts: seq<Option>): Options
    decreases |opts|
  {
    if |opts| == 0 then o else Apply(ApplyAll(o, opts[..|opts| - 1]), opts[|opts| - 1])
  }

  /** The record NewOptions allocates before it runs any override. */
  function Defaults(): Options {
    Options(true, false, false, "localhost", 4222, false, true, DefaultStoreDir, 10 * Second)
  }

  /** Allocates the defaults and runs every override on them in list order. */
  method NewOptions(opts: seq<Option>) returns (o: Options)
    ensures o == ApplyAll(Defaults(), opts)
  {
    o := Defaults();
    for i := 0 to |opts|
      invariant o == ApplyAll(Defaults(), opts[..i])
    {
      assert opts[..i + 1][..i] == opts[..i];
      o := Apply(o, opts[i]);
    }
    assert opts[..|opts|] == opts;
  }

  // ----- Properties of the builder -----

  /** With no overrides, NewOptions yields the documented defaults. */
  lemma DefaultsAsDocumented()
    ensures var o := ApplyAll(Defaults(), []);
      && o.jetStream && !o.trace && !o.debug
      && o.host == "localhost" && o.port == 4222
      && !o.noLog && o.noSigs
      && o.storeDir == "/var/lib/nats/jetstream"
      && o.readyTimeout == 10 * Second
  {
  }

  /** The nine fields fully determine an `Options` record. */
  lemma FieldsDetermine(a: Options, b: Options)
    requires forall f: Field :: Get(a, f) == Get(b, f)
    ensures a == b
  {
    assert Get(a, JetStream) == Get(b, JetStream);
    assert Get(a, Trace) == Get(b, Trace);
    assert Get(a, Debug) == Get(b, Debug);
    assert Get(a, Host) == Get(b, Host);
    assert Get(a, Port) == Get(b, Port);
    assert Get(a, NoLog) == Get(b, NoLog);
    assert Get(a, NoSigs) == Get(b, NoSigs);
    assert Get(a, StoreDir) == Get(b, StoreDir);
    assert Get(a, ReadyTimeout) == Get(b, ReadyTimeout);
  }

  /** Each setter writes its own field with its argument and leaves the other eight alone. */
  lemma ApplyWritesOnlyTarget(o: Options, opt: Option, f: Field)
    ensures Get(Apply(o, opt), f) == if f == Target(opt) then Payload(opt) else Get(o, f)
  {
  }

  /** Applying a setter twice is the same as applying it once. */
  lemma ApplyIdempotent(o: Options, opt: Option)
    ensures Apply(Apply(o, opt), opt) == Apply(o, opt)
  {
    forall f: Field ensures Get(Apply(Apply(o, opt), opt), f) == Get(Apply(o, opt), f) {
      ApplyWritesOnlyTarget(Apply(o, opt), opt, f);
      ApplyWritesOnlyTarget(o, opt, f);
    }
    FieldsDetermine(Apply(Apply(o, opt), opt), Apply(o, opt));
  }

  /** Setters of different fields agree, field by field, in either order. */
  lemma ApplyCommutesFieldwise(o: Options, x: Option, y: Option)
    requires Target(x) != Target(y)
    ensures forall f: Field :: Get(Apply(Apply(o, x), y), f) == Get(Apply(Apply(o, y), x), f)
  {
    forall f: Field ensures Get(Apply(Apply(o, x), y), f) == Get(Apply(Apply(o, y), x), f) {
      ApplyWritesOnlyTarget(Apply(o, x), y, f);
      ApplyWritesOnlyTarget(o, x, f);
      ApplyWritesOnlyTarget(Apply(o, y), x, f);
      ApplyWritesOnlyTarget(o, y, f);
    }
  }

  /** Setters of different fields commute. */
  lemma ApplyCommutes(o: Options, x: Option, y: Option)
    requires Target(x) != Target(y)
    ensures Apply(Apply(o, x), y) == Apply(Apply(o, y), x)
  {
    ApplyCommutesFieldwise(o, x, y);
    FieldsDetermine(Apply(Apply(o, x), y), Apply(Apply(o, y), x));
  }

  /** Running `xs` then `ys` is running their concatenation: overrides apply in list order. */
  lemma {:induction false} ApplyAllConcat(o: Options, xs: seq<Option>, ys: seq<Option>)
    ensures ApplyAll(o, xs + ys) == ApplyAll(ApplyAll(o, xs), ys)
    decreases |ys|
  {
    if |ys| == 0 {
      assert xs + ys == xs;
    } else {
      var n := |ys|;
      assert (xs + ys)[..|xs + ys| - 1] == xs + ys[..n - 1];
      assert (xs + ys)[|xs + ys| - 1] == ys[n - 1];
      ApplyAllConcat(o, xs, ys[..n - 1]);
    }
  }

  /** A field that no override writes keeps the value it started with. */
  lemma {:induction false} UnwrittenFieldKept(o: Options, opts: seq<Option>, f: Field)
    requires forall j :: 0 <= j < |opts| ==> Target(opts[j]) != f
    ensures Get(ApplyAll(o, opts), f) == Get(o, f)
    decreases |opts|
  {
    if |opts| > 0 {
      var n := |opts|;
      UnwrittenFieldKept(o, opts[..n - 1], f);
      ApplyWritesOnlyTarget(ApplyAll(o, opts[..n - 1]), opts[n - 1], f);
    }
  }

  /** When overrides conflict on a field, the last one that writes it wins. */
  lemma {:induction false} LastWriteWins(o: Options, opts: seq<Option>, k: nat)
    requires k < |opts|
    requires forall j :: k < j < |opts| ==> Target(opts[j]) != Target(opts[k])
    ensures Get(ApplyAll(o, opts), Target(opts[k])) == Payload(opts[k])
    decreases |opts|
  {
    var n := |opts|;
    var f := Target(opts[k]);
    ApplyWritesOnlyTarget(ApplyAll(o, opts[..n - 1]), opts[n - 1], f);
    if k < n - 1 {
      LastWriteWins(o, opts[..n - 1], k);
    }
  }

  /** A field of a built record never overridden holds its default. */
  lemma BuiltFieldDefault(opts: seq<Option>, f: Field)
    requires forall j :: 0 <= j < |opts| ==> Target(opts[j]) != f
    ensures Get(ApplyAll(Defaults(), opts), f) == Get(Defaults(), f)
  {
    UnwrittenFieldKept(Defaults(), opts, f);
  }

  /** The engine record carries the eight settings other than the readiness timeout, each under its own name. */
  lemma ToNATSOptionsCopies(o: Options, f: Field)
    requires f != ReadyTimeout
    ensures NatsGet(o.ToNATSOptions(), f) == Get(o, f)
  {
  }

  /** Two records give the same engine record exactly when they differ at most in the readiness timeout. */
  lemma ToNATSOptionsDropsTimeout(a: Options, b: Options)
    ensures a.ToNATSOptions() == b.ToNATSOptions() <==> a.(readyTimeout := b.readyTimeout) == b
  {
  }
}
