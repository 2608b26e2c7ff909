/**
 * The server manager of pkg/server/server.go: `New`, `Start`,
 * `setupJetStream` and `Stop`.
 *
 * The embedded engine is injected as an oracle, `Engine`. Building it
 * either yields a handle or refuses with a cause, and readiness is a
 * boolean answer for the timeout asked. `Engine` also carries the client
 * library oracle the provisioner talks to. Every call the manager makes on
 * the engine or the client library goes, in order, into the manager's
 * `events` log.
 */
module Manager {
  import opened Wrappers
  import ServerOptions
  import opened JetStreamOptions
  import opened Provisioning

  /** An engine instance, as the manager holds it. */
  type Handle = nat

  /** The engine constructor's answer. */
  datatype Construct = Created(handle: Handle) | Refused(cause: string)

  /** The engine's answers: construction, readiness for a given timeout, and the client library. */
  datatype Engine = Engine(construct: Construct, ready: Duration -> bool, client: Client)

  /** One call the manager makes on the engine. */
  datatype EngineCall =
    | NewServer(options: ServerOptions.NatsOptions)
    | Launch(handle: Handle)
    | ReadyForConnections(handle: Handle, timeout: Duration)
    | SetLogger(handle: Handle, trace: bool, debug: bool)
    | Shutdown(handle: Handle)

  /** One entry of the manager's log of outgoing calls. */
  datatype Event = ToEngine(engineCall: EngineCall) | ToClient(clientCall: ClientCall)

  /** The errors Start returns. */
  datatype StartError =
    | CreateFailed(cause: string)
    | NotReady
    | SetupFailed(setup: SetupError)
  {
    /** The error text; a wrapped error contributes its own text. */
    function Message(): string {
      match this
      case CreateFailed(c) => "error starting server: " + c
      case NotReady => "server not ready for connections"
      case SetupFailed(e) => "error setting up jetstream: " + e.Message()
    }
  }

  /** The client library calls of a provisioning run, as log entries. */
  function ClientEvents(log: seq<ClientCall>): (r: seq<Event>)
    ensures |r| == |log|
    ensures forall p :: 0 <= p < |log| ==> r[p] == ToClient(log[p])
  {
    seq(|log|, p requires 0 <= p < |log| => ToClient(log[p]))
  }

  /** The stream options `New` keeps. */
  function KeptStreams(options: ServerOptions.Options, streams: seq<StreamOptions>): seq<StreamOptions> {
    if options.jetStream && |streams| > 0 then streams else []
  }

  /** Whether Start provisions. */
  predicate Provisions(options: ServerOptions.Options, streams: seq<StreamOptions>) {
    options.jetStream && |streams| > 0
  }

  /**
   * What one Start reports: its error, the calls it made in order, and the
   * handle it stores when it stores one (None: the field is left as it was).
   */
  datatype Started = Started(err: Option<StartError>, events: seq<Event>, handle: Option<Handle>)

  /** One Start of a manager holding `options` and `streams` against `engine`. */
  function StartOutcome(options: ServerOptions.Options, streams: seq<StreamOptions>, engine: Engine): Started {
    var create := [ToEngine(NewServer(options.ToNATSOptions()))];
    match engine.construct
    case Refused(cause) => Started(Some(CreateFailed(cause)), create, None)
    case Created(h) =>
      var launched := create + [ToEngine(Launch(h)), ToEngine(ReadyForConnections(h, options.readyTimeout))];
      if !engine.ready(options.readyTimeout) then Started(Some(NotReady), launched, None)
      else
        var logged := launched + [ToEngine(SetLogger(h, true, true))];
        if Provisions(options, streams) then
          var r := Setup(options.host, options.port, streams, engine.client);
          var events := logged + ClientEvents(r.log);
          if r.err.Some? then Started(Some(SetupFailed(r.err.value)), events, None)
          else Started(None, events, Some(h))
        else Started(None, logged, Some(h))
  }

  /** The handle held after a Start reported `s` on a manager that held `held`. */
  function HeldAfter(held: Option<Handle>, s: Started): Option<Handle> {
    if s.handle.Some? then s.handle else held
  }

  /** The calls one Stop makes while holding `handle`. */
  function StopEvents(handle: Option<Handle>): seq<Event> {
    if handle.Some? then [ToEngine(Shutdown(handle.value))] else []
  }

  class Server {
    const options: ServerOptions.Options
    const streamOptions: seq<StreamOptions>
    /** The engine handle; set only by a Start that succeeds. */
    var natsServer: Option<Handle>
    /** Every call made so far on the engine and the client library, in order. */
    var events: seq<Event>

    /** Keeps the stream options only when JetStream is on and some are given. */
    constructor New(options: ServerOptions.Options, streamOptions: seq<StreamOptions>)
      ensures this.options == options
      ensures this.streamOptions == KeptStreams(options, streamOptions)
      ensures natsServer == None && events == []
    {
      this.options := options;
      if options.jetStream && |streamOptions| > 0 {
        this.streamOptions := streamOptions;
      } else {
        this.streamOptions := [];
      }
      natsServer := None;
      events := [];
    }

    /** Builds, launches and readies the engine, registers the logger, then provisions. */
    method Start(engine: Engine) returns (err: Option<StartError>)
      modifies this
      ensures var s := StartOutcome(options, streamOptions, engine);
        && err == s.err
        && events == old(events) + s.events
        && natsServer == HeldAfter(old(natsServer), s)
    {
      var natsOpts := options.ToNATSOptions();
      events := events + [ToEngine(NewServer(natsOpts))];
      if engine.construct.Refused? {
        return Some(CreateFailed(engine.construct.cause));
      }
      var h := engine.construct.handle;
      events := events + [ToEngine(Launch(h))];
      events := events + [ToEngine(ReadyForConnections(h, options.readyTimeout))];
      if !engine.ready(options.readyTimeout) {
        return Some(NotReady);
      }
      events := events + [ToEngine(SetLogger(h, true, true))];
      if options.jetStream && |streamOptions| > 0 {
        var setupErr, log := SetupJetStream(engine.client);
        events := events + ClientEvents(log);
        if setupErr.Some? {
          return Some(SetupFailed(setupErr.value));
        }
      }
      natsServer := Some(h);
      return None;
    }

    /**
     * Connects, enables JetStream, creates each stream and then its
     * consumers, stopping at the first failure; the connection is closed on
     * every path after a successful connect.
     */
    method SetupJetStream(client: Client) returns (err: Option<SetupError>, log: seq<ClientCall>)
      ensures var r := Setup(options.host, options.port, streamOptions, client);
        err == r.err && log == r.log
    {
      var streams := streamOptions;
      if |streams| == 0 {
        return Some(NoStreamConfig), [];
      }
      log := [Connect(options.host, options.port)];
      if client.connect.Fail? {
        return Some(ConnectFailed(client.connect.cause)), log;
      }
      log := log + [JetStream];
      if client.jetStream.Fail? {
        return Some(JetStreamFailed(client.jetStream.cause)), log + [Close];
      }
      ghost var head := log;
      assert head == [Connect(options.host, options.port), JetStream];
      var i := 0;
      while i < |streams|
        invariant 0 <= i <= |streams|
        invariant log == head + Calls(streams, PlanPrefix(streams, i))
        invariant forall t :: t in PlanPrefix(streams, i) ==> Answer(client, t).Ok?
      {
        var stream := streams[i];
        log := log + [AddStream(stream.ToNATS())];
        AppendCall(head, streams, PlanPrefix(streams, i), StreamAt(i));
        if client.addStream(i).Fail? {
          StreamFailureAt(options.host, options.port, streams, client, i);
          return Some(StreamFailed(stream.name, client.addStream(i).cause)), log + [Close];
        }
        err, log := AddConsumers(client, i, log);
        if err.Some? {
          return err, log;
        }
        i := i + 1;
      }
      SetupAllAnswered(options.host, options.port, streams, client);
      return None, log + [Close];
    }

    /**
     * The inner loop of the provisioner: attaches stream `i`'s consumers in
     * order after the stream was created, stopping at the first failure
     * with the connection closed.
     */
    method AddConsumers(client: Client, i: nat, logIn: seq<ClientCall>) returns (err: Option<SetupError>, log: seq<ClientCall>)
      requires i < |streamOptions|
      requires client.connect.Ok? && client.jetStream.Ok?
      requires forall t :: t in PlanPrefix(streamOptions, i) ==> Answer(client, t).Ok?
      requires client.addStream(i).Ok?
      requires logIn == [Connect(options.host, options.port), JetStream] + Calls(streamOptions, Visited(streamOptions, i, 0))
      ensures err.None? ==>
        && log == [Connect(options.host, options.port), JetStream] + Calls(streamOptions, PlanPrefix(streamOptions, i + 1))
        && forall t :: t in PlanPrefix(streamOptions, i + 1) ==> Answer(client, t).Ok?
      ensures err.Some? ==>
        var r := Setup(options.host, options.port, streamOptions, client);
        err == r.err && log == r.log
    {
      var streams := streamOptions;
      var stream := streams[i];
      ghost var head := [Connect(options.host, options.port), JetStream];
      log := logIn;
      var j := 0;
      while j < |stream.consumers|
        invariant 0 <= j <= |stream.consumers|
        invariant log == head + Calls(streams, Visited(streams, i, j))
        invariant forall p :: 0 <= p < j ==> client.addConsumer(i, p).Ok?
      {
        log := log + [AddConsumer(stream.name, stream.consumers[j].ToNATS())];
        AppendCall(head, streams, Visited(streams, i, j), ConsumerAt(i, j));
        if client.addConsumer(i, j).Fail? {
          ConsumerFailureLog(options.host, options.port, streams, client, i, j);
          return Some(ConsumerFailed(stream.name, client.addConsumer(i, j).cause)), log + [Close];
        }
        j := j + 1;
      }
      VisitedAll(streams, i);
      PlanPrefixStep(streams, i, client);
      return None, log;
    }

    /** Shuts the engine down when a handle is held; the handle is kept. */
    method Stop()
      modifies this
      ensures natsServer == old(natsServer)
      ensures events == old(events) + StopEvents(old(natsServer))
    {
      if natsServer.Some? {
        events := events + [ToEngine(Shutdown(natsServer.value))];
      }
    }
  }

  /** Appending one object appends its creation call. */
  lemma AppendCall(head: seq<ClientCall>, streams: seq<StreamOptions>, done: seq<Target>, t: Target)
    requires AllValid(streams, done) && ValidTarget(streams, t)
    ensures AllValid(streams, done + [t])
    ensures head + Calls(streams, done + [t]) == head + Calls(streams, done) + [CallFor(streams, t)]
  {
    assert (done + [t])[..|done|] == done;
  }

  /** The result of a run whose first failure is consumer `j` of stream `i`, in the terms of the inner loop. */
  lemma ConsumerFailureLog(host: string, port: int, streams: seq<StreamOptions>, client: Client, i: nat, j: nat)
    requires client.connect.Ok? && client.jetStream.Ok?
    requires i < |streams| && j < |streams[i].consumers|
    requires forall t :: t in PlanPrefix(streams, i) ==> Answer(client, t).Ok?
    requires client.addStream(i).Ok?
    requires forall p :: 0 <= p < j ==> client.addConsumer(i, p).Ok?
    requires client.addConsumer(i, j).Fail?
    ensures Setup(host, port, streams, client).err == Some(ConsumerFailed(streams[i].name, client.addConsumer(i, j).cause))
    ensures Setup(host, port, streams, client).log
      == [Connect(host, port), JetStream] + Calls(streams, Visited(streams, i, j + 1)) + [Close]
  {
    ConsumerFailureAt(host, port, streams, client, i, j);
    VisitedIs(streams, i, j + 1);
  }

  /** Once stream `i` and all its consumers are answered Ok, so is the plan of the first `i + 1` streams. */
  lemma PlanPrefixStep(streams: seq<StreamOptions>, i: nat, client: Client)
    requires i < |streams|
    requires forall t :: t in PlanPrefix(streams, i) ==> Answer(client, t).Ok?
    requires client.addStream(i).Ok?
    requires forall p :: 0 <= p < |streams[i].consumers| ==> client.addConsumer(i, p).Ok?
    ensures forall t :: t in PlanPrefix(streams, i + 1) ==> Answer(client, t).Ok?
  {
    forall t | t in PlanPrefix(streams, i + 1) ensures Answer(client, t).Ok? {
      ConsumerTargetsMembers(i, |streams[i].consumers|, t);
    }
  }

  /** A run whose every creation is answered Ok succeeds with the whole plan. */
  lemma SetupAllAnswered(host: string, port: int, streams: seq<StreamOptions>, client: Client)
    requires |streams| > 0 && client.connect.Ok? && client.jetStream.Ok?
    requires forall t :: t in Plan(streams) ==> Answer(client, t).Ok?
    ensures var r := Setup(host, port, streams, client);
      && r.err == None
      && r.log == [Connect(host, port), JetStream] + Calls(streams, Plan(streams)) + [Close]
  {
    var plan := Plan(streams);
    forall p | 0 <= p < |plan| ensures Answer(client, plan[p]).Ok? {
      assert plan[p] in plan;
    }
    FirstFailureNone(client, plan);
  }

  // ----- Properties of Start and Stop -----

  /** The streams `New` keeps are exactly those Start provisions, under the same condition. */
  lemma NewKeepsWhatStartProvisions(options: ServerOptions.Options, streams: seq<StreamOptions>)
    ensures Provisions(options, KeptStreams(options, streams)) <==> Provisions(options, streams)
    ensures Provisions(options, streams) ==> KeptStreams(options, streams) == streams
    ensures !Provisions(options, streams) ==> KeptStreams(options, streams) == []
  {
  }

  /**
   * When the engine cannot be built, Start reports the cause, makes no
   * further engine call and stores no handle.
   */
  lemma StartRefused(options: ServerOptions.Options, streams: seq<StreamOptions>, engine: Engine)
    requires engine.construct.Refused?
    ensures var s := StartOutcome(options, streams, engine);
      && s.err == Some(CreateFailed(engine.construct.cause))
      && s.err.value.Message() == "error starting server: " + engine.construct.cause
      && s.events == [ToEngine(NewServer(options.ToNATSOptions()))]
      && s.handle == None
  {
  }

  /**
   * When the engine is not ready within the configured timeout, Start
   * reports it, registers no logger, provisions nothing and stores no handle.
   */
  lemma StartNotReady(options: ServerOptions.Options, streams: seq<StreamOptions>, engine: Engine)
    requires engine.construct.Created? && !engine.ready(options.readyTimeout)
    ensures var s := StartOutcome(options, streams, engine);
      && s.err == Some(NotReady)
      && s.err.value.Message() == "server not ready for connections"
      && s.handle == None
      && (forall p :: 0 <= p < |s.events| ==> s.events[p].ToEngine? && !s.events[p].engineCall.SetLogger?)
  {
  }

  /**
   * Once the engine is ready, the logger is registered exactly once, with
   * trace and debug on whatever the options say, right after the readiness
   * check.
   */
  lemma StartSetsLoggerOnce(options: ServerOptions.Options, streams: seq<StreamOptions>, engine: Engine)
    requires engine.construct.Created? && engine.ready(options.readyTimeout)
    ensures var s := StartOutcome(options, streams, engine);
      && |s.events| >= 4
      && s.events[3] == ToEngine(SetLogger(engine.construct.handle, true, true))
      && forall p :: 0 <= p < |s.events| && p != 3 ==>
           !(s.events[p].ToEngine? && s.events[p].engineCall.SetLogger?)
  {
    var s := StartOutcome(options, streams, engine);
    forall p | 4 <= p < |s.events|
      ensures !(s.events[p].ToEngine? && s.events[p].engineCall.SetLogger?)
    {
      var r := Setup(options.host, options.port, streams, engine.client);
      assert s.events[p] == ClientEvents(r.log)[p - 4];
    }
  }

  /** The client library is used only when JetStream is on and streams are configured. */
  lemma StartProvisionsOnlyWhenConfigured(options: ServerOptions.Options, streams: seq<StreamOptions>, engine: Engine)
    requires !Provisions(options, streams)
    ensures var s := StartOutcome(options, streams, engine);
      forall p :: 0 <= p < |s.events| ==> s.events[p].ToEngine?
  {
  }

  /**
   * Start stores a handle exactly when it returns no error, and the handle
   * it stores is the engine it built.
   */
  lemma StartHandleOnlyOnSuccess(options: ServerOptions.Options, streams: seq<StreamOptions>, engine: Engine)
    ensures var s := StartOutcome(options, streams, engine);
      && (s.handle.Some? <==> s.err.None?)
      && (s.handle.Some? ==> engine.construct == Created(s.handle.value))
  {
  }

  /**
   * Start succeeds exactly when the engine is built and ready and, if it
   * provisions, every provisioning call is answered Ok.
   */
  lemma StartSucceedsIff(options: ServerOptions.Options, streams: seq<StreamOptions>, engine: Engine)
    ensures StartOutcome(options, streams, engine).err.None? <==>
      && engine.construct.Created?
      && engine.ready(options.readyTimeout)
      && (Provisions(options, streams) ==>
            && engine.client.connect.Ok? && engine.client.jetStream.Ok?
            && forall t :: t in Plan(streams) ==> Answer(engine.client, t).Ok?)
  {
    if engine.construct.Created? && engine.ready(options.readyTimeout) && Provisions(options, streams) {
      SetupSucceedsIff(options.host, options.port, streams, engine.client);
    }
  }

  /**
   * A provisioning failure is wrapped, stores no handle and leaves the
   * engine running: the engine was launched and no Shutdown was issued.
   * Start never reports a missing stream configuration, since it provisions
   * only when streams are configured.
   */
  lemma StartSetupFailureLeavesEngineRunning(options: ServerOptions.Options, streams: seq<StreamOptions>, engine: Engine)
    requires StartOutcome(options, streams, engine).err.Some?
    requires StartOutcome(options, streams, engine).err.value.SetupFailed?
    ensures var s := StartOutcome(options, streams, engine);
      && s.handle == None
      && s.err.value.Message() == "error setting up jetstream: " + s.err.value.setup.Message()
      && s.err.value.setup != NoStreamConfig
      && s.events[1] == ToEngine(Launch(engine.construct.handle))
      && forall p :: 0 <= p < |s.events| ==> !(s.events[p].ToEngine? && s.events[p].engineCall.Shutdown?)
  {
    var s := StartOutcome(options, streams, engine);
    var r := Setup(options.host, options.port, streams, engine.client);
    forall p | 4 <= p < |s.events|
      ensures !(s.events[p].ToEngine? && s.events[p].engineCall.Shutdown?)
    {
      assert s.events[p] == ClientEvents(r.log)[p - 4];
    }
  }

  /** Stop with no handle makes no call; with one it shuts that engine down once. */
  lemma StopCalls(handle: Option<Handle>)
    ensures handle.None? ==> StopEvents(handle) == []
    ensures handle.Some? ==> StopEvents(handle) == [ToEngine(Shutdown(handle.value))]
  {
  }

  /**
   * A Start that fails keeps whatever handle an earlier Start stored: after
   * a successful Start and a failed one, Stop shuts the first engine down,
   * and never the engine the failed Start launched when that one differs.
   */
  lemma StopAfterFailedRestart(options: ServerOptions.Options, streams: seq<StreamOptions>, first: Engine, second: Engine)
    requires StartOutcome(options, streams, first).err.None?
    requires StartOutcome(options, streams, second).err.Some?
    ensures var held := HeldAfter(HeldAfter(None, StartOutcome(options, streams, first)), StartOutcome(options, streams, second));
      && held == Some(first.construct.handle)
      && StopEvents(held) == [ToEngine(Shutdown(first.construct.handle))]
      && (second.construct.Created? && second.construct.handle != first.construct.handle ==>
            ToEngine(Shutdown(second.construct.handle)) !in StopEvents(held))
  {
    StartHandleOnlyOnSuccess(options, streams, first);
    StartHandleOnlyOnSuccess(options, streams, second);
  }

  // ----- Lifecycles -----

  /** A manager that was never started: Stop changes nothing and makes no call. */
  method StopWithoutStart(options: ServerOptions.Options, streams: seq<StreamOptions>) returns (s: Server)
    ensures s.natsServer == None && s.events == []
  {
    s := new Server.New(options, streams);
    s.Stop();
  }

  /**
   * A successful Start then two Stops: both Stops shut the same engine
   * down, since Stop keeps the handle.
   */
  method StartThenStopTwice(options: ServerOptions.Options, streams: seq<StreamOptions>, engine: Engine) returns (s: Server, err: Option<StartError>)
    ensures s.options == options
    ensures var o := StartOutcome(options, KeptStreams(options, streams), engine);
      && err == o.err
      && s.natsServer == o.handle
      && s.events == o.events + StopEvents(o.handle) + StopEvents(o.handle)
  {
    s := new Server.New(options, streams);
    err := s.Start(engine);
    s.Stop();
    s.Stop();
  }

  /**
   * Two Starts and then a Stop: the log holds both Starts' calls and then
   * one Stop's, and the handle held is the second Start's when it stored
   * one and otherwise the first's.
   */
  method StartTwiceThenStop(options: ServerOptions.Options, streams: seq<StreamOptions>, first: Engine, second: Engine)
      returns (s: Server, err1: Option<StartError>, err2: Option<StartError>)
    ensures var kept := KeptStreams(options, streams);
      var o1 := StartOutcome(options, kept, first);
      var o2 := StartOutcome(options, kept, second);
      var held := HeldAfter(HeldAfter(None, o1), o2);
      && err1 == o1.err && err2 == o2.err
      && s.natsServer == held
      && s.events == o1.events + o2.events + StopEvents(held)
  {
    s := new Server.New(options, streams);
    ghost var kept := KeptStreams(options, streams);
    ghost var o1 := StartOutcome(options, kept, first);
    ghost var o2 := StartOutcome(options, kept, second);
    err1 := s.Start(first);
    assert s.events == o1.events && s.natsServer == HeldAfter(None, o1);
    err2 := s.Start(second);
    assert s.events == o1.events + o2.events && s.natsServer == HeldAfter(HeldAfter(None, o1), o2);
    s.Stop();
  }
}
