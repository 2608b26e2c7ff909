# nats-server embedding: a Dafny model

This project models the Go package `pkg/server` of osapi-io/nats-server.
The package embeds a NATS message broker in a host program. Its parts are:

- **Configuration builders** (`options.go`, `stream_options.go`). `NewOptions`, `NewStreamOptions` and
  `NewConsumerOptions` start from fixed defaults and apply a list of functional options left to right.
  `ToNATSOptions` and the two `ToNATS` functions copy a record into the engine's and the client
  library's configuration types.
- **Server manager** (`server.go`). `New` keeps the stream options only when JetStream is on. `Start`
  builds the engine, launches it, waits for readiness, installs the logging adapter, provisions
  JetStream and stores the engine handle. `Stop` shuts the engine down when a handle is held.
- **Provisioner** (`setupJetStream` in `server.go`). It connects with the client library, enables
  JetStream, then creates every stream followed by that stream's consumers. It stops at the first
  failure and closes the connection.
- **Logging adapter**. It is modelled from what pkg/server/logger_test.go fixes. It maps the engine's six
  log calls onto four host severities and writes one record per call.

## How the model is built

- **Records** (`Options`, `StreamOptions`, `ConsumerOptions`) are datatypes. So are the engine's
  `NatsOptions` and the client library's `StreamConfig` and `ConsumerConfig`.
- **Functional options.** Each Go closure returned by a `With*` function is a constructor of an
  override datatype (`ServerOptions.Option`, `JetStreamOptions.StreamOption`,
  `JetStreamOptions.ConsumerOption`).
  - `Apply*` runs one override and `ApplyAll*` runs a list left to right.
  - `Get`-style field views let one lemma say "writes only its own field" for every setter at once.
  - The builders are methods. Their loop over the overrides is proved equal to the left fold `ApplyAll*`.
- **Durations** are integer nanoseconds (`Wrappers.Second` is 10^9). The nats.go enums are small
  datatypes in the library's declaration order.
- **The engine and the client library are oracles.**
  - `Manager.Engine` holds the constructor's answer (a handle or a refusal with its cause), the
    readiness answer for a timeout, and a `Provisioning.Client`.
  - The client answers connect and JetStream with fixed outcomes.
  - It answers the creation of stream `i` with `addStream(i)`, and of consumer `j` of stream `i` with
    `addConsumer(i, j)`. Any engine behaviour on one request list can therefore be described.
  - The engine is injected as a parameter of `Start`. The package's tests swap the engine
    constructor for a mock in the same place.
- **Provisioning is specified in closed form.**
  - `Plan` is the flat order in which the nested loop visits the streams and consumers.
  - `FirstFailure` is the first position in that order whose creation fails.
  - `Setup` gives the error, the log of client calls, the objects attempted and the objects created.
  - `Manager.Server.SetupJetStream` is the nested loop, proved equal to `Setup`. Its inner loop over
    one stream's consumers is the method `Manager.Server.AddConsumers`.
- **`Manager.Server`** is a class.
  - `options` and `streamOptions` are constants.
  - `natsServer` is the handle field.
  - `events` logs every call made on the engine and the client library, in order.
  - `Start` is proved equal to the specification function `StartOutcome`. `Stop` is stated directly.
- **Behaviour of the code worth noting:**
  - `Stop` does not clear the handle, so a second `Stop` shuts the same engine down again
    (`Manager.StartThenStopTwice`).
  - When provisioning fails, `Start` leaves the engine running, stores no handle and issues no
    shutdown (`Manager.StartSetupFailureLeavesEngineRunning`). A later `Stop` on that manager makes
    no call unless an earlier `Start` stored a handle; then it shuts down that earlier engine, not
    the one just launched (`Manager.StopAfterFailedRestart`, `Manager.StartTwiceThenStop`).
  - A readiness failure is an ordinary error value with the text "server not ready for connections".
  - A second `Start` is not guarded against. It repeats the whole sequence and, on success,
    overwrites the handle.

## Model

| member | source | states |
|---|---|---|
| `ServerOptions.NewOptions` | pkg/server/options.go:58-76 | the built record is the defaults with the overrides applied in list order |
| `ServerOptions.DefaultsAsDocumented` | pkg/server/options.go:58-69 | with no overrides: JetStream on, Trace and Debug off, host "localhost", port 4222, logging on, signals off, store dir "/var/lib/nats/jetstream", ready timeout 10 s |
| `ServerOptions.ApplyWritesOnlyTarget` | pkg/server/options.go:78-139 | each setter sets its own field to its argument and leaves every other field unchanged |
| `ServerOptions.ApplyIdempotent` | pkg/server/options.go:78-139 | applying a setter twice equals applying it once |
| `ServerOptions.ApplyCommutes` | pkg/server/options.go:78-139 | setters of different fields commute |
| `ServerOptions.ApplyAllConcat` | pkg/server/options.go:71-73 | applying a concatenated list applies the first part, then the second |
| `ServerOptions.UnwrittenFieldKept` | pkg/server/options.go:71-73 | a field that no override in the list writes keeps its value |
| `ServerOptions.LastWriteWins` | pkg/server/options.go:71-73 | when several overrides write one field, the last of them decides its value |
| `ServerOptions.BuiltFieldDefault` | pkg/server/options.go:58-73 | a field no override writes keeps its default in the built record |
| `ServerOptions.ToNATSOptionsCopies` | pkg/server/options.go:142-153 | the eight engine fields are copied verbatim |
| `ServerOptions.ToNATSOptionsDropsTimeout` | pkg/server/options.go:142-153 | two records convert to the same engine options exactly when they differ at most in the ready timeout |
| `JetStreamOptions.NewConsumerOptions` | pkg/server/stream_options.go:126-139 | the built consumer is the defaults with the overrides applied in list order |
| `JetStreamOptions.ConsumerDefaultsAsDocumented` | pkg/server/stream_options.go:126-131 | consumer defaults: explicit ack, max deliver 5, ack wait 30 s, empty durable name, deliver all, max ack pending 0 |
| `JetStreamOptions.ApplyConsumerWritesOnlyTarget` | pkg/server/stream_options.go:141-181 | each consumer setter sets its own field and leaves the other five unchanged |
| `JetStreamOptions.ApplyConsumerIdempotent` | pkg/server/stream_options.go:141-181 | applying a consumer setter twice equals applying it once |
| `JetStreamOptions.ConsumerUnwrittenFieldKept` | pkg/server/stream_options.go:134-136 | a consumer field that no override writes keeps its value |
| `JetStreamOptions.ConsumerLastWriteWins` | pkg/server/stream_options.go:134-136 | the last override writing a consumer field decides its value |
| `JetStreamOptions.ConsumerToNATSCopies` | pkg/server/stream_options.go:184-193 | all six consumer fields are copied verbatim |
| `JetStreamOptions.ConsumerToNATSInjective` | pkg/server/stream_options.go:184-193 | two consumers convert to the same config exactly when they are equal |
| `JetStreamOptions.NewStreamOptions` | pkg/server/stream_options.go:66-78 | the built stream is the defaults with the overrides applied in list order |
| `JetStreamOptions.StreamDefaultsAsDocumented` | pkg/server/stream_options.go:66-70 | stream defaults: file storage, one replica, empty name, no subjects, no consumers |
| `JetStreamOptions.ApplyStreamEffect` | pkg/server/stream_options.go:80-113 | a setter writes only its field; WithConsumer appends exactly its consumer and leaves every scalar field unchanged |
| `JetStreamOptions.ApplyStreamSetterIdempotent` | pkg/server/stream_options.go:80-106 | every stream setter other than WithConsumer is idempotent |
| `JetStreamOptions.WithConsumerNotIdempotent` | pkg/server/stream_options.go:109-113 | adding a consumer twice attaches it twice |
| `JetStreamOptions.WithSubjectsReplaces` | pkg/server/stream_options.go:88-92 | a later subject list replaces an earlier one instead of adding to it |
| `JetStreamOptions.ApplyAllStreamConcat` | pkg/server/stream_options.go:73-75 | applying a concatenated list applies the first part, then the second |
| `JetStreamOptions.StreamUnwrittenFieldKept` | pkg/server/stream_options.go:73-75 | a stream field that no override writes keeps its value |
| `JetStreamOptions.StreamLastWriteWins` | pkg/server/stream_options.go:73-75 | the last setter writing a stream field decides its value |
| `JetStreamOptions.ConsumersAccumulate` | pkg/server/stream_options.go:109-113 | the consumers are the initial ones followed by the WithConsumer arguments in call order, one per call |
| `JetStreamOptions.ConsumersOfConcat` | pkg/server/stream_options.go:109-113 | the consumers added by two lists in turn are those of the first, then those of the second |
| `JetStreamOptions.EarlierConsumersKept` | pkg/server/stream_options.go:109-113 | later overrides never change or remove consumers already attached |
| `JetStreamOptions.StreamToNATSCopies` | pkg/server/stream_options.go:116-123 | name, subjects, storage and replicas are copied verbatim |
| `JetStreamOptions.StreamToNATSOmitsConsumers` | pkg/server/stream_options.go:116-123 | two streams convert to the same config exactly when they differ at most in their consumers |
| `Provisioning.PlanPrefixMembers` | pkg/server/server.go:103-119 | the nested loop over the first k streams visits exactly their streams and their consumers |
| `Provisioning.PlanPrefixOrdered` | pkg/server/server.go:103-119 | the visit order puts streams in list order, each stream before its consumers, consumers in list order |
| `Provisioning.PlanIsRequestedOrder` | pkg/server/server.go:103-119 | the plan holds every requested object, each once, in the requested order |
| `Provisioning.FirstFailure` | pkg/server/server.go:103-119 | the position of the first object whose creation fails: every earlier object is answered Ok |
| `Provisioning.FirstFailureAt` | pkg/server/server.go:103-119 | the first failure is the least failing position |
| `Provisioning.FirstFailureNone` | pkg/server/server.go:103-121 | when every creation is answered Ok, no failure is found |
| `Provisioning.CallsAreCreations` | pkg/server/server.go:104-114 | each visited object yields exactly one creation call with its converted config, in visit order |
| `Provisioning.CallsPrefix` | pkg/server/server.go:103-119 | the calls for a prefix of the visits are a prefix of the calls |
| `Provisioning.ConnectedClosesOnce` | pkg/server/server.go:96 | once connected, the log ends with Close and has no other Close |
| `Provisioning.SetupFollowsPlan` | pkg/server/server.go:103-119 | the attempted objects are a prefix of the requested order; the created ones are the attempted ones, at most the last missing; each created one was answered Ok; the log's creation calls are those of the attempted objects, a prefix of the calls of the whole plan |
| `Provisioning.SetupStopsAtFirstFailure` | pkg/server/server.go:103-119 | a creation error happens at the first failing object, names its stream and cause, is a consumer error exactly for a consumer, and nothing after it is attempted |
| `Provisioning.SetupSucceedsIff` | pkg/server/server.go:87-122 | provisioning succeeds exactly when streams are given and connect, JetStream and every creation are answered Ok |
| `Provisioning.SetupSuccessCreatesAll` | pkg/server/server.go:103-121 | a successful run attempted and created every requested object |
| `Provisioning.SetupConnectionHandling` | pkg/server/server.go:92-101 | connect and JetStream failures come back before any object is attempted; after a successful connect the connection is closed once, as the last call |
| `Provisioning.StreamFailureAt` | pkg/server/server.go:104-109 | when stream i fails first, the error names stream i, the objects of earlier streams stay created and none of its consumers is attempted |
| `Provisioning.ConsumerFailureAt` | pkg/server/server.go:111-117 | when consumer j of stream i fails first, the error names stream i, and the stream and its earlier consumers stay created |
| `Manager.Server.New` | pkg/server/server.go:32-47 | stream options are kept only when JetStream is on and some are given; no handle is held |
| `Manager.NewKeepsWhatStartProvisions` | pkg/server/server.go:42-44 | the condition for keeping streams is the condition for provisioning them |
| `Manager.Server.Start` | pkg/server/server.go:50-84 | the error, the calls made and the new handle are those of `StartOutcome` |
| `Manager.Server.SetupJetStream` | pkg/server/server.go:87-122 | the nested loop returns the error and makes the calls of the closed-form `Setup` |
| `Manager.Server.AddConsumers` | pkg/server/server.go:111-118 | attaching one stream's consumers either extends the log by their calls with all answered Ok, or ends the run with `Setup`'s error and log |
| `Manager.Server.Stop` | pkg/server/server.go:125-131 | with a handle, one Shutdown of that engine; without one, no call; the handle is never cleared |
| `Manager.StartRefused` | pkg/server/server.go:53-56 | a construction failure returns "error starting server: " and the cause, makes no further engine call and stores no handle |
| `Manager.StartNotReady` | pkg/server/server.go:61-63 | not being ready returns "server not ready for connections", registers no logger, provisions nothing and stores no handle |
| `Manager.StartSetsLoggerOnce` | pkg/server/server.go:69 | once ready, the logger is registered exactly once with trace and debug on, whatever the options say |
| `Manager.StartProvisionsOnlyWhenConfigured` | pkg/server/server.go:73-79 | without JetStream or without streams, the client library is never used |
| `Manager.StartHandleOnlyOnSuccess` | pkg/server/server.go:81-83 | a handle is stored exactly when Start returns no error, and it is the engine that was built |
| `Manager.StartSucceedsIff` | pkg/server/server.go:50-84 | Start succeeds exactly when the engine is built and ready and, when it provisions, every provisioning call is answered Ok |
| `Manager.StartSetupFailureLeavesEngineRunning` | pkg/server/server.go:73-76 | a provisioning failure is wrapped as "error setting up jetstream: ", is never the missing-configuration error, stores no handle and leaves the launched engine without a shutdown |
| `Manager.StopCalls` | pkg/server/server.go:125-131 | Stop makes no call without a handle and exactly one Shutdown with one |
| `Manager.StopWithoutStart` | pkg/server/server.go:125-131 | Stop on a manager never started changes nothing |
| `Manager.StartThenStopTwice` | pkg/server/server.go:125-131 | after Start, two Stops issue Shutdown twice when a handle was stored, since Stop keeps the handle |
| `Manager.StopAfterFailedRestart` | pkg/server/server.go:50-131 | after a successful Start, a second Start that fails keeps the first handle, so Stop shuts down the first engine and not the just-launched one |
| `Manager.StartTwiceThenStop` | pkg/server/server.go:50-131 | two Starts then a Stop: the log is both Starts' calls then one Stop's, and the handle held is the second's if it succeeded, otherwise the first's |
| `SlogBridge.LevelOf` | pkg/server/logger_test.go:81-128 | Notice is Info; Warn is Warn; Fatal and Error are Error; Debug and Trace are Debug |
| `SlogBridge.Handler.Handle` | pkg/server/logger_test.go:42-48 | the handler appends the record it receives |
| `SlogBridge.SlogWrapper.Noticef` | pkg/server/logger_test.go:87-91 | one record at Info with the message unchanged |
| `SlogBridge.SlogWrapper.Warnf` | pkg/server/logger_test.go:94-98 | one record at Warn with the message unchanged |
| `SlogBridge.SlogWrapper.Fatalf` | pkg/server/logger_test.go:101-105 | one record at Error, and the call returns |
| `SlogBridge.SlogWrapper.Errorf` | pkg/server/logger_test.go:108-112 | one record at Error with the message unchanged |
| `SlogBridge.SlogWrapper.Debugf` | pkg/server/logger_test.go:115-119 | one record at Debug with the message unchanged |
| `SlogBridge.SlogWrapper.Tracef` | pkg/server/logger_test.go:122-126 | one record at Debug: there is no separate trace severity |
| `SlogBridge.LogOnce` | pkg/server/logger_test.go:130-137 | any one call on a fresh handler leaves exactly one record, at the call's severity, with the message unchanged |

## Left out

- The goroutine that runs the engine (pkg/server/server.go:58) is modelled as a `Launch` call. The blocking wait inside `ReadyForConnections` is a boolean oracle answer. Concurrency and wall-clock time are outside Dafny's sequential model.
- The real engine and the client library (`NewServer`, `nats.Connect`, `JetStream()`, `AddStream`, `AddConsumer`) are oracles. They are foreign code over the network and storage.
- The connect URL `nats://host:port` is not rendered. The `Connect` call records the host and the port. String formatting is a library call.
- The four `slog` Info lines of `Start` and `Stop` are not in the call log. No behaviour depends on them. The `logger` argument of `New` is left out with them.
- Printf rendering in the logging adapter is left out. A call receives its message already rendered, as an opaque string.
- Error wrapping with `%w` is modelled only as text. `Message()` concatenates the prefix and the inner error's text, and `SetupFailed` keeps the inner error. Unwrapping chains are a library feature.
- `time.Duration` and Go `int` are unbounded integers. No computation in the package can overflow: the only products are the constants `10 * time.Second` (pkg/server/options.go:68) and `30 * time.Second` (pkg/server/stream_options.go:130).
- The nats.go enums keep only their names and order, not their library meaning.
- Nil records are outside the model: its records are values and cannot be nil. In Go, a nil `*Options` panics in `New` (pkg/server/server.go:42). A nil entry in the stream options panics when provisioning reaches it (pkg/server/server.go:104), after the earlier streams and their consumers were already created. A nil consumer attached by `WithConsumer(nil)` (pkg/server/stream_options.go:111) panics when provisioning reaches it (pkg/server/server.go:113), after the earlier streams and consumers were already created. In both cases the panic propagates out of `Start` after the deferred `Close` (pkg/server/server.go:96) runs, so no error value is returned and no handle is stored.
- Aliasing through Go references is not captured. The model passes `Options`, `StreamOptions` and `ConsumerOptions` by value, and also the subject slice `WithSubjects` keeps. A record changed through another reference after it reached `New` is outside the model.
- `SlogWrapper`, the `Server` struct and the `Manager` interface are defined in files of pkg/server this model does not cover. The adapter is modelled from what its test fixes. `SlogBridge.SlogWrapper.Log` is this model's own shared helper.
- pkg/server/server_public_test.go is written against another version of the package's API (an embedded engine options struct and a swappable constructor variable). It is not modelled. Its mock boundary matches the injected `Engine`.
- The repository's demo programs (examples/simple-server/main.go and the others beside it) are not modelled. They are glue: signal handling, process exit and credentials.
