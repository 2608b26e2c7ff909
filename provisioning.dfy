/**
 * Specification of the JetStream provisioner (setupJetStream in
 * pkg/server/server.go): what it asks the client library to do, in which
 * order, and what it reports.
 *
 * The client library is an oracle. Its answers to connecting and to
 * enabling JetStream are fixed outcomes; its answer to creating a stream is
 * looked up by the stream's position in the request list, and its answer to
 * creating a consumer by the pair (stream position, consumer position), so
 * that any engine behaviour on one request list can be described.
 *
 * The nested loop of the source visits the objects in one flat order,
 * `Plan`: each stream, then that stream's consumers, stream after stream.
 * `Setup` states the whole result in terms of that order and the first
 * object whose creation fails.
 */
module Provisioning {
  import opened Wrappers
  import opened JetStreamOptions

  /** The answer to one client library call. */
  datatype Outcome = Ok | Fail(cause: string)

  /** The client library's answers. */
  datatype Client = Client(
    connect: Outcome,
    jetStream: Outcome,
    addStream: nat -> Outcome,
    addConsumer: (nat, nat) -> Outcome)

  /** One call the provisioner makes on the client library. */
  datatype ClientCall =
    | Connect(host: string, port: int)
    | JetStream
    | AddStream(stream: StreamConfig)
    | AddConsumer(streamName: string, consumer: ConsumerConfig)
    | Close

  /** The errors setupJetStream returns. */
  datatype SetupError =
    | NoStreamConfig
    | ConnectFailed(cause: string)
    | JetStreamFailed(cause: string)
    | StreamFailed(stream: string, cause: string)
    | ConsumerFailed(stream: string, cause: string)
  {
    /** The error text; the cause is the wrapped error's own text. */
    function Message(): string {
      match this
      case NoStreamConfig => "jetstream is enabled but no stream configuration was provided"
      case ConnectFailed(c) => "error connecting to server: " + c
      case JetStreamFailed(c) => "error enabling jetstream: " + c
      case StreamFailed(s, c) => "error creating stream " + s + ": " + c
      case ConsumerFailed(s, c) => "error creating consumer for stream " + s + ": " + c
    }
  }

  /** A requested object: stream `i`, or consumer `j` of stream `i`. */
  datatype Target = StreamAt(i: nat) | ConsumerAt(i: nat, j: nat)

  predicate ValidTarget(streams: seq<StreamOptions>, t: Target) {
    match t
    case StreamAt(i) => i < |streams|
    case ConsumerAt(i, j) => i < |streams| && j < |streams[i].consumers|
  }

  /** Every object of `ts` exists in the request list. */
  predicate AllValid(streams: seq<StreamOptions>, ts: seq<Target>) {
    forall p :: 0 <= p < |ts| ==> ValidTarget(streams, ts[p])
  }

  /** The requested order: stream before its consumers, streams and consumers each in list order. */
  predicate Before(a: Target, b: Target) {
    if a.i != b.i then a.i < b.i
    else match (a, b)
      case (StreamAt(_), ConsumerAt(_, _)) => true
      case (ConsumerAt(_, j), ConsumerAt(_, k)) => j < k
      case _ => false
  }

  predicate Ordered(ts: seq<Target>) {
    forall p, q :: 0 <= p < q < |ts| ==> Before(ts[p], ts[q])
  }

  /** The first `n` consumers of stream `i`, in order. */
  function ConsumerTargets(i: nat, n: nat): (r: seq<Target>)
    ensures |r| == n
    ensures forall p :: 0 <= p < n ==> r[p] == ConsumerAt(i, p)
  {
    if n == 0 then [] else ConsumerTargets(i, n - 1) + [ConsumerAt(i, n - 1)]
  }

  /** The objects of the first `k` streams in the order the nested loop visits them. */
  function PlanPrefix(streams: seq<StreamOptions>, k: nat): (r: seq<Target>)
    requires k <= |streams|
    ensures AllValid(streams, r)
  {
    if k == 0 then []
    else PlanPrefix(streams, k - 1) + [StreamAt(k - 1)] + ConsumerTargets(k - 1, |streams[k - 1].consumers|)
  }

  /**
   * The objects the nested loop has visited once stream `i` is created and
   * its first `j` consumers are attached.
   */
  function Visited(streams: seq<StreamOptions>, i: nat, j: nat): (r: seq<Target>)
    requires i < |streams| && j <= |streams[i].consumers|
    ensures AllValid(streams, r)
  {
    if j == 0 then PlanPrefix(streams, i) + [StreamAt(i)]
    else Visited(streams, i, j - 1) + [ConsumerAt(i, j - 1)]
  }

  /** Every requested object, in the order the nested loop visits them. */
  function Plan(streams: seq<StreamOptions>): seq<Target> {
    PlanPrefix(streams, |streams|)
  }

  /** The client library's answer for one object. */
  function Answer(client: Client, t: Target): Outcome {
    match t
    case StreamAt(i) => client.addStream(i)
    case ConsumerAt(i, j) => client.addConsumer(i, j)
  }

  /** The position of the first object of `ts` whose creation fails, or |ts| when none fails. */
  function FirstFailure(client: Client, ts: seq<Target>): (k: nat)
    ensures k <= |ts|
    ensures forall p :: 0 <= p < k ==> Answer(client, ts[p]).Ok?
    ensures k < |ts| ==> Answer(client, ts[k]).Fail?
  {
    if |ts| == 0 then 0
    else if Answer(client, ts[0]).Fail? then 0
    else 1 + FirstFailure(client, ts[1..])
  }

  /** The creation call for one object. */
  function CallFor(streams: seq<StreamOptions>, t: Target): ClientCall
    requires ValidTarget(streams, t)
  {
    match t
    case StreamAt(i) => AddStream(streams[i].ToNATS())
    case ConsumerAt(i, j) => AddConsumer(streams[i].name, streams[i].consumers[j].ToNATS())
  }

  /** The creation calls for a list of objects, in order. */
  function Calls(streams: seq<StreamOptions>, ts: seq<Target>): seq<ClientCall>
    requires AllValid(streams, ts)
    decreases |ts|
  {
    if |ts| == 0 then []
    else Calls(streams, ts[..|ts| - 1]) + [CallFor(streams, ts[|ts| - 1])]
  }

  /** The error reported when creating `t` fails with `cause`. */
  function FailureError(streams: seq<StreamOptions>, t: Target, cause: string): SetupError
    requires ValidTarget(streams, t)
  {
    match t
    case StreamAt(i) => StreamFailed(streams[i].name, cause)
    case ConsumerAt(i, _) => ConsumerFailed(streams[i].name, cause)
  }

  /**
   * What one provisioning run reports: its error, the calls it made on the
   * client library, the objects whose creation it attempted and the objects
   * it created, each in order.
   */
  datatype Provisioned = Provisioned(
    err: Option<SetupError>,
    log: seq<ClientCall>,
    attempted: seq<Target>,
    created: seq<Target>)

  /** A provisioning run against the server at `host`:`port`. */
  function Setup(host: string, port: int, streams: seq<StreamOptions>, client: Client): Provisioned {
    if |streams| == 0 then Provisioned(Some(NoStreamConfig), [], [], [])
    else if client.connect.Fail? then
      Provisioned(Some(ConnectFailed(client.connect.cause)), [Connect(host, port)], [], [])
    else if client.jetStream.Fail? then
      Provisioned(Some(JetStreamFailed(client.jetStream.cause)), [Connect(host, port), JetStream, Close], [], [])
    else
      var plan := Plan(streams);
      var k := FirstFailure(client, plan);
      if k == |plan| then
        Provisioned(None, [Connect(host, port), JetStream] + Calls(streams, plan) + [Close], plan, plan)
      else
        Provisioned(
          Some(FailureError(streams, plan[k], Answer(client, plan[k]).cause)),
          [Connect(host, port), JetStream] + Calls(streams, plan[..k + 1]) + [Close],
          plan[..k + 1],
          plan[..k])
  }

  // ----- The requested order -----

  lemma ConsumerTargetsMembers(i: nat, n: nat, t: Target)
    ensures t in ConsumerTargets(i, n) <==> t.ConsumerAt? && t.i == i && t.j < n
  {
    if t.ConsumerAt? && t.i == i && t.j < n {
      assert ConsumerTargets(i, n)[t.j] == t;
    }
  }

  /** The plan of the first `k` streams holds exactly their stream and consumer objects. */
  lemma {:induction false} PlanPrefixMembers(streams: seq<StreamOptions>, k: nat, t: Target)
    requires k <= |streams|
    ensures t in PlanPrefix(streams, k) <==> ValidTarget(streams, t) && t.i < k
  {
    if k > 0 {
      var before := PlanPrefix(streams, k - 1);
      var consumers := ConsumerTargets(k - 1, |streams[k - 1].consumers|);
      assert PlanPrefix(streams, k) == before + [StreamAt(k - 1)] + consumers;
      assert t in PlanPrefix(streams, k) <==> t in before || t == StreamAt(k - 1) || t in consumers;
      PlanPrefixMembers(streams, k - 1, t);
      ConsumerTargetsMembers(k - 1, |streams[k - 1].consumers|, t);
    }
  }

  lemma OrderedConcat(a: seq<Target>, b: seq<Target>)
    requires Ordered(a) && Ordered(b)
    requires forall x, y :: x in a && y in b ==> Before(x, y)
    ensures Ordered(a + b)
  {
    forall p, q | 0 <= p < q < |a + b| ensures Before((a + b)[p], (a + b)[q]) {
      if q < |a| {
      } else if p >= |a| {
        assert (a + b)[p] == b[p - |a|] && (a + b)[q] == b[q - |a|];
      } else {
        assert (a + b)[p] in a && (a + b)[q] in b;
      }
    }
  }

  /** The nested loop's order is strictly the requested order. */
  lemma {:induction false} PlanPrefixOrdered(streams: seq<StreamOptions>, k: nat)
    requires k <= |streams|
    ensures Ordered(PlanPrefix(streams, k))
  {
    if k > 0 {
      PlanPrefixOrdered(streams, k - 1);
      var consumers := ConsumerTargets(k - 1, |streams[k - 1].consumers|);
      forall x, y | x in [StreamAt(k - 1)] && y in consumers ensures Before(x, y) {
        ConsumerTargetsMembers(k - 1, |streams[k - 1].consumers|, y);
      }
      OrderedConcat([StreamAt(k - 1)], consumers);
      forall x, y | x in PlanPrefix(streams, k - 1) && y in [StreamAt(k - 1)] + consumers
        ensures Before(x, y)
      {
        PlanPrefixMembers(streams, k - 1, x);
        ConsumerTargetsMembers(k - 1, |streams[k - 1].consumers|, y);
      }
      OrderedConcat(PlanPrefix(streams, k - 1), [StreamAt(k - 1)] + consumers);
      assert PlanPrefix(streams, k) == PlanPrefix(streams, k - 1) + ([StreamAt(k - 1)] + consumers);
    }
  }

  /** Plan holds every requested object exactly once and in the requested order. */
  lemma PlanIsRequestedOrder(streams: seq<StreamOptions>)
    ensures forall t :: t in Plan(streams) <==> ValidTarget(streams, t)
    ensures Ordered(Plan(streams))
  {
    forall t ensures t in Plan(streams) <==> ValidTarget(streams, t) {
      PlanPrefixMembers(streams, |streams|, t);
    }
    PlanPrefixOrdered(streams, |streams|);
  }

  lemma {:induction false} PlanPrefixGrows(streams: seq<StreamOptions>, k: nat, m: nat)
    requires k <= m <= |streams|
    ensures PlanPrefix(streams, k) <= PlanPrefix(streams, m)
    decreases m - k
  {
    if k < m {
      PlanPrefixGrows(streams, k, m - 1);
    }
  }

  /** The visited objects are the first `i` streams' plan, stream `i`, then its first `j` consumers. */
  lemma {:induction false} VisitedIs(streams: seq<StreamOptions>, i: nat, j: nat)
    requires i < |streams| && j <= |streams[i].consumers|
    ensures Visited(streams, i, j) == PlanPrefix(streams, i) + [StreamAt(i)] + ConsumerTargets(i, j)
  {
    if j > 0 {
      VisitedIs(streams, i, j - 1);
    }
  }

  /** Once every consumer of stream `i` is attached, the first `i + 1` streams are done. */
  lemma VisitedAll(streams: seq<StreamOptions>, i: nat)
    requires i < |streams|
    ensures Visited(streams, i, |streams[i].consumers|) == PlanPrefix(streams, i + 1)
  {
    VisitedIs(streams, i, |streams[i].consumers|);
  }

  /** While stream `i` has had `j` consumers attached, the objects visited so far start the plan. */
  lemma PlanReaches(streams: seq<StreamOptions>, i: nat, j: nat)
    requires i < |streams| && j <= |streams[i].consumers|
    ensures PlanPrefix(streams, i) + [StreamAt(i)] + ConsumerTargets(i, j) <= Plan(streams)
  {
    var n := |streams[i].consumers|;
    var all := ConsumerTargets(i, n);
    assert ConsumerTargets(i, j) == all[..j];
    assert PlanPrefix(streams, i + 1) == PlanPrefix(streams, i) + [StreamAt(i)] + all;
    PlanPrefixGrows(streams, i + 1, |streams|);
  }

  // ----- Call logs -----

  lemma {:induction false} CallsAreCreations(streams: seq<StreamOptions>, ts: seq<Target>)
    requires AllValid(streams, ts)
    ensures |Calls(streams, ts)| == |ts|
    ensures forall p :: 0 <= p < |ts| ==> Calls(streams, ts)[p] == CallFor(streams, ts[p])
    decreases |ts|
  {
    if |ts| > 0 {
      CallsAreCreations(streams, ts[..|ts| - 1]);
    }
  }

  /** The creation calls for a prefix of the objects are a prefix of their creation calls. */
  lemma CallsPrefix(streams: seq<StreamOptions>, ts: seq<Target>, us: seq<Target>)
    requires AllValid(streams, us)
    requires ts <= us
    ensures Calls(streams, ts) <= Calls(streams, us)
  {
    CallsAreCreations(streams, ts);
    CallsAreCreations(streams, us);
  }

  /** In the log of a run that connected, Close comes last and nowhere else. */
  lemma ConnectedClosesOnce(host: string, port: int, streams: seq<StreamOptions>, ts: seq<Target>)
    requires AllValid(streams, ts)
    ensures var log := [Connect(host, port), JetStream] + Calls(streams, ts) + [Close];
      && log[|log| - 1] == Close
      && forall p :: 0 <= p < |log| - 1 ==> log[p] != Close
  {
    var mid := Calls(streams, ts);
    CallsAreCreations(streams, ts);
    var log := [Connect(host, port), JetStream] + mid + [Close];
    forall p | 2 <= p < |log| - 1 ensures log[p] != Close {
      assert log[p] == mid[p - 2] == CallFor(streams, ts[p - 2]);
    }
  }

  // ----- Properties of a provisioning run -----

  /**
   * The objects attempted are a prefix of the requested order; the objects
   * created are the attempted ones with at most the last one missing; each
   * created object was answered Ok; and the log's creation calls are those
   * of the attempted objects. Nothing removes an object once created.
   */
  lemma SetupFollowsPlan(host: string, port: int, streams: seq<StreamOptions>, client: Client)
    ensures var r := Setup(host, port, streams, client);
      && r.attempted <= Plan(streams)
      && r.created <= r.attempted
      && |r.attempted| <= |r.created| + 1
      && (forall p :: 0 <= p < |r.created| ==> Answer(client, r.created[p]).Ok?)
      && (|r.log| >= 3 ==> r.log[2..|r.log| - 1] == Calls(streams, r.attempted))
      && Calls(streams, r.attempted) <= Calls(streams, Plan(streams))
  {
    var r := Setup(host, port, streams, client);
    CallsPrefix(streams, r.attempted, Plan(streams));
  }

  /**
   * A run that fails at a creation call fails at the first object whose
   * creation fails: the error names that object's stream and its cause, it
   * is a consumer error exactly when that object is a consumer, and no later
   * object is attempted.
   */
  lemma SetupStopsAtFirstFailure(host: string, port: int, streams: seq<StreamOptions>, client: Client)
    requires var r := Setup(host, port, streams, client);
      r.err.Some? && (r.err.value.StreamFailed? || r.err.value.ConsumerFailed?)
    ensures var r := Setup(host, port, streams, client);
      var plan := Plan(streams);
      var k := |r.created|;
      && k < |plan| && r.created == plan[..k] && r.attempted == plan[..k + 1]
      && (forall p :: 0 <= p < k ==> Answer(client, plan[p]).Ok?)
      && Answer(client, plan[k]).Fail?
      && r.err.value.stream == streams[plan[k].i].name
      && r.err.value.cause == Answer(client, plan[k]).cause
      && (r.err.value.ConsumerFailed? <==> plan[k].ConsumerAt?)
  {
  }

  /** A run succeeds exactly when every call it makes is answered Ok. */
  lemma SetupSucceedsIff(host: string, port: int, streams: seq<StreamOptions>, client: Client)
    ensures Setup(host, port, streams, client).err.None? <==>
        && |streams| > 0 && client.connect.Ok? && client.jetStream.Ok?
        && forall t :: t in Plan(streams) ==> Answer(client, t).Ok?
  {
    var plan := Plan(streams);
    if |streams| > 0 && client.connect.Ok? && client.jetStream.Ok? {
      var k := FirstFailure(client, plan);
      if k < |plan| {
        assert plan[k] in plan && Answer(client, plan[k]).Fail?;
      } else {
        forall t | t in plan ensures Answer(client, t).Ok? {
          var p :| 0 <= p < |plan| && plan[p] == t;
        }
      }
    }
  }

  /** A successful run attempted and created every requested object. */
  lemma SetupSuccessCreatesAll(host: string, port: int, streams: seq<StreamOptions>, client: Client)
    requires Setup(host, port, streams, client).err.None?
    ensures var r := Setup(host, port, streams, client);
      r.attempted == Plan(streams) && r.created == Plan(streams)
  {
  }

  /**
   * Failing to connect or to enable JetStream is reported before any object
   * is attempted; once connected, the connection is closed exactly once, as
   * the last call, on every path.
   */
  lemma SetupConnectionHandling(host: string, port: int, streams: seq<StreamOptions>, client: Client)
    requires |streams| > 0
    ensures var r := Setup(host, port, streams, client);
      && r.log[0] == Connect(host, port)
      && (client.connect.Fail? ==>
            r.log == [Connect(host, port)] && r.attempted == []
            && r.err == Some(ConnectFailed(client.connect.cause)))
      && (client.connect.Ok? && client.jetStream.Fail? ==>
            r.log == [Connect(host, port), JetStream, Close] && r.attempted == []
            && r.err == Some(JetStreamFailed(client.jetStream.cause)))
      && (client.connect.Ok? ==>
            r.log[|r.log| - 1] == Close && forall p :: 0 <= p < |r.log| - 1 ==> r.log[p] != Close)
  {
    if client.connect.Ok? && client.jetStream.Ok? {
      var plan := Plan(streams);
      var k := FirstFailure(client, plan);
      if k == |plan| {
        ConnectedClosesOnce(host, port, streams, plan);
      } else {
        ConnectedClosesOnce(host, port, streams, plan[..k + 1]);
      }
    }
  }

  /** FirstFailure is the least failing position. */
  lemma FirstFailureAt(client: Client, ts: seq<Target>, k: nat)
    requires k < |ts|
    requires forall p :: 0 <= p < k ==> Answer(client, ts[p]).Ok?
    requires Answer(client, ts[k]).Fail?
    ensures FirstFailure(client, ts) == k
  {
  }

  /** When every object of `ts` is answered Ok, no failure is found. */
  lemma {:induction false} FirstFailureNone(client: Client, ts: seq<Target>)
    requires forall p :: 0 <= p < |ts| ==> Answer(client, ts[p]).Ok?
    ensures FirstFailure(client, ts) == |ts|
  {
    if |ts| > 0 {
      assert forall p :: 0 <= p < |ts| - 1 ==> ts[1..][p] == ts[p + 1];
      FirstFailureNone(client, ts[1..]);
    }
  }

  /** When `ts` starts with objects answered Ok and then a failing `t`, the first failure is at `t`. */
  lemma FirstFailureAfter(client: Client, ts: seq<Target>, done: seq<Target>, t: Target)
    requires done + [t] <= ts
    requires forall x :: x in done ==> Answer(client, x).Ok?
    requires Answer(client, t).Fail?
    ensures FirstFailure(client, ts) == |done|
    ensures ts[..|done|] == done && ts[..|done| + 1] == done + [t]
  {
    var k := |done|;
    assert ts[k] == (done + [t])[k];
    forall p | 0 <= p < k ensures Answer(client, ts[p]).Ok? {
      assert ts[p] == (done + [t])[p] == done[p];
      assert done[p] in done;
    }
    FirstFailureAt(client, ts, k);
    assert ts[..k] == done;
    assert ts[..k + 1] == done + [t];
  }

  /**
   * When stream `i` is the first object to fail, every earlier stream and
   * its consumers stay created, the error names stream `i`, and none of its
   * consumers is attempted.
   */
  lemma StreamFailureAt(host: string, port: int, streams: seq<StreamOptions>, client: Client, i: nat)
    requires client.connect.Ok? && client.jetStream.Ok?
    requires i < |streams|
    requires forall t :: t in PlanPrefix(streams, i) ==> Answer(client, t).Ok?
    requires client.addStream(i).Fail?
    ensures var r := Setup(host, port, streams, client);
      && r.err == Some(StreamFailed(streams[i].name, client.addStream(i).cause))
      && r.created == PlanPrefix(streams, i)
      && r.attempted == PlanPrefix(streams, i) + [StreamAt(i)]
      && r.log == [Connect(host, port), JetStream] + Calls(streams, r.attempted) + [Close]
  {
    var done := PlanPrefix(streams, i);
    assert done + [StreamAt(i)] <= Plan(streams) by {
      PlanReaches(streams, i, 0);
      assert done + [StreamAt(i)] + ConsumerTargets(i, 0) == done + [StreamAt(i)];
    }
    FirstFailureAfter(client, Plan(streams), done, StreamAt(i));
  }

  /**
   * When consumer `j` of stream `i` is the first object to fail, the stream
   * and its earlier consumers stay created and the error names stream `i`
   * as the stream the consumer was being attached to.
   */
  lemma ConsumerFailureAt(host: string, port: int, streams: seq<StreamOptions>, client: Client, i: nat, j: nat)
    requires client.connect.Ok? && client.jetStream.Ok?
    requires i < |streams| && j < |streams[i].consumers|
    requires forall t :: t in PlanPrefix(streams, i) ==> Answer(client, t).Ok?
    requires client.addStream(i).Ok?
    requires forall p :: 0 <= p < j ==> client.addConsumer(i, p).Ok?
    requires client.addConsumer(i, j).Fail?
    ensures var r := Setup(host, port, streams, client);
      && r.err == Some(ConsumerFailed(streams[i].name, client.addConsumer(i, j).cause))
      && r.created == PlanPrefix(streams, i) + [StreamAt(i)] + ConsumerTargets(i, j)
      && r.attempted == PlanPrefix(streams, i) + [StreamAt(i)] + ConsumerTargets(i, j + 1)
      && r.log == [Connect(host, port), JetStream] + Calls(streams, r.attempted) + [Close]
  {
    var before := PlanPrefix(streams, i);
    var done := before + [StreamAt(i)] + ConsumerTargets(i, j);
    assert done + [ConsumerAt(i, j)] == before + [StreamAt(i)] + ConsumerTargets(i, j + 1);
    PlanReaches(streams, i, j + 1);
    forall x | x in done ensures Answer(client, x).Ok? {
      ConsumerTargetsMembers(i, j, x);
    }
    FirstFailureAfter(client, Plan(streams), done, ConsumerAt(i, j));
  }
}
