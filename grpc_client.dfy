/** The gRPC transport: how a reply is classified, how a connection is
    found by trying the servers in turn and probing each new connection,
    the health check that watches it, and the reconnect loop that replaces
    it. */
module GrpcClients {
  import opened Wrappers
  import opened Errors
  import opened ServerUris
  import opened AddressPools
  import opened Scaling
  import opened AccessTokens
  import opened Text

  /** The codes of `NacosErrorCode`. */
  const ERROR_NONE: int := 0
  const ERROR_CONFIGURATION_NOT_FOUND: int := 300
  const ERROR_CONNECTION_UNREGISTERED: int := 301
  const ERROR_FORBIDDEN: int := 403
  /** `NacosResponse.IsSuccess` holds for this result code. */
  const RESULT_SUCCESS: int := 200
  /** The health checks made on a new connection before it is used. */
  const PROBE_COUNT: nat := 6
  /** Seconds waited before the first reconnect attempt. */
  const RECONNECT_FIRST_DELAY: int := 5

  /** The concrete response types the configuration client reads. */
  datatype Payload =
    | HealthCheckReply
    | ConfigQueryReply(content: Option<string>, md5: Option<string>)
    | ConfigChangeBatchListenReply
    | OtherReply(typeName: string)

  /** The response types a typed request may ask for. */
  datatype ResponseType = HealthCheckType | ConfigQueryType | ConfigChangeBatchListenType

  /** A deserialised `NacosResponse`. */
  datatype GrpcResponse = GrpcResponse(payload: Payload, resultCode: int, errorCode: int)

  /** `InternalRequestAsync` on what the reply deserialised to (`None` when
      it is null or not a response): the codes of success and of a missing
      configuration pass the response through, every other code raises its
      own error. */
  function Classify(reply: Option<GrpcResponse>): (r: Outcome<GrpcResponse>)
    ensures r.Success? <==> reply.Some? && reply.value.errorCode in {ERROR_NONE, ERROR_CONFIGURATION_NOT_FOUND}
    ensures r.Success? ==> r.value == reply.value
    ensures reply.None? ==> r == Failure(Nacos(BadResponse))
    ensures reply.Some? && reply.value.errorCode == ERROR_FORBIDDEN ==> r == Failure(Forbidden)
    ensures reply.Some? && reply.value.errorCode == ERROR_CONNECTION_UNREGISTERED ==> r == Failure(ConnectionUnRegistered)
    ensures reply.Some? && reply.value.errorCode !in {ERROR_NONE, ERROR_CONFIGURATION_NOT_FOUND, ERROR_FORBIDDEN, ERROR_CONNECTION_UNREGISTERED} ==>
              r == Failure(Nacos(UnknownResultCode))
  {
    if reply.None? then Failure(Nacos(BadResponse))
    else
      var code := reply.value.errorCode;
      if code == ERROR_NONE || code == ERROR_CONFIGURATION_NOT_FOUND then Success(reply.value)
      else if code == ERROR_FORBIDDEN then Failure(Forbidden)
      else if code == ERROR_CONNECTION_UNREGISTERED then Failure(ConnectionUnRegistered)
      else Failure(Nacos(UnknownResultCode))
  }

  /** The four ways a reply fails are told apart: the error names the code,
      or says that there was no usable response. */
  lemma ClassifyErrorsDistinct(a: Option<GrpcResponse>, b: Option<GrpcResponse>)
    requires Classify(a).Failure? && Classify(b).Failure? && Classify(a).error == Classify(b).error
    ensures a.None? <==> b.None?
    ensures a.Some? && a.value.errorCode in {ERROR_FORBIDDEN, ERROR_CONNECTION_UNREGISTERED} ==> b.value.errorCode == a.value.errorCode
  {
  }

  /** How a server answers a request, given the access token header the
      request carries, if any. */
  type Replier = (ServerUri, Option<string>) -> Option<GrpcResponse>

  /** The header `SetRequestAccessToken` sets: the token, unless it is
      blank, in which case the request goes out without one. */
  function TokenHeader(token: string): (h: Option<string>)
    ensures h.Some? <==> !IsBlank(token)
    ensures h.Some? ==> h.value == token
  {
    if IsBlank(token) then None else Some(token)
  }

  predicate OfType(p: Payload, t: ResponseType) {
    match t
    case HealthCheckType => p.HealthCheckReply?
    case ConfigQueryType => p.ConfigQueryReply?
    case ConfigChangeBatchListenType => p.ConfigChangeBatchListenReply?
  }

  /** The typed `RequestAsync<TResponse>`: a response of another type is an
      error. */
  function Typed(r: Outcome<GrpcResponse>, t: ResponseType): (typed: Outcome<GrpcResponse>)
    ensures typed.Success? <==> r.Success? && OfType(r.value.payload, t)
    ensures typed.Success? ==> typed == r
    ensures r.Failure? ==> typed == r
    ensures r.Success? && !OfType(r.value.payload, t) ==> typed == Failure(Nacos(ResponseTypeMismatch))
  {
    if r.Failure? then r
    else if OfType(r.value.payload, t) then r
    else Failure(Nacos(ResponseTypeMismatch))
  }

  /** A health check passes when it gets through classification with the
      success result code. */
  predicate HealthOk(reply: Option<GrpcResponse>) {
    var c := Classify(reply);
    c.Success? && c.value.resultCode == RESULT_SUCCESS
  }

  /** What the connect loop needs from outside: whether the channel to a
      server opens and the stream is set up at the `i`-th attempt, and what
      the `t`-th probing health check of that attempt replies. */
  datatype ConnectEnv = ConnectEnv(opens: (nat, ServerUri) -> bool, probes: (nat, nat) -> Option<GrpcResponse>)

  /** A probe's outcome that does not end the attempt: success, or an
      unregistered connection before the last probe. */
  predicate Tolerated(t: nat, c: Outcome<GrpcResponse>) {
    c.Success? || (c.error == ConnectionUnRegistered && t < PROBE_COUNT - 1)
  }

  /** Whether probes `t` to the last of attempt `i` all pass. */
  function ProbeFrom(e: ConnectEnv, i: nat, t: nat): bool
    decreases PROBE_COUNT - t
  {
    if t >= PROBE_COUNT then true
    else if !Tolerated(t, Classify(e.probes(i, t))) then false
    else ProbeFrom(e, i, t + 1)
  }

  /** The probe passes exactly when each of the six checks succeeds or,
      except the last, reports an unregistered connection. */
  lemma {:induction false} ProbeRule(e: ConnectEnv, i: nat, t: nat)
    requires t <= PROBE_COUNT
    ensures ProbeFrom(e, i, t) <==> forall u :: t <= u < PROBE_COUNT ==> Tolerated(u, Classify(e.probes(i, u)))
    decreases PROBE_COUNT - t
  {
    if t < PROBE_COUNT {
      ProbeRule(e, i, t + 1);
    }
  }

  /** A last probe that still finds the connection unregistered fails
      the attempt, whatever the earlier ones said. */
  lemma LastProbeUnregistered(e: ConnectEnv, i: nat)
    requires Classify(e.probes(i, PROBE_COUNT - 1)) == Failure(ConnectionUnRegistered)
    ensures !ProbeFrom(e, i, 0)
  {
    ProbeRule(e, i, 0);
  }

  /** The `i`-th attempt, with the pool at `start` before the first. */
  predicate AttemptConnects(addresses: seq<ServerUri>, start: nat, i: nat, e: ConnectEnv)
    requires start < |addresses|
  {
    e.opens(i, addresses[Advance(start, |addresses|, i)]) && ProbeFrom(e, i, 0)
  }

  /** `TryConnectServerAsync`: the first attempt from `i` on that connects,
      out of `max(count, 3)`, or none. */
  function ConnectFrom(addresses: seq<ServerUri>, start: nat, i: nat, e: ConnectEnv): Option<nat>
    requires start < |addresses|
    decreases Attempts(|addresses|) - i
  {
    if i >= Attempts(|addresses|) then None
    else if AttemptConnects(addresses, start, i, e) then Some(i)
    else ConnectFrom(addresses, start, i + 1, e)
  }

  /** The connect run finds the first attempt that connects, and finds
      none only when no attempt does. */
  lemma {:induction false} ConnectFromFinds(addresses: seq<ServerUri>, start: nat, i: nat, e: ConnectEnv)
    requires start < |addresses|
    ensures var k := ConnectFrom(addresses, start, i, e);
            && (k.Some? ==> i <= k.value < Attempts(|addresses|) && AttemptConnects(addresses, start, k.value, e))
            && (k.Some? ==> forall j :: i <= j < k.value ==> !AttemptConnects(addresses, start, j, e))
            && (k.None? ==> forall j :: i <= j < Attempts(|addresses|) ==> !AttemptConnects(addresses, start, j, e))
    decreases Attempts(|addresses|) - i
  {
    if i < Attempts(|addresses|) && !AttemptConnects(addresses, start, i, e) {
      ConnectFromFinds(addresses, start, i + 1, e);
    }
  }

  /** What `TryConnectServerAsync` returns: the new source when an
      attempt connects. */
  function ConnectResult(k: Option<nat>, source: nat): Outcome<nat> {
    if k.Some? then Success(source) else Failure(Nacos(AllServersTried))
  }

  /** The moves of the pool a connect run makes: one per failed attempt. */
  function ConnectMoves(addresses: seq<ServerUri>, start: nat, e: ConnectEnv): nat
    requires start < |addresses|
  {
    var k := ConnectFrom(addresses, start, 0, e);
    if k.Some? then k.value else Attempts(|addresses|)
  }

  /** If no server connects, every server was tried and the pool is back
      where it started once it has at least three servers. */
  lemma ConnectFailureTriesAll(addresses: seq<ServerUri>, start: nat, e: ConnectEnv)
    requires start < |addresses|
    requires ConnectFrom(addresses, start, 0, e).None?
    ensures ConnectMoves(addresses, start, e) >= |addresses|
    ensures forall j :: 0 <= j < Attempts(|addresses|) ==> !AttemptConnects(addresses, start, j, e)
    ensures |addresses| >= 3 ==> Advance(start, |addresses|, ConnectMoves(addresses, start, e)) == start
  {
    ConnectFromFinds(addresses, start, 0, e);
    if |addresses| >= 3 {
      AdvanceWithinRound(start, |addresses|, |addresses|);
    }
  }

  /** A server connection: the server and the cancellation source of the
      connection, numbered in creation order. */
  datatype Connection = Connection(server: ServerUri, source: nat)

  /** The options the constructor reads: the health-check interval in
      milliseconds and whether a host address accessor was given. */
  datatype GrpcOptions = GrpcOptions(healthCheckIntervalMs: int, hasHostAddressAccessor: bool)

  /** `NacosGrpcClient` over a fixed address pool. Cancellation sources are
      numbers: `sources` have been created, those in `cancelledSources`
      cancelled. Every connection source is linked to the running source,
      which only `Dispose` cancels, so all count as cancelled once the
      client is disposed. */
  class GrpcClient {
    const pool: FixedPool
    const healthCheckIntervalMs: int
    var transport: Option<Connection>
    var connectionSource: Option<nat>
    var sources: nat
    var cancelledSources: set<nat>
    var isInitiated: bool
    var disposed: bool

    ghost predicate Valid()
      reads this, pool, pool.addresses
    {
      && pool.Valid()
      && healthCheckIntervalMs >= 1000
      && (connectionSource.Some? ==> connectionSource.value < sources)
      && (transport.Some? ==> connectionSource == Some(transport.value.source))
      && (forall s :: s in cancelledSources ==> s < sources)
    }

    /** Whether cancellation source `s` is cancelled. */
    function Cancelled(s: nat): bool
      reads this
    {
      disposed || s in cancelledSources
    }

    constructor (pool: FixedPool, healthCheckIntervalMs: int)
      requires pool.Valid() && healthCheckIntervalMs >= 1000
      ensures Valid() && this.pool == pool && this.healthCheckIntervalMs == healthCheckIntervalMs
      ensures transport.None? && connectionSource.None? && sources == 0 && cancelledSources == {}
      ensures !isInitiated && !disposed
    {
      this.pool := pool;
      this.healthCheckIntervalMs := healthCheckIntervalMs;
      transport := None;
      connectionSource := None;
      sources := 0;
      cancelledSources := {};
      isInitiated := false;
      disposed := false;
    }

    /** The public constructor: missing options, a health-check interval
        under one second and a missing host address accessor are rejected. */
    static method Create(options: Option<GrpcOptions>, pool: FixedPool) returns (r: Outcome<GrpcClient>)
      requires pool.Valid()
      ensures options.None? ==> r == Failure(ArgumentNull("clientOptions"))
      ensures options.Some? && options.value.healthCheckIntervalMs < 1000 ==> r == Failure(ArgumentOutOfRange("clientOptions"))
      ensures options.Some? && options.value.healthCheckIntervalMs >= 1000 && !options.value.hasHostAddressAccessor ==>
                r == Failure(ArgumentOutOfRange("clientOptions"))
      ensures r.Success? <==> options.Some? && options.value.healthCheckIntervalMs >= 1000 && options.value.hasHostAddressAccessor
      ensures r.Success? ==> r.value.Valid() && r.value.pool == pool && r.value.healthCheckIntervalMs == options.value.healthCheckIntervalMs
                             && !r.value.isInitiated && r.value.transport.None?
    {
      if options.None? {
        return Failure(ArgumentNull("clientOptions"));
      }
      if options.value.healthCheckIntervalMs < 1000 {
        return Failure(ArgumentOutOfRange("clientOptions"));
      }
      if !options.value.hasHostAddressAccessor {
        return Failure(ArgumentOutOfRange("clientOptions"));
      }
      var client := new GrpcClient(pool, options.value.healthCheckIntervalMs);
      return Success(client);
    }

    /** `RequestAsync`: without a transport no request is sent; otherwise
        the access token is read first (`SetRequestAccessToken`), and an
        expired one throws before anything is sent; otherwise the reply the
        transport's server gives to the request with its token header is
        classified. */
    method Request(accessToken: Outcome<string>, reply: Replier) returns (r: Outcome<GrpcResponse>)
      ensures transport.None? ==> r == Failure(Nacos(NoTransport))
      ensures transport.Some? && accessToken.Failure? ==> r == Failure(accessToken.error)
      ensures transport.Some? && accessToken.Success? ==>
                r == Classify(reply(transport.value.server, TokenHeader(accessToken.value)))
    {
      if transport.None? {
        return Failure(Nacos(NoTransport));
      }
      if accessToken.Failure? {
        return Failure(accessToken.error);
      }
      var header := TokenHeader(accessToken.value);
      return Classify(reply(transport.value.server, header));
    }

    /** `RequestAsync<TResponse>`. */
    method RequestTyped(accessToken: Outcome<string>, reply: Replier, t: ResponseType) returns (r: Outcome<GrpcResponse>)
      ensures transport.None? ==> r == Failure(Nacos(NoTransport))
      ensures transport.Some? && accessToken.Failure? ==> r == Failure(accessToken.error)
      ensures transport.Some? && accessToken.Success? ==>
                r == Typed(Classify(reply(transport.value.server, TokenHeader(accessToken.value))), t)
    {
      var untyped := Request(accessToken, reply);
      r := Typed(untyped, t);
    }

    /** The probe loop of one connect attempt. */
    method Probe(e: ConnectEnv, i: nat) returns (ok: bool)
      ensures ok == ProbeFrom(e, i, 0)
    {
      var tryCount := 0;
      while tryCount <= PROBE_COUNT - 1
        invariant tryCount <= PROBE_COUNT
        invariant ProbeFrom(e, i, 0) == ProbeFrom(e, i, tryCount)
        decreases PROBE_COUNT - tryCount
      {
        var c := Classify(e.probes(i, tryCount));
        if c.Failure? {
          if c.error != ConnectionUnRegistered || tryCount == PROBE_COUNT - 1 {
            return false;
          }
        }
        tryCount := tryCount + 1;
      }
      return true;
    }

    /** The attempt loop of `TryConnectServerAsync`: the first of the
        `max(count, 3)` attempts that opens a channel and passes the probe,
        moving the pool on after every attempt that does not. */
    method ConnectAttempts(e: ConnectEnv) returns (k: Option<nat>)
      requires pool.Valid()
      modifies pool`index, pool`currentAddress
      ensures pool.Valid()
      ensures k == ConnectFrom(pool.addresses[..], old(pool.index), 0, e)
      ensures pool.index == Advance(old(pool.index), pool.addresses.Length, ConnectMoves(pool.addresses[..], old(pool.index), e))
    {
      ghost var addresses := pool.addresses[..];
      ghost var start := pool.index;
      var i := 0;
      while i < pool.count || i < 3
        invariant pool.Valid() && addresses == pool.addresses[..]
        invariant 0 <= i <= Attempts(pool.count)
        invariant pool.index == Advance(start, |addresses|, i)
        invariant ConnectFrom(addresses, start, 0, e) == ConnectFrom(addresses, start, i, e)
        decreases Attempts(pool.count) - i
      {
        var server := pool.currentAddress;
        var connected := false;
        if e.opens(i, server) {
          connected := Probe(e, i);
        }
        if connected {
          return Some(i);
        }
        var _ := pool.MoveNextAddress();
        AdvanceStep(start, |addresses|, i);
        i := i + 1;
      }
      return None;
    }

    /** `TryConnectServerAsync`: a new source is created; on a cancelled
        client nothing is tried; otherwise the first attempt that connects
        installs its server and source and returns the source, and if none
        does the source is cancelled and the call fails. */
    method TryConnect(e: ConnectEnv) returns (r: Outcome<nat>)
      requires Valid()
      modifies this, pool`index, pool`currentAddress
      ensures Valid()
      ensures sources == old(sources) + 1 && isInitiated == old(isInitiated) && disposed == old(disposed)
      ensures disposed ==> && r == Failure(OperationCanceled) && pool.index == old(pool.index)
                           && transport == old(transport) && connectionSource == old(connectionSource)
                           && cancelledSources == old(cancelledSources)
      ensures !disposed ==> r == ConnectResult(ConnectFrom(pool.addresses[..], old(pool.index), 0, e), old(sources))
      ensures !disposed ==> pool.index == Advance(old(pool.index), pool.addresses.Length, ConnectMoves(pool.addresses[..], old(pool.index), e))
      ensures !disposed && r.Success? ==> && transport == Some(Connection(pool.addresses[pool.index], old(sources)))
                                          && connectionSource == Some(old(sources)) && cancelledSources == old(cancelledSources)
      ensures !disposed && r.Failure? ==> && transport == old(transport) && connectionSource == old(connectionSource)
                                          && cancelledSources == old(cancelledSources) + {old(sources)}
    {
      var source := sources;
      sources := sources + 1;
      if disposed {
        return Failure(OperationCanceled);
      }
      var k := ConnectAttempts(e);
      if k.Some? {
        connectionSource := Some(source);
        transport := Some(Connection(pool.currentAddress, source));
        return Success(source);
      }
      cancelledSources := cancelledSources + {source};
      return Failure(Nacos(AllServersTried));
    }

    /** The health check watching the connection of `source`: before
        every check it stops when the source is cancelled, and it stops at
        the first check that fails or lacks the success code; once stopped
        it starts a reconnect. `rounds` bounds the checks modelled. */
    method HealthCheck(source: nat, replies: nat -> Option<GrpcResponse>, rounds: nat) returns (checks: nat, reconnecting: bool)
      requires Valid()
      modifies this`cancelledSources
      ensures Valid()
      ensures checks <= rounds
      ensures forall j :: 0 <= j < checks ==> HealthOk(replies(j))
      ensures var stopped := old(Cancelled(source)) || (checks < rounds && !HealthOk(replies(checks)));
              && (checks < rounds ==> stopped)
              && (stopped ==> reconnecting == !disposed)
              && (stopped && !disposed ==> cancelledSources == old(cancelledSources) + (if connectionSource.Some? then {connectionSource.value} else {}))
              && (!stopped ==> !reconnecting && cancelledSources == old(cancelledSources))
    {
      checks := 0;
      var stopped := Cancelled(source);
      while checks < rounds && !stopped
        invariant checks <= rounds && stopped == Cancelled(source)
        invariant cancelledSources == old(cancelledSources)
        invariant forall j :: 0 <= j < checks ==> HealthOk(replies(j))
        decreases rounds - checks
      {
        if !HealthOk(replies(checks)) {
          reconnecting := StartReconnect();
          return;
        }
        checks := checks + 1;
      }
      if stopped {
        reconnecting := StartReconnect();
      } else {
        reconnecting := false;
      }
    }

    /** The start of `StartReConnectServerLoop`: nothing once the client
        is cancelled, otherwise the current connection source is cancelled
        and the loop starts. */
    method StartReconnect() returns (started: bool)
      requires Valid()
      modifies this`cancelledSources
      ensures Valid()
      ensures started == !disposed
      ensures disposed ==> cancelledSources == old(cancelledSources)
      ensures !disposed ==> cancelledSources == old(cancelledSources) + (if connectionSource.Some? then {connectionSource.value} else {})
    {
      if disposed {
        return false;
      }
      if connectionSource.Some? {
        cancelledSources := cancelledSources + {connectionSource.value};
      }
      return true;
    }

    /** `TryDestroyChannel`: the transport is dropped. */
    method DestroyChannel()
      requires Valid()
      modifies this`transport
      ensures Valid() && transport.None?
    {
      transport := None;
    }

    /** The reconnect loop, for at most `rounds` attempts, the `k`-th
        connecting in `envs(k)`: the channel is dropped and a connection
        tried; the first that succeeds ends the loop with its source,
        each failure waits by the `Scaler(0, 10, 60)` schedule. `delays`
        holds the waits in seconds, the initial five first. */
    method ReconnectLoop(envs: nat -> ConnectEnv, rounds: nat) returns (delays: seq<int>, restored: Option<nat>)
      requires Valid()
      modifies this, pool`index, pool`currentAddress
      ensures Valid()
      ensures isInitiated == old(isInitiated) && disposed == old(disposed)
      ensures |delays| >= 1 && delays[0] == RECONNECT_FIRST_DELAY
      ensures forall j :: 1 <= j < |delays| ==> delays[j] == Min(10 * j, 60)
      ensures restored.Some? ==> transport.Some? && connectionSource == restored && restored.value < sources && !Cancelled(restored.value)
      ensures restored.None? ==> disposed || |delays| == rounds + 1
    {
      delays := [RECONNECT_FIRST_DELAY];
      restored := None;
      var scaler := new Scaler(0, 10, Some(60));
      var k := 0;
      while k < rounds && !disposed
        invariant Valid() && k <= rounds && |delays| == k + 1 && delays[0] == RECONNECT_FIRST_DELAY
        invariant isInitiated == old(isInitiated) && disposed == old(disposed)
        invariant forall j :: 1 <= j < |delays| ==> delays[j] == Min(10 * j, 60)
        invariant scaler.value == Min(10 * k, 60)
        invariant scaler.initValue == 0 && scaler.increaseValue == 10 && scaler.maxValue == Some(60)
        decreases rounds - k
      {
        DestroyChannel();
        var r := TryConnect(envs(k));
        if r.Success? {
          restored := Some(r.value);
          assert r.value == sources - 1;
          return;
        }
        scaler.Add();
        delays := delays + [scaler.value];
        k := k + 1;
      }
    }

    /** `InitAsync` with the outcomes of the address pool's and the token
        service's own initialisation: refused once disposed, a no-op once
        initiated; any failure, including finding no server, disposes the
        client. */
    method Init(poolInit: Outcome<()>, tokenInit: Outcome<()>, e: ConnectEnv) returns (r: Outcome<()>)
      requires Valid()
      modifies this, pool`index, pool`currentAddress
      ensures Valid()
      ensures old(disposed) ==> r == Failure(ObjectDisposed)
      ensures !old(disposed) && old(isInitiated) ==> r == Success(())
      ensures !old(disposed) && !old(isInitiated) && (poolInit.Failure? || tokenInit.Failure?) ==>
                r == Failure(Nacos(InitFailed)) && disposed && !isInitiated
      ensures r.Success? <==> !old(disposed) && (old(isInitiated) || (poolInit.Success? && tokenInit.Success?
                                && ConnectFrom(old(pool.addresses[..]), old(pool.index), 0, e).Some?))
      ensures r.Success? ==> isInitiated && !disposed
      ensures r.Failure? && !old(disposed) ==> disposed && !isInitiated && r == Failure(Nacos(InitFailed))
    {
      if disposed {
        return Failure(ObjectDisposed);
      }
      if isInitiated {
        return Success(());
      }
      if poolInit.Failure? || tokenInit.Failure? {
        Dispose();
        return Failure(Nacos(InitFailed));
      }
      var connected := TryConnect(e);
      if connected.Failure? {
        Dispose();
        return Failure(Nacos(InitFailed));
      }
      isInitiated := true;
      return Success(());
    }

    /** `Dispose`: the first call cancels the connection source and the
        running source; later calls change nothing. */
    method Dispose()
      requires Valid()
      modifies this
      ensures Valid() && disposed
      ensures old(disposed) ==> cancelledSources == old(cancelledSources)
      ensures !old(disposed) ==> cancelledSources == old(cancelledSources) + (if connectionSource.Some? then {connectionSource.value} else {})
      ensures isInitiated == old(isInitiated) && transport == old(transport) && connectionSource == old(connectionSource)
      ensures sources == old(sources)
    {
      if disposed {
        return;
      }
      disposed := true;
      if connectionSource.Some? {
        cancelledSources := cancelledSources + {connectionSource.value};
      }
    }
  }

  /** The first connecting attempt decides the connect run. */
  lemma {:induction false} ConnectFromFirst(addresses: seq<ServerUri>, start: nat, i: nat, k: nat, e: ConnectEnv)
    requires start < |addresses| && i <= k < Attempts(|addresses|)
    requires forall j :: i <= j < k ==> !AttemptConnects(addresses, start, j, e)
    requires AttemptConnects(addresses, start, k, e)
    ensures ConnectFrom(addresses, start, i, e) == Some(k)
    decreases k - i
  {
    if i < k {
      ConnectFromFirst(addresses, start, i + 1, k, e);
    }
  }
}
