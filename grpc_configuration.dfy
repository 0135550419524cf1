/** The gRPC configuration client: it reads a configuration with a query
    request, keeps the subscriptions of this process, tells the server
    which configurations it listens to, and answers the server's change
    notifications by fetching the new content and calling the callbacks. */
module GrpcConfigurationClients {
  import opened Wrappers
  import opened Errors
  import opened Descriptors
  import opened ServerUris
  import opened Subscriptions
  import opened GrpcClients
  import opened ListenRequests
  import opened Unsubscribers

  /** The unsubscribe action every handle of this client calls back. */
  const UNSUBSCRIBE_ACTION: Action := 0

  /** `GetConfigurationAsync` once the query reply is in: it must be a
      query response; a missing configuration is an error, anything else
      gives the descriptor the reply's content and md5. */
  function QueryOutcome(d: Descriptor, reply: Option<GrpcResponse>): (r: Outcome<Descriptor>)
    requires d.Valid()
    ensures r.Success? ==> r.value.Valid() && r.value.Identity() == d.Identity()
  {
    var typed := Typed(Classify(reply), ConfigQueryType);
    if typed.Failure? then Failure(typed.error)
    else if typed.value.errorCode == ERROR_CONFIGURATION_NOT_FOUND then Failure(ConfigurationNotFound)
    else Success(WithContentAndHash(d, typed.value.payload.content, typed.value.payload.md5))
  }

  /** The query succeeds exactly on a query response with error code 0, and
      then carries its content and md5; a missing configuration is reported
      as such only for a query response, and a reply of another type is a
      type mismatch. */
  lemma QueryOutcomeCases(d: Descriptor, reply: Option<GrpcResponse>)
    requires d.Valid()
    ensures QueryOutcome(d, reply).Success? <==>
              reply.Some? && reply.value.errorCode == ERROR_NONE && reply.value.payload.ConfigQueryReply?
    ensures QueryOutcome(d, reply).Success? ==>
              QueryOutcome(d, reply).value.content == reply.value.payload.content
              && QueryOutcome(d, reply).value.hash == reply.value.payload.md5
    ensures QueryOutcome(d, reply) == Failure(ConfigurationNotFound) <==>
              reply.Some? && reply.value.errorCode == ERROR_CONFIGURATION_NOT_FOUND && reply.value.payload.ConfigQueryReply?
    ensures reply.Some? && reply.value.errorCode in {ERROR_NONE, ERROR_CONFIGURATION_NOT_FOUND} && !reply.value.payload.ConfigQueryReply? ==>
              QueryOutcome(d, reply) == Failure(Nacos(ResponseTypeMismatch))
  {
  }

  /** What a change notification did: the callback calls made, in order,
      and the listen request made afterwards, if any. */
  datatype NotifyTrace = NotifyTrace(notified: seq<Notification>, relisten: Option<ListenMessage>)

  /** Every descriptor held is a valid one, filed under its own key. */
  ghost predicate Filed(m: map<int, Subscription>, hashCode: string -> int) {
    forall k :: k in m ==> m[k].descriptor.Valid() && Key(m[k].descriptor.Identity(), hashCode) == k
  }

  class ConfigurationGrpcClient {
    const client: GrpcClient
    const hashCode: string -> int
    var notifyCallbacks: map<int, Subscription>

    ghost predicate Valid()
      reads this, client, client.pool, client.pool.addresses
    {
      client.Valid() && WellFormed(notifyCallbacks) && Filed(notifyCallbacks, hashCode)
    }

    constructor (client: GrpcClient, hashCode: string -> int)
      requires client.Valid()
      ensures Valid() && this.client == client && this.hashCode == hashCode && notifyCallbacks == map[]
    {
      this.client := client;
      this.hashCode := hashCode;
      notifyCallbacks := map[];
    }

    /** `CheckInitiated` followed by `CheckDisposed`. */
    function Ready(): Outcome<()>
      reads client
    {
      if !client.isInitiated then Failure(Nacos(ClientNotInitiated))
      else if client.disposed then Failure(ObjectDisposed)
      else Success(())
    }

    /** What an untyped request gets back when `accessToken` is what the
        token service hands out and `reply` is the server's answer. */
    function Sent(accessToken: Outcome<string>, reply: Replier): Outcome<GrpcResponse>
      reads client
    {
      if client.transport.None? then Failure(Nacos(NoTransport))
      else if accessToken.Failure? then Failure(accessToken.error)
      else Classify(reply(client.transport.value.server, TokenHeader(accessToken.value)))
    }

    /** What `GetConfigurationAsync(d)` returns when `reply` is the server's answer. */
    function Fetch(d: Descriptor, accessToken: Outcome<string>, reply: Replier): (r: Outcome<Descriptor>)
      requires d.Valid()
      reads client
      ensures r.Success? ==> r.value.Valid() && r.value.Identity() == d.Identity()
    {
      if Ready().Failure? then Failure(Ready().error)
      else if client.transport.None? then Failure(Nacos(NoTransport))
      else if accessToken.Failure? then Failure(accessToken.error)
      else QueryOutcome(d, reply(client.transport.value.server, TokenHeader(accessToken.value)))
    }

    /** `GetConfigurationAsync`: the client must be initiated and not
        disposed; an expired access token throws before the query is
        sent; otherwise the query's outcome. */
    method GetConfiguration(d: Descriptor, accessToken: Outcome<string>, reply: Replier) returns (r: Outcome<Descriptor>)
      requires d.Valid()
      ensures r == Fetch(d, accessToken, reply)
      ensures !client.isInitiated ==> r == Failure(Nacos(ClientNotInitiated))
      ensures client.isInitiated && client.disposed ==> r == Failure(ObjectDisposed)
      ensures Ready().Success? && client.transport.Some? && accessToken.Failure? ==> r == Failure(accessToken.error)
      ensures Ready().Success? && client.transport.Some? && accessToken.Success? ==>
                r == QueryOutcome(d, reply(client.transport.value.server, TokenHeader(accessToken.value)))
    {
      var ready := Ready();
      if ready.Failure? {
        return Failure(ready.error);
      }
      var response := client.RequestTyped(accessToken, reply, ConfigQueryType);
      if response.Failure? {
        return Failure(response.error);
      }
      if response.value.errorCode == ERROR_CONFIGURATION_NOT_FOUND {
        return Failure(ConfigurationNotFound);
      }
      return Success(WithContentAndHash(d, response.value.payload.content, response.value.payload.md5));
    }

    /** `SubscribeConfigurationChangeAsync`: after the readiness checks the
        listen request goes out first; only when it succeeds is the callback
        added to the registry and a handle returned that will remove it. */
    method Subscribe(d: Descriptor, cb: Callback, accessToken: Outcome<string>, reply: Replier)
      returns (r: Outcome<ConfigurationChangeUnsubscriber>, requested: Option<ListenMessage>)
      requires Valid() && d.Valid()
      modifies this`notifyCallbacks
      ensures Valid()
      ensures Ready().Failure? ==> r == Failure(Ready().error) && requested.None? && notifyCallbacks == old(notifyCallbacks)
      ensures Ready().Success? ==> requested == Some(ListenFor(d, true))
      ensures Ready().Success? && Sent(accessToken, reply).Failure? ==>
                r == Failure(Sent(accessToken, reply).error) && notifyCallbacks == old(notifyCallbacks)
      ensures Ready().Success? && Sent(accessToken, reply).Success? ==>
                && notifyCallbacks == AddSpec(old(notifyCallbacks), Key(d.Identity(), hashCode), d, cb).0
                && r.Success? && fresh(r.value) && r.value.Valid() && r.value.isDisposed == 0
                && r.value.descriptor == Some(d) && r.value.notifyCallback == Some(cb)
                && r.value.unSubscriberAction == Some(UNSUBSCRIBE_ACTION)
    {
      var ready := Ready();
      if ready.Failure? {
        return Failure(ready.error), None;
      }
      var request := NewListenRequest(d, true);
      requested := Some(request.Message());
      var response := client.Request(accessToken, reply);
      if response.Failure? {
        return Failure(response.error), requested;
      }
      SpecPreservesWellFormed(notifyCallbacks, Key(d.Identity(), hashCode), d, cb);
      notifyCallbacks := AddSpec(notifyCallbacks, Key(d.Identity(), hashCode), d, cb).0;
      var u := new ConfigurationChangeUnsubscriber(d, cb, UNSUBSCRIBE_ACTION);
      r := Success(u);
    }

    /** `UnSubscribeConfigurationChange`: a null callback does nothing;
        otherwise the callback leaves the registry and a stop-listening
        request goes out whether or not other callbacks remain. */
    method UnSubscribe(d: Descriptor, cb: Option<Callback>, accessToken: Outcome<string>, reply: Replier)
      returns (r: Outcome<()>, requested: Option<ListenMessage>)
      requires Valid()
      modifies this`notifyCallbacks
      ensures Valid()
      ensures cb.None? ==> r == Success(()) && requested.None? && notifyCallbacks == old(notifyCallbacks)
      ensures cb.Some? ==> notifyCallbacks == RemoveSpec(old(notifyCallbacks), Key(d.Identity(), hashCode), cb.value).0
      ensures cb.Some? ==> requested == Some(ListenFor(d, false))
      ensures cb.Some? ==> (r.Success? <==> Sent(accessToken, reply).Success?)
      ensures cb.Some? && Sent(accessToken, reply).Failure? ==> r == Failure(Sent(accessToken, reply).error)
    {
      if cb.None? {
        return Success(()), None;
      }
      SpecPreservesWellFormed(notifyCallbacks, Key(d.Identity(), hashCode), d, cb.value);
      notifyCallbacks := RemoveSpec(notifyCallbacks, Key(d.Identity(), hashCode), cb.value).0;
      var request := NewListenRequest(d, false);
      requested := Some(request.Message());
      var response := client.Request(accessToken, reply);
      r := if response.Failure? then Failure(response.error) else Success(());
    }

    /** Calls every callback with `d`, in order; `failing` says which calls
        end in an exception. */
    method CallAll(callbacks: seq<Callback>, d: Descriptor, failing: Callback -> bool) returns (notified: seq<Notification>, anyFailed: bool)
      ensures notified == Notifications(callbacks, d)
      ensures anyFailed <==> exists j :: 0 <= j < |callbacks| && failing(callbacks[j])
    {
      notified := [];
      anyFailed := false;
      var i := 0;
      while i < |callbacks|
        invariant 0 <= i <= |callbacks|
        invariant |notified| == i && forall j :: 0 <= j < i ==> notified[j] == Notification(callbacks[j], d)
        invariant anyFailed <==> exists j :: 0 <= j < i && failing(callbacks[j])
      {
        notified := notified + [Notification(callbacks[i], d)];
        anyFailed := anyFailed || failing(callbacks[i]);
        i := i + 1;
      }
    }

    /** `OnConfigurationChangeNotify` for configuration `c`: an untracked
        configuration is ignored. Otherwise the new content is fetched, every
        callback is called with it, listening is renewed with the new md5,
        and only then does the registry hold the new descriptor; a failure at
        any step ends the handling and leaves the registry as it was.
        `queryToken` and `listenToken` are what the token service hands
        out when each of the two requests is made. */
    method Notify(c: UniqueConfiguration, queryToken: Outcome<string>, queryReply: Replier, failing: Callback -> bool,
                  listenToken: Outcome<string>, listenReply: Replier) returns (trace: NotifyTrace)
      requires Valid()
      modifies this`notifyCallbacks
      ensures Valid()
      ensures notifyCallbacks.Keys == old(notifyCallbacks).Keys
      ensures forall k :: k in notifyCallbacks ==>
                notifyCallbacks[k].callbacks == old(notifyCallbacks)[k].callbacks
                && notifyCallbacks[k].descriptor.Identity() == old(notifyCallbacks)[k].descriptor.Identity()
      ensures forall k :: k in notifyCallbacks && k != Key(c, hashCode) ==> notifyCallbacks[k] == old(notifyCallbacks)[k]
      ensures Key(c, hashCode) !in old(notifyCallbacks) ==> trace == NotifyTrace([], None)
      ensures Key(c, hashCode) in old(notifyCallbacks) ==>
                var s := old(notifyCallbacks)[Key(c, hashCode)];
                var fetched := Fetch(s.descriptor, queryToken, queryReply);
                && (fetched.Failure? ==> trace == NotifyTrace([], None) && notifyCallbacks == old(notifyCallbacks))
                && (fetched.Success? ==> trace.notified == Notifications(s.callbacks, fetched.value))
                && (fetched.Success? && (exists j :: 0 <= j < |s.callbacks| && failing(s.callbacks[j])) ==>
                      trace.relisten.None? && notifyCallbacks == old(notifyCallbacks))
                && (fetched.Success? && (forall j :: 0 <= j < |s.callbacks| ==> !failing(s.callbacks[j])) ==>
                      && trace.relisten == Some(ListenFor(fetched.value, true))
                      && (Sent(listenToken, listenReply).Failure? ==> notifyCallbacks == old(notifyCallbacks))
                      && (Sent(listenToken, listenReply).Success? ==>
                            notifyCallbacks == old(notifyCallbacks)[Key(c, hashCode) := s.(descriptor := fetched.value)]))
    {
      var key := Key(c, hashCode);
      if key !in notifyCallbacks {
        return NotifyTrace([], None);
      }
      var s := notifyCallbacks[key];
      var fetched := GetConfiguration(s.descriptor, queryToken, queryReply);
      if fetched.Failure? {
        return NotifyTrace([], None);
      }
      var notified, anyFailed := CallAll(s.callbacks, fetched.value, failing);
      if anyFailed {
        return NotifyTrace(notified, None);
      }
      var request := NewListenRequest(fetched.value, true);
      trace := NotifyTrace(notified, Some(request.Message()));
      var response := client.Request(listenToken, listenReply);
      if response.Success? {
        notifyCallbacks := notifyCallbacks[key := s.(descriptor := fetched.value)];
      }
    }

    /** `OnConnectionRestore`: one listen request for every configuration
        in a snapshot of the registry. */
    method OnConnectionRestore() returns (requested: seq<ListenMessage>)
      requires Valid()
      ensures |requested| == |notifyCallbacks|
      ensures forall k :: k in notifyCallbacks ==> ListenFor(notifyCallbacks[k].descriptor, true) in requested
      ensures forall i :: 0 <= i < |requested| ==>
                exists k :: k in notifyCallbacks && requested[i] == ListenFor(notifyCallbacks[k].descriptor, true)
    {
      requested := [];
      var rest := notifyCallbacks;
      while |rest| > 0
        invariant rest.Keys <= notifyCallbacks.Keys && forall k :: k in rest ==> rest[k] == notifyCallbacks[k]
        invariant |requested| + |rest| == |notifyCallbacks|
        invariant forall k :: k in notifyCallbacks && k !in rest ==> ListenFor(notifyCallbacks[k].descriptor, true) in requested
        invariant forall i :: 0 <= i < |requested| ==>
                    exists k :: k in notifyCallbacks && requested[i] == ListenFor(notifyCallbacks[k].descriptor, true)
        decreases |rest|
      {
        ghost var some := SomeKey(rest);
        var k :| k in rest;
        var request := NewListenRequest(rest[k].descriptor, true);
        ghost var before := requested;
        requested := requested + [request.Message()];
        forall i | 0 <= i < |requested|
          ensures exists k' :: k' in notifyCallbacks && requested[i] == ListenFor(notifyCallbacks[k'].descriptor, true)
        {
          if i < |before| {
            assert requested[i] == before[i];
          } else {
            assert requested[i] == ListenFor(notifyCallbacks[k].descriptor, true);
          }
        }
        rest := rest - {k};
      }
    }

    /** `Dispose`: the registry is emptied, then the transport is disposed. */
    method Dispose()
      requires Valid()
      modifies this, client
      ensures Valid() && notifyCallbacks == map[] && client.disposed
      ensures old(client.disposed) ==> client.cancelledSources == old(client.cancelledSources)
      ensures !old(client.disposed) ==>
                client.cancelledSources == old(client.cancelledSources)
                                           + (if client.connectionSource.Some? then {client.connectionSource.value} else {})
      ensures client.connectionSource == old(client.connectionSource) && client.sources == old(client.sources)
      ensures client.transport == old(client.transport) && client.isInitiated == old(client.isInitiated)
    {
      notifyCallbacks := map[];
      client.Dispose();
    }
  }
}
