/** The factory of the HTTP clients the configuration client uses. Every
    client shares the factory's current handler and counts as a reference
    to it; the factory replaces the handler every four minutes, and a
    replaced handler is disposed once it is no longer referenced. */
module HttpClientFactories {
  import opened Wrappers
  import opened Errors
  import opened ServerUris

  /** A handler's reference count, whether it takes no more references,
      and whether it has been disposed. */
  datatype HandlerState = HandlerState(referenceCount: int, disposeReady: bool, disposed: bool)

  const NEW_HANDLER := HandlerState(0, false, false)

  /** `IncrementReference`: counts one more reference unless the handler is
      ready to be disposed, which is refused. */
  function Increment(h: HandlerState): (r: Outcome<HandlerState>)
    ensures r.Success? <==> !h.disposeReady
    ensures r.Success? ==> r.value == h.(referenceCount := h.referenceCount + 1)
    ensures r.Failure? ==> r.error == InvalidOperation
  {
    if !h.disposeReady then Success(h.(referenceCount := h.referenceCount + 1)) else Failure(InvalidOperation)
  }

  /** `DecrementReference`: counts one reference less, and disposes the
      handler when that reaches zero on a handler ready to go. */
  function Decrement(h: HandlerState): (r: HandlerState)
    ensures r.referenceCount == h.referenceCount - 1 && r.disposeReady == h.disposeReady
    ensures r.disposed <==> h.disposed || (r.referenceCount == 0 && h.disposeReady)
  {
    var count := h.referenceCount - 1;
    h.(referenceCount := count, disposed := h.disposed || (count == 0 && h.disposeReady))
  }

  /** `MakeDisposeReady`: no more references are taken, and an unreferenced
      handler is disposed at once. */
  function MakeReady(h: HandlerState): (r: HandlerState)
    ensures r.referenceCount == h.referenceCount && r.disposeReady
    ensures r.disposed <==> h.disposed || h.referenceCount == 0
  {
    h.(disposeReady := true, disposed := h.disposed || h.referenceCount == 0)
  }

  /** What holds of every handler whose references are all counted: it is
      disposed only once ready, and a ready handler without references is
      disposed. */
  predicate Consistent(h: HandlerState) {
    (h.disposed ==> h.disposeReady) && (h.disposeReady && h.referenceCount == 0 ==> h.disposed)
  }

  /** The three transitions keep a handler consistent. */
  lemma TransitionsKeepConsistent(h: HandlerState)
    requires Consistent(h)
    ensures Increment(h).Success? ==> Consistent(Increment(h).value)
    ensures Consistent(Decrement(h)) && Consistent(MakeReady(h))
  {
  }

  /** How many of the clients made on a handler are not yet disposed. */
  function LiveCount(clients: seq<bool>): (n: nat)
    ensures n <= |clients|
  {
    if clients == [] then 0 else (if clients[0] then 0 else 1) + LiveCount(clients[1..])
  }

  lemma {:induction false} LiveCountAppend(clients: seq<bool>, disposed: bool)
    ensures LiveCount(clients + [disposed]) == LiveCount(clients) + (if disposed then 0 else 1)
    decreases |clients|
  {
    if clients != [] {
      assert (clients + [disposed])[1..] == clients[1..] + [disposed];
      LiveCountAppend(clients[1..], disposed);
    }
  }

  lemma {:induction false} LiveCountDispose(clients: seq<bool>, i: nat)
    requires i < |clients| && !clients[i]
    ensures LiveCount(clients[i := true]) == LiveCount(clients) - 1
    decreases |clients|
  {
    if i > 0 {
      assert clients[i := true][1..] == clients[1..][i - 1 := true];
      LiveCountDispose(clients[1..], i - 1);
    }
  }

  /** A handler and the dispose flags of the clients made on it. */
  datatype Shared = Shared(handler: HandlerState, clients: seq<bool>)

  /** The count is the number of live clients, the handler is consistent,
      and it is never disposed while a client still uses it. */
  predicate Sound(s: Shared) {
    && s.handler.referenceCount == LiveCount(s.clients)
    && Consistent(s.handler)
    && (s.handler.disposed ==> LiveCount(s.clients) == 0)
  }

  /** A client made on the handler, if it takes one more reference. */
  function CreateClientOn(s: Shared): Outcome<Shared> {
    var h := Increment(s.handler);
    if h.Failure? then Failure(h.error) else Success(Shared(h.value, s.clients + [false]))
  }

  /** `CountingNacosHttpClient.Dispose(bool)` as written: every call gives
      back a reference, even on a client already disposed. */
  function DisposeClientAsWritten(s: Shared, i: nat): (r: Shared)
    requires i < |s.clients|
    ensures |r.clients| == |s.clients| && r.clients[i]
    ensures forall j :: 0 <= j < |s.clients| && j != i ==> r.clients[j] == s.clients[j]
    ensures r.handler.referenceCount == s.handler.referenceCount - 1
  {
    Shared(Decrement(s.handler), s.clients[i := true])
  }

  /** The client's dispose as intended: only the first call gives back its
      reference. */
  function DisposeClient(s: Shared, i: nat): Shared
    requires i < |s.clients|
  {
    if s.clients[i] then s else Shared(Decrement(s.handler), s.clients[i := true])
  }

  /** The handler being replaced. */
  function Retire(s: Shared): Shared {
    s.(handler := MakeReady(s.handler))
  }

  /** Making clients, disposing them (once each) and retiring the handler
      keep it sound: it is never disposed under a live client. */
  lemma SoundPreserved(s: Shared, i: nat)
    requires Sound(s)
    ensures CreateClientOn(s).Success? ==> Sound(CreateClientOn(s).value)
    ensures i < |s.clients| ==> Sound(DisposeClient(s, i))
    ensures Sound(Retire(s))
  {
    LiveCountAppend(s.clients, false);
    if i < |s.clients| && !s.clients[i] {
      LiveCountDispose(s.clients, i);
    }
  }

  /** A fresh handler with no clients is sound. */
  lemma NewHandlerSound()
    ensures Sound(Shared(NEW_HANDLER, []))
  {
  }

  /** As written, disposing one client twice lets the handler be disposed
      while another client still uses it: two clients, the first disposed
      twice, then the handler is replaced. */
  lemma DoubleDisposeReleasesLiveHandler()
    ensures var s0 := Shared(NEW_HANDLER, []);
            var s1 := CreateClientOn(s0).value;
            var s2 := CreateClientOn(s1).value;
            var s3 := DisposeClientAsWritten(DisposeClientAsWritten(s2, 0), 0);
            var s4 := Retire(s3);
            s4.handler.disposed && LiveCount(s4.clients) == 1
  {
    var s0 := Shared(NEW_HANDLER, []);
    var s2 := CreateClientOn(CreateClientOn(s0).value).value;
    assert s2.clients == [false, false];
    var s3 := DisposeClientAsWritten(DisposeClientAsWritten(s2, 0), 0);
    assert s3.clients == [true, false];
    assert LiveCount(s3.clients) == LiveCount([false]) == 1;
  }

  /** `CountingNacosHttpClientHandler`. */
  class CountingHandler {
    var referenceCount: int
    var disposeReady: bool
    var disposed: bool

    function State(): HandlerState
      reads this
    {
      HandlerState(referenceCount, disposeReady, disposed)
    }

    constructor ()
      ensures State() == NEW_HANDLER
    {
      referenceCount, disposeReady, disposed := 0, false, false;
    }

    method IncrementReference() returns (r: Outcome<()>)
      modifies this
      ensures Increment(old(State())).Success? ==> r == Success(()) && State() == Increment(old(State())).value
      ensures Increment(old(State())).Failure? ==> r == Failure(InvalidOperation) && State() == old(State())
    {
      if !disposeReady {
        referenceCount := referenceCount + 1;
        return Success(());
      }
      return Failure(InvalidOperation);
    }

    method DecrementReference()
      modifies this
      ensures State() == Decrement(old(State()))
    {
      referenceCount := referenceCount - 1;
      if referenceCount == 0 && disposeReady {
        disposed := true;
      }
    }

    method MakeDisposeReady()
      modifies this
      ensures State() == MakeReady(old(State()))
    {
      disposeReady := true;
      if referenceCount == 0 {
        disposed := true;
      }
    }
  }

  /** `CountingNacosHttpClient`: a client that holds a reference to its
      handler and gives it back when disposed, once. */
  class CountingClient {
    const handler: CountingHandler
    /** `BaseAddress`, null until the factory sets it. */
    var baseAddress: Option<Uri>
    var disposed: bool

    constructor (handler: CountingHandler)
      ensures this.handler == handler && baseAddress.None? && !disposed
    {
      this.handler := handler;
      baseAddress := None;
      disposed := false;
    }

    method Dispose()
      modifies this, handler
      ensures disposed
      ensures old(disposed) ==> handler.State() == old(handler.State())
      ensures !old(disposed) ==> handler.State() == Decrement(old(handler.State()))
    {
      if !disposed {
        disposed := true;
        handler.DecrementReference();
      }
    }
  }

  /** `DefaultNacosUnderlyingHttpClientFactory`. */
  class HttpClientFactory {
    var disposed: bool
    var handler: CountingHandler

    /** The current handler takes references exactly while the factory is
        not disposed. */
    ghost predicate Valid()
      reads this, handler
    {
      handler.disposeReady == disposed && Consistent(handler.State())
    }

    constructor ()
      ensures Valid() && !disposed && fresh(handler) && handler.State() == NEW_HANDLER
    {
      disposed := false;
      handler := new CountingHandler();
    }

    /** `CreateClient`: refused once disposed; otherwise a client on the
        current handler, which counts one more reference, gets the server's
        HTTP address. The reference is taken before the address is built,
        so when building it throws, the reference stays taken. */
    method CreateClient(uri: ServerUri) returns (r: Outcome<CountingClient>)
      requires Valid()
      modifies handler
      ensures Valid()
      ensures disposed ==> r == Failure(ObjectDisposed) && handler.State() == old(handler.State())
      ensures !disposed ==> handler.State() == old(handler.State()).(referenceCount := old(handler.referenceCount) + 1)
      ensures !disposed && uri.HttpUri().Failure? ==> r == Failure(uri.HttpUri().error)
      ensures !disposed && uri.HttpUri().Success? ==>
                && r.Success? && fresh(r.value) && r.value.handler == handler && !r.value.disposed
                && r.value.baseAddress == Some(uri.HttpUri().value)
    {
      if disposed {
        return Failure(ObjectDisposed);
      }
      var client := new CountingClient(handler);
      var _ := handler.IncrementReference();
      var address := uri.HttpUri();
      if address.Failure? {
        return Failure(address.error);
      }
      client.baseAddress := Some(address.value);
      return Success(client);
    }

    /** One tick of the four-minute timer: a new handler takes over and the
        old one is disposed once its clients are. The timer stops with the
        factory. */
    method SwapHandler() returns (retired: CountingHandler)
      requires Valid()
      modifies this, handler
      ensures Valid() && disposed == old(disposed)
      ensures old(disposed) ==> handler == old(handler) && retired == handler && handler.State() == old(handler.State())
      ensures !old(disposed) ==> && fresh(handler) && handler.State() == NEW_HANDLER && retired == old(handler)
                                 && retired.State() == MakeReady(old(handler.State()))
    {
      retired := handler;
      if disposed {
        return;
      }
      handler := new CountingHandler();
      retired.MakeDisposeReady();
    }

    /** `Dispose`: the first call retires the current handler; later calls
        do nothing. */
    method Dispose()
      requires Valid()
      modifies this, handler
      ensures Valid() && disposed && handler == old(handler)
      ensures old(disposed) ==> handler.State() == old(handler.State())
      ensures !old(disposed) ==> handler.State() == MakeReady(old(handler.State()))
    {
      if !disposed {
        disposed := true;
        handler.MakeDisposeReady();
      }
    }
  }
}
