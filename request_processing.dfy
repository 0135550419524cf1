/** Dispatch of server-pushed gRPC requests: a builder collects one handler
    per request type, and the processor it builds runs the handler
    registered for a request's exact type. Request types are named by tags
    and handlers by numbers. */
module RequestProcessing {
  import opened Wrappers
  import opened Errors

  /** A request's runtime type. */
  type TypeTag = string
  /** A handler delegate. */
  type HandlerId = nat

  /** `RequestProcessor`: the handler map it was built with, never changed. */
  datatype RequestProcessor = RequestProcessor(handleFunctions: map<TypeTag, HandlerId>) {
    /** `HandleAsync`: the handler of the request's type, or an unknown-message error. */
    function HandleAsync(requestType: TypeTag): (r: Outcome<HandlerId>)
      ensures r.Success? <==> requestType in handleFunctions
      ensures r.Success? ==> r.value == handleFunctions[requestType]
      ensures r.Failure? ==> r.error == UnknownMessage
    {
      if requestType in handleFunctions then Success(handleFunctions[requestType]) else Failure(UnknownMessage)
    }
  }

  /** The processor's constructor rejects a null map. */
  function NewRequestProcessor(handleFunctions: Option<map<TypeTag, HandlerId>>): (r: Outcome<RequestProcessor>)
    ensures handleFunctions.None? ==> r == Failure(ArgumentNull("handleFunctions"))
    ensures handleFunctions.Some? ==> r == Success(RequestProcessor(handleFunctions.value))
  {
    if handleFunctions.None? then Failure(ArgumentNull("handleFunctions")) else Success(RequestProcessor(handleFunctions.value))
  }

  /** `RegisterHandler<T>` on the map: a null handler and an already
      registered type are refused. */
  function RegisterSpec(m: map<TypeTag, HandlerId>, requestType: TypeTag, handler: Option<HandlerId>): (r: Outcome<map<TypeTag, HandlerId>>)
    ensures handler.None? ==> r == Failure(ArgumentNull("handler"))
    ensures r.Success? <==> handler.Some? && requestType !in m
    ensures handler.Some? && requestType in m ==> r == Failure(Argument(""))
  {
    if handler.None? then Failure(ArgumentNull("handler"))
    else if requestType in m then Failure(Argument(""))
    else Success(m[requestType := handler.value])
  }

  /** After a successful registration, the built processor sends requests
      of that type to the new handler and every other type where it went
      before. */
  lemma DispatchAfterRegister(m: map<TypeTag, HandlerId>, requestType: TypeTag, handler: HandlerId, t: TypeTag)
    requires RegisterSpec(m, requestType, Some(handler)).Success?
    ensures var p := RequestProcessor(RegisterSpec(m, requestType, Some(handler)).value);
            p.HandleAsync(t) == if t == requestType then Success(handler) else RequestProcessor(m).HandleAsync(t)
  {
  }

  /** The assembly registration loop on the map: the discovered handlers
      are added in order, and the first type already present stops it with
      the ones before it added; the flag says whether it got through. */
  function AddAll(m: map<TypeTag, HandlerId>, items: seq<(TypeTag, HandlerId)>): (map<TypeTag, HandlerId>, bool)
    decreases |items|
  {
    if items == [] then (m, true)
    else if items[0].0 in m then (m, false)
    else AddAll(m[items[0].0 := items[0].1], items[1..])
  }

  /** The discovered types are new and pairwise distinct. */
  predicate Fresh(m: map<TypeTag, HandlerId>, items: seq<(TypeTag, HandlerId)>) {
    && (forall i :: 0 <= i < |items| ==> items[i].0 !in m)
    && (forall i, j :: 0 <= i < j < |items| ==> items[i].0 != items[j].0)
  }

  /** Registration gets through exactly when every discovered type is new;
      it never drops or changes an entry already there, and when it gets
      through the map holds every discovered handler and nothing else new. */
  lemma {:induction false} AddAllSpec(m: map<TypeTag, HandlerId>, items: seq<(TypeTag, HandlerId)>)
    ensures AddAll(m, items).1 <==> Fresh(m, items)
    ensures forall t :: t in m ==> t in AddAll(m, items).0 && AddAll(m, items).0[t] == m[t]
    ensures AddAll(m, items).1 ==>
              (forall i :: 0 <= i < |items| ==> items[i].0 in AddAll(m, items).0 && AddAll(m, items).0[items[i].0] == items[i].1)
              && (forall t :: t in AddAll(m, items).0 ==> t in m || exists i :: 0 <= i < |items| && items[i].0 == t)
    decreases |items|
  {
    if items != [] && items[0].0 !in m {
      var m' := m[items[0].0 := items[0].1];
      AddAllSpec(m', items[1..]);
      var r := AddAll(m', items[1..]);
      if Fresh(m, items) {
        assert Fresh(m', items[1..]) by {
          forall i | 0 <= i < |items[1..]|
            ensures items[1..][i].0 !in m'
          {
            assert items[1..][i] == items[i + 1];
          }
          forall i, j | 0 <= i < j < |items[1..]|
            ensures items[1..][i].0 != items[1..][j].0
          {
            assert items[1..][i] == items[i + 1] && items[1..][j] == items[j + 1];
          }
        }
        forall i | 0 <= i < |items|
          ensures items[i].0 in r.0 && r.0[items[i].0] == items[i].1
        {
          if i > 0 {
            assert items[i] == items[1..][i - 1];
          }
        }
        forall t | t in r.0
          ensures t in m || exists i :: 0 <= i < |items| && items[i].0 == t
        {
          if t !in m' {
            var i :| 0 <= i < |items[1..]| && items[1..][i].0 == t;
            assert items[i + 1].0 == t;
          }
        }
      } else {
        if Fresh(m', items[1..]) {
          forall i | 0 <= i < |items|
            ensures items[i].0 !in m
          {
            if i > 0 {
              assert items[i] == items[1..][i - 1];
            }
          }
          forall i, j | 0 <= i < j < |items|
            ensures items[i].0 != items[j].0
          {
            assert items[j] == items[1..][j - 1];
            if i > 0 {
              assert items[i] == items[1..][i - 1];
            }
          }
          assert false;
        }
      }
    }
  }

  /** `RequestProcessorBuilder`: the handler map collected so far. */
  class RequestProcessorBuilder {
    var handleFunctions: map<TypeTag, HandlerId>

    /** The constructor starts from the handlers discovered in the given
        assemblies, or from an empty map when there are none. */
    constructor (discovered: map<TypeTag, HandlerId>)
      ensures handleFunctions == discovered
    {
      handleFunctions := discovered;
    }

    /** `RegisterHandler<T>`: chains by returning the builder itself; a
        refused registration leaves the map as it was. */
    method RegisterHandler(requestType: TypeTag, handler: Option<HandlerId>) returns (r: Outcome<RequestProcessorBuilder>)
      modifies this
      ensures var spec := RegisterSpec(old(handleFunctions), requestType, handler);
              && (spec.Success? ==> r == Success(this) && handleFunctions == spec.value)
              && (spec.Failure? ==> r == Failure(spec.error) && handleFunctions == old(handleFunctions))
    {
      if handler.None? {
        return Failure(ArgumentNull("handler"));
      }
      if requestType in handleFunctions {
        return Failure(Argument(""));
      }
      handleFunctions := handleFunctions[requestType := handler.value];
      return Success(this);
    }

    /** `RegisterHandler(Assembly)`: a null assembly is refused; the
        handlers discovered in it are added one by one, and the first type
        already registered throws with the earlier ones kept. */
    method RegisterAssembly(discovered: Option<seq<(TypeTag, HandlerId)>>) returns (r: Outcome<RequestProcessorBuilder>)
      modifies this
      ensures discovered.None? ==> r == Failure(ArgumentNull("assembly")) && handleFunctions == old(handleFunctions)
      ensures discovered.Some? ==> handleFunctions == AddAll(old(handleFunctions), discovered.value).0
      ensures discovered.Some? && AddAll(old(handleFunctions), discovered.value).1 ==> r == Success(this)
      ensures discovered.Some? && !AddAll(old(handleFunctions), discovered.value).1 ==> r == Failure(Argument(""))
    {
      if discovered.None? {
        return Failure(ArgumentNull("assembly"));
      }
      var items := discovered.value;
      var i := 0;
      while i < |items|
        invariant 0 <= i <= |items|
        invariant AddAll(handleFunctions, items[i..]) == AddAll(old(handleFunctions), items)
      {
        assert items[i..][1..] == items[i + 1..];
        if items[i].0 in handleFunctions {
          return Failure(Argument(""));
        }
        handleFunctions := handleFunctions[items[i].0 := items[i].1];
        i := i + 1;
      }
      return Success(this);
    }

    /** `Build`: a processor over the collected map. */
    method Build() returns (p: RequestProcessor)
      ensures p.handleFunctions == handleFunctions
      ensures forall t :: p.HandleAsync(t).Success? <==> t in handleFunctions
    {
      p := RequestProcessor(handleFunctions);
    }
  }
}
