/** The middleware pipeline around the configuration fetch: each middleware
    wraps the delegate after it, and the endpoint sits innermost. Delegates
    are named by numbers, and a built pipeline is the nesting it makes. */
module WorkPipelines {
  import opened Wrappers
  import opened Errors

  /** A middleware's build delegate. */
  type Middleware = nat
  /** The endpoint delegate. */
  type Endpoint = nat

  /** A composed delegate: the endpoint, or a middleware applied to the
      delegate that runs after it. */
  datatype Pipeline = Run(endpoint: Endpoint) | Wrap(middleware: Middleware, next: Pipeline)

  /** The middlewares a call passes through, outermost first. */
  function Order(p: Pipeline): seq<Middleware> {
    match p
    case Run(_) => []
    case Wrap(m, next) => [m] + Order(next)
  }

  /** The endpoint a call ends at. */
  function Innermost(p: Pipeline): Endpoint {
    match p
    case Run(e) => e
    case Wrap(_, next) => Innermost(next)
  }

  /** `middlewares[0](middlewares[1](… (endpoint)))`. */
  function Nest(middlewares: seq<Middleware>, endpoint: Endpoint): Pipeline
    decreases |middlewares|
  {
    if middlewares == [] then Run(endpoint) else Wrap(middlewares[0], Nest(middlewares[1..], endpoint))
  }

  /** A call passes through the middlewares in the order they were added,
      and ends at the endpoint. */
  lemma {:induction false} NestOrder(middlewares: seq<Middleware>, endpoint: Endpoint)
    ensures Order(Nest(middlewares, endpoint)) == middlewares
    ensures Innermost(Nest(middlewares, endpoint)) == endpoint
    decreases |middlewares|
  {
    if middlewares != [] {
      NestOrder(middlewares[1..], endpoint);
    }
  }

  /** Wrapping one more middleware around a nesting is nesting with it at
      the front. */
  lemma NestCons(m: Middleware, middlewares: seq<Middleware>, endpoint: Endpoint)
    ensures Wrap(m, Nest(middlewares, endpoint)) == Nest([m] + middlewares, endpoint)
  {
    assert ([m] + middlewares)[1..] == middlewares;
  }

  /** `WorkPipelineBuilder`. */
  class WorkPipelineBuilder {
    const endpointDelegate: Endpoint
    var pipelineBuildDelegates: seq<Middleware>

    constructor (endpointDelegate: Endpoint)
      ensures this.endpointDelegate == endpointDelegate && pipelineBuildDelegates == []
    {
      this.endpointDelegate := endpointDelegate;
      pipelineBuildDelegates := [];
    }

    /** The constructor's null check. */
    static method Create(endpointDelegate: Option<Endpoint>) returns (r: Outcome<WorkPipelineBuilder>)
      ensures endpointDelegate.None? ==> r == Failure(ArgumentNull("endpointDelegate"))
      ensures endpointDelegate.Some? ==> && r.Success? && fresh(r.value)
                                         && r.value.endpointDelegate == endpointDelegate.value
                                         && r.value.pipelineBuildDelegates == []
    {
      if endpointDelegate.None? {
        return Failure(ArgumentNull("endpointDelegate"));
      }
      var b := new WorkPipelineBuilder(endpointDelegate.value);
      return Success(b);
    }

    /** `Use`: one more middleware at the end; returns the builder. */
    method Use(m: Middleware) returns (self: WorkPipelineBuilder)
      modifies this
      ensures self == this
      ensures pipelineBuildDelegates == old(pipelineBuildDelegates) + [m]
    {
      pipelineBuildDelegates := pipelineBuildDelegates + [m];
      return this;
    }

    /** `Build`: wraps from the last middleware outwards, so the first one
        added runs first. */
    method Build() returns (target: Pipeline)
      ensures target == Nest(pipelineBuildDelegates, endpointDelegate)
      ensures Order(target) == pipelineBuildDelegates && Innermost(target) == endpointDelegate
      ensures pipelineBuildDelegates == [] ==> target == Run(endpointDelegate)
    {
      target := Run(endpointDelegate);
      var i := |pipelineBuildDelegates|;
      while i > 0
        invariant 0 <= i <= |pipelineBuildDelegates|
        invariant target == Nest(pipelineBuildDelegates[i..], endpointDelegate)
      {
        i := i - 1;
        NestCons(pipelineBuildDelegates[i], pipelineBuildDelegates[i + 1..], endpointDelegate);
        assert [pipelineBuildDelegates[i]] + pipelineBuildDelegates[i + 1..] == pipelineBuildDelegates[i..];
        target := Wrap(pipelineBuildDelegates[i], target);
      }
      assert pipelineBuildDelegates[0..] == pipelineBuildDelegates;
      NestOrder(pipelineBuildDelegates, endpointDelegate);
    }
  }

  /** `BuildGetConfigurationDelegate`: without middlewares the endpoint
      itself, otherwise a pipeline with every middleware in order. */
  method BuildGetConfigurationDelegate(middlewares: seq<Middleware>, endpoint: Endpoint) returns (p: Pipeline)
    ensures p == Nest(middlewares, endpoint)
    ensures Order(p) == middlewares && Innermost(p) == endpoint
    ensures middlewares == [] ==> p == Run(endpoint)
  {
    if middlewares == [] {
      return Run(endpoint);
    }
    var builder := new WorkPipelineBuilder(endpoint);
    var i := 0;
    while i < |middlewares|
      invariant 0 <= i <= |middlewares|
      invariant builder.endpointDelegate == endpoint && builder.pipelineBuildDelegates == middlewares[..i]
    {
      var _ := builder.Use(middlewares[i]);
      assert middlewares[..i + 1] == middlewares[..i] + [middlewares[i]];
      i := i + 1;
    }
    assert middlewares[..i] == middlewares;
    p := builder.Build();
  }
}
