/** The configuration provider: it holds the last content seen for one
    descriptor, turns content into configuration data with the first
    parser that accepts it, loads at start-up and reloads on every change
    notification. */
module ConfigurationProviders {
  import opened Wrappers
  import opened Errors
  import opened Text
  import opened Descriptors
  import opened JsonConfigurationParsers

  /** A configuration parser: whether it accepts a content, and what it
      makes of it; both may throw. */
  datatype Parser = Parser(canParse: string -> Outcome<bool>, parse: string -> Outcome<Data>)

  /** The JSON parser as a provider parser, over a JSON reader. */
  function JsonParser(parseDocument: string -> Option<JsonElement>): Parser {
    Parser(c => CanParse(c, parseDocument), c => ParseSpec(c, parseDocument))
  }

  /** The parser answers that it does not take the content. */
  predicate Refuses(p: Parser, content: string) {
    p.canParse(content) == Success(false)
  }

  /** What a subscription returns to end it (`IAsyncDisposable`). */
  type Disposer = nat

  /** The parser loop's choice: the first parser that does not refuse the
      content, and the exception its `CanParse` threw, if it threw. */
  function Pick(parsers: seq<Parser>, content: string): (r: Outcome<Option<nat>>)
    ensures r.Success? && r.value.Some? ==>
              && r.value.value < |parsers| && parsers[r.value.value].canParse(content) == Success(true)
              && forall j :: 0 <= j < r.value.value ==> Refuses(parsers[j], content)
    ensures r == Success(None) <==> forall j :: 0 <= j < |parsers| ==> Refuses(parsers[j], content)
    ensures r.Failure? ==> exists i :: && 0 <= i < |parsers| && parsers[i].canParse(content) == Failure(r.error)
                                       && forall j :: 0 <= j < i ==> Refuses(parsers[j], content)
  {
    if parsers == [] then Success(None)
    else match parsers[0].canParse(content)
      case Failure(e) => Failure(e)
      case Success(true) => Success(Some(0))
      case Success(false) =>
        match Pick(parsers[1..], content)
        case Failure(e) =>
          ghost var i :| && 0 <= i < |parsers[1..]| && parsers[1..][i].canParse(content) == Failure(e)
                         && forall j :: 0 <= j < i ==> Refuses(parsers[1..][j], content);
          assert parsers[i + 1].canParse(content) == Failure(e);
          assert forall j :: 0 <= j < i + 1 ==> Refuses(parsers[j], content) by {
            forall j | 0 <= j < i + 1 ensures Refuses(parsers[j], content) {
              if j > 0 { assert parsers[j] == parsers[1..][j - 1]; }
            }
          }
          Failure(e)
        case Success(None) =>
          assert forall j :: 0 <= j < |parsers| ==> Refuses(parsers[j], content) by {
            forall j | 0 <= j < |parsers| ensures Refuses(parsers[j], content) {
              if j > 0 { assert parsers[j] == parsers[1..][j - 1]; }
            }
          }
          Success(None)
        case Success(Some(i)) => Success(Some(i + 1))
  }

  /** `LoadConfiguration`: blank content clears the data; otherwise the
      first parser that does not refuse decides: an exception from its
      `CanParse` or `Parse` propagates, and its result replaces the data;
      when every parser refuses, the data stays. `None` parsers is the
      list after disposal. */
  function LoadSpec(parsers: Option<seq<Parser>>, content: Option<string>, data: Data): Outcome<Data> {
    if IsNullOrWhiteSpace(content) then Success(map[])
    else if parsers.None? then Failure(NullReference)
    else match Pick(parsers.value, content.value)
      case Failure(e) => Failure(e)
      case Success(None) => Success(data)
      case Success(Some(i)) => parsers.value[i].parse(content.value)
  }

  /** The outcomes of loading, stated on the parser list: the first parser
      that does not refuse decides, with its exception or its result. */
  lemma LoadCases(parsers: seq<Parser>, content: string, data: Data)
    ensures IsBlank(content) ==> LoadSpec(Some(parsers), Some(content), data) == Success(map[])
    ensures !IsBlank(content) && (forall j :: 0 <= j < |parsers| ==> Refuses(parsers[j], content)) ==>
              LoadSpec(Some(parsers), Some(content), data) == Success(data)
    ensures forall i :: 0 <= i < |parsers| && !IsBlank(content) && parsers[i].canParse(content) == Success(true)
                        && (forall j :: 0 <= j < i ==> Refuses(parsers[j], content)) ==>
              LoadSpec(Some(parsers), Some(content), data) == parsers[i].parse(content)
    ensures forall i :: 0 <= i < |parsers| && !IsBlank(content) && parsers[i].canParse(content).Failure?
                        && (forall j :: 0 <= j < i ==> Refuses(parsers[j], content)) ==>
              LoadSpec(Some(parsers), Some(content), data) == Failure(parsers[i].canParse(content).error)
  {
    forall i | 0 <= i < |parsers| && !IsBlank(content) && !Refuses(parsers[i], content)
               && (forall j :: 0 <= j < i ==> Refuses(parsers[j], content))
      ensures parsers[i].canParse(content) == Success(true) ==>
                LoadSpec(Some(parsers), Some(content), data) == parsers[i].parse(content)
      ensures parsers[i].canParse(content).Failure? ==>
                LoadSpec(Some(parsers), Some(content), data) == Failure(parsers[i].canParse(content).error)
    {
      PickFirst(parsers, content, i);
    }
  }

  /** The first parser that does not refuse decides `Pick`. */
  lemma {:induction false} PickFirst(parsers: seq<Parser>, content: string, i: nat)
    requires i < |parsers| && !Refuses(parsers[i], content)
    requires forall j :: 0 <= j < i ==> Refuses(parsers[j], content)
    ensures parsers[i].canParse(content).Failure? ==> Pick(parsers, content) == Failure(parsers[i].canParse(content).error)
    ensures parsers[i].canParse(content).Success? ==> Pick(parsers, content) == Success(Some(i))
    decreases i
  {
    if i > 0 {
      assert Refuses(parsers[0], content);
      PickFirst(parsers[1..], content, i - 1);
    }
  }

  /** With the JSON parser first, loading non-blank content is exactly the
      JSON parse, its `JsonException` included: the JSON parser never
      refuses, so no parser after it is ever asked. */
  lemma JsonParserFirst(parseDocument: string -> Option<JsonElement>, rest: seq<Parser>, content: string, data: Data)
    requires !IsBlank(content)
    ensures LoadSpec(Some([JsonParser(parseDocument)] + rest), Some(content), data) == ParseSpec(content, parseDocument)
    ensures parseDocument(content).None? ==>
              LoadSpec(Some([JsonParser(parseDocument)] + rest), Some(content), data) == Failure(Json)
  {
    var parsers := [JsonParser(parseDocument)] + rest;
    assert parsers[0].canParse(content) == CanParse(content, parseDocument);
  }

  /** `Load`: the cached content, or else the content fetched for the
      descriptor, is loaded; a missing configuration clears the data when
      it is optional and is rethrown otherwise. The fetched content is not
      cached. */
  function LoadOutcome(cached: Option<string>, optional: bool, fetched: Outcome<Descriptor>,
                       parsers: Option<seq<Parser>>, data: Data): Outcome<Data> {
    if cached.Some? then LoadSpec(parsers, cached, data)
    else if fetched.Failure? then
      if fetched.error == ConfigurationNotFound && optional then LoadSpec(parsers, None, data)
      else Failure(fetched.error)
    else LoadSpec(parsers, fetched.value.content, data)
  }

  /** `Load` uses the cache when it holds content, and a missing optional
      configuration leaves empty data; a missing required one fails. */
  lemma LoadOutcomeCases(cached: Option<string>, optional: bool, fetched: Outcome<Descriptor>,
                         parsers: Option<seq<Parser>>, data: Data)
    ensures cached.Some? ==> forall f :: LoadOutcome(cached, optional, f, parsers, data) == LoadOutcome(cached, optional, fetched, parsers, data)
    ensures cached.None? && fetched == Failure(ConfigurationNotFound) ==>
              LoadOutcome(cached, optional, fetched, parsers, data) == if optional then Success(map[]) else Failure(ConfigurationNotFound)
    ensures cached.None? && fetched.Failure? && fetched.error != ConfigurationNotFound ==>
              LoadOutcome(cached, optional, fetched, parsers, data) == Failure(fetched.error)
  {
  }

  /** How `InitAsync` maps a failure: a cancellation caused by the
      start-up timeout is a request timeout, another cancellation is
      rethrown, and every other exception, a missing required
      configuration included, becomes a provider initialisation error. */
  function InitFailure(e: Error, timedOut: bool): (r: Error)
    ensures r in {RequestTimeout, OperationCanceled, Nacos(ProviderInitFailed)}
    ensures r == RequestTimeout <==> e == OperationCanceled && timedOut
    ensures r == OperationCanceled <==> e == OperationCanceled && !timedOut
  {
    if e == OperationCanceled then (if timedOut then RequestTimeout else OperationCanceled)
    else Nacos(ProviderInitFailed)
  }

  /** What `InitAsync` leaves: the content to cache and the descriptor it
      subscribed with. */
  datatype InitResult = InitResult(content: Option<string>, subscribed: Descriptor, disposer: Disposer)

  /** `InitAsync`: the fetched content is cached (a missing optional
      configuration leaves the cache as it was), then the provider
      subscribes with the descriptor carrying that content and its MD5;
      failures are mapped by `InitFailure`. */
  function InitOutcome(d: Descriptor, optional: bool, cached: Option<string>, fetched: Outcome<Descriptor>,
                       subscribe: Descriptor -> Outcome<Disposer>, timedOut: bool,
                       md5: Option<string> -> string): Outcome<InitResult>
    requires d.Valid()
  {
    if fetched.Failure? && !(fetched.error == ConfigurationNotFound && optional) then
      Failure(InitFailure(fetched.error, timedOut))
    else
      var content := if fetched.Success? then fetched.value.content else cached;
      var subscribeDescriptor := WithContentAndHash(d, content, Some(md5(content)));
      match subscribe(subscribeDescriptor)
      case Failure(e) => Failure(InitFailure(e, timedOut))
      case Success(disposer) => Success(InitResult(content, subscribeDescriptor, disposer))
  }

  /** A missing optional configuration still subscribes, with the content
      the provider had; a missing required one never subscribes and is a
      provider initialisation error. */
  lemma InitNotFound(d: Descriptor, optional: bool, cached: Option<string>,
                     subscribe: Descriptor -> Outcome<Disposer>, timedOut: bool, md5: Option<string> -> string)
    requires d.Valid()
    ensures var r := InitOutcome(d, optional, cached, Failure(ConfigurationNotFound), subscribe, timedOut, md5);
            && (!optional ==> r == Failure(Nacos(ProviderInitFailed)))
            && (optional && subscribe(WithContentAndHash(d, cached, Some(md5(cached)))).Success? ==>
                  r.Success? && r.value.content == cached && r.value.subscribed.Identity() == d.Identity())
  {
  }

  /** A successful start caches the fetched content and subscribes for the
      same configuration with that content and its MD5. */
  lemma InitSubscribesWithContent(d: Descriptor, optional: bool, cached: Option<string>, fetched: Outcome<Descriptor>,
                                  subscribe: Descriptor -> Outcome<Disposer>, timedOut: bool, md5: Option<string> -> string)
    requires d.Valid() && fetched.Success?
    ensures var r := InitOutcome(d, optional, cached, fetched, subscribe, timedOut, md5);
            r.Success? ==> && r.value.content == fetched.value.content
                           && r.value.subscribed.Identity() == d.Identity()
                           && r.value.subscribed.content == fetched.value.content
                           && r.value.subscribed.hash == Some(md5(fetched.value.content))
                           && subscribe(r.value.subscribed) == Success(r.value.disposer)
  {
  }

  /** `NacosConfigurationProvider`. */
  class NacosConfigurationProvider {
    const descriptor: Descriptor
    const optional: bool
    var content: Option<string>
    var disposed: bool
    var parsers: Option<seq<Parser>>
    var subscribeDisposer: Option<Disposer>
    /** The provider's `Data`. */
    var data: Data
    /** How many times `OnReload` signalled a change. */
    var reloads: nat

    predicate Valid()
      reads this
    {
      descriptor.Valid()
    }

    constructor (descriptor: Descriptor, optional: bool, parsers: seq<Parser>)
      requires descriptor.Valid()
      ensures Valid() && !disposed
      ensures this.descriptor == descriptor && this.optional == optional && this.parsers == Some(parsers)
      ensures content.None? && subscribeDisposer.None? && data == map[] && reloads == 0
    {
      this.descriptor := descriptor;
      this.optional := optional;
      this.parsers := Some(parsers);
      content := None;
      disposed := false;
      subscribeDisposer := None;
      data := map[];
      reloads := 0;
    }

    /** `LoadConfiguration`: the loop over the parsers. */
    method LoadConfiguration(text: Option<string>) returns (r: Outcome<()>)
      modifies this
      ensures var s := LoadSpec(old(parsers), text, old(data));
              && (s.Success? ==> r.Success? && data == s.value)
              && (s.Failure? ==> r == Failure(s.error) && data == old(data))
      ensures content == old(content) && disposed == old(disposed) && parsers == old(parsers)
      ensures subscribeDisposer == old(subscribeDisposer) && reloads == old(reloads)
    {
      if IsNullOrWhiteSpace(text) {
        data := map[];
        return Success(());
      }
      if parsers.None? {
        return Failure(NullReference);
      }
      var ps := parsers.value;
      var i := 0;
      while i < |ps|
        invariant 0 <= i <= |ps|
        invariant forall j :: 0 <= j < i ==> Refuses(ps[j], text.value)
      {
        var accepts := ps[i].canParse(text.value);
        if accepts.Failure? {
          return Failure(accepts.error);
        }
        if accepts.value {
          var parsed := ps[i].parse(text.value);
          if parsed.Failure? {
            return Failure(parsed.error);
          }
          data := parsed.value;
          return Success(());
        }
        i := i + 1;
      }
      return Success(());
    }

    /** `Load`, with `fetched` the client's answer for the descriptor when
        nothing is cached. */
    method Load(fetched: Outcome<Descriptor>) returns (r: Outcome<()>)
      modifies this
      ensures var s := LoadOutcome(old(content), optional, fetched, old(parsers), old(data));
              && (s.Success? ==> r.Success? && data == s.value)
              && (s.Failure? ==> r == Failure(s.error) && data == old(data))
      ensures content == old(content) && disposed == old(disposed) && parsers == old(parsers)
      ensures subscribeDisposer == old(subscribeDisposer) && reloads == old(reloads)
    {
      var text := content;
      if text.None? {
        if fetched.Failure? {
          if fetched.error == ConfigurationNotFound && optional {
            r := LoadConfiguration(None);
            return;
          }
          return Failure(fetched.error);
        }
        text := fetched.value.content;
      }
      r := LoadConfiguration(text);
    }

    /** `InitAsync`, with `fetched` the client's answer, `subscribe` the
        client's subscription and `timedOut` whether the 60-second start-up
        token fired. */
    method InitAsync(fetched: Outcome<Descriptor>, subscribe: Descriptor -> Outcome<Disposer>, timedOut: bool,
                     md5: Option<string> -> string) returns (r: Outcome<()>)
      requires Valid()
      modifies this
      ensures Valid()
      ensures var s := InitOutcome(descriptor, optional, old(content), fetched, subscribe, timedOut, md5);
              && (s.Success? ==> r.Success? && content == s.value.content && subscribeDisposer == Some(s.value.disposer))
              && (s.Failure? ==> r == Failure(s.error) && subscribeDisposer == old(subscribeDisposer))
      ensures fetched.Success? ==> content == fetched.value.content
      ensures fetched.Failure? ==> content == old(content)
      ensures data == old(data) && parsers == old(parsers) && disposed == old(disposed) && reloads == old(reloads)
    {
      if fetched.Failure? && !(fetched.error == ConfigurationNotFound && optional) {
        return Failure(InitFailure(fetched.error, timedOut));
      }
      if fetched.Success? {
        content := fetched.value.content;
      }
      var subscribeDescriptor := WithContentAndHash(descriptor, content, Some(md5(content)));
      var subscribed := subscribe(subscribeDescriptor);
      if subscribed.Failure? {
        return Failure(InitFailure(subscribed.error, timedOut));
      }
      subscribeDisposer := Some(subscribed.value);
      r := Success(());
    }

    /** `OnConfigurationChangeAsync`: the new content is cached and loaded,
        and `OnReload` signals the change; a failed load is logged and
        swallowed unless the notification was cancelled. */
    method OnConfigurationChange(d: Descriptor, cancelled: bool) returns (r: Outcome<()>)
      modifies this
      ensures content == d.content
      ensures var s := LoadSpec(old(parsers), d.content, old(data));
              && (s.Success? ==> r.Success? && data == s.value && reloads == old(reloads) + 1)
              && (s.Failure? ==> data == old(data) && reloads == old(reloads)
                                 && r == (if cancelled then Failure(OperationCanceled) else Success(())))
      ensures disposed == old(disposed) && parsers == old(parsers) && subscribeDisposer == old(subscribeDisposer)
    {
      content := d.content;
      var loaded := LoadConfiguration(d.content);
      if loaded.Failure? {
        if cancelled {
          return Failure(OperationCanceled);
        }
        return Success(());
      }
      reloads := reloads + 1;
      r := Success(());
    }

    /** `Dispose`: the first call drops the cache and the parsers and hands
        back the subscription's disposer to be released; later calls do
        nothing. */
    method Dispose() returns (released: Option<Disposer>)
      requires Valid()
      modifies this
      ensures Valid() && disposed
      ensures old(disposed) ==> released.None? && content == old(content) && parsers == old(parsers)
                                && subscribeDisposer == old(subscribeDisposer)
      ensures !old(disposed) ==> released == old(subscribeDisposer) && content.None? && parsers.None?
                                 && subscribeDisposer.None?
      ensures data == old(data) && reloads == old(reloads)
    {
      if disposed {
        return None;
      }
      disposed := true;
      content := None;
      parsers := None;
      released := subscribeDisposer;
      subscribeDisposer := None;
    }
  }

  /** Disposing twice releases the subscription once. */
  method DisposeTwice(p: NacosConfigurationProvider) returns (first: Option<Disposer>, second: Option<Disposer>)
    requires p.Valid() && !p.disposed
    modifies p
    ensures first == old(p.subscribeDisposer) && second.None? && p.subscribeDisposer.None?
  {
    first := p.Dispose();
    second := p.Dispose();
  }
}
