/** The gRPC batch listening request: whether it starts or stops listening,
    and the configurations it names with the md5 last seen for each. */
module ListenRequests {
  import opened Wrappers
  import opened Descriptors

  /** `ConfigListenContext`: one configuration and the md5 it was last seen
      with (`tenant` on the wire is the namespace). */
  datatype ConfigListenContext = ConfigListenContext(namespace: string, dataId: string, md5: string, group: string)

  /** A request as it goes on the wire. */
  datatype ListenMessage = ListenMessage(listen: bool, contexts: seq<ConfigListenContext>)

  /** The context the descriptor overload of `AddListenContext` adds: a
      missing hash is sent as the empty md5. */
  function ContextOf(d: Descriptor): (c: ConfigListenContext)
    ensures UniqueConfiguration(c.namespace, c.group, c.dataId) == d.Identity()
    ensures d.hash.Some? ==> c.md5 == d.hash.value
    ensures d.hash.None? ==> c.md5 == ""
  {
    ConfigListenContext(d.namespace, d.dataId, d.hash.GetOr(""), d.group)
  }

  /** The one-configuration request the configuration client sends for `d`. */
  function ListenFor(d: Descriptor, listen: bool): ListenMessage {
    ListenMessage(listen, [ContextOf(d)])
  }

  /** Requests for different configurations never look alike, and a request
      that listens never looks like one that stops. */
  lemma ListenForInjective(a: Descriptor, b: Descriptor, la: bool, lb: bool)
    requires ListenFor(a, la) == ListenFor(b, lb)
    ensures la == lb && a.Identity() == b.Identity() && a.hash.GetOr("") == b.hash.GetOr("")
  {
    assert ListenFor(a, la).contexts[0] == ListenFor(b, lb).contexts[0];
  }

  class ConfigBatchListenRequest {
    var isListen: bool
    var listenContexts: seq<ConfigListenContext>

    constructor (isListen: bool)
      ensures this.isListen == isListen && listenContexts == []
    {
      this.isListen := isListen;
      listenContexts := [];
    }

    /** The request's wire form. */
    function Message(): ListenMessage
      reads this
    {
      ListenMessage(isListen, listenContexts)
    }

    /** `AddListenContext(namespace, dataId, md5, group)`: one more context
        at the end; the request itself is returned for chaining. */
    method AddListenContext(namespace: string, dataId: string, md5: string, group: string) returns (self: ConfigBatchListenRequest)
      modifies this`listenContexts
      ensures self == this
      ensures listenContexts == old(listenContexts) + [ConfigListenContext(namespace, dataId, md5, group)]
    {
      listenContexts := listenContexts + [ConfigListenContext(namespace, dataId, md5, group)];
      return this;
    }

    /** `AddListenContext(namespace, dataId, md5)`, the group left to its
        default: the context is for `DEFAULT_GROUP`. */
    method AddDefaultGroupListenContext(namespace: string, dataId: string, md5: string) returns (self: ConfigBatchListenRequest)
      modifies this`listenContexts
      ensures self == this
      ensures listenContexts == old(listenContexts) + [ConfigListenContext(namespace, dataId, md5, DEFAULT_GROUP)]
    {
      self := AddListenContext(namespace, dataId, md5, DEFAULT_GROUP);
    }

    /** `RequestExtensions.AddListenContext(descriptor)`. */
    method AddDescriptorListenContext(d: Descriptor) returns (self: ConfigBatchListenRequest)
      modifies this`listenContexts
      ensures self == this
      ensures listenContexts == old(listenContexts) + [ContextOf(d)]
    {
      self := AddListenContext(d.namespace, d.dataId, d.hash.GetOr(""), d.group);
    }
  }

  /** `new ConfigBatchListenRequest(listen).AddListenContext(d)`. */
  method NewListenRequest(d: Descriptor, listen: bool) returns (r: ConfigBatchListenRequest)
    ensures fresh(r) && r.Message() == ListenFor(d, listen)
  {
    r := new ConfigBatchListenRequest(listen);
    var _ := r.AddDescriptorListenContext(d);
  }
}
