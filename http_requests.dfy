/** The HTTP requests of the configuration client: the long-poll listening
    request and the request URI builder. */
module HttpRequests {
  import opened Wrappers
  import opened Errors
  import opened Text
  import opened Descriptors
  import opened ServerUris

  /** Ends the entry of one configuration in the listening form data. */
  const CONFIGURATION_SEPARATOR: char := '\U{1}'
  /** Separates the fields of one configuration. */
  const FIELD_SEPARATOR: char := '\U{2}'
  const DEFAULT_LONG_PULLING_TIMEOUT: nat := 30000
  const UINT32_MAX: nat := 0xFFFF_FFFF

  /** `ListeningConfigurationRequest`: the identity and hash it listens for
      and the server's hold time in milliseconds (a `uint`). */
  datatype ListeningRequest = ListeningRequest(namespace: string, dataId: string, group: string,
                                               hash: Option<string>, longPullingTimeout: nat)

  /** The constructor: everything is copied from the descriptor. */
  function NewListeningRequest(d: Descriptor, longPullingTimeout: nat): (r: ListeningRequest)
    requires longPullingTimeout <= UINT32_MAX
    ensures UniqueConfiguration(r.namespace, r.group, r.dataId) == d.Identity()
    ensures r.hash == d.hash && r.longPullingTimeout == longPullingTimeout
  {
    ListeningRequest(d.namespace, d.dataId, d.group, d.hash, longPullingTimeout)
  }

  /** The fields of the form data, before joining. */
  function FormFields(r: ListeningRequest): seq<string> {
    if r.namespace == "" then [r.dataId, r.group, r.hash.GetOr("")]
    else [r.dataId, r.group, r.hash.GetOr(""), r.namespace]
  }

  lemma JoinFields(fields: seq<string>, sep: char)
    requires 3 <= |fields| <= 4
    ensures |fields| == 3 ==> JoinWith(fields, sep) == fields[0] + [sep] + fields[1] + [sep] + fields[2]
    ensures |fields| == 4 ==> JoinWith(fields, sep) == fields[0] + [sep] + fields[1] + [sep] + fields[2] + [sep] + fields[3]
  {
    var rest := fields[1..];
    assert JoinWith(rest[1..], sep) == if |fields| == 3 then fields[2] else fields[2] + [sep] + fields[3];
  }

  /** `GetFormData`: data id, group and hash (a null hash prints as nothing),
      then the namespace when there is one, separated by char 2 and ended by
      char 1. */
  function FormData(r: ListeningRequest): (s: string)
    ensures |s| >= 1 && s[|s| - 1] == CONFIGURATION_SEPARATOR
    ensures s[..|s| - 1] == JoinWith(FormFields(r), FIELD_SEPARATOR)
  {
    var f := [FIELD_SEPARATOR];
    var body := if r.namespace == "" then r.dataId + f + r.group + f + r.hash.GetOr("")
                else r.dataId + f + r.group + f + r.hash.GetOr("") + f + r.namespace;
    JoinFields(FormFields(r), FIELD_SEPARATOR);
    assert body == JoinWith(FormFields(r), FIELD_SEPARATOR);
    var s := body + [CONFIGURATION_SEPARATOR];
    assert s[..|s| - 1] == body;
    s
  }

  /** A server that drops the final char 1 and cuts at char 2 reads back
      exactly the data id, group and hash, and the namespace iff it is not
      empty, provided no field holds a separator. */
  lemma FormDataDecodes(r: ListeningRequest)
    requires FIELD_SEPARATOR !in r.dataId && FIELD_SEPARATOR !in r.group
    requires FIELD_SEPARATOR !in r.hash.GetOr("") && FIELD_SEPARATOR !in r.namespace
    ensures var s := FormData(r); var fields := SplitOn(s[..|s| - 1], FIELD_SEPARATOR);
            && (|fields| == 4 <==> r.namespace != "")
            && (|fields| == 3 <==> r.namespace == "")
            && fields[0] == r.dataId && fields[1] == r.group && fields[2] == r.hash.GetOr("")
            && (r.namespace != "" ==> fields[3] == r.namespace)
  {
    SplitJoin(FormFields(r), FIELD_SEPARATOR);
  }

  lemma DefaultTimeoutDigits()
    ensures AllDigits("30000") && DigitsValue("30000") == 30000
  {
    assert "30000"[..4] == "3000" && "3000"[..3] == "300" && "300"[..2] == "30" && "30"[..1] == "3" && "3"[..0] == "";
  }

  /** The `Long-Pulling-Timeout` header: the hold time when positive, else
      the default. */
  function LongPullingTimeoutHeader(r: ListeningRequest): (h: string)
    ensures AllDigits(h)
    ensures DigitsValue(h) == if r.longPullingTimeout > 0 then r.longPullingTimeout else DEFAULT_LONG_PULLING_TIMEOUT
  {
    NatToStringValue(r.longPullingTimeout);
    DefaultTimeoutDigits();
    if r.longPullingTimeout > 0 then NatToString(r.longPullingTimeout) else "30000"
  }

  /** A request made with the constructor's default hold time announces it. */
  lemma DefaultTimeoutHeader(d: Descriptor)
    ensures DigitsValue(LongPullingTimeoutHeader(NewListeningRequest(d, DEFAULT_LONG_PULLING_TIMEOUT))) == 30000
  {
  }

  /** `GetSpasSignData`: namespace and group joined by '+'. */
  function SignData(r: ListeningRequest): string {
    r.namespace + "+" + r.group
  }

  /** The sign data is the unique key of the listened configuration with its
      data id cut off. */
  lemma SignDataPrefixesUniqueKey(r: ListeningRequest)
    ensures UniqueKey(UniqueConfiguration(r.namespace, r.group, r.dataId)) == SignData(r) + "+" + r.dataId
  {
  }

  /** The query argument of `MakeUri`: null and empty pass unchanged, a query
      already starting with '?' is kept, any other gets '?' in front. */
  function MakeQuery(query: Option<string>): (q: Option<string>)
    ensures query.None? ==> q.None?
    ensures query == Some("") ==> q == query
    ensures query.Some? && query.value != "" ==> q.Some? && |q.value| >= 1 && q.value[0] == '?'
    ensures query.Some? && query.value != "" && query.value[0] == '?' ==> q == query
    ensures query.Some? && query.value != "" && query.value[0] != '?' ==> q.value[1..] == query.value
  {
    if IsNullOrEmpty(query) then query
    else if query.value[0] == '?' then query
    else Some("?" + query.value)
  }

  /** Prefixing is done only once. */
  lemma MakeQueryIdempotent(query: Option<string>)
    ensures MakeQuery(MakeQuery(query)) == MakeQuery(query)
  {
  }

  /** A request URI as `UriBuilder` assembles it. */
  datatype RequestUri = RequestUri(scheme: string, host: string, port: int, path: string, query: Option<string>)

  /** `MakeUri`: the server's scheme, host and HTTP port, the given path and
      the prefixed query; the builder refuses an HTTP port outside
      -1..65535 and puts the scheme's default port for -1. */
  function MakeUri(server: ServerUri, path: string, query: Option<string>): (r: Outcome<RequestUri>)
    ensures r.Failure? <==> !ValidBuilderPort(server.httpPort)
    ensures r.Failure? ==> r.error == ArgumentOutOfRange("value")
    ensures r.Success? ==> var u := r.value;
              && u.scheme == server.scheme && u.host == server.host && u.path == path
              && u.port == BuiltPort(server.scheme, server.httpPort)
              && (0 <= server.httpPort ==> u.port == server.httpPort)
              && u.query == MakeQuery(query)
  {
    if !ValidBuilderPort(server.httpPort) then Failure(ArgumentOutOfRange("value"))
    else Success(RequestUri(server.scheme, server.host, BuiltPort(server.scheme, server.httpPort), path, MakeQuery(query)))
  }

  /** The URI of a listening request: the listener path, with the
      namespace as the `tenant` query, on the server's HTTP port. */
  function ListeningUri(r: ListeningRequest, server: ServerUri): (u: Outcome<RequestUri>)
    ensures u.Failure? <==> !ValidBuilderPort(server.httpPort)
    ensures u.Success? ==> u.value.path == "nacos/v1/cs/configs/listener" && u.value.query == Some("?tenant=" + r.namespace)
    ensures u.Success? && 0 <= server.httpPort ==> u.value.port == server.httpPort
  {
    MakeUri(server, "nacos/v1/cs/configs/listener", Some("?tenant=" + r.namespace))
  }
}
