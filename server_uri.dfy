/** A Nacos server address: which host, which HTTP and gRPC ports, which
    scheme, or the server-list address of an Aliyun ACM endpoint. */
module ServerUris {
  import opened Wrappers
  import opened Errors
  import opened Text

  /** The default ports and the distance between HTTP and gRPC port. */
  const DEFAULT_HTTP_PORT: int := 8848
  const DEFAULT_GRPC_PORT: int := 9848
  const DEFAULT_GRPC_PORT_OFFSET: int := 1000

  /** The parts of a parsed `System.Uri` the client reads. The scheme is
      lower case, `port` is the explicit or the scheme's default port and -1
      for a scheme without default, `fragment` includes its leading `#`. */
  datatype Uri = Uri(scheme: string, host: string, port: int, path: string, fragment: string)

  datatype ServerUri = ServerUri(
    host: string,
    httpPort: int,
    grpcPort: int,
    scheme: string,
    isSecurityConnection: bool,
    acmServerList: Option<Uri>)
  {
    predicate IsAliyunAcm() {
      acmServerList.Some?
    }

    /** `UriBuilder { Scheme, Host, Port }.Uri`: the port setter refuses a
        port outside -1..65535, and -1 leaves the scheme's default port. */
    function CreateUri(port: int): (r: Outcome<Uri>)
      ensures r.Failure? <==> !ValidBuilderPort(port)
      ensures r.Failure? ==> r.error == ArgumentOutOfRange("value")
      ensures r.Success? ==> r.value == Uri(scheme, host, BuiltPort(scheme, port), "/", "")
    {
      if ValidBuilderPort(port) then Success(Uri(scheme, host, BuiltPort(scheme, port), "/", ""))
      else Failure(ArgumentOutOfRange("value"))
    }

    /** `HttpUri`: the ACM server-list address as given, else the address
        built on the HTTP port. */
    function HttpUri(): Outcome<Uri> {
      if acmServerList.Some? then Success(acmServerList.value) else CreateUri(httpPort)
    }

    /** `GrpcUri`: the address built on the gRPC port. */
    function GrpcUri(): Outcome<Uri> {
      CreateUri(grpcPort)
    }
  }

  /** The ports `UriBuilder.Port` accepts: -1, meaning "the scheme's
      default", and 0 to 65535. */
  predicate ValidBuilderPort(port: int) {
    -1 <= port <= 65535
  }

  /** The default port of a scheme, -1 for one without a default. */
  function SchemeDefaultPort(scheme: string): int {
    if scheme == "http" then 80 else if scheme == "https" then 443 else -1
  }

  /** The port of the `Uri` a builder makes: the port given, or the
      scheme's default for -1. */
  function BuiltPort(scheme: string, port: int): (r: int)
    ensures port != -1 ==> r == port
    ensures port == -1 ==> r == SchemeDefaultPort(scheme)
  {
    if port == -1 then SchemeDefaultPort(scheme) else port
  }

  /** The constructor for an ACM server-list address: host and scheme come
      from the address; ports stay 0 and the connection is not marked secure. */
  function AcmServerUri(serverList: Uri): ServerUri {
    ServerUri(serverList.host, 0, 0, serverList.scheme, false, Some(serverList))
  }

  /** The private constructor: a scheme containing `https` is secure. */
  function DirectServerUri(host: string, httpPort: int, grpcPort: int, scheme: string): ServerUri {
    ServerUri(host, httpPort, grpcPort, scheme, Contains(scheme, "https"), None)
  }

  /** `https` when the scheme contains it in any case, `http` otherwise. */
  function GetScheme(scheme: string): (r: string)
    ensures r == "https" || r == "http"
  {
    if ContainsIgnoreCase(scheme, "https") then "https" else "http"
  }

  /** The run of decimal digits at the start of `s`. */
  function LeadingDigits(s: string): (r: string)
    ensures AllDigits(r) && StartsWith(s, r)
    ensures |r| < |s| ==> !IsDigit(s[|r|])
  {
    if s == [] || !IsDigit(s[0]) then [] else [s[0]] + LeadingDigits(s[1..])
  }

  /** Whether the pattern `<key>=\d+` (case ignored) matches at position `i`. */
  predicate PortMatchAt(input: string, key: string, i: nat) {
    i + |key| + 1 < |input|
    && EqualsIgnoreCase(input[i..i + |key| + 1], key + "=")
    && IsDigit(input[i + |key| + 1])
  }

  /** The leftmost position at or after `from` where the pattern matches. */
  function FindPortMatch(input: string, key: string, from: nat): (r: Option<nat>)
    ensures r.Some? ==> from <= r.value && PortMatchAt(input, key, r.value)
    ensures r.Some? ==> forall j :: from <= j < r.value ==> !PortMatchAt(input, key, j)
    ensures r.None? ==> forall j :: from <= j ==> !PortMatchAt(input, key, j)
    decreases |input| - from
  {
    if from + |key| + 1 >= |input| then None
    else if PortMatchAt(input, key, from) then Some(from)
    else FindPortMatch(input, key, from + 1)
  }

  /** `TryMatchPort`: the port written as `<key>=<digits>` in the fragment,
      nothing for a blank fragment or no match, an error when the digits do
      not fit an `int`. */
  function TryMatchPort(input: string, key: string): (r: Outcome<Option<int>>)
    ensures r.Success? && r.value.Some? ==> 0 <= r.value.value <= INT32_MAX
    ensures IsBlank(input) ==> r == Success(None)
  {
    if IsBlank(input) then Success(None)
    else
      match FindPortMatch(input, key, 0)
      case None => Success(None)
      case Some(i) =>
        var digits := LeadingDigits(input[i + |key| + 1..]);
        if DigitsValue(digits) <= INT32_MAX then Success(Some(DigitsValue(digits)))
        else Failure(Nacos(UnparsablePort))
  }

  /** `ServerUri.Parse(Uri)`: a null address is ArgumentNullException, a
      scheme naming none of acm, grpc and http ArgumentException, and an
      unreadable port fragment NacosException, and nothing else fails. */
  function Parse(uri: Option<Uri>): (r: Outcome<ServerUri>)
    ensures uri.None? <==> r == Failure(ArgumentNull("uri"))
    ensures r.Failure? ==> r.error in {ArgumentNull("uri"), Argument("uri"), Nacos(UnparsablePort)}
  {
    if uri.None? then Failure(ArgumentNull("uri"))
    else
      var u := uri.value;
      var scheme := ToLower(u.scheme);
      if Contains(scheme, "acm") then
        var port := if u.port == -1 then 8080 else u.port;
        var path := if IsBlank(u.path) || |u.path| == 1 then "/nacos/serverlist" else u.path;
        Success(AcmServerUri(Uri(GetScheme(scheme), u.host, port, path, u.fragment)))
      else if Contains(scheme, "grpc") then
        var httpPort :- TryMatchPort(u.fragment, "HttpPort");
        Success(DirectServerUri(u.host, httpPort.GetOr(u.port - DEFAULT_GRPC_PORT_OFFSET), u.port, GetScheme(scheme)))
      else if Contains(scheme, "http") then
        var grpcPort :- TryMatchPort(u.fragment, "GrpcPort");
        Success(DirectServerUri(u.host, u.port, grpcPort.GetOr(u.port + DEFAULT_GRPC_PORT_OFFSET), GetScheme(scheme)))
      else
        Failure(Argument("uri"))
  }

  lemma {:induction false} LeadingDigitsOfDigits(s: string, rest: string)
    requires AllDigits(s)
    requires rest == [] || !IsDigit(rest[0])
    ensures LeadingDigits(s + rest) == s
  {
    if s != [] {
      assert (s + rest)[1..] == s[1..] + rest;
      LeadingDigitsOfDigits(s[1..], rest);
    }
  }

  /** A fragment `#<key>=<port>` written from a port number in range is read
      back as that port. */
  lemma TryMatchPortReadsWrittenPort(key: string, port: nat)
    requires port <= INT32_MAX
    requires key != [] && key[0] != '#'
    ensures TryMatchPort("#" + key + "=" + NatToString(port), key) == Success(Some(port))
  {
    var digits := NatToString(port);
    var input := "#" + key + "=" + digits;
    assert !IsBlank(input) by {
      assert input[0] == '#';
    }
    assert !PortMatchAt(input, key, 0) by {
      assert ToLower(input[0..|key| + 1])[0] == '#';
      assert ToLower(key + "=")[0] == ToLowerAscii(key[0]);
    }
    assert input[1..1 + |key| + 1] == key + "=";
    assert input[1 + |key| + 1..] == digits;
    assert PortMatchAt(input, key, 1);
    assert FindPortMatch(input, key, 0) == Some(1);
    LeadingDigitsOfDigits(digits, []);
    assert digits + [] == digits;
    NatToStringValue(port);
  }

  /** An address parses as an ACM server list exactly when its scheme names
      `acm`; otherwise it is secure exactly when its scheme names `https`. */
  lemma ParseKinds(u: Uri)
    ensures Parse(Some(u)).Success? && Parse(Some(u)).value.IsAliyunAcm() <==> Contains(ToLower(u.scheme), "acm")
    ensures Parse(Some(u)).Success? && !Contains(ToLower(u.scheme), "acm") ==>
              (Parse(Some(u)).value.isSecurityConnection <==> ContainsIgnoreCase(ToLower(u.scheme), "https"))
    ensures Parse(Some(u)).Failure? && Parse(Some(u)).error.Argument? <==>
              !Contains(ToLower(u.scheme), "acm") && !Contains(ToLower(u.scheme), "grpc") && !Contains(ToLower(u.scheme), "http")
  {
    var scheme := ToLower(u.scheme);
    if !Contains(scheme, "acm") {
      var s := GetScheme(scheme);
      assert Contains("https", "https");
      assert !Contains("http", "https");
    }
  }

  /** An ACM address keeps its host and fragment, gets port 8080 when it
      has none and the path `/nacos/serverlist` when its path is blank or a
      single character, and its scheme is normalised like any other. */
  lemma ParseAcmDefaults(u: Uri)
    requires Contains(ToLower(u.scheme), "acm")
    ensures Parse(Some(u)).Success? && Parse(Some(u)).value.IsAliyunAcm()
    ensures Parse(Some(u)).value.HttpUri().Success?
    ensures var l := Parse(Some(u)).value.HttpUri().value;
            && l.host == u.host && l.fragment == u.fragment
            && l.port == (if u.port == -1 then 8080 else u.port)
            && l.path == (if IsBlank(u.path) || |u.path| == 1 then "/nacos/serverlist" else u.path)
            && (l.scheme == "https" <==> ContainsIgnoreCase(ToLower(u.scheme), "https"))
            && (l.scheme == "http" <==> !ContainsIgnoreCase(ToLower(u.scheme), "https"))
  {
  }

  /** Without a port fragment, the gRPC port of an HTTP address is the HTTP
      port plus the offset, and the HTTP port of a gRPC address the gRPC port
      minus the offset. */
  lemma ParseDerivesMissingPort(u: Uri)
    requires IsBlank(u.fragment)
    ensures !Contains(ToLower(u.scheme), "acm") && Contains(ToLower(u.scheme), "grpc") ==>
              Parse(Some(u)) == Success(DirectServerUri(u.host, u.port - DEFAULT_GRPC_PORT_OFFSET, u.port, GetScheme(ToLower(u.scheme))))
    ensures !Contains(ToLower(u.scheme), "acm") && !Contains(ToLower(u.scheme), "grpc") && Contains(ToLower(u.scheme), "http") ==>
              Parse(Some(u)) == Success(DirectServerUri(u.host, u.port, u.port + DEFAULT_GRPC_PORT_OFFSET, GetScheme(ToLower(u.scheme))))
  {
  }

  /** What the scheme tests of `Parse` answer for `http` and `https`. */
  lemma SchemeFacts()
    ensures ToLower("http") == "http" && ToLower("https") == "https"
    ensures !Contains("http", "acm") && !Contains("http", "grpc") && Contains("http", "http")
    ensures !Contains("https", "acm") && !Contains("https", "grpc") && Contains("https", "http")
    ensures Contains("https", "https") && !Contains("http", "https")
    ensures GetScheme("http") == "http" && GetScheme("https") == "https"
  {
    NoUpperUnchanged("http");
    NoUpperUnchanged("https");
    FirstCharAbsent("http", "acm");
    FirstCharAbsent("http", "grpc");
    FirstCharAbsent("https", "acm");
    FirstCharAbsent("https", "grpc");
    assert StartsWith("http", "http") && StartsWith("https", "https");
    assert "https"[..4] == "http";
    assert StartsWith("https", "http");
    ShorterNotContained("http", "https");
  }

  /** A text in which the first character of `sub` never occurs does not
      contain `sub`. */
  lemma {:induction false} FirstCharAbsent(s: string, sub: string)
    requires sub != [] && sub[0] !in s
    ensures !Contains(s, sub)
    decreases |s|
  {
    if |sub| <= |s| {
      assert s[..|sub|][0] == s[0];
    }
    if s != [] {
      assert forall c :: c in s[1..] ==> c in s;
      FirstCharAbsent(s[1..], sub);
    }
  }

  /** Text without upper-case ASCII letters is its own lower case. */
  lemma NoUpperUnchanged(s: string)
    requires forall i :: 0 <= i < |s| ==> !('A' <= s[i] <= 'Z')
    ensures ToLower(s) == s
  {
    assert forall i :: 0 <= i < |s| ==> ToLower(s)[i] == s[i];
  }

  lemma {:induction false} ShorterNotContained(s: string, sub: string)
    requires |s| < |sub|
    ensures !Contains(s, sub)
    decreases |s|
  {
    if s != [] {
      ShorterNotContained(s[1..], sub);
    }
  }

  /** An HTTP address with a `#GrpcPort=<n>` fragment uses that gRPC port. */
  lemma ParseReadsGrpcFragment(host: string, port: int, path: string, grpcPort: nat)
    requires grpcPort <= INT32_MAX
    ensures Parse(Some(Uri("http", host, port, path, "#GrpcPort=" + NatToString(grpcPort))))
            == Success(DirectServerUri(host, port, grpcPort, "http"))
  {
    TryMatchPortReadsWrittenPort("GrpcPort", grpcPort);
    GrpcPortKey(NatToString(grpcPort));
    SchemeFacts();
  }

  lemma GrpcPortKey(digits: string)
    ensures "#" + "GrpcPort" + "=" + digits == "#GrpcPort=" + digits
  {
    assert "#" + "GrpcPort" + "=" == "#GrpcPort=";
  }

  /** A port derived by the offset can leave the range `UriBuilder`
      accepts: a gRPC address below port 999 has no HTTP address, an HTTP
      address above port 64535 no gRPC address, and a -1 port, kept by an
      address without an explicit port on a scheme without a default, builds
      the scheme's default port instead. */
  lemma DerivedPortOutOfRange(u: Uri)
    requires IsBlank(u.fragment) && !Contains(ToLower(u.scheme), "acm")
    ensures Contains(ToLower(u.scheme), "grpc") && u.port < 999 ==>
              Parse(Some(u)).Success? && Parse(Some(u)).value.HttpUri() == Failure(ArgumentOutOfRange("value"))
    ensures !Contains(ToLower(u.scheme), "grpc") && Contains(ToLower(u.scheme), "http") && u.port > 64535 ==>
              Parse(Some(u)).Success? && Parse(Some(u)).value.GrpcUri() == Failure(ArgumentOutOfRange("value"))
    ensures !Contains(ToLower(u.scheme), "grpc") && Contains(ToLower(u.scheme), "http") && u.port == -1 ==>
              Parse(Some(u)).Success? && Parse(Some(u)).value.HttpUri().Success?
              && Parse(Some(u)).value.HttpUri().value.port == SchemeDefaultPort(Parse(Some(u)).value.scheme)
  {
    ParseDerivesMissingPort(u);
  }

  /** Parsing the HTTP address of a parsed HTTP or HTTPS server gives the
      server back: `HttpUri` and `Parse` are inverse on addresses whose gRPC
      port is the default distance away and whose ports are both ones a
      `UriBuilder` keeps as given. */
  lemma ParseHttpUriRoundTrip(s: ServerUri)
    requires !s.IsAliyunAcm() && (s.scheme == "http" || s.scheme == "https")
    requires s.grpcPort == s.httpPort + DEFAULT_GRPC_PORT_OFFSET
    requires 0 <= s.httpPort && s.grpcPort <= 65535
    requires s.isSecurityConnection == (s.scheme == "https")
    ensures s.HttpUri().Success? && s.GrpcUri().Success?
    ensures Parse(Some(s.HttpUri().value)) == Success(s)
  {
    var u := s.HttpUri().value;
    if s.scheme == "http" {
      assert u == Uri("http", s.host, s.httpPort, "/", "");
      ParsePlainAddress(s.host, s.httpPort);
    } else {
      assert u == Uri("https", s.host, s.httpPort, "/", "");
      ParseSecureAddress(s.host, s.httpPort);
    }
    assert s == ServerUri(s.host, s.httpPort, s.grpcPort, s.scheme, s.scheme == "https", None);
  }

  /** An `http` address without a fragment parses to a direct server on
      that port, with the gRPC port the default distance above. */
  lemma ParsePlainAddress(host: string, port: int)
    ensures Parse(Some(Uri("http", host, port, "/", "")))
            == Success(ServerUri(host, port, port + DEFAULT_GRPC_PORT_OFFSET, "http", false, None))
  {
    SchemeFacts();
    assert IsBlank("");
  }

  /** The same for an `https` address. */
  lemma ParseSecureAddress(host: string, port: int)
    ensures Parse(Some(Uri("https", host, port, "/", "")))
            == Success(ServerUri(host, port, port + DEFAULT_GRPC_PORT_OFFSET, "https", true, None))
  {
    SchemeFacts();
    assert IsBlank("");
  }

  /** The elements of `s` that are ACM server lists, in order. */
  function AcmOnly(s: seq<ServerUri>): (r: seq<ServerUri>)
    ensures |r| <= |s|
    ensures forall i :: 0 <= i < |r| ==> r[i].IsAliyunAcm()
    ensures |r| == |s| <==> forall i :: 0 <= i < |s| ==> s[i].IsAliyunAcm()
    ensures |r| == 0 <==> forall i :: 0 <= i < |s| ==> !s[i].IsAliyunAcm()
    ensures |r| == |s| ==> r == s
  {
    if s == [] then []
    else
      var rest := AcmOnly(s[1..]);
      assert forall i :: 1 <= i < |s| ==> s[i] == s[1..][i - 1];
      if s[0].IsAliyunAcm() then [s[0]] + rest else rest
  }

  /** `TryGetAcmServerUris`: whether the addresses are ACM server lists, and
      which; mixing the two kinds is an error. */
  function TryGetAcmServerUris(serverUris: Option<seq<ServerUri>>): (r: Outcome<(bool, seq<ServerUri>)>)
    ensures serverUris.None? ==> r == Failure(ArgumentNull("serverUris"))
    ensures serverUris.Some? ==> var s := serverUris.value;
      && (r.Failure? <==> (exists i :: 0 <= i < |s| && s[i].IsAliyunAcm()) && (exists j :: 0 <= j < |s| && !s[j].IsAliyunAcm()))
      && (r.Failure? ==> r.error == Nacos(MixedAcm))
      && (r.Success? && r.value.0 ==> r.value.1 == s && s != [])
      && (r.Success? && !r.value.0 ==> r.value.1 == [] && forall i :: 0 <= i < |s| ==> !s[i].IsAliyunAcm())
  {
    if serverUris.None? then Failure(ArgumentNull("serverUris"))
    else
      var acm := AcmOnly(serverUris.value);
      if |acm| > 0 && |serverUris.value| != |acm| then Failure(Nacos(MixedAcm))
      else Success((|acm| > 0, acm))
  }
}
