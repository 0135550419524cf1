/** The headers of a Nacos request: a dictionary whose named properties
    read a missing key as null and remove the key when set to null. */
module Headers {
  import opened Wrappers
  import opened Errors

  /** The header names of `Constants.Headers`, with the values the Nacos
      protocol gives them. */
  const ACCESS_TOKEN: string := "accessToken"
  const SPAS_ACCESSKEY: string := "Spas-AccessKey"
  const SPAS_SIGNATURE: string := "Spas-Signature"
  const CLIENT_APPNAME_HEADER: string := "Client-AppName"
  const CLIENT_REQUEST_TS_HEADER: string := "Client-RequestTS"
  const CLIENT_REQUEST_TOKEN_HEADER: string := "Client-RequestToken"
  const CLIENT_VERSION_HEADER: string := "Client-Version"
  const EX_CONFIG_INFO_HEADER: string := "exConfigInfo"
  const ACCEPT_CHARSET: string := "Accept-Charset"
  const TIMESTAMP: string := "Timestamp"

  /** Header name to value; a value may be null (`None`). */
  type HeaderMap = map<string, Option<string>>

  /** `InternalGetValue`: the stored value, or null for a missing key. */
  function GetValue(m: HeaderMap, key: string): Option<string> {
    if key in m then m[key] else None
  }

  /** `InternalSetValue`: null on a present key removes it; anything else
      is stored, so null on a missing key adds the key with a null value. */
  function SetValue(m: HeaderMap, key: string, value: Option<string>): (r: HeaderMap)
    ensures GetValue(r, key) == value
    ensures key in r <==> value.Some? || key !in m
    ensures forall k :: k != key ==> (k in r <==> k in m) && GetValue(r, k) == GetValue(m, k)
  {
    if value.None? && key in m then m - {key} else m[key := value]
  }

  /** `SetGenericHeaders`: client version, application name, the
      extended-configuration flag and the character set. */
  function Generic(m: HeaderMap, clientVersion: string, appName: string): HeaderMap {
    var m1 := SetValue(m, CLIENT_VERSION_HEADER, Some(clientVersion));
    var m2 := SetValue(m1, CLIENT_APPNAME_HEADER, Some(appName));
    var m3 := SetValue(m2, EX_CONFIG_INFO_HEADER, Some("true"));
    SetValue(m3, ACCEPT_CHARSET, Some("UTF-8"))
  }

  /** On an empty dictionary the generic headers are exactly four keys. */
  lemma GenericHeaders(clientVersion: string, appName: string)
    ensures var m := Generic(map[], clientVersion, appName);
            && m.Keys == {CLIENT_VERSION_HEADER, CLIENT_APPNAME_HEADER, EX_CONFIG_INFO_HEADER, ACCEPT_CHARSET}
            && m[CLIENT_VERSION_HEADER] == Some(clientVersion) && m[CLIENT_APPNAME_HEADER] == Some(appName)
            && m[EX_CONFIG_INFO_HEADER] == Some("true") && m[ACCEPT_CHARSET] == Some("UTF-8")
  {
  }

  /** `NacosHeaders`. */
  class NacosHeaders {
    var headers: HeaderMap

    /** The parameterless constructor sets the generic headers. The client
        version and the process's friendly name come from outside. */
    constructor (clientVersion: string, appName: string)
      ensures headers == Generic(map[], clientVersion, appName)
    {
      headers := Generic(map[], clientVersion, appName);
    }

    /** `NacosHeaders(setGenericHeaders)`: empty unless asked for the
        generic headers. */
    constructor WithGeneric(setGenericHeaders: bool, clientVersion: string, appName: string)
      ensures setGenericHeaders ==> headers == Generic(map[], clientVersion, appName)
      ensures !setGenericHeaders ==> headers == map[]
    {
      headers := if setGenericHeaders then Generic(map[], clientVersion, appName) else map[];
    }

    method SetGenericHeaders(clientVersion: string, appName: string)
      modifies this
      ensures headers == Generic(old(headers), clientVersion, appName)
    {
      InternalSetValue(CLIENT_VERSION_HEADER, Some(clientVersion));
      InternalSetValue(CLIENT_APPNAME_HEADER, Some(appName));
      InternalSetValue(EX_CONFIG_INFO_HEADER, Some("true"));
      InternalSetValue(ACCEPT_CHARSET, Some("UTF-8"));
    }

    /** The getter of every named header property. */
    function InternalGetValue(key: string): Option<string>
      reads this
    {
      GetValue(headers, key)
    }

    /** The setter of every named header property. */
    method InternalSetValue(key: string, value: Option<string>)
      modifies this
      ensures headers == SetValue(old(headers), key, value)
    {
      if value.None? && key in headers {
        headers := headers - {key};
      } else {
        headers := headers[key := value];
      }
    }

    /** The indexer's getter: a missing key throws. */
    function Item(key: string): (r: Outcome<Option<string>>)
      reads this
      ensures r.Success? <==> key in headers
      ensures r.Success? ==> r.value == headers[key]
      ensures r.Failure? ==> r.error == KeyNotFound
    {
      if key in headers then Success(headers[key]) else Failure(KeyNotFound)
    }

    /** The indexer's setter: stores the value, null included. */
    method SetItem(key: string, value: Option<string>)
      modifies this
      ensures headers == old(headers)[key := value]
    {
      headers := headers[key := value];
    }

    /** `Add`: a key already present throws and changes nothing. */
    method Add(key: string, value: Option<string>) returns (r: Outcome<()>)
      modifies this
      ensures r.Success? <==> key !in old(headers)
      ensures r.Success? ==> headers == old(headers)[key := value]
      ensures r.Failure? ==> r.error == Argument("") && headers == old(headers)
    {
      if key in headers {
        return Failure(Argument(""));
      }
      headers := headers[key := value];
      return Success(());
    }

    method Remove(key: string) returns (removed: bool)
      modifies this
      ensures removed <==> key in old(headers)
      ensures headers == old(headers) - {key}
    {
      removed := key in headers;
      headers := headers - {key};
    }

    function ContainsKey(key: string): bool
      reads this
    {
      key in headers
    }

    method Clear()
      modifies this
      ensures headers == map[]
    {
      headers := map[];
    }

    function Count(): nat
      reads this
    {
      |headers|
    }
  }
}
