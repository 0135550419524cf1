# Nacos configuration client, modelled in Dafny

This project models the core of Cuture.Extensions.Configuration.Nacos, a
.NET configuration provider that reads configurations from a Nacos (or
Aliyun ACM) server and keeps them up to date. Each core source file is one
Dafny module:

- **Configuration descriptors** (`descriptor.dfy`): the namespace, group
  and data id that name a configuration, its unique key, the copies that
  carry new content and hash, and the identity comparer built on the key's
  hash code.
- **Server addresses** (`server_uri.dfy`, `address_pool.dfy`): parsing a
  server URI into host, HTTP and gRPC ports or an ACM server list; the
  fixed and the remote address pools that rotate through the servers, the
  remote one filled from a downloaded server list.
- **Subscriptions** (`subscriptions.dfy`, `unsubscriber.dfy`): the registry
  of change callbacks per configuration, and the handle whose first
  dispose removes a callback.
- **HTTP transport** (`http_client.dfy`, `http_requests.dfy`,
  `http_client_factory.dfy`, `access_token.dfy`, `request_signer.dfy`,
  `base64.dfy`, `headers.dfy`, `scaler.dfy`): the request loop that tries
  the servers in turn, the long-polling loop with its back-off, the
  long-poll form data and URIs, the reference-counted message handler,
  login and token refresh, ACM request signing and the header map.
- **gRPC transport** (`grpc_client.dfy`, `grpc_configuration.dfy`,
  `listen_request.dfy`, `request_processing.dfy`): reply classification,
  the connect loop and its probe, health check and reconnect, the
  configuration client's registry, change notification and re-listening,
  and dispatch of server-pushed requests to registered handlers.
- **Middleware** (`work_pipeline.dfy`): how middlewares wrap the endpoint.
- **Parsing and the provider** (`json_parser.dfy`,
  `configuration_provider.dfy`): flattening a JSON tree into `a:b:0` keys
  in a case-insensitive dictionary, picking the first parser that accepts
  the content, and the provider's load, start-up, reload and dispose.
- **Address choice** (`network_util.dfy`): the subnet test, the scoring of
  IPv4 addresses and the pick among the machine's addresses.

Shared modules: `wrappers.dfy` (Option and Result), `errors.dfy` (the
exceptions the source throws, as one datatype) and `text.dfy` (whitespace,
ASCII case folding, decimal digits, splitting).

Classes model the objects whose fields the source updates in place; their
methods are specified against pure functions, and the properties are
lemmas about those functions. Network replies, the clock, randomness,
MD5, HMAC-SHA1 and the JSON reader are parameters: a reply is a function
of the attempt number and the server asked.

## Model

| member | source | states |
|---|---|---|
| AccessTokens.TruncDiv | src/Nacos/AccessTokenService.cs:280 | `ttl / 10` as C# computes it: the remainder `ttl - q*10` has the sign of `ttl` and is below 10 in size, so the quotient truncates toward zero, also for a negative lifetime |
| AccessTokens.NewWrapper | src/Nacos/AccessTokenService.cs:275-281 | a wrapper keeps its token and expires after nine tenths of the lifetime (a tenth early) |
| AccessTokens.TokenLifetime | src/Nacos/AccessTokenService.cs:269-280 | the token is handed out exactly while less than `ttl - ttl/10` seconds have passed, and is absent afterwards |
| AccessTokens.InitialWrapperHasNoToken | src/Nacos/AccessTokenService.cs:26 | the initial wrapper `new("", -1)` never yields a token (see also line 269) |
| AccessTokens.LoginFailsWhenAllAttemptsFail | src/Nacos/AccessTokenService.cs:113-162 | when every attempt fails or is retried, the login fails with LoginFail after max(count, 3) attempts |
| AccessTokens.LoginDecidedByFirstAnswer | src/Nacos/AccessTokenService.cs:113-160 | the first attempt that is not retried decides the login (a response, or LoginFail on 403; an undeserialisable body is retried like any other failure), after exactly that many moves |
| AccessTokens.RetryDelayCapped | src/Nacos/AccessTokenService.cs:206-207 | the refresh retry delay is min(10 * failCount, 120) seconds, between 10 and 120 |
| AccessTokens.AccessTokenService.constructor | src/Nacos/AccessTokenService.cs:62-72 | a new service starts with the expired wrapper, not initiated, not disposed (see also line 26) |
| AccessTokens.AccessTokenService.AccessToken | src/Nacos/AccessTokenService.cs:53 | the live token, or a NacosException once it expired |
| AccessTokens.AccessTokenService.Login | src/Nacos/AccessTokenService.cs:109-163 | the login outcome is LoginFrom over the pool's addresses from its index, and the pool moved once per failed attempt |
| AccessTokens.AccessTokenService.Init | src/Nacos/AccessTokenService.cs:79-95 | a second call does nothing; the first logs in, leaving the pool moved once per failed attempt, and stores the wrapper, starts the refresh and marks the service initiated only on success; it never touches the disposed flag |
| AccessTokens.AccessTokenService.RefreshAccessToken | src/Nacos/AccessTokenService.cs:98-103 | a successful login replaces the wrapper and returns the new token; a failure leaves the wrapper; either way the pool is moved once per failed attempt |
| AccessTokens.AccessTokenService.AutoRefreshTry | src/Nacos/AccessTokenService.cs:186-211 | a successful refresh stores the token and resets the failure count; a failure bumps it and waits RetryDelay; either way the pool is moved once per failed attempt |
| AccessTokens.AccessTokenService.Dispose | src/Nacos/AccessTokenService.cs:240-251 | the first call stops the automatic refresh; later calls change nothing |
| AddressPools.Advance | src/Nacos/FixedServerAddressAccessor.cs:88-97 | after any number of moves the index stays inside the pool |
| AddressPools.AdvanceStep | src/Nacos/FixedServerAddressAccessor.cs:88-97 | one more move is one more step of MoveNextAddress's increment-and-wrap |
| AddressPools.AdvanceWithinRound | src/Nacos/FixedServerAddressAccessor.cs:90-94 | within one round the index is the start plus the moves, wrapped past the end once |
| AddressPools.RoundRobinVisitsAll | src/Nacos/FixedServerAddressAccessor.cs:88-97 | Length moves return the pool to its start and reach every address on the way |
| AddressPools.FixedPool.constructor | src/Nacos/FixedServerAddressAccessor.cs:59-67 | the pool keeps the caller's array, stands at the random index and knows the address there |
| AddressPools.FixedPool.Create | src/Nacos/FixedServerAddressAccessor.cs:47-68 | a null array is ArgumentNullException, an empty one ArgumentException; otherwise a pool at the random index |
| AddressPools.FixedPool.AllAddress | src/Nacos/FixedServerAddressAccessor.cs:26 | a fresh copy with the same addresses |
| AddressPools.FixedPool.GetRandomAddress | src/Nacos/FixedServerAddressAccessor.cs:75 | the address at the random index |
| AddressPools.FixedPool.MoveNextAddress | src/Nacos/FixedServerAddressAccessor.cs:81-98 | a single address is returned with nothing changed; otherwise the index moves on with wrap-around and the new current address is returned |
| AddressPools.ServerListEntry | src/Nacos/RemoteServerAddressAccessor.cs:163-171 | a line without a colon gets the default HTTP port; a line with one is read as given, with `http://` put in front unless it starts with `http` (any case) |
| AddressPools.ServerListEntries | src/Nacos/RemoteServerAddressAccessor.cs:161-171 | every line becomes its address, in order, or the whole list is unreadable |
| AddressPools.FetchTakesFirstWorkingAttempt | src/Nacos/RemoteServerAddressAccessor.cs:156-174 | the first of at most three attempts that succeeds supplies the list |
| AddressPools.FetchFailures | src/Nacos/RemoteServerAddressAccessor.cs:179-191 | three failed attempts, or an empty list, fail the fetch with a NacosException |
| AddressPools.ParseAll | src/Nacos/RemoteServerAddressAccessor.cs:205 | every fetched address parsed as a server address, in order, or the first parse error |
| AddressPools.RemotePool.constructor | src/Nacos/RemoteServerAddressAccessor.cs:53-61 | a new pool holds no addresses and is not disposed |
| AddressPools.RemotePool.Create | src/Nacos/RemoteServerAddressAccessor.cs:55 | a null server-list address is ArgumentNullException |
| AddressPools.RemotePool.AllAddress | src/Nacos/RemoteServerAddressAccessor.cs:141-148 | the pool's own array once set, else NacosException (see also line 37) |
| AddressPools.RemotePool.Count | src/Nacos/RemoteServerAddressAccessor.cs:40 | the count once set, else NacosException |
| AddressPools.RemotePool.CurrentAddress | src/Nacos/RemoteServerAddressAccessor.cs:141-148 | the current address once set, else NacosException (see also line 43) |
| AddressPools.RemotePool.GetRandomAddress | src/Nacos/RemoteServerAddressAccessor.cs:93-103 | NacosException before the first list; the only address of a one-address list; else the one at the random index |
| AddressPools.RemotePool.MoveNextAddress | src/Nacos/RemoteServerAddressAccessor.cs:116-135 | NacosException before the first list; a single address is returned unchanged; otherwise the index wraps past the end to 0 |
| AddressPools.RemotePool.FetchServerList | src/Nacos/RemoteServerAddressAccessor.cs:150-195 | at most three requests; the first readable reply decides (an empty list is an error); a failure while the caller cancels ends the fetch; a successful list is never empty |
| AddressPools.RemotePool.SetNewAddresses | src/Nacos/RemoteServerAddressAccessor.cs:197-214 | null or empty input is a NacosException; otherwise array, count, index and current address are replaced together and are consistent |
| AddressPools.RemotePool.Init | src/Nacos/RemoteServerAddressAccessor.cs:106-113 | fetch then install; a failure leaves the addresses as they were |
| AddressPools.RemotePool.RefreshOnce | src/Nacos/RemoteServerAddressAccessor.cs:223-245 | a successful refresh installs the new list and resets the back-off; a failure raises the back-off and waits that many seconds |
| AddressPools.RemotePool.Dispose | src/Nacos/RemoteServerAddressAccessor.cs:80-90 | the pool is disposed; a second call does nothing more |
| Base64.SextetRoundTrip | src/Nacos/ACMRequestSigner.cs:60 | each six-bit value's alphabet character reads back as that value |
| Base64.Encode | src/Nacos/ACMRequestSigner.cs:60 | four characters for every started group of three bytes |
| Base64.GroupRoundTrip | src/Nacos/ACMRequestSigner.cs:60 | the four sextets cut from three bytes put them back together |
| Base64.EncodeAlphabet | src/Nacos/ACMRequestSigner.cs:60 | every signature character is from the Base64 alphabet except padding, which appears only in the last two places |
| Base64.DecodeGroup | src/Nacos/ACMRequestSigner.cs:60 | a full group decodes to its three bytes, whatever follows |
| Base64.DecodeOne | src/Nacos/ACMRequestSigner.cs:60 | a twice-padded group decodes to its one byte |
| Base64.DecodeTwo | src/Nacos/ACMRequestSigner.cs:60 | a once-padded group decodes to its two bytes |
| Base64.DecodeEncode | src/Nacos/ACMRequestSigner.cs:60 | the signature header loses nothing: decoding it gives back the HMAC bytes exactly |
| RequestSigners.NewSigner | src/Nacos/ACMRequestSigner.cs:25-38 | a null or white-space key, then secret, is ArgumentException naming it; otherwise the signer keeps both |
| RequestSigners.SignTextParts | src/Nacos/ACMRequestSigner.cs:53-55 | the signed text ends with the timestamp, is the timestamp alone exactly when there is no sign data, and otherwise starts with the sign data and `+` |
| RequestSigners.SignedHeaders | src/Nacos/ACMRequestSigner.cs:47-61 | signing adds exactly the timestamp, access-key and signature headers; the signature is the Base64 of the HMAC-SHA1 of the signed text under the secret; every other header is kept |
| RequestSigners.SignAsync | src/Nacos/ACMRequestSigner.cs:45-63 | the request's headers become the signed headers of the old ones |
| Descriptors.Create | src/Nacos/NacosConfigurationDescriptor.cs:49-56 | a null or white-space namespace, then data id, is ArgumentNullException naming it; a null group becomes empty; content and hash are kept |
| Descriptors.CreateDefault | src/Nacos/NacosConfigurationDescriptor.cs:49-56 | without a group argument the descriptor is for DEFAULT_GROUP, with no content and no hash; a blank namespace or data id fails as with any group |
| Descriptors.WithContent | src/Nacos/NacosConfigurationDescriptor.cs:76-79 | a copy built by the constructor with the same identity and hash and the new content |
| Descriptors.WithContentAndHash | src/Nacos/NacosConfigurationDescriptor.cs:87-90 | a copy built by the constructor with the same identity and the new content and hash |
| Descriptors.UniqueKeyInjective | src/Nacos/NacosConfigurationDescriptor.cs:63 | for names without `+`, two configurations share a unique key exactly when they are the same |
| Descriptors.UniqueKeyCollision | src/Nacos/NacosConfigurationDescriptor.cs:63 | with `+` inside a name, two different configurations share a unique key |
| Descriptors.ComparerLaws | src/Nacos/INacosUniqueConfigurationEqualityComparer.cs:12-20 | the comparer is reflexive, symmetric and transitive on present values, never equates null, agrees with its hash code, and equates equal unique keys |
| Scaling.IncreasedBounds | src/Nacos/Internal/Scaler.cs:35-55 | one Add never passes the maximum, never goes down for a non-negative step, stays put at the maximum and adds the step when there is none |
| Scaling.AfterAddsClosedForm | src/Nacos/Internal/Scaler.cs:35-55 | from an initial value at or below the maximum, n Adds give the smaller of init + n·step and the maximum |
| Scaling.AfterAddsAtMax | src/Nacos/Internal/Scaler.cs:39-42 | at the maximum, further Adds change nothing |
| Scaling.PollBackoffSchedule | src/Nacos/Http/NacosConfigurationHttpClient.cs:131 | the `Scaler(0, 10, 60)` back-off is 10, 20, …, 60 seconds and stays at 60 from the sixth failure on |
| Scaling.ServerListBackoffSchedule | src/Nacos/RemoteServerAddressAccessor.cs:221 | the `Scaler(10, 10, 60)` back-off is 20, 30, …, 60 seconds after 1, 2, … failures |
| Scaling.Scaler.constructor | src/Nacos/Internal/Scaler.cs:23-30 | the counter keeps its settings and starts at the initial value |
| Scaling.Scaler.Add | src/Nacos/Internal/Scaler.cs:35-55 | the value becomes one capped step up from the old one |
| Scaling.Scaler.Reset | src/Nacos/Internal/Scaler.cs:60 | the value is the initial value again |
| Headers.SetValue | src/Nacos/Messages/NacosHeaders.cs:114-125 | afterwards the key reads as the value; the key is present unless null removed it; every other key is untouched |
| Headers.GenericHeaders | src/Nacos/Messages/NacosHeaders.cs:95-101 | on an empty dictionary the generic headers are exactly client version, application name, `exConfigInfo=true` and `Accept-Charset=UTF-8` |
| Headers.NacosHeaders.constructor | src/Nacos/Messages/NacosHeaders.cs:75-78 | a parameterless instance holds exactly the generic headers |
| Headers.NacosHeaders.WithGeneric | src/Nacos/Messages/NacosHeaders.cs:84-90 | the generic headers only when asked for, else empty |
| Headers.NacosHeaders.SetGenericHeaders | src/Nacos/Messages/NacosHeaders.cs:95-101 | the four generic headers are set over whatever was there |
| Headers.NacosHeaders.InternalSetValue | src/Nacos/Messages/NacosHeaders.cs:114-125 | the dictionary becomes SetValue of the old one |
| Headers.NacosHeaders.Item | src/Nacos/Messages/NacosHeaders.cs:141 | a present key gives its (possibly null) value; a missing key is KeyNotFoundException |
| Headers.NacosHeaders.SetItem | src/Nacos/Messages/NacosHeaders.cs:141 | the key is stored with the value, null included |
| Headers.NacosHeaders.Add | src/Nacos/Messages/NacosHeaders.cs:144-147 | a new key is added; a present key is ArgumentException and changes nothing |
| Headers.NacosHeaders.Remove | src/Nacos/Messages/NacosHeaders.cs:186-189 | reports whether the key was there, and it is gone afterwards |
| Headers.NacosHeaders.Clear | src/Nacos/Messages/NacosHeaders.cs:156-159 | the dictionary is empty |
| ServerUris.GetScheme | src/Nacos/ServerUri.cs:152-158 | the scheme is normalised to one of `https` and `http` |
| ServerUris.LeadingDigits | src/Nacos/ServerUri.cs:180 | the longest run of decimal digits that starts the text (what `\d+` captures) |
| ServerUris.FindPortMatch | src/Nacos/ServerUri.cs:180 | the leftmost position where `<key>=<digits>` matches, ignoring case, or none when it matches nowhere |
| ServerUris.TryMatchPort | src/Nacos/ServerUri.cs:174-190 | a blank fragment gives no port; a matched port is a 32-bit non-negative number |
| ServerUris.LeadingDigitsOfDigits | src/Nacos/ServerUri.cs:180 | the digits capture stops exactly at the first non-digit |
| ServerUris.TryMatchPortReadsWrittenPort | src/Nacos/ServerUri.cs:174-190 | a fragment `#<key>=<port>` is read back as that port |
| ServerUris.Parse | src/Nacos/ServerUri.cs:95-150 | a null address, and only a null address, is ArgumentNullException; any other failure is the ArgumentException of an unknown scheme or the NacosException of an unreadable port fragment |
| ServerUris.ParseKinds | src/Nacos/ServerUri.cs:95-150 | an address is an ACM server list exactly when its lower-cased scheme contains `acm`; a direct server is secure exactly when the scheme contains `https`; a scheme naming none of acm, grpc and http is ArgumentException |
| ServerUris.ParseAcmDefaults | src/Nacos/ServerUri.cs:107-125 | an ACM address's HTTP address is the server list itself, which keeps host and fragment, gets port 8080 when it has none and the path /nacos/serverlist when its path is blank or one character, and its scheme becomes https or http by whether it names https |
| ServerUris.ParseDerivesMissingPort | src/Nacos/ServerUri.cs:126-142 | without a port fragment, a gRPC address's HTTP port is its port minus 1000 and an HTTP address's gRPC port is its port plus 1000 |
| ServerUris.SchemeFacts | src/Nacos/ServerUri.cs:152-158 | `http` and `https` are classified as themselves |
| ServerUris.ShorterNotContained | src/Nacos/ServerUri.cs:154 | a text never contains a longer one |
| ServerUris.ParseReadsGrpcFragment | src/Nacos/ServerUri.cs:135-142 | an HTTP address with `#GrpcPort=<n>` uses gRPC port n |
| ServerUris.ParsePlainAddress | src/Nacos/ServerUri.cs:126-142 | an `http` address without a fragment parses to an insecure direct server on its port, with the gRPC port 1000 above |
| ServerUris.ParseSecureAddress | src/Nacos/ServerUri.cs:126-142 | an `https` address without a fragment parses to a secure direct server on its port, with the gRPC port 1000 above |
| ServerUris.ParseHttpUriRoundTrip | src/Nacos/ServerUri.cs:95-150 | for a parsed HTTP or HTTPS server whose HTTP and gRPC ports lie in 0..65535, both addresses can be built and parsing the HTTP address gives the same server back (see also lines 44, 192-200) |
| ServerUris.ServerUri.CreateUri | src/Nacos/ServerUri.cs:192-200 | the builder refuses a port outside -1..65535 with ArgumentOutOfRangeException, puts the scheme's default port for -1 and keeps any other port |
| ServerUris.DerivedPortOutOfRange | src/Nacos/ServerUri.cs:126-142 | a gRPC address below port 999 parses but has no HTTP address, an HTTP address above port 64535 parses but has no gRPC address (both ArgumentOutOfRangeException), and a -1 port builds the scheme's default port (see also lines 192-200) |
| ServerUris.AcmOnly | src/Nacos/ServerUriExtensions.cs:27 | the ACM server lists of the input, in order: all of it exactly when every address is one, none exactly when no address is |
| ServerUris.TryGetAcmServerUris | src/Nacos/ServerUriExtensions.cs:20-36 | null is ArgumentNullException; a mix of ACM and direct addresses is a NacosException; otherwise true with every address when all are ACM lists, false with none when none is |
| HttpRequests.NewListeningRequest | src/Nacos/Http/Messages/Request/ListeningConfigurationRequest.cs:44-51 | the request listens for the descriptor's identity and hash with the given hold time |
| HttpRequests.JoinFields | src/Nacos/Http/Messages/Request/ListeningConfigurationRequest.cs:82-84 | three or four fields joined by char 2 read as the literal interpolation |
| HttpRequests.FormData | src/Nacos/Http/Messages/Request/ListeningConfigurationRequest.cs:80-85 | the form data is the fields joined by char 2 and ended by exactly one char 1 |
| HttpRequests.FormDataDecodes | src/Nacos/Http/Messages/Request/ListeningConfigurationRequest.cs:80-85 | splitting the form data at char 2 gives back data id, group and hash, plus the namespace exactly when it is not empty |
| HttpRequests.DefaultTimeoutDigits | src/Nacos/Http/Messages/Request/ListeningConfigurationRequest.cs:71 | the default header text `30000` reads as 30000 |
| HttpRequests.LongPullingTimeoutHeader | src/Nacos/Http/Messages/Request/ListeningConfigurationRequest.cs:71 | the header is decimal digits whose value is the hold time when positive and 30000 otherwise |
| HttpRequests.DefaultTimeoutHeader | src/Nacos/Http/Messages/Request/ListeningConfigurationRequest.cs:44-71 | a request built with the default hold time announces 30000 ms |
| HttpRequests.SignDataPrefixesUniqueKey | src/Nacos/Http/Messages/Request/ListeningConfigurationRequest.cs:58-61 | the sign data is the listened configuration's unique key without its data id |
| HttpRequests.MakeQuery | src/Nacos/Http/Messages/Request/NacosHttpRequest.cs:31-35 | null and empty queries pass unchanged; any other query starts with exactly one added `?` unless it had one |
| HttpRequests.MakeQueryIdempotent | src/Nacos/Http/Messages/Request/NacosHttpRequest.cs:31-35 | prefixing a query twice is the same as once |
| HttpRequests.MakeUri | src/Nacos/Http/Messages/Request/NacosHttpRequest.cs:29-38 | an HTTP port outside -1..65535 is ArgumentOutOfRangeException; otherwise the URI uses the server's scheme, host and HTTP port (the scheme's default for -1), the given path and the prefixed query |
| HttpRequests.ListeningUri | src/Nacos/Http/Messages/Request/ListeningConfigurationRequest.cs:66 | the listening request goes to the listener path on the HTTP port with the namespace as `tenant`, and fails exactly when the HTTP port is out of the builder's range |
| ListenRequests.ContextOf | src/Nacos.Grpc/Messages/RequestExtensions.cs:7-10 | the context names the descriptor's configuration, with its hash as md5 and the empty md5 when there is none |
| ListenRequests.ListenForInjective | src/Nacos.Grpc/NacosConfigurationGrpcClient.cs:138 | two one-configuration requests look alike only for the same configuration, the same md5 and the same direction (see also line 217) |
| ListenRequests.ConfigBatchListenRequest.constructor | src/Nacos.Grpc/Messages/Request/ConfigBatchListenRequest.cs:36-39 | a new request has the given direction and no contexts |
| ListenRequests.ConfigBatchListenRequest.AddListenContext | src/Nacos.Grpc/Messages/Request/ConfigBatchListenRequest.cs:43-48 | exactly one context is appended at the end and the request itself is returned |
| ListenRequests.ConfigBatchListenRequest.AddDefaultGroupListenContext | src/Nacos.Grpc/Messages/Request/ConfigBatchListenRequest.cs:43-48 | without a group argument exactly one context for DEFAULT_GROUP is appended, and the request itself is returned (see also line 78) |
| ListenRequests.ConfigBatchListenRequest.AddDescriptorListenContext | src/Nacos.Grpc/Messages/RequestExtensions.cs:7-10 | the descriptor's context is appended and the request itself is returned |
| ListenRequests.NewListenRequest | src/Nacos.Grpc/NacosConfigurationGrpcClient.cs:138 | a fresh request with the given direction and exactly the descriptor's context (see also line 217) |
| Subscriptions.RemoveLast | src/Nacos/ConfigurationSubscriptionCollection.cs:77-78 | removing a callback from an invocation list drops exactly one occurrence of it, and an absent callback leaves the list as it was |
| Subscriptions.RemoveLastAfterAppend | src/Nacos/ConfigurationSubscriptionCollection.cs:33-78 | removing the callback just appended restores the invocation list |
| Subscriptions.Notifications | src/Nacos/Http/NacosConfigurationHttpClient.cs:176-179 | every callback of the invocation list is called once, in order, with the new descriptor |
| Subscriptions.SpecPreservesWellFormed | src/Nacos/ConfigurationSubscriptionCollection.cs:27-92 | adding and removing keep every registered configuration with at least one callback |
| Subscriptions.RemoveUndoesAdd | src/Nacos/ConfigurationSubscriptionCollection.cs:27-92 | removing the callback just added restores the registry and reports removal exactly when the add reported a new entry |
| Subscriptions.Repeat | tests/Nacos.Tests/ConfigurationSubscriptionCollectionTest.cs:27-30 | n copies of one callback |
| Subscriptions.AddTimesEntry | tests/Nacos.Tests/ConfigurationSubscriptionCollectionTest.cs:27-30 | n additions of one callback to an unknown configuration leave one entry holding n copies |
| Subscriptions.RemoveLastAdded | src/Nacos/ConfigurationSubscriptionCollection.cs:75-88 | removing the last callback of an entry deletes it and reports true; otherwise the entry keeps the rest and false is reported |
| Subscriptions.RemoveAfterRepeatedAdd | tests/Nacos.Tests/ConfigurationSubscriptionCollectionTest.cs:18-46 | a callback added n times needs n removals: the first n-1 report false, the n-th reports true and leaves the registry as before |
| Subscriptions.SubscribeState.constructor | src/Nacos/ConfigurationSubscribeState.cs:31-35 | a state holds the descriptor and a one-callback invocation list |
| Subscriptions.SubscriptionCollection.constructor | src/Nacos/ConfigurationSubscriptionCollection.cs:15 | a new registry is empty |
| Subscriptions.SubscriptionCollection.AddSubscribe | src/Nacos/ConfigurationSubscriptionCollection.cs:27-42 | a known configuration gets the callback appended and false; an unknown one gets a new state and true |
| Subscriptions.SubscriptionCollection.RemoveSubscribe | src/Nacos/ConfigurationSubscriptionCollection.cs:71-93 | one occurrence of the callback is removed; true exactly when that emptied the entry, which is then deleted; an unknown configuration changes nothing |
| Subscriptions.SubscriptionCollection.TryGetSubscribe | src/Nacos/ConfigurationSubscriptionCollection.cs:101-107 | true with the shared state exactly when the configuration is registered, else false with null; nothing changes |
| Subscriptions.SubscriptionCollection.GetAllSubscription | src/Nacos/ConfigurationSubscriptionCollection.cs:57-63 | every state once, one per registered configuration |
| Subscriptions.SubscriptionCollection.Dispose | src/Nacos/ConfigurationSubscriptionCollection.cs:45-51 | the registry is empty |
| Unsubscribers.ConfigurationChangeUnsubscriber.constructor | src/Nacos.Grpc/ConfigurationChangeUnsubscriber.cs:23-45 | a new handle holds its descriptor, callback and action and has not been disposed |
| Unsubscribers.ConfigurationChangeUnsubscriber.Create | src/Nacos.Grpc/ConfigurationChangeUnsubscriber.cs:27-40 | a null descriptor, callback or action, in that order, is ArgumentNullException naming it |
| Unsubscribers.ConfigurationChangeUnsubscriber.DisposeAsync | src/Nacos.Grpc/ConfigurationChangeUnsubscriber.cs:51-65 | the first call clears the fields and runs the action once with the original descriptor and callback; later calls only count and run nothing |
| Unsubscribers.DisposeTwice | src/Nacos.Grpc/ConfigurationChangeUnsubscriber.cs:53 | disposing twice runs the action exactly once |
| RequestProcessing.RequestProcessor.HandleAsync | src/Nacos.Grpc/RequestHandle/RequestProcessor.cs:40-47 | a request goes to the handler registered for its exact type; an unregistered type is UnknownMessageException; the map is not touched |
| RequestProcessing.NewRequestProcessor | src/Nacos.Grpc/RequestHandle/RequestProcessor.cs:26-29 | a null map is ArgumentNullException; otherwise the processor holds exactly the given map |
| RequestProcessing.RegisterSpec | src/Nacos.Grpc/RequestHandle/RequestProcessorBuilder.cs:78-98 | a null handler is ArgumentNullException; a type already registered is ArgumentException; otherwise the type is added |
| RequestProcessing.DispatchAfterRegister | src/Nacos.Grpc/RequestHandle/RequestProcessor.cs:40-47 | after registering a handler for a type, that type dispatches to it and every other type dispatches as before |
| RequestProcessing.AddAllSpec | src/Nacos.Grpc/RequestHandle/RequestProcessorBuilder.cs:59-69 | assembly registration gets through exactly when every discovered type is new and distinct; existing handlers are never replaced; on success every discovered handler is registered and nothing else is added |
| RequestProcessing.RequestProcessorBuilder.constructor | src/Nacos.Grpc/RequestHandle/RequestProcessorBuilder.cs:27-32 | the builder starts from the discovered handlers |
| RequestProcessing.RequestProcessorBuilder.RegisterHandler | src/Nacos.Grpc/RequestHandle/RequestProcessorBuilder.cs:78-98 | a successful registration adds the handler and returns the builder itself; a refused one changes nothing |
| RequestProcessing.RequestProcessorBuilder.RegisterAssembly | src/Nacos.Grpc/RequestHandle/RequestProcessorBuilder.cs:52-70 | a null assembly is ArgumentNullException; the discovered handlers are added up to the first duplicate, which is ArgumentException; otherwise the builder itself is returned |
| RequestProcessing.RequestProcessorBuilder.Build | src/Nacos.Grpc/RequestHandle/RequestProcessorBuilder.cs:42-45 | the processor dispatches exactly the collected types |
| WorkPipelines.NestOrder | src/Nacos/Middleware/WorkPipeline/WorkPipelineBuilder.cs:44-54 | a built pipeline passes a call through the middlewares in the order they were added and ends at the endpoint |
| WorkPipelines.NestCons | src/Nacos/Middleware/WorkPipeline/WorkPipelineBuilder.cs:48-51 | wrapping one more middleware around a pipeline puts it first |
| WorkPipelines.WorkPipelineBuilder.constructor | src/Nacos/Middleware/WorkPipeline/WorkPipelineBuilder.cs:33-38 | a new builder holds the endpoint and no middleware |
| WorkPipelines.WorkPipelineBuilder.Create | src/Nacos/Middleware/WorkPipeline/WorkPipelineBuilder.cs:35 | a null endpoint is ArgumentNullException |
| WorkPipelines.WorkPipelineBuilder.Use | src/Nacos/Middleware/WorkPipeline/WorkPipelineBuilder.cs:56-60 | the middleware is appended at the end and the builder itself is returned |
| WorkPipelines.WorkPipelineBuilder.Build | src/Nacos/Middleware/WorkPipeline/WorkPipelineBuilder.cs:44-54 | the first middleware added is outermost, the endpoint innermost; with none, the endpoint itself |
| WorkPipelines.BuildGetConfigurationDelegate | src/Nacos/Middleware/ConfigurationClientMiddlewareExtensions.cs:23-39 | no middlewares gives the endpoint itself; otherwise the middlewares wrap the endpoint in the order given |
| HttpClients.PreparedQueryAddsToken | src/Nacos/Http/NacosHttpClient.cs:197-221 | a blank token leaves the query alone; any other token becomes exactly one more parameter, `accessToken=<token>`, after the request's own, joined by `?` or `&` |
| HttpClients.RequestFromAsWritten | src/Nacos/Http/NacosHttpClient.cs:131-166 | as written, a request succeeds only with the body of the first attempt that got a 200, every attempt before it having got something else |
| HttpClients.RequestAsWrittenErrors | src/Nacos/Http/NacosHttpClient.cs:131-166 | as written, a request can fail only with the all-servers-tried error: forbidden and not found are swallowed by the retry |
| HttpClients.RequestAsWrittenWithoutOk | src/Nacos/Http/NacosHttpClient.cs:131-166 | as written, a request that never gets a 200 makes every attempt and then fails |
| HttpClients.RequestDecidedByFirstSettled | src/Nacos/Http/NacosHttpClient.cs:131-166 | the first attempt that gets 200, 403 or 404 decides the request, after one move to the next server per earlier attempt |
| HttpClients.RequestFailsWhenNothingSettles | src/Nacos/Http/NacosHttpClient.cs:131-166 | when no attempt settles, max(Count, 3) attempts are made, one per move, covering every server, and the request fails as all servers tried |
| HttpClients.RequestErrors | src/Nacos/Http/NacosHttpClient.cs:150-166 | corrected, a request fails only as forbidden, not found, or all servers tried |
| HttpClients.CorrectionOnlyAffects403And404 | src/Nacos/Http/NacosHttpClient.cs:150-163 | while no server answers 403 or 404, the corrected loop behaves exactly as written |
| HttpClients.EveryServerNotFound | src/Nacos/Http/NacosHttpClient.cs:150-166 | with every server answering 404, as written the request ends with the generic error, corrected it ends as not found at once |
| HttpClients.ConfigurationNeverNotFoundAsWritten | src/Nacos/Http/NacosConfigurationHttpClient.cs:115-127 | as written, a configuration fetch is never reported missing |
| HttpClients.ConfigurationFetchOutcome | src/Nacos/Http/NacosConfigurationHttpClient.cs:115-127 | corrected, a fetch is reported missing exactly when the request ends not found; a fetched descriptor keeps its identity and carries the body and its MD5 |
| HttpClients.UnsubscribeSourcesAsWritten | src/Nacos/Http/NacosConfigurationHttpClient.cs:227-236 | as written, removing the last callback cancels the configuration's token source but keeps it registered; every other source is untouched |
| HttpClients.ResubscribeAsWritten | src/Nacos/Http/NacosConfigurationHttpClient.cs:59-76 | as written, subscribing again after the last unsubscribe registers the callback but starts no polling loop, and the key's only token source is cancelled (see also lines 227-236) |
| HttpClients.ResubscribeCorrected | src/Nacos/Http/NacosConfigurationHttpClient.cs:59-76 | corrected, the second subscription starts a new polling loop with a live token source (see also lines 227-236) |
| HttpClients.CorrectedSourcesStayLive | src/Nacos/Http/NacosConfigurationHttpClient.cs:63-76 | the corrected bookkeeping never keeps a cancelled token source (see also lines 227-236) |
| HttpClients.PollSpec | src/Nacos/Http/NacosConfigurationHttpClient.cs:133-212 | a polling round that goes on keeps the descriptor's identity |
| HttpClients.PollRules | src/Nacos/Http/NacosConfigurationHttpClient.cs:133-212 | a blank response notifies nobody and resets the scaler; an untracked configuration ends the loop; an empty prior hash notifies nobody; otherwise every callback hears of the fetched descriptor; the loop continues with the fetched content and hash; not found backs off, any other error leaves a cancelled loop and backs off otherwise |
| HttpClients.PollBackoffDelays | src/Nacos/Http/NacosConfigurationHttpClient.cs:195-212 | a poll that fails round after round waits at each step one more capped Add of the scaler and notifies nobody (see also line 131) |
| HttpClients.PollBackoffFromStart | src/Nacos/Http/NacosConfigurationHttpClient.cs:195-212 | from a fresh `Scaler(0, 10, 60)` the j-th wait is min(10·j, 60) seconds (see also line 131) |
| HttpClients.ConfigurationHttpClient.constructor | src/Nacos/Http/NacosConfigurationHttpClient.cs:26-28 | a new client has an empty registry, no token sources, and is neither initiated nor disposed |
| HttpClients.ConfigurationHttpClient.Init | src/Nacos/Http/NacosHttpClient.cs:80-102 | refused once disposed; a no-op once initiated; a failing token service disposes the client and is wrapped as a NacosException |
| HttpClients.ConfigurationHttpClient.Request | src/Nacos/Http/NacosHttpClient.cs:126-167 | refused once disposed or before initialisation; otherwise the outcome of the corrected request loop, with the pool moved on once per failed attempt |
| HttpClients.ConfigurationHttpClient.GetConfiguration | src/Nacos/Http/NacosConfigurationHttpClient.cs:115-127 | the corrected fetch outcome for the configuration's query (see also lines 49-52) |
| HttpClients.ConfigurationHttpClient.Subscribe | src/Nacos/Http/NacosConfigurationHttpClient.cs:55-84 | the callback is registered, and a polling loop starts exactly when the configuration has no token source |
| HttpClients.ConfigurationHttpClient.UnSubscribe | src/Nacos/Http/NacosConfigurationHttpClient.cs:216-237 | a null callback does nothing; otherwise one occurrence is removed, and when that was the last the token source is cancelled and dropped (corrected) |
| HttpClients.ConfigurationHttpClient.PollOnce | src/Nacos/Http/NacosConfigurationHttpClient.cs:133-212 | one round decides as PollSpec; backing off grows the scaler, carrying on resets it, leaving keeps it |
| HttpClients.ConfigurationHttpClient.Polling | src/Nacos/Http/NacosConfigurationHttpClient.cs:129-214 | the loop's run: its last descriptor, every callback invocation in order and every wait, for at most the given rounds |
| HttpClients.ConfigurationHttpClient.Dispose | src/Nacos/Http/NacosConfigurationHttpClient.cs:91-109 | the registry is emptied, every token source cancelled and dropped, and the client is disposed |
| HttpClientFactories.Increment | src/Nacos/DefaultNacosUnderlyingHttpClientFactory.cs:134-146 | a handler not ready to be disposed counts one more reference; a ready one refuses with InvalidOperationException and keeps its count |
| HttpClientFactories.Decrement | src/Nacos/DefaultNacosUnderlyingHttpClientFactory.cs:120-132 | one reference less; the handler is disposed when the count reaches zero on a ready handler |
| HttpClientFactories.MakeReady | src/Nacos/DefaultNacosUnderlyingHttpClientFactory.cs:151-163 | the handler takes no more references and is disposed at once when unreferenced |
| HttpClientFactories.TransitionsKeepConsistent | src/Nacos/DefaultNacosUnderlyingHttpClientFactory.cs:120-163 | the three transitions keep a handler disposed only once ready, and disposed once ready and unreferenced |
| HttpClientFactories.LiveCount | src/Nacos/DefaultNacosUnderlyingHttpClientFactory.cs:93-104 | the number of clients on a handler not yet disposed, never more than the clients made |
| HttpClientFactories.SoundPreserved | src/Nacos/DefaultNacosUnderlyingHttpClientFactory.cs:120-163 | making clients, disposing each once and retiring the handler keep the count equal to the live clients and never dispose the handler under a live client (see also lines 38-50, 93-104) |
| HttpClientFactories.NewHandlerSound | src/Nacos/DefaultNacosUnderlyingHttpClientFactory.cs:114-118 | a new handler with no clients is sound (see also line 15) |
| HttpClientFactories.DisposeClientAsWritten | src/Nacos/DefaultNacosUnderlyingHttpClientFactory.cs:99-104 | as written, every dispose of a client marks it disposed and gives back one reference, even when it was already disposed |
| HttpClientFactories.DoubleDisposeReleasesLiveHandler | src/Nacos/DefaultNacosUnderlyingHttpClientFactory.cs:99-104 | as written, disposing one client twice and then retiring the handler disposes it while another client still uses it |
| HttpClientFactories.CountingHandler.constructor | src/Nacos/DefaultNacosUnderlyingHttpClientFactory.cs:109-118 | a new handler has no references and is neither ready nor disposed |
| HttpClientFactories.CountingHandler.IncrementReference | src/Nacos/DefaultNacosUnderlyingHttpClientFactory.cs:134-146 | the state moves as Increment says, and a refusal changes nothing |
| HttpClientFactories.CountingHandler.DecrementReference | src/Nacos/DefaultNacosUnderlyingHttpClientFactory.cs:120-132 | the state moves as Decrement says |
| HttpClientFactories.CountingHandler.MakeDisposeReady | src/Nacos/DefaultNacosUnderlyingHttpClientFactory.cs:151-163 | the state moves as MakeReady says |
| HttpClientFactories.CountingClient.constructor | src/Nacos/DefaultNacosUnderlyingHttpClientFactory.cs:93-97 | a new client on the handler, not yet disposed |
| HttpClientFactories.CountingClient.Dispose | src/Nacos/DefaultNacosUnderlyingHttpClientFactory.cs:99-104 | corrected: the first call gives back the client's reference, later calls leave the handler alone |
| HttpClientFactories.HttpClientFactory.constructor | src/Nacos/DefaultNacosUnderlyingHttpClientFactory.cs:13-33 | a new factory is live with a fresh, unreferenced handler |
| HttpClientFactories.HttpClientFactory.CreateClient | src/Nacos/DefaultNacosUnderlyingHttpClientFactory.cs:38-50 | refused once disposed; otherwise the current handler counts one more reference and the client gets the server's HTTP address, and when that address cannot be built its exception is thrown with the reference still taken |
| HttpClientFactories.HttpClientFactory.SwapHandler | src/Nacos/DefaultNacosUnderlyingHttpClientFactory.cs:23-31 | a live factory installs a fresh handler and makes the old one dispose-ready; a disposed one changes nothing |
| HttpClientFactories.HttpClientFactory.Dispose | src/Nacos/DefaultNacosUnderlyingHttpClientFactory.cs:75-85 | the first call retires the current handler; later calls do nothing |
| GrpcClients.Classify | src/Nacos.Grpc/NacosGrpcClient.cs:205-224 | success exactly when a response came back with code None or ConfigurationNotFound, and then it is passed through unchanged; no response is a NacosException; Forbidden and ConnectionUnRegistered raise their own exceptions; every other code is an unknown-code NacosException |
| GrpcClients.ClassifyErrorsDistinct | src/Nacos.Grpc/NacosGrpcClient.cs:209-224 | two failed classifications with the same error agree on whether a response came back and, for Forbidden and ConnectionUnRegistered, on its code |
| GrpcClients.Typed | src/Nacos.Grpc/NacosGrpcClient.cs:133-142 | a typed request succeeds exactly when the untyped one does and the response has the asked type; errors pass through; a response of another type is a NacosException |
| GrpcClients.ProbeRule | src/Nacos.Grpc/NacosGrpcClient.cs:448-464 | a new connection passes its probe exactly when each of the six health checks succeeds or, except the last, finds the connection unregistered |
| GrpcClients.LastProbeUnregistered | src/Nacos.Grpc/NacosGrpcClient.cs:457-462 | an unregistered connection at the sixth check fails the attempt whatever the earlier checks said |
| GrpcClients.ConnectFromFinds | src/Nacos.Grpc/NacosGrpcClient.cs:435-486 | the connect loop settles on the first of the max(count, 3) attempts that opens and passes its probe, and settles on none only when no attempt does |
| GrpcClients.ConnectFailureTriesAll | src/Nacos.Grpc/NacosGrpcClient.cs:435-490 | when connecting fails, no attempt connected, the pool was moved at least once per server, and with three or more servers it is back at its starting address |
| GrpcClients.ConnectFromFirst | src/Nacos.Grpc/NacosGrpcClient.cs:435-478 | if attempt k connects and none of the earlier ones does, the connect loop returns attempt k |
| GrpcClients.GrpcClient.constructor | src/Nacos.Grpc/NacosGrpcClient.cs:55-89 | a new client has no transport, no connection source, is neither initiated nor disposed |
| GrpcClients.GrpcClient.Create | src/Nacos.Grpc/NacosGrpcClient.cs:55-68 | null options are ArgumentNullException; a health-check interval under one second or a missing host address accessor is ArgumentOutOfRangeException; otherwise a fresh uninitiated client |
| GrpcClients.GrpcClient.Request | src/Nacos.Grpc/NacosGrpcClient.cs:145-152 | without a transport the request fails as not ready; an access token the service cannot hand out (the NacosException of an expired token) fails the request before anything is sent; otherwise the result is the classification of the transport server's reply to the request, which carries the token header exactly when the token is not blank (see also lines 191-193, 355-361) |
| GrpcClients.TokenHeader | src/Nacos.Grpc/NacosGrpcClient.cs:355-361 | a request carries the token as its access-token header exactly when the token is not blank |
| GrpcClients.GrpcClient.RequestTyped | src/Nacos.Grpc/NacosGrpcClient.cs:133-142 | the typed request fails as the untyped one does without a transport or with an expired token, and is otherwise the type check of the classified reply |
| GrpcClients.GrpcClient.Probe | src/Nacos.Grpc/NacosGrpcClient.cs:448-464 | the probe loop's verdict is the probe rule over all six checks |
| GrpcClients.GrpcClient.ConnectAttempts | src/Nacos.Grpc/NacosGrpcClient.cs:435-486 | the loop returns the first connecting attempt and leaves the pool moved once per failed attempt |
| GrpcClients.GrpcClient.TryConnect | src/Nacos.Grpc/NacosGrpcClient.cs:426-513 | a new linked source is created; a cancelled client fails with nothing changed; a connection installs the current server and the new source; failure cancels the new source, keeps the old transport and fails as all servers tried |
| GrpcClients.GrpcClient.HealthCheck | src/Nacos.Grpc/NacosGrpcClient.cs:240-273 | every check made passed; the loop stops at a cancelled source or the first failing check and only then starts a reconnect, which cancels the connection source unless the client is disposed |
| GrpcClients.GrpcClient.StartReconnect | src/Nacos.Grpc/NacosGrpcClient.cs:379-392 | a disposed client starts nothing; otherwise the connection source is cancelled and the loop starts |
| GrpcClients.GrpcClient.DestroyChannel | src/Nacos.Grpc/NacosGrpcClient.cs:515-536 | the transport is dropped and the client stays consistent |
| GrpcClients.GrpcClient.ReconnectLoop | src/Nacos.Grpc/NacosGrpcClient.cs:393-419 | waits five seconds, then after the j-th failure min(10j, 60) seconds; a restored connection is the latest, uncancelled source; without one the client was disposed or every round was used |
| GrpcClients.GrpcClient.Init | src/Nacos.Grpc/NacosGrpcClient.cs:96-120 | a disposed client is ObjectDisposedException; an initiated one returns at once; success exactly when both initialisations succeed and a server connects; any failure disposes the client and is a NacosException |
| GrpcClients.GrpcClient.Dispose | src/Nacos.Grpc/NacosGrpcClient.cs:613-625 | the first call cancels the connection source and the running source; a second call changes nothing; the transport and sources are untouched |
| GrpcConfigurationClients.QueryOutcome | src/Nacos.Grpc/NacosConfigurationGrpcClient.cs:43-53 | a successful query gives a valid descriptor for the same configuration |
| GrpcConfigurationClients.QueryOutcomeCases | src/Nacos.Grpc/NacosConfigurationGrpcClient.cs:46-53 | the query succeeds exactly on a query response with code None and then carries its content and md5; ConfigurationNotFoundException exactly on a query response with code 300; a passing reply of another type is a type mismatch |
| GrpcConfigurationClients.ConfigurationGrpcClient.constructor | src/Nacos.Grpc/NacosConfigurationGrpcClient.cs:22-31 | a new client holds no subscriptions |
| GrpcConfigurationClients.ConfigurationGrpcClient.Fetch | src/Nacos.Grpc/NacosConfigurationGrpcClient.cs:38-54 | a fetched descriptor is valid and names the configuration asked for |
| GrpcConfigurationClients.ConfigurationGrpcClient.GetConfiguration | src/Nacos.Grpc/NacosConfigurationGrpcClient.cs:38-54 | an uninitiated client fails first, a disposed one next; a ready client with a transport fails with the token service's NacosException when the token has expired, and otherwise gives the query outcome of the server's reply to the request carrying the token (see also src/Nacos.Grpc/NacosGrpcClient.cs:355-361) |
| GrpcConfigurationClients.ConfigurationGrpcClient.Subscribe | src/Nacos.Grpc/NacosConfigurationGrpcClient.cs:57-81 | after the readiness checks the listen request is sent first; only when it succeeds is the callback added to the registry (appended to an existing entry) and a fresh undisposed handle returned for exactly that descriptor and callback; an expired token fails the listen request and leaves the registry as it was |
| GrpcConfigurationClients.ConfigurationGrpcClient.UnSubscribe | src/Nacos.Grpc/NacosConfigurationGrpcClient.cs:192-221 | a null callback does nothing; otherwise the callback leaves the registry (the entry goes when none remain) and a stop-listening request is sent, whose failure, an expired token included, is the result |
| GrpcConfigurationClients.ConfigurationGrpcClient.CallAll | src/Nacos.Grpc/NacosConfigurationGrpcClient.cs:173-178 | every callback is called with the new descriptor, in order, and the whole fails exactly when one of them fails |
| GrpcConfigurationClients.ConfigurationGrpcClient.Notify | src/Nacos.Grpc/NacosConfigurationGrpcClient.cs:150-190 | an untracked configuration is ignored; otherwise fetch, call every callback, relisten with the new descriptor, and only after all succeed does the registry hold the new descriptor; a failure anywhere, an expired token on either request included, leaves the registry as it was; keys and callbacks never change |
| GrpcConfigurationClients.ConfigurationGrpcClient.OnConnectionRestore | src/Nacos.Grpc/NacosConfigurationGrpcClient.cs:98-123 | one listen request per subscribed configuration, each for a subscribed descriptor, and every subscribed descriptor gets one |
| GrpcConfigurationClients.ConfigurationGrpcClient.Dispose | src/Nacos.Grpc/NacosConfigurationGrpcClient.cs:88-95 | the registry is emptied and the transport disposed: a first dispose cancels the connection's token source, a later one cancels nothing more, and the connection and transport are otherwise untouched |
| JsonConfigurationParsers.CombinePath | src/Nacos/Parser/JsonConfigurationParser.cs:62-69 | under a blank path the key is the section; otherwise it is the path, a ':' and the section, each recoverable from the result |
| JsonConfigurationParsers.InsertAll | src/Nacos/Parser/JsonConfigurationParser.cs:96-100 | storing leaves fails only with FormatException |
| JsonConfigurationParsers.InsertAllSucceeds | src/Nacos/Parser/JsonConfigurationParser.cs:96-100 | storing leaves one by one succeeds exactly when no key is already present and no two keys are equal, case aside |
| JsonConfigurationParsers.InsertAllContents | src/Nacos/Parser/JsonConfigurationParser.cs:96-100 | after storing, old entries are unchanged, each leaf is found under its folded key with its original key and value, and no other key was added |
| JsonConfigurationParsers.InsertAllAppend | src/Nacos/Parser/JsonConfigurationParser.cs:76-88 | storing one list of leaves and then another is storing their concatenation |
| JsonConfigurationParsers.InsertAllPrefixFails | src/Nacos/Parser/JsonConfigurationParser.cs:96-98 | a duplicate found among the first leaves fails the whole document |
| JsonConfigurationParsers.MemberAdvance | src/Nacos/Parser/JsonConfigurationParser.cs:76-79 | visiting the next object member onto the dictionary left by the earlier ones extends the object's flattening by that member |
| JsonConfigurationParsers.MemberFails | src/Nacos/Parser/JsonConfigurationParser.cs:76-79 | a member whose subtree fails makes the whole object fail with FormatException |
| JsonConfigurationParsers.MembersDone | src/Nacos/Parser/JsonConfigurationParser.cs:75-80 | all members visited in turn are the object's flattening |
| JsonConfigurationParsers.ItemAdvance | src/Nacos/Parser/JsonConfigurationParser.cs:83-88 | visiting the next array item under its index extends the array's flattening by that item |
| JsonConfigurationParsers.ItemFails | src/Nacos/Parser/JsonConfigurationParser.cs:84-88 | an item whose subtree fails makes the whole array fail with FormatException |
| JsonConfigurationParsers.ItemsDone | src/Nacos/Parser/JsonConfigurationParser.cs:82-89 | all items visited in turn are the array's flattening |
| JsonConfigurationParsers.MemberLeavesPrefix | src/Nacos/Parser/JsonConfigurationParser.cs:76-79 | the leaves of the first n members come before those of any later member |
| JsonConfigurationParsers.ItemLeavesPrefix | src/Nacos/Parser/JsonConfigurationParser.cs:83-88 | the leaves of the first n items come before those of any later item |
| JsonConfigurationParsers.ConfigurationData.constructor | src/Nacos/Parser/JsonConfigurationParser.cs:39 | the dictionary starts empty |
| JsonConfigurationParsers.ConfigurationData.ContainsKey | src/Nacos/Parser/JsonConfigurationParser.cs:39 | a key is present exactly when some key equal to it up to case is (see also line 96) |
| JsonConfigurationParsers.ConfigurationData.Set | src/Nacos/Parser/JsonConfigurationParser.cs:100 | the entry under the key's case-folded form becomes this key and value, and nothing else changes; it is only called after `ContainsKey` said no, so no entry with an older spelling of the key is ever overwritten |
| JsonConfigurationParsers.VisitJsonElement | src/Nacos/Parser/JsonConfigurationParser.cs:71-107 | an Undefined element or a duplicate key, case aside, is FormatException; otherwise every scalar is stored under its path in document order, exactly as the flattening says |
| JsonConfigurationParsers.StoreOne | src/Nacos/Parser/JsonConfigurationParser.cs:91-101 | a scalar whose key is present fails; otherwise it is stored under its path with its text |
| JsonConfigurationParsers.VisitMembers | src/Nacos/Parser/JsonConfigurationParser.cs:75-80 | the object case stores each member under path:name in member order, failing as soon as a member fails |
| JsonConfigurationParsers.VisitItems | src/Nacos/Parser/JsonConfigurationParser.cs:82-89 | the array case stores item i under path:i in order, failing as soon as an item fails |
| JsonConfigurationParsers.ReadDocument | src/Nacos/Parser/JsonConfigurationParser.cs:53-58 | the whole-content reader either reads a document or throws JsonException, never answering false; blank content, having no JSON token, throws |
| JsonConfigurationParsers.CanParse | src/Nacos/Parser/JsonConfigurationParser.cs:26-34 | blank content is accepted; other content is accepted exactly when the reader reads a document, and otherwise the reader's JsonException is thrown; the answer is never false |
| JsonConfigurationParsers.Parse | src/Nacos/Parser/JsonConfigurationParser.cs:37-47 | the reader's JsonException when it reads no document, blank content included; else the flattening of the root at the empty path |
| JsonConfigurationParsers.ParseResult | src/Nacos/Parser/JsonConfigurationParser.cs:71-107 | a non-blank content whose document is read parses exactly when it has no Undefined element and no two leaf keys equal up to case; then each leaf is under its key and nothing else is stored (see also lines 37-47) |
| JsonConfigurationParsers.UnreadableThrows | src/Nacos/Parser/JsonConfigurationParser.cs:26-58 | non-blank content the reader cannot read is JsonException from both CanParse and Parse; blank content is accepted by CanParse but is JsonException from Parse |
| JsonConfigurationParsers.ScalarItemPaths | src/Nacos/Parser/JsonConfigurationParser.cs:83-88 | scalar array items are stored under path:0, path:1, ... in order |
| JsonConfigurationParsers.ScalarMemberPaths | src/Nacos/Parser/JsonConfigurationParser.cs:76-79 | scalar object members are stored under path:name in member order |
| JsonConfigurationParsers.CaseCollision | src/Nacos/Parser/JsonConfigurationParser.cs:96-98 | two members whose names differ only in case collide, so the document is FormatException (see also line 39) |
| JsonConfigurationParsers.ScalarArrayFlattens | src/Nacos/Parser/JsonConfigurationParser.cs:82-89 | a flat array of scalars always parses: index keys never collide, even with case folded |
| JsonConfigurationParsers.IndexKeysDiffer | src/Nacos/Parser/JsonConfigurationParser.cs:86 | the keys of two different indexes under the same path differ, case aside |
| NetworkUtils.IndexOfFirst | src/Nacos/Utils/NetworkUtil.cs:71 | the first position of the character is what the search finds |
| NetworkUtils.ParseMask | src/Nacos/Utils/NetworkUtil.cs:71-86 | a mask without '/' is NotSupportedException; a mask address that parses and has the address's family is returned with the prefix length read after the '/' |
| NetworkUtils.ParseMaskOf | src/Nacos/Utils/NetworkUtil.cs:71-86 | a mask written as address, '/' and length is cut at that '/' into exactly those two parts |
| NetworkUtils.ParseMaskMask | src/Nacos/Utils/NetworkUtil.cs:78-86 | a same-family mask address with a readable length parses to that address and length |
| NetworkUtils.MismatchIgnoresLength | src/Nacos/Utils/NetworkUtil.cs:80-86 | a mask of another address family answers false before the prefix length is read, even when the length is not a number |
| NetworkUtils.ComparePrefixMeaning | src/Nacos/Utils/NetworkUtil.cs:120-128 | the IPv6 loop as written answers true exactly when the prefix is at most 128 bits and those bits agree in BitArray order, and throws exactly when the prefix is longer and all 128 bits agree |
| NetworkUtils.ComparePrefixBits | src/Nacos/Utils/NetworkUtil.cs:109-128 | the IPv6 comparison loop computes the as-written prefix comparison |
| NetworkUtils.IsInSubnetAsWritten | src/Nacos/Utils/NetworkUtil.cs:69-132 | IsInSubnet as the source has it: parse errors, false on a family mismatch, the shifted-mask compare for IPv4, the bit loop for IPv6, NotSupportedException for other families |
| NetworkUtils.V4AgreesOnPositiveLengths | src/Nacos/Utils/NetworkUtil.cs:97-103 | for IPv4 prefix lengths 1 to 32 the comparison as written equals the intended one |
| NetworkUtils.V4PrefixExtremes | src/Nacos/Utils/NetworkUtil.cs:97-103 | as intended, an IPv4 /0 subnet holds every address and a /32 subnet only its own address |
| NetworkUtils.V6PrefixExtremes | src/Nacos/Utils/NetworkUtil.cs:109-128 | as intended, an IPv6 /0 subnet holds every address and a /128 subnet only its own address |
| NetworkUtils.V6AsWrittenExtremes | src/Nacos/Utils/NetworkUtil.cs:109-128 | the IPv6 loop as written also gives all addresses at /0 and only the address itself at /128, so it parts from the intended test only on prefixes ending inside a byte |
| NetworkUtils.ZeroPrefixAsWritten | src/Nacos/Utils/NetworkUtil.cs:97 | 0.0.0.0/0 should hold 10.0.0.1, but as written the shift by 32 is a shift by 0 and the answer is false |
| NetworkUtils.LowBitFirstAsWritten | src/Nacos/Utils/NetworkUtil.cs:109-122 | fec0::1 is outside fe80::/10, yet the loop as written, reading each byte from its low bit, answers true |
| NetworkUtils.DottedQuadParts | src/Nacos/Utils/NetworkUtil.cs:164 | splitting an IPv4 address's text at the dots gives its four numbers |
| NetworkUtils.ScoringInterNetwork | src/Nacos/Utils/NetworkUtil.cs:141-200 | an IPv4 address scores one of 0, 900, 905, 910, -1 and 1000, and loopback scores 0 |
| NetworkUtils.Score | src/Nacos/Utils/NetworkUtil.cs:207-226 | every score lies between -1 and 1000, and only an IPv4 address outside loopback can score below 0 |
| NetworkUtils.ScoreTable | src/Nacos/Utils/NetworkUtil.cs:141-200 | scores: loopback 0, 10/8 900, 172.16/12 905, 192.168/16 910, 169.254/16 -1, any other IPv4 1000; IPv6 and other families 0 (see also lines 218-226) |
| NetworkUtils.FirstInSubnet | src/Nacos/Utils/NetworkUtil.cs:44-54 | corrected: the subnet search returns the first address of the list that the corrected subnet test places in the subnet, passes on the first error of that test, and is NotSupportedException when none is in it |
| NetworkUtils.GetValuableIPAddress | src/Nacos/Utils/NetworkUtil.cs:34-60 | no address is NotSupportedException; with a subnet, corrected: the first address the corrected subnet test accepts; otherwise an address of the highest score, the first such in the list |
| NetworkUtils.SearchSubnet | src/Nacos/Utils/NetworkUtil.cs:46-53 | corrected: the scan in list order stops at the first address the corrected subnet test accepts, or at the first address whose test throws, exactly as the recursive definition of the search says |
| NetworkUtils.HighestScore | src/Nacos/Utils/NetworkUtil.cs:59 | the stable descending order's first element: no score is higher, and every earlier score is strictly lower |
| ConfigurationProviders.Pick | src/Cuture.Extensions.Configuration.Nacos/NacosConfigurationProvider.cs:156-163 | the chosen parser accepts the content and every parser before it refuses it; none is chosen exactly when every parser refuses; an exception means some parser's CanParse threw it after every earlier parser refused |
| ConfigurationProviders.PickFirst | src/Cuture.Extensions.Configuration.Nacos/NacosConfigurationProvider.cs:156-163 | the first parser that does not refuse decides: its CanParse exception is the choice's exception, or it is the parser chosen |
| ConfigurationProviders.LoadCases | src/Cuture.Extensions.Configuration.Nacos/NacosConfigurationProvider.cs:146-164 | blank content clears the data; content every parser refuses leaves the data as it was; otherwise the first parser that does not refuse decides, with the exception its CanParse throws or with what its Parse makes of the content |
| ConfigurationProviders.JsonParserFirst | src/Cuture.Extensions.Configuration.Nacos/NacosConfigurationProvider.cs:156-163 | with the JSON parser first, loading non-blank content is exactly the JSON parse, whatever parsers follow: the JSON parser never refuses, so unreadable content is JsonException |
| ConfigurationProviders.LoadOutcomeCases | src/Cuture.Extensions.Configuration.Nacos/NacosConfigurationProvider.cs:52-75 | with content cached the fetch plays no part; a missing optional configuration leaves empty data; a missing required one, or any other fetch error, is rethrown |
| ConfigurationProviders.InitFailure | src/Cuture.Extensions.Configuration.Nacos/NacosConfigurationProvider.cs:120-134 | a cancellation by the start-up timeout becomes RequestTimeoutException, any other cancellation is rethrown, everything else becomes the provider initialisation NacosException |
| ConfigurationProviders.InitNotFound | src/Cuture.Extensions.Configuration.Nacos/NacosConfigurationProvider.cs:104-116 | a missing required configuration never subscribes and fails initialisation; a missing optional one still subscribes, for the same configuration, with the content the provider had |
| ConfigurationProviders.InitSubscribesWithContent | src/Cuture.Extensions.Configuration.Nacos/NacosConfigurationProvider.cs:98-116 | a successful start caches the fetched content and subscribes for the same configuration with that content and its MD5, keeping the disposer the subscription returned |
| ConfigurationProviders.NacosConfigurationProvider.constructor | src/Cuture.Extensions.Configuration.Nacos/NacosConfigurationProvider.cs:35-46 | a new provider holds its descriptor and parsers, no content, no subscription and empty data |
| ConfigurationProviders.NacosConfigurationProvider.LoadConfiguration | src/Cuture.Extensions.Configuration.Nacos/NacosConfigurationProvider.cs:146-164 | the parser loop sets the data to the load rule's result, or leaves it and passes on the exception a parser's CanParse or Parse threw; nothing else changes |
| ConfigurationProviders.NacosConfigurationProvider.Load | src/Cuture.Extensions.Configuration.Nacos/NacosConfigurationProvider.cs:52-75 | the data becomes the load outcome of the cached or fetched content; failures, a parser's JsonException included, leave the data and are passed on; fetched content is not cached |
| ConfigurationProviders.NacosConfigurationProvider.InitAsync | src/Cuture.Extensions.Configuration.Nacos/NacosConfigurationProvider.cs:87-135 | on success the fetched content is cached and the subscription's disposer kept; a failed fetch keeps the cache; failures are mapped by the initialisation rule; the data is not touched |
| ConfigurationProviders.NacosConfigurationProvider.OnConfigurationChange | src/Cuture.Extensions.Configuration.Nacos/NacosConfigurationProvider.cs:166-183 | the new content is cached; a successful load replaces the data and signals one reload; a failed load (such as unreadable content under the JSON parser) changes no data, signals nothing and is swallowed unless the notification was cancelled |
| ConfigurationProviders.NacosConfigurationProvider.Dispose | src/Cuture.Extensions.Configuration.Nacos/NacosConfigurationProvider.cs:200-223 | the first call drops the cache, the parsers and the subscription and hands back its disposer; later calls change nothing |
| ConfigurationProviders.DisposeTwice | src/Cuture.Extensions.Configuration.Nacos/NacosConfigurationProvider.cs:200-223 | disposing twice releases the subscription once |

## Left out

- Network I/O (HTTP requests, gRPC channels and duplex streams) is not modelled; each call's outcome is a parameter.
- Concurrency is not modelled: tasks, `Task.Delay`, locks, `Interlocked`, timers and cancellation tokens. Every operation runs as one step, cancellation sources are numbers in a set, and waits are returned as lists of delays.
- Logging is not modelled.
- MD5, HMAC-SHA1, UTF-8 encoding, `IPAddress.Parse`, the `JsonDocument` reader and message (de)serialisation are parameters of the functions that use them. The JSON reader on non-blank content is a function that gives a document or, standing for its `JsonException`, nothing; which texts it reads is not modelled.
- Reflection-based discovery of request handlers is replaced by an explicit map from message type to handler.
- RequestProcessing.RequestProcessorBuilder.Build: the processor receives a copy of the builder's handler map. The source hands over the builder's own dictionary, so a handler registered after `Build` also reaches the processor already built; that aliasing is not modelled.
- HttpRequests.MakeUri: the query is kept as a query. `UriBuilder`'s five-argument constructor splits its extra value at the first `#` into query and fragment, so a namespace containing `#` would move into the fragment; that split is not modelled.
- Constants.cs is not part of this model. The default ports 8848 and 9848, the port offset 1000, the default group name `DEFAULT_GROUP` and the header names are assumed values; no proof depends on them.
- The token refresh interval `tokenTtl * 0.66` (AccessTokenService.cs:180) is floating point and is not modelled.
- Enumerating the machine's network interfaces is not modelled; `GetValuableIPAddress` takes the address list as input.
- DI and configuration-binding glue, option classes, samples, exception classes and message DTOs are not modelled.
- The HTTP unsubscribe handle is not modelled: its one-argument constructor does not match the three-argument call at NacosConfigurationHttpClient.cs:82.
- Case-insensitive comparison (`OrdinalIgnoreCase`, `ToLowerInvariant`) is modelled as ASCII lower-casing.
- Strings are sequences of characters; no Unicode normalisation.
- Finalisers (`~NacosGrpcClient`, `~NacosConfigurationProvider`) are not modelled.
- HttpClients.ConfigurationHttpClient.Polling: the loop runs for a given number of rounds instead of until cancelled.
- GrpcClients.GrpcClient.ReconnectLoop: the loop runs for a given number of rounds instead of until cancelled.
- GrpcClients.GrpcClient.HealthCheck: runs for a given number of checks instead of until cancelled.
- HttpClients.ConfigurationHttpClient: modelled over a fixed address pool only; the remote pool is modelled on its own.
- HttpClientFactories.HttpClientFactory.SwapHandler: the timer that swaps handlers is a method call; the race between it and `CreateClient` is not modelled.
- HttpClientFactories: `Interlocked` reference-count overflow is not modelled.
- AddressPools: `FixedServerAddressAccessor.InitAsync` and `Dispose` do nothing and are not modelled.
- ConfigurationProviders.NacosConfigurationProvider.Dispose: releasing the subscription runs in the background; the model returns the disposer to release.
- ConfigurationProviders.NacosConfigurationProvider.OnConfigurationChange: `OnReload` is modelled as a count of reload signals.
- ConfigurationProviders.NacosConfigurationProvider.InitAsync: when an optional configuration is missing, start-up keeps the cached content and the data as they were. It does not clear the data; only `Load` does (NacosConfigurationProvider.cs:104-110 catches the not-found exception and goes on to subscribe).
- Descriptors: whether a configuration is optional is a boolean on the provider, not a descriptor subtype.
- NetworkUtils.ScoreTable: the scoring reads the address's dotted text, as the source does; the model builds that text from the four octets.
- NetworkUtils.InSubnet: for a prefix length outside the family's range, the corrected test reports an argument error. The source has no intended behaviour for this case, so this choice is the model's own.
- FirstInSubnet: uses the corrected subnet test `InSubnet`, not the as-written `IsInSubnet` that NetworkUtil.cs:48 calls; so 10.0.0.1 against 0.0.0.0/0 is found where the source throws NotSupportedException, and the answers also differ on IPv4 lengths above 32 and IPv6 prefixes ending inside a byte (see Findings).
- SearchSubnet: the scan computes the corrected `FirstInSubnet`, with the same difference from the source.
- GetValuableIPAddress: its subnet branch is the corrected `FirstInSubnet`, with the same difference from the source; the branch without a subnet is as written.
- ServerUris.ParseHttpUriRoundTrip: promised only for HTTP ports from 0 up to 64535, since `UriBuilder` refuses a gRPC port above 65535 and turns -1 into the default port of the scheme; `ServerUris.DerivedPortOutOfRange` states what happens outside that range.
- ServerUris.LeadingDigits: reads ASCII digits only. .NET's `\d` also matches other Unicode decimal digits, which `int.TryParse` then rejects with a NacosException; that path is not modelled.
- Scaling.Scaler: the value is an unbounded integer, so a C# `int` overflow of `value + step` is not modelled.
- AddressPools.RemotePool.Valid: does not tie the current address to the element of the array at the index; each method states the current address it leaves.
- GrpcConfigurationClients.ConfigurationGrpcClient.Subscribe: a null callback is not modelled.
- GrpcConfigurationClients.ConfigurationGrpcClient.CallAll: every callback is called; a callback that throws synchronously, which in the source stops the later ones, is modelled as a failed call.
- NetworkUtils: the IPv4 branch assumes a little-endian machine for `BitConverter.ToUInt32`.
- WorkPipelines: the first middleware added is the outermost (WorkPipelineBuilder.cs:44-54 wraps from the last one added back to the first).

## Findings

| source | as written | input that shows it | evidently intended | confidence | as-written member | corrected member |
|---|---|---|---|---|---|---|
| src/Nacos/Http/NacosHttpClient.cs:150-166 | the 403 and 404 exceptions are thrown inside the retry `try`, caught by its `catch (Exception)`, and retried; the request ends with the generic all-servers-tried error | every server answers 404 for a configuration | Forbidden and not-found end the request at once and reach the caller | not executed | HttpClients.EveryServerNotFound | HttpClients.RequestErrors |
| src/Nacos/Http/NacosConfigurationHttpClient.cs:115-127 | because of the row above, the mapping of not-found to ConfigurationNotFoundException can never fire | a configuration missing on every server | a missing configuration is reported as such, so optional configurations load empty | not executed | HttpClients.ConfigurationNeverNotFoundAsWritten | HttpClients.ConfigurationFetchOutcome |
| src/Nacos/Http/NacosConfigurationHttpClient.cs:227-236 | removing the last callback cancels the poll's token source but leaves it registered, so a later subscription (lines 63-76) finds it and starts no polling | subscribe, unsubscribe, subscribe again for one configuration | the cancelled source is dropped, and the next subscription starts a new poll | not executed | HttpClients.ResubscribeAsWritten | HttpClients.ResubscribeCorrected |
| src/Nacos/Utils/NetworkUtil.cs:97 | `uint.MaxValue << (32 - maskLength)` shifts by 32 for a /0 prefix, which C# takes as a shift by 0, so /0 behaves as /32 | 10.0.0.1 against 0.0.0.0/0 gives false | a /0 subnet holds every address | not executed | NetworkUtils.ZeroPrefixAsWritten | NetworkUtils.V4PrefixExtremes |
| src/Nacos/Utils/NetworkUtil.cs:109-122 | `BitArray` numbers the bits of each byte from the least significant one, so the loop compares the wrong bits of a prefix that ends inside a byte | fec0::1 against fe80::/10 gives true | the first prefix bits in network order are compared | not executed | NetworkUtils.LowBitFirstAsWritten | NetworkUtils.V6PrefixExtremes |
| src/Nacos/DefaultNacosUnderlyingHttpClientFactory.cs:99-104 | every `Dispose` of a counting client gives back a reference, so disposing one client twice frees a reference another client holds | two clients on one handler; dispose the first twice, then the handler is swapped out | a client gives back its reference once, so the handler is disposed only when no client uses it | not executed | HttpClientFactories.DoubleDisposeReleasesLiveHandler | HttpClientFactories.SoundPreserved |
