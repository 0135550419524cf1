/** The exceptions the client throws, one constructor per exception type. */
module Errors {
  import opened Wrappers

  /** Why a `NacosException` carrying only a message was thrown. */
  datatype NacosReason =
    | NotInitialized          // a server list read before it was fetched
    | AllServersTried         // every retry of a request failed
    | ServerListUnavailable   // the address server returned nothing usable
    | UnparsablePort          // a `Key=digits` fragment that does not fit an int
    | BadResponse             // a gRPC reply that is not a Nacos response
    | UnknownResultCode       // a gRPC reply with an error code the client does not know
    | ResponseTypeMismatch    // a gRPC reply of another type than expected
    | NoTransport             // a gRPC request while no connection exists
    | InitFailed              // the HTTP client could not log in
    | ProviderInitFailed      // the configuration provider could not start
    | MixedAcm                // ACM and plain server addresses given together
    | NoAccessToken           // the access token is missing or expired
    | ClientNotInitiated      // a gRPC client used before `InitAsync`
    | NoNetworkAddress        // no local address, or none in the requested subnet

  datatype Error =
    | ArgumentNull(param: string)
    | Argument(param: string)
    | ArgumentOutOfRange(param: string)
    | Nacos(reason: NacosReason)
    | Forbidden
    | HttpRequestNotFound
    | ConfigurationNotFound
    | ConnectionUnRegistered
    | LoginFail
    | ObjectDisposed
    | InvalidOperation
    | UnknownMessage
    | Format
    | Json
    | NotSupported
    | RequestTimeout
    | OperationCanceled
    | Overflow
    | KeyNotFound
    | NullReference

  type Outcome<T> = Result<T, Error>
}
