/** The ACM request signer: it stamps a request with the time, the access
    key and a signature over the request's sign data and that time. */
module RequestSigners {
  import opened Wrappers
  import opened Errors
  import opened Text
  import opened Headers
  import opened Base64

  /** `ACMRequestSigner`: the access key and its secret. */
  datatype ACMRequestSigner = ACMRequestSigner(accessKey: string, accessKeySecret: string)

  /** The constructor: neither the key nor the secret may be null or white space. */
  function NewSigner(accessKey: Option<string>, accessKeySecret: Option<string>): (r: Outcome<ACMRequestSigner>)
    ensures IsNullOrWhiteSpace(accessKey) ==> r == Failure(Argument("accessKey"))
    ensures !IsNullOrWhiteSpace(accessKey) && IsNullOrWhiteSpace(accessKeySecret) ==> r == Failure(Argument("accessKeySecret"))
    ensures r.Success? <==> !IsNullOrWhiteSpace(accessKey) && !IsNullOrWhiteSpace(accessKeySecret)
    ensures r.Success? ==> r.value == ACMRequestSigner(accessKey.value, accessKeySecret.value)
  {
    if IsNullOrWhiteSpace(accessKey) then Failure(Argument("accessKey"))
    else if IsNullOrWhiteSpace(accessKeySecret) then Failure(Argument("accessKeySecret"))
    else Success(ACMRequestSigner(accessKey.value, accessKeySecret.value))
  }

  /** The signed text: the timestamp alone when the request has no sign
      data, otherwise the sign data, `+` and the timestamp. */
  function SignText(signData: Option<string>, timestamp: string): string {
    if IsNullOrEmpty(signData) then timestamp else signData.value + "+" + timestamp
  }

  /** The signed text always ends with the timestamp, and what comes before
      it gives back the request's sign data. */
  lemma SignTextParts(signData: Option<string>, timestamp: string)
    ensures var t := SignText(signData, timestamp);
            && |t| >= |timestamp| && t[|t| - |timestamp|..] == timestamp
            && (IsNullOrEmpty(signData) <==> |t| == |timestamp|)
            && (!IsNullOrEmpty(signData) ==> t[..|signData.value|] == signData.value && t[|signData.value|] == '+')
  {
    var t := SignText(signData, timestamp);
    if !IsNullOrEmpty(signData) {
      assert t[|t| - |timestamp|..] == timestamp;
    }
  }

  /** The headers after signing: the three signing headers are set and
      nothing else changes. */
  function Signed(m: HeaderMap, signer: ACMRequestSigner, signData: Option<string>, nowMs: int,
                  hmacSha1: (string, string) -> seq<Byte>): HeaderMap
  {
    var timestamp := IntToString(nowMs);
    var m1 := SetValue(m, TIMESTAMP, Some(timestamp));
    var hash := hmacSha1(SignText(signData, timestamp), signer.accessKeySecret);
    var m2 := SetValue(m1, SPAS_ACCESSKEY, Some(signer.accessKey));
    SetValue(m2, SPAS_SIGNATURE, Some(Encode(hash)))
  }

  /** Signing sets exactly the timestamp, the access key and the signature,
      whose Base64 decodes to the HMAC of the signed text under the secret;
      every other header keeps its value. */
  lemma SignedHeaders(m: HeaderMap, signer: ACMRequestSigner, signData: Option<string>, nowMs: int,
                      hmacSha1: (string, string) -> seq<Byte>)
    ensures var r := Signed(m, signer, signData, nowMs, hmacSha1);
            && r.Keys == m.Keys + {TIMESTAMP, SPAS_ACCESSKEY, SPAS_SIGNATURE}
            && r[TIMESTAMP] == Some(IntToString(nowMs))
            && r[SPAS_ACCESSKEY] == Some(signer.accessKey)
            && r[SPAS_SIGNATURE].Some?
            && Decode(r[SPAS_SIGNATURE].value) == hmacSha1(SignText(signData, IntToString(nowMs)), signer.accessKeySecret)
            && forall k :: k in m && k !in {TIMESTAMP, SPAS_ACCESSKEY, SPAS_SIGNATURE} ==> r[k] == m[k]
  {
    DecodeEncode(hmacSha1(SignText(signData, IntToString(nowMs)), signer.accessKeySecret));
  }

  /** `SignAsync` on a request whose headers are `headers` and whose sign
      data is `signData`; the clock and the HMAC-SHA1 are given. */
  method SignAsync(signer: ACMRequestSigner, headers: NacosHeaders, signData: Option<string>, nowMs: int,
                   hmacSha1: (string, string) -> seq<Byte>)
    modifies headers
    ensures headers.headers == Signed(old(headers.headers), signer, signData, nowMs, hmacSha1)
  {
    var timestamp := IntToString(nowMs);
    headers.InternalSetValue(TIMESTAMP, Some(timestamp));
    var text := SignText(signData, timestamp);
    var hash := hmacSha1(text, signer.accessKeySecret);
    headers.InternalSetValue(SPAS_ACCESSKEY, Some(signer.accessKey));
    headers.InternalSetValue(SPAS_SIGNATURE, Some(Encode(hash)));
  }
}
