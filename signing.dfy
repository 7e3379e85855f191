/** The header values `_sign` produces. JSON serialisation, UTF-8 encoding,
    Base64 and HMAC-SHA384 are not modelled: each is a free constructor of
    `Term`, so a header records which inputs went through which primitive. */
module Signing {
  import opened Wrappers
  import opened Codec

  /** A value computed by an uninterpreted primitive. */
  datatype Term =
    | Literal(s: string)                              // a Python str
    | JsonDumps(value: Json)                          // json.dumps(value)
    | Utf8Encode(text: Term)                          // text.encode('utf-8')
    | StandardB64Encode(data: Term)                   // base64.standard_b64encode(data)
    | HmacSha384HexDigest(key: Term, message: Term)   // hmac.new(key, message, hashlib.sha384).hexdigest()

  /** A header value: Python's None, a str, or a computed value. */
  datatype HeaderValue = NoValue | Text(s: string) | Computed(t: Term)

  type Headers = map<string, HeaderValue>

  const API_KEY_HEADER := "X-BFX-APIKEY"
  const SIGNATURE_HEADER := "X-BFX-SIGNATURE"
  const PAYLOAD_HEADER := "X-BFX-PAYLOAD"

  /** The payload as it travels: Decimals back to strings, serialised, encoded, Base64. */
  function EncodedPayload(payload: map<string, Json>): (t: Term)
    ensures CarriedPayload(map[PAYLOAD_HEADER := Computed(t)]) == Some(Undecimalize(Obj(payload)))
  {
    StandardB64Encode(Utf8Encode(JsonDumps(Undecimalize(Obj(payload)))))
  }

  /** The payload a header set carries, read back from its payload header. */
  function CarriedPayload(h: Headers): Option<Json> {
    if PAYLOAD_HEADER in h && h[PAYLOAD_HEADER].Computed? then
      match h[PAYLOAD_HEADER].t
      case StandardB64Encode(Utf8Encode(JsonDumps(j))) => Some(j)
      case _ => None
    else None
  }

  /** `self.key` as a header value. */
  function KeyValue(key: Option<string>): (v: HeaderValue)
    ensures key.None? <==> v == NoValue
    ensures key.Some? ==> v == Text(key.value)
  {
    if key.Some? then Text(key.value) else NoValue
  }

  /** The signature `_sign` computes over the encoded payload. */
  function Signature(secret: string, data: Term): (t: Term)
    ensures t.HmacSha384HexDigest? && t.key == Utf8Encode(Literal(secret)) && t.message == data
  {
    HmacSha384HexDigest(Utf8Encode(Literal(secret)), data)
  }

  /** Two payloads are encoded alike exactly when they agree once their
      Decimals are turned back into strings. */
  lemma EncodingDeterminedByStrings(p: map<string, Json>, q: map<string, Json>)
    ensures EncodedPayload(p) == EncodedPayload(q) <==> Undecimalize(Obj(p)) == Undecimalize(Obj(q))
  {
  }
}
