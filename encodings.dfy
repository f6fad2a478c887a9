/** The text encodings a did:peer identifier is built from. Base64url
    (unpadded, RFC 4648 section 5) encoding is written out; the bs58 codec,
    base64url decoding, JSON serialisation and parsing, URL parsing and the
    Ed25519 point check come from libraries whose code is not part of this
    model, so they are the fields of `Codecs`, and `ValidCodecs` states the
    round trips and the alphabet facts that the did:peer code relies on. */
module Encodings {
  import opened Wrappers
  import opened Bytes
  import opened Definitions

  /** A parsed `url::Url`, kept as its serialisation (`Url::as_str`). */
  datatype Url = Url(serialization: string)

  /** `serde_json::Value`. Numbers are kept as integers; no JSON number is
      used by the code modelled here. */
  datatype Json =
    | JNull
    | JBool(b: bool)
    | JNumber(n: int)
    | JString(s: string)
    | JArray(items: seq<Json>)
    | JObject(fields: map<string, Json>)
  {
    /** `value[key]`: the member, or `Null` when there is none or this is not an object. */
    function Index(key: string): (r: Json)
      ensures JObject? && key in fields ==> r == fields[key]
      ensures !(JObject? && key in fields) ==> r == JNull
    {
      if JObject? && key in fields then fields[key] else JNull
    }

    /** `value.as_str()`. */
    function AsStr(): (r: Option<string>)
      ensures r.Some? <==> JString?
    {
      if JString? then Some(s) else None
    }
  }

  /** The service object `{"t": "tsp", "s": {"uri": endpoint}}` of a did:peer. */
  function ServiceJson(endpoint: Url): (j: Json)
    ensures j.Index("t") == JString("tsp")
    ensures j.Index("s").Index("uri").AsStr() == Some(endpoint.serialization)
  {
    JObject(map["t" := JString("tsp"), "s" := JObject(map["uri" := JString(endpoint.serialization)])])
  }

  /** A character of the base64url alphabet `A-Z a-z 0-9 - _`. */
  predicate IsBase64UrlChar(ch: char) {
    ('A' <= ch <= 'Z') || ('a' <= ch <= 'z') || ('0' <= ch <= '9') || ch == '-' || ch == '_'
  }

  /** A character of the Bitcoin alphabet of `bs58`: the digits and letters
      without `0`, `O`, `I` and `l`. */
  predicate IsBase58Char(ch: char) {
    ('1' <= ch <= '9') || ('A' <= ch <= 'Z' && ch != 'I' && ch != 'O') || ('a' <= ch <= 'z' && ch != 'l')
  }

  /** The base64url digit of a six-bit value. */
  function Sextet(n: int): (ch: char)
    requires 0 <= n < 64
    ensures IsBase64UrlChar(ch)
  {
    if n < 26 then (('A' as int) + n) as char
    else if n < 52 then (('a' as int) + n - 26) as char
    else if n < 62 then (('0' as int) + n - 52) as char
    else if n == 62 then '-'
    else '_'
  }

  /** `Base64UrlUnpadded::encode_string`: each three bytes become four
      characters, a trailing one or two bytes become two or three. */
  function Base64UrlEncode(b: Bytes): (r: string)
    ensures |b| > 0 ==> |r| >= 2 && r[0] == Sextet(b[0] / 4)
  {
    if |b| == 0 then ""
    else if |b| == 1 then [Sextet(b[0] / 4), Sextet(b[0] % 4 * 16)]
    else if |b| == 2 then [Sextet(b[0] / 4), Sextet(b[0] % 4 * 16 + b[1] / 16), Sextet(b[1] % 16 * 4)]
    else
      [Sextet(b[0] / 4), Sextet(b[0] % 4 * 16 + b[1] / 16), Sextet(b[1] % 16 * 4 + b[2] / 64), Sextet(b[2] % 64)]
      + Base64UrlEncode(b[3..])
  }

  /** Unpadded length: four characters per three bytes, two or three for a remainder of one or two. */
  lemma {:induction false} Base64UrlLength(b: Bytes)
    ensures |Base64UrlEncode(b)| == |b| / 3 * 4 + [0, 2, 3][|b| % 3]
  {
    if |b| >= 3 {
      Base64UrlLength(b[3..]);
      assert |b[3..]| / 3 == |b| / 3 - 1 && |b[3..]| % 3 == |b| % 3;
    }
  }

  /** Every character of the encoding is from the URL-safe alphabet. */
  lemma {:induction false} Base64UrlAlphabet(b: Bytes)
    ensures forall i :: 0 <= i < |Base64UrlEncode(b)| ==> IsBase64UrlChar(Base64UrlEncode(b)[i])
  {
    if |b| >= 3 {
      Base64UrlAlphabet(b[3..]);
      var head := [Sextet(b[0] / 4), Sextet(b[0] % 4 * 16 + b[1] / 16), Sextet(b[1] % 16 * 4 + b[2] / 64), Sextet(b[2] % 64)];
      assert Base64UrlEncode(b) == head + Base64UrlEncode(b[3..]);
      forall i | 0 <= i < |Base64UrlEncode(b)|
        ensures IsBase64UrlChar(Base64UrlEncode(b)[i])
      {
        if i >= 4 {
          assert Base64UrlEncode(b)[i] == Base64UrlEncode(b[3..])[i - 4];
        }
      }
    }
  }

  /** Base64url of a JSON object starts with `e`, because its text starts
      with `{` (0x7B), whose top six bits are 30; this is why the service part
      of a did:peer is tagged `Se`. */
  lemma Base64UrlOfBrace(b: Bytes)
    requires |b| > 0 && b[0] == 0x7B
    ensures |Base64UrlEncode(b)| > 0 && Base64UrlEncode(b)[0] == 'e'
  {
  }

  /** The library functions the did:peer code calls. */
  datatype Codecs = Codecs(
    /** `bs58::encode(..).with_alphabet(BITCOIN).into_string()` */
    bs58Encode: Bytes -> string,
    /** `bs58::decode(..).with_alphabet(BITCOIN).into_vec()`; None is its error */
    bs58Decode: string -> Option<Bytes>,
    /** `Base64UrlUnpadded::decode_vec` */
    base64UrlDecode: string -> Option<Bytes>,
    /** `value.to_string().as_bytes()` */
    jsonToBytes: Json -> Bytes,
    /** `serde_json::from_slice::<Value>` */
    jsonFromBytes: Bytes -> Option<Json>,
    /** `Url::parse` */
    parseUrl: string -> Option<Url>,
    /** whether `ed25519_dalek::VerifyingKey::from_bytes` accepts the bytes */
    isVerifyingKey: KeyData -> bool
  )

  /** What the did:peer code relies on from those libraries. */
  ghost predicate ValidCodecs(c: Codecs) {
    && (forall b :: c.bs58Decode(c.bs58Encode(b)) == Some(b))
    && (forall b, i :: 0 <= i < |c.bs58Encode(b)| ==> IsBase58Char(c.bs58Encode(b)[i]))
    && (forall b :: c.base64UrlDecode(Base64UrlEncode(b)) == Some(b))
    && (forall j :: c.jsonFromBytes(c.jsonToBytes(j)) == Some(j))
    && (forall m :: |c.jsonToBytes(JObject(m))| > 0 && c.jsonToBytes(JObject(m))[0] == 0x7B)
    && (forall u: Url :: c.parseUrl(u.serialization) == Some(u))
  }
}
