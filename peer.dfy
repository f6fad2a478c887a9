/** did:peer numalgo 2 identifiers (tsp/src/vid/did/peer.rs): building one
    from a `Vid`, and reading the keys and the endpoint back out of one.

    An identifier has the form
      did:peer:2.Vz<bs58(ed 20 ‖ verifying key)>.Ez<bs58(ec 20 ‖ encryption key)>.S<base64url(service JSON)>
    where `ed 20` and `ec 20` are the multicodec prefixes of a 32-byte
    Ed25519 and X25519 public key. */
module Peer {
  import opened Wrappers
  import opened Bytes
  import opened Definitions
  import opened Encodings
  import opened Vids
  import opened Text
  import Utf8

  const Scheme: string := "peer"

  // The messages of the errors and panics of `verify_did_peer`.
  const PartsIndexPanic: string := "index out of bounds: parts[2]"
  const OnlyNumalgo2: string := "only numalgo 2 is supported for did:peer"
  const TagOutOfBounds: string := "byte index 2 is out of bounds"
  const TagNotCharBoundary: string := "byte index 2 is not a char boundary"
  const BadEncodedEnckey: string := "invalid encoded encryption key in did:peer"
  const EnckeyIndex0: string := "index out of bounds: enckey_bytes[0]"
  const EnckeyIndex1: string := "index out of bounds: enckey_bytes[1]"
  const BadEnckeyType: string := "invalid encryption key type in did:peer"
  const BadEncodedSigkey: string := "invalid encoded verification key in did:peer"
  const SigkeyIndex0: string := "index out of bounds: sigkey_bytes[0]"
  const SigkeyIndex1: string := "index out of bounds: sigkey_bytes[1]"
  const BadSigkeyType: string := "invalid verification key type in did:peer"
  const BadEncodedTransport: string := "invalid encoded transport in did:peer"
  const BadTransportType: string := "invalid transport type in did:peer"
  const BadPart: string := "invalid part in did:peer"
  const MissingSigkey: string := "missing verification key in did:peer"
  const MissingEnckey: string := "missing encryption key in did:peer"
  const MissingTransport: string := "missing transport in did:peer"

  /** The identifier `encode_did_peer` builds for `v`; it does not depend on `v.id`. */
  function DidPeerIdentifier(v: Vid, c: Codecs): string
  {
    "did:peer:2.Vz" + c.bs58Encode([0xed, 0x20] + v.VerifyingKey())
    + ".Ez" + c.bs58Encode([0xec, 0x20] + v.EncryptionKey())
    + ".S" + Base64UrlEncode(c.jsonToBytes(ServiceJson(v.Endpoint())))
  }

  /** `encode_did_peer`, building the multicodec key bytes in one buffer as the source does. */
  method EncodeDidPeer(v: Vid, c: Codecs) returns (id: string)
    ensures id == DidPeerIdentifier(v, c)
  {
    var buf: Bytes := [];
    // multicodec for ed25519-pub, then the key length 32
    buf := buf + [0xed];
    buf := buf + [0x20];
    buf := buf + v.VerifyingKey();
    assert buf == [0xed, 0x20] + v.VerifyingKey();
    var verificationKey := c.bs58Encode(buf);
    buf := [];
    // multicodec for x25519-pub, then the key length 32
    buf := buf + [0xec];
    buf := buf + [0x20];
    buf := buf + v.EncryptionKey();
    assert buf == [0xec, 0x20] + v.EncryptionKey();
    var encryptionKey := c.bs58Encode(buf);
    var service := Base64UrlEncode(c.jsonToBytes(ServiceJson(v.Endpoint())));
    id := "did:peer:2.Vz" + verificationKey + ".Ez" + encryptionKey + ".S" + service;
  }

  /** `OwnedVid::new_did_peer` (tsp/src/vid/mod.rs): a fresh identity whose
      identifier is the did:peer of its own keys and endpoint. */
  function NewDidPeer(transport: Url, keys: GeneratedKeys, c: Codecs): (o: OwnedVid)
    ensures o.Endpoint() == transport
    ensures o.Identifier() == DidPeerIdentifier(o.vid, c)
    ensures o.VerifyingKey() == keys.verifyingKey && o.EncryptionKey() == keys.publicEnckey
    ensures o.SigningKey() == keys.sigkey && o.DecryptionKey() == keys.enckey
  {
    var vid := Vid("", transport, keys.verifyingKey, keys.publicEnckey);
    var vid' := vid.(id := DidPeerIdentifier(vid, c));
    OwnedVid(vid', keys.sigkey, keys.enckey)
  }

  /** The three values the scan of the parts collects. */
  datatype Found = Found(sigkey: Option<KeyData>, enckey: Option<KeyData>, transport: Option<Url>)

  const NothingFound := Found(None, None, None)

  /** `&part[0..2]`: the part's first two bytes as a string, which is one
      character when the first is two bytes long; a panic when the part is
      shorter than two bytes or byte 2 falls inside a character. */
  function PartTag(part: string): (r: Result<string, VidError>)
    ensures r.Ok? ==> 1 <= |r.value| <= 2 && |r.value| <= |part| && r.value == part[..|r.value|]
    ensures |part| >= 2 && part[0] as int < 0x80 && part[1] as int < 0x80 ==> r == Ok(part[..2])
    ensures |part| == 0 || (|part| == 1 && Utf8.CharLen(part[0]) == 1) ==> r == Err(Panic(TagOutOfBounds))
    ensures |part| >= 1 && Utf8.CharLen(part[0]) > 2 ==> r == Err(Panic(TagNotCharBoundary))
    ensures |part| >= 2 && Utf8.CharLen(part[0]) == 1 && Utf8.CharLen(part[1]) > 1 ==> r == Err(Panic(TagNotCharBoundary))
    ensures |part| >= 1 && Utf8.CharLen(part[0]) == 2 ==> r == Ok(part[..1])
    ensures r.Ok? ==> |Utf8.Encode(r.value)| == 2
  {
    if |part| == 0 then Err(Panic(TagOutOfBounds))
    else if Utf8.CharLen(part[0]) == 2 then
      assert part[..1][1..] == [];
      Ok(part[..1])
    else if Utf8.CharLen(part[0]) > 2 then Err(Panic(TagNotCharBoundary))
    else if |part| == 1 then Err(Panic(TagOutOfBounds))
    else if Utf8.CharLen(part[1]) == 1 then
      assert part[..2][1..] == [part[1]] && [part[1]][1..] == [];
      assert Utf8.Encode([part[1]]) == Utf8.EncodeChar(part[1]) + Utf8.Encode([]);
      Ok(part[..2])
    else Err(Panic(TagNotCharBoundary))
  }

  /** The `Ez` arm: decode the bs58 key and check its x25519 multicodec prefix. */
  function ScanEncryptionKey(encoded: string, found: Found, c: Codecs): (r: Result<Found, VidError>)
    ensures c.bs58Decode(encoded).None? ==> r == Err(ResolveVid(BadEncodedEnckey))
    ensures r.Ok? <==> (c.bs58Decode(encoded).Some? && |c.bs58Decode(encoded).value| >= 2
                         && c.bs58Decode(encoded).value[..2] == [0xec, 0x20])
    ensures c.bs58Decode(encoded).Some? && |c.bs58Decode(encoded).value| >= 2
            && c.bs58Decode(encoded).value[..2] != [0xec, 0x20]
            ==> r == Err(ResolveVid(BadEnckeyType))
    ensures r.Ok? ==> r.value.sigkey == found.sigkey && r.value.transport == found.transport
    ensures r.Ok? ==> var bytes := c.bs58Decode(encoded).value;
                      r.value.enckey == if |bytes| == 34 then Some(bytes[2..]) else None
  {
    match c.bs58Decode(encoded)
    case None => Err(ResolveVid(BadEncodedEnckey))
    case Some(bytes) =>
      if |bytes| == 0 then Err(Panic(EnckeyIndex0))
      else if bytes[0] != 0xec then Err(ResolveVid(BadEnckeyType))
      else if |bytes| == 1 then Err(Panic(EnckeyIndex1))
      else if bytes[1] != 0x20 then Err(ResolveVid(BadEnckeyType))
      else
        // `enckey_bytes[2..].try_into().ok()`: a key only when exactly 32 bytes follow
        Ok(found.(enckey := if |bytes| == 34 then Some(bytes[2..]) else None))
  }

  /** The `Vz` arm: decode the bs58 key and check its ed25519 multicodec
      prefix. A key of the wrong length leaves what was found unchanged; one
      that is not a curve point clears it. */
  function ScanVerificationKey(encoded: string, found: Found, c: Codecs): (r: Result<Found, VidError>)
    ensures c.bs58Decode(encoded).None? ==> r == Err(ResolveVid(BadEncodedSigkey))
    ensures r.Ok? <==> (c.bs58Decode(encoded).Some? && |c.bs58Decode(encoded).value| >= 2
                         && c.bs58Decode(encoded).value[..2] == [0xed, 0x20])
    ensures c.bs58Decode(encoded).Some? && |c.bs58Decode(encoded).value| >= 2
            && c.bs58Decode(encoded).value[..2] != [0xed, 0x20]
            ==> r == Err(ResolveVid(BadSigkeyType))
    ensures r.Ok? ==> r.value.enckey == found.enckey && r.value.transport == found.transport
    ensures r.Ok? ==> var bytes := c.bs58Decode(encoded).value;
                      r.value.sigkey == if |bytes| != 34 then found.sigkey
                                        else if c.isVerifyingKey(bytes[2..]) then Some(bytes[2..])
                                        else None
  {
    match c.bs58Decode(encoded)
    case None => Err(ResolveVid(BadEncodedSigkey))
    case Some(bytes) =>
      if |bytes| == 0 then Err(Panic(SigkeyIndex0))
      else if bytes[0] != 0xed then Err(ResolveVid(BadSigkeyType))
      else if |bytes| == 1 then Err(Panic(SigkeyIndex1))
      else if bytes[1] != 0x20 then Err(ResolveVid(BadSigkeyType))
      else if |bytes| == 34 then
        Ok(found.(sigkey := if c.isVerifyingKey(bytes[2..]) then Some(bytes[2..]) else None))
      else Ok(found)
  }

  /** The `Se` arm: base64url-decode and parse the service JSON, insist on
      `"t": "tsp"`, and take the endpoint from `s.uri` when it is a string. */
  function ScanService(encoded: string, found: Found, c: Codecs): (r: Result<Found, VidError>)
    ensures c.base64UrlDecode(encoded).None? ==> r == Err(ResolveVid(BadEncodedTransport))
    ensures c.base64UrlDecode(encoded).Some? && c.jsonFromBytes(c.base64UrlDecode(encoded).value).None?
            ==> r == Err(ResolveVid(BadEncodedTransport))
    ensures r.Ok? <==> (c.base64UrlDecode(encoded).Some? && c.jsonFromBytes(c.base64UrlDecode(encoded).value).Some?
                         && c.jsonFromBytes(c.base64UrlDecode(encoded).value).value.Index("t") == JString("tsp"))
    ensures r.Ok? ==> r.value.sigkey == found.sigkey && r.value.enckey == found.enckey
    ensures r.Ok? ==> var uri := c.jsonFromBytes(c.base64UrlDecode(encoded).value).value.Index("s").Index("uri");
                      r.value.transport == if uri.JString? then c.parseUrl(uri.s) else found.transport
  {
    match c.base64UrlDecode(encoded)
    case None => Err(ResolveVid(BadEncodedTransport))
    case Some(bytes) =>
      match c.jsonFromBytes(bytes)
      case None => Err(ResolveVid(BadEncodedTransport))
      case Some(json) =>
        if json.Index("t") != JString("tsp") then Err(ResolveVid(BadTransportType))
        else
          match json.Index("s").Index("uri").AsStr()
          case None => Ok(found)
          case Some(uri) => Ok(found.(transport := c.parseUrl(uri)))
  }

  /** One iteration of the loop over the parts after the numalgo. */
  function ScanPart(part: string, found: Found, c: Codecs): (r: Result<Found, VidError>)
    ensures r.Ok? ==> |part| >= 2 && part[..2] in {"Ez", "Vz", "Se"}
    ensures PartTag(part).Ok? && PartTag(part).value !in {"Ez", "Vz", "Se"}
            ==> r == Err(ResolveVid(BadPart))
  {
    match PartTag(part)
    case Err(e) => Err(e)
    case Ok(tag) =>
      if tag == "Ez" then ScanEncryptionKey(part[2..], found, c)
      else if tag == "Vz" then ScanVerificationKey(part[2..], found, c)
      else if tag == "Se" then ScanService(part[1..], found, c)
      else Err(ResolveVid(BadPart))
  }

  /** The loop over the parts, stopping at the first error. */
  function ScanParts(parts: seq<string>, found: Found, c: Codecs): Result<Found, VidError>
    decreases |parts|
  {
    if parts == [] then Ok(found)
    else match ScanPart(parts[0], found, c)
      case Err(e) => Err(e)
      case Ok(found') => ScanParts(parts[1..], found', c)
  }

  // One turn of the scan: a part that is read successfully hands what it found to the rest.
  lemma ScanPartsStep(parts: seq<string>, found: Found, c: Codecs)
    requires parts != [] && ScanPart(parts[0], found, c).Ok?
    ensures ScanParts(parts, found, c) == ScanParts(parts[1..], ScanPart(parts[0], found, c).value, c)
  {
  }

  /** The final match: a `Vid` when all three were found, otherwise the first
      missing one in the order verification key, encryption key, transport. */
  function Complete(parts: seq<string>, found: Found): (r: Result<Vid, VidError>)
    ensures r.Ok? <==> found.sigkey.Some? && found.enckey.Some? && found.transport.Some?
    ensures r.Ok? ==> r.value == Vid(Join(parts, ':'), found.transport.value, found.sigkey.value, found.enckey.value)
    ensures found.sigkey.None? ==> r == Err(ResolveVid(MissingSigkey))
    ensures found.sigkey.Some? && found.enckey.None? ==> r == Err(ResolveVid(MissingEnckey))
    ensures found.sigkey.Some? && found.enckey.Some? && found.transport.None?
            ==> r == Err(ResolveVid(MissingTransport))
  {
    match (found.sigkey, found.enckey, found.transport)
    case (Some(sigkey), Some(enckey), Some(transport)) => Ok(Vid(Join(parts, ':'), transport, sigkey, enckey))
    case (None, _, _) => Err(ResolveVid(MissingSigkey))
    case (_, None, _) => Err(ResolveVid(MissingEnckey))
    case (_, _, None) => Err(ResolveVid(MissingTransport))
  }

  /** What `verify_did_peer` returns for the `:`-separated parts of an identifier. */
  function VerifyDidPeerSpec(parts: seq<string>, c: Codecs): (r: Result<Vid, VidError>)
    ensures |parts| < 3 ==> r == Err(Panic(PartsIndexPanic))
    ensures |parts| >= 3 && Split(parts[2], '.')[0] != "2" ==> r == Err(ResolveVid(OnlyNumalgo2))
    ensures r.Ok? ==> r.value.id == Join(parts, ':')
  {
    if |parts| < 3 then Err(Panic(PartsIndexPanic))
    else
      var peerParts := Split(parts[2], '.');
      if peerParts[0] != "2" then Err(ResolveVid(OnlyNumalgo2))
      else
        match ScanParts(peerParts[1..], NothingFound, c)
        case Err(e) => Err(e)
        case Ok(found) => Complete(parts, found)
  }

  /** The body of the loop of `verify_did_peer`: dispatch on the part's tag. */
  method ReadPart(part: string, found: Found, c: Codecs) returns (r: Result<Found, VidError>)
    ensures r == ScanPart(part, found, c)
  {
    var tag := PartTag(part);
    if tag.Err? {
      return Err(tag.error);
    }
    if tag.value == "Ez" {
      // key agreement (encryption) key, base58 multibase
      r := ScanEncryptionKey(part[2..], found, c);
    } else if tag.value == "Vz" {
      // authentication (verification) key, base58 multibase
      r := ScanVerificationKey(part[2..], found, c);
    } else if tag.value == "Se" {
      // base64url encoded service definition
      r := ScanService(part[1..], found, c);
    } else {
      r := Err(ResolveVid(BadPart));
    }
  }

  /** `verify_did_peer`: a loop over the parts that updates three optional
      locals and returns early on the first bad part. */
  method VerifyDidPeer(parts: seq<string>, c: Codecs) returns (r: Result<Vid, VidError>)
    ensures r == VerifyDidPeerSpec(parts, c)
  {
    if |parts| < 3 {
      return Err(Panic(PartsIndexPanic));
    }
    var peerParts := Split(parts[2], '.');
    // only numalgo 2 is supported
    if peerParts[0] != "2" {
      return Err(ResolveVid(OnlyNumalgo2));
    }
    var publicSigkey: Option<KeyData> := None;
    var publicEnckey: Option<KeyData> := None;
    var transport: Option<Url> := None;
    var i := 1;
    while i < |peerParts|
      invariant 1 <= i <= |peerParts|
      invariant ScanParts(peerParts[1..], NothingFound, c)
             == ScanParts(peerParts[i..], Found(publicSigkey, publicEnckey, transport), c)
    {
      var part := peerParts[i];
      var before := Found(publicSigkey, publicEnckey, transport);
      assert peerParts[i..][0] == part && peerParts[i..][1..] == peerParts[i + 1..];
      var step := ReadPart(part, before, c);
      if step.Err? {
        return Err(step.error);
      }
      publicSigkey, publicEnckey, transport := step.value.sigkey, step.value.enckey, step.value.transport;
      ScanPartsStep(peerParts[i..], before, c);
      i := i + 1;
    }
    assert peerParts[i..] == [];
    match (publicSigkey, publicEnckey, transport)
    case (Some(sigkey), Some(enckey), Some(url)) =>
      r := Ok(Vid(Join(parts, ':'), url, sigkey, enckey));
    case (None, _, _) =>
      r := Err(ResolveVid(MissingSigkey));
    case (_, None, _) =>
      r := Err(ResolveVid(MissingEnckey));
    case (_, _, None) =>
      r := Err(ResolveVid(MissingTransport));
  }

  /** Neither separator of a did:peer occurs in a bs58 or base64url string. */
  lemma SeparatorFree(t: string)
    requires (forall i :: 0 <= i < |t| ==> IsBase58Char(t[i])) || (forall i :: 0 <= i < |t| ==> IsBase64UrlChar(t[i]))
    ensures ':' !in t && '.' !in t
  {
  }

  /** A did:peer identifier splits at `:` into `did`, `peer` and the rest. */
  lemma DidPeerColonPieces(p: string)
    requires ':' !in p
    ensures Split("did:peer:" + p, ':') == ["did", "peer", p]
  {
    ColonText(p);
    SplitWithout(p, ':');
    SplitAt("peer", p, ':');
    SplitAt("did", "peer" + [':'] + p, ':');
  }

  /** The part after `did:peer:` splits at `.` into the numalgo and the three tagged parts. */
  lemma DidPeerDotPieces(vk: string, ek: string, service: string)
    requires ':' !in vk && '.' !in vk && '.' !in ek && '.' !in service
    ensures Split("2.Vz" + vk + ".Ez" + ek + ".S" + service, '.') == ["2", "Vz" + vk, "Ez" + ek, "S" + service]
  {
    DotText(vk, ek, service);
    var s := "S" + service;
    var e := "Ez" + ek + ['.'] + s;
    var v := "Vz" + vk + ['.'] + e;
    assert '.' !in s && '.' !in "Ez" + ek && '.' !in "Vz" + vk;
    SplitWithout(s, '.');
    SplitAt("Ez" + ek, s, '.');
    SplitAt("Vz" + vk, e, '.');
    SplitAt("2", v, '.');
  }

  // The literal texts regrouped at their separators; kept apart so that the
  // splitting proofs above do not have to compare literals.
  lemma ColonText(p: string)
    ensures "did:peer:" + p == "did" + [':'] + ("peer" + [':'] + p)
  {
  }

  lemma DotText(vk: string, ek: string, service: string)
    ensures "2.Vz" + vk + ".Ez" + ek + ".S" + service
         == "2" + ['.'] + ("Vz" + vk + ['.'] + ("Ez" + ek + ['.'] + ("S" + service)))
  {
  }

  lemma IdText(vk: string, ek: string, service: string)
    ensures "did:peer:2.Vz" + vk + ".Ez" + ek + ".S" + service
         == "did:peer:" + ("2.Vz" + vk + ".Ez" + ek + ".S" + service)
  {
  }

  lemma ScanVerificationKeyPart(v: Vid, c: Codecs, vk: string)
    requires ValidCodecs(c) && c.isVerifyingKey(v.VerifyingKey())
    requires vk == c.bs58Encode([0xed, 0x20] + v.VerifyingKey())
    ensures ScanPart("Vz" + vk, NothingFound, c) == Ok(NothingFound.(sigkey := Some(v.VerifyingKey())))
  {
    assert ("Vz" + vk)[2..] == vk;
    assert ([0xed, 0x20] + v.VerifyingKey())[2..] == v.VerifyingKey();
  }

  lemma ScanEncryptionKeyPart(v: Vid, c: Codecs, ek: string, found: Found)
    requires ValidCodecs(c)
    requires ek == c.bs58Encode([0xec, 0x20] + v.EncryptionKey())
    ensures ScanPart("Ez" + ek, found, c) == Ok(found.(enckey := Some(v.EncryptionKey())))
  {
    assert ("Ez" + ek)[2..] == ek;
    assert ([0xec, 0x20] + v.EncryptionKey())[2..] == v.EncryptionKey();
  }

  lemma ScanServicePart(v: Vid, c: Codecs, service: string, found: Found)
    requires ValidCodecs(c)
    requires service == Base64UrlEncode(c.jsonToBytes(ServiceJson(v.Endpoint())))
    ensures ScanPart("S" + service, found, c) == Ok(found.(transport := Some(v.Endpoint())))
  {
    var json := ServiceJson(v.Endpoint());
    Base64UrlOfBrace(c.jsonToBytes(json));
    assert ("S" + service)[1..] == service;
    assert ("S" + service)[1] == 'e';
    assert ("S" + service)[..2] == "Se";
    assert PartTag("S" + service) == Ok("Se");
  }

  /** Reading back the parts after the numalgo collects the keys and the endpoint of `v`. */
  lemma ScanDidPeerParts(v: Vid, c: Codecs, vk: string, ek: string, service: string)
    requires ValidCodecs(c) && c.isVerifyingKey(v.VerifyingKey())
    requires vk == c.bs58Encode([0xed, 0x20] + v.VerifyingKey())
    requires ek == c.bs58Encode([0xec, 0x20] + v.EncryptionKey())
    requires service == Base64UrlEncode(c.jsonToBytes(ServiceJson(v.Endpoint())))
    ensures ScanParts(["Vz" + vk, "Ez" + ek, "S" + service], NothingFound, c)
         == Ok(Found(Some(v.VerifyingKey()), Some(v.EncryptionKey()), Some(v.Endpoint())))
  {
    var parts := ["Vz" + vk, "Ez" + ek, "S" + service];
    var f1 := Found(Some(v.VerifyingKey()), None, None);
    var f2 := Found(Some(v.VerifyingKey()), Some(v.EncryptionKey()), None);
    var f3 := Found(Some(v.VerifyingKey()), Some(v.EncryptionKey()), Some(v.Endpoint()));
    ScanVerificationKeyPart(v, c, vk);
    ScanEncryptionKeyPart(v, c, ek, f1);
    ScanServicePart(v, c, service, f2);
    assert parts[1..] == ["Ez" + ek, "S" + service];
    assert parts[1..][1..] == ["S" + service];
    assert parts[1..][1..][1..] == [];
    assert ScanParts(parts[1..][1..][1..], f3, c) == Ok(f3);
    assert ScanParts(parts[1..][1..], f2, c) == Ok(f3);
    assert ScanParts(parts[1..], f1, c) == Ok(f3);
  }

  /** How an identifier of the did:peer form splits, for any separator-free key and service texts. */
  lemma DidPeerSplit(vk: string, ek: string, service: string)
    requires ':' !in vk && ':' !in ek && ':' !in service
    requires '.' !in vk && '.' !in ek && '.' !in service
    ensures var id := "did:peer:2.Vz" + vk + ".Ez" + ek + ".S" + service;
            var parts := Split(id, ':');
            |parts| == 3 && parts[0] == "did" && parts[1] == "peer"
            && Split(parts[2], '.') == ["2", "Vz" + vk, "Ez" + ek, "S" + service]
  {
    var p := "2.Vz" + vk + ".Ez" + ek + ".S" + service;
    assert ':' !in p;
    IdText(vk, ek, service);
    DidPeerColonPieces(p);
    DidPeerDotPieces(vk, ek, service);
  }

  /** Resolving the did:peer identifier of a `Vid` gives back that `Vid`,
      now carrying the identifier: the `encode_decode` test of peer.rs, for
      every key pair and endpoint whose verifying key is a valid point. */
  lemma DidPeerRoundTrip(v: Vid, c: Codecs)
    requires ValidCodecs(c) && c.isVerifyingKey(v.VerifyingKey())
    ensures var parts := Split(DidPeerIdentifier(v, c), ':');
            |parts| >= 2 && parts[0] == "did" && parts[1] == "peer"
    ensures VerifyDidPeerSpec(Split(DidPeerIdentifier(v, c), ':'), c) == Ok(v.(id := DidPeerIdentifier(v, c)))
  {
    var parts := Split(DidPeerIdentifier(v, c), ':');
    var found := Found(Some(v.VerifyingKey()), Some(v.EncryptionKey()), Some(v.Endpoint()));
    DidPeerParts(v, c);
    ScanDidPeerParts(v, c, c.bs58Encode([0xed, 0x20] + v.VerifyingKey()), c.bs58Encode([0xec, 0x20] + v.EncryptionKey()),
                     Base64UrlEncode(c.jsonToBytes(ServiceJson(v.Endpoint()))));
    VerifyDidPeerOfScan(parts, c, found);
  }

  // The identifier's `:` parts and the `.` pieces of the third one.
  lemma DidPeerParts(v: Vid, c: Codecs)
    requires ValidCodecs(c)
    ensures var id := DidPeerIdentifier(v, c);
            var parts := Split(id, ':');
            |parts| == 3 && parts[0] == "did" && parts[1] == "peer"
            && Split(parts[2], '.')[0] == "2"
            && Split(parts[2], '.')[1..] == ["Vz" + c.bs58Encode([0xed, 0x20] + v.VerifyingKey()),
                                             "Ez" + c.bs58Encode([0xec, 0x20] + v.EncryptionKey()),
                                             "S" + Base64UrlEncode(c.jsonToBytes(ServiceJson(v.Endpoint())))]
            && Join(parts, ':') == id
  {
    var id := DidPeerIdentifier(v, c);
    var vk := c.bs58Encode([0xed, 0x20] + v.VerifyingKey());
    var ek := c.bs58Encode([0xec, 0x20] + v.EncryptionKey());
    var service := Base64UrlEncode(c.jsonToBytes(ServiceJson(v.Endpoint())));
    SeparatorFree(vk);
    SeparatorFree(ek);
    Base64UrlAlphabet(c.jsonToBytes(ServiceJson(v.Endpoint())));
    SeparatorFree(service);
    DidPeerSplit(vk, ek, service);
    var pp := ["2", "Vz" + vk, "Ez" + ek, "S" + service];
    assert pp[1..] == ["Vz" + vk, "Ez" + ek, "S" + service];
    JoinSplit(id, ':');
  }

  // Once the parts pass the numalgo check and the scan finds all three, the result is the final match.
  lemma VerifyDidPeerOfScan(parts: seq<string>, c: Codecs, found: Found)
    requires |parts| >= 3 && Split(parts[2], '.')[0] == "2"
    requires ScanParts(Split(parts[2], '.')[1..], NothingFound, c) == Ok(found)
    ensures VerifyDidPeerSpec(parts, c) == Complete(parts, found)
  {
  }

  /** What a successful resolution says about the identifier: it has the
      `did:peer:2` prefix, every part after the numalgo is tagged `Vz`, `Ez`
      or `Se`, and the resulting identifier is the input joined back. */
  lemma VerifyDidPeerAccepts(parts: seq<string>, c: Codecs)
    requires VerifyDidPeerSpec(parts, c).Ok?
    ensures |parts| >= 3 && Split(parts[2], '.')[0] == "2"
    ensures var pp := Split(parts[2], '.');
            forall i :: 1 <= i < |pp| ==> |pp[i]| >= 2 && pp[i][..2] in {"Ez", "Vz", "Se"}
    ensures VerifyDidPeerSpec(parts, c).value.id == Join(parts, ':')
  {
    var pp := Split(parts[2], '.');
    ScanPartsAccepts(pp[1..], NothingFound, c);
    forall i | 1 <= i < |pp| ensures |pp[i]| >= 2 && pp[i][..2] in {"Ez", "Vz", "Se"} {
      assert pp[i] == pp[1..][i - 1];
    }
  }

  lemma {:induction false} ScanPartsAccepts(parts: seq<string>, found: Found, c: Codecs)
    requires ScanParts(parts, found, c).Ok?
    ensures forall i :: 0 <= i < |parts| ==> |parts[i]| >= 2 && parts[i][..2] in {"Ez", "Vz", "Se"}
    decreases |parts|
  {
    if parts != [] {
      var found' := ScanPart(parts[0], found, c).value;
      ScanPartsAccepts(parts[1..], found', c);
      forall i | 1 <= i < |parts| ensures |parts[i]| >= 2 && parts[i][..2] in {"Ez", "Vz", "Se"} {
        assert parts[i] == parts[1..][i - 1];
      }
    }
  }
}
