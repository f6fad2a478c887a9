/** Verified identifiers (tsp/src/vid/mod.rs) and the errors of the vid
    module (tsp/src/vid/error.rs). A `Vid` is the public record of an
    identity; an `OwnedVid` adds the two private keys. */
module Vids {
  import opened Bytes
  import opened Definitions
  import opened Encodings
  import Utf8

  /** `VidError`, without the variants of the did:web fetch. `Panic` stands
      for a Rust panic (an out-of-bounds index), not for a returned error. */
  datatype VidError =
    | InvalidVid(id: string)
    | ResolveVid(reason: string)
    | Panic(reason: string)

  /** `Vid`: identifier, transport endpoint, Ed25519 verifying key and X25519
      encryption key. */
  datatype Vid = Vid(id: string, transport: Url, publicSigkey: KeyData, publicEnckey: KeyData)
  {
    function Identifier(): string { id }

    function Endpoint(): Url { transport }

    function VerifyingKey(): KeyData { publicSigkey }

    function EncryptionKey(): KeyData { publicEnckey }

    /** `impl AsRef<[u8]> for Vid`: the identifier's UTF-8 bytes. */
    function AsRef(): (r: Bytes)
      ensures Utf8.Decode(r).Some? && Utf8.Decode(r).value == Identifier()
    {
      Utf8.DecodeEncode(id);
      Utf8.Encode(id)
    }
  }

  /** `OwnedVid`: a `Vid` with the Ed25519 signing key and the X25519 decryption key. */
  datatype OwnedVid = OwnedVid(vid: Vid, sigkey: KeyData, enckey: KeyData)
  {
    function Identifier(): string { vid.Identifier() }

    function Endpoint(): Url { vid.Endpoint() }

    function VerifyingKey(): KeyData { vid.VerifyingKey() }

    function EncryptionKey(): KeyData { vid.EncryptionKey() }

    function SigningKey(): KeyData { sigkey }

    function DecryptionKey(): KeyData { enckey }

    /** `OwnedVid::vid`. */
    function InnerVid(): Vid { vid }

    /** `OwnedVid::into_vid`. */
    function IntoVid(): Vid { vid }

    /** `impl Debug for OwnedVid`; `vidDebug` is the derived `Debug` of `Vid`.
        Both private keys are printed as `"<secret>"`. */
    function Debug(vidDebug: Vid -> string): string
    {
      "PrivateVid { vid: " + vidDebug(vid) + ", sigkey: \"<secret>\", enckey: \"<secret>\" }"
    }
  }

  /** An `OwnedVid` shows the public side of its inner `Vid` unchanged, and
      `vid()`/`into_vid()` hand that `Vid` back. */
  lemma OwnedVidShowsInnerVid(o: OwnedVid)
    ensures o.Identifier() == o.vid.id && o.Endpoint() == o.vid.transport
    ensures o.VerifyingKey() == o.vid.publicSigkey && o.EncryptionKey() == o.vid.publicEnckey
    ensures o.InnerVid() == o.IntoVid() == o.vid
  {
  }

  /** The debug text of an owned identity does not depend on its private keys. */
  lemma DebugRedactsKeys(o1: OwnedVid, o2: OwnedVid, vidDebug: Vid -> string)
    requires o1.vid == o2.vid
    ensures o1.Debug(vidDebug) == o2.Debug(vidDebug)
  {
  }

  /** Key pairs as `SigningKey::generate` and `gen_keypair` would return them;
      generation itself draws from `OsRng` and is not modelled. */
  datatype GeneratedKeys = GeneratedKeys(sigkey: KeyData, verifyingKey: KeyData, enckey: KeyData, publicEnckey: KeyData)

  /** `OwnedVid::bind`: an identity named `id`, reachable at `transport`, with fresh keys. */
  function Bind(id: string, transport: Url, keys: GeneratedKeys): (o: OwnedVid)
    ensures o.Identifier() == id && o.Endpoint() == transport
    ensures o.VerifyingKey() == keys.verifyingKey && o.EncryptionKey() == keys.publicEnckey
    ensures o.SigningKey() == keys.sigkey && o.DecryptionKey() == keys.enckey
  {
    OwnedVid(Vid(id, transport, keys.verifyingKey, keys.publicEnckey), keys.sigkey, keys.enckey)
  }
}
