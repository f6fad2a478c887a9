/** The cryptographic layer the store calls (`tsp::crypto` and `tsp::cesr`):
    HPKE sealing and opening, Ed25519 signing and verification, SHA-256 and
    the CESR envelope probe. Their code is not part of this model; `Crypto`
    holds them as functions, and `ValidCrypto` states what the store relies
    on: a sealed message opens, with the same sender and receiver, to the
    data and payload that were sealed; its envelope names the two
    identifiers; a signed message verifies to the signed bytes; the thread
    id that `seal_and_hash` returns is the hash of the bytes that `open`
    reports; and a nested payload is shorter than the message carrying it. */
module Crypto {
  import opened Wrappers
  import opened Bytes
  import opened Definitions
  import opened Vids
  import Utf8

  /** `tsp_crypto::error::Error` (tsp-crypto/src/error.rs). */
  datatype CryptoError =
    | Encode
    | Decode
    | Cryptographic
    | Verify
    | UnexpectedRecipient
    | MissingCiphertext

  /** `cesr::EnvelopeType`: the sender and receiver identifiers as they
      appear, undecoded, in the envelope of a message. */
  datatype EnvelopeType =
    | EncryptedMessage(sender: Bytes, receiver: Bytes)
    | SignedMessage(sender: Bytes, intendedReceiver: Option<Bytes>)

  /** What `crypto::open` returns: the non-confidential data, the decrypted
      payload and the raw bytes the thread id is computed from. */
  datatype Unsealed = Unsealed(nonconfidentialData: Option<Bytes>, payload: Payload, rawBytes: Bytes)

  datatype Crypto = Crypto(
    /** `crypto::seal(sender, receiver, nonconfidential_data, payload)` */
    seal: (OwnedVid, Vid, Option<Bytes>, Payload) -> Result<Bytes, CryptoError>,
    /** `crypto::seal_and_hash`: the sealed message and its thread id */
    sealAndHash: (OwnedVid, Vid, Option<Bytes>, Payload) -> Result<(Bytes, Digest), CryptoError>,
    /** `crypto::open(receiver, sender, message)` */
    open: (OwnedVid, Vid, Bytes) -> Result<Unsealed, CryptoError>,
    /** `crypto::sign(sender, receiver, payload)` */
    sign: (OwnedVid, Option<Vid>, Bytes) -> Result<Bytes, CryptoError>,
    /** `crypto::verify(sender, message)` */
    verify: (Vid, Bytes) -> Result<Bytes, CryptoError>,
    /** `crypto::sha256` */
    sha256: Bytes -> Digest,
    /** `cesr::probe`; None is its decode error */
    probe: Bytes -> Option<EnvelopeType>
  )

  /** The envelope of a message that `sender` sealed for `receiver`. */
  function SealedEnvelope(sender: OwnedVid, receiver: Vid): EnvelopeType {
    EncryptedMessage(Utf8.Encode(sender.Identifier()), Utf8.Encode(receiver.Identifier()))
  }

  /** The envelope of a message that `sender` signed, for `receiver` if given. */
  function SignedEnvelope(sender: OwnedVid, receiver: Option<Vid>): EnvelopeType {
    SignedMessage(Utf8.Encode(sender.Identifier()),
                  if receiver.Some? then Some(Utf8.Encode(receiver.value.Identifier())) else None)
  }

  /** Opening `m` as `receiver` from `sender` gives back `ncd` and `p`. */
  predicate OpensTo(k: Crypto, receiver: OwnedVid, sender: Vid, m: Bytes, ncd: Option<Bytes>, p: Payload) {
    k.open(receiver, sender, m).Ok?
    && k.open(receiver, sender, m).value.nonconfidentialData == ncd
    && k.open(receiver, sender, m).value.payload == p
  }

  ghost predicate ValidCrypto(k: Crypto) {
    // a sealed message opens to what was sealed (tsp-crypto/src/lib.rs:89-104)
    && (forall s: OwnedVid, r: OwnedVid, n: Option<Bytes>, p: Payload ::
          k.seal(s, r.vid, n, p).Ok? ==> OpensTo(k, r, s.vid, k.seal(s, r.vid, n, p).value, n, p))
    && (forall s: OwnedVid, r: Vid, n: Option<Bytes>, p: Payload ::
          k.seal(s, r, n, p).Ok? ==> k.probe(k.seal(s, r, n, p).value) == Some(SealedEnvelope(s, r)))
    // the same for seal_and_hash, whose thread id is the hash of the opened raw bytes
    && (forall s: OwnedVid, r: OwnedVid, n: Option<Bytes>, p: Payload ::
          k.sealAndHash(s, r.vid, n, p).Ok? ==>
            var (m, digest) := k.sealAndHash(s, r.vid, n, p).value;
            OpensTo(k, r, s.vid, m, n, p) && k.sha256(k.open(r, s.vid, m).value.rawBytes) == digest)
    && (forall s: OwnedVid, r: Vid, n: Option<Bytes>, p: Payload ::
          k.sealAndHash(s, r, n, p).Ok? ==> k.probe(k.sealAndHash(s, r, n, p).value.0) == Some(SealedEnvelope(s, r)))
    // a signed message verifies to the signed bytes
    && (forall s: OwnedVid, r: Option<Vid>, b: Bytes ::
          k.sign(s, r, b).Ok? ==>
            k.probe(k.sign(s, r, b).value) == Some(SignedEnvelope(s, r))
            && k.verify(s.vid, k.sign(s, r, b).value) == Ok(b))
    // the message nested in a message is shorter than it
    && (forall r: OwnedVid, s: Vid, m: Bytes ::
          k.open(r, s, m).Ok? && k.open(r, s, m).value.payload.NestedMessage? ==>
            |k.open(r, s, m).value.payload.bytes| < |m|)
  }

  /** The round-trip and envelope axioms of `ValidCrypto`, instantiated for
      one sealed message: nothing about HPKE is proved here, the lemma only
      makes the two axioms usable as a single call. */
  lemma SealOpen(k: Crypto, s: OwnedVid, r: OwnedVid, n: Option<Bytes>, p: Payload)
    requires ValidCrypto(k) && k.seal(s, r.vid, n, p).Ok?
    ensures OpensTo(k, r, s.vid, k.seal(s, r.vid, n, p).value, n, p)
    ensures k.probe(k.seal(s, r.vid, n, p).value) == Some(SealedEnvelope(s, r.vid))
  {
  }
}
