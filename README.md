# A verified model of the TSP VID store

This project models the core of the Rust `tsp` crate, an implementation of
the Trust Spanning Protocol. It covers:

- the store of verified identifiers (VIDs): what this application knows
  about each identity, the rule that chooses how a message is sealed for a
  receiver (routed, nested or direct), and the rule that turns a received
  message into a `ReceivedTspMessage` while driving the relationship state
  machine;
- the async store's sending, relationship and forwarding operations, with
  the transport as an outbox;
- the `did:peer` (numalgo 2) identifier encoding, its parser and the
  `verify_vid` dispatch;
- the protocol's data model: payloads, received messages, VIDs and owned VIDs.

Cryptography (HPKE sealing, Ed25519 signing, SHA-256, the CESR envelope
probe) and the encoding libraries (bs58, base64url decoding, JSON, URL
parsing, the Ed25519 point check) are parameters. Their code is not part of
this model. The predicates `Crypto.ValidCrypto` and `Encodings.ValidCodecs`
state what the modelled code relies on from them: a sealed message opens to
what was sealed, bs58 decoding inverts encoding, and so on. UTF-8
encoding and strict decoding, base64url encoding and `str::split`/`join`
are written out, with their round trips proved.

Files, in dependency order: `wrappers.dfy` (Option, Result, bytes),
`utf8.dfy`, `text.dfy`, `definitions.dfy`, `encodings.dfy`, `vid.dfy`,
`peer.dfy`, `resolve.dfy`, `crypto.dfy`, `store.dfy`, `async_store.dfy`,
`scenarios.dfy` (properties of two or three stores exchanging messages).

The `Store` and `AsyncStore` classes keep the map of contexts, and the
outbox, as fields that their methods update. Each method that changes
the store states its new state as a pure function of the old one, and
the properties are proved about those functions; `Store.ListVids` is
specified by what it returns (every identifier once). `Store.Valid()`
(every entry is keyed by its own identifier, an owned VID's public part
is the entry's VID, a stored route has at least two hops) is required
and preserved by every method that changes the store except
`Store.ModifyVid`, whose change is an arbitrary function of the entry
and may break it. A Rust panic (an
out-of-bounds index, `todo!()`) is a distinct `Panic` error value.

## Model

| member | source | states |
|---|---|---|
| Definitions.Payload.AsBytes | tsp-definitions/src/lib.rs:58-68 | content, nested and routed payloads give their carried bytes; cancel and request give none; accept gives its 32-byte thread id |
| Definitions.DisplayHopsAppend | tsp-definitions/src/lib.rs:88-90 | the hop loop of `Display` renders a concatenated route as the two renderings one after the other |
| Definitions.DisplayHidesThreadId | tsp-definitions/src/lib.rs:93-95 | the three relationship controls print fixed texts that do not depend on the thread id |
| Definitions.DebugBytes | tsp-definitions/src/lib.rs:89 | the `{:?}` rendering of a hop is bracketed, is `[]` exactly for an empty hop, and a one-byte hop prints as its decimal value in brackets |
| Definitions.DebugElementsAppend | tsp-definitions/src/lib.rs:89 | the bytes of two non-empty slices print as their two renderings joined by a single `, ` |
| Utf8.DecodeEncode | tsp/src/store.rs:344-350 | strict UTF-8 decoding of an identifier's encoding gives the identifier back, so `from_utf8` of an envelope's identifiers cannot fail for identifiers the store wrote |
| Utf8.EncodeDecode | tsp/src/store.rs:344-350 | bytes that decode re-encode to themselves |
| Utf8.EncodeInjective | tsp/src/vid/mod.rs:99-103 | distinct identifiers have distinct byte forms |
| Utf8.EncodeAppend | tsp/src/vid/mod.rs:99-103 | encoding distributes over concatenation |
| Text.Split | tsp/src/vid/resolve.rs:8 | splitting gives at least one piece, and no piece holds the separator |
| Text.JoinSplit | tsp/src/vid/did/peer.rs:126 | joining the split pieces with the separator rebuilds the string |
| Text.SplitJoin | tsp/src/vid/did/peer.rs:58 | splitting a join of separator-free pieces gives the pieces back |
| Text.DecimalValueOfDecimal | tsp-definitions/src/lib.rs:89 | the decimal digits of a byte read back as that byte |
| Encodings.Json.Index | tsp/src/vid/did/peer.rs:110-114 | `value[key]` is the member of an object, otherwise `Null` |
| Encodings.ServiceJson | tsp/src/vid/did/peer.rs:33-38 | the service object has `"t": "tsp"` and `s.uri` equal to the endpoint |
| Encodings.Base64UrlEncode | tsp/src/vid/did/peer.rs:40-43 | a non-empty input gives at least two characters, the first being the top six bits of the first byte |
| Encodings.Base64UrlLength | tsp/src/vid/did/peer.rs:40-43 | unpadded base64url: four characters per three bytes, two or three for a remainder of one or two |
| Encodings.Base64UrlAlphabet | tsp/src/vid/did/peer.rs:40-43 | every character of the encoding is from the URL-safe alphabet |
| Encodings.Base64UrlOfBrace | tsp/src/vid/did/peer.rs:34-43 | the encoding of a JSON object starts with `e`, so the service part is tagged `Se` |
| Vids.Vid.AsRef | tsp/src/vid/mod.rs:99-103 | the byte view decodes to the identifier |
| Vids.OwnedVidShowsInnerVid | tsp/src/vid/mod.rs:72-148 | an owned VID's identifier, endpoint and public keys are its inner VID's, and `vid()`/`into_vid()` return that VID |
| Vids.DebugRedactsKeys | tsp/src/vid/mod.rs:44-51 | the debug text of an owned VID does not depend on its private keys |
| Vids.Bind | tsp/src/vid/mod.rs:106-120 | the identity has the given identifier and endpoint and the generated keys |
| Peer.EncodeDidPeer | tsp/src/vid/did/peer.rs:11-46 | the buffer-building encoder returns `did:peer:2.Vz<bs58(ed25519 prefix ++ key)>.Ez<bs58(x25519 prefix ++ key)>.S<base64url(service JSON)>` |
| Peer.NewDidPeer | tsp/src/vid/mod.rs:122-140 | the identifier is the did:peer encoding of the VID with those keys and that endpoint |
| Peer.PartTag | tsp/src/vid/did/peer.rs:63 | `&part[0..2]` is a prefix of the part whose UTF-8 form is two bytes; a part shorter than two bytes, or one whose byte 2 falls inside a character, is a panic; a leading two-byte character is the whole tag; two ASCII characters give exactly those two |
| Peer.ScanEncryptionKey | tsp/src/vid/did/peer.rs:65-81 | undecodable text and a wrong multicodec prefix are their own errors; the key is taken only when exactly 32 bytes follow the prefix; the other two findings are untouched |
| Peer.ScanVerificationKey | tsp/src/vid/did/peer.rs:83-101 | as for the encryption key with the ed25519 prefix; a key of the wrong length leaves the earlier finding, one that is not a curve point clears it |
| Peer.ScanService | tsp/src/vid/did/peer.rs:103-116 | the service must decode and parse, `t` must be `"tsp"`, and the endpoint is the parsed `s.uri` when that is a string |
| Peer.ScanPart | tsp/src/vid/did/peer.rs:58-121 | a part is accepted only with tag `Ez`, `Vz` or `Se`; any other tag is "invalid part in did:peer" |
| Peer.ReadPart | tsp/src/vid/did/peer.rs:63-121 | one turn of the loop, dispatching on the tag, reads the part as `ScanPart` defines |
| Peer.Complete | tsp/src/vid/did/peer.rs:124-137 | a VID exactly when all three were found, with the rejoined identifier; otherwise the first missing of verification key, encryption key, transport |
| Peer.VerifyDidPeerSpec | tsp/src/vid/did/peer.rs:48-138 | fewer than three parts panics; a numalgo other than `2` is rejected; an accepted identifier is the parts rejoined with `:` |
| Peer.VerifyDidPeer | tsp/src/vid/did/peer.rs:48-138 | the loop over the parts, with its three mutable findings, returns what `VerifyDidPeerSpec` defines |
| Peer.SeparatorFree | tsp/src/vid/did/peer.rs:20-43 | bs58 and base64url texts contain neither `:` nor `.` |
| Peer.DidPeerColonPieces | tsp/src/vid/resolve.rs:8 | a `did:peer:` identifier splits on `:` into `did`, `peer` and the rest |
| Peer.DidPeerDotPieces | tsp/src/vid/did/peer.rs:49 | the method-specific part splits on `.` into the numalgo and the three tagged parts |
| Peer.ScanVerificationKeyPart | tsp/src/vid/did/peer.rs:83-101 | the encoder's `Vz` part reads back as the verifying key |
| Peer.ScanEncryptionKeyPart | tsp/src/vid/did/peer.rs:65-81 | the encoder's `Ez` part reads back as the encryption key |
| Peer.ScanServicePart | tsp/src/vid/did/peer.rs:103-116 | the encoder's `S` part reads back as the endpoint |
| Peer.ScanDidPeerParts | tsp/src/vid/did/peer.rs:58-122 | the three encoded parts together read back as all three findings |
| Peer.DidPeerSplit | tsp/src/vid/resolve.rs:8 | an encoded identifier has three `:` parts, `did`, `peer` and the dotted part |
| Peer.DidPeerRoundTrip | tsp/src/vid/did/peer.rs:152-176 | verifying the split encoding of a VID with a valid verifying key gives back that VID, keys and endpoint, under the encoded identifier |
| Peer.VerifyDidPeerAccepts | tsp/src/vid/did/peer.rs:50-126 | an accepted identifier has numalgo `2`, only `Ez`/`Vz`/`Se` parts, and is the parts rejoined |
| Peer.ScanPartsAccepts | tsp/src/vid/did/peer.rs:58-122 | a scan that succeeds saw only `Ez`, `Vz` and `Se` parts |
| Resolve.VerifyVid | tsp/src/vid/resolve.rs:7-31 | `did:web` goes to the web resolver, `did:peer` to the did:peer parser with all parts, anything else (including fewer than two parts) is `InvalidVid` of the whole identifier; a did:peer result carries the input identifier |
| Resolve.NewDidPeerResolves | tsp/src/vid/mod.rs:122-140 | the identifier of a new did:peer identity resolves to exactly its public VID |
| Crypto.SealOpen | tsp-crypto/src/lib.rs:89-104 | instantiates the `ValidCrypto` round-trip axiom that this test exercises, with the envelope axiom: a sealed message opens, at its receiver, to the data and payload that were sealed, and its envelope names sender and receiver |
| VidStore.LiftCrypto | tsp/src/error.rs:9-10 | a crypto error becomes `Error::Crypto`, a success passes through |
| VidStore.GetVid | tsp/src/store.rs:199-204 | the entry of a known identifier, `UnverifiedVid` otherwise |
| VidStore.GetPrivateVid | tsp/src/store.rs:187-192 | an absent identifier is `UnverifiedVid`, a public-only entry `MissingPrivateVid`, otherwise the owned VID |
| VidStore.GetVerifiedVid | tsp/src/store.rs:195-197 | the VID of a known identifier, `UnverifiedVid` otherwise |
| VidStore.HasPrivateVid | tsp/src/store.rs:182-184 | true exactly for known identifiers with a private part |
| VidStore.EncodeAll | tsp/src/store.rs:261-264 | each hop of the remaining route as its identifier's bytes, in order |
| VidStore.WithStatus | tsp/src/store.rs:142-152 | an unknown identifier is `UnverifiedVid`; otherwise only that entry's status changes |
| VidStore.SealRouted | tsp/src/store.rs:232-274 | an empty route is an index panic; an unknown first hop, a first hop or receiver without relation VID, a relation VID that is not owned, and a failed inner or outer seal are each their own error, in the source's order; once every link is present the result is Ok exactly when both seals succeed, the inner layer sealed by the receiver's relation VID to the receiver, the outer by the first hop's relation VID to the first hop with the rest of the route, sent to the first hop |
| VidStore.SealNested | tsp/src/store.rs:277-306 | each of the six links (the receiver's relation VID, that VID known, its parent, its private part, the parent's private part, the receiver's parent known) and each failed sign or seal is its own error, in the source's order; once every link is present the result is Ok exactly when signing and sealing succeed, the signed payload nested in the parent's seal for the receiver's parent and sent to the parent's endpoint |
| VidStore.SealDirect | tsp/src/store.rs:309-316 | the sender seals the payload for the receiver, and it goes to the receiver's endpoint |
| VidStore.SealMessagePayload | tsp/src/store.rs:221-317 | the sender must be owned and the receiver known; then a route takes precedence over a parent, and a parent over direct sending |
| VidStore.SealDestination | tsp/src/store.rs:221-317 | a sealed message goes to the first hop, else the parent, else the receiver |
| VidStore.SealMessage | tsp/src/store.rs:206-219 | an unowned sender or unknown receiver is its own error; a sealed message goes to the first hop of a routed receiver, else to the parent of a nested one, else to the receiver, and a direct receiver gets the sender's seal of the content, Ok exactly when that seal succeeds |
| VidStore.SignAnycastPayload | tsp/src/store.rs:323-332 | the owned sender signs the payload's bytes for no receiver |
| VidStore.SignAnycast | tsp/src/store.rs:319-321 | an unowned sender is the `get_private_vid` error; otherwise signing succeeds exactly when the signature does, and the signed message verifies against the sender's VID to the message and carries an envelope naming the sender and no receiver |
| Scenarios.AnycastReceived | tsp/src/store.rs:319-332 | an anycast message signed by a store's owned VID opens, at any store holding that VID, as a signed message from it whose payload is the message, with no receiver needed and the store unchanged |
| VidStore.AcceptRule | tsp/src/store.rs:389-414 | an accept succeeds exactly for a pending request with the same thread id, and then that entry becomes `Bidirectional`; the three refusals have their own messages and change nothing |
| VidStore.CancelRule | tsp/src/store.rs:415-432 | a cancel with the stored thread id ends a pending or established relationship; another thread id is refused; an unrelated entry panics; an unknown sender is accepted with nothing changed |
| VidStore.ForwardRule | tsp/src/store.rs:371-384 | a routed payload is a forward request to `hops[0]`, which must decode and be known, with `hops[1..]`; an empty route panics |
| VidStore.OpenMessageSpec | tsp/src/store.rs:336-463 | opening changes at most relationship statuses, changes nothing on failure, and changes something only on an accepted accept or cancel |
| VidStore.PayloadRule | tsp/src/store.rs:359-432 | each non-nested payload is received from the sender by its rule; only an accept or a cancel changes the store, and then only a status; a failure changes nothing |
| VidStore.SignedRule | tsp/src/store.rs:435-462 | a signed message is received exactly when a named receiver decodes and is owned, the sender decodes and is known, and the message verifies; it is then the verified payload from that sender, marked `Signed`, without non-confidential data |
| VidStore.OpenPayloadRules | tsp/src/store.rs:359-433 | for a message from a known sender to an owned VID, each decrypted payload kind is handled by its rule, a nested one by opening the inner message |
| VidStore.OpenPreservesWellFormed | tsp/src/store.rs:336-463 | opening keeps the store's invariant |
| VidStore.Store.constructor | tsp/src/store.rs:81-83 | a new store is empty |
| VidStore.Store.AddVerifiedVid | tsp/src/store.rs:86-100 | inserts or overwrites the entry of the identifier with a public-only, unrelated context; no other key changes |
| VidStore.Store.AddPrivateVid | tsp/src/store.rs:103-119 | inserts or overwrites the owned entry, which is then both a private and a verified VID |
| VidStore.Store.ModifyVid | tsp/src/store.rs:170-179 | an unknown identifier is `UnverifiedVid` and nothing changes; otherwise only that entry changes |
| VidStore.Store.SetParentForVid | tsp/src/store.rs:121-127 | only the parent of the entry changes |
| VidStore.Store.SetRelationForVid | tsp/src/store.rs:130-136 | only the relation VID of the entry changes |
| VidStore.Store.SetRelationStatusForVid | tsp/src/store.rs:142-152 | only the status of the entry changes |
| VidStore.Store.SetRouteForVid | tsp/src/store.rs:155-167 | a one-hop route is `InvalidRoute`, an empty one clears the tunnel, any other is stored in order; the store's invariant holds |
| VidStore.Store.ListVids | tsp/src/store.rs:138-140 | every identifier of the store exactly once |
| VidStore.Store.OpenMessage | tsp/src/store.rs:336-463 | opening in place, recursively for nested messages, gives the result and store of `OpenMessageSpec`, and keeps `Valid()` |
| VidStore.Store.ReceivePayload | tsp/src/store.rs:359-432 | updating the relationship status in place, gives the result and store of `PayloadRule`, and keeps `Valid()` |
| VidStore.Store.OpenSigned | tsp/src/store.rs:435-462 | reading the store only, returns what `SignedRule` defines |
| AsyncVidStore.Transmit | tsp/src/async_store.rs:142 | sending fails exactly for an unreachable endpoint, with a transport error |
| AsyncVidStore.SealRequest | tsp/src/async_store.rs:178-182 | owned sender, then known receiver, then `seal_and_hash` of a request without non-confidential data |
| AsyncVidStore.RequestOutcome | tsp/src/async_store.rs:173-192 | the receiver becomes `Unidirectional` with the thread id from `seal_and_hash`, and only once the request was sent; on failure nothing changes |
| AsyncVidStore.AcceptOutcome | tsp/src/async_store.rs:197-215 | the accept is sealed like any message; once it is sent the receiver becomes `Bidirectional` with the given thread id |
| AsyncVidStore.CancelOutcome | tsp/src/async_store.rs:219-238 | the receiver becomes `Unrelated` before sealing, so also when sealing or sending then fails; the cancel carries the all-zero thread id |
| AsyncVidStore.ForwardSeal | tsp/src/async_store.rs:275-318 | with the path used up: a next hop that is not owned, an unknown own entry, no relation ("no relation for drop-off VID"), an unknown recipient and a failed seal are each their own error, and otherwise the owned next hop's nested seal for its relation VID goes to that VID; with path left: an unknown next hop, no relation VID, a relation VID that is not owned and a failed seal are each their own error, and otherwise the relation VID's routed seal with the path goes to the next hop; in both cases Ok exactly when the seal succeeds once every link is present |
| AsyncVidStore.RouteTarget | tsp/src/async_store.rs:247-270 | errors in order: receiver not owned, sender unknown, open failure, payload not routed; then the forward rule for `hops[0]` |
| AsyncVidStore.RouteSeal | tsp/src/async_store.rs:241-271 | a routed message that cannot be read gives its error; what is sent goes to the decoded first hop when hops remain, and to the drop-off recipient, the relation VID of our own next hop, when none do |
| AsyncVidStore.AsyncStore.constructor | tsp/src/async_store.rs:40-48 | a new async store wraps an empty store and has sent nothing |
| AsyncVidStore.AsyncStore.SendMessage | tsp/src/async_store.rs:142 | a reachable endpoint receives the message; an unreachable one is a transport error and nothing is sent |
| AsyncVidStore.AsyncStore.VerifyVid | tsp/src/async_store.rs:95-101 | a resolved VID is added as verified; a resolution error is returned and nothing changes |
| AsyncVidStore.AsyncStore.Send | tsp/src/async_store.rs:131-145 | seals a content message, sends it, and returns the sealed bytes |
| AsyncVidStore.AsyncStore.SendRelationshipRequest | tsp/src/async_store.rs:173-192 | result, store and outbox are those of `RequestOutcome` |
| AsyncVidStore.AsyncStore.SendRelationshipAccept | tsp/src/async_store.rs:197-215 | result, store and outbox are those of `AcceptOutcome` |
| AsyncVidStore.AsyncStore.SendRelationshipCancel | tsp/src/async_store.rs:219-238 | result, store and outbox are those of `CancelOutcome` |
| AsyncVidStore.AsyncStore.RouteMessage | tsp/src/async_store.rs:241-271 | sends what `RouteSeal` seals, to where it says, and nothing on error |
| AsyncVidStore.AsyncStore.ForwardRoutedMessage | tsp/src/async_store.rs:275-318 | sends what `ForwardSeal` seals, to where it says, and nothing on error |
| Scenarios.SealedOpensAt | tsp/src/store.rs:340-357 | a message sealed for an owned VID by a known sender passes the envelope checks and opens to what was sealed |
| Scenarios.SealedContentReceived | tsp/src/store.rs:360-365 | a sealed content message is received as that content from its sealer, with its non-confidential data |
| Scenarios.DirectDelivery | tsp/src/test.rs:1-56 | in direct mode the message goes to the receiver, whose store receives the same message and non-confidential data from the sender |
| Scenarios.NestedDelivery | tsp/src/test.rs:58-128 | in nested mode the receiver's store opens both layers and receives the message from the inner sender, as a signed message without non-confidential data |
| Scenarios.RoutedFirstHop | tsp/src/test.rs:130-221 | the first intermediary receives a forward request from the first hop's relation VID to the second hop, with the rest of the route and the inner message; an unknown second hop is `UnverifiedVid` |
| Scenarios.ForwardReachesNextHop | tsp/src/test.rs:237-269 | what an intermediary forwards along a path reaches the next hop's store as a routed message, so a path head that store does not know is `UnverifiedVid` |
| Scenarios.DropOffUnwraps | tsp/src/test.rs:271-294 | at the end of the path the final store opens the opaque message itself |
| Scenarios.RoutedDelivery | tsp/src/test.rs:271-294 | the drop-off of the inner layer delivers the original message from the sender's relation VID |
| Scenarios.RequestReceived | tsp/src/test.rs:371-446 | the receiver reads a request whose thread id is the one the requester stored |
| Scenarios.AcceptReceived | tsp/src/test.rs:371-446 | an accept with that thread id makes the requester's entry `Bidirectional` |
| Scenarios.ConnectedByStatus | tsp/src/store.rs:142-152 | changing statuses keeps two stores' shared knowledge of each other |
| Scenarios.Handshake | tsp/src/test.rs:371-446 | request then accept leaves both sides `Bidirectional` with the same thread id |
| Scenarios.ThreadOf | tsp/src/store.rs:17-23 | the thread id held by a pending or established relationship |
| Scenarios.CancelOpens | tsp/src/store.rs:415-432 | a direct cancel opens at the peer through the cancel rule with the thread id it carries |
| Scenarios.CancelSetting | tsp/src/async_store.rs:224 | resetting the canceller's own status keeps the invariant and the connection |
| Scenarios.CancelAsWrittenRejected | tsp/src/async_store.rs:219-238 | a cancel of an established relationship with a non-zero thread id is refused by the peer, which stays `Bidirectional` |
| Scenarios.CancelOutcomeCorrected | tsp/src/async_store.rs:219-238 | the cancel carries the thread id of the relationship, read before the reset |
| Scenarios.CorrectedCancelEndsRelationship | tsp/src/async_store.rs:219-238 | with that thread id the peer accepts the cancel and both sides become `Unrelated` |

## Left out

- The `did:web` resolution (tsp/src/vid/resolve.rs:11-26) is HTTP plus JSON. It is the `resolveWeb` parameter of `Resolve.VerifyVid`.
- `AsyncStore::receive` (tsp/src/async_store.rs:323-345) spawns a task that feeds a channel. Its point is concurrency, so it is not modelled.
- The transport is an outbox plus a set of unreachable endpoints. Network errors other than refusal are not modelled.
- The `RwLock` around the map is not modelled. Its poison errors are treated as unreachable, so `AddVerifiedVid` and `AddPrivateVid` return nothing and `ListVids` returns the identifiers directly.
- `Store` is `Clone` and shares its map through an `Arc`. The model has one store object per database, so aliasing between clones is not captured.
- HPKE, Ed25519, SHA-256 and CESR are axiomatised by `Crypto.ValidCrypto`. The round-trip test in tsp-crypto/src/lib.rs:89-104 exercises only its first conjunct (a sealed message opens to what was sealed). The others go beyond it:
  - `probe` of a sealed or signed message reports the envelope that names its sender and receiver;
  - a message from `seal_and_hash` opens to what was sealed, and its thread id is the SHA-256 of what `open` reports as raw bytes (the handshake in tsp/src/test.rs:371-446 depends on this);
  - a signed message verifies, against the signer's VID, to the signed bytes;
  - the payload of a `NestedMessage` is strictly shorter than the envelope that carried it, which bounds the recursion of `OpenMessage`.
- Crypto.ValidCrypto: opening depends only on the receiver's public VID. Any `OwnedVid` whose public part is the receiver opens the message, so opening with a wrong private key is not modelled as failing, and nothing ties an owned VID's private keys to its public keys.
- bs58, base64url decoding, JSON, `Url::parse` and the Ed25519 point check are axiomatised by `Encodings.ValidCodecs`. JSON numbers are integers.
- Key generation draws from `OsRng`, so the keys of `Bind` and `NewDidPeer` are parameters.
- `String::from_utf8_lossy` and the derived `Debug` of `Vid` are parameters of `Payload.Display` and `OwnedVid.Debug`.
- `from_file`, `add_private_vid_from_file`, the servers, the CLI and the transports are I/O and are not modelled.
- The delegating `AsyncStore` methods are not modelled separately: `add_private_vid`, `add_verified_vid`, `has_private_vid`, `set_relation_for_vid`, `set_route_for_vid`, `set_parent_for_vid`, `list_vids` (tsp/src/async_store.rs:51-93). They are the `Store` methods of the same names.
- tsp-vid/src is an older copy of the VID code and is not part of this model; vid/src/api.rs only declares traits.
- Errors are reduced to the variants the store raises. tsp/src/error.rs declares neither `Relationship` nor `MissingPrivateVid`, which tsp/src/store.rs raises; the model follows the store. `FromUtf8Error` and `Utf8Error` are both `Utf8Failure`.
- `Complete` builds a `Vid` with the fields the parser fills. Any further fields a version of `Vid` may carry are not modelled.
- `Peer.VerifyDidPeerAccepts`: states numalgo and tags of an accepted identifier; that each component is the one decoded is stated by the scanning functions instead.
- `AsyncVidStore.AsyncStore.SendRelationshipCancel`: models the source as written. The corrected behaviour is `Scenarios.CancelOutcomeCorrected`; see Findings.
- `Scenarios.NestedDelivery`, `Scenarios.RoutedFirstHop` and the other scenario lemmas assume that both stores hold the same VIDs for the identities involved, as `verify_vid` of the same identifier would give in the tests.

## Findings

| source | as written | input that shows it | evidently intended | confidence | as-written member | corrected member |
|---|---|---|---|---|---|---|
| tsp/src/async_store.rs:226 | `send_relationship_cancel` sends `Default::default()`, the all-zero thread id, and the peer's cancel rule (tsp/src/store.rs:418-424) refuses a thread id that differs from the stored one | two stores in `Bidirectional(t)` with `t` not all zeros; the canceller becomes `Unrelated` and the peer answers "invalid attempt to end the relationship" and stays `Bidirectional(t)` | send the thread id of the relationship being cancelled | medium, not executed | Scenarios.CancelAsWrittenRejected | Scenarios.CorrectedCancelEndsRelationship |
