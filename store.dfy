/** The VID store of tsp/src/store.rs: a map from identifier to what this
    application knows about that identity, the rule that decides how a
    message is sealed for a receiver (routed, nested or direct), and the
    rule that turns a received message into a `ReceivedTspMessage` while
    driving the relationship state machine. */
module VidStore {
  import opened Wrappers
  import opened Bytes
  import opened Definitions
  import opened Encodings
  import opened Vids
  import opened Crypto
  import Utf8

  /** Our relationship with an identity; `Controlled` is declared but never set. */
  datatype RelationshipStatus =
    | Controlled
    | Bidirectional(digest: Digest)
    | Unidirectional(digest: Digest)
    | Unrelated

  /** What the store holds for one identifier. `private` is present for the
      identities this application owns; `relationVid` names the identity we
      speak as towards this one, `parentVid` the outer identity of a nested
      one, and `tunnel` the intermediaries a routed message goes through. */
  datatype VidContext = VidContext(
    vid: Vid,
    private: Option<OwnedVid>,
    relationStatus: RelationshipStatus,
    relationVid: Option<string>,
    parentVid: Option<string>,
    tunnel: Option<seq<string>>)
  {
    function SetParentVid(parentVid: Option<string>): VidContext { this.(parentVid := parentVid) }

    function SetRelationVid(relationVid: Option<string>): VidContext { this.(relationVid := relationVid) }

    function SetRelationStatus(relationStatus: RelationshipStatus): VidContext { this.(relationStatus := relationStatus) }

    /** An empty route clears the tunnel. */
    function SetRoute(route: seq<string>): VidContext {
      this.(tunnel := if |route| == 0 then None else Some(route))
    }

    function GetParentVid(): Option<string> { parentVid }

    function GetRelationVid(): Option<string> { relationVid }

    function GetRoute(): Option<seq<string>> { tunnel }
  }

  /** The context a newly added identity starts with. */
  function NewContext(vid: Vid, private: Option<OwnedVid>): VidContext {
    VidContext(vid, private, Unrelated, None, None, None)
  }

  /** `tsp::Error`, with the variants the store and the async store raise.
      `Panic` stands for a Rust panic (an out-of-bounds index, `todo!()`). */
  datatype Error =
    | EncodeFailure
    | DecodeFailure
    | TransportFailure(endpoint: Url)
    | CryptoFailure(cryptoError: CryptoError)
    | VidFailure(vidError: VidError)
    | Utf8Failure
    | InvalidRoute(reason: string)
    | UnverifiedVid(id: string)
    | MissingPrivateVid(id: string)
    | Relationship(reason: string)
    | Panic(reason: string)

  // The messages the store's errors and panics carry.
  const NoSenderForFirstHop: string := "missing sender VID for first hop"
  const NoSenderForReceiver: string := "missing sender VID for receiver"
  const NoParentForInner: string := "missing parent for inner VID"
  const NotYetImplemented: string := "not yet implemented"
  const HopsIndexPanic: string := "index out of bounds: hops[0]"
  const IntermediariesIndexPanic: string := "index out of bounds: intermediaries[0]"
  const RouteTooShort: string := "A route must have at least two VID's"
  const AcceptFromUnknown: string := "received confirmation of a relation with an unknown entity"
  const AcceptUnwanted: string := "received confirmation of a relation that we did not want"
  const AcceptChangesTerms: string := "attempt to change the terms of the relationship"
  const BadCancel: string := "invalid attempt to end the relationship"

  function LiftCrypto<T>(r: Result<T, CryptoError>): (e: Result<T, Error>)
    ensures r.Ok? <==> e.Ok?
    ensures r.Ok? ==> e.value == r.value
    ensures r.Err? ==> e.error == CryptoFailure(r.error)
  {
    match r
    case Ok(v) => Ok(v)
    case Err(c) => Err(CryptoFailure(c))
  }

  type VidMap = map<string, VidContext>

  /** What every reachable store satisfies: each entry is keyed by its own
      identifier, an owned identity's public part is the entry's `vid`, and
      a stored route has at least two hops. */
  predicate WellFormedContext(id: string, c: VidContext) {
    && c.vid.id == id
    && (c.private.Some? ==> c.private.value.vid == c.vid)
    && (c.tunnel.Some? ==> |c.tunnel.value| >= 2)
  }

  predicate WellFormed(vids: VidMap) {
    forall id :: id in vids ==> WellFormedContext(id, vids[id])
  }

  /** `Store::get_vid`. */
  function GetVid(vids: VidMap, id: string): (r: Result<VidContext, Error>)
    ensures r.Ok? <==> id in vids
    ensures r.Ok? ==> r.value == vids[id]
    ensures r.Err? ==> r.error == UnverifiedVid(id)
  {
    if id in vids then Ok(vids[id]) else Err(UnverifiedVid(id))
  }

  /** `Store::get_private_vid`: unknown identifiers and public-only entries
      are two different errors. */
  function GetPrivateVid(vids: VidMap, id: string): (r: Result<OwnedVid, Error>)
    ensures id !in vids ==> r == Err(UnverifiedVid(id))
    ensures id in vids && vids[id].private.None? ==> r == Err(MissingPrivateVid(id))
    ensures id in vids && vids[id].private.Some? ==> r == Ok(vids[id].private.value)
  {
    var context :- GetVid(vids, id);
    match context.private
    case Some(private) => Ok(private)
    case None => Err(MissingPrivateVid(id))
  }

  /** `Store::get_verified_vid`. */
  function GetVerifiedVid(vids: VidMap, id: string): (r: Result<Vid, Error>)
    ensures r.Ok? <==> id in vids
    ensures r.Ok? ==> r.value == vids[id].vid
    ensures r.Err? ==> r.error == UnverifiedVid(id)
  {
    var context :- GetVid(vids, id);
    Ok(context.vid)
  }

  /** `Store::has_private_vid`. */
  function HasPrivateVid(vids: VidMap, id: string): (b: bool)
    ensures b <==> id in vids && vids[id].private.Some?
  {
    GetPrivateVid(vids, id).Ok?
  }

  function PrivateOf(vids: VidMap, id: string): OwnedVid
    requires HasPrivateVid(vids, id)
  {
    vids[id].private.value
  }

  /** The UTF-8 bytes of each identifier of a route, in order. */
  function EncodeAll(ids: seq<string>): (r: seq<Bytes>)
    ensures |r| == |ids|
    ensures forall i :: 0 <= i < |ids| ==> r[i] == Utf8.Encode(ids[i])
  {
    if ids == [] then [] else [Utf8.Encode(ids[0])] + EncodeAll(ids[1..])
  }

  /** The map after `set_relation_status_for_vid(id, status)`, or its error. */
  function WithStatus(vids: VidMap, id: string, status: RelationshipStatus): (r: Result<VidMap, Error>)
    ensures id !in vids ==> r == Err(UnverifiedVid(id))
    ensures id in vids ==> r.Ok? && SameButStatus(vids, r.value) && r.value[id].relationStatus == status
                           && forall other :: other in vids && other != id ==> r.value[other] == vids[other]
  {
    if id in vids then Ok(vids[id := vids[id].(relationStatus := status)]) else Err(UnverifiedVid(id))
  }

  /** A routed receiver whose first hop is known and where both the first
      hop and the receiver name a relation VID to seal with. */
  predicate RoutedSendersNamed(vids: VidMap, receiver: VidContext)
    requires receiver.tunnel.Some?
  {
    && |receiver.tunnel.value| >= 1 && receiver.tunnel.value[0] in vids
    && vids[receiver.tunnel.value[0]].relationVid.Some? && receiver.relationVid.Some?
  }

  /** A nested receiver whose relation VID is known and has a parent. */
  predicate NestedSendersNamed(vids: VidMap, receiver: VidContext) {
    && receiver.relationVid.Some? && receiver.relationVid.value in vids
    && vids[receiver.relationVid.value].parentVid.Some?
  }

  /** Routed mode of `seal_message_payload`: the payload is sealed for the
      receiver by the receiver's relation VID, and that inner message is
      sealed, with the rest of the route, for the first hop by the first
      hop's relation VID; the result goes to the first hop. */
  function SealRouted(vids: VidMap, receiver: VidContext, ncd: Option<Bytes>, payload: Payload, k: Crypto): (r: Result<(Url, Bytes), Error>)
    requires receiver.tunnel.Some?
    ensures |receiver.tunnel.value| == 0 ==> r == Err(Error.Panic(IntermediariesIndexPanic))
    ensures var route := receiver.tunnel.value;
            |route| >= 1 && route[0] !in vids ==> r == Err(UnverifiedVid(route[0]))
    ensures var route := receiver.tunnel.value;
            |route| >= 1 && route[0] in vids && vids[route[0]].relationVid.None?
            ==> r == Err(VidFailure(ResolveVid(NoSenderForFirstHop)))
    ensures var route := receiver.tunnel.value;
            |route| >= 1 && route[0] in vids && vids[route[0]].relationVid.Some? && receiver.relationVid.None?
            ==> r == Err(VidFailure(ResolveVid(NoSenderForReceiver)))
    ensures RoutedSendersNamed(vids, receiver) ==>
            var route := receiver.tunnel.value;
            var firstHop := vids[route[0]];
            var firstSender := firstHop.relationVid.value;
            var innerSender := receiver.relationVid.value;
            && (!HasPrivateVid(vids, innerSender) ==> r == Err(GetPrivateVid(vids, innerSender).error))
            && (HasPrivateVid(vids, innerSender) ==>
                  var inner := k.seal(PrivateOf(vids, innerSender), receiver.vid, ncd, payload);
                  && (inner.Err? ==> r == Err(CryptoFailure(inner.error)))
                  && (inner.Ok? && !HasPrivateVid(vids, firstSender) ==> r == Err(GetPrivateVid(vids, firstSender).error))
                  && (inner.Ok? && HasPrivateVid(vids, firstSender) ==>
                        var outer := k.seal(PrivateOf(vids, firstSender), firstHop.vid, None,
                                            Payload.RoutedMessage(EncodeAll(route[1..]), inner.value));
                        && (r.Ok? <==> outer.Ok?)
                        && (outer.Err? ==> r == Err(CryptoFailure(outer.error)))))
    ensures r.Ok? ==>
            var route := receiver.tunnel.value;
            && |route| >= 1 && route[0] in vids
            && vids[route[0]].relationVid.Some? && HasPrivateVid(vids, vids[route[0]].relationVid.value)
            && receiver.relationVid.Some? && HasPrivateVid(vids, receiver.relationVid.value)
            && var firstHop := vids[route[0]];
               var inner := k.seal(PrivateOf(vids, receiver.relationVid.value), receiver.vid, ncd, payload);
               && inner.Ok?
               && var outer := k.seal(PrivateOf(vids, firstHop.relationVid.value), firstHop.vid, None,
                                      Payload.RoutedMessage(EncodeAll(route[1..]), inner.value));
                  outer.Ok? && r.value == (firstHop.vid.Endpoint(), outer.value)
  {
    var route := receiver.tunnel.value;
    if |route| == 0 then Err(Error.Panic(IntermediariesIndexPanic))
    else
      var firstHop :- GetVid(vids, route[0]);
      match (firstHop.relationVid, receiver.relationVid)
      case (Some(firstSender), Some(innerSender)) =>
        var innerSenderVid :- GetPrivateVid(vids, innerSender);
        var inner :- LiftCrypto(k.seal(innerSenderVid, receiver.vid, ncd, payload));
        var firstSenderVid :- GetPrivateVid(vids, firstSender);
        var outer :- LiftCrypto(k.seal(firstSenderVid, firstHop.vid, None, Payload.RoutedMessage(EncodeAll(route[1..]), inner)));
        Ok((firstHop.vid.Endpoint(), outer))
      case (None, _) => Err(VidFailure(ResolveVid(NoSenderForFirstHop)))
      case (_, None) => Err(VidFailure(ResolveVid(NoSenderForReceiver)))
  }

  /** Nested mode of `seal_message_payload`: the receiver's relation VID signs
      the payload's bytes for the receiver, and that VID's parent seals the
      signed message as a `NestedMessage` for the receiver's parent, to whose
      endpoint it goes. */
  function SealNested(vids: VidMap, receiver: VidContext, ncd: Option<Bytes>, payload: Payload, k: Crypto): (r: Result<(Url, Bytes), Error>)
    requires receiver.parentVid.Some?
    ensures receiver.relationVid.None? ==> r == Err(VidFailure(ResolveVid(NoSenderForReceiver)))
    ensures receiver.relationVid.Some? && receiver.relationVid.value !in vids
            ==> r == Err(UnverifiedVid(receiver.relationVid.value))
    ensures receiver.relationVid.Some? && receiver.relationVid.value in vids
            && vids[receiver.relationVid.value].parentVid.None?
            ==> r == Err(VidFailure(ResolveVid(NoParentForInner)))
    ensures NestedSendersNamed(vids, receiver) ==>
            var innerSender := receiver.relationVid.value;
            var parentSender := vids[innerSender].parentVid.value;
            var parentReceiver := receiver.parentVid.value;
            && (!HasPrivateVid(vids, innerSender) ==> r == Err(GetPrivateVid(vids, innerSender).error))
            && (HasPrivateVid(vids, innerSender) ==>
                  var inner := k.sign(PrivateOf(vids, innerSender), Some(receiver.vid), payload.AsBytes());
                  && (inner.Err? ==> r == Err(CryptoFailure(inner.error)))
                  && (inner.Ok? && !HasPrivateVid(vids, parentSender) ==> r == Err(GetPrivateVid(vids, parentSender).error))
                  && (inner.Ok? && HasPrivateVid(vids, parentSender) && parentReceiver !in vids
                      ==> r == Err(UnverifiedVid(parentReceiver)))
                  && (inner.Ok? && HasPrivateVid(vids, parentSender) && parentReceiver in vids ==>
                        var outer := k.seal(PrivateOf(vids, parentSender), vids[parentReceiver].vid, ncd,
                                            Payload.NestedMessage(inner.value));
                        && (r.Ok? <==> outer.Ok?)
                        && (outer.Err? ==> r == Err(CryptoFailure(outer.error)))))
    ensures r.Ok? ==>
            && receiver.relationVid.Some?
            && var innerSender := receiver.relationVid.value;
               && innerSender in vids && vids[innerSender].parentVid.Some? && HasPrivateVid(vids, innerSender)
               && var parentSender := vids[innerSender].parentVid.value;
                  var parentReceiver := receiver.parentVid.value;
                  && HasPrivateVid(vids, parentSender) && parentReceiver in vids
                  && var inner := k.sign(PrivateOf(vids, innerSender), Some(receiver.vid), payload.AsBytes());
                     && inner.Ok?
                     && var outer := k.seal(PrivateOf(vids, parentSender), vids[parentReceiver].vid, ncd,
                                            Payload.NestedMessage(inner.value));
                        outer.Ok? && r.value == (vids[parentReceiver].vid.Endpoint(), outer.value)
  {
    var parentReceiver := receiver.parentVid.value;
    match receiver.relationVid
    case None => Err(VidFailure(ResolveVid(NoSenderForReceiver)))
    case Some(innerSender) =>
      var senderContext :- GetVid(vids, innerSender);
      match senderContext.parentVid
      case None => Err(VidFailure(ResolveVid(NoParentForInner)))
      case Some(parentSender) =>
        var innerSenderVid :- GetPrivateVid(vids, innerSender);
        var inner :- LiftCrypto(k.sign(innerSenderVid, Some(receiver.vid), payload.AsBytes()));
        var parentSenderVid :- GetPrivateVid(vids, parentSender);
        var parentReceiverVid :- GetVerifiedVid(vids, parentReceiver);
        var outer :- LiftCrypto(k.seal(parentSenderVid, parentReceiverVid, ncd, Payload.NestedMessage(inner)));
        Ok((parentReceiverVid.Endpoint(), outer))
  }

  /** Direct mode of `seal_message_payload`: the sender seals the payload for
      the receiver, to whose endpoint it goes. */
  function SealDirect(sender: OwnedVid, receiver: VidContext, ncd: Option<Bytes>, payload: Payload, k: Crypto): (r: Result<(Url, Bytes), Error>)
    ensures r.Ok? <==> k.seal(sender, receiver.vid, ncd, payload).Ok?
    ensures r.Ok? ==> r.value == (receiver.vid.Endpoint(), k.seal(sender, receiver.vid, ncd, payload).value)
    ensures r.Err? ==> r.error == CryptoFailure(k.seal(sender, receiver.vid, ncd, payload).error)
  {
    var message :- LiftCrypto(k.seal(sender, receiver.vid, ncd, payload));
    Ok((receiver.vid.Endpoint(), message))
  }

  /** `Store::seal_message_payload`: the sender must be an owned identity and
      the receiver known; then a receiver with a route is sent to in routed
      mode, otherwise one with a parent in nested mode, otherwise directly. */
  function SealMessagePayload(vids: VidMap, sender: string, receiver: string, ncd: Option<Bytes>, payload: Payload, k: Crypto): (r: Result<(Url, Bytes), Error>)
    ensures r.Ok? ==> HasPrivateVid(vids, sender) && receiver in vids
    ensures !HasPrivateVid(vids, sender) ==> r == Err(GetPrivateVid(vids, sender).error)
    ensures HasPrivateVid(vids, sender) && receiver !in vids ==> r == Err(UnverifiedVid(receiver))
    ensures HasPrivateVid(vids, sender) && receiver in vids && vids[receiver].tunnel.Some?
            ==> r == SealRouted(vids, vids[receiver], ncd, payload, k)
    ensures HasPrivateVid(vids, sender) && receiver in vids && vids[receiver].tunnel.None? && vids[receiver].parentVid.Some?
            ==> r == SealNested(vids, vids[receiver], ncd, payload, k)
    ensures HasPrivateVid(vids, sender) && receiver in vids && vids[receiver].tunnel.None? && vids[receiver].parentVid.None?
            ==> r == SealDirect(PrivateOf(vids, sender), vids[receiver], ncd, payload, k)
  {
    var senderVid :- GetPrivateVid(vids, sender);
    var receiverContext :- GetVid(vids, receiver);
    if receiverContext.tunnel.Some? then SealRouted(vids, receiverContext, ncd, payload, k)
    else if receiverContext.parentVid.Some? then SealNested(vids, receiverContext, ncd, payload, k)
    else SealDirect(senderVid, receiverContext, ncd, payload, k)
  }

  /** Where a successfully sealed message goes: the first hop of a routed
      receiver, else the parent of a nested one, else the receiver itself. */
  lemma SealDestination(vids: VidMap, sender: string, receiver: string, ncd: Option<Bytes>, payload: Payload, k: Crypto)
    requires SealMessagePayload(vids, sender, receiver, ncd, payload, k).Ok?
    ensures var r := SealMessagePayload(vids, sender, receiver, ncd, payload, k).value;
            var c := vids[receiver];
            if c.tunnel.Some? then |c.tunnel.value| >= 1 && c.tunnel.value[0] in vids && r.0 == vids[c.tunnel.value[0]].vid.Endpoint()
            else if c.parentVid.Some? then c.parentVid.value in vids && r.0 == vids[c.parentVid.value].vid.Endpoint()
            else r.0 == c.vid.Endpoint()
  {
  }

  /** `Store::seal_message`: a `Content` payload. The sender must be owned
      and the receiver known; the message goes to the first hop of a routed
      receiver, else to the parent of a nested one, else to the receiver,
      and a direct receiver gets exactly the sender's seal of the content. */
  function SealMessage(vids: VidMap, sender: string, receiver: string, ncd: Option<Bytes>, message: Bytes, k: Crypto): (r: Result<(Url, Bytes), Error>)
    ensures !HasPrivateVid(vids, sender) ==> r == Err(GetPrivateVid(vids, sender).error)
    ensures HasPrivateVid(vids, sender) && receiver !in vids ==> r == Err(UnverifiedVid(receiver))
    ensures r.Ok? ==>
            && HasPrivateVid(vids, sender) && receiver in vids
            && var c := vids[receiver];
               if c.tunnel.Some? then |c.tunnel.value| >= 1 && c.tunnel.value[0] in vids && r.value.0 == vids[c.tunnel.value[0]].vid.Endpoint()
               else if c.parentVid.Some? then c.parentVid.value in vids && r.value.0 == vids[c.parentVid.value].vid.Endpoint()
               else r.value.0 == c.vid.Endpoint()
    ensures HasPrivateVid(vids, sender) && receiver in vids && vids[receiver].tunnel.None? && vids[receiver].parentVid.None? ==>
            var sealed := k.seal(PrivateOf(vids, sender), vids[receiver].vid, ncd, Content(message));
            && (r.Ok? <==> sealed.Ok?)
            && (r.Ok? ==> r.value.1 == sealed.value)
  {
    SealMessagePayload(vids, sender, receiver, ncd, Content(message), k)
  }

  /** `Store::sign_anycast_payload`: the sender signs the payload's bytes for no one in particular. */
  function SignAnycastPayload(vids: VidMap, sender: string, payload: Payload, k: Crypto): (r: Result<Bytes, Error>)
    ensures !HasPrivateVid(vids, sender) ==> r == Err(GetPrivateVid(vids, sender).error)
    ensures HasPrivateVid(vids, sender) ==> r == LiftCrypto(k.sign(PrivateOf(vids, sender), None, payload.AsBytes()))
  {
    var senderVid :- GetPrivateVid(vids, sender);
    LiftCrypto(k.sign(senderVid, None, payload.AsBytes()))
  }

  /** `Store::sign_anycast`: a signed message, for no one in particular,
      that verifies against the sender's VID to the message itself. */
  function SignAnycast(vids: VidMap, sender: string, message: Bytes, k: Crypto): (r: Result<Bytes, Error>)
    ensures !HasPrivateVid(vids, sender) ==> r == Err(GetPrivateVid(vids, sender).error)
    ensures HasPrivateVid(vids, sender) ==> (r.Ok? <==> k.sign(PrivateOf(vids, sender), None, message).Ok?)
    ensures ValidCrypto(k) && r.Ok? ==>
            && HasPrivateVid(vids, sender)
            && k.verify(PrivateOf(vids, sender).vid, r.value) == Ok(message)
            && k.probe(r.value) == Some(SignedEnvelope(PrivateOf(vids, sender), None))
  {
    SignAnycastPayload(vids, sender, Content(message), k)
  }

  /** What opening a message reports, and the store afterwards. */
  datatype OpenOutcome = OpenOutcome(received: Result<ReceivedTspMessage, Error>, after: VidMap)

  /** An `AcceptRelationship` control message from `sender`: only a pending
      request with the same thread id becomes a bidirectional relationship. */
  function AcceptRule(vids: VidMap, sender: string, threadId: Digest): (o: OpenOutcome)
    ensures o.received.Ok? <==> sender in vids && vids[sender].relationStatus == Unidirectional(threadId)
    ensures o.received.Ok? ==> (o.received.value == ReceivedTspMessage.AcceptRelationship(sender)
                                && o.after == vids[sender := vids[sender].(relationStatus := Bidirectional(threadId))])
    ensures o.received.Err? ==> o.after == vids
    ensures sender !in vids
            ==> o.received == Err(Relationship(AcceptFromUnknown))
    ensures sender in vids && !vids[sender].relationStatus.Unidirectional?
            ==> o.received == Err(Relationship(AcceptUnwanted))
    ensures sender in vids && vids[sender].relationStatus.Unidirectional? && vids[sender].relationStatus.digest != threadId
            ==> o.received == Err(Relationship(AcceptChangesTerms))
  {
    if sender !in vids then
      OpenOutcome(Err(Relationship(AcceptFromUnknown)), vids)
    else
      var context := vids[sender];
      match context.relationStatus
      case Unidirectional(digest) =>
        if threadId != digest then
          OpenOutcome(Err(Relationship(AcceptChangesTerms)), vids)
        else
          OpenOutcome(Ok(ReceivedTspMessage.AcceptRelationship(sender)),
                      vids[sender := context.(relationStatus := Bidirectional(digest))])
      case _ =>
        OpenOutcome(Err(Relationship(AcceptUnwanted)), vids)
  }

  /** A `CancelRelationship` control message from `sender`: a relationship
      with the same thread id, pending or established, ends; one with another
      thread id is kept; an unrelated or controlled entry is the unfinished
      `todo!()` of the source, a panic. */
  function CancelRule(vids: VidMap, sender: string, threadId: Digest): (o: OpenOutcome)
    ensures sender !in vids ==> o == OpenOutcome(Ok(ReceivedTspMessage.CancelRelationship(sender)), vids)
    ensures sender in vids && (vids[sender].relationStatus.Bidirectional? || vids[sender].relationStatus.Unidirectional?)
            ==> if vids[sender].relationStatus.digest == threadId
                then o == OpenOutcome(Ok(ReceivedTspMessage.CancelRelationship(sender)),
                                      vids[sender := vids[sender].(relationStatus := Unrelated)])
                else o == OpenOutcome(Err(Relationship(BadCancel)), vids)
    ensures sender in vids && (vids[sender].relationStatus.Controlled? || vids[sender].relationStatus.Unrelated?)
            ==> o == OpenOutcome(Err(Error.Panic(NotYetImplemented)), vids)
  {
    if sender !in vids then OpenOutcome(Ok(ReceivedTspMessage.CancelRelationship(sender)), vids)
    else
      var context := vids[sender];
      match context.relationStatus
      case Bidirectional(digest) =>
        if threadId != digest then OpenOutcome(Err(Relationship(BadCancel)), vids)
        else OpenOutcome(Ok(ReceivedTspMessage.CancelRelationship(sender)), vids[sender := context.(relationStatus := Unrelated)])
      case Unidirectional(digest) =>
        if threadId != digest then OpenOutcome(Err(Relationship(BadCancel)), vids)
        else OpenOutcome(Ok(ReceivedTspMessage.CancelRelationship(sender)), vids[sender := context.(relationStatus := Unrelated)])
      case _ => OpenOutcome(Err(Error.Panic(NotYetImplemented)), vids)
  }

  /** A `RoutedMessage` for us: a request to forward the opaque message to
      the first hop, which must be a known identity, with the rest of the route. */
  function ForwardRule(vids: VidMap, sender: string, hops: seq<Bytes>, opaquePayload: Bytes): (r: Result<ReceivedTspMessage, Error>)
    ensures |hops| == 0 ==> r == Err(Error.Panic(HopsIndexPanic))
    ensures |hops| >= 1 && Utf8.Decode(hops[0]).None? ==> r == Err(Utf8Failure)
    ensures |hops| >= 1 && Utf8.Decode(hops[0]).Some? && Utf8.Decode(hops[0]).value !in vids
            ==> r == Err(UnverifiedVid(Utf8.Decode(hops[0]).value))
    ensures r.Ok? <==> |hops| >= 1 && Utf8.Decode(hops[0]).Some? && Utf8.Decode(hops[0]).value in vids
    ensures r.Ok? ==> r.value == ForwardRequest(sender, vids[Utf8.Decode(hops[0]).value].vid.Identifier(), hops[1..], opaquePayload)
  {
    if |hops| == 0 then Err(Error.Panic(HopsIndexPanic))
    else
      match Utf8.Decode(hops[0])
      case None => Err(Utf8Failure)
      case Some(nextHop) =>
        if nextHop !in vids then Err(UnverifiedVid(nextHop))
        else Ok(ForwardRequest(sender, vids[nextHop].vid.Identifier(), hops[1..], opaquePayload))
  }

  /** Whether the two stores agree on every entry except, possibly, its
      relationship status. */
  predicate SameButStatus(before: VidMap, after: VidMap) {
    && after.Keys == before.Keys
    && forall id :: id in before ==> after[id] == before[id].(relationStatus := after[id].relationStatus)
  }

  /** The receive rule of each decrypted payload kind other than a nested
      message: content is received as it is, a routed message becomes a
      forward request, a request carries the SHA-256 of the raw bytes as its
      thread id, and the store changes only on an accept or a cancel. */
  function PayloadRule(vids: VidMap, sender: string, u: Unsealed, k: Crypto): (o: OpenOutcome)
    requires !u.payload.NestedMessage?
    ensures SameButStatus(vids, o.after)
    ensures o.received.Err? ==> o.after == vids
    ensures o.after != vids ==> o.received.Ok? && (o.received.value.AcceptRelationship? || o.received.value.CancelRelationship?)
    ensures o.received.Ok? ==> o.received.value.sender == sender
  {
    match u.payload
    case Content(bytes) =>
      OpenOutcome(Ok(GenericMessage(sender, u.nonconfidentialData, bytes, SignedAndEncrypted)), vids)
    case RoutedMessage(hops, opaquePayload) => OpenOutcome(ForwardRule(vids, sender, hops, opaquePayload), vids)
    case RequestRelationship =>
      OpenOutcome(Ok(ReceivedTspMessage.RequestRelationship(sender, k.sha256(u.rawBytes))), vids)
    case AcceptRelationship(threadId) => AcceptRule(vids, sender, threadId)
    case CancelRelationship(threadId) => CancelRule(vids, sender, threadId)
  }

  /** The signed-message arm of `open_message`: an intended receiver, when
      named, must decode and be owned; the sender must decode and be known;
      the message must verify against the sender's VID. */
  function SignedRule(vids: VidMap, message: Bytes, k: Crypto, senderBytes: Bytes, intendedReceiver: Option<Bytes>)
    : (r: Result<ReceivedTspMessage, Error>)
    ensures r.Ok? <==>
            && (intendedReceiver.Some? ==> Utf8.Decode(intendedReceiver.value).Some?
                                           && HasPrivateVid(vids, Utf8.Decode(intendedReceiver.value).value))
            && Utf8.Decode(senderBytes).Some? && Utf8.Decode(senderBytes).value in vids
            && k.verify(vids[Utf8.Decode(senderBytes).value].vid, message).Ok?
    ensures r.Ok? ==> r.value == GenericMessage(Utf8.Decode(senderBytes).value, None,
                                                k.verify(vids[Utf8.Decode(senderBytes).value].vid, message).value, Signed)
  {
    if intendedReceiver.Some? && Utf8.Decode(intendedReceiver.value).None? then Err(Utf8Failure)
    else if intendedReceiver.Some? && !HasPrivateVid(vids, Utf8.Decode(intendedReceiver.value).value) then
      Err(CryptoFailure(UnexpectedRecipient))
    else match Utf8.Decode(senderBytes)
      case None => Err(Utf8Failure)
      case Some(sender) =>
        if sender !in vids then Err(UnverifiedVid(sender))
        else match k.verify(vids[sender].vid, message)
          case Err(e) => Err(CryptoFailure(e))
          case Ok(payload) => Ok(GenericMessage(sender, None, payload, Signed))
  }

  /** `Store::open_message`. The store changes only on an accepted accept or
      cancel, and then only in a relationship status; a failed open changes
      nothing. */
  function OpenMessageSpec(vids: VidMap, message: Bytes, k: Crypto): (o: OpenOutcome)
    requires ValidCrypto(k)
    ensures SameButStatus(vids, o.after)
    ensures o.received.Err? ==> o.after == vids
    ensures o.after != vids ==> o.received.Ok? && (o.received.value.AcceptRelationship? || o.received.value.CancelRelationship?)
    decreases |message|
  {
    match k.probe(message)
    case None => OpenOutcome(Err(DecodeFailure), vids)
    case Some(EncryptedMessage(senderBytes, receiverBytes)) =>
      (match Utf8.Decode(receiverBytes)
      case None => OpenOutcome(Err(Utf8Failure), vids)
      case Some(receiver) =>
        if !HasPrivateVid(vids, receiver) then OpenOutcome(Err(CryptoFailure(UnexpectedRecipient)), vids)
        else match Utf8.Decode(senderBytes)
          case None => OpenOutcome(Err(Utf8Failure), vids)
          case Some(sender) =>
            if sender !in vids then OpenOutcome(Err(UnverifiedVid(sender)), vids)
            else match k.open(PrivateOf(vids, receiver), vids[sender].vid, message)
              case Err(e) => OpenOutcome(Err(CryptoFailure(e)), vids)
              case Ok(u) =>
                if u.payload.NestedMessage? then OpenMessageSpec(vids, u.payload.bytes, k)
                else PayloadRule(vids, sender, u, k))
    case Some(SignedMessage(senderBytes, intendedReceiver)) =>
      OpenOutcome(SignedRule(vids, message, k, senderBytes, intendedReceiver), vids)
  }

  /** `message` is an encrypted message from known `sender` to an identity
      owned by this store, and opens to `u`. */
  predicate OpensFrom(vids: VidMap, message: Bytes, k: Crypto, sender: string, u: Unsealed) {
    && k.probe(message).Some? && k.probe(message).value.EncryptedMessage?
    && Utf8.Decode(k.probe(message).value.receiver).Some?
    && HasPrivateVid(vids, Utf8.Decode(k.probe(message).value.receiver).value)
    && Utf8.Decode(k.probe(message).value.sender) == Some(sender)
    && sender in vids
    && k.open(PrivateOf(vids, Utf8.Decode(k.probe(message).value.receiver).value), vids[sender].vid, message) == Ok(u)
  }

  /** The receive rules of `open_message` for each decrypted payload. */
  lemma OpenPayloadRules(vids: VidMap, message: Bytes, k: Crypto, sender: string, u: Unsealed)
    requires ValidCrypto(k) && OpensFrom(vids, message, k, sender, u)
    ensures var o := OpenMessageSpec(vids, message, k);
            match u.payload
            case Content(b) => o == OpenOutcome(Ok(GenericMessage(sender, u.nonconfidentialData, b, SignedAndEncrypted)), vids)
            case NestedMessage(inner) => o == OpenMessageSpec(vids, inner, k)
            case RoutedMessage(hops, opaquePayload) => o == OpenOutcome(ForwardRule(vids, sender, hops, opaquePayload), vids)
            case RequestRelationship => o == OpenOutcome(Ok(ReceivedTspMessage.RequestRelationship(sender, k.sha256(u.rawBytes))), vids)
            case AcceptRelationship(t) => o == AcceptRule(vids, sender, t)
            case CancelRelationship(t) => o == CancelRule(vids, sender, t)
  {
  }

  /** Opening never breaks the store's invariant. */
  lemma OpenPreservesWellFormed(vids: VidMap, message: Bytes, k: Crypto)
    requires ValidCrypto(k) && WellFormed(vids)
    ensures WellFormed(OpenMessageSpec(vids, message, k).after)
  {
    var after := OpenMessageSpec(vids, message, k).after;
    forall id | id in after ensures WellFormedContext(id, after[id]) {
      assert WellFormedContext(id, vids[id]);
    }
  }

  class Store {
    var vids: VidMap

    ghost predicate Valid()
      reads this
    {
      WellFormed(vids)
    }

    /** `Store::new`: an empty database. */
    constructor ()
      ensures Valid() && vids == map[]
    {
      vids := map[];
    }

    /** `Store::add_verified_vid`: insert, or overwrite, the entry of
        `v.id` with a fresh public-only context. */
    method AddVerifiedVid(v: Vid)
      requires Valid()
      modifies this
      ensures Valid()
      ensures vids == old(vids)[v.Identifier() := NewContext(v, None)]
      ensures GetVerifiedVid(vids, v.Identifier()) == Ok(v) && !HasPrivateVid(vids, v.Identifier())
    {
      vids := vids[v.Identifier() := NewContext(v, None)];
    }

    /** `Store::add_private_vid`: insert, or overwrite, the entry of an
        owned identity, which is then both a private and a verified VID. */
    method AddPrivateVid(o: OwnedVid)
      requires Valid()
      modifies this
      ensures Valid()
      ensures vids == old(vids)[o.Identifier() := NewContext(o.vid, Some(o))]
      ensures GetPrivateVid(vids, o.Identifier()) == Ok(o) && GetVerifiedVid(vids, o.Identifier()) == Ok(o.vid)
    {
      vids := vids[o.Identifier() := NewContext(o.vid, Some(o))];
    }

    /** `Store::modify_vid`: apply `change` to the entry of `id`. */
    method ModifyVid(id: string, change: VidContext -> VidContext) returns (r: Result<(), Error>)
      modifies this
      ensures id !in old(vids) ==> r == Err(UnverifiedVid(id)) && vids == old(vids)
      ensures id in old(vids) ==> r == Ok(()) && vids == old(vids)[id := change(old(vids)[id])]
    {
      if id in vids {
        vids := vids[id := change(vids[id])];
        r := Ok(());
      } else {
        r := Err(UnverifiedVid(id));
      }
    }

    /** `Store::set_parent_for_vid`. */
    method SetParentForVid(id: string, parentVid: Option<string>) returns (r: Result<(), Error>)
      requires Valid()
      modifies this
      ensures Valid()
      ensures id !in old(vids) ==> r == Err(UnverifiedVid(id)) && vids == old(vids)
      ensures id in old(vids) ==> r == Ok(()) && vids == old(vids)[id := old(vids)[id].(parentVid := parentVid)]
    {
      r := ModifyVid(id, (c: VidContext) => c.SetParentVid(parentVid));
    }

    /** `Store::set_relation_for_vid`. */
    method SetRelationForVid(id: string, relationVid: Option<string>) returns (r: Result<(), Error>)
      requires Valid()
      modifies this
      ensures Valid()
      ensures id !in old(vids) ==> r == Err(UnverifiedVid(id)) && vids == old(vids)
      ensures id in old(vids) ==> r == Ok(()) && vids == old(vids)[id := old(vids)[id].(relationVid := relationVid)]
    {
      r := ModifyVid(id, (c: VidContext) => c.SetRelationVid(relationVid));
    }

    /** `Store::set_relation_status_for_vid`. */
    method SetRelationStatusForVid(id: string, status: RelationshipStatus) returns (r: Result<(), Error>)
      requires Valid()
      modifies this
      ensures Valid()
      ensures id !in old(vids) ==> r == Err(UnverifiedVid(id)) && vids == old(vids)
      ensures id in old(vids) ==> r == Ok(()) && vids == old(vids)[id := old(vids)[id].(relationStatus := status)]
    {
      r := ModifyVid(id, (c: VidContext) => c.SetRelationStatus(status));
    }

    /** `Store::set_route_for_vid`: a one-hop route is refused before the
        identifier is looked up; an empty route removes the tunnel. */
    method SetRouteForVid(id: string, route: seq<string>) returns (r: Result<(), Error>)
      requires Valid()
      modifies this
      ensures Valid()
      ensures |route| == 1 ==> r == Err(InvalidRoute(RouteTooShort)) && vids == old(vids)
      ensures |route| != 1 && id !in old(vids) ==> r == Err(UnverifiedVid(id)) && vids == old(vids)
      ensures |route| != 1 && id in old(vids) ==>
                r == Ok(()) && vids == old(vids)[id := old(vids)[id].(tunnel := if |route| == 0 then None else Some(route))]
    {
      if |route| == 1 {
        return Err(InvalidRoute(RouteTooShort));
      }
      r := ModifyVid(id, (c: VidContext) => c.SetRoute(route));
    }

    /** `Store::list_vids`: every identifier once, in the map's order. */
    method ListVids() returns (ids: seq<string>)
      ensures forall i, j :: 0 <= i < j < |ids| ==> ids[i] != ids[j]
      ensures forall id :: id in ids <==> id in vids
      ensures |ids| == |vids|
    {
      ids := [];
      var rest := vids.Keys;
      while rest != {}
        invariant rest <= vids.Keys
        invariant forall id :: id in ids <==> id in vids && id !in rest
        invariant forall i, j :: 0 <= i < j < |ids| ==> ids[i] != ids[j]
        invariant |ids| + |rest| == |vids|
        decreases |rest|
      {
        var id :| id in rest;
        ids := ids + [id];
        rest := rest - {id};
      }
    }

    /** `Store::open_message`, updating the relationship status in place on
        an accept or a cancel and opening a nested message recursively. */
    method OpenMessage(message: Bytes, k: Crypto) returns (r: Result<ReceivedTspMessage, Error>)
      requires Valid() && ValidCrypto(k)
      modifies this
      ensures Valid()
      ensures OpenOutcome(r, vids) == OpenMessageSpec(old(vids), message, k)
      decreases |message|
    {
      var probed := k.probe(message);
      if probed.None? {
        return Err(DecodeFailure);
      }
      match probed.value
      case EncryptedMessage(senderBytes, receiverBytes) =>
        var intendedReceiver := Utf8.Decode(receiverBytes);
        if intendedReceiver.None? {
          return Err(Utf8Failure);
        }
        var receiver := GetPrivateVid(vids, intendedReceiver.value);
        if receiver.Err? {
          return Err(CryptoFailure(UnexpectedRecipient));
        }
        var sender := Utf8.Decode(senderBytes);
        if sender.None? {
          return Err(Utf8Failure);
        }
        var senderVid := GetVerifiedVid(vids, sender.value);
        if senderVid.Err? {
          return Err(UnverifiedVid(sender.value));
        }
        var unsealed := k.open(receiver.value, senderVid.value, message);
        if unsealed.Err? {
          return Err(CryptoFailure(unsealed.error));
        }
        if unsealed.value.payload.NestedMessage? {
          r := OpenMessage(unsealed.value.payload.bytes, k);
        } else {
          r := ReceivePayload(sender.value, unsealed.value, k);
        }
      case SignedMessage(senderBytes, intendedReceiver) =>
        r := OpenSigned(message, k, senderBytes, intendedReceiver);
    }

    /** The payload arms of `open_message` other than a nested message. */
    method ReceivePayload(sender: string, u: Unsealed, k: Crypto) returns (r: Result<ReceivedTspMessage, Error>)
      requires Valid() && !u.payload.NestedMessage?
      modifies this
      ensures Valid()
      ensures OpenOutcome(r, vids) == PayloadRule(old(vids), sender, u, k)
    {
      match u.payload {
      case Content(bytes) =>
        r := Ok(GenericMessage(sender, u.nonconfidentialData, bytes, SignedAndEncrypted));
      case RoutedMessage(hops, opaquePayload) =>
        r := ForwardRule(vids, sender, hops, opaquePayload);
      case RequestRelationship =>
        r := Ok(ReceivedTspMessage.RequestRelationship(sender, k.sha256(u.rawBytes)));
      case AcceptRelationship(threadId) =>
        if sender !in vids {
          return Err(Relationship(AcceptFromUnknown));
        }
        var context := vids[sender];
        if !context.relationStatus.Unidirectional? {
          return Err(Relationship(AcceptUnwanted));
        }
        var digest := context.relationStatus.digest;
        if threadId != digest {
          return Err(Relationship(AcceptChangesTerms));
        }
        vids := vids[sender := context.(relationStatus := Bidirectional(digest))];
        r := Ok(ReceivedTspMessage.AcceptRelationship(sender));
      case CancelRelationship(threadId) =>
        if sender in vids {
          var context := vids[sender];
          if context.relationStatus.Bidirectional? || context.relationStatus.Unidirectional? {
            if threadId != context.relationStatus.digest {
              return Err(Relationship(BadCancel));
            }
            vids := vids[sender := context.(relationStatus := Unrelated)];
          } else {
            return Err(Error.Panic(NotYetImplemented));
          }
        }
        r := Ok(ReceivedTspMessage.CancelRelationship(sender));
      }
    }

    /** The signed-message arm of `open_message`; it reads the store only. */
    method OpenSigned(message: Bytes, k: Crypto, senderBytes: Bytes, intendedReceiver: Option<Bytes>)
      returns (r: Result<ReceivedTspMessage, Error>)
      ensures r == SignedRule(vids, message, k, senderBytes, intendedReceiver)
    {
      if intendedReceiver.Some? {
        var receiver := Utf8.Decode(intendedReceiver.value);
        if receiver.None? {
          return Err(Utf8Failure);
        }
        if !HasPrivateVid(vids, receiver.value) {
          return Err(CryptoFailure(UnexpectedRecipient));
        }
      }
      var sender := Utf8.Decode(senderBytes);
      if sender.None? {
        return Err(Utf8Failure);
      }
      var senderVid := GetVerifiedVid(vids, sender.value);
      if senderVid.Err? {
        return Err(UnverifiedVid(sender.value));
      }
      var payload := k.verify(senderVid.value, message);
      if payload.Err? {
        return Err(CryptoFailure(payload.error));
      }
      r := Ok(GenericMessage(sender.value, None, payload.value, Signed));
    }
  }
}
