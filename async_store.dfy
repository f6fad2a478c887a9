/** `AsyncStore` (tsp/src/async_store.rs): a `Store` together with the
    transport. Sending is modelled as appending `(endpoint, message)` to
    `outbox`; an endpoint in `unreachable` refuses the connection, and then
    nothing is appended. */
module AsyncVidStore {
  import opened Wrappers
  import opened Bytes
  import opened Definitions
  import opened Encodings
  import opened Vids
  import opened Crypto
  import opened VidStore
  import Resolve

  // The messages of the routing errors.
  const NoDropOffRelation: string := "no relation for drop-off VID"
  const NotRouted: string := "expected a routed message"

  /** `transport::send_message`: the result of sending to `endpoint`. */
  function Transmit(unreachable: set<Url>, endpoint: Url): (r: Result<(), Error>)
    ensures r.Ok? <==> endpoint !in unreachable
    ensures r.Err? ==> r.error == TransportFailure(endpoint)
  {
    if endpoint in unreachable then Err(TransportFailure(endpoint)) else Ok(())
  }

  /** What was delivered by sending `sealed`, if it was sealed at all. */
  function Delivered(unreachable: set<Url>, sealed: Result<(Url, Bytes), Error>): seq<(Url, Bytes)>
  {
    if sealed.Ok? && sealed.value.0 !in unreachable then [sealed.value] else []
  }

  /** The result of sealing `sealed` and then sending it. */
  function Dispatched(unreachable: set<Url>, sealed: Result<(Url, Bytes), Error>): (r: Result<(), Error>)
    ensures sealed.Err? ==> r == Err(sealed.error)
    ensures sealed.Ok? ==> r == Transmit(unreachable, sealed.value.0)
  {
    match sealed
    case Err(e) => Err(e)
    case Ok((endpoint, _)) => Transmit(unreachable, endpoint)
  }

  /** The result, the new map and the messages sent by one store operation. */
  datatype SendOutcome = SendOutcome(result: Result<(), Error>, vids: VidMap, sent: seq<(Url, Bytes)>)

  /** The request sealed by `send_relationship_request`: the receiver's
      endpoint, the sealed bytes and the thread id `seal_and_hash` returns. */
  function SealRequest(vids: VidMap, sender: string, receiver: string, k: Crypto): (r: Result<(Vid, Bytes, Digest), Error>)
    ensures r.Ok? <==> HasPrivateVid(vids, sender) && receiver in vids
                       && k.sealAndHash(PrivateOf(vids, sender), vids[receiver].vid, None, Payload.RequestRelationship).Ok?
    ensures r.Ok? ==> var sealed := k.sealAndHash(PrivateOf(vids, sender), vids[receiver].vid, None, Payload.RequestRelationship).value;
                      r.value == (vids[receiver].vid, sealed.0, sealed.1)
    ensures !HasPrivateVid(vids, sender) ==> r == Err(GetPrivateVid(vids, sender).error)
    ensures HasPrivateVid(vids, sender) && receiver !in vids ==> r == Err(UnverifiedVid(receiver))
  {
    var senderVid :- GetPrivateVid(vids, sender);
    var receiverVid :- GetVerifiedVid(vids, receiver);
    var sealed :- LiftCrypto(k.sealAndHash(senderVid, receiverVid, None, Payload.RequestRelationship));
    Ok((receiverVid, sealed.0, sealed.1))
  }

  /** `send_relationship_request`: the receiver becomes `Unidirectional`
      with the new thread id, and only once the request has been sent. */
  function RequestOutcome(vids: VidMap, unreachable: set<Url>, sender: string, receiver: string, k: Crypto): (o: SendOutcome)
    ensures o.result.Err? ==> o.vids == vids
    ensures o.vids != vids ==> o.sent != []
    ensures o.result.Ok? <==> SealRequest(vids, sender, receiver, k).Ok?
                              && SealRequest(vids, sender, receiver, k).value.0.Endpoint() !in unreachable
                              && SealRequest(vids, sender, receiver, k).value.0.Identifier() in vids
    ensures o.result.Ok? ==>
              var request := SealRequest(vids, sender, receiver, k).value;
              o.sent == [(request.0.Endpoint(), request.1)]
              && o.vids == vids[request.0.Identifier() := vids[request.0.Identifier()].(relationStatus := Unidirectional(request.2))]
    ensures WellFormed(vids) && o.result.Ok? ==>
              o.vids == vids[receiver := vids[receiver].(relationStatus := Unidirectional(SealRequest(vids, sender, receiver, k).value.2))]
  {
    match SealRequest(vids, sender, receiver, k)
    case Err(e) => SendOutcome(Err(e), vids, [])
    case Ok((to, message, threadId)) =>
      if to.Endpoint() in unreachable then SendOutcome(Err(TransportFailure(to.Endpoint())), vids, [])
      else match WithStatus(vids, to.Identifier(), Unidirectional(threadId))
        case Err(e) => SendOutcome(Err(e), vids, [(to.Endpoint(), message)])
        case Ok(after) => SendOutcome(Ok(()), after, [(to.Endpoint(), message)])
  }

  /** `send_relationship_accept`: the accept is sealed like any message, and
      once it is sent the receiver becomes `Bidirectional` with the given thread id. */
  function AcceptOutcome(vids: VidMap, unreachable: set<Url>, sender: string, receiver: string, threadId: Digest, k: Crypto): (o: SendOutcome)
    ensures o.result.Err? ==> o.vids == vids
    ensures o.sent == Delivered(unreachable, SealMessagePayload(vids, sender, receiver, None, Payload.AcceptRelationship(threadId), k))
    ensures o.result == Dispatched(unreachable, SealMessagePayload(vids, sender, receiver, None, Payload.AcceptRelationship(threadId), k))
    ensures o.result.Ok? ==> receiver in vids && o.vids == vids[receiver := vids[receiver].(relationStatus := Bidirectional(threadId))]
  {
    var sealed := SealMessagePayload(vids, sender, receiver, None, Payload.AcceptRelationship(threadId), k);
    match sealed
    case Err(e) => SendOutcome(Err(e), vids, [])
    case Ok((endpoint, message)) =>
      if endpoint in unreachable then SendOutcome(Err(TransportFailure(endpoint)), vids, [])
      else match WithStatus(vids, receiver, Bidirectional(threadId))
        case Err(e) => SendOutcome(Err(e), vids, [(endpoint, message)])
        case Ok(after) => SendOutcome(Ok(()), after, [(endpoint, message)])
  }

  /** `send_relationship_cancel`: the receiver becomes `Unrelated` first, so
      it stays so even when sealing or sending then fails; the cancel carries
      the all-zero thread id. */
  function CancelOutcome(vids: VidMap, unreachable: set<Url>, sender: string, receiver: string, k: Crypto): (o: SendOutcome)
    ensures receiver !in vids ==> o == SendOutcome(Err(UnverifiedVid(receiver)), vids, [])
    ensures receiver in vids ==> o.vids == vids[receiver := vids[receiver].(relationStatus := Unrelated)]
    ensures receiver in vids ==>
              && o.result == Dispatched(unreachable, SealMessagePayload(o.vids, sender, receiver, None, Payload.CancelRelationship(ZeroDigest), k))
              && o.sent == Delivered(unreachable, SealMessagePayload(o.vids, sender, receiver, None, Payload.CancelRelationship(ZeroDigest), k))
  {
    match WithStatus(vids, receiver, Unrelated)
    case Err(e) => SendOutcome(Err(e), vids, [])
    case Ok(after) =>
      // the source sends `Default::default()` as the thread id
      var sealed := SealMessagePayload(after, sender, receiver, None, Payload.CancelRelationship(ZeroDigest), k);
      SendOutcome(Dispatched(unreachable, sealed), after, Delivered(unreachable, sealed))
  }

  /** The message `forward_routed_message` sends. With the path used up we
      are the last intermediary and own `nextHop`: its relation VID is the
      final recipient, and the opaque message goes to it as a
      `NestedMessage`. Otherwise it goes on, as a `RoutedMessage` with the
      rest of the path, to `nextHop`, sealed by `nextHop`'s relation VID. */
  function ForwardSeal(vids: VidMap, nextHop: string, path: seq<Bytes>, opaquePayload: Bytes, k: Crypto): (r: Result<(Url, Bytes), Error>)
    ensures |path| == 0 && !HasPrivateVid(vids, nextHop) ==> r == Err(GetPrivateVid(vids, nextHop).error)
    ensures |path| == 0 && HasPrivateVid(vids, nextHop) && PrivateOf(vids, nextHop).Identifier() in vids
            && vids[PrivateOf(vids, nextHop).Identifier()].relationVid.None?
            ==> r == Err(VidFailure(ResolveVid(NoDropOffRelation)))
    ensures |path| == 0 && HasPrivateVid(vids, nextHop) && PrivateOf(vids, nextHop).Identifier() !in vids
            ==> r == Err(UnverifiedVid(PrivateOf(vids, nextHop).Identifier()))
    ensures |path| == 0 && HasPrivateVid(vids, nextHop) && PrivateOf(vids, nextHop).Identifier() in vids
            && vids[PrivateOf(vids, nextHop).Identifier()].relationVid.Some? ==>
              var sender := PrivateOf(vids, nextHop);
              var recipient := vids[sender.Identifier()].relationVid.value;
              && (recipient !in vids ==> r == Err(UnverifiedVid(recipient)))
              && (recipient in vids ==>
                    var sealed := k.seal(sender, vids[recipient].vid, None, Payload.NestedMessage(opaquePayload));
                    && (r.Ok? <==> sealed.Ok?)
                    && (sealed.Err? ==> r == Err(CryptoFailure(sealed.error))))
    ensures |path| == 0 && r.Ok? ==>
              && HasPrivateVid(vids, nextHop)
              && var sender := PrivateOf(vids, nextHop);
                 && sender.Identifier() in vids && vids[sender.Identifier()].relationVid.Some?
                 && var recipient := vids[sender.Identifier()].relationVid.value;
                    && recipient in vids
                    && k.seal(sender, vids[recipient].vid, None, Payload.NestedMessage(opaquePayload)).Ok?
                    && r.value == (vids[recipient].vid.Endpoint(),
                                   k.seal(sender, vids[recipient].vid, None, Payload.NestedMessage(opaquePayload)).value)
    ensures |path| > 0 && nextHop !in vids ==> r == Err(UnverifiedVid(nextHop))
    ensures |path| > 0 && nextHop in vids && vids[nextHop].relationVid.None?
            ==> r == Err(VidFailure(ResolveVid(NoSenderForFirstHop)))
    ensures |path| > 0 && nextHop in vids && vids[nextHop].relationVid.Some? ==>
              var firstSender := vids[nextHop].relationVid.value;
              && (!HasPrivateVid(vids, firstSender) ==> r == Err(GetPrivateVid(vids, firstSender).error))
              && (HasPrivateVid(vids, firstSender) ==>
                    var sealed := k.seal(PrivateOf(vids, firstSender), vids[nextHop].vid, None, Payload.RoutedMessage(path, opaquePayload));
                    && (r.Ok? <==> sealed.Ok?)
                    && (sealed.Err? ==> r == Err(CryptoFailure(sealed.error))))
    ensures |path| > 0 && r.Ok? ==>
              && nextHop in vids && vids[nextHop].relationVid.Some?
              && HasPrivateVid(vids, vids[nextHop].relationVid.value)
              && var sender := PrivateOf(vids, vids[nextHop].relationVid.value);
                 && k.seal(sender, vids[nextHop].vid, None, Payload.RoutedMessage(path, opaquePayload)).Ok?
                 && r.value == (vids[nextHop].vid.Endpoint(),
                                k.seal(sender, vids[nextHop].vid, None, Payload.RoutedMessage(path, opaquePayload)).value)
  {
    if |path| == 0 then
      var sender :- GetPrivateVid(vids, nextHop);
      var senderContext :- GetVid(vids, sender.Identifier());
      match senderContext.relationVid
      case None => Err(VidFailure(ResolveVid(NoDropOffRelation)))
      case Some(destination) =>
        var recipient :- GetVerifiedVid(vids, destination);
        var message :- LiftCrypto(k.seal(sender, recipient, None, Payload.NestedMessage(opaquePayload)));
        Ok((recipient.Endpoint(), message))
    else
      var nextHopVid :- GetVerifiedVid(vids, nextHop);
      // `get_vid(next_hop)` cannot fail once `get_verified_vid(next_hop)` succeeded
      var nextHopContext := vids[nextHop];
      match nextHopContext.relationVid
      case None => Err(VidFailure(ResolveVid(NoSenderForFirstHop)))
      case Some(firstSender) =>
        var sender :- GetPrivateVid(vids, firstSender);
        var message :- LiftCrypto(k.seal(sender, nextHopVid, None, Payload.RoutedMessage(path, opaquePayload)));
        Ok((nextHopVid.Endpoint(), message))
  }

  /** How `route_message` reads a message it is to pass on: addressed to an
      identity we own, from a known sender, and carrying a routed payload
      whose first hop is known; the forward goes to that hop with the rest
      of the route. */
  function RouteTarget(vids: VidMap, sender: string, receiver: string, message: Bytes, k: Crypto): (r: Result<ReceivedTspMessage, Error>)
    ensures !HasPrivateVid(vids, receiver) ==> r == Err(CryptoFailure(UnexpectedRecipient))
    ensures HasPrivateVid(vids, receiver) && sender !in vids ==> r == Err(UnverifiedVid(sender))
    ensures HasPrivateVid(vids, receiver) && sender in vids && k.open(PrivateOf(vids, receiver), vids[sender].vid, message).Err?
            ==> r == Err(CryptoFailure(k.open(PrivateOf(vids, receiver), vids[sender].vid, message).error))
    ensures HasPrivateVid(vids, receiver) && sender in vids && k.open(PrivateOf(vids, receiver), vids[sender].vid, message).Ok?
            ==> var payload := k.open(PrivateOf(vids, receiver), vids[sender].vid, message).value.payload;
                r == if payload.RoutedMessage? then ForwardRule(vids, sender, payload.hops, payload.bytes)
                     else Err(InvalidRoute(NotRouted))
    ensures r.Ok? ==> r.value.ForwardRequest?
  {
    if !HasPrivateVid(vids, receiver) then Err(CryptoFailure(UnexpectedRecipient))
    else if sender !in vids then Err(UnverifiedVid(sender))
    else
      var unsealed :- LiftCrypto(k.open(PrivateOf(vids, receiver), vids[sender].vid, message));
      match unsealed.payload
      case RoutedMessage(hops, inner) => ForwardRule(vids, sender, hops, inner)
      case _ => Err(InvalidRoute(NotRouted))
  }

  /** The message `route_message` sends on: nothing if the routed message
      cannot be read, otherwise a message to the decoded first hop when
      hops remain, or to the drop-off recipient when none do. */
  function RouteSeal(vids: VidMap, sender: string, receiver: string, message: Bytes, k: Crypto): (r: Result<(Url, Bytes), Error>)
    ensures RouteTarget(vids, sender, receiver, message, k).Err? ==> r == Err(RouteTarget(vids, sender, receiver, message, k).error)
    ensures r.Ok? ==>
              && RouteTarget(vids, sender, receiver, message, k).Ok?
              && var f := RouteTarget(vids, sender, receiver, message, k).value;
                 if |f.route| > 0 then f.nextHop in vids && r.value.0 == vids[f.nextHop].vid.Endpoint()
                 else && HasPrivateVid(vids, f.nextHop)
                      && PrivateOf(vids, f.nextHop).Identifier() in vids
                      && vids[PrivateOf(vids, f.nextHop).Identifier()].relationVid.Some?
                      && var recipient := vids[PrivateOf(vids, f.nextHop).Identifier()].relationVid.value;
                         recipient in vids && r.value.0 == vids[recipient].vid.Endpoint()
  {
    var forward :- RouteTarget(vids, sender, receiver, message, k);
    ForwardSeal(vids, forward.nextHop, forward.route, forward.opaquePayload, k)
  }

  class AsyncStore {
    const inner: Store
    var outbox: seq<(Url, Bytes)>
    const unreachable: set<Url>

    ghost predicate Valid()
      reads this, inner
    {
      inner.Valid()
    }

    /** `AsyncStore::new`. */
    constructor (unreachable: set<Url>)
      ensures Valid() && fresh(inner) && inner.vids == map[]
      ensures outbox == [] && this.unreachable == unreachable
    {
      inner := new Store();
      outbox := [];
      this.unreachable := unreachable;
    }

    /** `transport::send_message`. */
    method SendMessage(endpoint: Url, message: Bytes) returns (r: Result<(), Error>)
      modifies this
      ensures r == Transmit(unreachable, endpoint)
      ensures outbox == old(outbox) + Delivered(unreachable, Ok((endpoint, message)))
    {
      if endpoint in unreachable {
        return Err(TransportFailure(endpoint));
      }
      outbox := outbox + [(endpoint, message)];
      r := Ok(());
    }

    /** Seal with `sealed` and send the result. */
    method Post(sealed: Result<(Url, Bytes), Error>) returns (r: Result<(), Error>)
      modifies this
      ensures r == Dispatched(unreachable, sealed)
      ensures outbox == old(outbox) + Delivered(unreachable, sealed)
    {
      if sealed.Err? {
        return Err(sealed.error);
      }
      r := SendMessage(sealed.value.0, sealed.value.1);
    }

    /** `AsyncStore::verify_vid`: resolve the identifier and store the
        result as a verified VID. `resolveWeb` stands for the did:web fetch. */
    method VerifyVid(id: string, c: Codecs, resolveWeb: string -> Result<Vid, VidError>) returns (r: Result<(), Error>)
      requires Valid()
      modifies inner
      ensures Valid()
      ensures Resolve.VerifyVid(id, c, resolveWeb).Err? ==>
                r == Err(VidFailure(Resolve.VerifyVid(id, c, resolveWeb).error)) && inner.vids == old(inner.vids)
      ensures Resolve.VerifyVid(id, c, resolveWeb).Ok? ==>
                var v := Resolve.VerifyVid(id, c, resolveWeb).value;
                r == Ok(()) && inner.vids == old(inner.vids)[v.Identifier() := NewContext(v, None)]
    {
      var resolved := Resolve.VerifyVid(id, c, resolveWeb);
      if resolved.Err? {
        return Err(VidFailure(resolved.error));
      }
      inner.AddVerifiedVid(resolved.value);
      r := Ok(());
    }

    /** `AsyncStore::send`: seal a message and send it, returning the sealed bytes. */
    method Send(sender: string, receiver: string, ncd: Option<Bytes>, message: Bytes, k: Crypto) returns (r: Result<Bytes, Error>)
      modifies this
      ensures var sealed := SealMessage(inner.vids, sender, receiver, ncd, message, k);
              && outbox == old(outbox) + Delivered(unreachable, sealed)
              && (sealed.Err? ==> r == Err(sealed.error))
              && (sealed.Ok? ==> r == if sealed.value.0 in unreachable then Err(TransportFailure(sealed.value.0))
                                      else Ok(sealed.value.1))
    {
      var sealed := SealMessage(inner.vids, sender, receiver, ncd, message, k);
      if sealed.Err? {
        return Err(sealed.error);
      }
      var sent := SendMessage(sealed.value.0, sealed.value.1);
      if sent.Err? {
        return Err(sent.error);
      }
      r := Ok(sealed.value.1);
    }

    /** `AsyncStore::send_relationship_request`. */
    method SendRelationshipRequest(sender: string, receiver: string, k: Crypto) returns (r: Result<(), Error>)
      requires Valid()
      modifies this, inner
      ensures Valid()
      ensures var o := RequestOutcome(old(inner.vids), unreachable, sender, receiver, k);
              r == o.result && inner.vids == o.vids && outbox == old(outbox) + o.sent
    {
      var request := SealRequest(inner.vids, sender, receiver, k);
      if request.Err? {
        return Err(request.error);
      }
      var (to, message, threadId) := request.value;
      var sent := SendMessage(to.Endpoint(), message);
      if sent.Err? {
        return sent;
      }
      r := inner.SetRelationStatusForVid(to.Identifier(), Unidirectional(threadId));
    }

    /** `AsyncStore::send_relationship_accept`. */
    method SendRelationshipAccept(sender: string, receiver: string, threadId: Digest, k: Crypto) returns (r: Result<(), Error>)
      requires Valid()
      modifies this, inner
      ensures Valid()
      ensures var o := AcceptOutcome(old(inner.vids), unreachable, sender, receiver, threadId, k);
              r == o.result && inner.vids == o.vids && outbox == old(outbox) + o.sent
    {
      var sealed := SealMessagePayload(inner.vids, sender, receiver, None, Payload.AcceptRelationship(threadId), k);
      if sealed.Err? {
        return Err(sealed.error);
      }
      var sent := SendMessage(sealed.value.0, sealed.value.1);
      if sent.Err? {
        return sent;
      }
      r := inner.SetRelationStatusForVid(receiver, Bidirectional(threadId));
    }

    /** `AsyncStore::send_relationship_cancel`. */
    method SendRelationshipCancel(sender: string, receiver: string, k: Crypto) returns (r: Result<(), Error>)
      requires Valid()
      modifies this, inner
      ensures Valid()
      ensures var o := CancelOutcome(old(inner.vids), unreachable, sender, receiver, k);
              r == o.result && inner.vids == o.vids && outbox == old(outbox) + o.sent
    {
      r := inner.SetRelationStatusForVid(receiver, Unrelated);
      if r.Err? {
        return;
      }
      var threadId := ZeroDigest;
      var sealed := SealMessagePayload(inner.vids, sender, receiver, None, Payload.CancelRelationship(threadId), k);
      r := Post(sealed);
    }

    /** `AsyncStore::route_message`: open a message addressed to us and pass its routed payload on. */
    method RouteMessage(sender: string, receiver: string, message: Bytes, k: Crypto) returns (r: Result<(), Error>)
      modifies this
      ensures var sealed := RouteSeal(inner.vids, sender, receiver, message, k);
              r == Dispatched(unreachable, sealed) && outbox == old(outbox) + Delivered(unreachable, sealed)
    {
      var forward := RouteTarget(inner.vids, sender, receiver, message, k);
      if forward.Err? {
        return Err(forward.error);
      }
      r := ForwardRoutedMessage(forward.value.nextHop, forward.value.route, forward.value.opaquePayload, k);
    }

    /** `AsyncStore::forward_routed_message`. */
    method ForwardRoutedMessage(nextHop: string, path: seq<Bytes>, opaquePayload: Bytes, k: Crypto) returns (r: Result<(), Error>)
      modifies this
      ensures var sealed := ForwardSeal(inner.vids, nextHop, path, opaquePayload, k);
              r == Dispatched(unreachable, sealed) && outbox == old(outbox) + Delivered(unreachable, sealed)
    {
      var sealed := ForwardSeal(inner.vids, nextHop, path, opaquePayload, k);
      r := Post(sealed);
    }
  }
}
