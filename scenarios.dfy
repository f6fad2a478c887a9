/** End-to-end properties of two or three stores exchanging messages, after
    the scenarios of tsp/src/test.rs: what one store seals, another store
    that knows the same identities opens back to the sender's message, and
    the relationship handshake leaves both sides bidirectional. */
module Scenarios {
  import opened Wrappers
  import opened Bytes
  import opened Definitions
  import opened Encodings
  import opened Vids
  import opened Crypto
  import opened VidStore
  import opened AsyncVidStore
  import Utf8

  /** Both stores hold the same public VID for `id`. */
  predicate Knows(a: VidMap, b: VidMap, id: string) {
    id in a && id in b && a[id].vid == b[id].vid
  }

  /** `aid` is owned by store `a`, `bid` by store `b`, and each store has
      resolved both, to the same VIDs. */
  predicate Connected(a: VidMap, aid: string, b: VidMap, bid: string) {
    && HasPrivateVid(a, aid) && HasPrivateVid(b, bid)
    && Knows(a, b, aid) && Knows(a, b, bid)
  }

  /** A receiver with neither a route nor a parent is sent to directly. */
  predicate Direct(c: VidContext) {
    c.tunnel.None? && c.parentVid.None?
  }

  /** A message that `s` sealed for `r` is, at a store that owns `r` and
      knows `s`, an encrypted message from `s` that opens to what was sealed. */
  lemma SealedOpensAt(b: VidMap, k: Crypto, s: OwnedVid, r: Vid, ncd: Option<Bytes>, p: Payload)
    requires ValidCrypto(k) && WellFormed(b) && k.seal(s, r, ncd, p).Ok?
    requires HasPrivateVid(b, r.Identifier()) && b[r.Identifier()].vid == r
    requires s.Identifier() in b && b[s.Identifier()].vid == s.vid
    ensures var m := k.seal(s, r, ncd, p).value;
            && OpensTo(k, PrivateOf(b, r.Identifier()), s.vid, m, ncd, p)
            && OpensFrom(b, m, k, s.Identifier(), k.open(PrivateOf(b, r.Identifier()), s.vid, m).value)
  {
    var own := PrivateOf(b, r.Identifier());
    assert WellFormedContext(r.Identifier(), b[r.Identifier()]);
    assert own.vid == r;
    SealOpen(k, s, own, ncd, p);
    Utf8.DecodeEncode(s.Identifier());
    Utf8.DecodeEncode(r.Identifier());
  }

  /** A sealed `Content` message is received as that content, from its
      sealer, with its non-confidential data; the store does not change. */
  lemma SealedContentReceived(b: VidMap, k: Crypto, s: OwnedVid, r: Vid, ncd: Option<Bytes>, message: Bytes)
    requires ValidCrypto(k) && WellFormed(b) && k.seal(s, r, ncd, Content(message)).Ok?
    requires HasPrivateVid(b, r.Identifier()) && b[r.Identifier()].vid == r
    requires s.Identifier() in b && b[s.Identifier()].vid == s.vid
    ensures OpenMessageSpec(b, k.seal(s, r, ncd, Content(message)).value, k)
            == OpenOutcome(Ok(GenericMessage(s.Identifier(), ncd, message, SignedAndEncrypted)), b)
  {
    var m := k.seal(s, r, ncd, Content(message)).value;
    SealedOpensAt(b, k, s, r, ncd, Content(message));
    OpenPayloadRules(b, m, k, s.Identifier(), k.open(PrivateOf(b, r.Identifier()), s.vid, m).value);
  }

  /** Direct mode (tsp/src/test.rs:1-56): a message that store `a` seals
      from `sid` to a direct receiver `rid` goes to the receiver's endpoint,
      and the store owning `rid` receives it as the same message from `sid`,
      with the same non-confidential data. */
  lemma DirectDelivery(a: VidMap, sid: string, b: VidMap, rid: string, ncd: Option<Bytes>, message: Bytes, k: Crypto)
    requires ValidCrypto(k) && WellFormed(a) && WellFormed(b)
    requires Connected(a, sid, b, rid) && Direct(a[rid])
    requires SealMessage(a, sid, rid, ncd, message, k).Ok?
    ensures SealMessage(a, sid, rid, ncd, message, k).value.0 == b[rid].vid.Endpoint()
    ensures OpenMessageSpec(b, SealMessage(a, sid, rid, ncd, message, k).value.1, k)
            == OpenOutcome(Ok(GenericMessage(sid, ncd, message, SignedAndEncrypted)), b)
  {
    var s := PrivateOf(a, sid);
    assert WellFormedContext(sid, a[sid]);
    assert WellFormedContext(rid, a[rid]);
    SealedContentReceived(b, k, s, a[rid].vid, ncd, message);
  }

  /** An anycast message that store `a` signs as `sid` is, at any store that
      holds the same VID for `sid`, a signed message from `sid` whose
      payload is the message; neither store's own identities are needed. */
  lemma AnycastReceived(a: VidMap, sid: string, b: VidMap, message: Bytes, k: Crypto)
    requires ValidCrypto(k) && WellFormed(a)
    requires HasPrivateVid(a, sid) && Knows(a, b, sid)
    requires SignAnycast(a, sid, message, k).Ok?
    ensures OpenMessageSpec(b, SignAnycast(a, sid, message, k).value, k)
            == OpenOutcome(Ok(GenericMessage(sid, None, message, Signed)), b)
  {
    var s := PrivateOf(a, sid);
    assert WellFormedContext(sid, a[sid]);
    Utf8.DecodeEncode(sid);
    var m := k.sign(s, None, Content(message).AsBytes()).value;
    assert SignAnycast(a, sid, message, k).value == m;
    assert k.probe(m) == Some(SignedMessage(Utf8.Encode(sid), None));
  }

  /** Nested mode (tsp/src/test.rs:58-128): the receiver's store opens the
      outer message, then the signed inner one, and receives the message
      from the inner sender; the outer non-confidential data is not passed on. */
  lemma NestedDelivery(a: VidMap, sid: string, b: VidMap, rid: string, ncd: Option<Bytes>, message: Bytes, k: Crypto)
    requires ValidCrypto(k) && WellFormed(a) && WellFormed(b)
    requires rid in a && a[rid].tunnel.None? && a[rid].parentVid.Some? && a[rid].relationVid.Some?
    requires var innerSender := a[rid].relationVid.value;
             innerSender in a && a[innerSender].parentVid.Some?
             && Connected(a, a[innerSender].parentVid.value, b, a[rid].parentVid.value)
             && Connected(a, innerSender, b, rid)
    requires SealMessage(a, sid, rid, ncd, message, k).Ok?
    ensures SealMessage(a, sid, rid, ncd, message, k).value.0 == b[a[rid].parentVid.value].vid.Endpoint()
    ensures OpenMessageSpec(b, SealMessage(a, sid, rid, ncd, message, k).value.1, k)
            == OpenOutcome(Ok(GenericMessage(a[rid].relationVid.value, None, message, Signed)), b)
  {
    var innerSender := a[rid].relationVid.value;
    var parentSender := a[innerSender].parentVid.value;
    var parentReceiver := a[rid].parentVid.value;
    var s := PrivateOf(a, innerSender);
    var ps := PrivateOf(a, parentSender);
    assert WellFormedContext(innerSender, a[innerSender]);
    assert WellFormedContext(parentSender, a[parentSender]);
    assert WellFormedContext(parentReceiver, a[parentReceiver]);
    assert WellFormedContext(rid, a[rid]);
    var inner := k.sign(s, Some(a[rid].vid), Content(message).AsBytes()).value;
    var outer := k.seal(ps, a[parentReceiver].vid, ncd, NestedMessage(inner)).value;
    assert SealMessage(a, sid, rid, ncd, message, k).value.1 == outer;
    SealedOpensAt(b, k, ps, a[parentReceiver].vid, ncd, NestedMessage(inner));
    OpenPayloadRules(b, outer, k, parentSender, k.open(PrivateOf(b, parentReceiver), ps.vid, outer).value);
    Utf8.DecodeEncode(innerSender);
    Utf8.DecodeEncode(rid);
    assert k.probe(inner) == Some(SignedMessage(Utf8.Encode(innerSender), Some(Utf8.Encode(rid))));
  }

  /** Routed mode, first hop (tsp/src/test.rs:130-221): the intermediary
      owning the first hop of the receiver's route receives a forward request
      from the first hop's relation VID, to the second hop, with the rest of
      the route and the inner message sealed for the receiver; a second hop
      it does not know is an `UnverifiedVid` error. */
  lemma RoutedFirstHop(a: VidMap, sid: string, rid: string, q: VidMap, ncd: Option<Bytes>, message: Bytes, k: Crypto)
    requires ValidCrypto(k) && WellFormed(a) && WellFormed(q)
    requires rid in a && a[rid].tunnel.Some?
    requires var hop := a[rid].tunnel.value[0];
             hop in a && a[hop].relationVid.Some? && Connected(a, a[hop].relationVid.value, q, hop)
    requires SealMessage(a, sid, rid, ncd, message, k).Ok?
    ensures var route := a[rid].tunnel.value;
            var hop := route[0];
            var inner := k.seal(PrivateOf(a, a[rid].relationVid.value), a[rid].vid, ncd, Content(message)).value;
            && SealMessage(a, sid, rid, ncd, message, k).value.0 == q[hop].vid.Endpoint()
            && OpenMessageSpec(q, SealMessage(a, sid, rid, ncd, message, k).value.1, k)
               == OpenOutcome(if route[1] in q then Ok(ForwardRequest(a[hop].relationVid.value, route[1], EncodeAll(route[2..]), inner))
                              else Err(UnverifiedVid(route[1])), q)
  {
    var route := a[rid].tunnel.value;
    var hop := route[0];
    var firstSender := a[hop].relationVid.value;
    assert WellFormedContext(rid, a[rid]);
    assert WellFormedContext(hop, a[hop]);
    assert WellFormedContext(firstSender, a[firstSender]);
    var inner := k.seal(PrivateOf(a, a[rid].relationVid.value), a[rid].vid, ncd, Content(message)).value;
    var hops := EncodeAll(route[1..]);
    var outer := k.seal(PrivateOf(a, firstSender), a[hop].vid, None, RoutedMessage(hops, inner)).value;
    SealedOpensAt(q, k, PrivateOf(a, firstSender), a[hop].vid, None, RoutedMessage(hops, inner));
    OpenPayloadRules(q, outer, k, firstSender, k.open(PrivateOf(q, hop), PrivateOf(a, firstSender).vid, outer).value);
    Utf8.DecodeEncode(route[1]);
    assert hops[1..] == EncodeAll(route[2..]);
    if route[1] in q {
      assert WellFormedContext(route[1], q[route[1]]);
    }
  }

  /** Forwarding on (tsp/src/test.rs:237-269): a message that an
      intermediary forwards along a non-empty path reaches the store owning
      the next hop as a routed message from the relation VID the
      intermediary used; that store then applies its forward rule, so a
      path whose head it does not know surfaces as `UnverifiedVid`. */
  lemma ForwardReachesNextHop(q: VidMap, nextHop: string, path: seq<Bytes>, opaquePayload: Bytes, t: VidMap, k: Crypto)
    requires ValidCrypto(k) && WellFormed(q) && WellFormed(t) && |path| > 0
    requires nextHop in q && q[nextHop].relationVid.Some? && Connected(q, q[nextHop].relationVid.value, t, nextHop)
    requires ForwardSeal(q, nextHop, path, opaquePayload, k).Ok?
    ensures ForwardSeal(q, nextHop, path, opaquePayload, k).value.0 == t[nextHop].vid.Endpoint()
    ensures OpenMessageSpec(t, ForwardSeal(q, nextHop, path, opaquePayload, k).value.1, k)
            == OpenOutcome(ForwardRule(t, q[nextHop].relationVid.value, path, opaquePayload), t)
    ensures Utf8.Decode(path[0]).Some? && Utf8.Decode(path[0]).value !in t ==>
              OpenMessageSpec(t, ForwardSeal(q, nextHop, path, opaquePayload, k).value.1, k).received
              == Err(UnverifiedVid(Utf8.Decode(path[0]).value))
  {
    var sender := q[nextHop].relationVid.value;
    var s := PrivateOf(q, sender);
    assert WellFormedContext(sender, q[sender]);
    assert WellFormedContext(nextHop, q[nextHop]);
    var m := k.seal(s, q[nextHop].vid, None, RoutedMessage(path, opaquePayload)).value;
    SealedOpensAt(t, k, s, q[nextHop].vid, None, RoutedMessage(path, opaquePayload));
    OpenPayloadRules(t, m, k, sender, k.open(PrivateOf(t, nextHop), s.vid, m).value);
  }

  /** Drop-off (tsp/src/test.rs:271-294): with the path used up, the last
      intermediary wraps the opaque message for the relation VID of the hop
      it owns, and the store owning that VID opens the opaque message itself. */
  lemma DropOffUnwraps(q: VidMap, nextHop: string, opaquePayload: Bytes, t: VidMap, k: Crypto)
    requires ValidCrypto(k) && WellFormed(q) && WellFormed(t)
    requires HasPrivateVid(q, nextHop) && q[nextHop].relationVid.Some?
    requires Connected(q, nextHop, t, q[nextHop].relationVid.value)
    requires ForwardSeal(q, nextHop, [], opaquePayload, k).Ok?
    ensures ForwardSeal(q, nextHop, [], opaquePayload, k).value.0 == t[q[nextHop].relationVid.value].vid.Endpoint()
    ensures OpenMessageSpec(t, ForwardSeal(q, nextHop, [], opaquePayload, k).value.1, k) == OpenMessageSpec(t, opaquePayload, k)
  {
    var s := PrivateOf(q, nextHop);
    var destination := q[nextHop].relationVid.value;
    assert WellFormedContext(nextHop, q[nextHop]);
    assert WellFormedContext(destination, q[destination]);
    var m := k.seal(s, q[destination].vid, None, NestedMessage(opaquePayload)).value;
    SealedOpensAt(t, k, s, q[destination].vid, None, NestedMessage(opaquePayload));
    OpenPayloadRules(t, m, k, nextHop, k.open(PrivateOf(t, destination), s.vid, m).value);
  }

  /** Routed mode, end to end (tsp/src/test.rs:271-294): when the opaque
      message of a forward request is the inner layer sealed for the final
      receiver, a drop-off to the store owning that receiver delivers the
      original message from the sender's relation VID. */
  lemma RoutedDelivery(a: VidMap, rid: string, q: VidMap, nextHop: string, t: VidMap, ncd: Option<Bytes>, message: Bytes, k: Crypto)
    requires ValidCrypto(k) && WellFormed(a) && WellFormed(q) && WellFormed(t)
    requires rid in a && a[rid].relationVid.Some? && Connected(a, a[rid].relationVid.value, t, rid)
    requires k.seal(PrivateOf(a, a[rid].relationVid.value), a[rid].vid, ncd, Content(message)).Ok?
    requires HasPrivateVid(q, nextHop) && q[nextHop].relationVid.Some?
    requires Connected(q, nextHop, t, q[nextHop].relationVid.value)
    requires var inner := k.seal(PrivateOf(a, a[rid].relationVid.value), a[rid].vid, ncd, Content(message)).value;
             ForwardSeal(q, nextHop, [], inner, k).Ok?
    ensures var inner := k.seal(PrivateOf(a, a[rid].relationVid.value), a[rid].vid, ncd, Content(message)).value;
            OpenMessageSpec(t, ForwardSeal(q, nextHop, [], inner, k).value.1, k)
            == OpenOutcome(Ok(GenericMessage(a[rid].relationVid.value, ncd, message, SignedAndEncrypted)), t)
  {
    var sender := a[rid].relationVid.value;
    var s := PrivateOf(a, sender);
    assert WellFormedContext(sender, a[sender]);
    assert WellFormedContext(rid, a[rid]);
    var inner := k.seal(s, a[rid].vid, ncd, Content(message)).value;
    DropOffUnwraps(q, nextHop, inner, t, k);
    SealedContentReceived(t, k, s, a[rid].vid, ncd, message);
  }

  /** The relationship request (tsp/src/async_store.rs:173-192 and
      tsp/src/store.rs:385-388): the receiver's store reads a request from
      the sender whose thread id is the one the sender stored with its
      `Unidirectional` status. */
  lemma RequestReceived(a: VidMap, aid: string, b: VidMap, bid: string, unreachable: set<Url>, k: Crypto)
    requires ValidCrypto(k) && WellFormed(a) && WellFormed(b) && Connected(a, aid, b, bid)
    requires RequestOutcome(a, unreachable, aid, bid, k).result.Ok?
    ensures var o := RequestOutcome(a, unreachable, aid, bid, k);
            && bid in o.vids && o.vids[bid].relationStatus.Unidirectional?
            && |o.sent| == 1 && o.sent[0].0 == b[bid].vid.Endpoint()
            && OpenMessageSpec(b, o.sent[0].1, k)
               == OpenOutcome(Ok(ReceivedTspMessage.RequestRelationship(aid, o.vids[bid].relationStatus.digest)), b)
  {
    var s := PrivateOf(a, aid);
    assert WellFormedContext(aid, a[aid]);
    assert WellFormedContext(bid, a[bid]);
    var own := PrivateOf(b, bid);
    assert WellFormedContext(bid, b[bid]);
    assert own.vid == a[bid].vid;
    var sealed := k.sealAndHash(s, own.vid, None, Payload.RequestRelationship).value;
    Utf8.DecodeEncode(aid);
    Utf8.DecodeEncode(bid);
    assert k.probe(sealed.0) == Some(SealedEnvelope(s, own.vid));
    var u := k.open(own, s.vid, sealed.0).value;
    assert OpensTo(k, own, s.vid, sealed.0, None, Payload.RequestRelationship) && k.sha256(u.rawBytes) == sealed.1;
    OpenPayloadRules(b, sealed.0, k, aid, u);
  }

  /** The relationship accept (tsp/src/async_store.rs:197-215 and
      tsp/src/store.rs:389-414): an accept for the thread id of the pending
      request makes the requester's entry for the acceptor `Bidirectional`. */
  lemma AcceptReceived(b: VidMap, bid: string, a: VidMap, aid: string, t: Digest, unreachable: set<Url>, k: Crypto)
    requires ValidCrypto(k) && WellFormed(a) && WellFormed(b) && Connected(b, bid, a, aid) && Direct(b[aid])
    requires a[bid].relationStatus == Unidirectional(t)
    requires AcceptOutcome(b, unreachable, bid, aid, t, k).result.Ok?
    ensures var o := AcceptOutcome(b, unreachable, bid, aid, t, k);
            && o.vids == b[aid := b[aid].(relationStatus := Bidirectional(t))]
            && |o.sent| == 1
            && OpenMessageSpec(a, o.sent[0].1, k)
               == OpenOutcome(Ok(ReceivedTspMessage.AcceptRelationship(bid)), a[bid := a[bid].(relationStatus := Bidirectional(t))])
  {
    var s := PrivateOf(b, bid);
    assert WellFormedContext(bid, b[bid]);
    assert WellFormedContext(aid, b[aid]);
    var m := k.seal(s, b[aid].vid, None, Payload.AcceptRelationship(t)).value;
    SealedOpensAt(a, k, s, b[aid].vid, None, Payload.AcceptRelationship(t));
    OpenPayloadRules(a, m, k, bid, k.open(PrivateOf(a, aid), s.vid, m).value);
  }

  /** Changing relationship statuses keeps two stores connected. */
  lemma ConnectedByStatus(a: VidMap, a': VidMap, aid: string, b: VidMap, b': VidMap, bid: string)
    requires Connected(a, aid, b, bid) && SameButStatus(a, a') && SameButStatus(b, b')
    ensures Connected(a', aid, b', bid)
  {
    assert a'[aid].private == a[aid].private && a'[bid].vid == a[bid].vid && a'[aid].vid == a[aid].vid;
    assert b'[bid].private == b[bid].private && b'[bid].vid == b[bid].vid && b'[aid].vid == b[aid].vid;
  }

  /** The handshake (tsp/src/test.rs:371-446): a request, answered by an
      accept with the thread id that was received, leaves each side's entry
      for the other `Bidirectional` with that same thread id. */
  lemma Handshake(a: VidMap, aid: string, b: VidMap, bid: string, unreachable: set<Url>, k: Crypto)
    requires ValidCrypto(k) && WellFormed(a) && WellFormed(b) && Connected(a, aid, b, bid) && Direct(b[aid])
    requires RequestOutcome(a, unreachable, aid, bid, k).result.Ok?
    requires var sent := RequestOutcome(a, unreachable, aid, bid, k).sent;
             |sent| == 1 && var request := OpenMessageSpec(b, sent[0].1, k).received;
             request.Ok? && request.value.RequestRelationship?
             && AcceptOutcome(b, unreachable, bid, aid, request.value.threadId, k).result.Ok?
    ensures var a1 := RequestOutcome(a, unreachable, aid, bid, k);
            var t := OpenMessageSpec(b, a1.sent[0].1, k).received.value.threadId;
            var b1 := AcceptOutcome(b, unreachable, bid, aid, t, k);
            var a2 := OpenMessageSpec(a1.vids, b1.sent[0].1, k);
            && a2.received == Ok(ReceivedTspMessage.AcceptRelationship(bid))
            && a2.after[bid].relationStatus == Bidirectional(t)
            && b1.vids[aid].relationStatus == Bidirectional(t)
  {
    var a1 := RequestOutcome(a, unreachable, aid, bid, k);
    RequestReceived(a, aid, b, bid, unreachable, k);
    var t := a1.vids[bid].relationStatus.digest;
    assert a1.vids == a[bid := a[bid].(relationStatus := Unidirectional(t))];
    assert WellFormed(a1.vids) by {
      forall id | id in a1.vids ensures WellFormedContext(id, a1.vids[id]) {
        assert WellFormedContext(id, a[id]);
      }
    }
    ConnectedByStatus(a, a1.vids, aid, b, b, bid);
    AcceptReceived(b, bid, a1.vids, aid, t, unreachable, k);
  }

  /** The thread id of a relationship, pending or established. */
  function ThreadOf(status: RelationshipStatus): (t: Digest)
    ensures status.Bidirectional? || status.Unidirectional? ==> t == status.digest
    ensures status.Controlled? || status.Unrelated? ==> t == ZeroDigest
  {
    match status
    case Bidirectional(digest) => digest
    case Unidirectional(digest) => digest
    case _ => ZeroDigest
  }

  /** `send_relationship_cancel` as evidently intended: it sends the thread
      id of the relationship being cancelled, read before the status is reset. */
  function CancelOutcomeCorrected(vids: VidMap, unreachable: set<Url>, sender: string, receiver: string, k: Crypto): (o: SendOutcome)
    ensures receiver !in vids ==> o == SendOutcome(Err(UnverifiedVid(receiver)), vids, [])
    ensures receiver in vids ==> o.vids == vids[receiver := vids[receiver].(relationStatus := Unrelated)]
    ensures receiver in vids ==>
              && o.result == Dispatched(unreachable, SealMessagePayload(o.vids, sender, receiver, None,
                                                                         Payload.CancelRelationship(ThreadOf(vids[receiver].relationStatus)), k))
              && o.sent == Delivered(unreachable, SealMessagePayload(o.vids, sender, receiver, None,
                                                                      Payload.CancelRelationship(ThreadOf(vids[receiver].relationStatus)), k))
  {
    match WithStatus(vids, receiver, Unrelated)
    case Err(e) => SendOutcome(Err(e), vids, [])
    case Ok(after) =>
      var sealed := SealMessagePayload(after, sender, receiver, None, Payload.CancelRelationship(ThreadOf(vids[receiver].relationStatus)), k);
      SendOutcome(Dispatched(unreachable, sealed), after, Delivered(unreachable, sealed))
  }

  /** A cancel sealed directly from `aid` to `bid` opens at `bid`'s store as a
      cancel from `aid` carrying the thread id that was sealed. */
  lemma CancelOpens(a: VidMap, aid: string, b: VidMap, bid: string, t: Digest, k: Crypto)
    requires ValidCrypto(k) && WellFormed(a) && WellFormed(b) && Connected(a, aid, b, bid) && Direct(a[bid])
    requires SealMessagePayload(a, aid, bid, None, Payload.CancelRelationship(t), k).Ok?
    ensures OpenMessageSpec(b, SealMessagePayload(a, aid, bid, None, Payload.CancelRelationship(t), k).value.1, k)
            == CancelRule(b, aid, t)
  {
    var s := PrivateOf(a, aid);
    assert WellFormedContext(aid, a[aid]);
    assert WellFormedContext(bid, a[bid]);
    var m := k.seal(s, a[bid].vid, None, Payload.CancelRelationship(t)).value;
    SealedOpensAt(b, k, s, a[bid].vid, None, Payload.CancelRelationship(t));
    OpenPayloadRules(b, m, k, aid, k.open(PrivateOf(b, bid), s.vid, m).value);
  }

  /** The setting of a cancel: an established relationship with thread id
      `t`, and the canceller's store after its own status reset. */
  lemma CancelSetting(a: VidMap, aid: string, b: VidMap, bid: string, t: Digest)
    requires WellFormed(a) && Connected(a, aid, b, bid) && Direct(a[bid])
    ensures var after := a[bid := a[bid].(relationStatus := Unrelated)];
            WellFormed(after) && Connected(after, aid, b, bid) && Direct(after[bid])
  {
    var after := a[bid := a[bid].(relationStatus := Unrelated)];
    forall id | id in after ensures WellFormedContext(id, after[id]) {
      assert WellFormedContext(id, a[id]);
    }
  }

  /** As written (tsp/src/async_store.rs:219-238), a cancel of an
      established relationship whose thread id is not all zeros resets the
      canceller's side, but the other side rejects it and stays `Bidirectional`. */
  lemma CancelAsWrittenRejected(a: VidMap, aid: string, b: VidMap, bid: string, t: Digest, unreachable: set<Url>, k: Crypto)
    requires ValidCrypto(k) && WellFormed(a) && WellFormed(b) && Connected(a, aid, b, bid) && Direct(a[bid])
    requires a[bid].relationStatus == Bidirectional(t) && b[aid].relationStatus == Bidirectional(t) && t != ZeroDigest
    requires CancelOutcome(a, unreachable, aid, bid, k).result.Ok?
    ensures var o := CancelOutcome(a, unreachable, aid, bid, k);
            && o.vids[bid].relationStatus == Unrelated
            && |o.sent| == 1
            && OpenMessageSpec(b, o.sent[0].1, k) == OpenOutcome(Err(Relationship(BadCancel)), b)
            && b[aid].relationStatus == Bidirectional(t)
  {
    var after := a[bid := a[bid].(relationStatus := Unrelated)];
    CancelSetting(a, aid, b, bid, t);
    CancelOpens(after, aid, b, bid, ZeroDigest, k);
  }

  /** With the thread id of the relationship sent, a cancel that reaches the
      other side ends the relationship on both sides. */
  lemma CorrectedCancelEndsRelationship(a: VidMap, aid: string, b: VidMap, bid: string, t: Digest, unreachable: set<Url>, k: Crypto)
    requires ValidCrypto(k) && WellFormed(a) && WellFormed(b) && Connected(a, aid, b, bid) && Direct(a[bid])
    requires a[bid].relationStatus == Bidirectional(t) && b[aid].relationStatus == Bidirectional(t)
    requires CancelOutcomeCorrected(a, unreachable, aid, bid, k).result.Ok?
    ensures var o := CancelOutcomeCorrected(a, unreachable, aid, bid, k);
            && o.vids[bid].relationStatus == Unrelated
            && |o.sent| == 1
            && OpenMessageSpec(b, o.sent[0].1, k)
               == OpenOutcome(Ok(ReceivedTspMessage.CancelRelationship(aid)), b[aid := b[aid].(relationStatus := Unrelated)])
  {
    var after := a[bid := a[bid].(relationStatus := Unrelated)];
    CancelSetting(a, aid, b, bid, t);
    CancelOpens(after, aid, b, bid, t, k);
  }
}
