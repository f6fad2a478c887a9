/** `verify_vid` (tsp/src/vid/resolve.rs): dispatch on the method of a DID. */
module Resolve {
  import opened Wrappers
  import opened Vids
  import opened Encodings
  import opened Text
  import opened Peer

  /** Whether the first two `:`-separated parts of `id` are `did` and `didMethod`. */
  predicate HasMethod(id: string, didMethod: string) {
    var parts := Split(id, ':');
    |parts| >= 2 && parts[0] == "did" && parts[1] == didMethod
  }

  /** `verify_vid`. The did:web branch fetches a document over HTTP, which is
      not part of this model: `resolveWeb` stands for that whole branch. */
  function VerifyVid(id: string, c: Codecs, resolveWeb: string -> Result<Vid, VidError>): (r: Result<Vid, VidError>)
    ensures HasMethod(id, "web") ==> r == resolveWeb(id)
    ensures HasMethod(id, "peer") ==> r == VerifyDidPeerSpec(Split(id, ':'), c)
    ensures !HasMethod(id, "web") && !HasMethod(id, "peer") ==> r == Err(InvalidVid(id))
    ensures HasMethod(id, "peer") && r.Ok? ==> r.value.id == id
  {
    var parts := Split(id, ':');
    if |parts| >= 2 && parts[0] == "did" && parts[1] == "web" then resolveWeb(id)
    else if |parts| >= 2 && parts[0] == "did" && parts[1] == "peer" then
      var r := VerifyDidPeerSpec(parts, c);
      if r.Ok? then
        VerifyDidPeerAccepts(parts, c);
        JoinSplit(id, ':');
        r
      else r
    else Err(InvalidVid(id))
  }

  /** A freshly generated did:peer identity resolves to its own public part. */
  lemma NewDidPeerResolves(transport: Url, keys: GeneratedKeys, c: Codecs, resolveWeb: string -> Result<Vid, VidError>)
    requires ValidCodecs(c) && c.isVerifyingKey(keys.verifyingKey)
    ensures VerifyVid(NewDidPeer(transport, keys, c).Identifier(), c, resolveWeb) == Ok(NewDidPeer(transport, keys, c).vid)
  {
    var o := NewDidPeer(transport, keys, c);
    var vid := Vid("", transport, keys.verifyingKey, keys.publicEnckey);
    assert o.vid == vid.(id := DidPeerIdentifier(vid, c));
    DidPeerRoundTrip(vid, c);
    assert HasMethod(o.Identifier(), "peer");
  }
}
