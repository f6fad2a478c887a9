/** The protocol's shared data model (tsp-definitions/src/lib.rs): key and
    digest sizes, the decrypted `Payload` of a TSP message with its byte view
    and its `Display`, and the `ReceivedTspMessage` a store hands back. */
module Definitions {
  import opened Wrappers
  import opened Bytes
  import Text

  /** `[u8; 32]`: a public or private key. */
  type KeyData = s: Bytes | |s| == 32 witness seq(32, _ => 0)

  /** `[u8; 32]`: a SHA-256 digest, used as a relationship's thread id. */
  type Digest = s: Bytes | |s| == 32 witness seq(32, _ => 0)

  /** `Digest::default()`, the all-zero digest. */
  const ZeroDigest: Digest := [0, 0, 0, 0, 0, 0, 0, 0, 0, 0, 0, 0, 0, 0, 0, 0, 0, 0, 0, 0, 0, 0, 0, 0, 0, 0, 0, 0, 0, 0, 0, 0]

  datatype MessageType = Signed | SignedAndEncrypted

  /** What a store reports for one received message. The sender and next hop
      are identifiers, as the store builds them. */
  datatype ReceivedTspMessage =
    | GenericMessage(sender: string, nonconfidentialData: Option<Bytes>, message: Bytes, messageType: MessageType)
    | RequestRelationship(sender: string, threadId: Digest)
    | AcceptRelationship(sender: string)
    | CancelRelationship(sender: string)
    | ForwardRequest(sender: string, nextHop: string, route: seq<Bytes>, opaquePayload: Bytes)

  /** The content of one sealed layer. */
  datatype Payload =
    | Content(bytes: Bytes)
    | NestedMessage(bytes: Bytes)
    | RoutedMessage(hops: seq<Bytes>, bytes: Bytes)
    | CancelRelationship(threadId: Digest)
    | RequestRelationship
    | AcceptRelationship(threadId: Digest)
  {
    /** `Payload::as_bytes`: the bytes a payload carries; the relationship
        controls carry none except an accept, which carries its thread id. */
    function AsBytes(): (r: Bytes)
      ensures Content? || NestedMessage? || RoutedMessage? ==> r == bytes
      ensures CancelRelationship? || RequestRelationship? ==> r == []
      ensures AcceptRelationship? ==> r == threadId && |r| == 32
    {
      match this
      case Content(b) => b
      case NestedMessage(b) => b
      case RoutedMessage(_, b) => b
      case CancelRelationship(_) => []
      case RequestRelationship => []
      case AcceptRelationship(t) => t
    }

    /** `impl Display for Payload`. `lossy` is `String::from_utf8_lossy`. */
    function Display(lossy: Bytes -> string): string
    {
      match this
      case Content(b) => "Content: " + lossy(b)
      case NestedMessage(b) => "Nested Message: " + lossy(b)
      case RoutedMessage(hops, b) => "Routed Message: " + lossy(b) + ", route: [" + DisplayHops(hops) + "]"
      case CancelRelationship(_) => "Cancel Relationship"
      case RequestRelationship => "Request Relationship"
      case AcceptRelationship(_) => "Accept Relationship"
    }
  }

  /** `{:?}` of a byte slice: `[1, 2, 3]`. Only the empty slice prints as
      `[]`, and a single byte prints as its decimal digits in brackets. */
  function DebugBytes(b: Bytes): (r: string)
    ensures |r| >= 2 && r[0] == '[' && r[|r| - 1] == ']'
    ensures b == [] <==> r == "[]"
    ensures |b| == 1 ==> r == "[" + Text.Decimal(b[0]) + "]"
  {
    "[" + DebugElements(b) + "]"
  }

  /** The bytes between the brackets, in decimal, separated by `, `. */
  function DebugElements(b: Bytes): string
  {
    if |b| == 0 then ""
    else if |b| == 1 then Text.Decimal(b[0])
    else Text.Decimal(b[0]) + ", " + DebugElements(b[1..])
  }

  /** The elements of two non-empty slices, one after the other, print as
      the two renderings joined by one `, ` separator. */
  lemma {:induction false} DebugElementsAppend(b1: Bytes, b2: Bytes)
    requires |b1| > 0 && |b2| > 0
    ensures DebugElements(b1 + b2) == DebugElements(b1) + ", " + DebugElements(b2)
  {
    assert (b1 + b2)[0] == b1[0];
    if |b1| > 1 {
      assert (b1 + b2)[1..] == b1[1..] + b2;
      DebugElementsAppend(b1[1..], b2);
    } else {
      assert (b1 + b2)[1..] == b2;
    }
  }

  /** The `for vid in hops { write!(f, "{:?}", vid) }` loop of the routed
      case: each hop's bytes in turn, with no separator. */
  function DisplayHops(hops: seq<Bytes>): string
  {
    if hops == [] then "" else DebugBytes(hops[0]) + DisplayHops(hops[1..])
  }

  /** The hop loop writes the hops of a concatenated route as the two
      renderings one after the other. */
  lemma {:induction false} DisplayHopsAppend(h1: seq<Bytes>, h2: seq<Bytes>)
    ensures DisplayHops(h1 + h2) == DisplayHops(h1) + DisplayHops(h2)
  {
    if h1 == [] {
      assert h1 + h2 == h2;
    } else {
      assert (h1 + h2)[0] == h1[0];
      assert (h1 + h2)[1..] == h1[1..] + h2;
      DisplayHopsAppend(h1[1..], h2);
    }
  }

  /** The three relationship controls print fixed texts that do not reveal
      the thread id. */
  lemma DisplayHidesThreadId(t1: Digest, t2: Digest, lossy: Bytes -> string)
    ensures Payload.AcceptRelationship(t1).Display(lossy) == Payload.AcceptRelationship(t2).Display(lossy) == "Accept Relationship"
    ensures Payload.CancelRelationship(t1).Display(lossy) == Payload.CancelRelationship(t2).Display(lossy) == "Cancel Relationship"
    ensures Payload.RequestRelationship.Display(lossy) == "Request Relationship"
  {
  }
}
