/** The tables of app/models.py and the request and event shapes of app/schemas.py. */
module Models {
  import opened Basics
  import opened Clock
  import opened Uuids

  type UserId = string

  datatype Status = Sent | Delivered | Read

  function Rank(s: Status): nat {
    match s
    case Sent => 0
    case Delivered => 1
    case Read => 2
  }

  datatype Conversation = Conversation(id: Uuid, userA: UserId, userB: UserId, createdAt: Timestamp) {
    predicate Has(user: UserId) {
      user == userA || user == userB
    }

    function PeerOf(user: UserId): UserId {
      if user == userA then userB else userA
    }
  }

  /** A row of `messages`. `MessageOut` is the same row: its cursor is `Paging.CursorOf`, and its
      presigned download URL is not modelled. */
  datatype Message = Message(
    id: Uuid, conversation: Uuid, sender: UserId, recipient: UserId, clientId: string,
    body: Option<string>, attachment: Option<string>, mime: Option<string>,
    status: Status, createdAt: Timestamp, deliveredAt: Option<Timestamp>, readAt: Option<Timestamp>)
  {
    function Key(): Key {
      Keyed(createdAt, id)
    }
  }

  /** The pair (created_at, id) that pagination and read receipts compare. */
  datatype Key = Keyed(at: Timestamp, id: Uuid)

  predicate KeyLess(a: Key, b: Key) {
    Ordinal(a.at) < Ordinal(b.at) || (Ordinal(a.at) == Ordinal(b.at) && a.id < b.id)
  }

  predicate KeyAtMost(a: Key, b: Key) {
    !KeyLess(b, a)
  }

  lemma KeysAreTotallyOrdered(a: Key, b: Key)
    ensures KeyLess(a, b) || KeyLess(b, a) || a == b
    ensures !(KeyLess(a, b) && KeyLess(b, a))
  {
    if Ordinal(a.at) == Ordinal(b.at) {
      OrdinalIsInjective(a.at, b.at);
    }
  }

  /** Keys compare by the calendar, and by the id at the same instant. */
  lemma KeysFollowTheCalendar(a: Key, b: Key)
    ensures KeyLess(a, b) <==> Before(a.at, b.at) || (a.at == b.at && a.id < b.id)
    ensures KeyAtMost(a, b) <==> KeyLess(a, b) || a == b
  {
    hide Ordinal, Before;
    OrdinalIsChronological(a.at, b.at);
    OrdinalIsChronological(b.at, a.at);
    KeysAreTotallyOrdered(a, b);
  }

  /** Code-point order on strings, used both by Python's `sorted` and by the table check. */
  predicate StringLess(a: string, b: string) {
    if b == "" then false
    else if a == "" then true
    else a[0] < b[0] || (a[0] == b[0] && StringLess(a[1..], b[1..]))
  }

  lemma {:induction false} StringsAreTotallyOrdered(a: string, b: string)
    ensures a != b ==> (StringLess(a, b) <==> !StringLess(b, a))
    ensures a == b ==> !StringLess(a, b)
  {
    if a != "" && b != "" && a[0] == b[0] {
      StringsAreTotallyOrdered(a[1..], b[1..]);
      assert a == [a[0]] + a[1..] && b == [b[0]] + b[1..];
    }
  }

  /** Up to `k` the strings agree, and there the first one ends or has the smaller code point. */
  predicate DiffersAt(a: string, b: string, k: nat) {
    k <= |a| && k < |b| && a[..k] == b[..k] && (k == |a| || a[k] < b[k])
  }

  /** The first difference decides, and a proper prefix comes first. */
  lemma {:induction false} StringsCompareByCodePoint(a: string, b: string)
    ensures StringLess(a, b) <==> exists k: nat :: DiffersAt(a, b, k)
  {
    if b == "" || a == "" {
      if b != "" {
        assert DiffersAt(a, b, 0);
      }
    } else {
      StringsCompareByCodePoint(a[1..], b[1..]);
      if a[0] < b[0] {
        assert DiffersAt(a, b, 0);
      } else if StringLess(a, b) {
        var k: nat :| DiffersAt(a[1..], b[1..], k);
        assert a == [a[0]] + a[1..] && b == [b[0]] + b[1..];
        assert a[..k + 1] == [a[0]] + a[1..][..k] && b[..k + 1] == [b[0]] + b[1..][..k];
        assert DiffersAt(a, b, k + 1);
      }
      if k: nat :| DiffersAt(a, b, k) && a[0] >= b[0] {
        assert 0 < k && a[..k][0] == a[0] && b[..k][0] == b[0];
        assert a[1..][..k - 1] == a[..k][1..] && b[1..][..k - 1] == b[..k][1..];
        assert DiffersAt(a[1..], b[1..], k - 1);
      }
    }
  }

  /** `sorted((u, v))`. */
  function SortedPair(u: UserId, v: UserId): (UserId, UserId) {
    if StringLess(v, u) then (v, u) else (u, v)
  }

  lemma SortedPairIsUnordered(u: UserId, v: UserId)
    requires u != v
    ensures SortedPair(u, v) == SortedPair(v, u)
    ensures {SortedPair(u, v).0, SortedPair(u, v).1} == {u, v}
    ensures StringLess(SortedPair(u, v).0, SortedPair(u, v).1)
  {
    StringsAreTotallyOrdered(u, v);
  }

  datatype SendRequest = SendRequest(
    recipient: UserId, clientId: string, body: Option<string>, attachment: Option<string>,
    graphemes: nat)  // user-perceived length of the body, as the regex counts it

  /** What the object storage tells about an uploaded file. */
  datatype Upload = Upload(size: nat, contentType: string)

  datatype Payload =
    | MessageNew(out: Message)
    | MessageDelivered(id: Uuid, conversation: Uuid, clientId: string, at: Timestamp)
    | MessageRead(conversation: Uuid, reader: UserId, ids: set<Uuid>, at: Timestamp)

  /** An outbox row without its identity value and without `published_at`. */
  datatype Row = Row(topic: string, payload: Payload)

  datatype Error =
    | InvalidRecipient
    | BodyTooLong
    | InvalidAttachment
    | AttachmentNotFound
    | PayloadTooLarge
    | UnsupportedMediaType
    | IdempotencyConflict
    | ConcurrentSend
    | NotFound
    | AccessDenied
    | BadRequest
    | InvalidCursor
    | Unavailable
}
