/**
 The canonical forms of the lifecycle trail: what an entry hash, a head signature, a
 Merkle leaf, a Merkle node and a checkpoint signature cover.

 Bytes are modelled as strings.  The text formats of UUIDs, integers and time stamps,
 SHA-256 and Ed25519 are functions of a `Suite`; only the properties named in
 `WellFormed` are assumed of them, and collision-freedom only where a lemma says so.
 */
module Canonical {

  type Uuid = nat

  /** Microseconds: what `Normalize` leaves of a time stamp. */
  type Time = int

  /** Event ids.  Version 4 ids are minted by scanners; the others are derived by name
      (version 5), so an id of one kind is never an id of another. */
  datatype EventId =
    | Nil
    | Occurrence(u: Uuid)
    | IssuedId(ticket: Uuid)
    | DeliveredId(ticket: Uuid)
    | RedeemedId(ticket: Uuid)
    | RefundedId(refund: Uuid, ticket: Uuid)
    | ExchangedId(exchange: Uuid, ticket: Uuid)

  datatype EventType =
    | Issued | Delivered | Redeemed | Entry | Exit
    | DuplicateAdmit | Refunded | Exchanged | Redelivered
  {
    function Text(): string {
      match this
      case Issued => "issued"
      case Delivered => "delivered"
      case Redeemed => "redeemed"
      case Entry => "entry"
      case Exit => "exit"
      case DuplicateAdmit => "duplicate_admit"
      case Refunded => "refunded"
      case Exchanged => "exchanged"
      case Redelivered => "redelivered"
    }
  }

  const HASH_SIZE := 32

  predicate IsBytes(s: string) {
    forall i | 0 <= i < |s| :: s[i] as int < 256
  }

  predicate IsDigest(d: string) {
    |d| == HASH_SIZE && IsBytes(d)
  }

  const ZEROS: string := "\0\0\0\0\0\0\0\0\0\0\0\0\0\0\0\0\0\0\0\0\0\0\0\0\0\0\0\0\0\0\0\0"

  type Digest = d: string | IsDigest(d) witness ZEROS

  /** The previous hash of a ticket's first entry. */
  const GENESIS: Digest := ZEROS

  /** The version stored beside every chained row. */
  const CANONICAL_VERSION := 1

  datatype Suite = Suite(
    sha: string -> Digest,
    uuid: Uuid -> string,
    eventId: EventId -> string,
    number: int -> string,
    stamp: Time -> string,
    sign: (string, string) -> string,
    verify: (string, string, string) -> bool)
  {
    /** The text formats are injective and free of newlines, and a signature verifies
        under the key that made it. */
    ghost predicate WellFormed() {
      && (forall a, b :: uuid(a) == uuid(b) ==> a == b)
      && (forall a :: NoNewline(uuid(a)))
      && (forall a, b :: eventId(a) == eventId(b) ==> a == b)
      && (forall a :: NoNewline(eventId(a)))
      && (forall a, b :: number(a) == number(b) ==> a == b)
      && (forall a :: NoNewline(number(a)))
      && (forall a, b :: stamp(a) == stamp(b) ==> a == b)
      && (forall a :: NoNewline(stamp(a)))
      && (forall kid, m :: verify(kid, m, sign(kid, m)))
    }

    /** No two different messages of this set share a digest. */
    ghost predicate CollisionFree(messages: set<string>) {
      forall x, y | x in messages && y in messages :: sha(x) == sha(y) ==> x == y
    }
  }

  predicate NoNewline(s: string) {
    '\n' !in s
  }

  // ---------------------------------------------------------------- joined lines

  /** The fields separated by newlines, as the source's format strings write them. */
  function Lines(fields: seq<string>): string
    requires |fields| > 0
  {
    if |fields| == 1 then fields[0] else fields[0] + "\n" + Lines(fields[1..])
  }

  /** Splitting at the first newline recovers a newline-free first part. */
  lemma SplitAtFirst(a: string, b: string, x: string, y: string)
    requires NoNewline(a) && NoNewline(b)
    requires a + "\n" + x == b + "\n" + y
    ensures a == b && x == y
  {
    var l, r := a + "\n" + x, b + "\n" + y;
    assert l[|a|] == '\n' && r[|b|] == '\n';
    assert |a| == |b|;
    assert a == l[..|a|] && b == r[..|b|];
    assert x == l[|a| + 1..] && y == r[|b| + 1..];
  }

  /** Splitting at the last newline recovers a newline-free last part. */
  lemma SplitAtLast(a: string, b: string, x: string, y: string)
    requires NoNewline(x) && NoNewline(y)
    requires a + "\n" + x == b + "\n" + y
    ensures a == b && x == y
  {
    var l, r := a + "\n" + x, b + "\n" + y;
    assert l[|a|] == '\n' && r[|b|] == '\n';
    assert |a| == |b|;
    assert a == l[..|a|] && b == r[..|b|];
    assert x == l[|a| + 1..] && y == r[|b| + 1..];
  }

  /** Equal joined lines have equal fields, if every field but the last is newline-free. */
  lemma {:induction false} LinesInjective(xs: seq<string>, ys: seq<string>)
    requires |xs| == |ys| > 0
    requires forall i | 0 <= i < |xs| - 1 :: NoNewline(xs[i]) && NoNewline(ys[i])
    requires Lines(xs) == Lines(ys)
    ensures xs == ys
  {
    if |xs| > 1 {
      SplitAtFirst(xs[0], ys[0], Lines(xs[1..]), Lines(ys[1..]));
      LinesInjective(xs[1..], ys[1..]);
      assert xs == [xs[0]] + xs[1..] && ys == [ys[0]] + ys[1..];
    }
  }

  // ---------------------------------------------------------------- hexadecimal

  function HexDigit(n: int): (c: char)
    requires 0 <= n < 16
  {
    "0123456789abcdef"[n]
  }

  function Hex(bytes: string): (h: string)
    requires IsBytes(bytes)
    ensures |h| == 2 * |bytes|
  {
    if bytes == "" then ""
    else
      var b := bytes[0] as int;
      [HexDigit(b / 16), HexDigit(b % 16)] + Hex(bytes[1..])
  }

  lemma {:induction false} HexInjective(a: string, b: string)
    requires IsBytes(a) && IsBytes(b) && Hex(a) == Hex(b)
    ensures a == b
  {
    if a != "" && b != "" {
      var x, y := a[0] as int, b[0] as int;
      assert HexDigit(x / 16) == Hex(a)[0] == Hex(b)[0] == HexDigit(y / 16);
      assert HexDigit(x % 16) == Hex(a)[1] == Hex(b)[1] == HexDigit(y % 16);
      HexDigitInjective(x / 16, y / 16);
      HexDigitInjective(x % 16, y % 16);
      assert x == y;
      assert Hex(a[1..]) == Hex(a)[2..] == Hex(b)[2..] == Hex(b[1..]);
      HexInjective(a[1..], b[1..]);
      assert a == [a[0]] + a[1..] && b == [b[0]] + b[1..];
    }
  }

  lemma HexDigitInjective(m: int, n: int)
    requires 0 <= m < 16 && 0 <= n < 16 && HexDigit(m) == HexDigit(n)
    ensures m == n
  {
  }

  // ---------------------------------------------------------------- the five forms

  const DOMAIN_EVENT := "access-lifecycle/event/v1"
  const DOMAIN_HEAD := "access-lifecycle/head/v1"
  const DOMAIN_LEAF := "access-lifecycle/leaf/v1"
  const DOMAIN_NODE := "access-lifecycle/node/v1"
  const DOMAIN_CHECKPOINT := "access-lifecycle/checkpoint/v1"

  datatype Identity = Identity(order: Uuid, organizer: Uuid, slot: Uuid)

  datatype Event = Event(
    ticket: Uuid, identity: Identity, sequence: nat,
    id: EventId, kind: EventType, at: Time)

  datatype Leaf = Leaf(ticket: Uuid, sequence: nat, headHash: Digest)

  datatype Checkpoint = Checkpoint(
    organizer: Uuid, sequence: nat, previousRoot: Digest, root: Digest,
    leafCount: nat, kid: string, createdAt: Time)

  function EventFields(s: Suite, e: Event): seq<string> {
    [DOMAIN_EVENT, s.uuid(e.ticket), s.uuid(e.identity.order), s.uuid(e.identity.organizer),
     s.uuid(e.identity.slot), s.number(e.sequence), s.eventId(e.id), e.kind.Text(), s.stamp(e.at)]
  }

  function HeadFields(s: Suite, ticket: Uuid, sequence: nat, kid: string, hash: Digest): seq<string> {
    [DOMAIN_HEAD, s.uuid(ticket), s.number(sequence), kid, Hex(hash)]
  }

  function LeafFields(s: Suite, l: Leaf): seq<string> {
    [DOMAIN_LEAF, s.uuid(l.ticket), s.number(l.sequence), Hex(l.headHash)]
  }

  function NodeFields(left: Digest, right: Digest): seq<string> {
    [DOMAIN_NODE, Hex(left), Hex(right)]
  }

  function CheckpointFields(s: Suite, c: Checkpoint): seq<string> {
    [DOMAIN_CHECKPOINT, s.uuid(c.organizer), s.number(c.sequence), Hex(c.previousRoot), Hex(c.root),
     s.number(c.leafCount), c.kid, s.stamp(c.createdAt)]
  }

  function CanonicalEvent(s: Suite, e: Event): string {
    Lines(EventFields(s, e))
  }

  function CanonicalHead(s: Suite, ticket: Uuid, sequence: nat, kid: string, hash: Digest): string {
    Lines(HeadFields(s, ticket, sequence, kid, hash))
  }

  function CanonicalLeaf(s: Suite, l: Leaf): string {
    Lines(LeafFields(s, l))
  }

  function CanonicalNode(left: Digest, right: Digest): string {
    Lines(NodeFields(left, right))
  }

  function CanonicalCheckpoint(s: Suite, c: Checkpoint): string {
    Lines(CheckpointFields(s, c))
  }

  /** The message an entry hash is taken of: the previous hash, then the canonical form. */
  function EntryMessage(s: Suite, previous: Digest, e: Event): string {
    previous + CanonicalEvent(s, e)
  }

  function HashEntry(s: Suite, previous: Digest, e: Event): Digest {
    s.sha(EntryMessage(s, previous, e))
  }

  // ---------------------------------------------------------------- injectivity

  lemma {:induction false} LinesSnoc(xs: seq<string>, last: string)
    requires |xs| > 0
    ensures Lines(xs + [last]) == Lines(xs) + "\n" + last
  {
    if |xs| > 1 {
      assert (xs + [last])[1..] == xs[1..] + [last];
      LinesSnoc(xs[1..], last);
    } else {
      assert (xs + [last])[1..] == [last];
    }
  }

  /** The domain is the first line of every form, so a message of one kind is never a
      message of another. */
  lemma {:induction false} DomainSeparates(xs: seq<string>, ys: seq<string>)
    requires |xs| > 1 && |ys| > 1 && NoNewline(xs[0]) && NoNewline(ys[0])
    requires Lines(xs) == Lines(ys)
    ensures xs[0] == ys[0]
  {
    SplitAtFirst(xs[0], ys[0], Lines(xs[1..]), Lines(ys[1..]));
  }

  lemma KindTextInjective(a: EventType, b: EventType)
    requires a.Text() == b.Text()
    ensures a == b && NoNewline(a.Text())
  {
    assert |a.Text()| == |b.Text()| && a.Text()[0] == b.Text()[0];
  }

  lemma CanonicalEventInjective(s: Suite, a: Event, b: Event)
    requires s.WellFormed() && CanonicalEvent(s, a) == CanonicalEvent(s, b)
    ensures a == b
  {
    KindTextInjective(a.kind, a.kind);
    KindTextInjective(b.kind, b.kind);
    var x, y := EventFields(s, a), EventFields(s, b);
    LinesInjective(x, y);
    assert x[1] == y[1] && x[2] == y[2] && x[3] == y[3] && x[4] == y[4];
    assert x[5] == y[5] && x[6] == y[6] && x[7] == y[7] && x[8] == y[8];
    KindTextInjective(a.kind, b.kind);
  }

  /** Hashing the previous hash before the canonical form binds both. */
  lemma EntryMessageInjective(s: Suite, p: Digest, a: Event, q: Digest, b: Event)
    requires s.WellFormed() && EntryMessage(s, p, a) == EntryMessage(s, q, b)
    ensures p == q && a == b
  {
    assert p == EntryMessage(s, p, a)[..HASH_SIZE] && q == EntryMessage(s, q, b)[..HASH_SIZE];
    assert CanonicalEvent(s, a) == EntryMessage(s, p, a)[HASH_SIZE..];
    assert CanonicalEvent(s, b) == EntryMessage(s, q, b)[HASH_SIZE..];
    CanonicalEventInjective(s, a, b);
  }

  /** A head signature binds ticket, sequence, key id and hash, for every key id: the hash
      has a fixed width, so not even a newline in the key id makes the form ambiguous. */
  lemma CanonicalHeadInjective(s: Suite, t: Uuid, m: nat, kid: string, h: Digest,
                               t': Uuid, m': nat, kid': string, h': Digest)
    requires s.WellFormed() && CanonicalHead(s, t, m, kid, h) == CanonicalHead(s, t', m', kid', h')
    ensures t == t' && m == m' && kid == kid' && h == h'
  {
    var x, y := HeadFields(s, t, m, kid, h)[..4], HeadFields(s, t', m', kid', h')[..4];
    LinesSnoc(x, Hex(h));
    LinesSnoc(y, Hex(h'));
    assert HeadFields(s, t, m, kid, h) == x + [Hex(h)];
    assert HeadFields(s, t', m', kid', h') == y + [Hex(h')];
    var l, r := CanonicalHead(s, t, m, kid, h), CanonicalHead(s, t', m', kid', h');
    assert Hex(h) == l[|l| - 64..] && Hex(h') == r[|r| - 64..];
    HexInjective(h, h');
    assert Lines(x) == l[..|l| - 65] && Lines(y) == r[..|r| - 65];
    LinesInjective(x, y);
    assert x[1] == y[1] && x[2] == y[2] && x[3] == y[3];
  }

  lemma CanonicalLeafInjective(s: Suite, a: Leaf, b: Leaf)
    requires s.WellFormed() && CanonicalLeaf(s, a) == CanonicalLeaf(s, b)
    ensures a == b
  {
    var x, y := LeafFields(s, a), LeafFields(s, b);
    LinesInjective(x, y);
    assert x[1] == y[1] && x[2] == y[2] && x[3] == y[3];
    HexInjective(a.headHash, b.headHash);
  }

  lemma {:induction false} HexHasNoNewline(b: string)
    requires IsBytes(b)
    ensures NoNewline(Hex(b))
  {
    if b != "" {
      HexHasNoNewline(b[1..]);
    }
  }

  lemma CanonicalNodeInjective(l: Digest, r: Digest, l': Digest, r': Digest)
    requires CanonicalNode(l, r) == CanonicalNode(l', r')
    ensures l == l' && r == r'
  {
    HexHasNoNewline(l);
    HexHasNoNewline(l');
    var x, y := NodeFields(l, r), NodeFields(l', r');
    LinesInjective(x, y);
    assert x[1] == y[1] && x[2] == y[2];
    HexInjective(l, l');
    HexInjective(r, r');
  }

  /** A checkpoint signature binds every field, again whatever the key id contains. */
  lemma CanonicalCheckpointInjective(s: Suite, a: Checkpoint, b: Checkpoint)
    requires s.WellFormed() && CanonicalCheckpoint(s, a) == CanonicalCheckpoint(s, b)
    ensures a == b
  {
    var x, y := CheckpointFields(s, a)[..7], CheckpointFields(s, b)[..7];
    LinesSnoc(x, s.stamp(a.createdAt));
    LinesSnoc(y, s.stamp(b.createdAt));
    assert CheckpointFields(s, a) == x + [s.stamp(a.createdAt)];
    assert CheckpointFields(s, b) == y + [s.stamp(b.createdAt)];
    SplitAtLast(Lines(x), Lines(y), s.stamp(a.createdAt), s.stamp(b.createdAt));
    HexHasNoNewline(a.previousRoot);
    HexHasNoNewline(b.previousRoot);
    HexHasNoNewline(a.root);
    HexHasNoNewline(b.root);
    LinesInjective(x, y);
    assert x[1] == y[1] && x[2] == y[2] && x[3] == y[3] && x[4] == y[4] && x[5] == y[5] && x[6] == y[6];
    HexInjective(a.previousRoot, b.previousRoot);
    HexInjective(a.root, b.root);
  }

  /** The four signed or hashed forms that stand alone never coincide. */
  lemma FormsAreDisjoint(s: Suite, t: Uuid, m: nat, kid: string, h: Digest, l: Leaf,
                         left: Digest, right: Digest, c: Checkpoint, e: Event)
    ensures CanonicalHead(s, t, m, kid, h) != CanonicalCheckpoint(s, c)
    ensures CanonicalLeaf(s, l) != CanonicalNode(left, right)
    ensures CanonicalHead(s, t, m, kid, h) !in {CanonicalLeaf(s, l), CanonicalNode(left, right), CanonicalEvent(s, e)}
    ensures CanonicalCheckpoint(s, c) !in {CanonicalLeaf(s, l), CanonicalNode(left, right), CanonicalEvent(s, e)}
    ensures CanonicalEvent(s, e) !in {CanonicalLeaf(s, l), CanonicalNode(left, right)}
  {
    var forms := [HeadFields(s, t, m, kid, h), CheckpointFields(s, c), LeafFields(s, l),
                  NodeFields(left, right), EventFields(s, e)];
    assert DOMAIN_HEAD[17] == 'h' && DOMAIN_CHECKPOINT[17] == 'c' && DOMAIN_LEAF[17] == 'l';
    assert DOMAIN_NODE[17] == 'n' && DOMAIN_EVENT[17] == 'e';
    forall i, j | 0 <= i < j < 5
      ensures Lines(forms[i]) != Lines(forms[j])
    {
      if Lines(forms[i]) == Lines(forms[j]) {
        DomainSeparates(forms[i], forms[j]);
      }
    }
    assert Lines(forms[0]) != Lines(forms[1]) && Lines(forms[2]) != Lines(forms[3]);
    assert Lines(forms[0]) != Lines(forms[2]) && Lines(forms[0]) != Lines(forms[3]) && Lines(forms[0]) != Lines(forms[4]);
    assert Lines(forms[1]) != Lines(forms[2]) && Lines(forms[1]) != Lines(forms[3]) && Lines(forms[1]) != Lines(forms[4]);
    assert Lines(forms[2]) != Lines(forms[4]) && Lines(forms[3]) != Lines(forms[4]);
  }
}
