/**
 The byte-level wire formats (link/wire.go): big-endian integers, payload
 entries, discovery and measurement messages.
 */
module Wire {

  newtype byte = x: int | 0 <= x < 256

  type Bytes = seq<byte>

  datatype Result<+T> = Ok(value: T) | Err

  const TWO32 := 0x1_0000_0000
  const TWO63 := 0x8000_0000_0000_0000
  const TWO64 := 0x1_0000_0000_0000_0000

  const MAX_MESSAGE_SIZE := 512

  const DISCOVERY_MAGIC: Bytes := [0x5f, 0x61, 0x73, 0x64, 0x70, 0x5f, 0x76, 1]
  const LINK_MAGIC: Bytes := [0x5f, 0x6c, 0x69, 0x6e, 0x6b, 0x5f, 0x76, 1]

  const DISCOVERY_ALIVE: byte := 1
  const DISCOVERY_RESPONSE: byte := 2
  const DISCOVERY_BYEBYE: byte := 3
  const LINK_PING: byte := 1
  const LINK_PONG: byte := 2

  const KEY_TIMELINE := 0x746d6c6e
  const KEY_SESSION := 0x73657373
  const KEY_START_STOP := 0x73747374
  const KEY_MEEP_V4 := 0x6d657034
  const KEY_HOST_TIME := 0x5f5f6874
  const KEY_GHOST_TIME := 0x5f5f6774
  const KEY_PREV_GHOST_TIME := 0x5f706774

  // ----- Big-endian integers -----

  /** The last `width` base-256 digits of x, most significant first. */
  function BigEndian(x: nat, width: nat): (r: Bytes)
    ensures |r| == width
  {
    if width == 0 then [] else BigEndian(x / 256, width - 1) + [(x % 256) as byte]
  }

  function FromBigEndian(b: Bytes): nat {
    if b == [] then 0 else FromBigEndian(b[..|b| - 1]) * 256 + b[|b| - 1] as nat
  }

  function Pow256(width: nat): nat {
    if width == 0 then 1 else 256 * Pow256(width - 1)
  }

  /** Decoding yields the number modulo the width, so it is exact when the number fits. */
  lemma {:induction false} BigEndianRoundTrip(x: nat, width: nat)
    requires x < Pow256(width)
    ensures FromBigEndian(BigEndian(x, width)) == x
  {
    if width > 0 {
      BigEndianRoundTrip(x / 256, width - 1);
      var b := BigEndian(x, width);
      assert b[..|b| - 1] == BigEndian(x / 256, width - 1);
    }
  }

  /** A byte string is determined by its number: encoding inverts decoding. */
  lemma {:induction false} FromBigEndianRoundTrip(b: Bytes)
    ensures FromBigEndian(b) < Pow256(|b|)
    ensures BigEndian(FromBigEndian(b), |b|) == b
  {
    if b != [] {
      var init := b[..|b| - 1];
      FromBigEndianRoundTrip(init);
      assert FromBigEndian(b) / 256 == FromBigEndian(init);
      assert b == init + [b[|b| - 1]];
    }
  }

  lemma Widths()
    ensures Pow256(2) == 0x1_0000 && Pow256(4) == TWO32 && Pow256(8) == TWO64
  {}

  /** A signed 64-bit integer in two's complement; a number outside the range wraps. */
  function EncodeInt64(x: int): (r: Bytes)
    ensures |r| == 8
  {
    BigEndian(x % TWO64, 8)
  }

  function DecodeInt64(b: Bytes): int
    requires |b| == 8
  {
    var u := FromBigEndian(b);
    if u < TWO63 then u else u - TWO64
  }

  predicate IsInt64(x: int) {
    -TWO63 <= x < TWO63
  }

  /** The 64-bit round trip is exact for exactly the signed 64-bit range. */
  lemma Int64RoundTrip(x: int)
    ensures DecodeInt64(EncodeInt64(x)) == x <==> IsInt64(x)
  {
    Widths();
    BigEndianRoundTrip(x % TWO64, 8);
  }

  // ----- Payload entries -----

  datatype Entry = Entry(key: nat, value: Bytes)

  predicate Encodable(e: Entry) {
    e.key < TWO32 && |e.value| < TWO32
  }

  function EncodeEntry(e: Entry): Bytes {
    if e.value == [] then [] else BigEndian(e.key, 4) + BigEndian(|e.value|, 4) + e.value
  }

  function EncodeEntries(entries: seq<Entry>): Bytes {
    if entries == [] then [] else EncodeEntry(entries[0]) + EncodeEntries(entries[1..])
  }

  /** The size of the first entry's value, when its header is complete. */
  function SizeOf(payload: Bytes): nat
    requires |payload| >= 8
  {
    FromBigEndian(payload[4..8])
  }

  function ParseEntries(payload: Bytes): Result<seq<Entry>>
    decreases |payload|
  {
    if payload == [] then Ok([])
    else if |payload| < 8 || SizeOf(payload) > |payload| - 8 then Err
    else
      var end := 8 + SizeOf(payload);
      Prepend([Entry(FromBigEndian(payload[..4]), payload[8..end])], ParseEntries(payload[end..]))
  }

  /** Adds parsed entries in front of the outcome of parsing the rest. */
  function Prepend(es: seq<Entry>, r: Result<seq<Entry>>): Result<seq<Entry>> {
    match r
    case Ok(rest) => Ok(es + rest)
    case Err => Err
  }

  lemma PrependLaws(a: seq<Entry>, b: seq<Entry>, r: Result<seq<Entry>>)
    ensures Prepend([], r) == r
    ensures Prepend(a, Prepend(b, r)) == Prepend(a + b, r)
  {
    if r.Ok? {
      assert [] + r.value == r.value;
      assert a + (b + r.value) == a + b + r.value;
    }
  }

  function NonEmpty(entries: seq<Entry>): seq<Entry> {
    if entries == [] then []
    else (if entries[0].value == [] then [] else [entries[0]]) + NonEmpty(entries[1..])
  }

  lemma {:induction false} NothingEmpty(es: seq<Entry>)
    requires forall e | e in es :: e.value != []
    ensures NonEmpty(es) == es
  {
    if es != [] {
      NothingEmpty(es[1..]);
    }
  }

  /** The entry at the front of a payload is parsed off, whatever follows it. */
  lemma ParseFirst(e: Entry, rest: Bytes)
    requires Encodable(e) && e.value != []
    ensures ParseEntries(EncodeEntry(e) + rest) == Prepend([e], ParseEntries(rest))
  {
    var payload := EncodeEntry(e) + rest;
    Widths();
    BigEndianRoundTrip(e.key, 4);
    BigEndianRoundTrip(|e.value|, 4);
    assert payload[..4] == BigEndian(e.key, 4);
    assert payload[4..8] == BigEndian(|e.value|, 4);
    assert payload[8..8 + |e.value|] == e.value;
    assert payload[8 + |e.value|..] == rest;
  }

  /** Parsing encoded entries returns exactly the non-empty ones in order, followed by what follows them. */
  lemma {:induction false} ParseOfEncode(entries: seq<Entry>, rest: Bytes)
    requires forall e | e in entries :: Encodable(e)
    ensures ParseEntries(EncodeEntries(entries) + rest) == Prepend(NonEmpty(entries), ParseEntries(rest))
  {
    if entries == [] {
      assert EncodeEntries(entries) + rest == rest;
      PrependLaws([], [], ParseEntries(rest));
    } else {
      var tail := EncodeEntries(entries[1..]) + rest;
      assert EncodeEntries(entries) + rest == EncodeEntry(entries[0]) + tail;
      ParseOfEncode(entries[1..], rest);
      if entries[0].value == [] {
        assert EncodeEntry(entries[0]) + tail == tail;
        assert NonEmpty(entries) == NonEmpty(entries[1..]);
      } else {
        ParseFirst(entries[0], tail);
        PrependLaws([entries[0]], NonEmpty(entries[1..]), ParseEntries(rest));
      }
    }
  }

  lemma EntriesRoundTrip(entries: seq<Entry>)
    requires forall e | e in entries :: Encodable(e)
    ensures ParseEntries(EncodeEntries(entries)) == Ok(NonEmpty(entries))
  {
    ParseOfEncode(entries, []);
    assert EncodeEntries(entries) + [] == EncodeEntries(entries);
    assert NonEmpty(entries) + [] == NonEmpty(entries);
  }

  /** The parse of a concatenation is the concatenation of the parses, once the first part parses. */
  lemma {:induction false} ParseOfConcat(a: Bytes, b: Bytes)
    requires ParseEntries(a).Ok?
    ensures ParseEntries(a + b) == Prepend(ParseEntries(a).value, ParseEntries(b))
    decreases |a|
  {
    if a == [] {
      assert a + b == b;
      PrependLaws([], [], ParseEntries(b));
    } else {
      var end := 8 + SizeOf(a);
      var p := a + b;
      assert p[..4] == a[..4] && p[4..8] == a[4..8] && p[8..end] == a[8..end];
      assert p[end..] == a[end..] + b;
      ParseOfConcat(a[end..], b);
      PrependLaws([Entry(FromBigEndian(a[..4]), a[8..end])], ParseEntries(a[end..]).value, ParseEntries(b));
    }
  }

  lemma FrontEntryReencodes(payload: Bytes)
    requires |payload| >= 8 && SizeOf(payload) <= |payload| - 8
    ensures var end := 8 + SizeOf(payload);
      var e := Entry(FromBigEndian(payload[..4]), payload[8..end]);
      Encodable(e) && EncodeEntry(e) == if e.value == [] then [] else payload[..end]
  {
    var end := 8 + SizeOf(payload);
    Widths();
    FromBigEndianRoundTrip(payload[..4]);
    FromBigEndianRoundTrip(payload[4..8]);
    assert payload[..end] == payload[..4] + payload[4..8] + payload[8..end];
  }

  /** Parsing loses nothing: whatever parses is the encoding of its entries, provided none is empty, and only then. */
  lemma {:induction false} EncodeOfParse(payload: Bytes)
    requires ParseEntries(payload).Ok?
    ensures forall e | e in ParseEntries(payload).value :: Encodable(e)
    ensures |EncodeEntries(ParseEntries(payload).value)| <= |payload|
    ensures EncodeEntries(ParseEntries(payload).value) == payload
      <==> forall e | e in ParseEntries(payload).value :: e.value != []
    decreases |payload|
  {
    if payload != [] {
      var end := 8 + SizeOf(payload);
      var e, front, rest := Entry(FromBigEndian(payload[..4]), payload[8..end]), payload[..end], payload[end..];
      EncodeOfParse(rest);
      FrontEntryReencodes(payload);
      assert ParseEntries(payload).value == [e] + ParseEntries(rest).value;
      hide ParseEntries, EncodeEntries, EncodeEntry, SizeOf, FromBigEndian;
      assert payload == front + rest;
      ReencodedStep(e, ParseEntries(rest).value, front, rest);
    }
  }

  lemma ReencodedStep(e: Entry, tail: seq<Entry>, front: Bytes, rest: Bytes)
    requires EncodeEntry(e) == (if e.value == [] then [] else front) && front != []
    requires |EncodeEntries(tail)| <= |rest|
    requires EncodeEntries(tail) == rest <==> forall x | x in tail :: x.value != []
    ensures |EncodeEntries([e] + tail)| <= |front + rest|
    ensures EncodeEntries([e] + tail) == front + rest <==> forall x | x in [e] + tail :: x.value != []
  {
    EncodeCons(e, tail);
    hide EncodeEntries, EncodeEntry;
    assert e in [e] + tail && forall x | x in tail :: x in [e] + tail;
    if e.value != [] {
      assert (front + EncodeEntries(tail))[|front|..] == EncodeEntries(tail);
      assert (front + rest)[|front|..] == rest;
    }
  }

  lemma EncodeCons(e: Entry, tail: seq<Entry>)
    ensures EncodeEntries([e] + tail) == EncodeEntry(e) + EncodeEntries(tail)
  {
    assert ([e] + tail)[1..] == tail;
    hide EncodeEntry;
  }

  lemma {:induction false} EncodeSnoc(es: seq<Entry>, e: Entry)
    ensures EncodeEntries(es + [e]) == EncodeEntries(es) + EncodeEntry(e)
  {
    if es == [] {
      assert [] + [e] == [e] && [e][1..] == [];
      assert EncodeEntry(e) + [] == [] + EncodeEntry(e);
    } else {
      assert (es + [e])[1..] == es[1..] + [e];
      EncodeSnoc(es[1..], e);
      Reassociate(EncodeEntry(es[0]), EncodeEntries(es[1..]), EncodeEntry(e));
    }
  }

  lemma Reassociate(a: Bytes, b: Bytes, c: Bytes)
    ensures a + (b + c) == a + b + c
  {}

  /** Appends the encoded entries to a buffer, as the program's encoder does. */
  method EncodeInto(start: Bytes, entries: seq<Entry>) returns (buf: Bytes)
    ensures buf == start + EncodeEntries(entries)
  {
    buf := start;
    var i := 0;
    assert entries[..0] == [] && start + EncodeEntries([]) == start;
    hide EncodeEntries, BigEndian;
    while i < |entries|
      invariant i <= |entries|
      invariant buf == start + EncodeEntries(entries[..i])
    {
      var e := entries[i];
      ghost var before := buf;
      if e.value != [] {
        buf := buf + BigEndian(e.key, 4);
        buf := buf + BigEndian(|e.value|, 4);
        buf := buf + e.value;
        Reassociate(before, BigEndian(e.key, 4), BigEndian(|e.value|, 4));
        Reassociate(before, BigEndian(e.key, 4) + BigEndian(|e.value|, 4), e.value);
      }
      assert buf == before + EncodeEntry(e);
      assert entries[..i + 1] == entries[..i] + [e];
      EncodeSnoc(entries[..i], e);
      Reassociate(start, EncodeEntries(entries[..i]), EncodeEntry(e));
      i := i + 1;
    }
    assert entries[..i] == entries;
  }

  /** Consumes a payload entry by entry; the handlers of the program see exactly the parsed entries. */
  method Parse(payload: Bytes) returns (r: Result<seq<Entry>>)
    ensures r == ParseEntries(payload)
  {
    var rest := payload;
    var seen: seq<Entry> := [];
    PrependLaws([], [], ParseEntries(payload));
    while |rest| > 0
      invariant ParseEntries(payload) == Prepend(seen, ParseEntries(rest))
      decreases |rest|
    {
      if |rest| < 8 {
        return Err;
      }
      var key := FromBigEndian(rest[..4]);
      var size := FromBigEndian(rest[4..8]);
      if size > |rest| - 8 {
        return Err;
      }
      var value := rest[8..8 + size];
      PrependLaws(seen, [Entry(key, value)], ParseEntries(rest[8 + size..]));
      rest := rest[8 + size..];
      seen := seen + [Entry(key, value)];
    }
    assert seen + [] == seen;
    return Ok(seen);
  }

  // ----- Messages -----

  datatype DiscoveryHeader = DiscoveryHeader(msgType: byte, ttl: byte, groupID: nat, nodeID: Bytes)

  function EncodeDiscoveryMessage(msgType: byte, ttl: byte, groupID: nat, id: Bytes, entries: seq<Entry>): Bytes {
    DISCOVERY_MAGIC + ([msgType, ttl] + (BigEndian(groupID, 2) + (id + EncodeEntries(entries))))
  }

  function ParseDiscoveryMessage(data: Bytes): Result<(DiscoveryHeader, Bytes)> {
    if |data| < 20 || data[..8] != DISCOVERY_MAGIC then Err
    else
      var p := data[8..];
      Ok((DiscoveryHeader(p[0], p[1], FromBigEndian(p[2..4]), p[4..12]), p[12..]))
  }

  lemma Segments(a: Bytes, b: Bytes, c: Bytes)
    ensures var all := a + (b + c);
      && all[..|a|] == a
      && all[|a|..] == b + c
      && all[|a|..|a| + |b|] == b
      && all[|a| + |b|..] == c
  {}

  /** A discovery message parses back to its header and payload. */
  lemma DiscoveryRoundTrip(msgType: byte, ttl: byte, groupID: nat, id: Bytes, entries: seq<Entry>)
    requires groupID < 0x1_0000 && |id| == 8
    ensures ParseDiscoveryMessage(EncodeDiscoveryMessage(msgType, ttl, groupID, id, entries))
      == Ok((DiscoveryHeader(msgType, ttl, groupID, id), EncodeEntries(entries)))
  {
    Widths();
    BigEndianRoundTrip(groupID, 2);
    var types, group, body := [msgType, ttl], BigEndian(groupID, 2), EncodeEntries(entries);
    hide BigEndian, FromBigEndian, EncodeEntries;
    var p := types + (group + (id + body));
    Segments(DISCOVERY_MAGIC, types, group + (id + body));
    Segments(types, group, id + body);
    Reassociate(types, group, id + body);
    Segments(types + group, id, body);
  }

  function EncodeLinkMessage(msgType: byte, entries: seq<Entry>): Bytes {
    LINK_MAGIC + [msgType] + EncodeEntries(entries)
  }

  function ParseLinkMessage(data: Bytes): Result<(byte, Bytes)> {
    if |data| < 9 || data[..8] != LINK_MAGIC then Err else Ok((data[8], data[9..]))
  }

  /** A measurement message parses back, also with a raw payload appended as a pong does. */
  lemma LinkRoundTrip(msgType: byte, entries: seq<Entry>, appended: Bytes)
    ensures ParseLinkMessage(EncodeLinkMessage(msgType, entries) + appended)
      == Ok((msgType, EncodeEntries(entries) + appended))
  {
    hide EncodeEntries;
    var body := EncodeEntries(entries) + appended;
    Reassociate(LINK_MAGIC + [msgType], EncodeEntries(entries), appended);
    Reassociate(LINK_MAGIC, [msgType], body);
    Segments(LINK_MAGIC, [msgType], body);
  }
}
