/** Eight-byte node and session identifiers and the order that breaks session ties (link/nodeid.go). */
module NodeIds {
  import opened Wire

  datatype RawId = RawId(bytes: Bytes)

  type NodeId = n: RawId | |n.bytes| == 8 witness RawId([0, 0, 0, 0, 0, 0, 0, 0])

  const ZERO_ID: NodeId := RawId([0, 0, 0, 0, 0, 0, 0, 0])

  /** The identifier read as one big-endian number. */
  function Value(n: NodeId): nat {
    FromBigEndian(n.bytes)
  }

  predicate Less(a: NodeId, b: NodeId) {
    Value(a) < Value(b)
  }

  lemma ValueIsInjective(a: NodeId, b: NodeId)
    requires Value(a) == Value(b)
    ensures a == b
  {
    FromBigEndianRoundTrip(a.bytes);
    FromBigEndianRoundTrip(b.bytes);
  }

  /** The first differing byte decides the order of the numbers, whatever follows it. */
  lemma {:induction false} FirstDifferenceDecides(a: Bytes, b: Bytes, i: nat, k: nat)
    requires i < k <= |a| == |b|
    requires a[..i] == b[..i] && a[i] < b[i]
    ensures FromBigEndian(a[..k]) < FromBigEndian(b[..k])
    decreases k
  {
    assert a[..k][..k - 1] == a[..k - 1] && b[..k][..k - 1] == b[..k - 1];
    if k > i + 1 {
      FirstDifferenceDecides(a, b, i, k - 1);
    }
  }

  /** Comparing byte by byte is comparing the numbers, so the order is total and strict. */
  method Compare(n: NodeId, o: NodeId) returns (r: int)
    ensures r == (if Value(n) < Value(o) then -1 else if Value(n) > Value(o) then 1 else 0)
    ensures r == 0 <==> n == o
  {
    var i := 0;
    while i < 8
      invariant i <= 8 && n.bytes[..i] == o.bytes[..i]
    {
      if n.bytes[i] != o.bytes[i] {
        assert n.bytes[..8] == n.bytes && o.bytes[..8] == o.bytes;
        if n.bytes[i] < o.bytes[i] {
          FirstDifferenceDecides(n.bytes, o.bytes, i, 8);
          return -1;
        }
        FirstDifferenceDecides(o.bytes, n.bytes, i, 8);
        return 1;
      }
      i := i + 1;
    }
    assert n.bytes == n.bytes[..8] == o.bytes[..8] == o.bytes;
    return 0;
  }
}
