/**
  Composite state keys (internal/keygroup/pebblekey.go): two big-endian bytes of key group, four of
  operator id, then the user key and the namespace.
 */
module StateKeys {
  import opened Basics

  newtype byte = x: int | 0 <= x < 256
  newtype uint16 = x: int | 0 <= x < 0x1_0000
  newtype uint32 = x: int | 0 <= x < 0x1_0000_0000

  type Bytes = seq<byte>

  const MIN_KEY_SIZE: nat := 6

  function Put16(v: uint16): (r: Bytes)
    ensures |r| == 2
  {
    [(v / 256) as byte, (v % 256) as byte]
  }

  function Get16(b: Bytes): uint16
    requires |b| >= 2
  {
    b[0] as uint16 * 256 + b[1] as uint16
  }

  function Put32(v: uint32): (r: Bytes)
    ensures |r| == 4
  {
    Put16((v / 0x1_0000) as uint16) + Put16((v % 0x1_0000) as uint16)
  }

  function Get32(b: Bytes): uint32
    requires |b| >= 4
  {
    Get16(b[..2]) as uint32 * 0x1_0000 + Get16(b[2..4]) as uint32
  }

  function Encode(group: uint16, op: uint32, userKey: Bytes, namespace: Bytes): Bytes {
    Put16(group) + Put32(op) + userKey + namespace
  }

  datatype Decoded = Decoded(group: uint16, op: uint32, rest: Bytes)

  function Decode(key: Bytes): Option<Decoded> {
    if |key| < MIN_KEY_SIZE then None else Some(Decoded(Get16(key[..2]), Get32(key[2..6]), key[6..]))
  }

  lemma RoundTrip16(v: uint16, b: Bytes)
    ensures Get16(Put16(v)) == v
    ensures |b| == 2 ==> Put16(Get16(b)) == b
  {
  }

  lemma RoundTrip32(v: uint32, b: Bytes)
    ensures Get32(Put32(v)) == v
    ensures |b| == 4 ==> Put32(Get32(b)) == b
  {
    var hi, lo := (v / 0x1_0000) as uint16, (v % 0x1_0000) as uint16;
    assert Put32(v)[..2] == Put16(hi) && Put32(v)[2..4] == Put16(lo);
    RoundTrip16(hi, []);
    RoundTrip16(lo, []);
    if |b| == 4 {
      RoundTrip16(0, b[..2]);
      RoundTrip16(0, b[2..4]);
      var h, l := Get16(b[..2]), Get16(b[2..4]);
      assert Get32(b) / 0x1_0000 == h as uint32 && Get32(b) % 0x1_0000 == l as uint32;
      assert b == b[..2] + b[2..4];
    }
  }

  /** Decoding an encoded key returns its group, its operator and the concatenated remainder. */
  lemma DecodeEncoded(group: uint16, op: uint32, userKey: Bytes, namespace: Bytes)
    ensures Decode(Encode(group, op, userKey, namespace)) == Some(Decoded(group, op, userKey + namespace))
  {
    var key := Encode(group, op, userKey, namespace);
    assert key[..2] == Put16(group) && key[2..6] == Put32(op) && key[6..] == userKey + namespace;
    RoundTrip16(group, []);
    RoundTrip32(op, []);
  }

  /** Every key long enough is the encoding of what it decodes to. */
  lemma EncodeDecoded(key: Bytes)
    requires |key| >= MIN_KEY_SIZE
    ensures Decode(key).Some?
    ensures Encode(Decode(key).value.group, Decode(key).value.op, Decode(key).value.rest, []) == key
  {
    RoundTrip16(0, key[..2]);
    RoundTrip32(0, key[2..6]);
    assert key == key[..2] + key[2..6] + key[6..] + [];
  }

  method Copy(target: array<byte>, at: nat, source: Bytes)
    requires at + |source| <= target.Length
    modifies target
    ensures target[..] == old(target[..])[..at] + source + old(target[..])[at + |source|..]
  {
    for i := 0 to |source|
      invariant target[..] == old(target[..])[..at] + source[..i] + old(target[..])[at + i..]
    {
      target[at + i] := source[i];
      assert source[..i + 1] == source[..i] + [source[i]];
    }
    assert source[..|source|] == source;
  }

  method EncodePebbleKey(group: uint16, op: uint32, userKey: Bytes, namespace: Bytes) returns (buf: array<byte>)
    ensures fresh(buf) && buf[..] == Encode(group, op, userKey, namespace)
  {
    buf := new byte[MIN_KEY_SIZE + |userKey| + |namespace|];
    Copy(buf, 0, Put16(group));
    assert buf[..2] == Put16(group);
    Copy(buf, 2, Put32(op));
    assert buf[..6] == Put16(group) + Put32(op);
    Copy(buf, 6, userKey);
    assert buf[..6 + |userKey|] == Put16(group) + Put32(op) + userKey;
    Copy(buf, 6 + |userKey|, namespace);
  }

  // ---------------------------------------------------------------- byte order

  /** The lexicographic order in which the state store keeps its keys. */
  predicate Less(a: Bytes, b: Bytes) {
    b != [] && (a == [] || a[0] < b[0] || (a[0] == b[0] && Less(a[1..], b[1..])))
  }

  /** A scan bounded by two group prefixes visits exactly the keys of the groups in between. */
  lemma PrefixBounds(key: Bytes, start: uint16, end: uint16)
    requires |key| >= 2
    ensures !Less(key, Put16(start)) && Less(key, Put16(end)) <==> start <= Get16(key) < end
  {
    BelowPrefix(key, start);
    BelowPrefix(key, end);
  }

  lemma BelowPrefix(key: Bytes, bound: uint16)
    requires |key| >= 2
    ensures Less(key, Put16(bound)) <==> Get16(key) < bound
  {
    var b := Put16(bound);
    RoundTrip16(bound, []);
    assert b[1..] == [b[1]] && b[1..][1..] == [];
    assert key[1..][0] == key[1];
    assert Less(key[1..], b[1..]) <==> key[1] < b[1];
  }
}
