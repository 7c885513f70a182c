/**
  The binary snapshot format of the in-memory backend (internal/engine/state_backend_hashmap.go):
  version, entry count, length-prefixed keys and values, checksum.  The checksum is any function.
 */
module SnapshotCodec {
  import opened Basics
  import opened StateKeys

  datatype Entry = Entry(key: Bytes, value: Bytes)

  type Checksum = Bytes -> uint32

  const VERSION: byte := 1
  const MAX_UINT32: nat := 0xFFFF_FFFF

  // ---------------------------------------------------------------- little-endian words

  function PutLe(v: uint32): (r: Bytes)
    ensures |r| == 4
  {
    var b := Put32(v);
    [b[3], b[2], b[1], b[0]]
  }

  /** The cast of a length to 32 bits, which keeps the low bits. */
  function Len32(n: nat): uint32 {
    (n % 0x1_0000_0000) as uint32
  }

  function GetLe(b: Bytes): uint32
    requires |b| >= 4
  {
    Get32([b[3], b[2], b[1], b[0]])
  }

  lemma RoundTripLe(v: uint32, b: Bytes)
    ensures GetLe(PutLe(v)) == v
    ensures |b| == 4 ==> PutLe(GetLe(b)) == b
  {
    var word := Put32(v);
    assert [word[0], word[1], word[2], word[3]] == word;
    RoundTrip32(v, []);
    if |b| == 4 {
      var flipped := [b[3], b[2], b[1], b[0]];
      RoundTrip32(0, flipped);
    }
  }

  // ---------------------------------------------------------------- one entry

  /** A length and that many bytes. */
  function EncodeField(x: Bytes): Bytes {
    PutLe(Len32(|x|)) + x
  }

  function EncodeEntry(e: Entry): Bytes {
    EncodeField(e.key) + EncodeField(e.value)
  }

  /** Lengths that the 32-bit fields can carry. */
  predicate Fits(e: Entry) {
    |e.key| <= MAX_UINT32 && |e.value| <= MAX_UINT32
  }

  predicate EachFits(es: seq<Entry>) {
    forall i {:trigger Fits(es[i])} :: 0 <= i < |es| ==> Fits(es[i])
  }

  predicate AllFit(es: seq<Entry>) {
    |es| <= MAX_UINT32 && EachFits(es)
  }

  /** The field at the front and what follows it; None when the bytes run out. */
  function DecodeField(b: Bytes): Option<(Bytes, Bytes)> {
    if |b| < 4 then None
    else
      var k := GetLe(b) as nat;
      if 4 + k > |b| then None else Some((b[4..4 + k], b[4 + k..]))
  }

  function DecodeEntry(b: Bytes): Option<(Entry, Bytes)> {
    match DecodeField(b)
    case None => None
    case Some((key, tail)) =>
      match DecodeField(tail)
      case None => None
      case Some((value, rest)) => Some((Entry(key, value), rest))
  }

  lemma DecodeEncodedField(x: Bytes, rest: Bytes, b: Bytes)
    requires |x| <= MAX_UINT32 && b == EncodeField(x) + rest
    ensures DecodeField(b) == Some((x, rest))
  {
    RoundTripLe(Len32(|x|), []);
    assert b[..4] == PutLe(Len32(|x|));
    assert GetLe(b) == GetLe(b[..4]);
    assert b[4..4 + |x|] == x && b[4 + |x|..] == rest;
  }

  lemma DecodeEncodedEntry(e: Entry, rest: Bytes, b: Bytes)
    requires Fits(e) && b == EncodeEntry(e) + rest
    ensures DecodeEntry(b) == Some((e, rest))
  {
    Regroup(EncodeField(e.key), EncodeField(e.value), rest);
    DecodeEncodedField(e.key, EncodeField(e.value) + rest, b);
    DecodeEncodedField(e.value, rest, EncodeField(e.value) + rest);
  }

  lemma Regroup(a: Bytes, b: Bytes, c: Bytes)
    ensures a + b + c == a + (b + c)
  {
  }

  lemma EncodeDecodedField(b: Bytes, x: Bytes, rest: Bytes)
    requires DecodeField(b) == Some((x, rest))
    ensures |x| <= MAX_UINT32 && EncodeField(x) + rest == b && |rest| + 4 <= |b|
  {
    RoundTripLe(0, b[..4]);
    assert GetLe(b) == GetLe(b[..4]);
    assert b == b[..4] + b[4..4 + |x|] + b[4 + |x|..];
  }

  lemma EncodeDecodedEntry(b: Bytes, e: Entry, rest: Bytes)
    requires DecodeEntry(b) == Some((e, rest))
    ensures Fits(e) && EncodeEntry(e) + rest == b && |rest| + 8 <= |b|
  {
    var (key, tail) := DecodeField(b).value;
    EncodeDecodedField(b, key, tail);
    EncodeDecodedField(tail, e.value, rest);
    Regroup(EncodeField(e.key), EncodeField(e.value), rest);
  }

  // ---------------------------------------------------------------- all entries

  function EncodeEntries(es: seq<Entry>): Bytes {
    if es == [] then [] else EncodeEntry(es[0]) + EncodeEntries(es[1..])
  }

  /** Entries already read, put in front of what the rest decodes to. */
  function InFront(es: seq<Entry>, r: Option<(seq<Entry>, Bytes)>): Option<(seq<Entry>, Bytes)> {
    match r
    case None => None
    case Some((more, rest)) => Some((es + more, rest))
  }

  type Decoder = Bytes -> Option<(Entry, Bytes)>

  function DecodeEntries(decode: Decoder, b: Bytes, n: nat): Option<(seq<Entry>, Bytes)>
    decreases n
  {
    if n == 0 then Some(([], b))
    else
      match decode(b)
      case None => None
      case Some((e, rest)) => InFront([e], DecodeEntries(decode, rest, n - 1))
  }

  lemma DecodeNext(decode: Decoder, b: Bytes, n: nat, e: Entry, rest: Bytes)
    requires n > 0 && decode(b) == Some((e, rest))
    ensures DecodeEntries(decode, b, n) == InFront([e], DecodeEntries(decode, rest, n - 1))
  {
  }

  lemma InFrontTwice(es: seq<Entry>, e: Entry, r: Option<(seq<Entry>, Bytes)>)
    ensures InFront(es, InFront([e], r)) == InFront(es + [e], r) && InFront([], r) == r
  {
    match r
    case None =>
    case Some((more, rest)) => assert es + ([e] + more) == es + [e] + more && [] + more == more;
  }

  /** The decoder reads back what EncodeEntry wrote. */
  ghost predicate Inverts(decode: Decoder) {
    forall e, rest, b :: IsEntry(b, e, rest) ==> decode(b) == Some((e, rest))
  }

  ghost predicate IsEntry(b: Bytes, e: Entry, rest: Bytes) {
    Fits(e) && b == EncodeEntry(e) + rest
  }

  lemma EntryInverts()
    ensures Inverts(DecodeEntry)
  {
    forall e, rest, b | IsEntry(b, e, rest) ensures DecodeEntry(b) == Some((e, rest)) {
      DecodeEncodedEntry(e, rest, b);
    }
  }

  lemma {:induction false} DecodeEncodedEntries(decode: Decoder, es: seq<Entry>, rest: Bytes)
    requires Inverts(decode) && EachFits(es)
    ensures DecodeEntries(decode, EncodeEntries(es) + rest, |es|) == Some((es, rest))
    decreases |es|
  {
    if es == [] {
      assert EncodeEntries(es) + rest == rest;
    } else {
      DecodeEncodedEntries(decode, es[1..], rest);
      FirstIsEntry(es, rest);
      DecodeFirst(decode, EncodeEntries(es) + rest, EncodeEntries(es[1..]) + rest, es, rest);
    }
  }

  lemma FirstIsEntry(es: seq<Entry>, rest: Bytes)
    requires es != [] && EachFits(es)
    ensures IsEntry(EncodeEntries(es) + rest, es[0], EncodeEntries(es[1..]) + rest)
  {
    Regroup(EncodeEntry(es[0]), EncodeEntries(es[1..]), rest);
  }

  lemma DecodeFirst(decode: Decoder, b: Bytes, tail: Bytes, es: seq<Entry>, rest: Bytes)
    requires Inverts(decode) && es != [] && IsEntry(b, es[0], tail)
    requires DecodeEntries(decode, tail, |es| - 1) == Some((es[1..], rest))
    ensures DecodeEntries(decode, b, |es|) == Some((es, rest))
  {
    assert es == [es[0]] + es[1..];
  }

  /** What the decoder reads, EncodeEntry writes back. */
  ghost predicate Reverses(decode: Decoder) {
    forall b :: decode(b).Some? ==> IsEntry(b, decode(b).value.0, decode(b).value.1)
  }

  lemma EntryReverses()
    ensures Reverses(DecodeEntry)
  {
    forall b | DecodeEntry(b).Some? ensures IsEntry(b, DecodeEntry(b).value.0, DecodeEntry(b).value.1) {
      EncodeDecodedEntry(b, DecodeEntry(b).value.0, DecodeEntry(b).value.1);
    }
  }

  lemma {:induction false} EncodeDecodedEntries(decode: Decoder, b: Bytes, n: nat, es: seq<Entry>, rest: Bytes)
    requires Reverses(decode) && DecodeEntries(decode, b, n) == Some((es, rest))
    ensures |es| == n && EachFits(es) && EncodeEntries(es) + rest == b
    decreases n
  {
    if n > 0 {
      var (e, tail) := decode(b).value;
      var (more, _) := DecodeEntries(decode, tail, n - 1).value;
      EncodeDecodedEntries(decode, tail, n - 1, more, rest);
      assert IsEntry(b, e, tail);
      EncodeFirst(e, more, rest, es);
    }
  }

  lemma EncodeFirst(e: Entry, more: seq<Entry>, rest: Bytes, es: seq<Entry>)
    requires Fits(e) && EachFits(more) && es == [e] + more
    ensures EachFits(es) && EncodeEntries(es) + rest == EncodeEntry(e) + (EncodeEntries(more) + rest)
  {
    assert es[1..] == more;
    Regroup(EncodeEntry(e), EncodeEntries(more), rest);
  }

  // ---------------------------------------------------------------- snapshots

  function Payload(es: seq<Entry>): Bytes {
    [VERSION] + PutLe(Len32(|es|)) + EncodeEntries(es)
  }

  function EncodeSnapshot(crc: Checksum, es: seq<Entry>): Bytes {
    Payload(es) + PutLe(crc(Payload(es)))
  }

  /** The entries a payload of this length may announce; the bound itself is cast to 32 bits. */
  function MostEntries(end: nat): nat {
    Len32(end / 8) as nat
  }

  /** What the 32-bit fields can carry: every length, the count, and the count's own bound. */
  predicate Carried(es: seq<Entry>) {
    AllFit(es) && |es| <= MostEntries(|Payload(es)|)
  }

  /** The entry count, if version, checksum and count are acceptable. */
  function DecodeHeader(crc: Checksum, data: Bytes): (n: Option<nat>)
    ensures n.Some? ==> |data| >= 9
  {
    if |data| < 9 then None
    else
      var end := |data| - 4;
      if GetLe(data[end..]) != crc(data[..end]) || data[0] != VERSION then None
      else
        var n := GetLe(data[1..5]) as nat;
        if n > MostEntries(end) then None else Some(n)
  }

  function DecodeBody(data: Bytes, n: nat): Option<seq<Entry>>
    requires |data| >= 9
  {
    match DecodeEntries(DecodeEntry, data[5..|data| - 4], n)
    case None => None
    case Some((es, rest)) => if rest != [] then None else Some(es)
  }

  function DecodeSnapshot(crc: Checksum, data: Bytes): Option<seq<Entry>> {
    match DecodeHeader(crc, data)
    case None => None
    case Some(n) => DecodeBody(data, n)
  }

  lemma {:induction false} EntriesAreLong(es: seq<Entry>)
    ensures |EncodeEntries(es)| >= 8 * |es|
  {
    if es != [] {
      EntriesAreLong(es[1..]);
    }
  }

  /** Where the parts of an encoded snapshot stand. */
  lemma Layout(crc: Checksum, es: seq<Entry>, data: Bytes)
    requires data == EncodeSnapshot(crc, es)
    ensures |data| == |Payload(es)| + 4 && |Payload(es)| >= 5 && data[0] == VERSION
    ensures data[..|data| - 4] == Payload(es) && data[|data| - 4..] == PutLe(crc(Payload(es)))
    ensures data[1..5] == PutLe(Len32(|es|)) && data[5..|data| - 4] == EncodeEntries(es)
  {
    var head, body := PutLe(Len32(|es|)), EncodeEntries(es);
    assert Payload(es)[1..5] == head && Payload(es)[5..] == body;
  }

  lemma DecodeCarried(crc: Checksum, es: seq<Entry>)
    requires Carried(es)
    ensures DecodeSnapshot(crc, EncodeSnapshot(crc, es)) == Some(es)
  {
    var data := EncodeSnapshot(crc, es);
    HeaderOfCarried(crc, es, data);
    BodyOfCarried(crc, es, data);
  }

  lemma HeaderOfCarried(crc: Checksum, es: seq<Entry>, data: Bytes)
    requires Carried(es) && data == EncodeSnapshot(crc, es)
    ensures DecodeHeader(crc, data) == Some(|es|)
  {
    Layout(crc, es, data);
    RoundTripLe(crc(Payload(es)), []);
    RoundTripLe(Len32(|es|), []);
  }

  lemma BodyOfCarried(crc: Checksum, es: seq<Entry>, data: Bytes)
    requires AllFit(es) && data == EncodeSnapshot(crc, es) && |data| >= 9
    ensures DecodeBody(data, |es|) == Some(es)
  {
    Layout(crc, es, data);
    assert EncodeEntries(es) + [] == EncodeEntries(es);
    EntryInverts();
    DecodeEncodedEntries(DecodeEntry, es, []);
  }

  /** Decoding an encoded snapshot returns its entries exactly when the 32-bit fields can carry them. */
  lemma DecodeEncodedSnapshot(crc: Checksum, es: seq<Entry>)
    ensures DecodeSnapshot(crc, EncodeSnapshot(crc, es)) == Some(es) <==> Carried(es)
  {
    if Carried(es) {
      DecodeCarried(crc, es);
    } else {
      DecodedIsCarried(crc, es, EncodeSnapshot(crc, es));
    }
  }

  lemma DecodedIsCarried(crc: Checksum, es: seq<Entry>, data: Bytes)
    requires data == EncodeSnapshot(crc, es)
    ensures DecodeSnapshot(crc, data) == Some(es) ==> Carried(es)
  {
    if DecodeSnapshot(crc, data) == Some(es) {
      var n := DecodeHeader(crc, data).value;
      HeaderBounds(crc, data, n);
      BodyLength(data, n, es);
    }
  }

  lemma HeaderBounds(crc: Checksum, data: Bytes, n: nat)
    requires DecodeHeader(crc, data) == Some(n)
    ensures |data| >= 9 && n <= MAX_UINT32 && n <= MostEntries(|data| - 4)
  {
  }

  lemma BodyLength(data: Bytes, n: nat, es: seq<Entry>)
    requires |data| >= 9 && n <= MAX_UINT32 && DecodeBody(data, n) == Some(es)
    ensures AllFit(es) && |es| == n
  {
    DecodedPayload(data[5..|data| - 4], n, es);
  }

  /** In particular every snapshot below 32 GiB with 32-bit lengths survives the round trip. */
  lemma SmallIsCarried(es: seq<Entry>)
    requires AllFit(es) && |Payload(es)| < 0x8_0000_0000
    ensures Carried(es)
  {
    EntriesAreLong(es);
  }

  function Copies(e: Entry, n: nat): seq<Entry> {
    if n == 0 then [] else [e] + Copies(e, n - 1)
  }

  lemma {:induction false} CopiesLength(e: Entry, n: nat, w: nat)
    requires w == |EncodeEntry(e)|
    ensures |Copies(e, n)| == n && |EncodeEntries(Copies(e, n))| == n * w
    ensures forall i :: 0 <= i < n ==> Copies(e, n)[i] == e
  {
    if n > 0 {
      CopiesLength(e, n - 1, w);
      assert Copies(e, n)[1..] == Copies(e, n - 1);
      assert EncodeEntries(Copies(e, n)) == EncodeEntry(e) + EncodeEntries(Copies(e, n - 1));
      assert n * w == (n - 1) * w + w;
    }
  }

  lemma ManyLargeValues(e: Entry, n: nat, es: seq<Entry>)
    requires e.key == [] && |e.value| == 0xFFFF_FFF8 && n == 8 && es == Copies(e, n)
    ensures AllFit(es) && !Carried(es)
  {
    CopiesLength(e, n, 0x1_0000_0000);
    PayloadLength(es);
    assert MostEntries(5 + n * 0x1_0000_0000) == 0;
  }

  lemma PayloadLength(es: seq<Entry>)
    ensures |Payload(es)| == 5 + |EncodeEntries(es)|
  {
  }

  /** 32-bit lengths alone are not enough: eight values of 2^32 - 8 bytes are written but not read back. */
  lemma LargeSnapshotIsRefused(crc: Checksum, e: Entry, es: seq<Entry>)
    requires e == Entry([], seq(0xFFFF_FFF8, _ => 0)) && es == Copies(e, 8)
    ensures AllFit(es) && DecodeSnapshot(crc, EncodeSnapshot(crc, es)) != Some(es)
  {
    ManyLargeValues(e, 8, es);
    DecodeEncodedSnapshot(crc, es);
  }

  lemma PayloadParts(payload: Bytes, es: seq<Entry>)
    requires |payload| >= 5 && payload[0] == VERSION && AllFit(es) && GetLe(payload[1..5]) as nat == |es|
    requires payload[5..] == EncodeEntries(es)
    ensures Payload(es) == payload
  {
    CountWord(payload[1..5], |es|);
    ThreeParts(payload);
  }

  lemma CountWord(word: Bytes, n: nat)
    requires |word| == 4 && GetLe(word) as nat == n
    ensures PutLe(Len32(n)) == word
  {
    RoundTripLe(0, word);
    assert Len32(n) == GetLe(word);
  }

  lemma ThreeParts(b: Bytes)
    requires |b| >= 5
    ensures b == [b[0]] + b[1..5] + b[5..]
  {
  }

  lemma DecodedPayload(payload: Bytes, n: nat, es: seq<Entry>)
    requires n <= MAX_UINT32 && DecodeEntries(DecodeEntry, payload, n) == Some((es, []))
    ensures AllFit(es) && |es| == n && EncodeEntries(es) == payload
  {
    EntryReverses();
    EncodeDecodedEntries(DecodeEntry, payload, n, es, []);
    assert EncodeEntries(es) + [] == EncodeEntries(es);
  }

  /** Every byte string that decodes is the encoding of what it decodes to. */
  lemma EncodeDecodedSnapshot(crc: Checksum, data: Bytes, es: seq<Entry>)
    requires DecodeSnapshot(crc, data) == Some(es)
    ensures AllFit(es) && EncodeSnapshot(crc, es) == data
  {
    var end := |data| - 4;
    var payload := data[..end];
    DecodedPayload(data[5..end], GetLe(data[1..5]) as nat, es);
    assert payload[1..5] == data[1..5] && payload[5..] == data[5..end];
    PayloadParts(payload, es);
    RoundTripLe(0, data[end..]);
    assert data == payload + data[end..];
  }

  // ---------------------------------------------------------------- the loops

  method SerializeSnapshot(crc: Checksum, es: seq<Entry>) returns (buf: Bytes)
    ensures buf == EncodeSnapshot(crc, es)
  {
    buf := [VERSION] + PutLe(Len32(|es|));
    ghost var head := buf;
    for i := 0 to |es|
      invariant buf == head + EncodeEntries(es[..i])
    {
      EncodeOneMore(es, i);
      Appended(buf, es[i]);
      buf := buf + PutLe(Len32(|es[i].key|)) + es[i].key;
      buf := buf + PutLe(Len32(|es[i].value|)) + es[i].value;
    }
    assert es[..|es|] == es;
    buf := buf + PutLe(crc(buf));
  }

  lemma Appended(buf: Bytes, e: Entry)
    ensures buf + PutLe(Len32(|e.key|)) + e.key + PutLe(Len32(|e.value|)) + e.value == buf + EncodeEntry(e)
  {
  }

  lemma {:induction false} EncodeOneMore(es: seq<Entry>, i: nat)
    requires i < |es|
    ensures EncodeEntries(es[..i + 1]) == EncodeEntries(es[..i]) + EncodeEntry(es[i])
    decreases i
  {
    if i == 0 {
      assert es[..1] == [es[0]] && es[..1][1..] == [];
    } else {
      EncodeOneMore(es[1..], i - 1);
      assert es[..i + 1][1..] == es[1..][..i] && es[..i][1..] == es[1..][..i - 1];
      Regroup(EncodeEntry(es[0]), EncodeEntries(es[1..][..i - 1]), EncodeEntry(es[i]));
    }
  }

  /** Reads the field at `pos`, stopping where the payload runs out. */
  method ReadField(data: Bytes, pos: nat, end: nat) returns (x: Bytes, next: nat, ok: bool)
    requires pos <= end <= |data|
    ensures ok <==> DecodeField(data[pos..end]).Some?
    ensures ok ==> pos < next <= end && DecodeField(data[pos..end]) == Some((x, data[next..end]))
  {
    x, next := [], pos;
    if pos + 4 > end {
      return x, next, false;
    }
    var k := GetLe(data[pos..pos + 4]) as nat;
    assert GetLe(data[pos..end]) == GetLe(data[pos..pos + 4]);
    if pos + 4 + k > end {
      return x, next, false;
    }
    x, next, ok := data[pos + 4..pos + 4 + k], pos + 4 + k, true;
    SliceOfSlice(data, pos, end, 4, 4 + k);
    SliceOfSlice(data, pos, end, 4 + k, end - pos);
  }

  method ReadEntry(data: Bytes, pos: nat, end: nat) returns (e: Entry, next: nat, ok: bool)
    requires pos <= end <= |data|
    ensures ok <==> DecodeEntry(data[pos..end]).Some?
    ensures ok ==> pos < next <= end && DecodeEntry(data[pos..end]) == Some((e, data[next..end]))
  {
    e := Entry([], []);
    var key, value;
    key, next, ok := ReadField(data, pos, end);
    if !ok {
      return;
    }
    value, next, ok := ReadField(data, next, end);
    e := Entry(key, value);
  }

  lemma SliceOfSlice(data: Bytes, pos: nat, end: nat, i: nat, j: nat)
    requires pos <= end <= |data| && i <= j <= end - pos
    ensures data[pos..end][i..j] == data[pos + i..pos + j]
  {
    var a, b := data[pos..end][i..j], data[pos + i..pos + j];
    forall k | 0 <= k < |a| ensures a[k] == b[k] {
      assert a[k] == data[pos..end][i + k] == data[pos + (i + k)];
    }
    assert a == b;
  }

  method ReadEntries(data: Bytes, end: nat, n: nat) returns (es: seq<Entry>, pos: nat, ok: bool)
    requires 5 <= end <= |data|
    ensures ok <==> DecodeEntries(DecodeEntry, data[5..end], n).Some?
    ensures ok ==> pos <= end && DecodeEntries(DecodeEntry, data[5..end], n) == Some((es, data[pos..end]))
  {
    es, pos := [], 5;
    InFrontTwice([], Entry([], []), DecodeEntries(DecodeEntry, data[5..end], n));
    for i := 0 to n
      invariant 5 <= pos <= end
      invariant DecodeEntries(DecodeEntry, data[5..end], n)
        == InFront(es, DecodeEntries(DecodeEntry, data[pos..end], n - i))
    {
      var e, next, good := ReadEntry(data, pos, end);
      if !good {
        return es, pos, false;
      }
      DecodeNext(DecodeEntry, data[pos..end], n - i, e, data[next..end]);
      InFrontTwice(es, e, DecodeEntries(DecodeEntry, data[next..end], n - i - 1));
      es, pos := es + [e], next;
    }
    assert es + [] == es;
    ok := true;
  }

  method CheckHeader(crc: Checksum, data: Bytes) returns (n: Option<nat>)
    ensures n == DecodeHeader(crc, data)
  {
    if |data| < 9 {
      return None;
    }
    var end := |data| - 4;
    if GetLe(data[end..]) != crc(data[..end]) || data[0] != VERSION {
      return None;
    }
    var count := GetLe(data[1..5]) as nat;
    if count > MostEntries(end) {
      return None;
    }
    return Some(count);
  }

  method DeserializeSnapshot(crc: Checksum, data: Bytes) returns (r: Option<seq<Entry>>)
    ensures r == DecodeSnapshot(crc, data)
  {
    var n := CheckHeader(crc, data);
    if n == None {
      return None;
    }
    var es, pos, ok := ReadEntries(data, |data| - 4, n.value);
    if !ok || pos != |data| - 4 {
      return None;
    }
    return Some(es);
  }
}
