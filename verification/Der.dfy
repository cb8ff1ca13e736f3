/**
 The subset of DER the channel-binding code reads and writes: tags in low and
 high form, definite minimal lengths and base-128 object identifiers (sections
 8.1.2, 8.1.3, 8.19 and 10.1 of ITU-T X.690), with the reader's size limits.
 */
module Der {
  import opened Common

  datatype Parsed<+T> = Bad | Good(value: T, rest: Bytes)

  datatype Tlv = Tlv(cls: nat, compound: bool, tag: nat, body: Bytes)

  const MAX_INT: nat := 0x7fff_ffff

  // ----- reading -----

  function Base128(b: Bytes, shifted: nat, acc: nat): (r: Parsed<nat>)
    ensures r.Good? ==> |r.rest| < |b|
    decreases |b|
  {
    if b == [] || shifted == 5 || (shifted == 0 && b[0] == 0x80) then Bad
    else
      var acc' := acc * 128 + b[0] as nat % 128;
      if b[0] >= 128 then Base128(b[1..], shifted + 1, acc')
      else if acc' > MAX_INT then Bad
      else Good(acc', b[1..])
  }

  // The k bytes of a long length.
  function LengthBytes(b: Bytes, k: nat, acc: nat): (r: Parsed<nat>)
    ensures r.Good? ==> |r.rest| <= |b|
    decreases k
  {
    if k == 0 then (if acc < 128 then Bad else Good(acc, b))
    else if b == [] || acc >= 0x80_0000 then Bad
    else
      var acc' := acc * 256 + b[0] as nat;
      if acc' == 0 then Bad else LengthBytes(b[1..], k - 1, acc')
  }

  function ParseLength(b: Bytes): (r: Parsed<nat>)
    ensures r.Good? ==> |r.rest| < |b|
  {
    if b == [] then Bad
    else if b[0] < 128 then Good(b[0] as nat, b[1..])
    else if b[0] == 128 then Bad
    else LengthBytes(b[1..], b[0] as nat - 128, 0)
  }

  // The tag number and what follows it.
  function ParseTag(b: Bytes): (r: Parsed<nat>)
    ensures r.Good? ==> |r.rest| < |b|
  {
    if b == [] then Bad
    else if b[0] % 32 != 31 then Good(b[0] as nat % 32, b[1..])
    else
      match Base128(b[1..], 0, 0)
      case Bad => Bad
      case Good(tag, rest) => if tag < 31 then Bad else Good(tag, rest)
  }

  function ParseTlv(b: Bytes): (r: Parsed<Tlv>)
    ensures r.Good? ==> |r.rest| < |b| && |r.value.body| <= |b|
  {
    match ParseTag(b)
    case Bad => Bad
    case Good(tag, afterTag) =>
      match ParseLength(afterTag)
      case Bad => Bad
      case Good(n, rest) =>
        if |rest| < n then Bad
        else Good(Tlv(b[0] as nat / 64, b[0] as nat / 32 % 2 == 1, tag, rest[..n]), rest[n..])
  }

  function Arcs(b: Bytes): (r: Option<seq<nat>>)
    decreases |b|
  {
    if b == [] then Some([])
    else
      match Base128(b, 0, 0)
      case Bad => None
      case Good(arc, rest) => if Arcs(rest).None? then None else Some([arc] + Arcs(rest).value)
  }

  function SplitFirst(v: nat): seq<nat> { if v < 80 then [v / 40, v % 40] else [2, v - 80] }

  // A universal, primitive object identifier at the front of b.
  function ParseOid(b: Bytes): Parsed<seq<nat>> {
    match ParseTlv(b)
    case Bad => Bad
    case Good(t, rest) =>
      if t.cls != 0 || t.compound || t.tag != 6 || t.body == [] then Bad
      else
        match Arcs(t.body)
        case None => Bad
        case Some(arcs) => if arcs == [] then Bad else Good(SplitFirst(arcs[0]) + arcs[1..], rest)
  }

  // ----- writing -----

  function High128(n: nat): Bytes { if n == 0 then [] else High128(n / 128) + [(128 + n % 128) as byte] }

  function EncodeBase128(n: nat): Bytes { High128(n / 128) + [(n % 128) as byte] }

  function BigEndian(n: nat): Bytes { if n == 0 then [] else BigEndian(n / 256) + [(n % 256) as byte] }

  function EncodeLength(n: nat): Bytes
    requires n <= MAX_INT
  {
    BigEndianShort(n);
    if n < 128 then [n as byte] else [(128 + |BigEndian(n)|) as byte] + BigEndian(n)
  }

  // An element the reader's size limits allow.
  predicate Encodable(t: Tlv) { t.cls < 4 && t.tag <= MAX_INT && |t.body| <= MAX_INT }

  // The low form up to 30, and above that the high form.
  function EncodeTag(cls: nat, compound: bool, tag: nat): Bytes
    requires cls < 4
  {
    var head := cls * 64 + if compound then 32 else 0;
    if tag < 31 then [(head + tag) as byte] else [(head + 31) as byte] + EncodeBase128(tag)
  }

  function EncodeTlv(t: Tlv): Bytes
    requires Encodable(t)
  {
    EncodeTag(t.cls, t.compound, t.tag) + EncodeLength(|t.body|) + t.body
  }

  function EncodeArcs(arcs: seq<nat>): Bytes {
    if arcs == [] then [] else EncodeBase128(arcs[0]) + EncodeArcs(arcs[1..])
  }

  predicate ValidOid(oid: seq<nat>) {
    && |oid| >= 2 && oid[0] <= 2 && (oid[0] < 2 ==> oid[1] < 40) && oid[0] * 40 + oid[1] <= MAX_INT
    && forall i :: 2 <= i < |oid| ==> oid[i] <= MAX_INT
  }

  function EncodeOidBody(oid: seq<nat>): Bytes
    requires ValidOid(oid)
  {
    EncodeArcs([oid[0] * 40 + oid[1]] + oid[2..])
  }

  // ----- sizes -----

  lemma BigEndianShort(n: nat)
    requires n <= MAX_INT
    ensures |BigEndian(n)| <= 4
  {
    assert BigEndian(n) != [] ==> |BigEndian(n)| == |BigEndian(n / 256)| + 1;
    assert |BigEndian(n / 256)| <= 3 by {
      assert n / 256 < 0x80_0000 && n / 256 / 256 < 0x8000 && n / 256 / 256 / 256 < 128;
      assert BigEndian(n / 256 / 256 / 256 / 256) == [];
      assert |BigEndian(n / 256 / 256 / 256)| <= 1 && |BigEndian(n / 256 / 256)| <= 2;
    }
  }

  // ----- what follows an element does not change how it reads -----

  lemma {:induction false} Base128Prefix(b: Bytes, z: Bytes, shifted: nat, acc: nat)
    requires Base128(b, shifted, acc).Good?
    ensures Base128(b + z, shifted, acc) == Good(Base128(b, shifted, acc).value, Base128(b, shifted, acc).rest + z)
    decreases |b|
  {
    assert (b + z)[1..] == b[1..] + z;
    if b[0] >= 128 { Base128Prefix(b[1..], z, shifted + 1, acc * 128 + b[0] as nat % 128); }
  }

  lemma {:induction false} LengthBytesPrefix(b: Bytes, z: Bytes, k: nat, acc: nat)
    requires LengthBytes(b, k, acc).Good?
    ensures LengthBytes(b + z, k, acc) == Good(LengthBytes(b, k, acc).value, LengthBytes(b, k, acc).rest + z)
    decreases k
  {
    if k > 0 {
      assert (b + z)[1..] == b[1..] + z;
      LengthBytesPrefix(b[1..], z, k - 1, acc * 256 + b[0] as nat);
    }
  }

  lemma TagPrefix(b: Bytes, z: Bytes)
    requires ParseTag(b).Good?
    ensures ParseTag(b + z) == Good(ParseTag(b).value, ParseTag(b).rest + z)
  {
    assert (b + z)[1..] == b[1..] + z;
    if b[0] % 32 == 31 { Base128Prefix(b[1..], z, 0, 0); }
  }

  lemma LengthPrefix(b: Bytes, z: Bytes)
    requires ParseLength(b).Good?
    ensures ParseLength(b + z) == Good(ParseLength(b).value, ParseLength(b).rest + z)
  {
    assert (b + z)[1..] == b[1..] + z;
    if b[0] > 128 { LengthBytesPrefix(b[1..], z, b[0] as nat - 128, 0); }
  }

  lemma TlvPrefix(b: Bytes, z: Bytes)
    requires ParseTlv(b).Good?
    ensures ParseTlv(b + z) == Good(ParseTlv(b).value, ParseTlv(b).rest + z)
  {
    var afterTag := ParseTag(b).rest;
    TagPrefix(b, z);
    LengthPrefix(afterTag, z);
    var n, rest := ParseLength(afterTag).value, ParseLength(afterTag).rest;
    assert (rest + z)[..n] == rest[..n] && (rest + z)[n..] == rest[n..] + z;
  }

  // ----- reading undoes writing -----

  lemma {:induction false} High128Reads(m: nat, tail: Bytes)
    requires m < 0x1000_0000
    ensures |High128(m)| <= 4
    ensures Base128(High128(m) + tail, 0, 0) == Base128(tail, |High128(m)|, m)
  {
    HighLength(m);
    if m == 0 {
      assert High128(m) + tail == tail;
    } else {
      var last := (128 + m % 128) as byte;
      High128Reads(m / 128, [last] + tail);
      HighLength(m / 128);
      assert High128(m) + tail == High128(m / 128) + ([last] + tail);
      assert ([last] + tail)[1..] == tail;
    }
  }

  lemma HighLength(m: nat)
    requires m < 0x1000_0000
    ensures |High128(m)| <= 4 && (m < 0x20_0000 ==> |High128(m)| <= 3) && (High128(m) == [] <==> m == 0)
  {
    assert m / 128 / 128 / 128 / 128 == 0;
    assert High128(m / 128 / 128 / 128 / 128) == [];
    assert |High128(m / 128 / 128 / 128)| <= 1 && |High128(m / 128 / 128)| <= 2 && |High128(m / 128)| <= 3;
  }

  lemma Base128RoundTrip(n: nat, rest: Bytes)
    requires n <= MAX_INT
    ensures Base128(EncodeBase128(n) + rest, 0, 0) == Good(n, rest)
  {
    var tail := [(n % 128) as byte] + rest;
    assert EncodeBase128(n) + rest == High128(n / 128) + tail;
    High128Reads(n / 128, tail);
    assert tail[1..] == rest;
  }

  lemma {:induction false} BigEndianReads(n: nat, k: nat, tail: Bytes)
    requires n <= MAX_INT
    ensures LengthBytes(BigEndian(n) + tail, |BigEndian(n)| + k, 0) == LengthBytes(tail, k, n)
  {
    if n == 0 {
      assert BigEndian(n) + tail == tail;
    } else {
      var last := (n % 256) as byte;
      BigEndianReads(n / 256, k + 1, [last] + tail);
      assert BigEndian(n) + tail == BigEndian(n / 256) + ([last] + tail);
      assert ([last] + tail)[1..] == tail;
    }
  }

  lemma LengthRoundTrip(n: nat, rest: Bytes)
    requires n <= MAX_INT
    ensures ParseLength(EncodeLength(n) + rest) == Good(n, rest)
  {
    BigEndianShort(n);
    var b := EncodeLength(n) + rest;
    if n < 128 {
      assert b[1..] == rest;
    } else {
      assert b[1..] == BigEndian(n) + rest;
      BigEndianReads(n, 0, rest);
      assert BigEndian(n) != [];
    }
  }

  lemma TagRoundTrip(cls: nat, compound: bool, tag: nat, rest: Bytes)
    requires cls < 4 && tag <= MAX_INT
    ensures var b := EncodeTag(cls, compound, tag) + rest;
            && ParseTag(b) == Good(tag, rest)
            && b[0] as nat / 64 == cls && (b[0] as nat / 32 % 2 == 1 <==> compound)
  {
    var b := EncodeTag(cls, compound, tag) + rest;
    if tag < 31 {
      assert b[1..] == rest;
    } else {
      assert b[1..] == EncodeBase128(tag) + rest;
      Base128RoundTrip(tag, rest);
    }
  }

  // For every class, tag and body, short or long.
  lemma TlvRoundTrip(t: Tlv, rest: Bytes)
    requires Encodable(t)
    ensures ParseTlv(EncodeTlv(t) + rest) == Good(t, rest)
  {
    var tail := EncodeLength(|t.body|) + (t.body + rest);
    assert EncodeTlv(t) + rest == EncodeTag(t.cls, t.compound, t.tag) + tail;
    TagRoundTrip(t.cls, t.compound, t.tag, tail);
    LengthRoundTrip(|t.body|, t.body + rest);
    assert (t.body + rest)[..|t.body|] == t.body && (t.body + rest)[|t.body|..] == rest;
  }

  lemma {:induction false} ArcsRoundTrip(arcs: seq<nat>)
    requires forall i :: 0 <= i < |arcs| ==> arcs[i] <= MAX_INT
    ensures Arcs(EncodeArcs(arcs)) == Some(arcs)
  {
    if arcs != [] {
      Base128RoundTrip(arcs[0], EncodeArcs(arcs[1..]));
      ArcsRoundTrip(arcs[1..]);
      assert EncodeArcs(arcs) != [] && [arcs[0]] + arcs[1..] == arcs;
    }
  }

  function OidTlv(oid: seq<nat>): Tlv
    requires ValidOid(oid)
  {
    Tlv(0, false, 6, EncodeOidBody(oid))
  }

  // The first two arcs share one number.
  lemma SplitFirstExactly(v: nat)
    ensures var p := SplitFirst(v);
            |p| == 2 && p[0] <= 2 && (p[0] < 2 ==> p[1] < 40) && p[0] * 40 + p[1] == v
  {
  }

  lemma JoinFirst(a: nat, b: nat)
    requires a <= 2 && (a < 2 ==> b < 40)
    ensures SplitFirst(a * 40 + b) == [a, b]
  {
  }

  lemma OidRoundTrip(oid: seq<nat>, rest: Bytes)
    requires ValidOid(oid) && Encodable(OidTlv(oid))
    ensures ParseOid(EncodeTlv(OidTlv(oid)) + rest) == Good(oid, rest)
  {
    var arcs := [oid[0] * 40 + oid[1]] + oid[2..];
    TlvRoundTrip(OidTlv(oid), rest);
    ArcsRoundTrip(arcs);
    assert EncodeArcs(arcs) != [];
    JoinFirst(oid[0], oid[1]);
    assert arcs[1..] == oid[2..] && [oid[0], oid[1]] + oid[2..] == oid;
  }

  lemma {:induction false} ArcsShort(arcs: seq<nat>)
    requires forall i :: 0 <= i < |arcs| ==> arcs[i] <= MAX_INT
    ensures |EncodeArcs(arcs)| <= 5 * |arcs|
  {
    if arcs != [] {
      HighLength(arcs[0] / 128);
      ArcsShort(arcs[1..]);
    }
  }

  // ----- only what is written so is read -----

  lemma {:induction false} Base128Writes(b: Bytes, shifted: nat, acc: nat)
    requires Base128(b, shifted, acc).Good? && (shifted == 0 <==> acc == 0)
    ensures var r := Base128(b, shifted, acc);
            r.value <= MAX_INT && High128(acc) + b == EncodeBase128(r.value) + r.rest
    decreases |b|
  {
    var acc' := acc * 128 + b[0] as nat % 128;
    assert b == [b[0]] + b[1..] && acc' / 128 == acc && acc' % 128 == b[0] as nat % 128;
    if b[0] >= 128 {
      assert High128(acc') == High128(acc) + [b[0]];
      Base128Writes(b[1..], shifted + 1, acc');
      assert High128(acc) + b == High128(acc') + b[1..];
    } else {
      assert High128(acc) + b == EncodeBase128(acc') + b[1..];
    }
  }

  lemma {:induction false} LengthBytesWrites(b: Bytes, k: nat, acc: nat)
    requires LengthBytes(b, k, acc).Good? && acc <= MAX_INT
    ensures var r := LengthBytes(b, k, acc);
            && 128 <= r.value <= MAX_INT && BigEndian(acc) + b == BigEndian(r.value) + r.rest
            && |BigEndian(r.value)| == |BigEndian(acc)| + k
    decreases k
  {
    if k > 0 {
      var acc' := acc * 256 + b[0] as nat;
      assert b == [b[0]] + b[1..] && acc' / 256 == acc && acc' % 256 == b[0] as nat;
      assert BigEndian(acc') == BigEndian(acc) + [b[0]];
      LengthBytesWrites(b[1..], k - 1, acc');
      assert BigEndian(acc) + b == BigEndian(acc') + b[1..];
    }
  }

  lemma LengthWrites(b: Bytes)
    requires ParseLength(b).Good?
    ensures ParseLength(b).value <= MAX_INT && b == EncodeLength(ParseLength(b).value) + ParseLength(b).rest
  {
    assert b == [b[0]] + b[1..];
    if b[0] > 128 {
      LengthBytesWrites(b[1..], b[0] as nat - 128, 0);
      assert BigEndian(0) + b[1..] == b[1..];
    }
  }

  lemma TagWrites(b: Bytes)
    requires ParseTag(b).Good?
    ensures ParseTag(b).value <= MAX_INT
    ensures b == EncodeTag(b[0] as nat / 64, b[0] as nat / 32 % 2 == 1, ParseTag(b).value) + ParseTag(b).rest
  {
    assert b == [b[0]] + b[1..];
    if b[0] % 32 == 31 {
      Base128Writes(b[1..], 0, 0);
      assert High128(0) + b[1..] == b[1..];
    }
  }

  lemma TlvWrites(b: Bytes, t: Tlv, rest: Bytes)
    requires ParseTlv(b) == Good(t, rest)
    ensures Encodable(t) && b == EncodeTlv(t) + rest
  {
    var afterTag := ParseTag(b).rest;
    TagWrites(b);
    LengthWrites(afterTag);
    assert ParseLength(afterTag).rest == t.body + rest;
    Reassociate(EncodeTag(t.cls, t.compound, t.tag), EncodeLength(|t.body|), t.body, rest);
  }

  lemma Reassociate(a: Bytes, b: Bytes, c: Bytes, d: Bytes)
    ensures a + (b + (c + d)) == (a + b + c) + d
  {
  }

  // An element is read if and only if the bytes start with its one encoding.
  lemma TlvExactly(b: Bytes, t: Tlv, rest: Bytes)
    ensures ParseTlv(b) == Good(t, rest) <==> Encodable(t) && b == EncodeTlv(t) + rest
  {
    if ParseTlv(b) == Good(t, rest) { TlvWrites(b, t, rest); }
    if Encodable(t) && b == EncodeTlv(t) + rest { TlvRoundTrip(t, rest); }
  }

  lemma {:induction false} ArcsWrites(b: Bytes)
    requires Arcs(b).Some?
    ensures b == EncodeArcs(Arcs(b).value) && forall i :: 0 <= i < |Arcs(b).value| ==> Arcs(b).value[i] <= MAX_INT
    decreases |b|
  {
    if b != [] {
      var one := Base128(b, 0, 0);
      Base128Writes(b, 0, 0);
      assert High128(0) + b == b;
      ArcsWrites(one.rest);
      assert Arcs(b).value[0] == one.value && Arcs(b).value[1..] == Arcs(one.rest).value;
    }
  }

  // An object identifier is read if and only if the bytes start with its one encoding.
  lemma OidExactly(b: Bytes, oid: seq<nat>, rest: Bytes)
    ensures ParseOid(b) == Good(oid, rest) <==>
            ValidOid(oid) && Encodable(OidTlv(oid)) && b == EncodeTlv(OidTlv(oid)) + rest
  {
    if ParseOid(b) == Good(oid, rest) {
      var t := ParseTlv(b).value;
      var arcs := Arcs(t.body).value;
      TlvExactly(b, t, rest);
      ArcsWrites(t.body);
      SplitFirstExactly(arcs[0]);
      assert oid[..2] == SplitFirst(arcs[0]) && oid[2..] == arcs[1..];
      assert [oid[0] * 40 + oid[1]] + oid[2..] == arcs;
      assert t == OidTlv(oid);
    }
    if ValidOid(oid) && Encodable(OidTlv(oid)) && b == EncodeTlv(OidTlv(oid)) + rest { OidRoundTrip(oid, rest); }
  }
}
