/** RFC 9266 channel binding: the CSR attribute walker, its printer, and the check. */
module ChannelBinding {
  import opened Common
  import opened Der

  const EXPORTER_LENGTH: nat := 32
  const TLS_EXPORTER: seq<nat> := [1, 2, 840, 113549, 1, 9, 16, 2, 56]
  const CMC_BINDING: seq<nat> := [1, 2, 840, 113549, 1, 9, 16, 2, 43]

  const OCTET_STRING: nat := 4
  const SEQUENCE: nat := 16
  const SET: nat := 17

  // Misshapen is the error for a binding of the wrong shape, which wraps
  // ErrChannelBindingMissing; Failed is every other error.
  datatype Walk = Failed | Misshapen | Absent | Found(value: Bytes)

  // ----- the walker as a function -----

  // The value inside SET { OCTET STRING }; None unless it is 32 bytes in shape.
  function BindingValue(b: Bytes): Option<Bytes> {
    match ParseTlv(b)
    case Bad => None
    case Good(wrap, _) =>
      if wrap.tag != SET then None
      else
        match ParseTlv(wrap.body)
        case Bad => None
        case Good(octet, _) =>
          if octet.tag != OCTET_STRING || |octet.body| != EXPORTER_LENGTH then None else Some(octet.body)
  }

  predicate Bears(t: Tlv) {
    t.tag == SEQUENCE && match ParseOid(t.body)
                         case Bad => false
                         case Good(oid, _) => oid == TLS_EXPORTER || oid == CMC_BINDING
  }

  function ValueOf(t: Tlv): Walk
    requires Bears(t)
  {
    match BindingValue(ParseOid(t.body).rest)
    case None => Misshapen
    case Some(v) => Found(v)
  }

  function WalkAttributes(b: Bytes): Walk
    decreases |b|
  {
    if b == [] then Absent
    else
      match ParseTlv(b)
      case Bad => Failed
      case Good(t, rest) => if Bears(t) then ValueOf(t) else WalkAttributes(rest)
  }

  // The rest of b after n elements.
  function Skip(b: Bytes, n: nat): Option<Bytes>
    decreases n
  {
    if n == 0 then Some(b)
    else
      match ParseTlv(b)
      case Bad => None
      case Good(_, rest) => Skip(rest, n - 1)
  }

  // The attributes field of a request, if the request can be read so far.
  datatype Header = Broken | NoField | Field(attrs: Bytes)

  function Locate(tbs: Bytes): Header {
    match ParseTlv(tbs)
    case Bad => Broken
    case Good(outer, trailing) =>
      if trailing != [] || outer.tag != SEQUENCE then Broken
      else
        match Skip(outer.body, 3)
        case None => Broken
        case Some(rest) =>
          match ParseTlv(rest)
          case Bad => NoField
          case Good(field, _) => if field.cls != 2 || field.tag != 0 then NoField else Field(field.body)
  }

  function WalkRequest(tbs: Bytes): Walk {
    match Locate(tbs)
    case Broken => Failed
    case NoField => Absent
    case Field(attrs) => WalkAttributes(attrs)
  }

  // ----- the walker as the program it is -----

  method WalkLoop(field: Bytes) returns (w: Walk)
    ensures w == WalkAttributes(field)
  {
    var attrs := field;
    while attrs != []
      invariant WalkAttributes(attrs) == WalkAttributes(field)
      decreases |attrs|
    {
      var one := ParseTlv(attrs);
      if one.Bad? { return Failed; }
      attrs := one.rest;
      if one.value.tag != SEQUENCE { continue; }
      var oid := ParseOid(one.value.body);
      if oid.Bad? { continue; }
      if oid.value != TLS_EXPORTER && oid.value != CMC_BINDING { continue; }
      var wrap := ParseTlv(oid.rest);
      if wrap.Bad? || wrap.value.tag != SET { return Misshapen; }
      var octet := ParseTlv(wrap.value.body);
      if octet.Bad? || octet.value.tag != OCTET_STRING || |octet.value.body| != EXPORTER_LENGTH {
        return Misshapen;
      }
      return Found(octet.value.body);
    }
    return Absent;
  }

  method SkipFields(body: Bytes, n: nat) returns (r: Option<Bytes>)
    ensures r == Skip(body, n)
  {
    var rest := body;
    for i := 0 to n
      invariant Skip(body, n) == Skip(rest, n - i)
    {
      var field := ParseTlv(rest);
      if field.Bad? { return None; }
      rest := field.rest;
    }
    return Some(rest);
  }

  method WalkCSR(tbs: Bytes) returns (w: Walk)
    ensures w == WalkRequest(tbs)
  {
    var outer := ParseTlv(tbs);
    if outer.Bad? || outer.rest != [] || outer.value.tag != SEQUENCE { return Failed; }
    var rest := SkipFields(outer.value.body, 3);
    if rest.None? { return Failed; }
    var attrs := ParseTlv(rest.value);
    if attrs.Bad? || attrs.value.cls != 2 || attrs.value.tag != 0 { return Absent; }
    w := WalkLoop(attrs.value.body);
  }

  // ----- what the walk means -----

  // b starts with the elements ts and goes on with rest.
  ghost predicate Splits(b: Bytes, ts: seq<Tlv>, rest: Bytes)
    decreases |ts|
  {
    if ts == [] then b == rest
    else ParseTlv(b).Good? && ParseTlv(b).value == ts[0] && Splits(ParseTlv(b).rest, ts[1..], rest)
  }

  // id-aa-est-tls-exporter or id-aa-cmc-binding, by their arcs.
  predicate BindingOid(oid: seq<nat>) {
    oid == [1, 2, 840, 113549, 1, 9, 16, 2, 56] || oid == [1, 2, 840, 113549, 1, 9, 16, 2, 43]
  }

  // A SEQUENCE that starts with one of the two identifiers.
  predicate Marked(t: Tlv) { t.tag == 16 && ParseOid(t.body).Good? && BindingOid(ParseOid(t.body).value) }

  // After the identifier comes a SET whose first element is the OCTET STRING v, of 32 bytes.
  predicate Holds(t: Tlv, v: Bytes)
    requires Marked(t)
  {
    var wrap := ParseTlv(ParseOid(t.body).rest);
    && wrap.Good? && wrap.value.tag == 17
    && var octet := ParseTlv(wrap.value.body);
    octet.Good? && octet.value.tag == 4 && octet.value.body == v && |v| == 32
  }

  predicate NoneMarked(ts: seq<Tlv>) { forall i :: 0 <= i < |ts| ==> !Marked(ts[i]) }

  // t is the first attribute with one of the two identifiers.
  ghost predicate FirstMarked(b: Bytes, ts: seq<Tlv>, t: Tlv, rest: Bytes) {
    Splits(b, ts + [t], rest) && NoneMarked(ts) && Marked(t)
  }

  lemma MarkedBears(t: Tlv)
    ensures Bears(t) <==> Marked(t)
    ensures Marked(t) ==> forall v :: ValueOf(t) == Found(v) <==> Holds(t, v)
    ensures Marked(t) ==> (ValueOf(t) == Misshapen <==> forall v :: !Holds(t, v))
  {
    if Marked(t) && ValueOf(t).Found? { assert Holds(t, ValueOf(t).value); }
  }

  // The first marked attribute alone decides: the value it holds, or an error if
  // it holds none, never "absent".
  lemma {:induction false} FirstMarkedDecides(b: Bytes, ts: seq<Tlv>, t: Tlv, rest: Bytes)
    requires FirstMarked(b, ts, t, rest)
    ensures forall v :: WalkAttributes(b) == Found(v) <==> Holds(t, v)
    ensures WalkAttributes(b) == Misshapen <==> forall v :: !Holds(t, v)
    ensures WalkAttributes(b).Found? || WalkAttributes(b) == Misshapen
    decreases |ts|
  {
    if ts == [] {
      MarkedBears(t);
    } else {
      assert (ts + [t])[1..] == ts[1..] + [t] && (ts + [t])[0] == ts[0];
      MarkedBears(ts[0]);
      FirstMarkedDecides(ParseTlv(b).rest, ts[1..], t, rest);
    }
  }

  lemma {:induction false} WalkSplits(b: Bytes) returns (ts: seq<Tlv>, t: Option<Tlv>, rest: Bytes)
    ensures NoneMarked(ts)
    ensures match t
            case Some(one) => FirstMarked(b, ts, one, rest)
            case None => Splits(b, ts, rest) && (rest == [] || ParseTlv(rest).Bad?)
    decreases |b|
  {
    if b == [] || ParseTlv(b).Bad? {
      return [], None, b;
    }
    var one := ParseTlv(b).value;
    if Marked(one) {
      assert [one][1..] == [];
      return [], Some(one), ParseTlv(b).rest;
    }
    ts, t, rest := WalkSplits(ParseTlv(b).rest);
    ghost var all := [one] + ts;
    assert all[1..] == ts && (t.Some? ==> (all + [t.value])[1..] == ts + [t.value]);
    ts := all;
  }

  // The attributes are read to the end, or until they cannot be read.
  lemma {:induction false} CleanWalk(b: Bytes, ts: seq<Tlv>, rest: Bytes)
    requires Splits(b, ts, rest) && NoneMarked(ts) && (rest == [] || ParseTlv(rest).Bad?)
    ensures WalkAttributes(b) == if rest == [] then Absent else Failed
    decreases |ts|
  {
    if ts != [] {
      MarkedBears(ts[0]);
      CleanWalk(ParseTlv(b).rest, ts[1..], rest);
    }
  }

  // The attributes break off before any marked one.
  ghost predicate BreaksOff(b: Bytes) {
    exists ts, rest :: Splits(b, ts, rest) && NoneMarked(ts) && rest != [] && ParseTlv(rest).Bad?
  }

  ghost predicate ReadsThrough(b: Bytes) { exists ts :: Splits(b, ts, []) && NoneMarked(ts) }

  ghost predicate FirstHolds(b: Bytes, v: Bytes) { exists ts, t, rest :: FirstMarked(b, ts, t, rest) && Holds(t, v) }

  ghost predicate FirstIsWrong(b: Bytes) {
    exists ts, t, rest :: FirstMarked(b, ts, t, rest) && forall v :: !Holds(t, v)
  }

  lemma WalkGives(b: Bytes)
    ensures match WalkAttributes(b)
            case Found(v) => FirstHolds(b, v)
            case Misshapen => FirstIsWrong(b)
            case Absent => ReadsThrough(b)
            case Failed => BreaksOff(b)
  {
    var ts, t, rest := WalkSplits(b);
    if t.Some? {
      FirstMarkedDecides(b, ts, t.value, rest);
    } else {
      CleanWalk(b, ts, rest);
    }
  }

  // Found means: the first marked attribute holds that value.
  lemma FoundMeans(b: Bytes, v: Bytes)
    ensures WalkAttributes(b) == Found(v) <==> FirstHolds(b, v)
  {
    WalkGives(b);
    if ts, t, rest :| FirstMarked(b, ts, t, rest) && Holds(t, v) { FirstMarkedDecides(b, ts, t, rest); }
  }

  lemma MisshapenMeans(b: Bytes)
    ensures WalkAttributes(b) == Misshapen <==> FirstIsWrong(b)
  {
    WalkGives(b);
    if ts, t, rest :| FirstMarked(b, ts, t, rest) && forall v :: !Holds(t, v) { FirstMarkedDecides(b, ts, t, rest); }
  }

  // Absent means: the attributes are well formed to the end and none is marked.
  lemma AbsentMeans(b: Bytes)
    ensures WalkAttributes(b) == Absent <==> ReadsThrough(b)
  {
    WalkGives(b);
    if ts :| Splits(b, ts, []) && NoneMarked(ts) { CleanWalk(b, ts, []); }
  }

  lemma FailedMeans(b: Bytes)
    ensures WalkAttributes(b) == Failed <==> BreaksOff(b)
  {
    WalkGives(b);
    if ts, rest :| Splits(b, ts, rest) && NoneMarked(ts) && rest != [] && ParseTlv(rest).Bad? {
      CleanWalk(b, ts, rest);
    }
  }

  // ----- what the walk means for a request -----

  // A sequence, and nothing else, whose first three elements are ts.
  ghost predicate Opens(tbs: Bytes, ts: seq<Tlv>, rest: Bytes) {
    && |ts| == 3 && ParseTlv(tbs).Good? && ParseTlv(tbs).rest == [] && ParseTlv(tbs).value.tag == 16
    && Splits(ParseTlv(tbs).value.body, ts, rest)
  }

  predicate AttributesField(b: Bytes) { ParseTlv(b).Good? && ParseTlv(b).value.cls == 2 && ParseTlv(b).value.tag == 0 }

  // ... followed by the attributes, or by anything else (nothing, another
  // element, or a field cut short).
  ghost predicate Carries(tbs: Bytes, attrs: Bytes) {
    exists ts, rest :: Opens(tbs, ts, rest) && AttributesField(rest) && ParseTlv(rest).value.body == attrs
  }

  ghost predicate Bare(tbs: Bytes) { exists ts, rest :: Opens(tbs, ts, rest) && !AttributesField(rest) }

  lemma {:induction false} SkipSplits(b: Bytes, n: nat) returns (ts: seq<Tlv>)
    requires Skip(b, n).Some?
    ensures |ts| == n && Splits(b, ts, Skip(b, n).value)
    decreases n
  {
    if n == 0 {
      ts := [];
    } else {
      var rest := SkipSplits(ParseTlv(b).rest, n - 1);
      ts := [ParseTlv(b).value] + rest;
      assert ts[1..] == rest;
    }
  }

  lemma {:induction false} SplitsSkip(b: Bytes, ts: seq<Tlv>, rest: Bytes)
    requires Splits(b, ts, rest)
    ensures Skip(b, |ts|) == Some(rest)
    decreases |ts|
  {
    if ts != [] { SplitsSkip(ParseTlv(b).rest, ts[1..], rest); }
  }

  lemma OpensLocates(tbs: Bytes, ts: seq<Tlv>, rest: Bytes)
    requires Opens(tbs, ts, rest)
    ensures Locate(tbs) == if AttributesField(rest) then Field(ParseTlv(rest).value.body) else NoField
  {
    SplitsSkip(ParseTlv(tbs).value.body, ts, rest);
  }

  lemma LocatesExactly(tbs: Bytes, attrs: Bytes)
    ensures Locate(tbs) == Field(attrs) <==> Carries(tbs, attrs)
    ensures Locate(tbs) == NoField <==> Bare(tbs)
  {
    if Locate(tbs) != Broken {
      var body := ParseTlv(tbs).value.body;
      var ts := SkipSplits(body, 3);
      assert Opens(tbs, ts, Skip(body, 3).value);
      OpensLocates(tbs, ts, Skip(body, 3).value);
    }
    if ts, rest :| Opens(tbs, ts, rest) && AttributesField(rest) && ParseTlv(rest).value.body == attrs {
      OpensLocates(tbs, ts, rest);
    }
    if ts, rest :| Opens(tbs, ts, rest) && !AttributesField(rest) { OpensLocates(tbs, ts, rest); }
  }

  // The request's first marked attribute holds v.
  ghost predicate Binds(tbs: Bytes, v: Bytes) { exists attrs :: Carries(tbs, attrs) && FirstHolds(attrs, v) }

  // ... or does not hold a binding.
  ghost predicate Garbles(tbs: Bytes) { exists attrs :: Carries(tbs, attrs) && FirstIsWrong(attrs) }

  // The request has no attributes field, or a well-formed one without a marked attribute.
  ghost predicate Unbound(tbs: Bytes) { Bare(tbs) || exists attrs :: Carries(tbs, attrs) && ReadsThrough(attrs) }

  // It is no sequence of at least three elements, or its attributes break off.
  ghost predicate Unreadable(tbs: Bytes) {
    || (forall ts, rest :: !Opens(tbs, ts, rest))
    || (exists attrs :: Carries(tbs, attrs) && BreaksOff(attrs))
  }

  lemma CarriesOne(tbs: Bytes, attrs: Bytes)
    requires Carries(tbs, attrs)
    ensures Locate(tbs) == Field(attrs) && WalkRequest(tbs) == WalkAttributes(attrs)
  {
    LocatesExactly(tbs, attrs);
  }

  lemma BrokenExactly(tbs: Bytes)
    ensures Locate(tbs) == Broken <==> forall ts, rest :: !Opens(tbs, ts, rest)
  {
    if ts, rest :| Opens(tbs, ts, rest) { OpensLocates(tbs, ts, rest); }
    if Locate(tbs) != Broken {
      var body := ParseTlv(tbs).value.body;
      var ts := SkipSplits(body, 3);
      assert Opens(tbs, ts, Skip(body, 3).value);
    }
  }

  lemma RequestGives(tbs: Bytes)
    ensures match WalkRequest(tbs)
            case Found(v) => Binds(tbs, v)
            case Misshapen => Garbles(tbs)
            case Absent => Unbound(tbs)
            case Failed => Unreadable(tbs)
  {
    BrokenExactly(tbs);
    LocatesExactly(tbs, if Locate(tbs).Field? then Locate(tbs).attrs else []);
    if Locate(tbs).Field? { WalkGives(Locate(tbs).attrs); }
  }

  // On any bytes: a value is returned if and only if the request binds it.
  lemma RequestFoundMeans(tbs: Bytes, v: Bytes)
    ensures WalkRequest(tbs) == Found(v) <==> Binds(tbs, v)
  {
    RequestGives(tbs);
    if attrs :| Carries(tbs, attrs) && FirstHolds(attrs, v) {
      CarriesOne(tbs, attrs);
      FoundMeans(attrs, v);
    }
  }

  lemma RequestMisshapenMeans(tbs: Bytes)
    ensures WalkRequest(tbs) == Misshapen <==> Garbles(tbs)
  {
    RequestGives(tbs);
    if attrs :| Carries(tbs, attrs) && FirstIsWrong(attrs) {
      CarriesOne(tbs, attrs);
      MisshapenMeans(attrs);
    }
  }

  lemma RequestAbsentMeans(tbs: Bytes)
    ensures WalkRequest(tbs) == Absent <==> Unbound(tbs)
  {
    RequestGives(tbs);
    if Bare(tbs) { LocatesExactly(tbs, []); }
    if attrs :| Carries(tbs, attrs) && ReadsThrough(attrs) {
      CarriesOne(tbs, attrs);
      AbsentMeans(attrs);
    }
  }

  lemma RequestFailedMeans(tbs: Bytes)
    ensures WalkRequest(tbs) == Failed <==> Unreadable(tbs)
  {
    RequestGives(tbs);
    BrokenExactly(tbs);
    if attrs :| Carries(tbs, attrs) && BreaksOff(attrs) {
      CarriesOne(tbs, attrs);
      FailedMeans(attrs);
    }
  }

  // ----- the printer -----

  function Wrap(tag: nat, body: Bytes): Bytes
    requires tag < 31 && |body| <= MAX_INT
  {
    EncodeTlv(Tlv(0, true, tag, body))
  }

  lemma TlsExporterOid()
    ensures ValidOid(TLS_EXPORTER) && |EncodeOidBody(TLS_EXPORTER)| <= 45
  {
    ArcsShort([TLS_EXPORTER[0] * 40 + TLS_EXPORTER[1]] + TLS_EXPORTER[2..]);
  }

  lemma EncodedSize(t: Tlv)
    requires Encodable(t) && t.tag < 31
    ensures |EncodeTlv(t)| <= |t.body| + 6
  {
    BigEndianShort(|t.body|);
  }

  function OidElement(): (r: Bytes)
    ensures |r| <= 51
  {
    TlsExporterOid();
    EncodedSize(OidTlv(TLS_EXPORTER));
    EncodeTlv(OidTlv(TLS_EXPORTER))
  }

  function OctetElement(e: Bytes): (r: Bytes)
    requires |e| == EXPORTER_LENGTH
    ensures |r| <= 38
  {
    EncodedSize(Tlv(0, false, OCTET_STRING, e));
    EncodeTlv(Tlv(0, false, OCTET_STRING, e))
  }

  function SetElement(e: Bytes): (r: Bytes)
    requires |e| == EXPORTER_LENGTH
    ensures |r| <= 44
  {
    EncodedSize(Tlv(0, true, SET, OctetElement(e)));
    Wrap(SET, OctetElement(e))
  }

  // EmbedChannelBindingAttribute; None is the length error.
  function Embed(e: Bytes): (r: Option<Bytes>)
    ensures r.Some? <==> |e| == EXPORTER_LENGTH
  {
    if |e| != EXPORTER_LENGTH then None else Some(Wrap(SEQUENCE, OidElement() + SetElement(e)))
  }

  // The embedded bytes are one attribute, of the exporter identifier, that holds the exporter.
  lemma EmbeddedElement(e: Bytes, rest: Bytes) returns (t: Tlv)
    requires |e| == EXPORTER_LENGTH
    ensures ParseTlv(Embed(e).value + rest) == Good(t, rest) && t.cls == 0 && t.compound
    ensures Marked(t) && Holds(t, e) && ParseOid(t.body).value == [1, 2, 840, 113549, 1, 9, 16, 2, 56]
  {
    t := Tlv(0, true, SEQUENCE, OidElement() + SetElement(e));
    TlsExporterOid();
    TlvRoundTrip(Tlv(0, true, SEQUENCE, OidElement() + SetElement(e)), rest);
    OidRoundTrip(TLS_EXPORTER, SetElement(e));
    TlvRoundTrip(Tlv(0, true, SET, OctetElement(e)), []);
    TlvRoundTrip(Tlv(0, false, OCTET_STRING, e), []);
    assert SetElement(e) + [] == SetElement(e) && OctetElement(e) + [] == OctetElement(e);
  }

  // ----- reading undoes printing -----

  // One whole element.
  predicate Element(b: Bytes) { ParseTlv(b).Good? && ParseTlv(b).rest == [] }

  function Glued(blocks: seq<Bytes>): Bytes { if blocks == [] then [] else blocks[0] + Glued(blocks[1..]) }

  predicate Harmless(b: Bytes) { Element(b) && !Marked(ParseTlv(b).value) }

  lemma WalkPasses(a: Bytes, tail: Bytes)
    requires Harmless(a)
    ensures WalkAttributes(a + tail) == WalkAttributes(tail)
  {
    TlvPrefix(a, tail);
    MarkedBears(ParseTlv(a).value);
    assert [] + tail == tail;
  }

  lemma {:induction false} WalkPassesAll(before: seq<Bytes>, tail: Bytes)
    requires forall i :: 0 <= i < |before| ==> Harmless(before[i])
    ensures WalkAttributes(Glued(before) + tail) == WalkAttributes(tail)
  {
    if before == [] {
      assert Glued(before) + tail == tail;
    } else {
      assert Glued(before) + tail == before[0] + (Glued(before[1..]) + tail);
      WalkPasses(before[0], Glued(before[1..]) + tail);
      WalkPassesAll(before[1..], tail);
    }
  }

  // Well-formed attributes without a binding identifier, then the printed one,
  // then anything at all: the walker returns exactly the exporter.
  lemma WalkUndoesEmbed(before: seq<Bytes>, e: Bytes, rest: Bytes)
    requires |e| == EXPORTER_LENGTH && forall i :: 0 <= i < |before| ==> Harmless(before[i])
    ensures WalkAttributes(Glued(before) + (Embed(e).value + rest)) == Found(e)
  {
    WalkPassesAll(before, Embed(e).value + rest);
    var t := EmbeddedElement(e, rest);
    MarkedBears(t);
  }

  // Both identifiers can be written.
  lemma BindingOidsValid(oid: seq<nat>)
    requires BindingOid(oid)
    ensures ValidOid(oid) && Encodable(OidTlv(oid))
  {
    ArcsShort([oid[0] * 40 + oid[1]] + oid[2..]);
  }

  // What an attribute with a binding identifier holds: that, an element, and more.
  function Attribute(oid: seq<nat>, wrap: Tlv, after: Bytes): Bytes
    requires BindingOid(oid) && Encodable(wrap)
  {
    BindingOidsValid(oid);
    EncodeTlv(OidTlv(oid)) + (EncodeTlv(wrap) + after)
  }

  // However an attribute with a binding identifier is written, whatever the
  // classes, tags, lengths and trailing bytes, its value is returned if the inner
  // element is a 32-byte OCTET STRING in a SET, and else the walk is an error.
  lemma WrittenDecides(before: seq<Bytes>, t: Tlv, oid: seq<nat>, wrap: Tlv, after: Bytes, octet: Tlv, more: Bytes,
                       rest: Bytes)
    requires (forall i :: 0 <= i < |before| ==> Harmless(before[i])) && BindingOid(oid)
    requires Encodable(wrap) && Encodable(octet) && Encodable(t)
    requires wrap.body == EncodeTlv(octet) + more && t.tag == 16 && t.body == Attribute(oid, wrap, after)
    ensures WalkAttributes(Glued(before) + (EncodeTlv(t) + rest)) ==
            if wrap.tag == 17 && octet.tag == 4 && |octet.body| == 32 then Found(octet.body) else Misshapen
  {
    WalkPassesAll(before, EncodeTlv(t) + rest);
    TlvRoundTrip(t, rest);
    BindingOidsValid(oid);
    OidRoundTrip(oid, EncodeTlv(wrap) + after);
    TlvRoundTrip(wrap, after);
    TlvRoundTrip(octet, more);
    MarkedBears(t);
    assert WalkAttributes(EncodeTlv(t) + rest) == ValueOf(t);
  }

  lemma SkipElement(a: Bytes, z: Bytes, n: nat)
    requires Element(a) && n > 0
    ensures Skip(a + z, n) == Skip(z, n - 1)
  {
    TlvPrefix(a, z);
    assert [] + z == z;
  }

  lemma SkipThree(a: Bytes, b: Bytes, c: Bytes, last: Bytes)
    requires Element(a) && Element(b) && Element(c)
    ensures Skip(a + (b + (c + last)), 3) == Some(last)
  {
    SkipElement(a, b + (c + last), 3);
    SkipElement(b, c + last, 2);
    SkipElement(c, last, 1);
  }

  // The walk of a sequence is decided by what follows its third element.
  lemma WalkOpens(body: Bytes, last: Bytes)
    requires |body| <= MAX_INT && Skip(body, 3) == Some(last)
    ensures WalkRequest(Wrap(SEQUENCE, body)) ==
            match ParseTlv(last)
            case Bad => Absent
            case Good(field, _) => if field.cls != 2 || field.tag != 0 then Absent else WalkAttributes(field.body)
  {
    TlvRoundTrip(Tlv(0, true, SEQUENCE, body), []);
    assert Wrap(SEQUENCE, body) + [] == Wrap(SEQUENCE, body);
  }

  // CertificationRequestInfo with the given attributes and whatever follows them.
  function Request(version: Bytes, subject: Bytes, key: Bytes, attrs: Bytes, after: Bytes): Bytes
    requires |version| + |subject| + |key| + |attrs| + |after| + 6 <= MAX_INT
  {
    EncodedSize(Tlv(2, true, 0, attrs));
    Wrap(SEQUENCE, version + (subject + (key + (EncodeTlv(Tlv(2, true, 0, attrs)) + after))))
  }

  lemma RequestReaches(version: Bytes, subject: Bytes, key: Bytes, attrs: Bytes, after: Bytes)
    requires |version| + |subject| + |key| + |attrs| + |after| + 6 <= MAX_INT
    requires Element(version) && Element(subject) && Element(key)
    ensures WalkRequest(Request(version, subject, key, attrs, after)) == WalkAttributes(attrs)
  {
    var field := Tlv(2, true, 0, attrs);
    EncodedSize(field);
    SkipThree(version, subject, key, EncodeTlv(field) + after);
    TlvRoundTrip(field, after);
    WalkOpens(version + (subject + (key + (EncodeTlv(field) + after))), EncodeTlv(field) + after);
  }

  // The same inside a whole request, whatever the lengths, the three leading
  // fields and what follows the attributes.
  lemma RequestUndoesEmbed(version: Bytes, subject: Bytes, key: Bytes, before: seq<Bytes>, e: Bytes, rest: Bytes,
                           after: Bytes)
    requires |e| == EXPORTER_LENGTH && Element(version) && Element(subject) && Element(key)
    requires forall i :: 0 <= i < |before| ==> Harmless(before[i])
    requires |version| + |subject| + |key| + |Glued(before) + (Embed(e).value + rest)| + |after| + 6 <= MAX_INT
    ensures WalkRequest(Request(version, subject, key, Glued(before) + (Embed(e).value + rest), after)) == Found(e)
  {
    RequestReaches(version, subject, key, Glued(before) + (Embed(e).value + rest), after);
    WalkUndoesEmbed(before, e, rest);
  }

  // ----- the check -----

  // What the TLS library answers: it panics on a state no handshake made.
  datatype Export = Panics | Fails | Gives(bytes: Bytes)

  datatype Connection = Connection(handshakeComplete: bool, version: nat, exported: Export)

  // Malformed and BadBinding are the two errors of the walk.
  datatype Verdict = Accept | Missing | Mismatch | NotTls13 | Malformed | BadBinding | ExportFailed

  // ExtractTLSExporter: the exporter, or why there is none.
  function Exporter(state: Option<Connection>): (Option<Bytes>, Verdict) {
    if state.None? || !state.value.handshakeComplete then (None, Missing)
    else if state.value.version < 0x0304 then (None, NotTls13)
    else match state.value.exported
         case Panics => (None, Missing)
         case Fails => (None, ExportFailed)
         case Gives(e) => if |e| != EXPORTER_LENGTH then (None, ExportFailed) else (Some(e), Accept)
  }

  // ExtractCSRChannelBinding; None is a missing CSR.
  function BindingIn(csr: Option<Bytes>): Walk {
    if csr.None? then Failed else if csr.value == [] then Absent else WalkRequest(csr.value)
  }

  function Verify(state: Option<Connection>, csr: Option<Bytes>, required: bool): Verdict {
    var (live, why) := Exporter(state);
    if live.None? then
      if !required && !BindingIn(csr).Found? then Accept else why
    else
      match BindingIn(csr)
      case Failed => Malformed
      case Misshapen => BadBinding
      case Absent => if required then Missing else Accept
      case Found(v) => if v == live.value then Accept else Mismatch
  }

  // ----- what the verdict means -----

  // A finished TLS 1.3 handshake that exports the 32 bytes e.
  predicate Live(state: Option<Connection>, e: Bytes) {
    && state.Some? && state.value.handshakeComplete && state.value.version >= 0x0304
    && state.value.exported == Gives(e) && |e| == 32
  }

  // No handshake, or a state that was not made by one.
  predicate NoHandshake(state: Option<Connection>) {
    || state.None? || !state.value.handshakeComplete
    || (state.value.version >= 0x0304 && state.value.exported.Panics?)
  }

  predicate TooOld(state: Option<Connection>) {
    state.Some? && state.value.handshakeComplete && state.value.version < 0x0304
  }

  // The library fails, or gives the wrong number of bytes.
  predicate NoExport(state: Option<Connection>) {
    && state.Some? && state.value.handshakeComplete && state.value.version >= 0x0304
    && (state.value.exported.Fails? || (state.value.exported.Gives? && |state.value.exported.bytes| != 32))
  }

  lemma ExporterExactly(state: Option<Connection>)
    ensures forall e :: Exporter(state).0 == Some(e) <==> Live(state, e)
    ensures Exporter(state).0.None? ==>
              && Exporter(state).1 != Accept
              && (Exporter(state).1 == Missing <==> NoHandshake(state))
              && (Exporter(state).1 == NotTls13 <==> TooOld(state))
              && (Exporter(state).1 == ExportFailed <==> NoExport(state))
              && Exporter(state).1 in {Missing, NotTls13, ExportFailed}
    ensures Exporter(state).0.Some? ==> !NoHandshake(state) && !TooOld(state) && !NoExport(state)
  {
  }

  // The request has a binding, none, one of the wrong shape, or cannot be read;
  // a request without bytes has none.
  ghost predicate Bound(csr: Option<Bytes>, v: Bytes) { csr.Some? && csr.value != [] && Binds(csr.value, v) }

  ghost predicate NoBinding(csr: Option<Bytes>) { csr.Some? && (csr.value == [] || Unbound(csr.value)) }

  ghost predicate WrongShape(csr: Option<Bytes>) { csr.Some? && csr.value != [] && Garbles(csr.value) }

  ghost predicate NotReadable(csr: Option<Bytes>) { csr.None? || (csr.value != [] && Unreadable(csr.value)) }

  lemma BindingExactly(csr: Option<Bytes>)
    ensures forall v :: BindingIn(csr) == Found(v) <==> Bound(csr, v)
    ensures BindingIn(csr) == Absent <==> NoBinding(csr)
    ensures BindingIn(csr) == Misshapen <==> WrongShape(csr)
    ensures BindingIn(csr) == Failed <==> NotReadable(csr)
  {
    if csr.Some? && csr.value != [] {
      RequestAbsentMeans(csr.value);
      RequestMisshapenMeans(csr.value);
      RequestFailedMeans(csr.value);
      forall v
        ensures BindingIn(csr) == Found(v) <==> Bound(csr, v)
      {
        RequestFoundMeans(csr.value, v);
      }
    }
  }

  // The binding cannot be passed over: the profile or the request asks for it.
  ghost predicate Insists(csr: Option<Bytes>, required: bool) { required || exists v :: Bound(csr, v) }

  // A request is accepted if and only if the connection exports what it binds, or
  // it binds nothing and need not.
  lemma AcceptedExactly(state: Option<Connection>, csr: Option<Bytes>, required: bool)
    ensures Verify(state, csr, required) == Accept <==>
            || (exists e :: Live(state, e) && (Bound(csr, e) || (!required && NoBinding(csr))))
            || ((forall e :: !Live(state, e)) && !Insists(csr, required))
  {
    ExporterExactly(state);
    BindingExactly(csr);
  }

  // And each refusal has its own condition.
  lemma RefusedExactly(state: Option<Connection>, csr: Option<Bytes>, required: bool)
    ensures Verify(state, csr, required) == Missing <==>
            || (NoHandshake(state) && Insists(csr, required))
            || (required && NoBinding(csr) && exists e :: Live(state, e))
    ensures Verify(state, csr, required) == NotTls13 <==> TooOld(state) && Insists(csr, required)
    ensures Verify(state, csr, required) == ExportFailed <==> NoExport(state) && Insists(csr, required)
    ensures Verify(state, csr, required) == Malformed <==> NotReadable(csr) && exists e :: Live(state, e)
    ensures Verify(state, csr, required) == BadBinding <==> WrongShape(csr) && exists e :: Live(state, e)
    ensures Verify(state, csr, required) == Mismatch <==> exists e, v :: Live(state, e) && Bound(csr, v) && v != e
  {
    ExporterExactly(state);
    BindingExactly(csr);
    var live := Exporter(state).0;
    if live.Some? { assert Live(state, live.value); }
    if BindingIn(csr).Found? { assert Bound(csr, BindingIn(csr).value); }
  }

  // "Malformed is always fatal" needs a live exporter: without one an optional
  // profile lets a malformed binding through.
  lemma MalformedIsFatalExactly(state: Option<Connection>, csr: Option<Bytes>, required: bool)
    requires WrongShape(csr) || NotReadable(csr)
    ensures Verify(state, csr, required) != Accept <==> required || exists e :: Live(state, e)
  {
    AcceptedExactly(state, csr, required);
    BindingExactly(csr);
  }

  // A device that embeds the live exporter is accepted, and one that embeds
  // another is told apart.
  lemma EmbeddedExporterVerifies(version: Bytes, subject: Bytes, key: Bytes, before: seq<Bytes>, e: Bytes, rest: Bytes,
                                 after: Bytes, live: Bytes, tls: nat, required: bool)
    requires tls >= 0x0304 && |e| == EXPORTER_LENGTH == |live| && Element(version) && Element(subject) && Element(key)
    requires forall i :: 0 <= i < |before| ==> Harmless(before[i])
    requires |version| + |subject| + |key| + |Glued(before) + (Embed(e).value + rest)| + |after| + 6 <= MAX_INT
    ensures
      var csr := Request(version, subject, key, Glued(before) + (Embed(e).value + rest), after);
      Verify(Some(Connection(true, tls, Gives(live))), Some(csr), required) == if e == live then Accept else Mismatch
  {
    RequestUndoesEmbed(version, subject, key, before, e, rest, after);
    assert Request(version, subject, key, Glued(before) + (Embed(e).value + rest), after) != [];
  }
}
