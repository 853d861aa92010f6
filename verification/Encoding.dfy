/** The canonical tag-length-value encoding behind the input identities, with a decoder for it. */
module Encoding {
  import opened Wrappers
  import opened Utf8

  // ---- unsigned LEB128 (section 7.6 of DWARF Version 5) ----

  function VaruintOf(n: nat): (b: Octets)
    ensures 0 < |b|
  {
    if n < 128 then [n] else [n % 128 + 128] + VaruintOf(n / 128)
  }

  /** Splits off seven bits at a time. */
  method Varuint(value: nat) returns (encoded: Octets)
    ensures encoded == VaruintOf(value)
  {
    encoded := [];
    var rest := value;
    while true
      invariant encoded + VaruintOf(rest) == VaruintOf(value)
      decreases rest
    {
      var byte := rest % 128;
      ghost var was := rest;
      rest := rest / 128;
      if rest != 0 {
        assert VaruintOf(was) == [byte + 128] + VaruintOf(rest);
        encoded := encoded + [byte + 128];
      } else {
        assert VaruintOf(was) == [byte];
        encoded := encoded + [byte];
        return;
      }
    }
  }

  /** Reads a number and leaves what follows it. */
  function DecodeVaruint(b: Octets): (r: Option<(nat, Octets)>)
    ensures r.Some? ==> |r.value.1| < |b|
  {
    if b == [] then None
    else if b[0] < 128 then Some((b[0], b[1..]))
    else
      var high := DecodeVaruint(b[1..]);
      if high.None? then None
      else
        var n: nat := b[0];
        Some((n - 128 + 128 * high.value.0, high.value.1))
  }

  lemma {:induction false} VaruintRoundTrip(n: nat, rest: Octets)
    ensures DecodeVaruint(VaruintOf(n) + rest) == Some((n, rest))
  {
    var b := VaruintOf(n) + rest;
    if n < 128 {
      assert b[1..] == rest;
    } else {
      VaruintRoundTrip(n / 128, rest);
      assert b[1..] == VaruintOf(n / 128) + rest;
    }
  }

  /** Among all encodings that a reader would accept for `n` this one is the shortest, and the only one of its length. */
  lemma {:induction false} VaruintMinimal(n: nat, b: Octets)
    requires DecodeVaruint(b) == Some((n, []))
    ensures |VaruintOf(n)| <= |b|
    ensures |VaruintOf(n)| == |b| <==> b == VaruintOf(n)
    ensures b == VaruintOf(n) <==> |b| == 1 || b[|b| - 1] != 0
  {
    if b[0] < 128 {
      assert b[1..] == [];
      assert b == [b[0]];
    } else {
      var high := DecodeVaruint(b[1..]).value.0;
      VaruintMinimal(high, b[1..]);
      assert b == [b[0]] + b[1..];
      assert n / 128 == high && n % 128 == b[0] - 128;
      if n < 128 {
        assert VaruintOf(high) == [0];
        if |b| == 2 {
          assert b[1..] == [b[1]];
        }
      }
    }
  }

  // ---- values ----

  /** What the identity streams are made of. */
  datatype Value =
    | Utf8Value(text: Text)
    | UIntValue(number: nat)
    | BoolValue(truth: bool)
    | EnumValue(name: Text)
    | DigestValue(octets: Octets)
    | PathValue(path: Text)
    | ListValue(values: seq<Value>)
    | StructValue(fields: seq<Field>)
    | VariantValue(variant: nat, inner: Value)

  datatype Field = Field(tag: nat, value: Value)

  predicate Ascii(s: Text) {
    forall i :: 0 <= i < |s| ==> s[i] < 128
  }

  predicate Legal(v: Value) {
    match v
    case Utf8Value(t) => Encodable(t)
    case EnumValue(t) => Ascii(t)
    case PathValue(t) => Encodable(t)
    case ListValue(vs) => forall i :: 0 <= i < |vs| ==> Legal(vs[i])
    case StructValue(fs) => forall i :: 0 <= i < |fs| ==> Legal(fs[i].value)
    case VariantValue(_, inner) => Legal(inner)
    case _ => true
  }

  function Join(parts: seq<Octets>): Octets {
    if parts == [] then [] else parts[0] + Join(parts[1..])
  }

  function Typed(code: Byte, payload: Octets): Octets {
    [code] + VaruintOf(|payload|) + payload
  }

  function FieldOctets(tag: nat, value: Octets): Octets {
    VaruintOf(tag) + value
  }

  function StructOctets(fields: seq<Octets>): Octets {
    Typed(9, VaruintOf(|fields|) + Join(fields))
  }

  function ListOctets(values: seq<Octets>): Octets {
    Typed(8, VaruintOf(|values|) + Join(values))
  }

  function VariantOctets(tag: nat, value: Octets): Octets {
    Typed(10, VaruintOf(tag) + value)
  }

  function AsciiOctets(s: Text): Octets
    requires Ascii(s)
  {
    seq(|s|, i requires 0 <= i < |s| => s[i])
  }

  function Encode(v: Value): Octets
    requires Legal(v)
    decreases v, 1
  {
    match v
    case Utf8Value(t) => Typed(1, EncodeText(t))
    case UIntValue(n) => Typed(2, VaruintOf(n))
    case BoolValue(b) => Typed(3, if b then [1] else [0])
    case EnumValue(t) => Typed(4, AsciiOctets(t))
    case DigestValue(d) => Typed(5, d)
    case PathValue(t) => Typed(6, EncodeText(t))
    case ListValue(_) => ListOctets(Items(v))
    case StructValue(_) => StructOctets(Fields(v))
    case VariantValue(tag, inner) => VariantOctets(tag, Encode(inner))
  }

  /** The encoded items of a list. */
  function Items(v: Value): (parts: seq<Octets>)
    requires v.ListValue? && Legal(v)
    ensures |parts| == |v.values|
    decreases v, 0
  {
    seq(|v.values|, i requires 0 <= i < |v.values| => Encode(v.values[i]))
  }

  /** The encoded fields of a struct. */
  function Fields(v: Value): (parts: seq<Octets>)
    requires v.StructValue? && Legal(v)
    ensures |parts| == |v.fields|
    decreases v, 0
  {
    seq(|v.fields|, i requires 0 <= i < |v.fields| => FieldOctets(v.fields[i].tag, Encode(v.fields[i].value)))
  }

  // ---- the decoder ----

  datatype Chunk = Chunk(code: Byte, payload: Octets, rest: Octets)

  function DecodeTyped(b: Octets): (r: Option<Chunk>)
    ensures r.Some? ==> |r.value.payload| < |b| && |r.value.rest| < |b|
  {
    if b == [] then None
    else
      var length := DecodeVaruint(b[1..]);
      if length.None? || |length.value.1| < length.value.0 then None
      else Some(Chunk(b[0], length.value.1[..length.value.0], length.value.1[length.value.0..]))
  }

  /** Reads one value and leaves what follows it. */
  function Decode(b: Octets): (r: Option<(Value, Octets)>)
    ensures r.Some? ==> |r.value.1| < |b|
    decreases |b|, 0
  {
    var chunk := DecodeTyped(b);
    if chunk.None? then None
    else
      var v := DecodePayload(chunk.value.code, chunk.value.payload);
      if v.None? then None else Some((v.value, chunk.value.rest))
  }

  function DecodePayload(code: Byte, p: Octets): Option<Value>
    decreases |p|, 2
  {
    if code == 1 then
      var t := DecodeText(p);
      if t.None? then None else Some(Utf8Value(t.value))
    else if code == 2 then
      var n := DecodeVaruint(p);
      if n.None? || n.value.1 != [] then None else Some(UIntValue(n.value.0))
    else if code == 3 then
      if p == [1] then Some(BoolValue(true)) else if p == [0] then Some(BoolValue(false)) else None
    else if code == 4 then Some(EnumValue(p))
    else if code == 5 then Some(DigestValue(p))
    else if code == 6 then
      var t := DecodeText(p);
      if t.None? then None else Some(PathValue(t.value))
    else if code == 8 then
      var n := DecodeVaruint(p);
      if n.None? then None
      else
        var vs := DecodeItems(n.value.1, n.value.0);
        if vs.None? || vs.value.1 != [] then None else Some(ListValue(vs.value.0))
    else if code == 9 then
      var n := DecodeVaruint(p);
      if n.None? then None
      else
        var fs := DecodeFields(n.value.1, n.value.0);
        if fs.None? || fs.value.1 != [] then None else Some(StructValue(fs.value.0))
    else if code == 10 then
      var n := DecodeVaruint(p);
      if n.None? then None
      else
        var v := Decode(n.value.1);
        if v.None? || v.value.1 != [] then None else Some(VariantValue(n.value.0, v.value.0))
    else None
  }

  function DecodeItems(b: Octets, count: nat): Option<(seq<Value>, Octets)>
    decreases |b|, 1
  {
    if count == 0 then Some(([], b))
    else
      var first := Decode(b);
      if first.None? then None
      else
        var others := DecodeItems(first.value.1, count - 1);
        if others.None? then None else Some(([first.value.0] + others.value.0, others.value.1))
  }

  function DecodeFields(b: Octets, count: nat): Option<(seq<Field>, Octets)>
    decreases |b|, 1
  {
    if count == 0 then Some(([], b))
    else
      var tag := DecodeVaruint(b);
      if tag.None? then None
      else
        var first := Decode(tag.value.1);
        if first.None? then None
        else
          var others := DecodeFields(first.value.1, count - 1);
          if others.None? then None
          else Some(([Field(tag.value.0, first.value.0)] + others.value.0, others.value.1))
  }

  // ---- round trip ----

  lemma TypedRoundTrip(code: Byte, payload: Octets, rest: Octets)
    ensures DecodeTyped(Typed(code, payload) + rest) == Some(Chunk(code, payload, rest))
  {
    var b := Typed(code, payload) + rest;
    VaruintRoundTrip(|payload|, payload + rest);
    assert b[1..] == VaruintOf(|payload|) + (payload + rest);
  }

  lemma PayloadDecides(code: Byte, payload: Octets, rest: Octets, v: Value)
    requires DecodePayload(code, payload) == Some(v)
    ensures Decode(Typed(code, payload) + rest) == Some((v, rest))
  {
    TypedRoundTrip(code, payload, rest);
  }

  lemma {:induction false} ItemsRoundTrip(v: Value, k: nat)
    requires v.ListValue? && Legal(v) && k <= |v.values|
    ensures DecodeItems(Join(Items(v)[k..]), |v.values| - k) == Some((v.values[k..], []))
    decreases v, 0, |v.values| - k
  {
    if k < |v.values| {
      var rest := Join(Items(v)[k + 1..]);
      ItemsRoundTrip(v, k + 1);
      RoundTrip(v.values[k], rest);
      assert Items(v)[k..][0] == Encode(v.values[k]);
      assert Items(v)[k..][1..] == Items(v)[k + 1..];
      assert v.values[k..] == [v.values[k]] + v.values[k + 1..];
    } else {
      assert Items(v)[k..] == [];
    }
  }

  lemma FieldStep(f: Field, e: Octets, rest: Octets, others: seq<Field>, count: nat)
    requires Decode(e + rest) == Some((f.value, rest))
    requires DecodeFields(rest, count) == Some((others, []))
    ensures DecodeFields(FieldOctets(f.tag, e) + rest, count + 1) == Some(([f] + others, []))
  {
    hide Decode, DecodeVaruint, VaruintOf;
    VaruintRoundTrip(f.tag, e + rest);
    assert FieldOctets(f.tag, e) + rest == VaruintOf(f.tag) + (e + rest);
  }

  lemma {:induction false} FieldsRoundTrip(v: Value, k: nat)
    requires v.StructValue? && Legal(v) && k <= |v.fields|
    ensures DecodeFields(Join(Fields(v)[k..]), |v.fields| - k) == Some((v.fields[k..], []))
    decreases v, 0, |v.fields| - k
  {
    hide Decode, DecodeVaruint, VaruintOf;
    if k < |v.fields| {
      var f := v.fields[k];
      var rest := Join(Fields(v)[k + 1..]);
      FieldsRoundTrip(v, k + 1);
      RoundTrip(f.value, rest);
      FieldStep(f, Encode(f.value), rest, v.fields[k + 1..], |v.fields| - k - 1);
      assert Fields(v)[k..][0] == FieldOctets(f.tag, Encode(f.value));
      assert Fields(v)[k..][1..] == Fields(v)[k + 1..];
      assert v.fields[k..] == [f] + v.fields[k + 1..];
    } else {
      assert Fields(v)[k..] == [] && v.fields[k..] == [];
    }
  }

  lemma {:induction false} ListRoundTrip(v: Value)
    requires v.ListValue? && Legal(v)
    ensures DecodePayload(8, VaruintOf(|v.values|) + Join(Items(v))) == Some(v)
    decreases v, 1
  {
    hide DecodeVaruint, VaruintOf, DecodeItems;
    ItemsRoundTrip(v, 0);
    VaruintRoundTrip(|v.values|, Join(Items(v)));
    assert Items(v)[0..] == Items(v) && v.values[0..] == v.values;
  }

  lemma {:induction false} StructRoundTrip(v: Value)
    requires v.StructValue? && Legal(v)
    ensures DecodePayload(9, VaruintOf(|v.fields|) + Join(Fields(v))) == Some(v)
    decreases v, 1
  {
    hide DecodeVaruint, VaruintOf, DecodeFields;
    FieldsRoundTrip(v, 0);
    VaruintRoundTrip(|v.fields|, Join(Fields(v)));
    assert Fields(v)[0..] == Fields(v) && v.fields[0..] == v.fields;
  }

  lemma {:induction false} VariantRoundTrip(v: Value)
    requires v.VariantValue? && Legal(v)
    ensures DecodePayload(10, VaruintOf(v.variant) + Encode(v.inner)) == Some(v)
    decreases v, 1
  {
    hide DecodeVaruint, VaruintOf;
    RoundTrip(v.inner, []);
    assert Encode(v.inner) + [] == Encode(v.inner);
    VaruintRoundTrip(v.variant, Encode(v.inner));
  }

  /** The decoder finds any value again, whatever follows it, and leaves that. */
  lemma {:induction false} RoundTrip(v: Value, rest: Octets)
    requires Legal(v)
    ensures Decode(Encode(v) + rest) == Some((v, rest))
    decreases v, 2
  {
    match v
    case Utf8Value(t) =>
      TextRoundTrip(t);
      PayloadDecides(1, EncodeText(t), rest, v);
    case UIntValue(n) =>
      VaruintRoundTrip(n, []);
      assert VaruintOf(n) + [] == VaruintOf(n);
      PayloadDecides(2, VaruintOf(n), rest, v);
    case BoolValue(b) =>
      PayloadDecides(3, if b then [1] else [0], rest, v);
    case EnumValue(t) =>
      assert AsciiOctets(t) == t;
      PayloadDecides(4, AsciiOctets(t), rest, v);
    case DigestValue(d) =>
      PayloadDecides(5, d, rest, v);
    case PathValue(t) =>
      TextRoundTrip(t);
      PayloadDecides(6, EncodeText(t), rest, v);
    case ListValue(vs) =>
      ListRoundTrip(v);
      PayloadDecides(8, VaruintOf(|vs|) + Join(Items(v)), rest, v);
    case StructValue(fs) =>
      StructRoundTrip(v);
      PayloadDecides(9, VaruintOf(|fs|) + Join(Fields(v)), rest, v);
    case VariantValue(tag, inner) =>
      VariantRoundTrip(v);
      PayloadDecides(10, VaruintOf(tag) + Encode(inner), rest, v);
  }

  /** No two values share an encoding, and none is the beginning of another. */
  lemma EncodingPrefixFree(u: Value, v: Value, x: Octets, y: Octets)
    requires Legal(u) && Legal(v) && Encode(u) + x == Encode(v) + y
    ensures u == v && x == y
  {
    RoundTrip(u, x);
    RoundTrip(v, y);
  }

  // ---- streams ----

  function IdentityStream(domain: Octets, root: Octets): Octets {
    VaruintOf(|domain|) + domain + [1] + root
  }

  lemma DomainTold(c: Octets, d: Octets, x: Octets, y: Octets)
    requires IdentityStream(c, x) == IdentityStream(d, y)
    ensures c == d && x == y
  {
    hide VaruintOf, DecodeVaruint;
    var s, t := c + [1] + x, d + [1] + y;
    assert IdentityStream(c, x) == VaruintOf(|c|) + s;
    assert IdentityStream(d, y) == VaruintOf(|d|) + t;
    VaruintRoundTrip(|c|, s);
    VaruintRoundTrip(|d|, t);
    assert c == s[..|c|] && d == t[..|d|];
    assert x == s[|c| + 1..] && y == t[|d| + 1..];
  }

  /** A stream tells its domain and its root. */
  lemma StreamInjective(c: Octets, d: Octets, u: Value, v: Value)
    requires Legal(u) && Legal(v)
    requires IdentityStream(c, Encode(u)) == IdentityStream(d, Encode(v))
    ensures c == d && u == v
  {
    DomainTold(c, d, Encode(u), Encode(v));
    EncodingPrefixFree(u, v, [], []);
  }
}
