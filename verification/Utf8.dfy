/** UTF-8 as in RFC 3629: encoding of texts, its inverse, and its order. */
module Utf8 {
  import opened Wrappers
  import Lexical

  type Byte = b: nat | b < 256

  type Octets = seq<Byte>

  /** A text is a sequence of code points. Surrogates cannot be encoded. */
  type Text = seq<nat>

  /** A string constant as a text. */
  function Code(s: string): (t: Text)
    ensures |t| == |s|
  {
    seq(|s|, i requires 0 <= i < |s| => s[i] as int)
  }

  predicate Scalar(c: nat) {
    c < 0xD800 || 0xDFFF < c < 0x110000
  }

  predicate Encodable(s: Text) {
    forall i :: 0 <= i < |s| ==> Scalar(s[i])
  }

  function EncodeScalar(c: nat): (b: Octets)
    requires Scalar(c)
    ensures 1 <= |b| <= 4
  {
    if c < 0x80 then [c]
    else if c < 0x800 then [0xC0 + c / 64, 0x80 + c % 64]
    else if c < 0x10000 then [0xE0 + c / 4096, 0x80 + c / 64 % 64, 0x80 + c % 64]
    else [0xF0 + c / 262144, 0x80 + c / 4096 % 64, 0x80 + c / 64 % 64, 0x80 + c % 64]
  }

  function EncodeText(s: Text): Octets
    requires Encodable(s)
  {
    if s == [] then [] else EncodeScalar(s[0]) + EncodeText(s[1..])
  }

  /** Six bits of a continuation byte appended to a number. */
  function Continue(high: nat, b: nat): nat
    requires 0x80 <= b
  {
    high * 64 + (b - 0x80)
  }

  /** The first code point of some bytes, and what follows it. */
  function DecodeScalar(b: Octets): Option<(nat, Octets)> {
    var lead: int := if b == [] then 0x80 else b[0];
    var length := if lead < 0x80 then 1 else if lead < 0xC0 then 0 else if lead < 0xE0 then 2 else if lead < 0xF0 then 3 else 4;
    if length == 0 || |b| < length || exists i :: 0 < i < length && b[i] < 0x80 then None
    else if length == 1 then Some((lead, b[1..]))
    else if length == 2 then Some((Continue(lead - 0xC0, b[1]), b[2..]))
    else if length == 3 then Some((Continue(Continue(lead - 0xE0, b[1]), b[2]), b[3..]))
    else Some((Continue(Continue(Continue(lead - 0xF0, b[1]), b[2]), b[3]), b[4..]))
  }

  function DecodeText(b: Octets): Option<Text> {
    if b == [] then Some([])
    else
      var first := DecodeScalar(b);
      if first.None? || |first.value.1| >= |b| then None
      else
        var rest := DecodeText(first.value.1);
        if rest.None? then None else Some([first.value.0] + rest.value)
  }

  lemma ScalarRoundTrip(c: nat, rest: Octets)
    requires Scalar(c)
    ensures DecodeScalar(EncodeScalar(c) + rest) == Some((c, rest))
  {
    var b := EncodeScalar(c) + rest;
    assert b[|EncodeScalar(c)|..] == rest;
    assert c / 64 / 64 == c / 4096 && c / 64 / 64 / 64 == c / 262144;
  }

  lemma {:induction false} TextRoundTrip(s: Text)
    requires Encodable(s)
    ensures DecodeText(EncodeText(s)) == Some(s)
  {
    if s != [] {
      ScalarRoundTrip(s[0], EncodeText(s[1..]));
      TextRoundTrip(s[1..]);
      assert s == [s[0]] + s[1..];
    }
  }

  lemma TextInjective(s: Text, t: Text)
    requires Encodable(s) && Encodable(t) && EncodeText(s) == EncodeText(t)
    ensures s == t
  {
    TextRoundTrip(s);
    TextRoundTrip(t);
  }

  lemma ScalarOrder(c: nat, d: nat, x: Octets, y: Octets)
    requires Scalar(c) && Scalar(d) && c < d
    ensures Lexical.Less(EncodeScalar(c) + x, EncodeScalar(d) + y)
  {
    var a, b := EncodeScalar(c), EncodeScalar(d);
    if |a| == |b| {
      SameLengthOrder(c, d);
      BlocksOrder(a, b, x, y);
    } else {
      assert a[0] < b[0];
      assert (a + x)[0] == a[0] && (b + y)[0] == b[0];
    }
  }

  lemma SixBits(c: nat, d: nat)
    requires c < d
    ensures c / 64 < d / 64 || (c / 64 == d / 64 && c % 64 < d % 64)
  {
  }

  /** A lead byte and `n` continuation bytes. */
  function Block(lead: nat, c: nat, n: nat): (b: seq<nat>)
    ensures |b| == n + 1
  {
    if n == 0 then [lead + c] else Block(lead, c / 64, n - 1) + [0x80 + c % 64]
  }

  lemma {:induction false} BlockOrder(lead: nat, c: nat, d: nat, n: nat)
    requires c < d
    ensures Lexical.Less(Block(lead, c, n), Block(lead, d, n))
  {
    if n > 0 {
      SixBits(c, d);
      if c / 64 < d / 64 {
        BlockOrder(lead, c / 64, d / 64, n - 1);
        BlocksOrder(Block(lead, c / 64, n - 1), Block(lead, d / 64, n - 1), [0x80 + c % 64], [0x80 + d % 64]);
      } else {
        Lexical.SharedPrefix(Block(lead, c / 64, n - 1), [0x80 + c % 64], [0x80 + d % 64]);
      }
    }
  }

  function Lead(length: nat): nat {
    if length == 1 then 0 else if length == 2 then 0xC0 else if length == 3 then 0xE0 else 0xF0
  }

  lemma ScalarIsBlock(c: nat)
    requires Scalar(c)
    ensures EncodeScalar(c) == Block(Lead(|EncodeScalar(c)|), c, |EncodeScalar(c)| - 1)
  {
    var b := EncodeScalar(c);
    assert c / 64 / 64 == c / 4096 && c / 64 / 64 / 64 == c / 262144;
    if |b| > 1 {
      BlockUnfold(Lead(|b|), c, |b| - 1);
    }
    if |b| > 2 {
      BlockUnfold(Lead(|b|), c / 64, |b| - 2);
    }
    if |b| > 3 {
      BlockUnfold(Lead(|b|), c / 4096, |b| - 3);
    }
  }

  lemma BlockUnfold(lead: nat, c: nat, n: nat)
    requires 0 < n
    ensures Block(lead, c, n) == Block(lead, c / 64, n - 1) + [0x80 + c % 64]
    ensures n == 1 ==> Block(lead, c, n) == [lead + c / 64, 0x80 + c % 64]
  {
  }

  lemma SameLengthOrder(c: nat, d: nat)
    requires Scalar(c) && Scalar(d) && c < d && |EncodeScalar(c)| == |EncodeScalar(d)|
    ensures Lexical.Less(EncodeScalar(c), EncodeScalar(d))
  {
    ScalarIsBlock(c);
    ScalarIsBlock(d);
    BlockOrder(Lead(|EncodeScalar(c)|), c, d, |EncodeScalar(c)| - 1);
  }

  lemma BlocksOrder(a: seq<nat>, b: seq<nat>, x: seq<nat>, y: seq<nat>)
    requires |a| == |b| && Lexical.Less(a, b)
    ensures Lexical.Less(a + x, b + y)
  {
    assert (a + x)[1..] == a[1..] + x && (b + y)[1..] == b[1..] + y;
    if a[0] == b[0] {
      BlocksOrder(a[1..], b[1..], x, y);
    }
  }

  lemma {:induction false} OrderPreserved(s: Text, t: Text)
    requires Encodable(s) && Encodable(t) && Lexical.Less(s, t)
    ensures Lexical.Less(EncodeText(s), EncodeText(t))
  {
    if s != [] {
      if s[0] < t[0] {
        ScalarOrder(s[0], t[0], EncodeText(s[1..]), EncodeText(t[1..]));
      } else {
        OrderPreserved(s[1..], t[1..]);
        Lexical.SharedPrefix(EncodeScalar(s[0]), EncodeText(s[1..]), EncodeText(t[1..]));
      }
    }
  }

  /** The order of texts by code point is the order of their UTF-8 bytes. */
  lemma SameOrder(s: Text, t: Text)
    requires Encodable(s) && Encodable(t)
    ensures Lexical.Less(s, t) <==> Lexical.Less(EncodeText(s), EncodeText(t))
  {
    Lexical.Total(s, t);
    if Lexical.Less(s, t) {
      OrderPreserved(s, t);
    } else if Lexical.Less(t, s) {
      OrderPreserved(t, s);
      if Lexical.Less(EncodeText(s), EncodeText(t)) {
        Lexical.Transitive(EncodeText(s), EncodeText(t), EncodeText(s));
      }
      Lexical.Irreflexive(EncodeText(s));
    } else {
      Lexical.Irreflexive(EncodeText(s));
    }
  }

  /** Encoding distributes over concatenation. */
  lemma {:induction false} EncodeConcat(s: Text, t: Text)
    requires Encodable(s) && Encodable(t)
    ensures Encodable(s + t) && EncodeText(s + t) == EncodeText(s) + EncodeText(t)
  {
    hide EncodeScalar;
    if s == [] {
      assert s + t == t;
    } else {
      EncodeConcat(s[1..], t);
      assert (s + t)[1..] == s[1..] + t;
    }
  }

  lemma {:induction false} EncodeAscii(s: Text)
    requires forall i :: 0 <= i < |s| ==> s[i] < 128
    ensures Encodable(s) && |EncodeText(s)| == |s|
  {
    if s != [] {
      EncodeAscii(s[1..]);
    }
  }
}
