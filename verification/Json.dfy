/** JSON values, their compact text (RFC 8259), and the size that text has in UTF-8. */
module Json {
  import opened Wrappers
  import opened Utf8

  type AsciiText = t: Text | forall i :: 0 <= i < |t| ==> t[i] < 128 witness []

  datatype Pair<T> = Pair(key: Text, value: T)

  /** A decoded value. Objects keep the order of their keys; `Unsupported` stands for numbers that
      are not finite and for values JSON does not know. */
  datatype Value =
    | Null
    | Truth(truth: bool)
    | Int(number: int)
    | Float(literal: AsciiText)
    | Str(text: Text)
    | Arr(items: seq<Value>)
    | Obj(members: seq<Pair<Value>>)
    | Unsupported

  // ---- the text ----

  function Digits(n: nat): (t: AsciiText)
    ensures 0 < |t|
  {
    if n < 10 then [48 + n] else Digits(n / 10) + [48 + n % 10]
  }

  function Decimal(n: int): AsciiText {
    if n < 0 then [45] + Digits(-n) else Digits(n)
  }

  function HexDigitOf(n: nat): nat
    requires n < 16
  {
    if n < 10 then 48 + n else 87 + n
  }

  /** One character inside a string, escaped as section 7 of RFC 8259 requires. */
  function Escaped(c: nat): Text {
    if c == 34 then [92, 34]
    else if c == 92 then [92, 92]
    else if c == 8 then [92, 98]
    else if c == 12 then [92, 102]
    else if c == 10 then [92, 110]
    else if c == 13 then [92, 114]
    else if c == 9 then [92, 116]
    else if c < 0x20 then [92, 117, 48, 48, HexDigitOf(c / 16), HexDigitOf(c % 16)]
    else [c]
  }

  function EscapedText(s: Text): Text {
    if s == [] then [] else EscapedText(s[..|s| - 1]) + Escaped(s[|s| - 1])
  }

  function Quoted(s: Text): Text {
    [34] + EscapedText(s) + [34]
  }

  function Commas(parts: seq<Text>): Text {
    if parts == [] then []
    else if |parts| == 1 then parts[0]
    else Commas(parts[..|parts| - 1]) + [44] + parts[|parts| - 1]
  }

  function Compact(v: Value): Text
    decreases v, 1
  {
    match v
    case Null => Code("null")
    case Truth(b) => if b then Code("true") else Code("false")
    case Int(n) => Decimal(n)
    case Float(t) => t
    case Str(s) => Quoted(s)
    case Arr(_) => [91] + Commas(ItemTexts(v)) + [93]
    case Obj(_) => [123] + Commas(MemberTexts(v)) + [125]
    case Unsupported => []
  }

  function ItemTexts(v: Value): (parts: seq<Text>)
    requires v.Arr?
    ensures |parts| == |v.items|
    decreases v, 0
  {
    seq(|v.items|, i requires 0 <= i < |v.items| => Compact(v.items[i]))
  }

  function MemberTexts(v: Value): (parts: seq<Text>)
    requires v.Obj?
    ensures |parts| == |v.members|
    decreases v, 0
  {
    seq(|v.members|, i requires 0 <= i < |v.members| => Quoted(v.members[i].key) + [58] + Compact(v.members[i].value))
  }

  // ---- its size ----

  predicate TextOk(s: Text) {
    Encodable(s) && 0 !in s
  }

  /** Every string and key can be written, and nothing is unsupported. */
  predicate Writable(v: Value) {
    match v
    case Str(s) => TextOk(s)
    case Arr(items) => forall i :: 0 <= i < |items| ==> Writable(items[i])
    case Obj(members) => forall i :: 0 <= i < |members| ==> TextOk(members[i].key) && Writable(members[i].value)
    case Unsupported => false
    case _ => true
  }

  function Sum(s: seq<nat>): nat {
    if s == [] then 0 else Sum(s[..|s| - 1]) + s[|s| - 1]
  }

  function Separators(n: nat): nat {
    if n == 0 then 0 else n - 1
  }

  function CharWeight(c: nat): nat
    requires Scalar(c)
  {
    if c == 34 || c == 92 || c == 8 || c == 12 || c == 10 || c == 13 || c == 9 then 2
    else if c < 0x20 then 6
    else |EncodeScalar(c)|
  }

  function StringWeight(s: Text): nat
    requires Encodable(s)
  {
    if s == [] then 2 else StringWeight(s[..|s| - 1]) + CharWeight(s[|s| - 1])
  }

  function Weight(v: Value): nat
    requires Writable(v)
    decreases v, 1
  {
    match v
    case Null => 4
    case Truth(b) => if b then 4 else 5
    case Int(n) => |Decimal(n)|
    case Float(t) => |t|
    case Str(s) => StringWeight(s)
    case Arr(items) => 2 + Separators(|items|) + Sum(ItemWeights(v))
    case Obj(members) => 2 + Separators(|members|) + Sum(MemberWeights(v))
  }

  function ItemWeights(v: Value): (w: seq<nat>)
    requires Writable(v) && v.Arr?
    ensures |w| == |v.items|
    decreases v, 0
  {
    seq(|v.items|, i requires 0 <= i < |v.items| => Weight(v.items[i]))
  }

  function MemberWeights(v: Value): (w: seq<nat>)
    requires Writable(v) && v.Obj?
    ensures |w| == |v.members|
    decreases v, 0
  {
    seq(|v.members|, i requires 0 <= i < |v.members| => StringWeight(v.members[i].key) + 1 + Weight(v.members[i].value))
  }

  lemma CharWeightIsLength(c: nat)
    requires Scalar(c)
    ensures Encodable(Escaped(c)) && |EncodeText(Escaped(c))| == CharWeight(c)
  {
    if c >= 0x20 && c != 34 && c != 92 {
      assert Escaped(c)[1..] == [];
      assert EncodeText(Escaped(c)) == EncodeScalar(c) + [];
    } else {
      EncodeAscii(Escaped(c));
    }
  }

  lemma {:induction false} EscapedWeight(s: Text)
    requires Encodable(s)
    ensures Encodable(EscapedText(s)) && |EncodeText(EscapedText(s))| + 2 == StringWeight(s)
  {
    if s != [] {
      EscapedWeight(s[..|s| - 1]);
      CharWeightIsLength(s[|s| - 1]);
      EncodeConcat(EscapedText(s[..|s| - 1]), Escaped(s[|s| - 1]));
    }
  }

  lemma StringWeightIsLength(s: Text)
    requires Encodable(s)
    ensures Encodable(Quoted(s)) && |EncodeText(Quoted(s))| == StringWeight(s)
  {
    EscapedWeight(s);
    EncodeAscii([34]);
    EncodeConcat([34], EscapedText(s));
    EncodeConcat([34] + EscapedText(s), [34]);
  }

  lemma {:induction false} CommasWeight(parts: seq<Text>, w: seq<nat>)
    requires |parts| == |w|
    requires forall i :: 0 <= i < |parts| ==> Encodable(parts[i]) && |EncodeText(parts[i])| == w[i]
    ensures Encodable(Commas(parts)) && |EncodeText(Commas(parts))| == Separators(|w|) + Sum(w)
  {
    if |parts| == 1 {
      assert w[..0] == [];
    } else if |parts| > 1 {
      var n := |parts| - 1;
      CommasWeight(parts[..n], w[..n]);
      EncodeAscii([44]);
      EncodeConcat(Commas(parts[..n]), [44]);
      EncodeConcat(Commas(parts[..n]) + [44], parts[n]);
    }
  }

  lemma Bracketed(a: nat, inner: Text, b: nat)
    requires a < 128 && b < 128 && Encodable(inner)
    ensures Encodable([a] + inner + [b]) && |EncodeText([a] + inner + [b])| == 2 + |EncodeText(inner)|
  {
    EncodeAscii([a]);
    EncodeAscii([b]);
    EncodeConcat([a], inner);
    EncodeConcat([a] + inner, [b]);
  }

  lemma MemberWeightIsLength(key: Text, value: Text, w: nat)
    requires Encodable(key) && Encodable(value) && |EncodeText(value)| == w
    ensures Encodable(Quoted(key) + [58] + value)
    ensures |EncodeText(Quoted(key) + [58] + value)| == StringWeight(key) + 1 + w
  {
    StringWeightIsLength(key);
    EncodeAscii([58]);
    EncodeConcat(Quoted(key), [58]);
    EncodeConcat(Quoted(key) + [58], value);
  }

  /** The weight is the length of the compact text in UTF-8. */
  lemma {:induction false} WeightIsLength(v: Value)
    requires Writable(v)
    ensures Encodable(Compact(v)) && |EncodeText(Compact(v))| == Weight(v)
    decreases v
  {
    match v
    case Null => EncodeAscii(Code("null"));
    case Truth(b) => EncodeAscii(Compact(v));
    case Int(n) => EncodeAscii(Decimal(n));
    case Float(t) => EncodeAscii(t);
    case Str(s) => StringWeightIsLength(s);
    case Arr(items) =>
      forall i | 0 <= i < |items|
        ensures Encodable(ItemTexts(v)[i]) && |EncodeText(ItemTexts(v)[i])| == ItemWeights(v)[i]
      {
        WeightIsLength(items[i]);
      }
      CommasWeight(ItemTexts(v), ItemWeights(v));
      Bracketed(91, Commas(ItemTexts(v)), 93);
    case Obj(members) =>
      forall i | 0 <= i < |members|
        ensures Encodable(MemberTexts(v)[i]) && |EncodeText(MemberTexts(v)[i])| == MemberWeights(v)[i]
      {
        WeightIsLength(members[i].value);
        MemberWeightIsLength(members[i].key, Compact(members[i].value), Weight(members[i].value));
      }
      CommasWeight(MemberTexts(v), MemberWeights(v));
      Bracketed(123, Commas(MemberTexts(v)), 125);
  }

  // ---- sums ----

  lemma {:induction false} SumConcat(a: seq<nat>, b: seq<nat>)
    ensures Sum(a + b) == Sum(a) + Sum(b)
  {
    if b == [] {
      assert a + b == a;
    } else {
      var n := |b| - 1;
      SumConcat(a, b[..n]);
      assert (a + b)[..|a| + n] == a + b[..n];
    }
  }

  function Apply<T>(f: T -> nat, s: seq<T>): (w: seq<nat>)
    ensures |w| == |s|
  {
    seq(|s|, i requires 0 <= i < |s| => f(s[i]))
  }

  lemma SumSplit<T>(f: T -> nat, a: seq<T>, x: T, b: seq<T>)
    ensures Sum(Apply(f, a + [x] + b)) == Sum(Apply(f, a + b)) + f(x)
  {
    assert Apply(f, a + [x] + b) == Apply(f, a) + [f(x)] + Apply(f, b);
    assert Apply(f, a + b) == Apply(f, a) + Apply(f, b);
    SumConcat(Apply(f, a) + [f(x)], Apply(f, b));
    SumConcat(Apply(f, a), [f(x)]);
    SumConcat(Apply(f, a), Apply(f, b));
    assert [f(x)][..0] == [];
  }

  lemma TakeOut<T>(s: seq<T>, k: nat)
    requires k < |s|
    ensures s == s[..k] + [s[k]] + s[k + 1..]
    ensures multiset(s) == multiset(s[..k] + s[k + 1..]) + multiset{s[k]}
  {
    assert s == s[..k] + [s[k]] + s[k + 1..];
  }

  lemma TakeSame<T>(a: seq<T>, b: seq<T>) returns (k: nat)
    requires multiset(a) == multiset(b) && a != []
    ensures k < |b| && b[k] == a[0] && multiset(a[1..]) == multiset(b[..k] + b[k + 1..])
  {
    assert a[0] in multiset(b);
    k :| k < |b| && b[k] == a[0];
    TakeOut(a, 0);
    TakeOut(b, k);
    assert a[..0] + a[1..] == a[1..];
    var rest, others := multiset(a[1..]), multiset(b[..k] + b[k + 1..]);
    assert multiset(a) == rest + multiset{a[0]} && multiset(b) == others + multiset{a[0]};
    SameRest(rest, others, a[0]);
  }

  lemma SameRest<T>(m: multiset<T>, n: multiset<T>, x: T)
    requires m + multiset{x} == n + multiset{x}
    ensures m == n
  {
    assert m == (m + multiset{x}) - multiset{x};
    assert n == (n + multiset{x}) - multiset{x};
  }

  /** A sum over the elements does not depend on their order. */
  lemma {:induction false} SumPermuted<T>(f: T -> nat, a: seq<T>, b: seq<T>)
    requires multiset(a) == multiset(b)
    ensures Sum(Apply(f, a)) == Sum(Apply(f, b))
  {
    hide Sum, Apply;
    if a == [] {
      assert |b| == |multiset(b)| == 0;
    } else {
      var k := TakeSame(a, b);
      SumPermuted(f, a[1..], b[..k] + b[k + 1..]);
      SumSplit(f, [], a[0], a[1..]);
      SumSplit(f, b[..k], b[k], b[k + 1..]);
      assert [] + [a[0]] + a[1..] == a && [] + a[1..] == a[1..];
      assert b[..k] + [b[k]] + b[k + 1..] == b;
    }
  }
}
