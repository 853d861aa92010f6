/** Lexicographic order on sequences of numbers: the order of strings by code point and of bytes. */
module Lexical {

  predicate Less(a: seq<nat>, b: seq<nat>) {
    && b != []
    && (a == [] || a[0] < b[0] || (a[0] == b[0] && Less(a[1..], b[1..])))
  }

  lemma {:induction false} Irreflexive(a: seq<nat>)
    ensures !Less(a, a)
  {
    if a != [] {
      Irreflexive(a[1..]);
    }
  }

  lemma {:induction false} Transitive(a: seq<nat>, b: seq<nat>, c: seq<nat>)
    requires Less(a, b) && Less(b, c)
    ensures Less(a, c)
  {
    if a != [] && a[0] == b[0] == c[0] {
      Transitive(a[1..], b[1..], c[1..]);
    }
  }

  lemma {:induction false} Total(a: seq<nat>, b: seq<nat>)
    ensures a == b || Less(a, b) || Less(b, a)
  {
    if a != [] && b != [] && a[0] == b[0] {
      Total(a[1..], b[1..]);
      assert a == [a[0]] + a[1..] && b == [b[0]] + b[1..];
    }
  }

  /** Two sequences compare as their first difference does. */
  lemma {:induction false} SharedPrefix(s: seq<nat>, a: seq<nat>, b: seq<nat>)
    ensures Less(s + a, s + b) <==> Less(a, b)
  {
    if s == [] {
      assert s + a == a && s + b == b;
    } else {
      SharedPrefix(s[1..], a, b);
      assert (s + a)[1..] == s[1..] + a && (s + b)[1..] == s[1..] + b;
    }
  }
}
