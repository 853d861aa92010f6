/** Freezing values into immutable, key-sorted form and thawing them again. */
module FrozenJson {
  import opened Wrappers
  import opened Utf8
  import opened Json
  import opened Normalization
  import Lexical

  // ---- sorting by key ----

  function InsertPair<T>(p: Pair<T>, s: seq<Pair<T>>): seq<Pair<T>> {
    if s == [] || Lexical.Less(p.key, s[0].key) then [p] + s else [s[0]] + InsertPair(p, s[1..])
  }

  function SortPairs<T>(s: seq<Pair<T>>): seq<Pair<T>> {
    if s == [] then [] else InsertPair(s[0], SortPairs(s[1..]))
  }

  predicate KeysAscend<T>(s: seq<Pair<T>>) {
    forall i, j :: 0 <= i < j < |s| ==> Lexical.Less(s[i].key, s[j].key)
  }

  lemma {:induction false} InsertKeeps<T>(p: Pair<T>, s: seq<Pair<T>>)
    ensures multiset(InsertPair(p, s)) == multiset(s) + multiset{p}
  {
    if s != [] && !Lexical.Less(p.key, s[0].key) {
      InsertKeeps(p, s[1..]);
      assert s == [s[0]] + s[1..];
    }
  }

  /** Sorting only moves the pairs. */
  lemma {:induction false} SortKeeps<T>(s: seq<Pair<T>>)
    ensures multiset(SortPairs(s)) == multiset(s)
    ensures |SortPairs(s)| == |s|
  {
    if s != [] {
      SortKeeps(s[1..]);
      InsertKeeps(s[0], SortPairs(s[1..]));
      assert s == [s[0]] + s[1..];
    }
    assert |SortPairs(s)| == |multiset(SortPairs(s))| == |multiset(s)| == |s|;
  }

  lemma SamePlaces<T>(a: seq<Pair<T>>, b: seq<Pair<T>>)
    requires multiset(a) == multiset(b)
    ensures forall i :: 0 <= i < |a| ==> a[i] in b
    ensures forall i :: 0 <= i < |b| ==> b[i] in a
  {
    forall i | 0 <= i < |a| ensures a[i] in b {
      assert a[i] in multiset(b);
    }
    forall i | 0 <= i < |b| ensures b[i] in a {
      assert b[i] in multiset(a);
    }
  }

  lemma {:induction false} InsertAscends<T>(p: Pair<T>, s: seq<Pair<T>>)
    requires KeysAscend(s) && forall i :: 0 <= i < |s| ==> s[i].key != p.key
    ensures KeysAscend(InsertPair(p, s))
  {
    if s != [] {
      if Lexical.Less(p.key, s[0].key) {
        forall j | 0 <= j < |s| ensures Lexical.Less(p.key, s[j].key) {
          if j > 0 {
            Lexical.Transitive(p.key, s[0].key, s[j].key);
          }
        }
      } else {
        Lexical.Total(p.key, s[0].key);
        InsertAscends(p, s[1..]);
        InsertKeeps(p, s[1..]);
        assert multiset(InsertPair(p, s[1..])) == multiset([p] + s[1..]);
        SamePlaces(InsertPair(p, s[1..]), [p] + s[1..]);
      }
    }
  }

  lemma {:induction false} SortAscends<T>(s: seq<Pair<T>>)
    requires DistinctKeys(s)
    ensures KeysAscend(SortPairs(s))
  {
    if s != [] {
      SortAscends(s[1..]);
      SortKeeps(s[1..]);
      SamePlaces(SortPairs(s[1..]), s[1..]);
      InsertAscends(s[0], SortPairs(s[1..]));
    }
  }

  lemma {:induction false} SortedStays<T>(s: seq<Pair<T>>)
    requires KeysAscend(s)
    ensures SortPairs(s) == s
  {
    if s != [] {
      SortedStays(s[1..]);
      assert s == [s[0]] + s[1..];
    }
  }

  lemma AscendingDistinct<T>(s: seq<Pair<T>>)
    requires KeysAscend(s)
    ensures DistinctKeys(s)
  {
    forall i, j | 0 <= i < j < |s| ensures s[i].key != s[j].key {
      Lexical.Irreflexive(s[i].key);
    }
  }

  lemma SameLeast<T>(a: seq<Pair<T>>, b: seq<Pair<T>>)
    requires KeysAscend(a) && KeysAscend(b) && multiset(a) == multiset(b) && a != [] && b != []
    ensures a[0] == b[0]
  {
    SamePlaces(a, b);
    var i :| 0 <= i < |b| && b[i] == a[0];
    var j :| 0 <= j < |a| && a[j] == b[0];
    if i > 0 && j > 0 {
      Lexical.Transitive(a[0].key, a[j].key, a[0].key);
      Lexical.Irreflexive(a[0].key);
    }
  }

  /** Two orders of the same pairs, with every key once, sort alike. */
  lemma {:induction false} AscendingUnique<T>(a: seq<Pair<T>>, b: seq<Pair<T>>)
    requires KeysAscend(a) && KeysAscend(b) && multiset(a) == multiset(b)
    ensures a == b
  {
    assert |a| == |multiset(a)| == |multiset(b)| == |b|;
    if a != [] {
      SameLeast(a, b);
      TakeOut(a, 0);
      TakeOut(b, 0);
      assert a[..0] + a[1..] == a[1..] && b[..0] + b[1..] == b[1..];
      assert multiset(a[1..]) == multiset(a) - multiset{a[0]} == multiset(b[1..]);
      AscendingUnique(a[1..], b[1..]);
    }
  }

  // ---- mapping the values of pairs ----

  function MapPairs<T, U>(f: T -> U, s: seq<Pair<T>>): (r: seq<Pair<U>>)
    ensures |r| == |s|
  {
    seq(|s|, i requires 0 <= i < |s| => Pair(s[i].key, f(s[i].value)))
  }

  lemma {:induction false} InsertCommutes<T, U>(f: T -> U, p: Pair<T>, s: seq<Pair<T>>)
    ensures MapPairs(f, InsertPair(p, s)) == InsertPair(Pair(p.key, f(p.value)), MapPairs(f, s))
  {
    if s != [] && !Lexical.Less(p.key, s[0].key) {
      InsertCommutes(f, p, s[1..]);
      assert MapPairs(f, s)[1..] == MapPairs(f, s[1..]);
      assert MapPairs(f, [s[0]] + InsertPair(p, s[1..])) == [Pair(s[0].key, f(s[0].value))] + MapPairs(f, InsertPair(p, s[1..]));
    }
  }

  lemma {:induction false} SortCommutes<T, U>(f: T -> U, s: seq<Pair<T>>)
    ensures MapPairs(f, SortPairs(s)) == SortPairs(MapPairs(f, s))
  {
    if s != [] {
      SortCommutes(f, s[1..]);
      InsertCommutes(f, s[0], SortPairs(s[1..]));
      assert MapPairs(f, s)[1..] == MapPairs(f, s[1..]);
    }
  }

  // ---- freezing ----

  datatype Frozen =
    | Plain(value: Value)
    | FrozenArray(items: seq<Frozen>)
    | FrozenObject(members: seq<Pair<Frozen>>)

  function Freeze(v: Value): Frozen {
    match v
    case Arr(items) => FrozenArray(seq(|items|, i requires 0 <= i < |items| => Freeze(items[i])))
    case Obj(members) =>
      FrozenObject(SortPairs(seq(|members|, i requires 0 <= i < |members| => Pair(members[i].key, Freeze(members[i].value)))))
    case _ => Plain(v)
  }

  function Thaw(f: Frozen): Value {
    match f
    case Plain(v) => v
    case FrozenArray(items) => Arr(seq(|items|, i requires 0 <= i < |items| => Thaw(items[i])))
    case FrozenObject(members) =>
      Obj(seq(|members|, i requires 0 <= i < |members| => Pair(members[i].key, Thaw(members[i].value))))
  }

  /** The value with the keys of every object in order. */
  function Canon(v: Value): Value {
    match v
    case Arr(items) => Arr(seq(|items|, i requires 0 <= i < |items| => Canon(items[i])))
    case Obj(members) =>
      Obj(SortPairs(seq(|members|, i requires 0 <= i < |members| => Pair(members[i].key, Canon(members[i].value)))))
    case _ => v
  }

  lemma ObjectForms(v: Value)
    requires v.Obj?
    ensures Canon(v) == Obj(SortPairs(MapPairs(Canon, v.members)))
    ensures Freeze(v) == FrozenObject(SortPairs(MapPairs(Freeze, v.members)))
  {
    assert MapPairs(Canon, v.members)
        == seq(|v.members|, i requires 0 <= i < |v.members| => Pair(v.members[i].key, Canon(v.members[i].value)));
    assert MapPairs(Freeze, v.members)
        == seq(|v.members|, i requires 0 <= i < |v.members| => Pair(v.members[i].key, Freeze(v.members[i].value)));
  }

  lemma ThawForm(f: Frozen)
    requires f.FrozenObject?
    ensures Thaw(f) == Obj(MapPairs(Thaw, f.members))
  {
  }

  /** Thawing undoes freezing up to the order of keys. */
  lemma {:induction false} ThawFreeze(v: Value)
    ensures Thaw(Freeze(v)) == Canon(v)
    decreases v
  {
    match v
    case Arr(items) =>
      forall i | 0 <= i < |items| ensures Thaw(Freeze(items[i])) == Canon(items[i]) {
        ThawFreeze(items[i]);
      }
    case Obj(members) =>
      forall i | 0 <= i < |members| ensures Thaw(Freeze(members[i].value)) == Canon(members[i].value) {
        ThawFreeze(members[i].value);
      }
      ThawSorted(v);
    case _ =>
  }

  lemma ThawSorted(v: Value)
    requires v.Obj? && forall i :: 0 <= i < |v.members| ==>
               Thaw(Freeze(v.members[i].value)) == Canon(v.members[i].value)
    ensures Thaw(Freeze(v)) == Canon(v)
  {
    hide Thaw, Freeze, Canon;
    var frozen := MapPairs(Freeze, v.members);
    ObjectForms(v);
    ThawForm(Freeze(v));
    SortCommutes(Thaw, frozen);
    assert MapPairs(Thaw, frozen) == MapPairs(Canon, v.members);
  }

  /** Freezing does not see the order of keys. */
  lemma {:induction false} FreezeCanon(v: Value, depth: nat)
    requires Acceptable(v, depth)
    ensures Freeze(Canon(v)) == Freeze(v)
    decreases v
  {
    match v
    case Arr(items) =>
      forall i | 0 <= i < |items| ensures Freeze(Canon(items[i])) == Freeze(items[i]) {
        FreezeCanon(items[i], depth + 1);
      }
    case Obj(members) =>
      forall i | 0 <= i < |members| ensures Freeze(Canon(members[i].value)) == Freeze(members[i].value) {
        FreezeCanon(members[i].value, depth + 1);
      }
      FreezeSorted(v);
    case _ =>
  }

  lemma FreezeSorted(v: Value)
    requires v.Obj? && DistinctKeys(v.members)
    requires forall i :: 0 <= i < |v.members| ==> Freeze(Canon(v.members[i].value)) == Freeze(v.members[i].value)
    ensures Freeze(Canon(v)) == Freeze(v)
  {
    hide Thaw, Freeze, Canon;
    var canon, frozen := MapPairs(Canon, v.members), MapPairs(Freeze, v.members);
    ObjectForms(v);
    ObjectForms(Canon(v));
    SortCommutes(Freeze, canon);
    assert MapPairs(Freeze, canon) == frozen;
    SortAscends(frozen);
    SortedStays(SortPairs(frozen));
  }

  // ---- what does not depend on the order of keys ----

  /** The members of the canonical value, up to order. */
  lemma CanonMembers(v: Value)
    requires v.Obj?
    ensures Canon(v).Obj? && |Canon(v).members| == |v.members|
    ensures multiset(Canon(v).members) == multiset(MapPairs(Canon, v.members))
    ensures DistinctKeys(v.members) ==> KeysAscend(Canon(v).members) && DistinctKeys(Canon(v).members)
    ensures forall m :: m in Canon(v).members <==> m in MapPairs(Canon, v.members)
  {
    hide Canon;
    ObjectForms(v);
    SortKeeps(MapPairs(Canon, v.members));
    SamePlaces(Canon(v).members, MapPairs(Canon, v.members));
    if DistinctKeys(v.members) {
      SortAscends(MapPairs(Canon, v.members));
      AscendingDistinct(Canon(v).members);
    }
  }

  lemma {:induction false} AcceptableCanon(v: Value, depth: nat)
    requires Acceptable(v, depth)
    ensures Acceptable(Canon(v), depth)
    decreases v
  {
    match v
    case Arr(items) =>
      forall i | 0 <= i < |items| ensures Acceptable(Canon(items[i]), depth + 1) {
        AcceptableCanon(items[i], depth + 1);
      }
    case Obj(members) =>
      forall i | 0 <= i < |members| ensures Acceptable(Canon(members[i].value), depth + 1) {
        AcceptableCanon(members[i].value, depth + 1);
      }
      CanonMembers(v);
      assert forall j :: 0 <= j < |Canon(v).members| ==> Canon(v).members[j] in MapPairs(Canon, members);
    case _ =>
  }

  function PairCost(p: Pair<Value>): nat {
    (if Encodable(p.key) then StringWeight(p.key) else 0) + 1 + Cost(p.value)
  }

  lemma ObjectCost(v: Value)
    requires v.Obj? && Writable(v)
    ensures Cost(v) == 2 + Separators(|v.members|) + Sum(Apply(PairCost, v.members))
  {
    forall i | 0 <= i < |v.members| ensures MemberWeights(v)[i] == PairCost(v.members[i]) {
      assert TextOk(v.members[i].key) && Writable(v.members[i].value);
    }
    assert MemberWeights(v) == Apply(PairCost, v.members);
  }

  lemma {:induction false} WritableCanon(v: Value)
    requires Writable(v)
    ensures Writable(Canon(v))
    decreases v
  {
    match v
    case Arr(items) =>
      forall i | 0 <= i < |items| ensures Writable(Canon(items[i])) {
        WritableCanon(items[i]);
      }
    case Obj(members) =>
      forall i | 0 <= i < |members| ensures Writable(Canon(members[i].value)) {
        WritableCanon(members[i].value);
      }
      CanonMembers(v);
      assert forall j :: 0 <= j < |Canon(v).members| ==> Canon(v).members[j] in MapPairs(Canon, members);
    case _ =>
  }

  /** The size of the compact text does not depend on the order of keys. */
  lemma {:induction false} CostCanon(v: Value)
    requires Writable(v)
    ensures Writable(Canon(v)) && Cost(Canon(v)) == Cost(v)
    decreases v
  {
    WritableCanon(v);
    match v
    case Arr(items) =>
      forall i | 0 <= i < |items| ensures Cost(Canon(items[i])) == Cost(items[i]) {
        CostCanon(items[i]);
      }
      assert ItemWeights(Canon(v)) == ItemWeights(v);
    case Obj(members) =>
      forall i | 0 <= i < |members| ensures Cost(Canon(members[i].value)) == Cost(members[i].value) {
        CostCanon(members[i].value);
      }
      ObjectCostCanon(v);
    case _ =>
  }

  lemma ObjectCostCanon(v: Value)
    requires v.Obj? && Writable(v) && Writable(Canon(v))
    requires forall i :: 0 <= i < |v.members| ==> Cost(Canon(v.members[i].value)) == Cost(v.members[i].value)
    ensures Cost(Canon(v)) == Cost(v)
  {
    hide Canon, Cost, Sum;
    CanonMembers(v);
    ObjectCost(v);
    ObjectCost(Canon(v));
    SumPermuted(PairCost, Canon(v).members, MapPairs(Canon, v.members));
    assert Apply(PairCost, MapPairs(Canon, v.members)) == Apply(PairCost, v.members);
  }
}
