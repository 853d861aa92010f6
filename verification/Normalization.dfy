/** Copying an untrusted value within limits on depth, width and encoded bytes. */
module Normalization {
  import opened Wrappers
  import opened Utf8
  import opened Json

  const MAX_INPUT_BYTES := 65536
  const MAX_NORMALIZED_DEPTH := 19
  const MAX_CONTAINER_KEYS := 64
  const MAX_ARRAY_ITEMS := 256
  /** The interpreter refuses to print integers with more digits. */
  const MAX_DIGITS := 4300

  predicate DistinctKeys<T>(members: seq<Pair<T>>) {
    forall i, j :: 0 <= i < j < |members| ==> members[i].key != members[j].key
  }

  /** What may be copied at a container depth. */
  predicate Acceptable(v: Value, depth: nat)
    decreases v
  {
    match v
    case Int(n) => |Digits(if n < 0 then -n else n)| <= MAX_DIGITS
    case Str(s) => TextOk(s)
    case Arr(items) =>
      && depth <= MAX_NORMALIZED_DEPTH && |items| <= MAX_ARRAY_ITEMS
      && forall i :: 0 <= i < |items| ==> Acceptable(items[i], depth + 1)
    case Obj(members) =>
      && depth <= MAX_NORMALIZED_DEPTH && |members| <= MAX_CONTAINER_KEYS
      && DistinctKeys(members)
      && forall i :: 0 <= i < |members| ==> TextOk(members[i].key) && Acceptable(members[i].value, depth + 1)
    case Unsupported => false
    case _ => true
  }

  lemma {:induction false} AcceptableIsWritable(v: Value, depth: nat)
    requires Acceptable(v, depth)
    ensures Writable(v)
    decreases v
  {
    match v
    case Arr(items) =>
      forall i | 0 <= i < |items| ensures Writable(items[i]) {
        AcceptableIsWritable(items[i], depth + 1);
      }
    case Obj(members) =>
      forall i | 0 <= i < |members| ensures TextOk(members[i].key) && Writable(members[i].value) {
        AcceptableIsWritable(members[i].value, depth + 1);
      }
    case _ =>
  }

  /** The bytes that a copy of `v` costs. */
  function Cost(v: Value): nat {
    if Writable(v) then Weight(v) else 0
  }

  class NormalizationBudget {
    var bytesUsed: nat

    constructor ()
      ensures bytesUsed == 0
    {
      bytesUsed := 0;
    }

    method Add(size: nat) returns (within: bool)
      modifies this
      ensures bytesUsed == old(bytesUsed) + size
      ensures within <==> bytesUsed <= MAX_INPUT_BYTES
    {
      bytesUsed := bytesUsed + size;
      return bytesUsed <= MAX_INPUT_BYTES;
    }
  }

  /** Counts the bytes of a quoted string; a NUL or a surrogate is refused. */
  method JsonStringSize(s: Text) returns (size: Option<nat>)
    ensures size.Some? <==> TextOk(s)
    ensures size.Some? ==> size.value == StringWeight(s)
  {
    hide EncodeScalar;
    var counted := 2;
    for i := 0 to |s|
      invariant TextOk(s[..i])
      invariant counted == StringWeight(s[..i])
    {
      if s[i] == 0 || !Scalar(s[i]) {
        return None;
      }
      assert s[..i + 1][..i] == s[..i];
      if s[i] == 34 || s[i] == 92 || s[i] == 8 || s[i] == 12 || s[i] == 10 || s[i] == 13 || s[i] == 9 {
        counted := counted + 2;
      } else if s[i] < 0x20 {
        counted := counted + 6;
      } else {
        counted := counted + |EncodeScalar(s[i])|;
      }
    }
    assert s[..|s|] == s;
    return Some(counted);
  }

  lemma {:induction false} SumPrefix(w: seq<nat>, i: nat)
    requires i < |w|
    ensures Sum(w[..i + 1]) == Sum(w[..i]) + w[i]
    ensures Sum(w[..i]) + w[i] <= Sum(w)
  {
    assert w[..i + 1][..i] == w[..i];
    assert w == w[..i + 1] + w[i + 1..];
    SumConcat(w[..i + 1], w[i + 1..]);
  }

  /** Whether a copy at this depth succeeds with so many bytes used. */
  predicate Copyable(v: Value, depth: nat, used: nat) {
    Acceptable(v, depth) && used + Cost(v) <= MAX_INPUT_BYTES
  }

  /** What is used up after the first `i` items of an array. */
  function ItemsUsed(v: Value, i: nat): nat
    requires v.Arr? && i <= |v.items|
  {
    if Writable(v) then 2 + Separators(i) + Sum(ItemWeights(v)[..i]) else 0
  }

  function MembersUsed(v: Value, i: nat): nat
    requires v.Obj? && i <= |v.members|
  {
    if Writable(v) then 2 + Separators(i) + Sum(MemberWeights(v)[..i]) else 0
  }

  lemma ItemUse(v: Value, depth: nat, i: nat)
    requires v.Arr? && Acceptable(v, depth) && i < |v.items|
    ensures Writable(v) && Writable(v.items[i])
    ensures ItemsUsed(v, i + 1) == ItemsUsed(v, i) + (if i > 0 then 1 else 0) + Weight(v.items[i])
    ensures ItemsUsed(v, i + 1) <= Weight(v)
  {
    AcceptableIsWritable(v, depth);
    SumPrefix(ItemWeights(v), i);
  }

  lemma MemberUse(v: Value, depth: nat, i: nat)
    requires v.Obj? && Acceptable(v, depth) && i < |v.members|
    ensures Writable(v) && TextOk(v.members[i].key) && Writable(v.members[i].value)
    ensures MembersUsed(v, i + 1)
            == MembersUsed(v, i) + ((if i > 0 then 1 else 0) + StringWeight(v.members[i].key) + 1) + Weight(v.members[i].value)
    ensures MembersUsed(v, i + 1) <= Weight(v)
  {
    AcceptableIsWritable(v, depth);
    SumPrefix(MemberWeights(v), i);
  }

  /** The whole is used up after the last child. */
  lemma AllUsed(v: Value, depth: nat)
    requires (v.Arr? || v.Obj?) && Acceptable(v, depth)
    ensures v.Arr? ==> ItemsUsed(v, 0) == 2 && ItemsUsed(v, |v.items|) == Cost(v)
    ensures v.Obj? ==> MembersUsed(v, 0) == 2 && MembersUsed(v, |v.members|) == Cost(v)
    ensures 2 <= Cost(v)
  {
    AcceptableIsWritable(v, depth);
    if v.Arr? {
      assert ItemWeights(v)[..|v.items|] == ItemWeights(v) && ItemWeights(v)[..0] == [];
    } else {
      assert MemberWeights(v)[..|v.members|] == MemberWeights(v) && MemberWeights(v)[..0] == [];
    }
  }

  /** Copies a value. It succeeds exactly when the value keeps all limits, and then the counter has
      grown by the size of the compact text. */
  method CopyJsonValue(v: Value, budget: NormalizationBudget, depth: nat) returns (r: Option<Value>)
    requires budget.bytesUsed <= MAX_INPUT_BYTES
    modifies budget
    ensures r.Some? <==> Copyable(v, depth, old(budget.bytesUsed))
    ensures r.Some? ==> r.value == v && budget.bytesUsed == old(budget.bytesUsed) + Cost(v)
    decreases v, 1
  {
    var within: bool;
    match v {
      case Null =>
        within := budget.Add(4);
      case Truth(b) =>
        within := budget.Add(if b then 4 else 5);
      case Int(n) =>
        if |Digits(if n < 0 then -n else n)| > MAX_DIGITS {
          return None;
        }
        within := budget.Add(|Decimal(n)|);
      case Float(t) =>
        within := budget.Add(|t|);
      case Str(s) =>
        var size := JsonStringSize(s);
        if size.None? {
          return None;
        }
        within := budget.Add(size.value);
      case Arr(_) =>
        r := CopyArray(v, budget, depth);
        return;
      case Obj(_) =>
        r := CopyObject(v, budget, depth);
        return;
      case Unsupported =>
        return None;
    }
    return if within then Some(v) else None;
  }

  method CopyArray(v: Value, budget: NormalizationBudget, depth: nat) returns (r: Option<Value>)
    requires v.Arr? && budget.bytesUsed <= MAX_INPUT_BYTES
    modifies budget
    ensures r.Some? <==> Copyable(v, depth, old(budget.bytesUsed))
    ensures r.Some? ==> r.value == v && budget.bytesUsed == old(budget.bytesUsed) + Cost(v)
    decreases v, 0
  {
    hide Weight, ItemsUsed;
    if depth > MAX_NORMALIZED_DEPTH {
      return None;
    }
    if Acceptable(v, depth) {
      AllUsed(v, depth);
    }
    var within := budget.Add(2);
    if !within {
      return None;
    }
    var copied: seq<Value> := [];
    for i := 0 to |v.items|
      invariant copied == v.items[..i]
      invariant budget.bytesUsed <= MAX_INPUT_BYTES
      invariant i <= MAX_ARRAY_ITEMS && forall j :: 0 <= j < i ==> Acceptable(v.items[j], depth + 1)
      invariant Acceptable(v, depth) ==> budget.bytesUsed == old(budget.bytesUsed) + ItemsUsed(v, i)
    {
      if i >= MAX_ARRAY_ITEMS {
        return None;
      }
      if Acceptable(v, depth) {
        ItemUse(v, depth, i);
      }
      if i > 0 {
        within := budget.Add(1);
        if !within {
          return None;
        }
      }
      var item := CopyJsonValue(v.items[i], budget, depth + 1);
      if item.None? {
        return None;
      }
      copied := copied + [item.value];
    }
    return Some(Arr(copied));
  }

  method CopyObject(v: Value, budget: NormalizationBudget, depth: nat) returns (r: Option<Value>)
    requires v.Obj? && budget.bytesUsed <= MAX_INPUT_BYTES
    modifies budget
    ensures r.Some? <==> Copyable(v, depth, old(budget.bytesUsed))
    ensures r.Some? ==> r.value == v && budget.bytesUsed == old(budget.bytesUsed) + Cost(v)
    decreases v, 0
  {
    hide Weight, MembersUsed, StringWeight, Encodable;
    if depth > MAX_NORMALIZED_DEPTH {
      return None;
    }
    if Acceptable(v, depth) {
      AllUsed(v, depth);
    }
    var within := budget.Add(2);
    if !within {
      return None;
    }
    var copied: seq<Pair<Value>> := [];
    for i := 0 to |v.members|
      invariant copied == v.members[..i]
      invariant budget.bytesUsed <= MAX_INPUT_BYTES
      invariant i <= MAX_CONTAINER_KEYS && DistinctKeys(v.members[..i])
      invariant forall j :: 0 <= j < i ==> TextOk(v.members[j].key) && Acceptable(v.members[j].value, depth + 1)
      invariant Acceptable(v, depth) ==> budget.bytesUsed == old(budget.bytesUsed) + MembersUsed(v, i)
    {
      if i >= MAX_CONTAINER_KEYS {
        return None;
      }
      if Acceptable(v, depth) {
        MemberUse(v, depth, i);
      }
      var member := v.members[i];
      var size := JsonStringSize(member.key);
      if size.None? {
        return None;
      }
      if exists j :: 0 <= j < |copied| && copied[j].key == member.key {
        return None;
      }
      within := budget.Add((if i > 0 then 1 else 0) + size.value + 1);
      if !within {
        return None;
      }
      var item := CopyJsonValue(member.value, budget, depth + 1);
      if item.None? {
        return None;
      }
      copied := copied + [Pair(member.key, item.value)];
    }
    return Some(Obj(copied));
  }

  /** The counter of a whole copy is the length of the compact JSON text in UTF-8. */
  method Normalize(v: Value) returns (r: Option<Value>, bytes: nat)
    ensures r.Some? <==> Acceptable(v, 1) && Cost(v) <= MAX_INPUT_BYTES && v.Obj?
    ensures r.Some? ==> r.value == v && Encodable(Compact(v)) && bytes == |EncodeText(Compact(v))|
  {
    hide Acceptable, Weight;
    var budget := new NormalizationBudget();
    r := CopyJsonValue(v, budget, 1);
    bytes := budget.bytesUsed;
    if r.Some? && !r.value.Obj? {
      return None, bytes;
    }
    if r.Some? {
      AcceptableIsWritable(v, 1);
      WeightIsLength(v);
    }
  }
}
