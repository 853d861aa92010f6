/** A parsed action given back as a value parses to itself. */
module Reparsing {
  import opened Wrappers
  import opened Utf8
  import opened Json
  import opened Normalization
  import opened FrozenJson
  import opened Actions

  // ---- checks that do not depend on the order of keys ----

  lemma CanonShape(v: Value)
    ensures v.Arr? <==> Canon(v).Arr?
    ensures v.Obj? <==> Canon(v).Obj?
    ensures !v.Arr? && !v.Obj? ==> Canon(v) == v
    ensures v.Arr? ==> |Canon(v).items| == |v.items| && forall i :: 0 <= i < |v.items| ==>
              Canon(v).items[i] == Canon(v.items[i])
  {
  }

  /** Every member of a canonical object comes from one of the original. */
  lemma CanonMemberFrom(v: Value, j: nat) returns (i: nat)
    requires v.Obj? && Canon(v).Obj? && j < |Canon(v).members|
    ensures i < |v.members| && Canon(v).members[j] == Pair(v.members[i].key, Canon(v.members[i].value))
  {
    CanonMembers(v);
    assert Canon(v).members[j] in MapPairs(Canon, v.members);
    i :| i < |v.members| && MapPairs(Canon, v.members)[i] == Canon(v).members[j];
  }

  lemma {:induction false} NoCommandsCanon(v: Value, forbidden: Text -> bool)
    requires NoCommands(v, forbidden)
    ensures NoCommands(Canon(v), forbidden)
    decreases v
  {
    CanonShape(v);
    match v
    case Arr(items) =>
      forall i | 0 <= i < |items| ensures NoCommands(Canon(items[i]), forbidden) {
        NoCommandsCanon(items[i], forbidden);
      }
    case Obj(members) =>
      var canon := Canon(v);
      forall j | 0 <= j < |canon.members|
        ensures !forbidden(canon.members[j].key) && NoCommands(canon.members[j].value, forbidden)
      {
        var i := CanonMemberFrom(v, j);
        NoCommandsCanon(members[i].value, forbidden);
      }
    case _ =>
  }

  lemma {:induction false} BoundedCanon(v: Value, depth: nat, forbidden: Text -> bool)
    requires Bounded(v, depth, forbidden)
    ensures Bounded(Canon(v), depth, forbidden)
    decreases v
  {
    CanonShape(v);
    match v
    case Arr(items) =>
      forall i | 0 <= i < |items| ensures Bounded(Canon(items[i]), depth + 1, forbidden) {
        BoundedCanon(items[i], depth + 1, forbidden);
      }
    case Obj(members) =>
      CanonMembers(v);
      var canon := Canon(v);
      forall j | 0 <= j < |canon.members|
        ensures !forbidden(canon.members[j].key) && Bounded(canon.members[j].value, depth + 1, forbidden)
      {
        var i := CanonMemberFrom(v, j);
        BoundedCanon(members[i].value, depth + 1, forbidden);
      }
    case _ =>
  }

  lemma BoundedObjectCanon(v: Value, forbidden: Text -> bool)
    requires BoundedObject(v, forbidden)
    ensures BoundedObject(Canon(v), forbidden)
  {
    hide Bounded, Canon;
    BoundedCanon(v, 1, forbidden);
    CanonMembers(v);
  }

  lemma PathsCanon(v: Value, required: bool)
    requires PathsOk(v, required)
    ensures PathsOk(Canon(v), required)
  {
    hide Canon;
    CanonShape(v);
    forall i | 0 <= i < |v.items| ensures PlainString(Canon(v.items[i])) {
      CanonShape(v.items[i]);
    }
  }

  lemma BudgetCanon(v: Value)
    requires BudgetOk(v)
    ensures BudgetOk(Canon(v))
  {
    hide Canon, BudgetKeyOk;
    CanonMembers(v);
    var canon := Canon(v);
    forall j | 0 <= j < |canon.members|
      ensures BudgetKeyOk(canon.members[j].key) && IntegerOk(canon.members[j].value, 0)
    {
      var i := CanonMemberFrom(v, j);
      CanonShape(v.members[i].value);
    }
    var i :| 0 <= i < |v.members| && v.members[i].value.Int? && v.members[i].value.number > 0;
    CanonShape(v.members[i].value);
    assert MapPairs(Canon, v.members)[i] in canon.members;
    var j :| 0 <= j < |canon.members| && canon.members[j] == MapPairs(Canon, v.members)[i];
  }

  lemma KeysCanon(v: Value)
    requires v.Obj? && Canon(v).Obj?
    ensures Keys(Canon(v).members) == Keys(v.members)
  {
    hide Canon;
    CanonMembers(v);
    var canon, mapped := Canon(v).members, MapPairs(Canon, v.members);
    forall k | k in Keys(v.members) ensures k in Keys(canon) {
      var i :| 0 <= i < |v.members| && v.members[i].key == k;
      assert mapped[i] in canon;
      var j :| 0 <= j < |canon| && canon[j] == mapped[i];
    }
    forall k | k in Keys(canon) ensures k in Keys(v.members) {
      var j :| 0 <= j < |canon| && canon[j].key == k;
      var i := CanonMemberFrom(v, j);
      assert v.members[i].key == k;
    }
  }

  lemma FindCanon(v: Value, key: Text)
    requires v.Obj? && Canon(v).Obj? && DistinctKeys(v.members)
    ensures DistinctKeys(Canon(v).members)
    ensures Find(v.members, key).None? <==> Find(Canon(v).members, key).None?
    ensures Find(v.members, key).Some? ==> Find(Canon(v).members, key) == Some(Canon(Find(v.members, key).value))
  {
    hide Canon, Find;
    CanonMembers(v);
    KeysCanon(v);
    FindAt(v.members, key);
    FindAt(Canon(v).members, key);
    if key in Keys(v.members) {
      var i :| 0 <= i < |v.members| && v.members[i].key == key;
      var canon, mapped := Canon(v).members, MapPairs(Canon, v.members);
      assert mapped[i] in canon;
      var j :| 0 <= j < |canon| && canon[j] == mapped[i];
    }
  }

  lemma ControlCanon(t: Text, v: Value, forbidden: Text -> bool)
    requires ControlField(t).Some? && ControlOk(t, v, forbidden)
    ensures ControlOk(t, Canon(v), forbidden)
  {
    hide Canon, ControlField, BoundedObject, Find, Code;
    CanonShape(v);
    KeysCanon(v);
    FindCanon(v, ControlField(t).value);
    var argument := Find(v.members, ControlField(t).value).value;
    CanonShape(argument);
    if BoundedObject(argument, forbidden) {
      BoundedObjectCanon(argument, forbidden);
    }
  }

  lemma FieldCanon(t: Text, key: Text, v: Value, forbidden: Text -> bool)
    requires FieldOk(t, key, v, forbidden)
    ensures FieldOk(t, key, Canon(v), forbidden)
  {
    hide Canon, Code, BoundedObject, PathsOk, TextOk, PathsRequired, StringFields;
    CanonShape(v);
    if PathsOk(v, PathsRequired(t)) {
      PathsCanon(v, PathsRequired(t));
    }
    if BoundedObject(v, forbidden) {
      BoundedObjectCanon(v, forbidden);
    }
  }

  lemma FieldsCanon(t: Text, v: Value, forbidden: Text -> bool)
    requires v.Obj? && Canon(v).Obj? && DistinctKeys(v.members) && FieldsOk(t, v.members, forbidden)
    ensures FieldsOk(t, Canon(v).members, forbidden)
  {
    hide Canon, Find, FieldOk, Code;
    KeysCanon(v);
    forall key | key in Keys(v.members)
      ensures Find(Canon(v).members, key).Some? && FieldOk(t, key, Find(Canon(v).members, key).value, forbidden)
    {
      FindCanon(v, key);
      FieldCanon(t, key, Find(v.members, key).value, forbidden);
    }
  }

  lemma OperationCanon(t: Text, v: Value)
    requires v.Obj? && Canon(v).Obj? && DistinctKeys(v.members) && OperationOk(t, v.members)
    ensures OperationOk(t, Canon(v).members)
  {
    hide Canon, Find, Code, TextOk;
    if t == Code("run_validation") {
      var profile, operation := Find(v.members, Code("profile")).value, Find(v.members, Code("operation")).value;
      FindCanon(v, Code("profile"));
      FindCanon(v, Code("operation"));
      CanonShape(profile);
      CanonShape(operation);
    }
  }

  lemma ToolCanon(t: Text, v: Value, forbidden: Text -> bool)
    requires SchemaOf(t).Some? && ToolOk(t, v, forbidden)
    ensures ToolOk(t, Canon(v), forbidden)
  {
    hide Canon, SchemaOf, FieldsOk, OperationOk, NoCommands;
    CanonMembers(v);
    KeysCanon(v);
    FieldsCanon(t, v, forbidden);
    OperationCanon(t, v);
    NoCommandsCanon(v, forbidden);
  }

  // ---- the same fields in another order ----

  lemma {:induction false} OnceEach<T>(s: seq<Pair<T>>, p: Pair<T>)
    requires DistinctKeys(s)
    ensures multiset(s)[p] == if p in s then 1 else 0
  {
    if s != [] {
      OnceEach(s[1..], p);
      assert s == [s[0]] + s[1..];
      if p == s[0] {
        assert p !in s[1..];
      }
    }
  }

  /** Objects with the same fields differ only in order. */
  lemma SameFields<T>(a: seq<Pair<T>>, b: seq<Pair<T>>)
    requires DistinctKeys(a) && DistinctKeys(b) && Keys(a) == Keys(b)
    requires forall k :: k in Keys(a) ==> Find(a, k) == Find(b, k)
    ensures multiset(a) == multiset(b)
  {
    hide Find;
    forall p: Pair<T> ensures multiset(a)[p] == multiset(b)[p] {
      OnceEach(a, p);
      OnceEach(b, p);
      FindAt(a, p.key);
      FindAt(b, p.key);
      if p in a {
        assert p.key in Keys(a);
        var j :| 0 <= j < |b| && b[j].key == p.key;
        assert b[j] == p;
      }
      if p in b {
        assert p.key in Keys(b);
        var j :| 0 <= j < |a| && a[j].key == p.key;
        assert a[j] == p;
      }
    }
  }

  /** The five fields have five names. */
  lemma DictFields(id: Value, t: Value, parameters: Value, budget: Value, expected: Value)
    ensures var m := Dict(id, t, parameters, budget, expected).members;
            && DistinctKeys(m) && Keys(m) == TopLevel()
            && Find(m, Code("action_id")) == Some(id)
            && Find(m, Code("action_type")) == Some(t)
            && Find(m, Code("parameters")) == Some(parameters)
            && Find(m, Code("budget_impact")) == Some(budget)
            && Find(m, Code("expected_result_type")) == Some(expected)
  {
    hide Code, Find;
    var m := Dict(id, t, parameters, budget, expected).members;
    assert |m[0].key| == 9 && |m[1].key| == 11 && |m[2].key| == 10 && |m[3].key| == 13 && |m[4].key| == 20;
    FindAt(m, m[0].key);
    FindAt(m, m[1].key);
    FindAt(m, m[2].key);
    FindAt(m, m[3].key);
    FindAt(m, m[4].key);
    assert Keys(m) == {m[0].key, m[1].key, m[2].key, m[3].key, m[4].key};
  }

  /** An object with the five fields is, but for their order, the dictionary of them. */
  lemma RawIsDict(raw: Value, id: Value, t: Value, parameters: Value, budget: Value, expected: Value)
    requires raw.Obj? && DistinctKeys(raw.members) && Keys(raw.members) == TopLevel()
    requires Find(raw.members, Code("action_id")) == Some(id)
    requires Find(raw.members, Code("action_type")) == Some(t)
    requires Find(raw.members, Code("parameters")) == Some(parameters)
    requires Find(raw.members, Code("budget_impact")) == Some(budget)
    requires Find(raw.members, Code("expected_result_type")) == Some(expected)
    ensures multiset(raw.members) == multiset(Dict(id, t, parameters, budget, expected).members)
  {
    hide Code, Find;
    DictFields(id, t, parameters, budget, expected);
    SameFields(raw.members, Dict(id, t, parameters, budget, expected).members);
  }

  /** Limits and size do not depend on the order of the fields. */
  lemma PermutedNormal(a: Value, b: Value)
    requires Normal(a) && b.Obj? && DistinctKeys(b.members) && multiset(a.members) == multiset(b.members)
    ensures Normal(b)
  {
    hide Cost;
    assert |a.members| == |multiset(a.members)| == |multiset(b.members)| == |b.members|;
    SamePlaces(a.members, b.members);
    forall i | 0 <= i < |b.members| ensures TextOk(b.members[i].key) && Acceptable(b.members[i].value, 2) {
      var j :| 0 <= j < |a.members| && a.members[j] == b.members[i];
    }
    AcceptableIsWritable(a, 1);
    AcceptableIsWritable(b, 1);
    ObjectCost(a);
    ObjectCost(b);
    SumPermuted(PairCost, a.members, b.members);
  }

  lemma DictAcceptable(id: Value, t: Value, p: Value, b: Value, e: Value)
    requires Acceptable(Dict(id, t, p, b, e), 1)
    ensures Acceptable(p, 2) && Acceptable(b, 2)
    ensures Acceptable(Dict(id, t, Canon(p), Canon(b), e), 1)
  {
    hide Canon, Code, TextOk;
    var before, after := Dict(id, t, p, b, e), Dict(id, t, Canon(p), Canon(b), e);
    assert Acceptable(before.members[2].value, 2) && Acceptable(before.members[3].value, 2);
    AcceptableCanon(p, 2);
    AcceptableCanon(b, 2);
    DictFields(id, t, Canon(p), Canon(b), e);
    forall i | 0 <= i < |after.members| ensures TextOk(after.members[i].key) && Acceptable(after.members[i].value, 2) {
      assert TextOk(before.members[i].key) && Acceptable(before.members[i].value, 2);
    }
  }

  lemma DictCost(id: Value, t: Value, p: Value, b: Value, e: Value)
    requires Writable(Dict(id, t, p, b, e)) && Writable(Dict(id, t, Canon(p), Canon(b), e))
    requires Cost(Canon(p)) == Cost(p) && Cost(Canon(b)) == Cost(b)
    ensures Cost(Dict(id, t, Canon(p), Canon(b), e)) == Cost(Dict(id, t, p, b, e))
  {
    hide Canon, Code, Sum, Cost, Writable, StringWeight, Encodable;
    var before, after := Dict(id, t, p, b, e), Dict(id, t, Canon(p), Canon(b), e);
    ObjectCost(before);
    ObjectCost(after);
    forall i | 0 <= i < 5 ensures PairCost(before.members[i]) == PairCost(after.members[i]) {
    }
    assert Apply(PairCost, before.members) == Apply(PairCost, after.members);
  }

  lemma DictNormal(id: Value, t: Value, p: Value, b: Value, e: Value)
    requires Normal(Dict(id, t, p, b, e))
    ensures Acceptable(p, 2) && Acceptable(b, 2)
    ensures Normal(Dict(id, t, Canon(p), Canon(b), e))
  {
    hide Canon, Code, Cost, Acceptable, Writable;
    DictAcceptable(id, t, p, b, e);
    AcceptableIsWritable(Dict(id, t, p, b, e), 1);
    AcceptableIsWritable(Dict(id, t, Canon(p), Canon(b), e), 1);
    AcceptableIsWritable(p, 2);
    AcceptableIsWritable(b, 2);
    CostCanon(p);
    CostCanon(b);
    DictCost(id, t, p, b, e);
  }

  /** Building from canonical parts gives the same action. */
  lemma BuildCanon(id: Value, t: Value, p: Value, b: Value, e: Value, forbidden: Text -> bool)
    requires Acceptable(p, 2) && Acceptable(b, 2) && Build(id, t, p, b, e, forbidden).Some?
    ensures Build(id, t, Canon(p), Canon(b), e, forbidden) == Build(id, t, p, b, e, forbidden)
  {
    hide Canon, Freeze, ControlField, SchemaOf, ControlOk, ToolOk, BudgetOk, Acceptable, Code;
    FreezeCanon(p, 2);
    FreezeCanon(b, 2);
    BudgetCanon(b);
    if ControlField(t.text).Some? {
      ControlCanon(t.text, p, forbidden);
    } else {
      ToolCanon(t.text, p, forbidden);
    }
  }

  lemma ParseOf(raw: Value, forbidden: Text -> bool)
    returns (id: Value, t: Value, p: Value, b: Value, e: Value)
    requires Parse(raw, forbidden).Some?
    ensures raw.Obj? && Normal(raw) && DistinctKeys(raw.members) && Keys(raw.members) == TopLevel()
    ensures Find(raw.members, Code("action_id")) == Some(id) && Find(raw.members, Code("action_type")) == Some(t)
    ensures Find(raw.members, Code("parameters")) == Some(p) && Find(raw.members, Code("budget_impact")) == Some(b)
    ensures Find(raw.members, Code("expected_result_type")) == Some(e)
    ensures Parse(raw, forbidden) == Build(id, t, p, b, e, forbidden)
  {
    hide Find, Build, Code, Cost;
    id := Find(raw.members, Code("action_id")).value;
    t := Find(raw.members, Code("action_type")).value;
    p := Find(raw.members, Code("parameters")).value;
    b := Find(raw.members, Code("budget_impact")).value;
    e := Find(raw.members, Code("expected_result_type")).value;
  }

  lemma ParseDict(id: Value, t: Value, p: Value, b: Value, e: Value, forbidden: Text -> bool)
    requires Normal(Dict(id, t, p, b, e))
    ensures Parse(Dict(id, t, p, b, e), forbidden) == Build(id, t, p, b, e, forbidden)
  {
    hide Find, Build, Code, Acceptable, Cost, Normal;
    DictFields(id, t, p, b, e);
  }

  lemma DictOfBuilt(id: Value, t: Value, p: Value, b: Value, e: Value, forbidden: Text -> bool)
    requires Build(id, t, p, b, e, forbidden).Some?
    ensures ToDict(Build(id, t, p, b, e, forbidden).value) == Dict(id, t, Canon(p), Canon(b), e)
  {
    hide Canon, Freeze, Thaw, ControlField, SchemaOf, ControlOk, ToolOk, BudgetOk, Code;
    ThawFreeze(p);
    ThawFreeze(b);
  }

  /** Giving back any parsed action and parsing it again always succeeds, with the same action. */
  lemma ReparseSame(raw: Value, forbidden: Text -> bool)
    requires Parse(raw, forbidden).Some?
    ensures Parse(ToDict(Parse(raw, forbidden).value), forbidden) == Parse(raw, forbidden)
  {
    hide Parse, Build, Normal, Find, Code, Canon, Dict, ToDict;
    var id, t, p, b, e := ParseOf(raw, forbidden);
    RawIsDict(raw, id, t, p, b, e);
    DictFields(id, t, p, b, e);
    DictIsObject(id, t, p, b, e);
    PermutedNormal(raw, Dict(id, t, p, b, e));
    DictNormal(id, t, p, b, e);
    BuildCanon(id, t, p, b, e, forbidden);
    DictOfBuilt(id, t, p, b, e, forbidden);
    ParseDict(id, t, Canon(p), Canon(b), e, forbidden);
  }

  lemma DictIsObject(id: Value, t: Value, p: Value, b: Value, e: Value)
    ensures Dict(id, t, p, b, e).Obj?
  {
  }

  lemma PermutedFind(a: seq<Pair<Value>>, b: seq<Pair<Value>>, k: Text)
    requires DistinctKeys(a) && DistinctKeys(b) && multiset(a) == multiset(b)
    ensures Find(a, k) == Find(b, k)
    ensures k in Keys(a) <==> k in Keys(b)
  {
    hide Find;
    SamePlaces(a, b);
    FindAt(a, k);
    FindAt(b, k);
    if k in Keys(a) {
      var i :| 0 <= i < |a| && a[i].key == k;
      var j :| 0 <= j < |b| && b[j] == a[i];
    }
  }

  /** The order of the five fields does not matter. */
  lemma ParseIgnoresOrder(a: Value, b: Value, forbidden: Text -> bool)
    requires Parse(a, forbidden).Some? && b.Obj? && DistinctKeys(b.members)
             && multiset(a.members) == multiset(b.members)
    ensures Parse(b, forbidden) == Parse(a, forbidden)
  {
    hide Build, Normal, Code, Find;
    var id, t, p, bu, e := ParseOf(a, forbidden);
    PermutedNormal(a, b);
    forall k ensures Find(a.members, k) == Find(b.members, k) && (k in Keys(a.members) <==> k in Keys(b.members)) {
      PermutedFind(a.members, b.members, k);
    }
    assert Keys(a.members) == Keys(b.members);
  }
}
