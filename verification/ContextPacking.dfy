/** Packing the newest attempts of a task into a byte budget. */
module ContextPacking {
  import opened Wrappers
  import opened Utf8
  import opened Json
  import opened Normalization
  import opened FrozenJson

  function Envelope(task: Text, attempts: seq<Value>, truncated: bool): Value {
    Obj([Pair(Code("task"), Str(task)), Pair(Code("attempts"), Arr(attempts)), Pair(Code("truncated"), Truth(truncated))])
  }

  /** The bytes of a payload: its compact JSON text with sorted keys, in UTF-8. */
  function EncodePayload(v: Value): Octets
    requires Writable(v)
  {
    WritableCanon(v);
    WeightIsLength(Canon(v));
    EncodeText(Compact(Canon(v)))
  }

  predicate AllWritable(history: seq<Value>) {
    forall i :: 0 <= i < |history| ==> Writable(history[i])
  }

  lemma PlainKey(s: string)
    requires forall i :: 0 <= i < |s| ==> 'a' <= s[i] <= 'z'
    ensures TextOk(Code(s))
  {
    var t := Code(s);
    assert forall i :: 0 <= i < |t| ==> t[i] == s[i] as int && 0 < t[i] < 128;
    EncodeAscii(t);
  }

  lemma EnvelopeWritable(task: Text, attempts: seq<Value>, truncated: bool)
    requires TextOk(task) && AllWritable(attempts)
    ensures Writable(Envelope(task, attempts, truncated))
  {
    hide TextOk, Code;
    PlainKey("task");
    PlainKey("attempts");
    PlainKey("truncated");
    assert Writable(Arr(attempts)) && Writable(Str(task)) && Writable(Truth(truncated));
    forall i | 0 <= i < 3
      ensures TextOk(Envelope(task, attempts, truncated).members[i].key)
      ensures Writable(Envelope(task, attempts, truncated).members[i].value)
    {
    }
  }

  /** The size of the whole context that starts at attempt `start`. */
  function SizeFrom(task: Text, history: seq<Value>, start: nat): nat
    requires TextOk(task) && AllWritable(history) && start <= |history|
  {
    EnvelopeWritable(task, history[start..], start > 0);
    |EncodePayload(Envelope(task, history[start..], start > 0))|
  }

  lemma PayloadLength(v: Value)
    requires Writable(v)
    ensures |EncodePayload(v)| == Cost(v)
  {
    CostCanon(v);
    WeightIsLength(Canon(v));
  }

  lemma ArrayCost(items: seq<Value>)
    requires AllWritable(items)
    ensures Cost(Arr(items)) == 2 + Separators(|items|) + Sum(Apply(Cost, items))
  {
    assert Writable(Arr(items));
    assert ItemWeights(Arr(items)) == Apply(Cost, items);
  }

  lemma SumOfThree(a: nat, b: nat, c: nat)
    ensures Sum([a, b, c]) == a + b + c
  {
    assert [a, b, c][..2] == [a, b] && [a, b][..1] == [a] && [a][..0] == [];
    assert Sum([a]) == a;
    assert Sum([a, b]) == a + b;
  }

  /** The envelope adds the same bytes whatever it holds. */
  lemma EnvelopeCost(task: Text, items: seq<Value>, truncated: bool)
    requires TextOk(task) && AllWritable(items)
    ensures Cost(Envelope(task, items, truncated))
            == Cost(Envelope(task, [], truncated)) + Separators(|items|) + Sum(Apply(Cost, items))
  {
    hide Writable, Sum, Apply, StringWeight, Encodable, Code;
    var full, empty := Envelope(task, items, truncated), Envelope(task, [], truncated);
    EnvelopeWritable(task, items, truncated);
    EnvelopeWritable(task, [], truncated);
    ObjectCost(full);
    ObjectCost(empty);
    EnvelopeParts(full);
    EnvelopeParts(empty);
    ArrayCost(items);
    ArrayCost([]);
    NothingToSum();
  }

  lemma NothingToSum()
    ensures Sum(Apply(Cost, [])) == 0
  {
  }

  lemma EnvelopeParts(v: Value)
    requires v.Obj? && |v.members| == 3
    ensures Sum(Apply(PairCost, v.members)) == PairCost(v.members[0]) + PairCost(v.members[1]) + PairCost(v.members[2])
  {
    hide PairCost;
    var m := v.members;
    assert Apply(PairCost, m) == [PairCost(m[0]), PairCost(m[1]), PairCost(m[2])];
    SumOfThree(PairCost(m[0]), PairCost(m[1]), PairCost(m[2]));
  }

  /** A truncated envelope is one byte shorter. */
  lemma FlagCost(task: Text)
    requires TextOk(task)
    ensures Cost(Envelope(task, [], false)) == Cost(Envelope(task, [], true)) + 1
  {
    hide Writable, Sum, Apply, StringWeight, Encodable, Code;
    EnvelopeWritable(task, [], true);
    EnvelopeWritable(task, [], false);
    ObjectCost(Envelope(task, [], true));
    ObjectCost(Envelope(task, [], false));
    EnvelopeParts(Envelope(task, [], true));
    EnvelopeParts(Envelope(task, [], false));
    TruthCost();
  }

  lemma TruthCost()
    ensures Cost(Truth(false)) == Cost(Truth(true)) + 1
  {
  }

  /** What the attempts from `start` on contribute. */
  function AttemptBytes(history: seq<Value>, start: nat): nat
    requires start <= |history|
  {
    Separators(|history| - start) + Sum(Apply(Cost, history[start..]))
  }

  lemma AttemptStep(history: seq<Value>, i: nat)
    requires i < |history|
    ensures AttemptBytes(history, i) == AttemptBytes(history, i + 1) + Cost(history[i]) + (if i + 1 < |history| then 1 else 0)
  {
    SumSplit(Cost, [], history[i], history[i + 1..]);
    assert [] + [history[i]] + history[i + 1..] == history[i..];
    assert [] + history[i + 1..] == history[i + 1..];
  }

  lemma SizeIs(task: Text, history: seq<Value>, start: nat)
    requires TextOk(task) && AllWritable(history) && start <= |history|
    ensures SizeFrom(task, history, start) == Cost(Envelope(task, [], start > 0)) + AttemptBytes(history, start)
  {
    hide Writable, Cost, Envelope;
    var items := history[start..];
    EnvelopeWritable(task, items, start > 0);
    PayloadLength(Envelope(task, items, start > 0));
    EnvelopeCost(task, items, start > 0);
  }

  lemma OneMoreIsLarger(task: Text, history: seq<Value>, i: nat)
    requires TextOk(task) && AllWritable(history) && i < |history|
    ensures SizeFrom(task, history, i + 1) <= SizeFrom(task, history, i)
  {
    hide Writable, Cost, Envelope, SizeFrom, AttemptBytes, TextOk;
    SizeIs(task, history, i);
    SizeIs(task, history, i + 1);
    AttemptStep(history, i);
    FlagCost(task);
  }

  /** Keeping more attempts takes more bytes. */
  lemma {:induction false} LongerIsLarger(task: Text, history: seq<Value>, i: nat, j: nat)
    requires TextOk(task) && AllWritable(history) && i <= j <= |history|
    ensures SizeFrom(task, history, j) <= SizeFrom(task, history, i)
    decreases j - i
  {
    hide Writable, SizeFrom, TextOk;
    if i < j {
      LongerIsLarger(task, history, i + 1, j);
      OneMoreIsLarger(task, history, i);
    }
  }

  datatype Refusal = InvalidTask | InvalidBudget | NotEncodable | EnvelopeTooLarge | Inconsistent

  datatype Built = Context(attempts: seq<Value>, truncated: bool, usedBytes: nat) | Refused(reason: Refusal)

  /** What a built context must be: the longest suffix of the history that fits, exactly measured. */
  ghost predicate LongestFit(task: Text, history: seq<Value>, maxBytes: int, c: Built)
    requires TextOk(task) && AllWritable(history) && c.Context?
  {
    exists start: nat :: start <= |history|
      && c.attempts == history[start..]
      && (c.truncated <==> 0 < start)
      && c.usedBytes == SizeFrom(task, history, start) <= maxBytes
      && forall shorter: nat :: shorter < start ==> maxBytes < SizeFrom(task, history, shorter)
  }

  /** Takes attempts from the newest back while the whole still fits. */
  method Build(task: Text, history: seq<Value>, maxBytes: int) returns (c: Built)
    ensures c.Context? ==> TextOk(task) && AllWritable(history) && LongestFit(task, history, maxBytes, c)
    ensures c == Refused(InvalidTask) <==> task == [] || !TextOk(task)
    ensures c == Refused(InvalidBudget) <==> task != [] && TextOk(task) && maxBytes <= 0
    ensures c == Refused(NotEncodable) <==> task != [] && TextOk(task) && maxBytes > 0 && !AllWritable(history)
    ensures c == Refused(EnvelopeTooLarge) ==>
              TextOk(task) && AllWritable(history) && maxBytes < SizeFrom(task, history, |history|)
    ensures c != Refused(Inconsistent)
  {
    hide Writable, Cost, Envelope, SizeFrom, TextOk, AttemptBytes;
    if task == [] || !TextOk(task) {
      return Refused(InvalidTask);
    }
    if maxBytes <= 0 {
      return Refused(InvalidBudget);
    }
    var sizes: seq<nat> := [];
    for i := 0 to |history|
      invariant |sizes| == i
      invariant forall j :: 0 <= j < i ==> Writable(history[j]) && sizes[j] == Cost(history[j])
    {
      if !Writable(history[i]) {
        return Refused(NotEncodable);
      }
      PayloadLength(history[i]);
      sizes := sizes + [|EncodePayload(history[i])|];
    }
    var empty := EmptyEnvelopeSizes(task);
    var truncated := history != [];
    SizeIs(task, history, |history|);
    NothingKept(history);
    if (if truncated then empty.0 else empty.1) > maxBytes {
      return Refused(EnvelopeTooLarge);
    }
    var start, kept, bytes := |history|, 0, 0;
    var index := |history|;
    while index > 0
      invariant 0 <= index <= start <= |history|
      invariant kept == |history| - start && bytes == AttemptBytes(history, start)
      invariant truncated <==> 0 < start
      invariant SizeFrom(task, history, start) <= maxBytes
      invariant index == start
      decreases index
    {
      index := index - 1;
      var candidate := bytes + sizes[index] + (if kept > 0 then 1 else 0);
      var size := (if index != 0 then empty.0 else empty.1) + candidate;
      AttemptStep(history, index);
      SizeIs(task, history, index);
      if size > maxBytes {
        forall shorter: nat | shorter < start ensures maxBytes < SizeFrom(task, history, shorter) {
          LongerIsLarger(task, history, shorter, index);
        }
        break;
      }
      start, kept, bytes, truncated := index, kept + 1, candidate, index != 0;
    }
    SizeIs(task, history, start);
    var calculated := (if truncated then empty.0 else empty.1) + bytes;
    SelectedWritable(task, history, start, truncated);
    var payload := EncodePayload(Envelope(task, history[start..], truncated));
    assert |payload| == SizeFrom(task, history, start) by {
      SizeMeans(task, history, start);
    }
    if |payload| != calculated || calculated > maxBytes {
      return Refused(Inconsistent);
    }
    return Context(history[start..], truncated, calculated);
  }

  /** The sizes of an empty context, truncated and not. */
  method EmptyEnvelopeSizes(task: Text) returns (sizes: (nat, nat))
    requires TextOk(task)
    ensures sizes == (Cost(Envelope(task, [], true)), Cost(Envelope(task, [], false)))
  {
    hide Writable, Cost, Envelope;
    EnvelopeWritable(task, [], true);
    EnvelopeWritable(task, [], false);
    PayloadLength(Envelope(task, [], true));
    PayloadLength(Envelope(task, [], false));
    sizes := (|EncodePayload(Envelope(task, [], true))|, |EncodePayload(Envelope(task, [], false))|);
  }

  lemma NothingKept(history: seq<Value>)
    ensures AttemptBytes(history, |history|) == 0
  {
    assert history[|history|..] == [];
  }

  lemma SelectedWritable(task: Text, history: seq<Value>, start: nat, truncated: bool)
    requires TextOk(task) && AllWritable(history) && start <= |history|
    ensures Writable(Envelope(task, history[start..], truncated))
  {
    EnvelopeWritable(task, history[start..], truncated);
  }

  lemma SizeMeans(task: Text, history: seq<Value>, start: nat)
    requires TextOk(task) && AllWritable(history) && start <= |history|
    requires Writable(Envelope(task, history[start..], start > 0))
    ensures SizeFrom(task, history, start) == |EncodePayload(Envelope(task, history[start..], start > 0))|
  {
  }
}
