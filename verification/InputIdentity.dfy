/** The identity of the ignored inputs a task may see: the request, its byte stream, and the manifest. */
module InputIdentity {
  import opened Wrappers
  import opened Utf8
  import opened Encoding
  import Lexical

  // ---- digests as texts ----

  predicate HexDigit(c: nat) {
    48 <= c <= 57 || 97 <= c <= 102
  }

  predicate IsDigest(t: Text) {
    |t| == 64 && forall i :: 0 <= i < |t| ==> HexDigit(t[i])
  }

  function HexValue(c: nat): (v: nat)
    requires HexDigit(c)
    ensures v < 16
  {
    if c <= 57 then c - 48 else c - 87
  }

  function FromHex(t: Text): Octets
    requires |t| % 2 == 0 && forall i :: 0 <= i < |t| ==> HexDigit(t[i])
  {
    if t == [] then [] else [HexValue(t[0]) * 16 + HexValue(t[1])] + FromHex(t[2..])
  }

  lemma {:induction false} FromHexInjective(s: Text, t: Text)
    requires |s| % 2 == 0 && forall i :: 0 <= i < |s| ==> HexDigit(s[i])
    requires |t| % 2 == 0 && forall i :: 0 <= i < |t| ==> HexDigit(t[i])
    requires FromHex(s) == FromHex(t)
    ensures s == t
  {
    if s != [] && t != [] {
      assert FromHex(s)[0] == FromHex(t)[0];
      assert FromHex(s)[1..] == FromHex(s[2..]) && FromHex(t)[1..] == FromHex(t[2..]);
      FromHexInjective(s[2..], t[2..]);
      assert s == [s[0], s[1]] + s[2..] && t == [t[0], t[1]] + t[2..];
    }
  }

  function DigestOctets(t: Text): Value
    requires IsDigest(t)
  {
    DigestValue(FromHex(t))
  }

  // ---- the request ----

  datatype Mode = ReadOnlyInput | WritableEphemeral

  type PathText = t: Text | Encodable(t) witness []

  datatype Entry = Entry(source: PathText, size: int, contentDigest: Text, mode: Mode, stages: seq<Text>)

  datatype Previous = Previous(revision: int, identity: Text, digest: Text)

  datatype Request = Request(
    taskId: Text,
    planVersion: Text,
    baselineDigest: Text,
    previous: Option<Previous>,
    newRevision: int,
    entries: seq<Entry>,
    idempotencyKey: Text,
    maxCount: int,
    maxBytes: int)

  datatype Reason =
    | InvalidIdentifier
    | InvalidDigest
    | InvalidStageSet
    | DuplicateSource
    | InvalidSize
    | InvalidLimit
    | InvalidRevision
    | InvalidPreviousManifest
    | CountLimitExceeded
    | ByteLimitExceeded

  predicate ValidIdentifier(t: Text) {
    t != [] && Encodable(t)
  }

  /** The sets of stages a request may ask for. */
  predicate StageSet(stages: seq<Text>) {
    stages == [Code("EXECUTING")] || stages == [Code("EXECUTING"), Code("VERIFYING")]
  }

  predicate EntryOk(e: Entry) {
    && 0 <= e.size && IsDigest(e.contentDigest)
    && e.stages in {[Code("EXECUTING")], [Code("EXECUTING"), Code("VERIFYING")]}
  }

  function TotalSize(entries: seq<Entry>): int {
    if entries == [] then 0 else TotalSize(entries[..|entries| - 1]) + entries[|entries| - 1].size
  }

  predicate DistinctSources(entries: seq<Entry>) {
    forall i, j :: 0 <= i < j < |entries| ==> entries[i].source != entries[j].source
  }

  /** The request as it must be. */
  predicate Accepted(r: Request) {
    && r.taskId != [] && r.planVersion != [] && r.idempotencyKey != []
    && Encodable(r.taskId) && Encodable(r.planVersion) && Encodable(r.idempotencyKey)
    && IsDigest(r.baselineDigest)
    && (match r.previous
        case None => r.newRevision == 1
        case Some(p) => 1 <= p.revision && IsDigest(p.identity) && IsDigest(p.digest) && r.newRevision == p.revision + 1)
    && 0 <= r.maxCount && 0 <= r.maxBytes
    && |r.entries| <= r.maxCount
    && (forall i :: 0 <= i < |r.entries| ==> EntryOk(r.entries[i]))
    && DistinctSources(r.entries)
    && TotalSize(r.entries) <= r.maxBytes
  }

  /** What each refusal says about the request. */
  predicate Explains(reason: Reason, r: Request) {
    match reason
    case InvalidIdentifier => !(ValidIdentifier(r.taskId) && ValidIdentifier(r.planVersion) && ValidIdentifier(r.idempotencyKey))
    case InvalidDigest => !IsDigest(r.baselineDigest) || exists e :: e in r.entries && !IsDigest(e.contentDigest)
    case InvalidRevision =>
      r.newRevision < 1 || r.newRevision != (if r.previous.Some? then r.previous.value.revision + 1 else 1)
    case InvalidPreviousManifest =>
      r.previous.Some?
      && !(1 <= r.previous.value.revision && IsDigest(r.previous.value.identity) && IsDigest(r.previous.value.digest))
    case InvalidLimit => r.maxCount < 0 || r.maxBytes < 0
    case CountLimitExceeded => r.maxCount < |r.entries|
    case InvalidSize => exists e :: e in r.entries && e.size < 0
    case InvalidStageSet => exists e :: e in r.entries && !StageSet(e.stages)
    case DuplicateSource => !DistinctSources(r.entries)
    case ByteLimitExceeded => r.maxBytes < TotalSize(r.entries)
  }

  /** Checks the header of a request. */
  method ValidateHeader(r: Request) returns (fault: Option<Reason>)
    ensures fault.Some? ==> Explains(fault.value, r) && !Accepted(r)
    ensures fault.None? && |r.entries| == 0 ==> Accepted(r)
    ensures fault.None? ==> Accepted(r.(entries := [])) && |r.entries| <= r.maxCount
  {
    if !ValidIdentifier(r.taskId) || !ValidIdentifier(r.planVersion) || !ValidIdentifier(r.idempotencyKey) {
      return Some(InvalidIdentifier);
    }
    if !IsDigest(r.baselineDigest) {
      return Some(InvalidDigest);
    }
    if r.newRevision < 1 {
      return Some(InvalidRevision);
    }
    match r.previous {
      case None =>
        if r.newRevision != 1 {
          return Some(InvalidRevision);
        }
      case Some(p) =>
        if p.revision < 1 || !IsDigest(p.identity) || !IsDigest(p.digest) {
          return Some(InvalidPreviousManifest);
        }
        if r.newRevision != p.revision + 1 {
          return Some(InvalidRevision);
        }
    }
    if r.maxCount < 0 || r.maxBytes < 0 {
      return Some(InvalidLimit);
    }
    if |r.entries| > r.maxCount {
      return Some(CountLimitExceeded);
    }
    return None;
  }

  /** Checks one entry by itself. */
  method ValidateEntry(r: Request, k: nat) returns (fault: Option<Reason>)
    requires k < |r.entries|
    ensures fault.None? <==> EntryOk(r.entries[k])
    ensures fault.Some? ==> Explains(fault.value, r)
  {
    hide IsDigest;
    var e := r.entries[k];
    if e.size < 0 {
      return Some(InvalidSize);
    }
    if !IsDigest(e.contentDigest) {
      return Some(InvalidDigest);
    }
    if !StageSet(e.stages) {
      return Some(InvalidStageSet);
    }
    return None;
  }

  predicate EntriesSoFar(r: Request, k: nat, sources: set<Text>, total: int)
    requires k <= |r.entries|
  {
    && (forall i :: 0 <= i < k ==> EntryOk(r.entries[i]))
    && DistinctSources(r.entries[..k])
    && sources == (set i | 0 <= i < k :: r.entries[i].source)
    && total == TotalSize(r.entries[..k])
  }

  lemma OneMoreEntry(r: Request, k: nat, sources: set<Text>, total: int)
    requires k < |r.entries| && EntriesSoFar(r, k, sources, total) && EntryOk(r.entries[k])
    ensures r.entries[k].source !in sources ==>
              EntriesSoFar(r, k + 1, sources + {r.entries[k].source}, total + r.entries[k].size)
    ensures r.entries[k].source in sources ==> !DistinctSources(r.entries)
  {
    hide EntryOk;
    assert r.entries[..k + 1][..k] == r.entries[..k];
  }

  lemma AllEntriesSeen(r: Request, sources: set<Text>, total: int)
    requires EntriesSoFar(r, |r.entries|, sources, total) && Accepted(r.(entries := [])) && |r.entries| <= r.maxCount
    ensures Accepted(r) <==> total <= r.maxBytes
    ensures total == TotalSize(r.entries)
  {
    hide EntryOk, IsDigest, Encodable;
    assert r.entries[..|r.entries|] == r.entries;
  }

  /** Accepts exactly the requests that are as they must be, and names a true fault of any other. */
  method Validate(r: Request) returns (fault: Option<Reason>)
    ensures fault.None? <==> Accepted(r)
    ensures fault.Some? ==> Explains(fault.value, r)
  {
    hide IsDigest, Encodable, EntriesSoFar, EntryOk, DistinctSources, TotalSize;
    fault := ValidateHeader(r);
    if fault.Some? {
      return;
    }
    var total := 0;
    var sources: set<Text> := {};
    assert EntriesSoFar(r, 0, sources, total) by {
      NoEntriesYet(r);
    }
    for k := 0 to |r.entries|
      invariant EntriesSoFar(r, k, sources, total)
    {
      fault := ValidateEntry(r, k);
      if fault.Some? {
        return;
      }
      var e := r.entries[k];
      OneMoreEntry(r, k, sources, total);
      if e.source in sources {
        return Some(DuplicateSource);
      }
      sources := sources + {e.source};
      total := total + e.size;
    }
    AllEntriesSeen(r, sources, total);
    return if total > r.maxBytes then Some(ByteLimitExceeded) else None;
  }

  lemma NoEntriesYet(r: Request)
    ensures EntriesSoFar(r, 0, {}, 0)
  {
  }

  // ---- canonical order ----

  function Key(e: Entry): Octets {
    EncodeText(e.source)
  }

  /** Ordered by the bytes of the path. */
  predicate Sorted(entries: seq<Entry>) {
    forall i, j :: 0 <= i < j < |entries| ==> !Lexical.Less(Key(entries[j]), Key(entries[i]))
  }

  function Insert(e: Entry, entries: seq<Entry>): (r: seq<Entry>)
    ensures multiset(r) == multiset(entries) + multiset{e}
  {
    if entries == [] || Lexical.Less(Key(e), Key(entries[0])) then [e] + entries
    else
      assert entries == [entries[0]] + entries[1..];
      [entries[0]] + Insert(e, entries[1..])
  }

  function SortEntries(entries: seq<Entry>): (r: seq<Entry>)
    ensures multiset(r) == multiset(entries)
  {
    if entries == [] then []
    else
      assert entries == [entries[0]] + entries[1..];
      Insert(entries[0], SortEntries(entries[1..]))
  }

  lemma {:induction false} InsertSorted(e: Entry, entries: seq<Entry>)
    requires Sorted(entries)
    ensures Sorted(Insert(e, entries))
  {
    if entries != [] {
      if Lexical.Less(Key(e), Key(entries[0])) {
        forall j | 0 <= j < |entries| ensures !Lexical.Less(Key(entries[j]), Key(e)) {
          if Lexical.Less(Key(entries[j]), Key(e)) {
            Lexical.Transitive(Key(entries[j]), Key(e), Key(entries[0]));
            if j == 0 {
              Lexical.Irreflexive(Key(entries[0]));
            }
          }
        }
      } else {
        InsertSorted(e, entries[1..]);
        var rest := Insert(e, entries[1..]);
        forall j | 0 <= j < |rest| ensures !Lexical.Less(Key(rest[j]), Key(entries[0])) {
          assert rest[j] in multiset(rest);
          if rest[j] != e {
            assert rest[j] in multiset(entries[1..]);
          }
        }
      }
    }
  }

  lemma {:induction false} SortSorted(entries: seq<Entry>)
    ensures Sorted(SortEntries(entries))
  {
    if entries != [] {
      SortSorted(entries[1..]);
      InsertSorted(entries[0], SortEntries(entries[1..]));
    }
  }

  lemma SameKeySameSource(a: Entry, b: Entry)
    requires !Lexical.Less(Key(a), Key(b)) && !Lexical.Less(Key(b), Key(a))
    ensures a.source == b.source
  {
    Lexical.Total(Key(a), Key(b));
    TextInjective(a.source, b.source);
  }

  lemma DistinctAsMultiset(a: seq<Entry>, b: seq<Entry>, i: nat, j: nat)
    requires multiset(a) == multiset(b) && DistinctSources(a)
    requires i < |b| && j < |b| && i != j
    ensures b[i].source != b[j].source
  {
    if b[i].source == b[j].source {
      var lo, hi := if i < j then i else j, if i < j then j else i;
      assert b[lo] in multiset(a) && b[hi] in multiset(a);
      if b[lo] == b[hi] {
        assert b == b[..hi] + [b[hi]] + b[hi + 1..];
        assert b[lo] in b[..hi];
        assert multiset(b)[b[lo]] >= 2;
        TwiceMeansTwoPlaces(a, b[lo]);
      }
    }
  }

  lemma {:induction false} TwiceMeansTwoPlaces(a: seq<Entry>, e: Entry)
    requires multiset(a)[e] >= 2
    ensures !DistinctSources(a)
  {
    var n := |a| - 1;
    assert a == a[..n] + [a[n]];
    if a[n] == e {
      assert e in multiset(a[..n]);
      assert e in a[..n];
    } else {
      TwiceMeansTwoPlaces(a[..n], e);
    }
  }

  lemma SameFirst(a: seq<Entry>, b: seq<Entry>)
    requires Sorted(a) && Sorted(b) && multiset(a) == multiset(b) && DistinctSources(a) && a != [] && b != []
    ensures a[0] == b[0]
  {
    hide Key;
    assert a[0] in multiset(b) && b[0] in multiset(a);
    var i :| 0 <= i < |b| && b[i] == a[0];
    var j :| 0 <= j < |a| && a[j] == b[0];
    if i != 0 && j != 0 {
      SameKeySameSource(a[0], a[j]);
    }
  }

  lemma TailSorted(a: seq<Entry>)
    requires Sorted(a) && a != []
    ensures Sorted(a[1..]) && (DistinctSources(a) ==> DistinctSources(a[1..]))
    ensures multiset(a[1..]) == multiset(a) - multiset{a[0]}
  {
    hide Key;
    assert a == [a[0]] + a[1..];
  }

  /** A set of entries with distinct sources has one canonical order. */
  lemma {:induction false} SortedUnique(a: seq<Entry>, b: seq<Entry>)
    requires Sorted(a) && Sorted(b) && multiset(a) == multiset(b) && DistinctSources(a)
    ensures a == b
  {
    hide Sorted, DistinctSources;
    assert |a| == |multiset(a)| == |multiset(b)| == |b|;
    if a != [] {
      SameFirst(a, b);
      TailSorted(a);
      TailSorted(b);
      SortedUnique(a[1..], b[1..]);
      assert a == [a[0]] + a[1..] && b == [b[0]] + b[1..];
    }
  }

  // ---- the streams ----

  /** An entry that has an encoding: some stages, each with a name in ASCII. */
  predicate Shaped(e: Entry) {
    && 0 <= e.size
    && IsDigest(e.contentDigest)
    && e.stages != []
    && forall i :: 0 <= i < |e.stages| ==> e.stages[i] != [] && Ascii(e.stages[i])
  }

  lemma RequestedIsShaped(e: Entry)
    requires EntryOk(e)
    ensures Shaped(e)
  {
    hide IsDigest;
    assert Ascii(Code("EXECUTING")) && Ascii(Code("VERIFYING"));
  }

  lemma StagesLegal(e: Entry)
    requires Shaped(e)
    ensures Legal(ListValue(StageNames(e.stages)))
  {
    hide IsDigest;
    forall i | 0 <= i < |e.stages| ensures Legal(StageNames(e.stages)[i]) {
    }
  }

  lemma StagesTold(a: seq<Text>, b: seq<Text>)
    requires StageNames(a) == StageNames(b)
    ensures a == b
  {
    assert |StageNames(a)| == |StageNames(b)|;
    forall i | 0 <= i < |a| ensures a[i] == b[i] {
      assert StageNames(a)[i] == StageNames(b)[i];
    }
  }

  function ModeName(m: Mode): Value {
    EnumValue(Code(if m.ReadOnlyInput? then "read_only_input" else "writable_ephemeral"))
  }

  function StageNames(stages: seq<Text>): seq<Value> {
    seq(|stages|, i requires 0 <= i < |stages| => EnumValue(stages[i]))
  }

  function EntryValue(e: Entry): Value
    requires Shaped(e)
  {
    StructValue([
      Field(1, PathValue(e.source)),
      Field(2, EnumValue(Code("regular_file"))),
      Field(3, UIntValue(e.size)),
      Field(4, DigestOctets(e.contentDigest)),
      Field(5, ModeName(e.mode)),
      Field(6, ListValue(StageNames(e.stages))),
      Field(7, PathValue(e.source))])
  }

  function EntryValues(entries: seq<Entry>): seq<Value>
    requires forall i :: 0 <= i < |entries| ==> Shaped(entries[i])
  {
    seq(|entries|, i requires 0 <= i < |entries| => EntryValue(entries[i]))
  }

  function PreviousValue(p: Option<Previous>): Value
    requires p.Some? ==> IsDigest(p.value.identity) && IsDigest(p.value.digest)
  {
    match p
    case None => VariantValue(0, StructValue([]))
    case Some(m) => VariantValue(1, StructValue([Field(1, DigestOctets(m.identity)), Field(2, DigestOctets(m.digest))]))
  }

  function WorkspaceRoot(r: Request): Value
    requires Accepted(r)
  {
    StructValue([
      Field(1, Utf8Value(r.taskId)),
      Field(2, Utf8Value(r.planVersion)),
      Field(3, DigestOctets(r.baselineDigest))])
  }

  const WORKSPACE_DOMAIN: Octets := AsciiCode("coding-harness:workspace-logical-identity")
  const EXPECTED_DOMAIN: Octets := AsciiCode("coding-harness:sandbox-input-expected-identity")

  function AsciiCode(s: string): Octets {
    seq(|s|, i requires 0 <= i < |s| => s[i] as int % 128)
  }

  lemma SortKeepsEntries(entries: seq<Entry>)
    ensures |SortEntries(entries)| == |entries|
    ensures (forall i :: 0 <= i < |entries| ==> Shaped(entries[i])) ==>
              forall i :: 0 <= i < |entries| ==> Shaped(SortEntries(entries)[i])
  {
    var sorted := SortEntries(entries);
    assert |sorted| == |multiset(sorted)| == |multiset(entries)|;
    forall i | 0 <= i < |sorted| ensures sorted[i] in entries {
      assert sorted[i] in multiset(sorted);
    }
  }

  function ExpectedRoot(r: Request, workspaceIdentity: Octets): Value
    requires Accepted(r)
  {
    hide EntryOk, Shaped, SortEntries, TotalSize, DistinctSources, IsDigest, Encodable;
    AcceptedParts(r);
    SortKeepsEntries(r.entries);
    StructValue([
      Field(1, Utf8Value(r.taskId)),
      Field(2, Utf8Value(r.planVersion)),
      Field(3, DigestOctets(r.baselineDigest)),
      Field(4, DigestValue(workspaceIdentity)),
      Field(5, PreviousValue(r.previous)),
      Field(6, UIntValue(r.newRevision)),
      Field(7, ListValue(EntryValues(SortEntries(r.entries)))),
      Field(8, Utf8Value(r.idempotencyKey))])
  }

  lemma NamesLegal(e: Entry)
    requires Shaped(e)
    ensures Legal(EntryValue(e))
  {
    hide Shaped, IsDigest, FromHex;
    assert Legal(ModeName(e.mode)) && Legal(EnumValue(Code("regular_file")));
    StagesLegal(e);
  }

  lemma AcceptedParts(r: Request)
    requires Accepted(r)
    ensures Encodable(r.taskId) && Encodable(r.planVersion) && Encodable(r.idempotencyKey)
    ensures IsDigest(r.baselineDigest)
    ensures forall i :: 0 <= i < |r.entries| ==> Shaped(r.entries[i])
    ensures DistinctSources(r.entries)
    ensures r.previous.None? ==> r.newRevision == 1
    ensures r.previous.Some? ==> IsDigest(r.previous.value.identity) && IsDigest(r.previous.value.digest)
    ensures r.previous.Some? ==> r.newRevision == r.previous.value.revision + 1
  {
    hide IsDigest, Encodable, Shaped, EntryOk;
    forall i | 0 <= i < |r.entries| ensures Shaped(r.entries[i]) {
      RequestedIsShaped(r.entries[i]);
    }
  }

  lemma WorkspaceRootLegal(r: Request)
    requires Accepted(r)
    ensures Legal(WorkspaceRoot(r))
  {
    AcceptedParts(r);
    hide Accepted, Encodable, IsDigest, FromHex;
  }

  lemma EntriesLegal(entries: seq<Entry>)
    requires forall i :: 0 <= i < |entries| ==> Shaped(entries[i])
    ensures Legal(ListValue(EntryValues(entries)))
  {
    hide Shaped, EntryValue;
    forall i | 0 <= i < |entries| ensures Legal(EntryValues(entries)[i]) {
      NamesLegal(entries[i]);
    }
  }

  lemma PreviousLegal(p: Option<Previous>)
    requires p.Some? ==> IsDigest(p.value.identity) && IsDigest(p.value.digest)
    ensures Legal(PreviousValue(p))
  {
    hide IsDigest, FromHex;
    match p
    case None => assert Legal(StructValue([]));
    case Some(m) =>
      assert Legal(StructValue([Field(1, DigestOctets(m.identity)), Field(2, DigestOctets(m.digest))]));
  }

  lemma ExpectedRootLegal(r: Request, workspaceIdentity: Octets)
    requires Accepted(r)
    ensures Legal(ExpectedRoot(r, workspaceIdentity))
  {
    hide Accepted, Encodable, IsDigest, FromHex, Shaped, EntryValues, SortEntries, PreviousValue, DistinctSources;
    AcceptedParts(r);
    SortKeepsEntries(r.entries);
    EntriesLegal(SortEntries(r.entries));
    PreviousLegal(r.previous);
  }

  /** The bytes whose digest is the workspace identity. */
  function WorkspaceStream(r: Request): Octets
    requires Accepted(r)
  {
    WorkspaceRootLegal(r);
    IdentityStream(WORKSPACE_DOMAIN, Encode(WorkspaceRoot(r)))
  }

  /** The bytes whose digest is the expected manifest identity, for any digest function. */
  function ExpectedStream(r: Request, hash: Octets -> Octets): Octets
    requires Accepted(r)
  {
    ExpectedRootLegal(r, hash(WorkspaceStream(r)));
    IdentityStream(EXPECTED_DOMAIN, Encode(ExpectedRoot(r, hash(WorkspaceStream(r)))))
  }

  // ---- order independence ----

  lemma PermutedSortEqual(a: seq<Entry>, b: seq<Entry>)
    requires multiset(a) == multiset(b) && DistinctSources(a)
    ensures SortEntries(a) == SortEntries(b)
  {
    SortSorted(a);
    SortSorted(b);
    forall i, j | 0 <= i < j < |SortEntries(a)| ensures SortEntries(a)[i].source != SortEntries(a)[j].source {
      DistinctAsMultiset(a, SortEntries(a), i, j);
    }
    SortedUnique(SortEntries(a), SortEntries(b));
  }

  /** Permuting the entries does not change the stream. */
  lemma OrderIndependent(a: Request, b: Request, hash: Octets -> Octets)
    requires Accepted(a) && Accepted(b)
    requires multiset(a.entries) == multiset(b.entries)
    requires a.(entries := [], maxCount := 0, maxBytes := 0) == b.(entries := [], maxCount := 0, maxBytes := 0)
    ensures ExpectedStream(a, hash) == ExpectedStream(b, hash)
  {
    hide Accepted, Encode, Legal;
    AcceptedParts(a);
    PermutedSortEqual(a.entries, b.entries);
  }

  // ---- what a stream binds ----

  lemma DigestTold(s: Text, t: Text)
    requires IsDigest(s) && IsDigest(t) && DigestOctets(s) == DigestOctets(t)
    ensures s == t
  {
    FromHexInjective(s, t);
  }

  lemma PreviousTold(p: Option<Previous>, q: Option<Previous>)
    requires p.Some? ==> IsDigest(p.value.identity) && IsDigest(p.value.digest)
    requires q.Some? ==> IsDigest(q.value.identity) && IsDigest(q.value.digest)
    requires PreviousValue(p) == PreviousValue(q)
    ensures p.Some? <==> q.Some?
    ensures p.Some? ==> p.value.identity == q.value.identity && p.value.digest == q.value.digest
  {
    hide IsDigest, FromHex;
    if p.Some? && q.Some? {
      var f, g := PreviousValue(p).inner.fields, PreviousValue(q).inner.fields;
      assert f[0].value == g[0].value && f[1].value == g[1].value;
      DigestTold(p.value.identity, q.value.identity);
      DigestTold(p.value.digest, q.value.digest);
    }
  }

  lemma EntryTold(a: Entry, b: Entry)
    requires Shaped(a) && Shaped(b) && EntryValue(a) == EntryValue(b)
    ensures a == b
  {
    hide IsDigest, FromHex;
    var f, g := EntryValue(a).fields, EntryValue(b).fields;
    assert f[0] == g[0] && f[2] == g[2] && f[3] == g[3] && f[4] == g[4] && f[5] == g[5];
    DigestTold(a.contentDigest, b.contentDigest);
    assert |Code("read_only_input")| != |Code("writable_ephemeral")|;
    assert a.mode == b.mode;
    StagesTold(a.stages, b.stages);
  }

  lemma EntriesTold(a: seq<Entry>, b: seq<Entry>)
    requires forall i :: 0 <= i < |a| ==> Shaped(a[i])
    requires forall i :: 0 <= i < |b| ==> Shaped(b[i])
    requires EntryValues(a) == EntryValues(b)
    ensures a == b
  {
    hide Shaped, EntryValue;
    assert |a| == |EntryValues(a)| == |EntryValues(b)| == |b|;
    forall i | 0 <= i < |a| ensures a[i] == b[i] {
      assert EntryValues(a)[i] == EntryValues(b)[i];
      EntryTold(a[i], b[i]);
    }
  }

  lemma RootTold(a: Request, b: Request, x: Octets, y: Octets)
    requires Accepted(a) && Accepted(b) && ExpectedRoot(a, x) == ExpectedRoot(b, y)
    ensures a.taskId == b.taskId && a.planVersion == b.planVersion && a.idempotencyKey == b.idempotencyKey
    ensures a.newRevision == b.newRevision
    ensures DigestOctets(a.baselineDigest) == DigestOctets(b.baselineDigest)
    ensures PreviousValue(a.previous) == PreviousValue(b.previous)
    ensures SortEntries(a.entries) == SortEntries(b.entries)
    ensures x == y
  {
    hide Accepted, IsDigest, FromHex, Shaped, EntryValues, SortEntries, PreviousValue, DistinctSources, DigestOctets;
    AcceptedParts(a);
    AcceptedParts(b);
    SortKeepsEntries(a.entries);
    SortKeepsEntries(b.entries);
    var f, g := ExpectedRoot(a, x).fields, ExpectedRoot(b, y).fields;
    assert f[0] == g[0] && f[1] == g[1] && f[2] == g[2] && f[3] == g[3];
    assert f[4] == g[4] && f[5] == g[5] && f[6] == g[6] && f[7] == g[7];
    EntriesTold(SortEntries(a.entries), SortEntries(b.entries));
  }

  lemma HeaderTold(a: Request, b: Request)
    requires Accepted(a) && Accepted(b) && a.newRevision == b.newRevision
    requires DigestOctets(a.baselineDigest) == DigestOctets(b.baselineDigest)
    requires PreviousValue(a.previous) == PreviousValue(b.previous)
    ensures a.baselineDigest == b.baselineDigest && a.previous == b.previous
  {
    hide Accepted, IsDigest, FromHex, Encodable, Shaped, DistinctSources;
    AcceptedParts(a);
    AcceptedParts(b);
    DigestTold(a.baselineDigest, b.baselineDigest);
    PreviousTold(a.previous, b.previous);
  }

  lemma RootBinds(a: Request, b: Request, x: Octets, y: Octets)
    requires Accepted(a) && Accepted(b) && ExpectedRoot(a, x) == ExpectedRoot(b, y)
    ensures multiset(a.entries) == multiset(b.entries)
    ensures a.(entries := [], maxCount := 0, maxBytes := 0) == b.(entries := [], maxCount := 0, maxBytes := 0)
  {
    hide Accepted, ExpectedRoot;
    RootTold(a, b, x, y);
    HeaderTold(a, b);
    assert multiset(SortEntries(a.entries)) == multiset(SortEntries(b.entries));
  }

  /** Accepted requests with equal streams agree on everything but the limits and the order of the
      entries. The previous revision is not in the stream; the new one forces it. */
  lemma StreamBinds(a: Request, b: Request, hash: Octets -> Octets)
    requires Accepted(a) && Accepted(b) && ExpectedStream(a, hash) == ExpectedStream(b, hash)
    ensures multiset(a.entries) == multiset(b.entries)
    ensures a.(entries := [], maxCount := 0, maxBytes := 0) == b.(entries := [], maxCount := 0, maxBytes := 0)
  {
    hide Accepted, Encode, Legal, ExpectedRoot, IdentityStream, WorkspaceStream, AsciiCode;
    var x, y := hash(WorkspaceStream(a)), hash(WorkspaceStream(b));
    ExpectedRootLegal(a, x);
    ExpectedRootLegal(b, y);
    StreamInjective(EXPECTED_DOMAIN, EXPECTED_DOMAIN, ExpectedRoot(a, x), ExpectedRoot(b, y));
    RootBinds(a, b, x, y);
  }

  /** With a collision-free digest the expected identity stands for the request. */
  lemma IdentityBinds(a: Request, b: Request, hash: Octets -> Octets)
    requires forall x, y :: hash(x) == hash(y) ==> x == y
    requires Accepted(a) && Accepted(b)
    ensures hash(ExpectedStream(a, hash)) == hash(ExpectedStream(b, hash)) <==>
              && multiset(a.entries) == multiset(b.entries)
              && a.(entries := [], maxCount := 0, maxBytes := 0) == b.(entries := [], maxCount := 0, maxBytes := 0)
  {
    hide Accepted, ExpectedStream;
    if hash(ExpectedStream(a, hash)) == hash(ExpectedStream(b, hash)) {
      StreamBinds(a, b, hash);
    } else if multiset(a.entries) == multiset(b.entries)
              && a.(entries := [], maxCount := 0, maxBytes := 0) == b.(entries := [], maxCount := 0, maxBytes := 0) {
      OrderIndependent(a, b, hash);
    }
  }

  /** The two places that sort the same paths, by code point and by encoded bytes, agree. */
  lemma CodePointOrderAgrees(entries: seq<Entry>)
    ensures Sorted(entries) <==>
              forall i, j :: 0 <= i < j < |entries| ==> !Lexical.Less(entries[j].source, entries[i].source)
  {
    forall i, j | 0 <= i < j < |entries|
      ensures Lexical.Less(entries[j].source, entries[i].source) <==> Lexical.Less(Key(entries[j]), Key(entries[i]))
    {
      SameOrder(entries[j].source, entries[i].source);
    }
  }
}
