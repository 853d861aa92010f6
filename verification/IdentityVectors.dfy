/** The frozen first vector of the identity encoding: the streams of the model are its bytes. */
module IdentityVectors {
  import opened Wrappers
  import opened Utf8
  import opened Encoding
  import opened InputIdentity

  predicate Plain(s: string) {
    forall i :: 0 <= i < |s| ==> s[i] < 128 as char
  }

  function Repeat(b: nat, n: nat): Text {
    seq(n, i requires 0 <= i < n => b)
  }

  function Zeros(): Octets {
    seq(32, i requires 0 <= i < 32 => 0)
  }

  /** The octet 0xAA, thirty-two times. */
  function Tens(): Octets {
    seq(32, i requires 0 <= i < 32 => 0xAA)
  }

  /** The request of the vector. */
  function Genesis(): Request {
    Request(Code("task:vector:genesis"), Code("plan:vector:1"), Repeat(48, 64), None, 1,
      [Entry(Path(), 6, Repeat(97, 64), ReadOnlyInput, [Code("EXECUTING")])],
      Code("ignored:vector:genesis"), 1, 6)
  }

  function Path(): PathText {
    PlainText("ignored/input.txt");
    Code("ignored/input.txt")
  }

  // ---- pieces ----

  lemma {:induction false} AsciiText(t: Text)
    requires Ascii(t)
    ensures Encodable(t) && EncodeText(t) == t
  {
    if t != [] {
      AsciiText(t[1..]);
      assert t == [t[0]] + t[1..];
    }
  }

  lemma PlainText(s: string)
    requires Plain(s)
    ensures Ascii(Code(s)) && Encodable(Code(s)) && EncodeText(Code(s)) == AsciiCode(s)
    ensures AsciiOctets(Code(s)) == AsciiCode(s)
  {
    AsciiText(Code(s));
    assert Code(s) == AsciiCode(s);
  }

  /** A short text is its type, its length, and its characters. */
  lemma ShortText(s: string)
    requires Plain(s) && |s| < 128
    ensures Ascii(Code(s)) && Encodable(Code(s))
    ensures Encode(Utf8Value(Code(s))) == [1, |s|] + AsciiCode(s)
    ensures Encode(EnumValue(Code(s))) == [4, |s|] + AsciiCode(s)
    ensures Encode(PathValue(Code(s))) == [6, |s|] + AsciiCode(s)
  {
    PlainText(s);
  }

  lemma {:induction false} HexOfRepeat(b: nat, n: nat)
    requires HexDigit(b)
    ensures |Repeat(b, 2 * n)| == 2 * n && forall i :: 0 <= i < 2 * n ==> HexDigit(Repeat(b, 2 * n)[i])
    ensures FromHex(Repeat(b, 2 * n)) == seq(n, i requires 0 <= i < n => HexValue(b) * 17)
  {
    if n > 0 {
      HexOfRepeat(b, n - 1);
      assert Repeat(b, 2 * n)[2..] == Repeat(b, 2 * (n - 1));
      assert seq(n, i requires 0 <= i < n => HexValue(b) * 17)
          == [HexValue(b) * 17] + seq(n - 1, i requires 0 <= i < n - 1 => HexValue(b) * 17);
    }
  }

  lemma Digests()
    ensures IsDigest(Repeat(48, 64)) && Encode(DigestOctets(Repeat(48, 64))) == [5, 32] + Zeros()
    ensures IsDigest(Repeat(97, 64)) && Encode(DigestOctets(Repeat(97, 64))) == [5, 32] + Tens()
  {
    hide FromHex, Repeat;
    HexOfRepeat(48, 32);
    HexOfRepeat(97, 32);
    assert HexValue(48) == 0 && HexValue(97) == 10;
    assert 2 * 32 == 64;
    assert FromHex(Repeat(48, 64)) == Zeros();
    assert FromHex(Repeat(97, 64)) == Tens();
  }

  lemma GenesisAccepted()
    ensures Accepted(Genesis())
  {
    hide IsDigest, Code, Encodable, Repeat, EncodeText, DigestOctets, AsciiCode, EntryOk, TotalSize;
    Digests();
    PlainText("task:vector:genesis");
    PlainText("plan:vector:1");
    PlainText("ignored:vector:genesis");
    GenesisEntry();
    SizeOfOne(Genesis().entries[0]);
  }

  lemma GenesisEntry()
    ensures EntryOk(Genesis().entries[0])
  {
    hide IsDigest, Code, Repeat, DigestOctets;
    Digests();
  }

  lemma SizeOfOne(e: Entry)
    ensures TotalSize([e]) == e.size
  {
    assert [e][..0] == [];
  }

  /** The encoding of a short struct, field by field. */
  lemma JoinOne(a: Octets, parts: seq<Octets>)
    ensures Join([a] + parts) == a + Join(parts)
  {
  }

  lemma JoinThree(a: Octets, b: Octets, c: Octets)
    ensures Join([a, b, c]) == a + b + c
  {
    hide Join;
    assert [a, b, c] == [a] + ([b] + ([c] + []));
    JoinOne(a, [b] + ([c] + []));
    JoinOne(b, [c] + []);
    JoinOne(c, []);
    JoinNothing();
  }

  lemma JoinNothing()
    ensures Join([]) == []
  {
  }

  lemma JoinSeven(a: Octets, b: Octets, c: Octets, d: Octets, e: Octets, f: Octets, g: Octets)
    ensures Join([a, b, c, d, e, f, g]) == a + b + c + d + e + f + g
  {
    hide Join;
    assert [a, b, c, d, e, f, g] == [a] + ([b] + ([c] + ([d] + [e, f, g])));
    JoinOne(a, [b] + ([c] + ([d] + [e, f, g])));
    JoinOne(b, [c] + ([d] + [e, f, g]));
    JoinOne(c, [d] + [e, f, g]);
    JoinOne(d, [e, f, g]);
    JoinThree(e, f, g);
  }

  lemma JoinEight(a: Octets, b: Octets, c: Octets, d: Octets, e: Octets, f: Octets, g: Octets, h: Octets)
    ensures Join([a, b, c, d, e, f, g, h]) == a + b + c + d + e + f + g + h
  {
    hide Join;
    assert [a, b, c, d, e, f, g, h] == [a] + [b, c, d, e, f, g, h];
    JoinOne(a, [b, c, d, e, f, g, h]);
    JoinSeven(b, c, d, e, f, g, h);
  }

  lemma Small(n: nat)
    ensures n < 128 ==> VaruintOf(n) == [n]
    ensures 128 <= n < 16384 ==> VaruintOf(n) == [n % 128 + 128, n / 128]
  {
    if 128 <= n < 16384 {
      assert VaruintOf(n / 128) == [n / 128];
    }
  }

  // ---- the workspace stream ----

  /** The 119 octets of the frozen workspace stream. */
  function WorkspaceOctets(): Octets {
    [0x29] + AsciiCode("coding-harness:workspace-logical-identity") + [0x01, 0x09, 0x4A, 0x03]
    + [0x01, 0x01, 0x13] + AsciiCode("task:vector:genesis")
    + [0x02, 0x01, 0x0D] + AsciiCode("plan:vector:1")
    + [0x03, 0x05, 0x20] + Zeros()
  }

  lemma WorkspaceVector()
    ensures Accepted(Genesis())
    ensures WorkspaceStream(Genesis()) == WorkspaceOctets()
    ensures |WorkspaceOctets()| == 119
  {
    hide Accepted, Legal, Code, AsciiCode, Encode, IsDigest, VaruintOf, Repeat, Zeros, DigestOctets, Join;
    GenesisAccepted();
    WorkspaceRootLegal(Genesis());
    ThreeFields(Genesis());
    Small(41);
    Small(74);
    Small(3);
    Lengths();
  }

  lemma Lengths()
    ensures forall s :: |AsciiCode(s)| == |s|
    ensures |Zeros()| == |Tens()| == 32
  {
  }

  lemma FieldAt(v: Value, i: nat)
    requires v.StructValue? && Legal(v) && i < |v.fields|
    ensures Legal(v.fields[i].value) && Fields(v)[i] == FieldOctets(v.fields[i].tag, Encode(v.fields[i].value))
  {
  }

  lemma StructIs(v: Value)
    requires v.StructValue? && Legal(v)
    ensures Encode(v) == Typed(9, VaruintOf(|v.fields|) + Join(Fields(v)))
  {
  }

  lemma TaggedIs(tag: nat, value: Octets)
    requires tag < 128
    ensures FieldOctets(tag, value) == [tag] + value
  {
  }

  lemma ThreeFields(r: Request)
    requires r == Genesis() && Accepted(r) && Legal(WorkspaceRoot(r))
    ensures Encode(WorkspaceRoot(r))
            == Typed(9, VaruintOf(3)
                        + ([0x01, 0x01, 0x13] + AsciiCode("task:vector:genesis")
                           + ([0x02, 0x01, 0x0D] + AsciiCode("plan:vector:1"))
                           + ([0x03, 0x05, 0x20] + Zeros())))
  {
    hide Accepted, Code, AsciiCode, IsDigest, Repeat, Zeros, DigestOctets, Join, Typed, Encode, Fields, Legal, FieldOctets,
      VaruintOf;
    ShortText("task:vector:genesis");
    ShortText("plan:vector:1");
    Digests();
    var v := WorkspaceRoot(r);
    StructIs(v);
    FieldAt(v, 0);
    FieldAt(v, 1);
    FieldAt(v, 2);
    var a := [1] + ([1, 19] + AsciiCode("task:vector:genesis"));
    var b := [2] + ([1, 13] + AsciiCode("plan:vector:1"));
    var c := [3] + ([5, 32] + Zeros());
    TaggedIs(1, [1, 19] + AsciiCode("task:vector:genesis"));
    TaggedIs(2, [1, 13] + AsciiCode("plan:vector:1"));
    TaggedIs(3, [5, 32] + Zeros());
    assert Fields(v) == [a, b, c];
    JoinThree(a, b, c);
    assert a == [0x01, 0x01, 0x13] + AsciiCode("task:vector:genesis");
    assert b == [0x02, 0x01, 0x0D] + AsciiCode("plan:vector:1");
    assert c == [0x03, 0x05, 0x20] + Zeros();
  }

  // ---- the expected stream ----

  /** The 332 octets of the frozen stream, around the digest `w` of the workspace stream. */
  function ExpectedOctets(w: Octets): Octets {
    [0x2E] + AsciiCode("coding-harness:sandbox-input-expected-identity") + [0x01, 0x09, 0x99, 0x02, 0x08] + Root(w)
  }

  /** The eight fields. */
  function Root(w: Octets): Octets {
    [0x01, 0x01, 0x13] + AsciiCode("task:vector:genesis")
    + ([0x02, 0x01, 0x0D] + AsciiCode("plan:vector:1"))
    + ([0x03, 0x05, 0x20] + Zeros())
    + ([0x04, 0x05, 0x20] + w)
    + [0x05, 0x0A, 0x04, 0x00, 0x09, 0x01, 0x00]
    + [0x06, 0x02, 0x01, 0x01]
    + ([0x07, 0x08, 0x84, 0x01, 0x01, 0x09, 0x80, 0x01, 0x07] + EntryOctets())
    + ([0x08, 0x01, 0x16] + AsciiCode("ignored:vector:genesis"))
  }

  /** The seven fields of the entry. */
  function EntryOctets(): Octets {
    [0x01, 0x06, 0x11] + AsciiCode("ignored/input.txt")
    + ([0x02, 0x04, 0x0C] + AsciiCode("regular_file"))
    + [0x03, 0x02, 0x01, 0x06]
    + ([0x04, 0x05, 0x20] + Tens())
    + ([0x05, 0x04, 0x0F] + AsciiCode("read_only_input"))
    + ([0x06, 0x08, 0x0C, 0x01, 0x04, 0x09] + AsciiCode("EXECUTING"))
    + ([0x07, 0x06, 0x11] + AsciiCode("ignored/input.txt"))
  }

  lemma NumberIs(n: nat)
    requires n < 128
    ensures Encode(UIntValue(n)) == [2, 1, n]
  {
  }

  lemma StagesAre()
    ensures Ascii(Code("EXECUTING")) && Legal(ListValue(StageNames([Code("EXECUTING")])))
    ensures Encode(ListValue(StageNames([Code("EXECUTING")]))) == [8, 12, 1] + ([4, 9] + AsciiCode("EXECUTING"))
  {
    hide Code, AsciiCode;
    ShortText("EXECUTING");
    Lengths();
    OneItem(EnumValue(Code("EXECUTING")));
    assert StageNames([Code("EXECUTING")]) == [EnumValue(Code("EXECUTING"))];
  }

  /** A list of one value whose encoding is shorter than 127 octets. */
  lemma OneItem(v: Value)
    requires Legal(v)
    ensures Legal(ListValue([v]))
    ensures Encode(ListValue([v])) == Typed(8, [1] + Encode(v))
  {
    hide Join, Typed;
    var list := ListValue([v]);
    assert Items(list) == [Encode(v)];
    Small(1);
    JoinOne(Encode(v), []);
    JoinNothing();
    assert [Encode(v)] + [] == [Encode(v)];
    assert Join([Encode(v)]) == Encode(v);
    assert Encode(list) == ListOctets(Items(list));
  }

  lemma GenesisPrevious()
    ensures Legal(PreviousValue(None)) && Encode(PreviousValue(None)) == [10, 4, 0, 9, 1, 0]
  {
    var empty := StructValue([]);
    assert Fields(empty) == [];
    assert Encode(empty) == [9, 1, 0];
  }

  lemma EntryIs(e: Entry)
    requires e == Genesis().entries[0] && Shaped(e) && Legal(EntryValue(e))
    ensures Encode(EntryValue(e)) == [0x09, 0x80, 0x01, 0x07] + EntryOctets()
    ensures |EntryOctets()| == 127
  {
    hide Code, AsciiCode, IsDigest, Repeat, Tens, DigestOctets, Join, Encode, Fields, Legal, FieldOctets, VaruintOf, StageNames;
    ShortText("ignored/input.txt");
    ShortText("regular_file");
    ShortText("read_only_input");
    NumberIs(6);
    Digests();
    StagesAre();
    Lengths();
    var v := EntryValue(e);
    StructIs(v);
    EntryFields(e);
    JoinSeven(Fields(v)[0], Fields(v)[1], Fields(v)[2], Fields(v)[3], Fields(v)[4], Fields(v)[5], Fields(v)[6]);
    assert Fields(v) == [Fields(v)[0], Fields(v)[1], Fields(v)[2], Fields(v)[3], Fields(v)[4], Fields(v)[5], Fields(v)[6]];
    Small(7);
    Small(128);
  }

  lemma EntryFields(e: Entry)
    requires e == Genesis().entries[0] && Shaped(e) && Legal(EntryValue(e))
    ensures var f := Fields(EntryValue(e));
            && |f| == 7
            && f[0] == [0x01, 0x06, 0x11] + AsciiCode("ignored/input.txt")
            && f[1] == [0x02, 0x04, 0x0C] + AsciiCode("regular_file")
            && f[2] == [0x03, 0x02, 0x01, 0x06]
            && f[3] == [0x04, 0x05, 0x20] + Tens()
            && f[4] == [0x05, 0x04, 0x0F] + AsciiCode("read_only_input")
            && f[5] == [0x06, 0x08, 0x0C, 0x01, 0x04, 0x09] + AsciiCode("EXECUTING")
            && f[6] == [0x07, 0x06, 0x11] + AsciiCode("ignored/input.txt")
  {
    hide Code, AsciiCode, IsDigest, Repeat, Tens, DigestOctets, Join, Encode, Fields, Legal, FieldOctets, VaruintOf, StageNames;
    ShortText("ignored/input.txt");
    ShortText("regular_file");
    ShortText("read_only_input");
    NumberIs(6);
    Digests();
    StagesAre();
    var v := EntryValue(e);
    FieldAt(v, 0);
    FieldAt(v, 1);
    FieldAt(v, 2);
    FieldAt(v, 3);
    FieldAt(v, 4);
    FieldAt(v, 5);
    FieldAt(v, 6);
    TaggedIs(1, [6, 17] + AsciiCode("ignored/input.txt"));
    TaggedIs(2, [4, 12] + AsciiCode("regular_file"));
    TaggedIs(3, [2, 1, 6]);
    TaggedIs(4, [5, 32] + Tens());
    TaggedIs(5, [4, 15] + AsciiCode("read_only_input"));
    TaggedIs(6, [8, 12, 1] + ([4, 9] + AsciiCode("EXECUTING")));
    TaggedIs(7, [6, 17] + AsciiCode("ignored/input.txt"));
  }

  lemma SortedAlone(e: Entry)
    ensures SortEntries([e]) == [e]
  {
    assert [e][1..] == [];
  }

  lemma EntryListIs(e: Entry)
    requires e == Genesis().entries[0] && Shaped(e) && Legal(EntryValue(e))
    ensures Legal(ListValue(EntryValues([e])))
    ensures Encode(ListValue(EntryValues([e]))) == [0x08, 0x84, 0x01, 0x01, 0x09, 0x80, 0x01, 0x07] + EntryOctets()
  {
    hide Code, AsciiCode, EntryOctets, EntryValue, Legal, Encode, VaruintOf, Shaped;
    EntryIs(e);
    OneItem(EntryValue(e));
    assert EntryValues([e]) == [EntryValue(e)];
    Small(132);
  }

  lemma RootFields(r: Request, w: Octets)
    requires r == Genesis() && Accepted(r) && Legal(ExpectedRoot(r, w)) && |w| == 32
    ensures var f := Fields(ExpectedRoot(r, w));
            && |f| == 8
            && f[0] == [0x01, 0x01, 0x13] + AsciiCode("task:vector:genesis")
            && f[1] == [0x02, 0x01, 0x0D] + AsciiCode("plan:vector:1")
            && f[2] == [0x03, 0x05, 0x20] + Zeros()
            && f[3] == [0x04, 0x05, 0x20] + w
            && f[4] == [0x05, 0x0A, 0x04, 0x00, 0x09, 0x01, 0x00]
            && f[5] == [0x06, 0x02, 0x01, 0x01]
            && f[6] == [0x07, 0x08, 0x84, 0x01, 0x01, 0x09, 0x80, 0x01, 0x07] + EntryOctets()
            && f[7] == [0x08, 0x01, 0x16] + AsciiCode("ignored:vector:genesis")
  {
    hide Accepted, Code, AsciiCode, IsDigest, Repeat, Zeros, DigestOctets, Join, Encode, Fields, Legal, FieldOctets, VaruintOf,
      EntryOctets, EntryValues, PreviousValue, Shaped, EntryValue, SortEntries;
    var v, e := ExpectedRoot(r, w), r.entries[0];
    AcceptedParts(r);
    SortedAlone(e);
    NamesLegal(e);
    ShortText("task:vector:genesis");
    ShortText("plan:vector:1");
    ShortText("ignored:vector:genesis");
    NumberIs(1);
    Digests();
    DigestIs(w);
    GenesisPrevious();
    EntryListIs(e);
    RootFieldsAt(v);
    TaggedIs(1, [1, 19] + AsciiCode("task:vector:genesis"));
    TaggedIs(2, [1, 13] + AsciiCode("plan:vector:1"));
    TaggedIs(3, [5, 32] + Zeros());
    TaggedIs(4, [5, 32] + w);
    TaggedIs(5, [10, 4, 0, 9, 1, 0]);
    TaggedIs(6, [2, 1, 1]);
    TaggedIs(7, [0x08, 0x84, 0x01, 0x01, 0x09, 0x80, 0x01, 0x07] + EntryOctets());
    TaggedIs(8, [1, 22] + AsciiCode("ignored:vector:genesis"));
  }

  lemma DigestIs(w: Octets)
    requires |w| == 32
    ensures Encode(DigestValue(w)) == [5, 32] + w
  {
  }

  lemma RootFieldsAt(v: Value)
    requires v.StructValue? && Legal(v) && |v.fields| == 8
    ensures forall i :: 0 <= i < 8 ==>
              Legal(v.fields[i].value) && Fields(v)[i] == FieldOctets(v.fields[i].tag, Encode(v.fields[i].value))
  {
    forall i | 0 <= i < 8
      ensures Legal(v.fields[i].value) && Fields(v)[i] == FieldOctets(v.fields[i].tag, Encode(v.fields[i].value))
    {
      FieldAt(v, i);
    }
  }

  lemma RootIs(r: Request, w: Octets)
    requires r == Genesis() && Accepted(r) && Legal(ExpectedRoot(r, w)) && |w| == 32
    ensures Encode(ExpectedRoot(r, w)) == [0x09, 0x99, 0x02, 0x08] + Root(w)
    ensures |Root(w)| == 280
  {
    hide Accepted, Code, AsciiCode, IsDigest, Repeat, Zeros, DigestOctets, Join, Encode, Fields, Legal, FieldOctets, VaruintOf,
      EntryOctets, ExpectedRoot;
    RootShape(r, w);
    var f := Fields(ExpectedRoot(r, w));
    RootFields(r, w);
    StructIs(ExpectedRoot(r, w));
    assert f == [f[0], f[1], f[2], f[3], f[4], f[5], f[6], f[7]];
    JoinEight(f[0], f[1], f[2], f[3], f[4], f[5], f[6], f[7]);
    Lengths();
    EntryLength();
    Small(8);
    Small(281);
  }

  lemma RootShape(r: Request, w: Octets)
    requires Accepted(r)
    ensures ExpectedRoot(r, w).StructValue? && |ExpectedRoot(r, w).fields| == 8
  {
    hide Accepted, SortEntries, EntryValues, DigestOctets, PreviousValue;
  }

  lemma EntryLength()
    ensures |EntryOctets()| == 127
  {
    hide AsciiCode, Tens;
    Lengths();
  }

  /** For any digest function that gives 32 octets, the streams of the model are the frozen ones. */
  lemma ExpectedVector(hash: Octets -> Octets)
    requires |hash(WorkspaceOctets())| == 32
    ensures Accepted(Genesis())
    ensures WorkspaceStream(Genesis()) == WorkspaceOctets()
    ensures ExpectedStream(Genesis(), hash) == ExpectedOctets(hash(WorkspaceOctets()))
    ensures |ExpectedOctets(hash(WorkspaceOctets()))| == 332
  {
    hide Accepted, Legal, Code, AsciiCode, Encode, VaruintOf, Root, ExpectedRoot, WorkspaceOctets, WorkspaceStream, Genesis,
      ExpectedStream, IdentityStream;
    WorkspaceVector();
    var w := hash(WorkspaceOctets());
    ExpectedRootLegal(Genesis(), w);
    RootIs(Genesis(), w);
    Small(46);
    Lengths();
    DomainLength();
    StreamIs(AsciiCode("coding-harness:sandbox-input-expected-identity"), Encode(ExpectedRoot(Genesis(), w)));
    StreamOf(Genesis(), hash);
  }

  lemma DomainLength()
    ensures |AsciiCode("coding-harness:sandbox-input-expected-identity")| == 46
  {
  }

  lemma StreamIs(domain: Octets, root: Octets)
    requires |domain| == 46
    ensures IdentityStream(domain, root) == [0x2E] + domain + [0x01] + root
  {
    Small(46);
  }

  lemma StreamOf(r: Request, hash: Octets -> Octets)
    requires Accepted(r)
    ensures Legal(ExpectedRoot(r, hash(WorkspaceStream(r))))
    ensures ExpectedStream(r, hash) == IdentityStream(EXPECTED_DOMAIN, Encode(ExpectedRoot(r, hash(WorkspaceStream(r)))))
  {
    hide Accepted, Legal, Encode, WorkspaceStream, IdentityStream, ExpectedRoot;
    ExpectedRootLegal(r, hash(WorkspaceStream(r)));
  }
}
