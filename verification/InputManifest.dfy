/** The manifest of materialised inputs: how it grows, and what its digest covers. */
module InputManifest {
  import opened Wrappers
  import opened Utf8
  import opened Encoding
  import opened InputIdentity
  import Lexical

  datatype Manifest = Manifest(
    identity: Text,
    revision: nat,
    baselineDigest: Text,
    approvalIntent: Text,
    workspaceIdentity: Text,
    entries: seq<Entry>,
    digest: Octets)

  /** An entry is never eligible for the change set, written back, or shown to the model. */
  function ManifestEntryValue(e: Entry): Value
    requires Shaped(e)
  {
    StructValue([
      Field(1, PathValue(e.source)),
      Field(2, EnumValue(Code("regular_file"))),
      Field(3, UIntValue(e.size)),
      Field(4, DigestOctets(e.contentDigest)),
      Field(5, ModeName(e.mode)),
      Field(6, ListValue(StageNames(e.stages))),
      Field(7, BoolValue(false)),
      Field(8, BoolValue(false)),
      Field(9, BoolValue(false))])
  }

  function ManifestEntryValues(entries: seq<Entry>): seq<Value>
    requires forall i :: 0 <= i < |entries| ==> Shaped(entries[i])
  {
    seq(|entries|, i requires 0 <= i < |entries| => ManifestEntryValue(entries[i]))
  }

  const MANIFEST_DOMAIN: Octets := AsciiCode("coding-harness:sandbox-input-manifest-digest")

  predicate HeaderOk(m: Manifest) {
    && 1 <= m.revision
    && IsDigest(m.identity) && IsDigest(m.baselineDigest) && IsDigest(m.approvalIntent) && IsDigest(m.workspaceIdentity)
  }

  predicate EntriesOk(m: Manifest) {
    forall i :: 0 <= i < |m.entries| ==> Shaped(m.entries[i])
  }

  function ManifestRoot(m: Manifest): Value
    requires HeaderOk(m) && EntriesOk(m)
  {
    SortKeepsEntries(m.entries);
    StructValue([
      Field(1, DigestOctets(m.identity)),
      Field(2, UIntValue(m.revision)),
      Field(3, DigestOctets(m.baselineDigest)),
      Field(4, DigestOctets(m.approvalIntent)),
      Field(5, DigestOctets(m.workspaceIdentity)),
      Field(6, BoolValue(false)),
      Field(7, ListValue(ManifestEntryValues(SortEntries(m.entries))))])
  }

  lemma ManifestEntryLegal(e: Entry)
    requires Shaped(e)
    ensures Legal(ManifestEntryValue(e))
  {
    hide Shaped, IsDigest, FromHex;
    assert Legal(ModeName(e.mode)) && Legal(EnumValue(Code("regular_file")));
    StagesLegal(e);
  }

  lemma ManifestLegal(m: Manifest)
    requires HeaderOk(m) && EntriesOk(m)
    ensures Legal(ManifestRoot(m))
  {
    hide IsDigest, FromHex, Shaped, SortEntries, ManifestEntryValue;
    SortKeepsEntries(m.entries);
    var sorted := SortEntries(m.entries);
    forall i | 0 <= i < |sorted| ensures Legal(ManifestEntryValues(sorted)[i]) {
      ManifestEntryLegal(sorted[i]);
    }
    assert Legal(ListValue(ManifestEntryValues(sorted)));
  }

  function ManifestStream(m: Manifest): Octets
    requires HeaderOk(m) && EntriesOk(m)
  {
    ManifestLegal(m);
    IdentityStream(MANIFEST_DOMAIN, Encode(ManifestRoot(m)))
  }

  predicate ValidManifest(m: Manifest, hash: Octets -> Octets) {
    && HeaderOk(m) && EntriesOk(m)
    && m.entries != []
    && Sorted(m.entries) && DistinctSources(m.entries)
    && m.digest == hash(ManifestStream(m))
  }

  /** Whether the current manifest cannot take the entry. */
  predicate Conflicts(current: Manifest, identity: Text, baselineDigest: Text, workspaceIdentity: Text, entry: Entry) {
    || current.baselineDigest != baselineDigest
    || current.workspaceIdentity != workspaceIdentity
    || current.identity == identity
    || exists i :: 0 <= i < |current.entries| && current.entries[i].source == entry.source
  }

  /** The next manifest: one more entry and one more revision, or nothing on a conflict. */
  function MakeManifest(current: Option<Manifest>, identity: Text, baselineDigest: Text, workspaceIdentity: Text,
                        approvalIntent: Text, entry: Entry, hash: Octets -> Octets): (r: Option<Manifest>)
    requires IsDigest(identity) && IsDigest(baselineDigest) && IsDigest(workspaceIdentity) && IsDigest(approvalIntent)
    requires Shaped(entry) && (current.Some? ==> ValidManifest(current.value, hash))
  {
    if current.Some? && Conflicts(current.value, identity, baselineDigest, workspaceIdentity, entry) then None
    else
      var before := if current.Some? then current.value.entries else [];
      var revision := if current.Some? then current.value.revision + 1 else 1;
      InsertKeepsOk(entry, before);
      var made := Manifest(identity, revision, baselineDigest, approvalIntent, workspaceIdentity, Insert(entry, before), []);
      Some(made.(digest := hash(ManifestStream(made))))
  }

  lemma InsertKeepsOk(e: Entry, entries: seq<Entry>)
    requires Shaped(e) && forall i :: 0 <= i < |entries| ==> Shaped(entries[i])
    ensures forall i :: 0 <= i < |Insert(e, entries)| ==> Shaped(Insert(e, entries)[i])
  {
    forall i | 0 <= i < |Insert(e, entries)| ensures Shaped(Insert(e, entries)[i]) {
      assert Insert(e, entries)[i] in multiset(Insert(e, entries));
    }
  }

  lemma InsertDistinct(e: Entry, entries: seq<Entry>)
    requires DistinctSources(entries) && forall i :: 0 <= i < |entries| ==> entries[i].source != e.source
    ensures DistinctSources(Insert(e, entries))
  {
    var plain := [e] + entries;
    assert DistinctSources(plain) && multiset(plain) == multiset(Insert(e, entries));
    forall i, j | 0 <= i < j < |Insert(e, entries)|
      ensures Insert(e, entries)[i].source != Insert(e, entries)[j].source
    {
      DistinctAsMultiset(plain, Insert(e, entries), i, j);
    }
  }

  lemma StreamIgnoresDigest(m: Manifest, d: Octets)
    requires HeaderOk(m) && EntriesOk(m)
    ensures ManifestStream(m.(digest := d)) == ManifestStream(m)
  {
    hide Encode, Legal;
    assert ManifestRoot(m.(digest := d)) == ManifestRoot(m);
  }

  /** Making manifests keeps them valid, loses no entry, and counts one revision for each entry. */
  lemma MadeManifestValid(current: Option<Manifest>, identity: Text, baselineDigest: Text, workspaceIdentity: Text,
                          approvalIntent: Text, entry: Entry, hash: Octets -> Octets)
    requires IsDigest(identity) && IsDigest(baselineDigest) && IsDigest(workspaceIdentity) && IsDigest(approvalIntent)
    requires Shaped(entry) && (current.Some? ==> ValidManifest(current.value, hash))
    ensures var made := MakeManifest(current, identity, baselineDigest, workspaceIdentity, approvalIntent, entry, hash);
            && (made.Some? <==>
                  current.Some? ==>
                    && current.value.identity != identity
                    && current.value.baselineDigest == baselineDigest
                    && current.value.workspaceIdentity == workspaceIdentity
                    && forall e :: e in current.value.entries ==> e.source != entry.source)
            && (made.Some? ==>
                 && ValidManifest(made.value, hash)
                 && made.value.identity == identity && made.value.baselineDigest == baselineDigest
                 && made.value.workspaceIdentity == workspaceIdentity && made.value.approvalIntent == approvalIntent
                 && made.value.revision == (if current.Some? then current.value.revision + 1 else 1)
                 && multiset(made.value.entries)
                    == multiset(if current.Some? then current.value.entries else []) + multiset{entry})
            && (made.Some? && (current.Some? ==> current.value.revision == |current.value.entries|) ==>
                 made.value.revision == |made.value.entries|)
  {
    hide IsDigest, Shaped, ManifestStream, Key;
    var made := MakeManifest(current, identity, baselineDigest, workspaceIdentity, approvalIntent, entry, hash);
    if made.Some? {
      var before := if current.Some? then current.value.entries else [];
      InsertKeepsOk(entry, before);
      InsertSorted(entry, before);
      InsertDistinct(entry, before);
      assert made.value.entries == Insert(entry, before);
      StreamIgnoresDigest(made.value, []);
      assert |Insert(entry, before)| == |multiset(Insert(entry, before))|;
    }
  }

  lemma ManifestEntryTold(a: Entry, b: Entry)
    requires Shaped(a) && Shaped(b) && ManifestEntryValue(a) == ManifestEntryValue(b)
    ensures a == b
  {
    hide IsDigest, FromHex, Shaped;
    var f, g := ManifestEntryValue(a).fields, ManifestEntryValue(b).fields;
    assert f[0] == g[0] && f[2] == g[2] && f[3] == g[3] && f[4] == g[4] && f[5] == g[5];
    EntryParts(a);
    EntryParts(b);
    assert EntryValue(a) == EntryValue(b);
    EntryTold(a, b);
  }

  lemma EntryParts(e: Entry)
    requires Shaped(e)
    ensures 0 <= e.size && IsDigest(e.contentDigest)
  {
  }

  lemma ManifestEntriesTold(a: seq<Entry>, b: seq<Entry>)
    requires forall i :: 0 <= i < |a| ==> Shaped(a[i])
    requires forall i :: 0 <= i < |b| ==> Shaped(b[i])
    requires ManifestEntryValues(a) == ManifestEntryValues(b)
    ensures a == b
  {
    hide Shaped, ManifestEntryValue;
    assert |a| == |ManifestEntryValues(a)| == |ManifestEntryValues(b)| == |b|;
    forall i | 0 <= i < |a| ensures a[i] == b[i] {
      assert ManifestEntryValues(a)[i] == ManifestEntryValues(b)[i];
      ManifestEntryTold(a[i], b[i]);
    }
  }

  lemma ManifestRootTold(a: Manifest, b: Manifest)
    requires HeaderOk(a) && EntriesOk(a) && HeaderOk(b) && EntriesOk(b) && ManifestRoot(a) == ManifestRoot(b)
    ensures a.revision == b.revision && SortEntries(a.entries) == SortEntries(b.entries)
    ensures DigestOctets(a.identity) == DigestOctets(b.identity)
    ensures DigestOctets(a.baselineDigest) == DigestOctets(b.baselineDigest)
    ensures DigestOctets(a.approvalIntent) == DigestOctets(b.approvalIntent)
    ensures DigestOctets(a.workspaceIdentity) == DigestOctets(b.workspaceIdentity)
  {
    hide IsDigest, FromHex, Shaped, ManifestEntryValues, SortEntries, DigestOctets;
    SortKeepsEntries(a.entries);
    SortKeepsEntries(b.entries);
    var f, g := ManifestRoot(a).fields, ManifestRoot(b).fields;
    assert f[0] == g[0] && f[1] == g[1] && f[2] == g[2] && f[3] == g[3] && f[4] == g[4] && f[6] == g[6];
    ManifestEntriesTold(SortEntries(a.entries), SortEntries(b.entries));
  }

  /** With a collision-free digest two valid manifests with the same digest are the same manifest. */
  lemma ManifestBinds(a: Manifest, b: Manifest, hash: Octets -> Octets)
    requires forall x, y :: hash(x) == hash(y) ==> x == y
    requires ValidManifest(a, hash) && ValidManifest(b, hash) && a.digest == b.digest
    ensures a == b
  {
    hide Encode, Legal, ManifestRoot, IsDigest, FromHex, Shaped, AsciiCode, IdentityStream, Key;
    ManifestLegal(a);
    ManifestLegal(b);
    StreamInjective(MANIFEST_DOMAIN, MANIFEST_DOMAIN, ManifestRoot(a), ManifestRoot(b));
    ManifestRootTold(a, b);
    DigestTold(a.identity, b.identity);
    DigestTold(a.baselineDigest, b.baselineDigest);
    DigestTold(a.approvalIntent, b.approvalIntent);
    DigestTold(a.workspaceIdentity, b.workspaceIdentity);
    assert multiset(a.entries) == multiset(SortEntries(a.entries)) == multiset(SortEntries(b.entries)) == multiset(b.entries);
    SortedUnique(a.entries, b.entries);
  }

  lemma DomainsDiffer()
    ensures MANIFEST_DOMAIN != EXPECTED_DOMAIN && MANIFEST_DOMAIN != WORKSPACE_DOMAIN
            && EXPECTED_DOMAIN != WORKSPACE_DOMAIN
  {
    assert |MANIFEST_DOMAIN| == 44 && |EXPECTED_DOMAIN| == 46 && |WORKSPACE_DOMAIN| == 41;
  }

  /** The three streams never coincide, so no digest of one kind can pass for another. */
  lemma StreamsApart(m: Manifest, r: Request, hash: Octets -> Octets)
    requires HeaderOk(m) && EntriesOk(m) && Accepted(r)
    ensures ManifestStream(m) != ExpectedStream(r, hash)
    ensures ManifestStream(m) != WorkspaceStream(r)
    ensures ExpectedStream(r, hash) != WorkspaceStream(r)
  {
    hide Encode, Legal, ManifestRoot, ExpectedRoot, WorkspaceRoot, Accepted, AsciiCode, IdentityStream;
    DomainsDiffer();
    ApartIfDomainsDiffer(MANIFEST_DOMAIN, EXPECTED_DOMAIN);
    ApartIfDomainsDiffer(MANIFEST_DOMAIN, WORKSPACE_DOMAIN);
    ApartIfDomainsDiffer(EXPECTED_DOMAIN, WORKSPACE_DOMAIN);
  }

  lemma ApartIfDomainsDiffer(c: Octets, d: Octets)
    requires c != d
    ensures forall x, y :: IdentityStream(c, x) != IdentityStream(d, y)
  {
    forall x, y ensures IdentityStream(c, x) != IdentityStream(d, y) {
      if IdentityStream(c, x) == IdentityStream(d, y) {
        DomainTold(c, d, x, y);
      }
    }
  }
}
