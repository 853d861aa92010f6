/** Publishing one planned entry, restoring it, and clearing up after an interrupted attempt. */
module EntryEffects {
  import opened Wrappers
  import opened ApplyModels
  import opened TargetTree
  import opened Hosts
  import opened Directories
  import opened LeafEffects

  /** None of the entry's created parents exists. */
  ghost predicate ParentsAbsent(t: Tree, e: Entry) {
    forall d :: d in e.createdParents ==> d !in t.dirs
  }

  /** The entry was not touched: the original leaf and nothing of the transaction around it. */
  ghost predicate Pristine(t: Tree, e: Entry) {
    && Settled(t, e.path, e.original)
    && TemporaryAt(t, e.path, DigestOf(e.original)).None?
    && TemporaryAt(t, e.path, DigestOf(e.desired)).None?
    && ParentsAbsent(t, e)
  }

  /** What publishing `e` may change: names of its path, and its own created parents. */
  ghost predicate PublishFrame(t: Tree, u: Tree, e: Entry) {
    && SameFilesBut(t, u, e.path)
    && (forall d :: Some(d) != DigestOf(e.desired) ==> Lookup(u, Temporary(e.path, d)) == Lookup(t, Temporary(e.path, d)))
    && (forall d :: d in t.dirs ==> d in u.dirs && u.dirs[d] == t.dirs[d])
    && (forall d :: d in u.dirs && d !in t.dirs ==> d in e.createdParents)
  }

  /** The steps below the open parent: checks, payload, leaf effect, checks. A leaf that is not the
      original is left alone. */
  method PublishInto(host: Host, e: Entry, chain: map<Path, Digest>) returns (r: Outcome<()>)
    requires !host.dead && Reachable(host.tree, e.path)
    requires Matches(host.tree, chain)
    modifies host`dead, host`faults, host`tree, host`looked
    ensures host.dead <==> r.Crashed?
    ensures host.faults <= old(host.faults)
    ensures r.Ok? ==> host.faults == old(host.faults)
    ensures r.Raise? ==> r.error == UncertainEffect || r.error == ApplyFailure
    ensures Reachable(host.tree, e.path)
    ensures EffectFrame(old(host.tree), host.tree, e.path, e.desired)
    ensures !Settled(old(host.tree), e.path, e.original) ==>
              !r.Ok? && LeafAt(host.tree, e.path) == LeafAt(old(host.tree), e.path)
    ensures Settled(old(host.tree), e.path, e.original) ==> InFlight(host.tree, e.path, e.original, e.desired)
    ensures r.Ok? ==> Settled(host.tree, e.path, e.desired)
    ensures r.Ok? && TemporaryAt(old(host.tree), e.path, DigestOf(e.desired)).None? ==>
              TemporaryAt(host.tree, e.path, DigestOf(e.desired)).None?
    ensures r == Raise(ApplyFailure) && Settled(old(host.tree), e.path, e.original) ==>
              Settled(host.tree, e.path, e.original)
    ensures Settled(old(host.tree), e.path, e.original)
            && GentleAt(host.frail, e.path, e.original.Some?) && r.Raise? && PayloadReady(host.blobs, e)
            && TemporaryAt(old(host.tree), e.path, DigestOf(e.desired)).None? && old(host.faults) <= host.faults + 1
            ==> r.error == ApplyFailure && TemporaryAt(host.tree, e.path, DigestOf(e.desired)).None?
    ensures Settled(old(host.tree), e.path, e.original)
            && host.faults == old(host.faults) && TemporaryAt(old(host.tree), e.path, DigestOf(e.desired)).None?
            && PayloadReady(host.blobs, e)
            ==> r.Ok?
  {
    hide WellFormed;
    if GentleAt(host.frail, e.path, e.original.Some?) {
      GentleBlobs(host.frail, e.path, e.original.Some?);
    }
    hide GentleAt;
    if !Matches(host.tree, chain) {
      return Raise(UncertainEffect);
    }
    var expected :- host.SnapshotAt(Leaf(e.path));
    if expected != e.original {
      return Raise(UncertainEffect);
    }
    if e.desired.Some? {
      var payload := host.ReadBlob(Payload(e.order));
      if payload.Crashed? {
        return Crashed;
      }
      if payload.Raise? {
        return Raise(UncertainEffect);
      }
      if payload.value != e.desired.value.content {
        return Raise(ApplyFailure);
      }
    }
    var _ :- ConditionalLeafEffect(host, e.path, expected, e.desired);
    if !Matches(host.tree, chain) {
      return Raise(UncertainEffect);
    }
    return Ok(());
  }

  lemma GentleBlobs(frail: Step -> bool, p: Path, had: bool)
    requires GentleAt(frail, p, had)
    ensures !frail(BlobReading)
  {
  }

  predicate PayloadReady(blobs: map<Blob, Bytes>, e: Entry) {
    e.desired.Some? ==> Payload(e.order) in blobs && blobs[Payload(e.order)] == e.desired.value.content
  }

  predicate BackupSaved(blobs: map<Blob, Bytes>, e: Entry) {
    e.original.Some? ==> Backup(e.order) in blobs && blobs[Backup(e.order)] == e.original.value.content
  }

  /** An attempt first only made the listed directories (from `t` to `u`), then only touched names of
      the path (from `u` to `v`). */
  ghost predicate Attempted(t: Tree, u: Tree, v: Tree, e: Entry, created: seq<Path>, evidence: map<Path, Digest>) {
    && Grown(t, u, evidence)
    && evidence.Keys == (set d | d in created)
    && Nested(created, e.path)
    && (forall d :: d in created ==> d in e.createdParents)
    && EffectFrame(u, v, e.path, e.desired)
  }

  /** The circumstances under which an undisturbed publish succeeds. */
  ghost predicate Publishable(t: Tree, blobs: map<Blob, Bytes>, e: Entry)
    requires 0 < |e.path|
  {
    && PayloadReady(blobs, e)
    && if e.desired.Some? then Creatable(t, e.path, e.createdParents) else Parent(e.path) in t.dirs
  }

  /** Walks to the parent, creating directories as planned, and performs the leaf effect there. */
  method PublishAttempt(host: Host, e: Entry)
    returns (r: Outcome<()>, created: seq<Path>, evidence: map<Path, Digest>, ghost mid: Tree)
    requires !host.dead && WellFormed(host.tree) && ValidEntry(e)
    requires Pristine(host.tree, e) && e.path !in host.tree.dirs
    modifies host`dead, host`faults, host`tree, host`looked
    ensures host.dead <==> r.Crashed?
    ensures host.faults <= old(host.faults)
    ensures r.Ok? ==> host.faults == old(host.faults)
    ensures WellFormed(host.tree)
    ensures Attempted(old(host.tree), mid, host.tree, e, created, evidence)
    ensures InFlight(host.tree, e.path, e.original, e.desired)
    ensures r.Ok? ==> Settled(host.tree, e.path, e.desired)
    ensures r.Ok? ==> TemporaryAt(host.tree, e.path, DigestOf(e.desired)).None?
    ensures r.Ok? ==> Parent(e.path) in host.tree.dirs
    ensures r.Raise? && r.error != UncertainEffect ==> Settled(host.tree, e.path, e.original)
    ensures GentleAt(host.frail, e.path, e.original.Some?) && Publishable(old(host.tree), host.blobs, e) && r.Raise?
            && old(host.faults) <= host.faults + 1
            ==> r.error != UncertainEffect && TemporaryAt(host.tree, e.path, DigestOf(e.desired)).None?
    ensures host.faults == old(host.faults) && Publishable(old(host.tree), host.blobs, e) ==> r.Ok?
  {
    hide WellFormed, Matches, Grown, Nested, GentleAt;
    var chain;
    r, created, evidence, chain := OpenParent(host, e.path, e.desired.Some?, e.createdParents);
    mid := host.tree;
    GrownKeeps(old(host.tree), mid, evidence, e);
    if r.Ok? {
      r := PublishInto(host, e, chain);
    }
  }

  lemma GrownKeeps(t: Tree, u: Tree, evidence: map<Path, Digest>, e: Entry)
    requires Grown(t, u, evidence) && ValidEntry(e) && e.path !in t.dirs
    requires forall d :: d in evidence ==> d in e.createdParents
    ensures u.files == t.files && e.path !in u.dirs
  {
  }

  /** Creates the entry's missing parents and performs its leaf effect. A failed attempt removes the
      directories it made. */
  method PublishEntry(host: Host, e: Entry) returns (r: Outcome<()>, created: seq<Path>, evidence: map<Path, Digest>)
    requires !host.dead && WellFormed(host.tree) && ValidEntry(e)
    requires Pristine(host.tree, e) && e.path !in host.tree.dirs
    modifies host`dead, host`faults, host`tree, host`looked
    ensures host.dead <==> r.Crashed?
    ensures host.faults <= old(host.faults)
    ensures r.Ok? ==> host.faults == old(host.faults)
    ensures WellFormed(host.tree)
    ensures PublishFrame(old(host.tree), host.tree, e)
    ensures InFlight(host.tree, e.path, e.original, e.desired)
    ensures r.Ok? ==> Settled(host.tree, e.path, e.desired)
    ensures r.Ok? ==> TemporaryAt(host.tree, e.path, DigestOf(e.desired)).None?
    ensures r.Ok? ==> Evidenced(old(host.tree), host.tree, e, created, evidence)
    ensures r.Raise? && r.error != UncertainEffect ==> FailedCleanly(host.tree, e)
    ensures GentleAt(host.frail, e.path, e.original.Some?) && Publishable(old(host.tree), host.blobs, e) && r.Raise?
            && old(host.faults) <= host.faults + 1
            ==> r.error != UncertainEffect && TemporaryAt(host.tree, e.path, DigestOf(e.desired)).None?
    ensures host.faults == old(host.faults) && Publishable(old(host.tree), host.blobs, e) ==> r.Ok?
  {
    hide WellFormed, Pristine, PublishFrame, Attempted, Evidenced, FailedCleanly, InFlight, Settled, GentleAt;
    ghost var mid;
    r, created, evidence, mid := PublishAttempt(host, e);
    AttemptFrame(old(host.tree), mid, host.tree, e, created, evidence);
    if r.Ok? {
      AttemptEvidence(old(host.tree), mid, host.tree, e, created, evidence);
    } else if r.Raise? {
      ghost var failed := host.tree;
      AttemptNests(old(host.tree), mid, failed, e, created, evidence);
      var removed := RemoveCreatedParents(host, created, e.path, evidence);
      RemovalFrame(old(host.tree), failed, host.tree, e, created);
      if removed.Crashed? {
        return Crashed, created, evidence;
      }
      if r.error != UncertainEffect {
        CleanedUp(old(host.tree), mid, failed, host.tree, e, created, evidence);
      }
    }
  }

  /** After a successful publish the listed directories are exactly the new ones, with their evidence. */
  ghost predicate Evidenced(t: Tree, u: Tree, e: Entry, created: seq<Path>, evidence: map<Path, Digest>) {
    && u.dirs.Keys == t.dirs.Keys + evidence.Keys
    && evidence.Keys == (set d | d in created)
    && Nested(created, e.path)
    && Matches(u, evidence)
    && evidence.Keys == (set d | d in e.createdParents)
  }

  /** The original is back; directories made for the entry remain only around a left temporary. */
  ghost predicate FailedCleanly(t: Tree, e: Entry) {
    && Settled(t, e.path, e.original)
    && (ParentsAbsent(t, e) || TemporaryAt(t, e.path, DigestOf(e.desired)).Some?)
  }

  lemma AttemptFrame(t: Tree, u: Tree, v: Tree, e: Entry, created: seq<Path>, evidence: map<Path, Digest>)
    requires Attempted(t, u, v, e, created, evidence)
    ensures PublishFrame(t, v, e)
  {
    assert forall n: Name :: Lookup(u, n) == Lookup(t, n);
  }

  lemma AttemptNests(t: Tree, u: Tree, v: Tree, e: Entry, created: seq<Path>, evidence: map<Path, Digest>)
    requires Attempted(t, u, v, e, created, evidence)
    ensures Nested(created, e.path)
    ensures forall d :: d in created ==> d in e.createdParents && d !in t.dirs
  {
  }

  lemma AttemptEvidence(t: Tree, u: Tree, v: Tree, e: Entry, created: seq<Path>, evidence: map<Path, Digest>)
    requires ValidEntry(e) && Pristine(t, e) && WellFormed(v) && Parent(e.path) in v.dirs
    requires Attempted(t, u, v, e, created, evidence)
    ensures Evidenced(t, v, e, created, evidence)
  {
    AllCreated(t, v, e, evidence);
  }

  lemma RemovalFrame(t: Tree, v: Tree, w: Tree, e: Entry, created: seq<Path>)
    requires PublishFrame(t, v, e) && Shrunk(v, w, created)
    requires forall d :: d in created ==> d !in t.dirs
    ensures PublishFrame(t, w, e)
    ensures forall n: Name :: Lookup(w, n) == Lookup(v, n)
    ensures InFlight(w, e.path, e.original, e.desired) == InFlight(v, e.path, e.original, e.desired)
    ensures Settled(w, e.path, e.original) == Settled(v, e.path, e.original)
  {
  }

  /** When the walk succeeded, every parent the entry owns was created by it. */
  lemma AllCreated(t: Tree, u: Tree, e: Entry, evidence: map<Path, Digest>)
    requires ValidEntry(e) && ParentsAbsent(t, e) && WellFormed(u)
    requires u.dirs.Keys == t.dirs.Keys + evidence.Keys && Parent(e.path) in u.dirs
    ensures forall d :: d in e.createdParents ==> d in evidence
  {
    forall i | 0 <= i < |e.createdParents| ensures e.createdParents[i] in evidence {
      var d := e.createdParents[i];
      PrefixDirs(u, Parent(e.path), |d|);
      assert Parent(e.path)[..|d|] == d;
    }
  }

  /** After a clean failure the directories made for it are gone, unless a temporary holds them. */
  lemma CleanedUp(t: Tree, u: Tree, v: Tree, w: Tree, e: Entry, created: seq<Path>, evidence: map<Path, Digest>)
    requires ValidEntry(e) && WellFormed(t) && Pristine(t, e)
    requires Attempted(t, u, v, e, created, evidence) && Settled(v, e.path, e.original)
    requires Shrunk(v, w, created)
    requires Removable(v, created, evidence) ==> GoneFrom(w, created, 0)
    ensures FailedCleanly(w, e)
  {
    if TemporaryAt(v, e.path, DigestOf(e.desired)).None? {
      HollowAfterFailure(t, u, v, e, created, evidence);
      forall d | d in e.createdParents ensures d !in w.dirs {
        if d in created {
          var i :| 0 <= i < |created| && created[i] == d;
        }
      }
    }
  }

  lemma HollowAfterFailure(t: Tree, u: Tree, v: Tree, e: Entry, created: seq<Path>, evidence: map<Path, Digest>)
    requires ValidEntry(e) && WellFormed(t) && Pristine(t, e)
    requires Attempted(t, u, v, e, created, evidence) && Settled(v, e.path, e.original)
    requires TemporaryAt(v, e.path, DigestOf(e.desired)).None?
    ensures Removable(v, created, evidence)
  {
    forall n: Name | n in v.files && 0 < |n.path| ensures Parent(n.path) !in created {
      assert Lookup(v, n).Some?;
      assert Lookup(t, n) == Lookup(u, n);
      if n.path != e.path {
        assert Lookup(v, n) == Lookup(u, n);
      } else {
        match n
        case Leaf(_) => assert Lookup(v, n) == e.original == Lookup(t, n);
        case Quarantine(_) => assert false;
        case Temporary(_, d) => assert Lookup(v, n) == Lookup(u, n);
      }
      assert n in t.files;
    }
  }

  // ---- undoing an entry ----

  /** What restoring `e` may change: names of its path, and its created parents may go. */
  ghost predicate RestoreFrame(t: Tree, u: Tree, e: Entry) {
    && SameFilesBut(t, u, e.path)
    && (forall d :: Some(d) != DigestOf(e.original) ==> Lookup(u, Temporary(e.path, d)) == Lookup(t, Temporary(e.path, d)))
    && (forall d :: d in u.dirs ==> d in t.dirs && u.dirs[d] == t.dirs[d])
    && (forall d :: d in t.dirs && d !in e.createdParents ==> d in u.dirs)
  }

  /** The steps below the open parent: checks, backup, leaf effect back to the original, checks. */
  method RestoreInto(host: Host, e: Entry, chain: map<Path, Digest>) returns (r: Outcome<()>)
    requires !host.dead && Reachable(host.tree, e.path)
    requires Matches(host.tree, chain)
    modifies host`dead, host`faults, host`tree, host`looked
    ensures host.dead <==> r.Crashed?
    ensures host.faults <= old(host.faults)
    ensures Reachable(host.tree, e.path)
    ensures EffectFrame(old(host.tree), host.tree, e.path, e.original)
    ensures LeafAt(old(host.tree), e.path) != e.original && LeafAt(old(host.tree), e.path) != e.desired ==>
              !r.Ok? && LeafAt(host.tree, e.path) == LeafAt(old(host.tree), e.path)
    ensures (Settled(old(host.tree), e.path, e.original) || Settled(old(host.tree), e.path, e.desired)) ==>
              InFlight(host.tree, e.path, e.desired, e.original)
    ensures r.Ok? ==> LeafAt(host.tree, e.path) == e.original
    ensures r.Ok? && (Settled(old(host.tree), e.path, e.original) || Settled(old(host.tree), e.path, e.desired)) ==>
              Settled(host.tree, e.path, e.original)
    ensures r.Ok? && TemporaryAt(old(host.tree), e.path, DigestOf(e.original)).None? ==>
              TemporaryAt(host.tree, e.path, DigestOf(e.original)).None?
    ensures (Settled(old(host.tree), e.path, e.original) || Settled(old(host.tree), e.path, e.desired))
            && host.faults == old(host.faults) && TemporaryAt(old(host.tree), e.path, DigestOf(e.original)).None?
            && BackupSaved(host.blobs, e)
            ==> r.Ok?
  {
    hide WellFormed;
    if !Matches(host.tree, chain) {
      return Raise(UncertainEffect);
    }
    var current :- host.SnapshotAt(Leaf(e.path));
    if current != e.original {
      if current != e.desired {
        return Raise(UncertainEffect);
      }
      if e.original.Some? {
        var content := host.ReadBlob(Backup(e.order));
        if content.Crashed? {
          return Crashed;
        }
        if content.Raise? {
          return Raise(UncertainEffect);
        }
        if content.value != e.original.value.content {
          return Raise(ApplyFailure);
        }
      }
      var _ :- ConditionalLeafEffect(host, e.path, current, e.original);
    }
    if !Matches(host.tree, chain) {
      return Raise(UncertainEffect);
    }
    return Ok(());
  }

  /** What restoring an entry did to the tree. */
  ghost predicate RestoreOutcome(t: Tree, u: Tree, e: Entry, evidence: map<Path, Digest>, ok: bool)
    requires 0 < |e.path|
  {
    && RestoreFrame(t, u, e)
    && (ok ==>
         && Settled(u, e.path, e.original)
         && Parent(e.path) in t.dirs
         && (TemporaryAt(t, e.path, DigestOf(e.original)).None? ==> TemporaryAt(u, e.path, DigestOf(e.original)).None?)
         && (Removable(Tree(u.files, t.dirs), e.createdParents, evidence) ==> ParentsAbsent(u, e)))
  }

  /** Brings the original leaf back, then removes the entry's created parents by their evidence. */
  method RestoreEntry(host: Host, e: Entry, evidence: map<Path, Digest>) returns (r: Outcome<()>)
    requires !host.dead && WellFormed(host.tree) && ValidEntry(e) && e.path !in host.tree.dirs
    requires Settled(host.tree, e.path, e.original) || Settled(host.tree, e.path, e.desired)
    modifies host`dead, host`faults, host`tree, host`looked
    ensures host.dead <==> r.Crashed?
    ensures host.faults <= old(host.faults)
    ensures WellFormed(host.tree)
    ensures InFlight(host.tree, e.path, e.desired, e.original)
    ensures RestoreOutcome(old(host.tree), host.tree, e, evidence, r.Ok?)
    ensures host.faults == old(host.faults) && Parent(e.path) in old(host.tree).dirs
            && TemporaryAt(old(host.tree), e.path, DigestOf(e.original)).None? && BackupSaved(host.blobs, e)
            ==> r.Ok?
  {
    hide WellFormed, Matches, InFlight, Grown, Removable;
    assert InFlight(host.tree, e.path, e.desired, e.original) by {
      SettledInFlight(host.tree, e);
    }
    var walked, created, made, chain := OpenParent(host, e.path, e.original.Some?, []);
    assert host.tree == old(host.tree) by {
      NothingGrown(old(host.tree), host.tree, made);
    }
    if !walked.Ok? {
      return walked;
    }
    r := RestoreInto(host, e, chain);
    if r.Ok? {
      ghost var restored := host.tree;
      assert restored == Tree(restored.files, old(host.tree).dirs);
      r := RemoveCreatedParents(host, e.createdParents, e.path, evidence);
      RestoreRemoval(old(host.tree), restored, host.tree, e);
    }
  }

  lemma SettledInFlight(t: Tree, e: Entry)
    requires Settled(t, e.path, e.original) || Settled(t, e.path, e.desired)
    ensures InFlight(t, e.path, e.desired, e.original) && InFlight(t, e.path, e.original, e.desired)
  {
  }

  lemma NothingGrown(t: Tree, u: Tree, evidence: map<Path, Digest>)
    requires Grown(t, u, evidence) && evidence.Keys == {}
    ensures u == t
  {
    assert u.dirs.Keys == t.dirs.Keys;
    assert u.dirs == t.dirs;
  }

  lemma RestoreRemoval(t: Tree, u: Tree, v: Tree, e: Entry)
    requires EffectFrame(t, u, e.path, e.original) && Shrunk(u, v, e.createdParents)
    requires Settled(u, e.path, e.original)
    ensures RestoreFrame(t, v, e)
    ensures forall n: Name :: Lookup(v, n) == Lookup(u, n)
    ensures Settled(v, e.path, e.original) && InFlight(v, e.path, e.desired, e.original)
    ensures GoneFrom(v, e.createdParents, 0) ==> ParentsAbsent(v, e)
  {
  }

  // ---- clearing up an interrupted effect ----

  /** What an interrupted effect moves away from and towards. */
  function Displaced(e: Entry, rolling: bool): Option<Snapshot> {
    if rolling then e.desired else e.original
  }

  function Wanted(e: Entry, rolling: bool): Option<Snapshot> {
    if rolling then e.original else e.desired
  }

  /** The temporary of the interrupted effect is missing or complete. */
  predicate TemporaryUsable(t: Tree, e: Entry, rolling: bool) {
    var found := TemporaryAt(t, e.path, DigestOf(Wanted(e, rolling)));
    found.None? || found == Wanted(e, rolling)
  }

  method ClearTemporary(host: Host, e: Entry, rolling: bool) returns (r: Outcome<()>)
    requires !host.dead && Reachable(host.tree, e.path)
    modifies host`dead, host`faults, host`tree, host`looked
    ensures host.dead <==> r.Crashed?
    ensures host.faults <= old(host.faults)
    ensures Reachable(host.tree, e.path)
    ensures EffectFrame(old(host.tree), host.tree, e.path, Wanted(e, rolling))
    ensures LeafAt(host.tree, e.path) == LeafAt(old(host.tree), e.path)
    ensures QuarantineAt(host.tree, e.path) == QuarantineAt(old(host.tree), e.path)
    ensures r.Ok? ==> TemporaryAt(host.tree, e.path, DigestOf(Wanted(e, rolling))).None?
    ensures TemporaryAt(host.tree, e.path, DigestOf(Wanted(e, rolling))).None?
            || TemporaryAt(host.tree, e.path, DigestOf(Wanted(e, rolling)))
               == TemporaryAt(old(host.tree), e.path, DigestOf(Wanted(e, rolling)))
    ensures r.Ok? ==> TemporaryUsable(old(host.tree), e, rolling)
    ensures host.faults == old(host.faults) && TemporaryUsable(old(host.tree), e, rolling) ==> r.Ok?
  {
    hide WellFormed;
    var wanted := Wanted(e, rolling);
    if wanted.None? {
      return Ok(());
    }
    var name := Temporary(e.path, OfContent(wanted.value.content));
    var found :- host.SnapshotAt(name);
    if found.None? {
      return Ok(());
    }
    if found != wanted {
      return Raise(UncertainEffect);
    }
    var _ :- host.Unlink(name);
    r := host.Fsync();
  }

  method ClearQuarantine(host: Host, e: Entry, rolling: bool) returns (r: Outcome<()>)
    requires !host.dead && Reachable(host.tree, e.path)
    requires InFlight(host.tree, e.path, Displaced(e, rolling), Wanted(e, rolling))
    modifies host`dead, host`faults, host`tree, host`looked
    ensures host.dead <==> r.Crashed?
    ensures host.faults <= old(host.faults)
    ensures Reachable(host.tree, e.path)
    ensures OnlyAt(old(host.tree), host.tree, e.path)
    ensures forall d :: Lookup(host.tree, Temporary(e.path, d)) == Lookup(old(host.tree), Temporary(e.path, d))
    ensures InFlight(host.tree, e.path, Displaced(e, rolling), Wanted(e, rolling))
    ensures QuarantineAt(old(host.tree), e.path).None? ==>
              LeafAt(host.tree, e.path) == LeafAt(old(host.tree), e.path) && QuarantineAt(host.tree, e.path).None?
    ensures r.Ok? ==> Settled(host.tree, e.path, e.original) || Settled(host.tree, e.path, e.desired)
    ensures host.faults == old(host.faults) ==> r.Ok?
  {
    hide WellFormed;
    var displaced := Displaced(e, rolling);
    var quarantined :- host.SnapshotAt(Quarantine(e.path));
    if quarantined.None? {
      return Ok(());
    }
    if quarantined != displaced {
      return Raise(UncertainEffect);
    }
    var current :- host.SnapshotAt(Leaf(e.path));
    if current.None? {
      var restored :- RestoreQuarantined(host, e.path, quarantined.value);
      return if restored then Ok(()) else Raise(UncertainEffect);
    }
    if current != displaced && current != Wanted(e, rolling) {
      return Raise(UncertainEffect);
    }
    var _ :- host.Unlink(Quarantine(e.path));
    r := host.Fsync();
  }

  /** How resolving one path may change the tree, and where it stands when that succeeds. */
  ghost predicate EntryResolution(t: Tree, u: Tree, e: Entry, rolling: bool, ok: bool) {
    var wanted := DigestOf(Wanted(e, rolling));
    && EffectFrame(t, u, e.path, Wanted(e, rolling))
    && InFlight(u, e.path, Displaced(e, rolling), Wanted(e, rolling))
    && (QuarantineAt(t, e.path).None? ==>
         LeafAt(u, e.path) == LeafAt(t, e.path) && QuarantineAt(u, e.path).None?)
    && (TemporaryAt(u, e.path, wanted).None? || TemporaryAt(u, e.path, wanted) == TemporaryAt(t, e.path, wanted))
    && (ok ==>
         && (Settled(u, e.path, e.original) || Settled(u, e.path, e.desired))
         && TemporaryAt(u, e.path, wanted).None?
         && TemporaryUsable(t, e, rolling))
  }

  /** Finishes or undoes whatever an interrupted effect left at one path, or fails closed. */
  method ResolveArtifacts(host: Host, e: Entry, rolling: bool) returns (r: Outcome<()>)
    requires !host.dead && WellFormed(host.tree) && ValidEntry(e) && e.path !in host.tree.dirs
    requires InFlight(host.tree, e.path, Displaced(e, rolling), Wanted(e, rolling))
    modifies host`dead, host`faults, host`tree, host`looked
    ensures host.dead <==> r.Crashed?
    ensures host.faults <= old(host.faults)
    ensures WellFormed(host.tree)
    ensures EntryResolution(old(host.tree), host.tree, e, rolling, r.Ok?)
    ensures host.faults == old(host.faults) && TemporaryUsable(old(host.tree), e, rolling)
            && Unobstructed(old(host.tree), e.path)
            ==> r.Ok?
  {
    hide WellFormed, InFlight, Grown, Unobstructed;
    var walked, created, made, chain := OpenParent(host, e.path, false, []);
    if !walked.Ok? {
      NoNamesWithoutParent(host.tree, e.path);
      assert Settled(host.tree, e.path, None);
      NothingInFlight(host.tree, e, rolling);
      return if walked == Raise(FileNotFound) then Ok(()) else walked;
    }
    if !Matches(host.tree, chain) {
      return Raise(UncertainEffect);
    }
    ghost var before := host.tree;
    var cleared := ClearTemporary(host, e, rolling);
    assert InFlight(host.tree, e.path, Displaced(e, rolling), Wanted(e, rolling)) by {
      SameNamesInFlight(before, host.tree, e, rolling);
    }
    if !cleared.Ok? {
      return cleared;
    }
    var _ :- ClearQuarantine(host, e, rolling);
    if !Matches(host.tree, chain) {
      return Raise(UncertainEffect);
    }
    return Ok(());
  }

  lemma NoNamesWithoutParent(t: Tree, p: Path)
    requires WellFormed(t) && 0 < |p| && Parent(p) !in t.dirs
    ensures forall n: Name :: n.path == p ==> Lookup(t, n).None?
  {
  }

  lemma NothingInFlight(t: Tree, e: Entry, rolling: bool)
    requires InFlight(t, e.path, Displaced(e, rolling), Wanted(e, rolling)) && Settled(t, e.path, None)
    ensures Settled(t, e.path, e.original) || Settled(t, e.path, e.desired)
  {
  }

  lemma SameNamesInFlight(t: Tree, u: Tree, e: Entry, rolling: bool)
    requires InFlight(t, e.path, Displaced(e, rolling), Wanted(e, rolling))
    requires LeafAt(u, e.path) == LeafAt(t, e.path) && QuarantineAt(u, e.path) == QuarantineAt(t, e.path)
    ensures InFlight(u, e.path, Displaced(e, rolling), Wanted(e, rolling))
  {
  }
}
