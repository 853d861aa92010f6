/** Opening a path's parent chain, creating the parents a plan owns, and removing them again. */
module Directories {
  import opened Wrappers
  import opened ApplyModels
  import opened TargetTree
  import opened Hosts

  function Identity(t: Tree, d: Path): Digest
    requires d in t.dirs
  {
    OfDirectory(t.dirs[d])
  }

  /** Every listed directory exists with the listed identity. */
  predicate Matches(t: Tree, evidence: map<Path, Digest>) {
    forall d :: d in evidence ==> d in t.dirs && Identity(t, d) == evidence[d]
  }

  /** Directories were only added, and exactly those with new evidence. */
  ghost predicate Grown(t: Tree, u: Tree, evidence: map<Path, Digest>) {
    && u.files == t.files
    && u.dirs.Keys == t.dirs.Keys + evidence.Keys
    && evidence.Keys !! t.dirs.Keys
    && (forall d :: d in t.dirs ==> u.dirs[d] == t.dirs[d])
    && Matches(u, evidence)
  }

  /** The listed directories are prefixes of `p`, outermost first. */
  predicate Nested(created: seq<Path>, p: Path) {
    && (forall i :: 0 <= i < |created| ==> 0 < |created[i]| && ProperPrefix(created[i], p))
    && (forall i, j :: 0 <= i < j < |created| ==> |created[i]| < |created[j]|)
  }

  /** Opens one directory of a chain, creating it when allowed; tells whether it was created. */
  method Enter(host: Host, d: Path, create: bool, allowed: seq<Path>) returns (r: Outcome<bool>)
    requires !host.dead && WellFormed(host.tree) && 0 < |d| && Parent(d) in host.tree.dirs
    modifies host`dead, host`faults, host`tree, host`looked
    ensures host.dead <==> r.Crashed?
    ensures host.faults <= old(host.faults)
    ensures !r.Crashed? ==> host.faults == old(host.faults)
    ensures r.Raise? ==> r.error == FileNotFound || r.error == OsError
    ensures r.Raise? ==>
              d !in host.tree.dirs && !(host.faults == old(host.faults) && create && d in allowed && Leaf(d) !in host.tree.files)
    ensures WellFormed(host.tree)
    ensures r.Ok? ==> d in host.tree.dirs
    ensures r == Ok(true) ==> create && d in allowed && d !in old(host.tree).dirs
                              && host.tree == old(host.tree).(dirs := old(host.tree).dirs[d := host.tree.dirs[d]])
    ensures r != Ok(true) ==> host.tree == old(host.tree)
    ensures d in old(host.tree).dirs ==> r == Ok(false)
    ensures r == Raise(OsError) ==> Leaf(d) in host.tree.files
    ensures host.faults == old(host.faults) ==> !r.Crashed?
    ensures host.tree == old(host.tree) ==> host.looked == old(host.looked)
  {
    if d in host.tree.dirs {
      return Ok(false);
    }
    if Leaf(d) in host.tree.files {
      return Raise(OsError);
    }
    if !create || d !in allowed {
      return Raise(FileNotFound);
    }
    var _ :- host.MakeDirectory(d);
    return Ok(true);
  }

  /** Every missing parent of `p` may be created. */
  ghost predicate Creatable(t: Tree, p: Path, allowed: seq<Path>) {
    forall k :: 0 < k < |p| ==> p[..k] in t.dirs || (p[..k] in allowed && Leaf(p[..k]) !in t.files)
  }

  /** No parent of `p` is a file. */
  ghost predicate Unobstructed(t: Tree, p: Path) {
    forall k :: 0 < k < |p| ==> Leaf(p[..k]) !in t.files
  }

  /** Walks down to the parent of `p`. A missing directory is created when allowed, else it is an error. */
  method OpenParent(host: Host, p: Path, create: bool, allowed: seq<Path>)
    returns (r: Outcome<()>, created: seq<Path>, evidence: map<Path, Digest>, chain: map<Path, Digest>)
    requires !host.dead && WellFormed(host.tree) && 0 < |p|
    modifies host`dead, host`faults, host`tree, host`looked
    ensures host.dead <==> r.Crashed?
    ensures host.faults <= old(host.faults)
    ensures !r.Crashed? ==> host.faults == old(host.faults)
    ensures r.Raise? ==> r.error == FileNotFound || r.error == OsError
    ensures WellFormed(host.tree)
    ensures Grown(old(host.tree), host.tree, evidence)
    ensures Nested(created, p)
    ensures evidence.Keys == set d | d in created
    ensures forall d :: d in created ==> d in allowed
    ensures Matches(host.tree, chain)
    ensures r.Ok? ==> Parent(p) in host.tree.dirs
    ensures !create ==> host.tree == old(host.tree)
    ensures Parent(p) in old(host.tree).dirs ==> r.Ok? && host.tree == old(host.tree)
    ensures host.faults == old(host.faults) && create && Creatable(old(host.tree), p, allowed) ==> r.Ok?
    ensures Unobstructed(old(host.tree), p) ==> r != Raise(OsError)
    ensures host.faults == old(host.faults) ==> !r.Crashed?
    ensures !create ==> host.looked == old(host.looked)
  {
    hide WellFormed, Grown, Nested, Matches, Unobstructed, Creatable, Noted;
    GrownFromNothing(host.tree, p, allowed);
    RootExists(host.tree);
    created, evidence, chain := [], map[], map[[] := Identity(host.tree, [])];
    MatchesStep(host.tree, map[], []);
    var k := 0;
    assert p[..0] == [];
    while k < |p| - 1
      invariant 0 <= k <= |p| - 1
      invariant !host.dead && host.faults == old(host.faults) && WellFormed(host.tree)
      invariant p[..k] in host.tree.dirs
      invariant Grown(old(host.tree), host.tree, evidence)
      invariant Noted(p, k, allowed, created, evidence)
      invariant Matches(host.tree, chain)
      invariant !create ==> host.tree == old(host.tree) && host.looked == old(host.looked)
      invariant Parent(p) in old(host.tree).dirs ==> host.tree == old(host.tree)
    {
      var d := p[..k + 1];
      assert Parent(d) == p[..k];
      if Parent(p) in old(host.tree).dirs {
        PrefixDirs(old(host.tree), Parent(p), k + 1);
        assert Parent(p)[..k + 1] == d;
      }
      if Creatable(old(host.tree), p, allowed) {
        StillCreatable(old(host.tree), host.tree, evidence, p, allowed, k + 1);
      }
      if Unobstructed(old(host.tree), p) {
        StillUnobstructed(old(host.tree), host.tree, evidence, p, k + 1);
      }
      ghost var before := host.tree;
      var entered := Enter(host, d, create, allowed);
      if !entered.Ok? {
        NotedParts(p, k, allowed, created, evidence);
        return entered.PropagateFailure(), created, evidence, chain;
      }
      if entered.value {
        GrownStep(old(host.tree), before, host.tree, evidence, chain, d);
        NotedStep(p, k, allowed, created, evidence, Identity(host.tree, d));
        created, evidence := created + [d], evidence[d := Identity(host.tree, d)];
      } else {
        NotedLonger(p, k, allowed, created, evidence);
      }
      MatchesStep(host.tree, chain, d);
      chain := chain[d := Identity(host.tree, d)];
      k := k + 1;
    }
    NotedParts(p, k, allowed, created, evidence);
    return Ok(()), created, evidence, chain;
  }

  /** The directories made so far, among the first `k`. */
  predicate Noted(p: Path, k: nat, allowed: seq<Path>, created: seq<Path>, evidence: map<Path, Digest>) {
    && Nested(created, p)
    && evidence.Keys == (set d | d in created)
    && forall d :: d in created ==> d in allowed && |d| <= k
  }

  lemma NotedParts(p: Path, k: nat, allowed: seq<Path>, created: seq<Path>, evidence: map<Path, Digest>)
    requires Noted(p, k, allowed, created, evidence)
    ensures Nested(created, p)
    ensures evidence.Keys == set d | d in created
    ensures forall d :: d in created ==> d in allowed
  {
  }

  lemma NotedLonger(p: Path, k: nat, allowed: seq<Path>, created: seq<Path>, evidence: map<Path, Digest>)
    requires Noted(p, k, allowed, created, evidence)
    ensures Noted(p, k + 1, allowed, created, evidence)
  {
  }

  lemma NotedStep(p: Path, k: nat, allowed: seq<Path>, created: seq<Path>, evidence: map<Path, Digest>,
                  identity: Digest)
    requires Noted(p, k, allowed, created, evidence) && k + 1 < |p| && p[..k + 1] in allowed
    ensures Noted(p, k + 1, allowed, created + [p[..k + 1]], evidence[p[..k + 1] := identity])
  {
    hide Nested;
    NestedStep(created, p, k + 1);
  }

  lemma GrownFromNothing(t: Tree, p: Path, allowed: seq<Path>)
    ensures Grown(t, t, map[]) && Noted(p, 0, allowed, [], map[]) && Matches(t, map[])
  {
  }

  lemma GrownStep(t: Tree, u: Tree, v: Tree, evidence: map<Path, Digest>, chain: map<Path, Digest>, d: Path)
    requires Grown(t, u, evidence) && Matches(u, chain)
    requires d !in u.dirs && d in v.dirs && v == u.(dirs := u.dirs[d := v.dirs[d]])
    ensures Grown(t, v, evidence[d := Identity(v, d)]) && Matches(v, chain)
  {
  }

  lemma StillCreatable(t: Tree, u: Tree, evidence: map<Path, Digest>, p: Path, allowed: seq<Path>, k: nat)
    requires Grown(t, u, evidence) && Creatable(t, p, allowed) && 0 < k < |p|
    ensures p[..k] in u.dirs || (p[..k] in allowed && Leaf(p[..k]) !in u.files)
  {
  }

  lemma StillUnobstructed(t: Tree, u: Tree, evidence: map<Path, Digest>, p: Path, k: nat)
    requires Grown(t, u, evidence) && Unobstructed(t, p) && 0 < k < |p|
    ensures Leaf(p[..k]) !in u.files
  {
  }

  lemma NestedStep(created: seq<Path>, p: Path, k: nat)
    requires Nested(created, p) && 0 < k < |p| && forall d :: d in created ==> |d| < k
    ensures Nested(created + [p[..k]], p)
  {
  }

  lemma MatchesStep(t: Tree, chain: map<Path, Digest>, d: Path)
    requires Matches(t, chain) && d in t.dirs
    ensures Matches(t, chain[d := Identity(t, d)])
  {
  }

  lemma RootExists(t: Tree)
    requires WellFormed(t)
    ensures [] in t.dirs
  {
  }

  /** Nothing but listed directories stands in a listed directory. */
  ghost predicate Hollow(t: Tree, dirs: seq<Path>) {
    && (forall n: Name :: n in t.files && 0 < |n.path| ==> Parent(n.path) !in dirs)
    && (forall d :: d in t.dirs && 0 < |d| && Parent(d) in dirs ==> d in dirs)
  }

  /** Directories were only removed, and only listed ones. */
  ghost predicate Shrunk(t: Tree, u: Tree, dirs: seq<Path>) {
    && u.files == t.files
    && (forall d :: d in u.dirs ==> d in t.dirs && u.dirs[d] == t.dirs[d])
    && (forall d :: d in t.dirs && d !in dirs ==> d in u.dirs)
  }

  /** If `d` exists, its evidence is right and it is empty. */
  ghost predicate Vacated(t: Tree, d: Path, expected: Option<Digest>) {
    d in t.dirs ==>
      && expected == Some(Identity(t, d))
      && (forall n: Name :: n in t.files && 0 < |n.path| ==> Parent(n.path) != d)
      && (forall c :: c in t.dirs && 0 < |c| ==> Parent(c) != d)
  }

  /** The listed directories have their evidence and hold nothing but each other. */
  ghost predicate Removable(t: Tree, dirs: seq<Path>, evidence: map<Path, Digest>) {
    && Hollow(t, dirs)
    && forall d :: d in dirs && d in t.dirs ==> Expected(evidence, d) == Some(Identity(t, d))
  }

  /** None of the listed directories from position `i` on exists. */
  ghost predicate GoneFrom(t: Tree, dirs: seq<Path>, i: nat) {
    forall j :: i <= j < |dirs| ==> dirs[j] !in t.dirs
  }

  lemma InnermostVacated(t: Tree, u: Tree, dirs: seq<Path>, p: Path, evidence: map<Path, Digest>, i: nat)
    requires Nested(dirs, p) && Removable(t, dirs, evidence) && Shrunk(t, u, dirs)
    requires i < |dirs| && GoneFrom(u, dirs, i + 1)
    ensures Vacated(u, dirs[i], Expected(evidence, dirs[i]))
  {
  }

  lemma ShrunkStep(t: Tree, u: Tree, v: Tree, dirs: seq<Path>, i: nat)
    requires i < |dirs| && Shrunk(t, u, dirs) && Shrunk(u, v, [dirs[i]])
    ensures Shrunk(t, v, dirs)
    ensures GoneFrom(u, dirs, i + 1) && dirs[i] !in v.dirs ==> GoneFrom(v, dirs, i)
  {
  }

  /** Removes one created parent, unless it was replaced or populated; its evidence decides. */
  method RemoveOne(host: Host, d: Path, expected: Option<Digest>) returns (r: Outcome<()>)
    requires !host.dead && WellFormed(host.tree) && 0 < |d|
    modifies host`dead, host`faults, host`tree, host`looked
    ensures host.dead <==> r.Crashed?
    ensures host.faults <= old(host.faults)
    ensures !r.Crashed? ==> host.faults == old(host.faults)
    ensures !r.Raise?
    ensures WellFormed(host.tree)
    ensures Shrunk(old(host.tree), host.tree, [d])
    ensures host.faults == old(host.faults) ==> r.Ok?
    ensures r.Ok? && Vacated(old(host.tree), d, expected) ==> d !in host.tree.dirs
  {
    if expected.None? || d !in host.tree.dirs || expected.value != Identity(host.tree, d) {
      return Ok(());
    }
    var removed := host.RemoveDirectory(d);
    return if removed.Crashed? then Crashed else Ok(());
  }

  function Expected(evidence: map<Path, Digest>, d: Path): Option<Digest> {
    if d in evidence then Some(evidence[d]) else None
  }

  /** Removes the created parents, innermost first, as far as their evidence and contents allow. */
  method RemoveCreatedParents(host: Host, created: seq<Path>, ghost p: Path, evidence: map<Path, Digest>)
    returns (r: Outcome<()>)
    requires !host.dead && WellFormed(host.tree) && Nested(created, p)
    modifies host`dead, host`faults, host`tree, host`looked
    ensures host.dead <==> r.Crashed?
    ensures host.faults <= old(host.faults)
    ensures !r.Crashed? ==> host.faults == old(host.faults)
    ensures !r.Raise?
    ensures WellFormed(host.tree)
    ensures Shrunk(old(host.tree), host.tree, created)
    ensures host.faults == old(host.faults) ==> r.Ok?
    ensures r.Ok? && Removable(old(host.tree), created, evidence) ==> GoneFrom(host.tree, created, 0)
  {
    hide WellFormed, Nested, Shrunk, Removable, Vacated;
    var i := |created|;
    assert Shrunk(host.tree, host.tree, created) by {
      ShrunkToItself(host.tree, created);
    }
    while 0 < i
      invariant 0 <= i <= |created|
      invariant !host.dead && host.faults == old(host.faults) && WellFormed(host.tree)
      invariant Shrunk(old(host.tree), host.tree, created)
      invariant Removable(old(host.tree), created, evidence) ==> GoneFrom(host.tree, created, i)
    {
      i := i - 1;
      var d := created[i];
      assert 0 < |d| by {
        NestedNonEmpty(created, p, i);
      }
      if Removable(old(host.tree), created, evidence) {
        InnermostVacated(old(host.tree), host.tree, created, p, evidence, i);
      }
      ghost var before := host.tree;
      var one := RemoveOne(host, d, Expected(evidence, d));
      ShrunkStep(old(host.tree), before, host.tree, created, i);
      if !one.Ok? {
        return one;
      }
    }
    return Ok(());
  }

  lemma ShrunkToItself(t: Tree, dirs: seq<Path>)
    ensures Shrunk(t, t, dirs)
  {
  }

  lemma NestedNonEmpty(dirs: seq<Path>, p: Path, i: nat)
    requires Nested(dirs, p) && i < |dirs|
    ensures 0 < |dirs[i]|
  {
  }
}
