/** The change set of a task: the difference between the baseline manifest and the task workspace. */
module Changesets {
  import opened Wrappers
  import opened ApplyModels
  import Lexical

  /** What the manifest and the comparison keep of one file. */
  datatype Stamp = Stamp(digest: Digest, kind: Kind, executable: bool, symlinkTarget: Option<Bytes>)

  function StampOf(s: Snapshot): Stamp {
    Stamp(OfContent(s.content), s.kind, s.executable, if s.kind.Symlink? then Some(s.content) else None)
  }

  datatype Operation = Add | Modify | Delete

  datatype Scope = Target | Unrelated

  datatype FileChange = FileChange(
    path: Path,
    operation: Operation,
    scope: Scope,
    baseline: Option<Stamp>,
    current: Option<Stamp>)

  predicate ValidChange(c: FileChange) {
    match c.operation
    case Add => c.baseline.None? && c.current.Some?
    case Delete => c.baseline.Some? && c.current.None?
    case Modify => c.baseline.Some? && c.current.Some?
  }

  function At(m: map<Path, Stamp>, p: Path): Option<Stamp> {
    if p in m then Some(m[p]) else None
  }

  // ---- canonical paths ----

  /** Segments are not empty and hold no separator. */
  predicate ValidPath(p: Path) {
    && 0 < |p|
    && forall i :: 0 <= i < |p| ==> p[i] != "" && '/' !in p[i]
  }

  function Canonical(p: Path): string {
    if p == [] then ""
    else if |p| == 1 then p[0]
    else p[0] + "/" + Canonical(p[1..])
  }

  function Codes(s: string): seq<nat> {
    seq(|s|, i requires 0 <= i < |s| => s[i] as int)
  }

  lemma {:induction false} SplitAtSlash(a: string, b: string, x: string, y: string)
    requires '/' !in a && '/' !in b
    requires a + "/" + x == b + "/" + y
    ensures a == b && x == y
  {
    var s, t := a + "/" + x, b + "/" + y;
    assert s[|a|] == '/' && t[|b|] == '/';
    assert forall i :: 0 <= i < |a| ==> s[i] == a[i];
    assert forall i :: 0 <= i < |b| ==> t[i] == b[i];
    assert |a| == |b|;
    assert a == s[..|a|] && b == t[..|b|];
    assert x == s[|a| + 1..] && y == t[|b| + 1..];
  }

  lemma SlashIffNested(p: Path)
    requires ValidPath(p)
    ensures '/' in Canonical(p) <==> |p| > 1
  {
    if |p| > 1 {
      assert Canonical(p)[|p[0]|] == '/';
    }
  }

  /** A path is known by its canonical text. */
  lemma {:induction false} CanonicalInjective(p: Path, q: Path)
    requires ValidPath(p) && ValidPath(q) && Canonical(p) == Canonical(q)
    ensures p == q
  {
    SlashIffNested(p);
    SlashIffNested(q);
    if |p| > 1 {
      SplitAtSlash(p[0], q[0], Canonical(p[1..]), Canonical(q[1..]));
      CanonicalInjective(p[1..], q[1..]);
      assert p == [p[0]] + p[1..] && q == [q[0]] + q[1..];
    }
  }

  /** The order of change sets and plans: canonical texts by code point. */
  predicate Before(p: Path, q: Path) {
    Lexical.Less(Codes(Canonical(p)), Codes(Canonical(q)))
  }

  lemma CodesInjective(s: string, t: string)
    requires Codes(s) == Codes(t)
    ensures s == t
  {
    forall i | 0 <= i < |s| ensures s[i] == t[i] {
      assert Codes(s)[i] == s[i] as int && Codes(t)[i] == t[i] as int;
    }
  }

  lemma BeforeTotal(p: Path, q: Path)
    requires ValidPath(p) && ValidPath(q)
    ensures p == q || Before(p, q) || Before(q, p)
  {
    Lexical.Total(Codes(Canonical(p)), Codes(Canonical(q)));
    if Codes(Canonical(p)) == Codes(Canonical(q)) {
      CodesInjective(Canonical(p), Canonical(q));
      CanonicalInjective(p, q);
    }
  }

  lemma BeforeStrict(p: Path, q: Path)
    requires Before(p, q)
    ensures p != q && !Before(q, p)
  {
    Lexical.Irreflexive(Codes(Canonical(p)));
    if Before(q, p) {
      Lexical.Transitive(Codes(Canonical(p)), Codes(Canonical(q)), Codes(Canonical(p)));
    }
  }

  predicate ValidPaths(s: set<Path>) {
    forall p :: p in s ==> ValidPath(p)
  }

  lemma {:induction false} FirstExists(s: set<Path>) returns (p: Path)
    requires s != {} && ValidPaths(s)
    ensures p in s && forall q :: q in s && q != p ==> Before(p, q)
  {
    var x :| x in s;
    if s == {x} {
      p := x;
    } else {
      var y := FirstExists(s - {x});
      BeforeTotal(x, y);
      p := if Before(x, y) then x else y;
      forall q | q in s && q != p ensures Before(p, q) {
        if Before(x, y) && q != y {
          assert q in s - {x};
          Lexical.Transitive(Codes(Canonical(x)), Codes(Canonical(y)), Codes(Canonical(q)));
        }
      }
    }
  }

  predicate Ordered(changes: seq<FileChange>) {
    forall i, j :: 0 <= i < j < |changes| ==> Before(changes[i].path, changes[j].path)
  }

  // ---- the change set as a relation ----

  function ScopeOf(p: Path, targets: Option<set<Path>>): Scope {
    if targets.None? || p in targets.value then Target else Unrelated
  }

  /** `c` tells truly how `c.path` differs between the two. */
  predicate Tells(c: FileChange, baseline: map<Path, Stamp>, current: map<Path, Stamp>, targets: Option<set<Path>>) {
    && ValidChange(c)
    && c.baseline == At(baseline, c.path)
    && c.current == At(current, c.path)
    && c.baseline != c.current
    && c.scope == ScopeOf(c.path, targets)
  }

  predicate Mentions(changes: seq<FileChange>, p: Path) {
    exists i :: 0 <= i < |changes| && changes[i].path == p
  }

  /** The changes are the difference from `baseline` to `current`, in canonical order. */
  ghost predicate IsDiff(changes: seq<FileChange>, baseline: map<Path, Stamp>, current: map<Path, Stamp>,
                         targets: Option<set<Path>>) {
    && Ordered(changes)
    && (forall i :: 0 <= i < |changes| ==> Tells(changes[i], baseline, current, targets))
    && (forall p :: At(baseline, p) != At(current, p) ==> Mentions(changes, p))
  }

  /** The difference up to the paths still to be compared. */
  ghost predicate DiffSoFar(changes: seq<FileChange>, rest: set<Path>, baseline: map<Path, Stamp>,
                            current: map<Path, Stamp>,
                            targets: Option<set<Path>>)
  {
    && Ordered(changes)
    && (forall i :: 0 <= i < |changes| ==> Tells(changes[i], baseline, current, targets))
    && (forall i, p :: 0 <= i < |changes| && p in rest ==> Before(changes[i].path, p))
    && (forall p :: At(baseline, p) != At(current, p) ==> p in rest || Mentions(changes, p))
  }

  lemma DiffStep(changes: seq<FileChange>, rest: set<Path>, c: FileChange, baseline: map<Path, Stamp>,
                 current: map<Path, Stamp>,
                 targets: Option<set<Path>>)
    requires DiffSoFar(changes, rest, baseline, current, targets)
    requires c.path in rest && (forall q :: q in rest && q != c.path ==> Before(c.path, q))
    requires Tells(c, baseline, current, targets)
    ensures DiffSoFar(changes + [c], rest - {c.path}, baseline, current, targets)
  {
    hide Before, Tells;
    var longer := changes + [c];
    assert longer[|changes|] == c;
    forall p | At(baseline, p) != At(current, p) ensures p in rest - {c.path} || Mentions(longer, p) {
      if p != c.path && p !in rest {
        var i :| 0 <= i < |changes| && changes[i].path == p;
        assert longer[i].path == p;
      }
    }
  }

  /** Compares baseline and workspace path by path in canonical order. */
  method ComputeChangeset(baseline: map<Path, Stamp>, current: map<Path, Stamp>, targets: Option<set<Path>>)
    returns (changes: seq<FileChange>)
    requires ValidPaths(baseline.Keys) && ValidPaths(current.Keys)
    ensures IsDiff(changes, baseline, current, targets)
  {
    changes := [];
    var rest := baseline.Keys + current.Keys;
    while rest != {}
      invariant rest <= baseline.Keys + current.Keys
      invariant DiffSoFar(changes, rest, baseline, current, targets)
    {
      var p := NextPath(rest);
      var before, after := At(baseline, p), At(current, p);
      if before != after {
        var operation := if before.None? then Add else if after.None? then Delete else Modify;
        var change := FileChange(p, operation, ScopeOf(p, targets), before, after);
        DiffStep(changes, rest, change, baseline, current, targets);
        changes := changes + [change];
      }
      rest := rest - {p};
    }
  }

  method NextPath(rest: set<Path>) returns (p: Path)
    requires rest != {} && ValidPaths(rest)
    ensures p in rest && forall q :: q in rest && q != p ==> Before(p, q)
  {
    var least := FirstExists(rest);
    p :| p in rest && forall q :: q in rest && q != p ==> Before(p, q);
  }

  // ---- what a change set means ----

  function Put(m: map<Path, Stamp>, p: Path, s: Option<Stamp>): map<Path, Stamp> {
    if s.Some? then m[p := s.value] else m - {p}
  }

  /** Carries out the changes. */
  function Patch(m: map<Path, Stamp>, changes: seq<FileChange>): map<Path, Stamp> {
    if changes == [] then m
    else
      var last := changes[|changes| - 1];
      Put(Patch(m, changes[..|changes| - 1]), last.path, last.current)
  }

  /** The changes that lead back. */
  function Inverse(changes: seq<FileChange>): seq<FileChange> {
    seq(|changes|, i requires 0 <= i < |changes| =>
      var c := changes[i];
      FileChange(c.path, if c.operation.Add? then Delete else if c.operation.Delete? then Add else Modify,
        c.scope, c.current, c.baseline))
  }

  lemma {:induction false} PatchAt(m: map<Path, Stamp>, changes: seq<FileChange>, p: Path)
    requires Ordered(changes)
    ensures !Mentions(changes, p) ==> At(Patch(m, changes), p) == At(m, p)
    ensures forall i :: 0 <= i < |changes| && changes[i].path == p ==> At(Patch(m, changes), p) == changes[i].current
  {
    if changes != [] {
      var n := |changes| - 1;
      var init := changes[..n];
      PatchAt(m, init, p);
      forall i | 0 <= i < n && changes[i].path == p
        ensures At(Patch(m, changes), p) == changes[i].current
      {
        BeforeStrict(changes[i].path, changes[n].path);
        assert init[i] == changes[i];
      }
      if !Mentions(changes, p) {
        assert changes[n].path != p;
        assert !Mentions(init, p);
      }
    }
  }

  /** The change set is empty exactly when baseline and workspace agree. */
  lemma EmptyIffEqual(changes: seq<FileChange>, baseline: map<Path, Stamp>, current: map<Path, Stamp>,
                      targets: Option<set<Path>>)
    requires IsDiff(changes, baseline, current, targets)
    ensures changes == [] <==> baseline == current
  {
    if changes == [] {
      forall p ensures At(baseline, p) == At(current, p) {
        assert !Mentions(changes, p);
      }
      SameMaps(baseline, current);
    } else {
      assert Tells(changes[0], baseline, current, targets);
    }
  }

  lemma SameMaps(m: map<Path, Stamp>, n: map<Path, Stamp>)
    requires forall p :: At(m, p) == At(n, p)
    ensures m == n
  {
    forall p ensures p in m <==> p in n {
      assert At(m, p) == At(n, p);
    }
    forall p | p in m ensures m[p] == n[p] {
      assert At(m, p) == At(n, p);
    }
  }

  /** Patching the baseline gives the workspace. */
  lemma PatchIsCurrent(changes: seq<FileChange>, baseline: map<Path, Stamp>, current: map<Path, Stamp>,
                       targets: Option<set<Path>>)
    requires IsDiff(changes, baseline, current, targets)
    ensures Patch(baseline, changes) == current
  {
    forall p ensures At(Patch(baseline, changes), p) == At(current, p) {
      PatchAt(baseline, changes, p);
      if Mentions(changes, p) {
        var i :| 0 <= i < |changes| && changes[i].path == p;
        assert Tells(changes[i], baseline, current, targets);
      }
    }
    SameMaps(Patch(baseline, changes), current);
  }

  lemma InverseIsDiff(changes: seq<FileChange>, baseline: map<Path, Stamp>, current: map<Path, Stamp>,
                      targets: Option<set<Path>>)
    requires IsDiff(changes, baseline, current, targets)
    ensures IsDiff(Inverse(changes), current, baseline, targets)
  {
    var back := Inverse(changes);
    forall i | 0 <= i < |back| ensures Tells(back[i], current, baseline, targets) {
      assert Tells(changes[i], baseline, current, targets);
    }
    forall p | At(current, p) != At(baseline, p) ensures Mentions(back, p) {
      assert Mentions(changes, p);
      var i :| 0 <= i < |changes| && changes[i].path == p;
      assert back[i].path == p;
    }
  }

  /** Patching the workspace with the inverse gives the baseline back. */
  lemma InverseUndoes(changes: seq<FileChange>, baseline: map<Path, Stamp>, current: map<Path, Stamp>,
                      targets: Option<set<Path>>)
    requires IsDiff(changes, baseline, current, targets)
    ensures Patch(Patch(baseline, changes), Inverse(changes)) == baseline
  {
    PatchIsCurrent(changes, baseline, current, targets);
    InverseIsDiff(changes, baseline, current, targets);
    PatchIsCurrent(Inverse(changes), current, baseline, targets);
  }

  /** Two maps have only one change set, so its digest identifies the difference. */
  lemma {:induction false} DiffUnique(a: seq<FileChange>, b: seq<FileChange>, baseline: map<Path, Stamp>,
                                      current: map<Path, Stamp>,
                                      targets: Option<set<Path>>)
    requires IsDiff(a, baseline, current, targets) && IsDiff(b, baseline, current, targets)
    ensures a == b
  {
    SamePathsSameOrder(a, b, 0);
    SamePathsSameOrder(b, a, 0);
    forall i | 0 <= i < |a| ensures a[i] == b[i] {
      assert Tells(a[i], baseline, current, targets) && Tells(b[i], baseline, current, targets);
    }
  }

  lemma OrderedStrict(s: seq<FileChange>)
    requires Ordered(s)
    ensures forall i, j :: 0 <= i < j < |s| ==> s[i].path != s[j].path && !Before(s[j].path, s[i].path)
  {
    forall i, j | 0 <= i < j < |s| ensures s[i].path != s[j].path && !Before(s[j].path, s[i].path) {
      BeforeStrict(s[i].path, s[j].path);
    }
  }

  /** Ordered lists that mention the same paths mention them at the same places. */
  lemma {:induction false} SamePathsSameOrder(a: seq<FileChange>, b: seq<FileChange>, k: nat)
    requires Ordered(a) && Ordered(b) && k <= |a|
    requires forall p :: Mentions(a, p) <==> Mentions(b, p)
    requires k <= |b| && forall i :: 0 <= i < k ==> a[i].path == b[i].path
    ensures |a| <= |b| && forall i :: 0 <= i < |a| ==> a[i].path == b[i].path
    decreases |a| - k
  {
    hide Before;
    if k < |a| {
      OrderedStrict(a);
      OrderedStrict(b);
      assert Mentions(b, a[k].path);
      var j :| 0 <= j < |b| && b[j].path == a[k].path;
      assert k <= j;
      assert Mentions(a, b[k].path);
      var i :| 0 <= i < |a| && a[i].path == b[k].path;
      assert a[k].path == b[k].path;
      SamePathsSameOrder(a, b, k + 1);
    }
  }
}
