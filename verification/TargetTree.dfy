/** The target repository as a value: files by name, directories by path with their identities. */
module TargetTree {
  import opened Wrappers
  import opened ApplyModels

  /** The names a transaction uses for one path. All three live in the path's parent directory. */
  datatype Name =
    | Leaf(path: Path)
    | Quarantine(path: Path)
    | Temporary(path: Path, digest: Digest)

  datatype Tree = Tree(files: map<Name, Snapshot>, dirs: map<Path, nat>)

  function Parent(p: Path): Path
    requires 0 < |p|
  {
    p[..|p| - 1]
  }

  function Lookup(t: Tree, n: Name): Option<Snapshot> {
    if n in t.files then Some(t.files[n]) else None
  }

  function LeafAt(t: Tree, p: Path): Option<Snapshot> {
    Lookup(t, Leaf(p))
  }

  function QuarantineAt(t: Tree, p: Path): Option<Snapshot> {
    Lookup(t, Quarantine(p))
  }

  function TemporaryAt(t: Tree, p: Path, d: Option<Digest>): Option<Snapshot> {
    if d.Some? then Lookup(t, Temporary(p, d.value)) else None
  }

  /** Every file and directory stands in an existing directory, and no name is both. */
  ghost predicate WellFormed(t: Tree) {
    && [] in t.dirs
    && (forall n :: n in t.files ==> 0 < |n.path| && Parent(n.path) in t.dirs)
    && (forall d :: d in t.dirs && d != [] ==> Parent(d) in t.dirs)
    && (forall d :: d in t.dirs ==> Leaf(d) !in t.files)
  }

  /** Only names of `p` may differ. */
  ghost predicate SameFilesBut(t: Tree, u: Tree, p: Path) {
    forall n: Name :: n.path != p ==> Lookup(u, n) == Lookup(t, n)
  }

  ghost predicate OnlyAt(t: Tree, u: Tree, p: Path) {
    u.dirs == t.dirs && SameFilesBut(t, u, p)
  }

  /** The effect from `x` to `y` at `p` is under way, finished, or undone. */
  predicate InFlight(t: Tree, p: Path, x: Option<Snapshot>, y: Option<Snapshot>) {
    && (QuarantineAt(t, p).None? || QuarantineAt(t, p) == x)
    && (|| LeafAt(t, p) == x
        || LeafAt(t, p) == y
        || (LeafAt(t, p).None? && QuarantineAt(t, p) == x))
  }

  /** The path shows `x` and no quarantine is left. */
  predicate Settled(t: Tree, p: Path, x: Option<Snapshot>) {
    LeafAt(t, p) == x && QuarantineAt(t, p).None?
  }

  lemma {:induction false} PrefixDirs(t: Tree, p: Path, k: nat)
    requires WellFormed(t) && p in t.dirs && k <= |p|
    ensures p[..k] in t.dirs
  {
    if k < |p| {
      PrefixDirs(t, Parent(p), k);
      assert Parent(p)[..k] == p[..k];
    } else {
      assert p[..k] == p;
    }
  }
}
