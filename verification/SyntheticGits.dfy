/** The synthetic Git of a task: an immutable anchor, a mutable index, and the task's worktree. */
module SyntheticGits {
  import opened Wrappers

  datatype Content = Content(bytes: seq<bv8>, executable: bool)

  type Files = map<string, Content>

  /** What reading one worktree path gives; a path that is not there has no entry. */
  datatype Seen = File(content: Content) | Directory | Special | Unreadable

  datatype Disposition = Accepted(paths: set<string>) | Rejected | InternalFailure

  const MAX_EXPLICIT_PATHS := 10000

  function At(m: Files, p: string): Option<Content> {
    if p in m then Some(m[p]) else None
  }

  /** The paths at which two states differ. */
  function Changed(before: Files, after: Files): set<string> {
    set p | p in before.Keys + after.Keys && At(before, p) != At(after, p)
  }

  lemma ChangedAt(before: Files, after: Files)
    ensures forall p :: p in Changed(before, after) <==> At(before, p) != At(after, p)
  {
  }

  lemma ChangedEmpty(before: Files, after: Files)
    ensures Changed(before, after) == {} <==> before == after
  {
    ChangedAt(before, after);
    if Changed(before, after) == {} {
      forall p ensures p in before <==> p in after {
        assert At(before, p) == At(after, p);
      }
      forall p | p in before ensures before[p] == after[p] {
        assert At(before, p) == At(after, p);
      }
    }
  }

  /** The regular files of a worktree. */
  function FilesOf(worktree: map<string, Seen>): Files {
    map p | p in worktree && worktree[p].File? :: worktree[p].content
  }

  predicate Readable(worktree: map<string, Seen>, p: string) {
    p in worktree ==> worktree[p].File?
  }

  /** Reading the path fails for a reason of the machine, not of what is there. */
  predicate Broken(worktree: map<string, Seen>, p: string) {
    p in worktree && worktree[p].Unreadable?
  }

  class SyntheticGit {
    const anchor: Files
    var index: Files
    var worktree: map<string, Seen>
    /** The worktree can be scanned: it has no `.git` and not too many entries. */
    var scannable: bool

    constructor (anchor: Files, worktree: map<string, Seen>, scannable: bool)
      ensures this.anchor == anchor && index == anchor && this.worktree == worktree && this.scannable == scannable
    {
      this.anchor := anchor;
      index := anchor;
      this.worktree := worktree;
      this.scannable := scannable;
    }

    // ---- reading ----

    /** Reads one path; None for a missing one. */
    method Read(p: string) returns (d: Disposition, found: Option<Content>)
      ensures d.Accepted? <==> Readable(worktree, p)
      ensures d.InternalFailure? <==> Broken(worktree, p)
      ensures d.Accepted? ==> found == At(FilesOf(worktree), p)
    {
      found := None;
      if p !in worktree {
        return Accepted({}), found;
      }
      match worktree[p]
      case File(c) => return Accepted({}), Some(c);
      case Unreadable => return InternalFailure, found;
      case Directory => return Rejected, found;
      case Special => return Rejected, found;
    }

    method Snapshots(paths: set<string>) returns (d: Disposition, found: Files)
      ensures d.Accepted? <==> forall p :: p in paths ==> Readable(worktree, p)
      ensures d.InternalFailure? ==> exists p :: p in paths && Broken(worktree, p)
      ensures d.Rejected? ==> exists p :: p in paths && !Readable(worktree, p) && !Broken(worktree, p)
      ensures d.Accepted? ==> forall p :: At(found, p) == if p in paths then At(FilesOf(worktree), p) else None
    {
      found := map[];
      var rest := paths;
      while rest != {}
        invariant rest <= paths
        invariant forall p :: p in paths - rest ==> Readable(worktree, p)
        invariant forall p :: At(found, p) == if p in paths - rest then At(FilesOf(worktree), p) else None
      {
        var p :| p in rest;
        rest := rest - {p};
        assert At(found, p).None?;
        var content;
        d, content := Read(p);
        if !d.Accepted? {
          return;
        }
        ghost var before := found;
        if content.Some? {
          found := found[p := content.value];
        }
        forall q ensures At(found, q) == if q in paths - rest then At(FilesOf(worktree), q) else None {
          assert q != p ==> At(found, q) == At(before, q);
        }
      }
      d := Accepted({});
    }

    /** The paths at which two states differ, found path by path. */
    static method Between(before: Files, after: Files) returns (changed: set<string>)
      ensures changed == Changed(before, after)
    {
      changed := {};
      var rest := before.Keys + after.Keys;
      while rest != {}
        invariant rest <= before.Keys + after.Keys
        invariant changed == set p | p in before.Keys + after.Keys - rest && At(before, p) != At(after, p)
      {
        var p :| p in rest;
        rest := rest - {p};
        if At(before, p) != At(after, p) {
          changed := changed + {p};
        }
      }
    }

    // ---- the three reports ----

    /** The scan finds everything but directories. */
    function Scanned(): set<string>
      reads this
    {
      set p | p in worktree && !worktree[p].Directory?
    }

    /** The worktree can be scanned, and everything found or tracked can be read. */
    predicate StatusReadable()
      reads this
    {
      scannable && forall p :: p in index.Keys + Scanned() ==> Readable(worktree, p)
    }

    method Status() returns (d: Disposition)
      ensures d.Accepted? ==> d.paths == Changed(anchor, index) + Changed(index, FilesOf(worktree))
      ensures d.Accepted? <==> StatusReadable()
      ensures d.InternalFailure? ==> exists p :: p in worktree && Broken(worktree, p)
      ensures d.Rejected? ==>
                !scannable || exists p :: p in index.Keys + Scanned() && !Readable(worktree, p) && !Broken(worktree, p)
    {
      var cached := Between(anchor, index);
      if !scannable {
        return Rejected;
      }
      var found;
      d, found := Snapshots(index.Keys + Scanned());
      if !d.Accepted? {
        return;
      }
      forall p ensures At(found, p) == At(FilesOf(worktree), p) {
      }
      SameFiles(found, FilesOf(worktree));
      var unstaged := Between(index, found);
      return Accepted(cached + unstaged);
    }

    /** Unstaged changes of tracked paths. */
    method Diff() returns (d: Disposition)
      ensures d.Accepted? ==> d.paths == set p | p in index && At(index, p) != At(FilesOf(worktree), p)
      ensures d.Accepted? <==> forall p :: p in index ==> Readable(worktree, p)
      ensures d.InternalFailure? ==> exists p :: p in index && Broken(worktree, p)
    {
      var found;
      d, found := Snapshots(index.Keys);
      if !d.Accepted? {
        return;
      }
      forall p | p in found ensures p in index {
        assert At(found, p).Some?;
      }
      var changed := Between(index, found);
      return Accepted(changed);
    }

    method CachedDiff() returns (d: Disposition)
      ensures d == Accepted(Changed(anchor, index))
    {
      var changed := Between(anchor, index);
      return Accepted(changed);
    }

    // ---- the two changes ----

    predicate Known(p: string)
      reads this
    {
      p in anchor || p in index
    }

    predicate Stageable(paths: seq<string>)
      reads this
    {
      forall i :: 0 <= i < |paths| ==> Readable(worktree, paths[i]) && (paths[i] in worktree || Known(paths[i]))
    }

    /** Puts the worktree's state of the paths into the index, all of them or none. */
    method Stage(paths: seq<string>) returns (d: Disposition)
      modifies this`index
      ensures d.Accepted? <==> old(Stageable(paths))
      ensures d.InternalFailure? ==> exists p :: p in paths && Broken(worktree, p)
      ensures d.Accepted? ==> d.paths == set p | p in paths
      ensures d.Accepted? ==>
                forall p :: At(index, p) == if p in paths then At(FilesOf(worktree), p) else At(old(index), p)
      ensures !d.Accepted? ==> index == old(index)
    {
      var staged: map<string, Option<Content>> := map[];
      for i := 0 to |paths|
        invariant index == old(index)
        invariant forall j :: 0 <= j < i ==> Readable(worktree, paths[j]) && (paths[j] in worktree || Known(paths[j]))
        invariant staged.Keys == set p | p in paths[..i]
        invariant forall p :: p in staged ==> staged[p] == At(FilesOf(worktree), p)
      {
        var read;
        d, read := Read(paths[i]);
        if !d.Accepted? {
          return;
        }
        if read.None? && !Known(paths[i]) {
          return Rejected;
        }
        assert paths[..i + 1] == paths[..i] + [paths[i]];
        staged := staged[paths[i] := read];
      }
      assert paths[..|paths|] == paths;
      var rest := staged.Keys;
      while rest != {}
        invariant rest <= staged.Keys
        invariant forall p :: At(index, p) == if p in staged.Keys - rest then staged[p] else At(old(index), p)
      {
        var p :| p in rest;
        rest := rest - {p};
        index := if staged[p].Some? then index[p := staged[p].value] else index - {p};
      }
      return Accepted(staged.Keys);
    }

    /** Puts the anchor's state of the paths back into the index, all of them or none. */
    method Unstage(paths: seq<string>) returns (d: Disposition)
      modifies this`index
      ensures d.Accepted? <==> forall i :: 0 <= i < |paths| ==> old(Known(paths[i]))
      ensures !d.InternalFailure?
      ensures d.Accepted? ==> d.paths == set p | p in paths
      ensures d.Accepted? ==>
                forall p :: At(index, p) == if p in paths then At(anchor, p) else At(old(index), p)
      ensures !d.Accepted? ==> index == old(index)
    {
      if exists i :: 0 <= i < |paths| && !Known(paths[i]) {
        return Rejected;
      }
      for i := 0 to |paths|
        invariant forall p :: At(index, p) == if p in paths[..i] then At(anchor, p) else At(old(index), p)
      {
        var p := paths[i];
        assert paths[..i + 1] == paths[..i] + [p];
        index := if p in anchor then index[p := anchor[p]] else index - {p};
      }
      assert paths[..|paths|] == paths;
      return Accepted(set p | p in paths);
    }
  }

  lemma SameFiles(a: Files, b: Files)
    requires forall p :: At(a, p) == At(b, p)
    ensures a == b
  {
    forall p ensures p in a <==> p in b {
      assert At(a, p) == At(b, p);
    }
    forall p | p in a ensures a[p] == b[p] {
      assert At(a, p) == At(b, p);
    }
  }

  // ---- requests ----

  datatype Operation = StatusOp | DiffOp | CachedDiffOp | StageOp | UnstageOp

  /** `parsable` is the syntax of repository paths. */
  predicate ExplicitPaths(paths: seq<string>, parsable: string -> bool) {
    && 0 < |paths| <= MAX_EXPLICIT_PATHS
    && (forall i :: 0 <= i < |paths| ==> parsable(paths[i]))
    && (forall i, j :: 0 <= i < j < |paths| ==> paths[i] != paths[j])
  }

  /** One request. Whatever is not accepted leaves the index as it was, and no request touches the worktree. */
  method Run(git: SyntheticGit, op: Operation, paths: seq<string>, rootCurrent: bool, parsable: string -> bool)
    returns (d: Disposition)
    modifies git`index
    ensures !d.Accepted? ==> git.index == old(git.index)
    ensures !(op.StageOp? || op.UnstageOp?) ==> git.index == old(git.index)
    ensures op.StageOp? || op.UnstageOp? ==>
              forall p :: p !in paths ==> At(git.index, p) == At(old(git.index), p)
    ensures d.Accepted? && op.StageOp? ==>
              forall p :: p in paths ==> At(git.index, p) == At(FilesOf(git.worktree), p)
    ensures d.Accepted? && op.UnstageOp? ==> forall p :: p in paths ==> At(git.index, p) == At(git.anchor, p)
    ensures op.StageOp? ==>
              (d.Accepted? <==> rootCurrent && ExplicitPaths(paths, parsable) && old(git.Stageable(paths)))
    ensures op.UnstageOp? ==>
              (d.Accepted? <==> rootCurrent && ExplicitPaths(paths, parsable)
                                && forall i :: 0 <= i < |paths| ==> old(git.Known(paths[i])))
    ensures op.StatusOp? ==> (d.Accepted? <==> rootCurrent && paths == [] && git.StatusReadable())
    ensures op.DiffOp? ==>
              (d.Accepted? <==> rootCurrent && paths == [] && forall p :: p in git.index ==> Readable(git.worktree, p))
    ensures op.CachedDiffOp? ==> (d.Accepted? <==> rootCurrent && paths == [])
    ensures (op.StageOp? || op.UnstageOp?) && d.Accepted? ==> d.paths == set p | p in paths
    ensures d.InternalFailure? ==>
              rootCurrent && !op.CachedDiffOp? && !op.UnstageOp?
              && exists p :: p in git.worktree && Broken(git.worktree, p)
    ensures op.StatusOp? && d.Accepted? ==>
              d.paths == Changed(git.anchor, git.index) + Changed(git.index, FilesOf(git.worktree))
    ensures op.CachedDiffOp? && d.Accepted? ==> d.paths == Changed(git.anchor, git.index)
    ensures op.DiffOp? && d.Accepted? ==>
              d.paths == set p | p in git.index && At(git.index, p) != At(FilesOf(git.worktree), p)
  {
    if !rootCurrent {
      return Rejected;
    }
    match op
    case StatusOp =>
      if paths != [] {
        return Rejected;
      }
      d := git.Status();
    case DiffOp =>
      if paths != [] {
        return Rejected;
      }
      d := git.Diff();
    case CachedDiffOp =>
      if paths != [] {
        return Rejected;
      }
      d := git.CachedDiff();
    case StageOp =>
      if !ExplicitPaths(paths, parsable) {
        return Rejected;
      }
      d := git.Stage(paths);
    case UnstageOp =>
      if !ExplicitPaths(paths, parsable) {
        return Rejected;
      }
      d := git.Unstage(paths);
  }

  // ---- laws ----

  /** The index after staging, or unstaging, a set of paths. */
  ghost predicate Overridden(before: Files, after: Files, source: Files, paths: set<string>) {
    forall p :: At(after, p) == if p in paths then At(source, p) else At(before, p)
  }

  /** Nothing to report means that anchor, index and worktree are the same. */
  lemma CleanStatus(anchor: Files, index: Files, files: Files)
    ensures Changed(anchor, index) + Changed(index, files) == {} <==> anchor == index == files
  {
    ChangedEmpty(anchor, index);
    ChangedEmpty(index, files);
  }

  /** Staged paths leave the unstaged changes, and no other path enters or leaves them. */
  lemma StagedLeaveDiff(index: Files, staged: Files, files: Files, paths: set<string>)
    requires Overridden(index, staged, files, paths)
    ensures Changed(staged, files) == Changed(index, files) - paths
  {
    forall p ensures p in Changed(staged, files) <==> p in Changed(index, files) && p !in paths {
      assert At(staged, p) == if p in paths then At(files, p) else At(index, p);
    }
  }

  /** Unstaging the paths of the cached diff restores the anchor. */
  lemma UnstageRestores(anchor: Files, index: Files, after: Files)
    requires Overridden(index, after, anchor, Changed(anchor, index))
    ensures after == anchor
    ensures forall p :: p in Changed(anchor, index) ==> p in anchor || p in index
  {
    hide Changed;
    ChangedAt(anchor, index);
    forall p ensures At(after, p) == At(anchor, p) {
      assert At(after, p) == if p in Changed(anchor, index) then At(anchor, p) else At(index, p);
    }
    SameFiles(after, anchor);
  }

  /** Staging everything that status reports makes the index equal to the worktree. */
  lemma StageAll(anchor: Files, index: Files, files: Files, after: Files)
    requires Overridden(index, after, files, Changed(anchor, index) + Changed(index, files))
    ensures after == files && Changed(anchor, after) == Changed(anchor, files)
  {
    hide Changed;
    ChangedAt(index, files);
    forall p ensures At(after, p) == At(files, p) {
      assert p !in Changed(index, files) ==> At(index, p) == At(files, p);
    }
    SameFiles(after, files);
  }

  /** Staging and then unstaging the same paths leaves the anchor's state there and the rest alone. */
  lemma UnstageUndoesStage(anchor: Files, index: Files, staged: Files, after: Files, files: Files, paths: set<string>)
    requires Overridden(index, staged, files, paths) && Overridden(staged, after, anchor, paths)
    ensures Overridden(index, after, anchor, paths)
    ensures (forall p :: p in paths ==> At(index, p) == At(anchor, p)) ==> after == index
  {
    forall p ensures At(after, p) == if p in paths then At(anchor, p) else At(index, p) {
      assert At(staged, p) == if p in paths then At(files, p) else At(index, p);
    }
    if forall p :: p in paths ==> At(index, p) == At(anchor, p) {
      SameFiles(after, index);
    }
  }

  // ---- whole sessions ----

  /** Every index entry is the anchor's or one the worktree had at some time. */
  ghost predicate FromSomewhere(index: Files, anchor: Files, past: seq<Files>) {
    forall p :: p in index ==>
      At(index, p) == At(anchor, p) || exists i :: 0 <= i < |past| && At(past[i], p) == At(index, p)
  }

  datatype Step = Request(op: Operation, paths: seq<string>, rootCurrent: bool) | Edit(worktree: map<string, Seen>, scannable: bool)

  /** The states a worktree has had: the first one and those the first `k` steps put there. */
  ghost predicate PastStates(past: seq<Files>, first: map<string, Seen>, steps: seq<Step>, k: nat)
    requires k <= |steps|
  {
    forall i :: 0 <= i < |past| ==>
      past[i] == FilesOf(first) || exists j :: 0 <= j < k && steps[j].Edit? && past[i] == FilesOf(steps[j].worktree)
  }

  method RequestKeeps(git: SyntheticGit, step: Step, parsable: string -> bool)
    requires step.Request?
    modifies git`index
    ensures forall p :: At(git.index, p) == At(old(git.index), p) || At(git.index, p) == At(git.anchor, p)
                        || At(git.index, p) == At(FilesOf(git.worktree), p)
  {
    hide FilesOf, Changed;
    var d := Run(git, step.op, step.paths, step.rootCurrent, parsable);
  }

  /** Any sequence of requests and edits of the worktree by others: the index never holds anything
      that neither the anchor nor some state of the worktree held. */
  method Session(git: SyntheticGit, steps: seq<Step>, parsable: string -> bool) returns (ghost past: seq<Files>)
    requires git.index == git.anchor
    modifies git
    ensures FromSomewhere(git.index, git.anchor, past)
    ensures PastStates(past, old(git.worktree), steps, |steps|)
  {
    hide FromSomewhere, PastStates, FilesOf;
    past := [FilesOf(git.worktree)];
    SessionStarts(git.index, git.worktree, steps);
    for k := 0 to |steps|
      invariant FromSomewhere(git.index, git.anchor, past)
      invariant past != [] && past[|past| - 1] == FilesOf(git.worktree)
      invariant PastStates(past, old(git.worktree), steps, k)
    {
      ghost var next := past;
      match steps[k] {
        case Request(_, _, _) =>
          ghost var before := git.index;
          RequestKeeps(git, steps[k], parsable);
          StillFromSomewhere(before, git.index, git.anchor, past, FilesOf(git.worktree));
        case Edit(worktree, scannable) =>
          git.worktree := worktree;
          git.scannable := scannable;
          PastGrows(git.index, git.anchor, past, FilesOf(worktree));
          next := past + [FilesOf(worktree)];
      }
      StatesGrow(past, next, old(git.worktree), steps, k);
      past := next;
    }
  }

  lemma SessionStarts(anchor: Files, worktree: map<string, Seen>, steps: seq<Step>)
    ensures FromSomewhere(anchor, anchor, [FilesOf(worktree)]) && PastStates([FilesOf(worktree)], worktree, steps, 0)
  {
  }

  lemma StatesGrow(past: seq<Files>, next: seq<Files>, first: map<string, Seen>, steps: seq<Step>, k: nat)
    requires k < |steps| && PastStates(past, first, steps, k)
    requires next == if steps[k].Edit? then past + [FilesOf(steps[k].worktree)] else past
    ensures PastStates(next, first, steps, k + 1)
  {
    forall i | 0 <= i < |next| && next[i] != FilesOf(first)
      ensures exists j :: 0 <= j < k + 1 && steps[j].Edit? && next[i] == FilesOf(steps[j].worktree)
    {
      if i < |past| {
        var j :| 0 <= j < k && steps[j].Edit? && past[i] == FilesOf(steps[j].worktree);
      } else {
        assert steps[k].Edit? && next[i] == FilesOf(steps[k].worktree);
      }
    }
  }

  lemma StillFromSomewhere(before: Files, after: Files, anchor: Files, past: seq<Files>, files: Files)
    requires FromSomewhere(before, anchor, past) && past != [] && past[|past| - 1] == files
    requires forall p :: At(after, p) == At(before, p) || At(after, p) == At(anchor, p) || At(after, p) == At(files, p)
    ensures FromSomewhere(after, anchor, past)
  {
    forall p | p in after && At(after, p) != At(anchor, p)
      ensures exists i :: 0 <= i < |past| && At(past[i], p) == At(after, p)
    {
      if At(after, p) == At(before, p) {
        assert p in before;
      } else {
        assert At(past[|past| - 1], p) == At(after, p);
      }
    }
  }

  lemma PastGrows(index: Files, anchor: Files, past: seq<Files>, files: Files)
    requires FromSomewhere(index, anchor, past)
    ensures FromSomewhere(index, anchor, past + [files])
  {
    forall p | p in index && At(index, p) != At(anchor, p)
      ensures exists i :: 0 <= i < |past + [files]| && At((past + [files])[i], p) == At(index, p)
    {
      var i :| 0 <= i < |past| && At(past[i], p) == At(index, p);
      assert (past + [files])[i] == past[i];
    }
  }
}
