/** The machine a transaction runs on: the target tree and the transaction directory on disk.
    Every call is one atomic step. While faults are left, the process may be killed before any step,
    and any step of a frail kind may fail; either uses up a fault. Steps on directories do not fail. */
module Hosts {
  import opened Wrappers
  import opened ApplyModels
  import opened TargetTree

  datatype Blob = Backup(order: nat) | Payload(order: nat)

  /** The kinds of steps. A drifting digest is one that another process changed. */
  datatype Step =
    | Reading(name: Name)
    | Creating(name: Name)
    | Rewriting(name: Name)
    | Linking(name: Name)
    | Unlinking(name: Name)
    | Syncing
    | BlobReading
    | BlobWriting
    | PlanReading
    | PlanWriting
    | LogReading
    | LogOpening
    | LogWriting
    | IdentityReading
    | IndexReading
    | IndexDrifting
    | Comparing
    | ChangesDrifting
    | WorkspaceReading

  class Host {
    var dead: bool
    /** How many disturbances are still to come at most, and which kinds of steps they can hit. */
    var faults: nat
    var frail: Step -> bool
    var tree: Tree
    /** The names that were read since the tree last changed. */
    ghost var looked: set<Name>
    /** The plan file once it is completely written. */
    var planFile: Option<Plan>
    /** Whole lines of the journal file, whether a partial line follows, and a signature that
        changes with every write; a signature of zero stands for a missing file. */
    var log: seq<Record>
    var torn: bool
    var stamp: nat
    var blobs: map<Blob, Bytes>
    /** The digest of the repository index, and that of the change set a new comparison would give. */
    var index: Digest
    var changes: Digest

    constructor (tree: Tree, index: Digest, changes: Digest, faults: nat, frail: Step -> bool)
      ensures !dead && this.faults == faults && this.frail == frail && this.tree == tree && this.index == index
              && this.changes == changes
      ensures planFile.None? && log == [] && !torn && stamp == 0 && blobs == map[] && looked == {}
    {
      dead := false;
      this.faults := faults;
      this.frail := frail;
      this.tree := tree;
      looked := {};
      this.index := index;
      this.changes := changes;
      planFile := None;
      log := [];
      torn := false;
      stamp := 0;
      blobs := map[];
    }

    /** A new process after a crash or a normal end; the disk is as it was left. */
    method Reboot(faults: nat, frail: Step -> bool)
      modifies this`dead, this`faults, this`frail
      ensures !dead && this.faults == faults && this.frail == frail
    {
      dead := false;
      this.faults := faults;
      this.frail := frail;
    }

    /** A step at which the process may be killed or the call may fail. */
    method Tick(step: Step) returns (r: Outcome<()>)
      requires !dead
      modifies this`dead, this`faults
      ensures dead <==> r.Crashed?
      ensures faults == if r.Ok? then old(faults) else old(faults) - 1
      ensures r.Raise? ==> r.error == OsError && frail(step)
    {
      var kill, fail := *, *;
      if faults > 0 && kill {
        faults := faults - 1;
        dead := true;
        return Crashed;
      }
      if faults > 0 && fail && frail(step) {
        faults := faults - 1;
        return Raise(OsError);
      }
      return Ok(());
    }

    /** A step on a directory: it may be cut off but does not fail. */
    method DirTick() returns (r: Outcome<()>)
      requires !dead
      modifies this`dead, this`faults
      ensures dead <==> r.Crashed?
      ensures faults == if r.Ok? then old(faults) else old(faults) - 1
      ensures !r.Raise?
    {
      var kill := *;
      if faults > 0 && kill {
        faults := faults - 1;
        dead := true;
        return Crashed;
      }
      return Ok(());
    }

    /** Reads one name. A directory under a leaf name is not a supported entry. */
    method SnapshotAt(n: Name) returns (r: Outcome<Option<Snapshot>>)
      requires !dead
      modifies this`dead, this`faults, this`looked
      ensures looked == if r.Ok? then old(looked) + {n} else old(looked)
      ensures dead <==> r.Crashed?
      ensures r.Ok? ==> faults == old(faults)
      ensures faults <= old(faults) <= faults + 1
      ensures r.Raise? && faults < old(faults) ==> frail(Reading(n))
      ensures r.Raise? ==> r.error == ApplyFailure
      ensures r.Ok? ==> r.value == Lookup(tree, n) && !(n.Leaf? && n.path in tree.dirs)
      ensures faults == old(faults) && !(n.Leaf? && n.path in tree.dirs) ==> r.Ok?
    {
      var t := Tick(Reading(n));
      if t.Crashed? {
        return Crashed;
      }
      if t.Raise? || (n.Leaf? && n.path in tree.dirs) {
        return Raise(ApplyFailure);
      }
      looked := looked + {n};
      return Ok(Lookup(tree, n));
    }

    /** Whether `n` can be created: its directory exists and nothing has the name. */
    predicate Vacant(n: Name)
      reads this`tree
    {
      && 0 < |n.path|
      && Parent(n.path) in tree.dirs
      && n !in tree.files
      && !(n.Leaf? && n.path in tree.dirs)
    }

    method Create(n: Name, s: Snapshot) returns (r: Outcome<()>)
      requires !dead && WellFormed(tree)
      modifies this`dead, this`faults, this`tree, this`looked
      ensures tree == old(tree) ==> looked == old(looked)
      ensures r.Ok? ==> looked == {}
      ensures dead <==> r.Crashed?
      ensures r.Ok? ==> faults == old(faults)
      ensures faults <= old(faults) <= faults + 1
      ensures r.Raise? && faults < old(faults) ==> frail(Creating(n))
      ensures WellFormed(tree)
      ensures r.Ok? ==> tree == old(tree).(files := old(tree).files[n := s])
      ensures r.Ok? ==> n !in old(tree).files
      ensures !r.Ok? ==> tree == old(tree)
      ensures r.Raise? ==> r.error == OsError
      ensures faults == old(faults) && old(Vacant(n)) ==> r.Ok?
    {
      var _ :- Tick(Creating(n));
      if !Vacant(n) {
        return Raise(OsError);
      }
      tree, looked := tree.(files := tree.files[n := s]), {};
      return Ok(());
    }

    /** Gives the file `from` the further name `to`; an existing `to` is an error. */
    method Link(from: Name, to: Name) returns (r: Outcome<()>)
      requires !dead && WellFormed(tree)
      modifies this`dead, this`faults, this`tree, this`looked
      ensures tree == old(tree) ==> looked == old(looked)
      ensures r.Ok? ==> looked == {}
      ensures dead <==> r.Crashed?
      ensures r.Ok? ==> faults == old(faults)
      ensures faults <= old(faults) <= faults + 1
      ensures r.Raise? && faults < old(faults) ==> frail(Linking(to))
      ensures WellFormed(tree)
      ensures r.Ok? ==> from in old(tree).files && to !in old(tree).files
      ensures r.Ok? ==> tree == old(tree).(files := old(tree).files[to := old(tree).files[from]])
      ensures !r.Ok? ==> tree == old(tree)
      ensures r.Raise? ==> r.error == OsError
      ensures faults == old(faults) && from in old(tree).files && old(Vacant(to)) ==> r.Ok?
    {
      var _ :- Tick(Linking(to));
      if from !in tree.files || !Vacant(to) {
        return Raise(OsError);
      }
      tree, looked := tree.(files := tree.files[to := tree.files[from]]), {};
      return Ok(());
    }

    method Unlink(n: Name) returns (r: Outcome<()>)
      requires !dead && WellFormed(tree)
      modifies this`dead, this`faults, this`tree, this`looked
      ensures tree == old(tree) ==> looked == old(looked)
      ensures r.Ok? ==> looked == {}
      ensures dead <==> r.Crashed?
      ensures r.Ok? ==> faults == old(faults)
      ensures faults <= old(faults) <= faults + 1
      ensures r.Raise? && faults < old(faults) ==> frail(Unlinking(n))
      ensures WellFormed(tree)
      ensures r.Ok? ==> n in old(tree).files && tree == old(tree).(files := old(tree).files - {n})
      ensures !r.Ok? ==> tree == old(tree)
      ensures r.Raise? ==> r.error == OsError
      ensures faults == old(faults) && n in old(tree).files ==> r.Ok?
    {
      var _ :- Tick(Unlinking(n));
      if n !in tree.files {
        return Raise(OsError);
      }
      tree, looked := tree.(files := tree.files - {n}), {};
      return Ok(());
    }

    /** Rewrites an existing file through an open descriptor. */
    method Rewrite(n: Name, s: Snapshot) returns (r: Outcome<()>)
      requires !dead && WellFormed(tree) && n in tree.files
      modifies this`dead, this`faults, this`tree, this`looked
      ensures r.Ok? ==> looked == {}
      ensures dead <==> r.Crashed?
      ensures r.Ok? ==> faults == old(faults)
      ensures faults <= old(faults) <= faults + 1
      ensures r.Raise? && faults < old(faults) ==> frail(Rewriting(n))
      ensures WellFormed(tree)
      ensures r.Ok? ==> tree == old(tree).(files := old(tree).files[n := s])
      ensures !r.Ok? ==> tree == old(tree)
      ensures r.Raise? ==> r.error == OsError
      ensures faults == old(faults) ==> r.Ok?
    {
      var _ :- Tick(Rewriting(n));
      tree, looked := tree.(files := tree.files[n := s]), {};
      return Ok(());
    }

    method Fsync() returns (r: Outcome<()>)
      requires !dead
      modifies this`dead, this`faults
      ensures dead <==> r.Crashed?
      ensures r.Ok? ==> faults == old(faults)
      ensures faults <= old(faults) <= faults + 1
      ensures r.Raise? && faults < old(faults) ==> frail(Syncing)
      ensures faults == old(faults) ==> r.Ok?
      ensures r.Raise? ==> r.error == OsError
    {
      r := Tick(Syncing);
    }

    method MakeDirectory(p: Path) returns (r: Outcome<()>)
      requires !dead && WellFormed(tree)
      requires 0 < |p| && Parent(p) in tree.dirs && p !in tree.dirs && Leaf(p) !in tree.files
      modifies this`dead, this`faults, this`tree, this`looked
      ensures tree == old(tree) ==> looked == old(looked)
      ensures r.Ok? ==> looked == {}
      ensures dead <==> r.Crashed?
      ensures r.Ok? ==> faults == old(faults)
      ensures faults <= old(faults) <= faults + 1
      ensures !r.Crashed? ==> faults == old(faults)
      ensures WellFormed(tree)
      ensures !r.Raise?
      ensures r.Ok? ==> p in tree.dirs && tree == old(tree).(dirs := old(tree).dirs[p := tree.dirs[p]])
      ensures !r.Ok? ==> tree == old(tree)
      ensures faults == old(faults) ==> r.Ok?
    {
      var _ :- DirTick();
      var inode: nat := *;
      tree, looked := tree.(dirs := tree.dirs[p := inode]), {};
      return Ok(());
    }

    predicate DirectoryEmpty(p: Path)
      reads this`tree
    {
      && (forall n :: n in tree.files && 0 < |n.path| ==> Parent(n.path) != p)
      && (forall d :: d in tree.dirs && 0 < |d| ==> Parent(d) != p)
    }

    /** Removes an empty directory; a populated one is an error. */
    method RemoveDirectory(p: Path) returns (r: Outcome<()>)
      requires !dead && WellFormed(tree) && 0 < |p| && p in tree.dirs
      modifies this`dead, this`faults, this`tree, this`looked
      ensures tree == old(tree) ==> looked == old(looked)
      ensures r.Ok? ==> looked == {}
      ensures dead <==> r.Crashed?
      ensures r.Ok? ==> faults == old(faults)
      ensures faults <= old(faults) <= faults + 1
      ensures !r.Crashed? ==> faults == old(faults)
      ensures WellFormed(tree)
      ensures r.Ok? ==> tree == old(tree).(dirs := old(tree).dirs - {p})
      ensures !r.Ok? ==> tree == old(tree)
      ensures r.Raise? ==> !old(DirectoryEmpty(p))
      ensures faults == old(faults) ==> !r.Crashed?
    {
      var _ :- DirTick();
      if !DirectoryEmpty(p) {
        return Raise(OsError);
      }
      tree, looked := tree.(dirs := tree.dirs - {p}), {};
      return Ok(());
    }

    method ReadBlob(b: Blob) returns (r: Outcome<Bytes>)
      requires !dead
      modifies this`dead, this`faults
      ensures dead <==> r.Crashed?
      ensures r.Ok? ==> faults == old(faults)
      ensures faults <= old(faults) <= faults + 1
      ensures r.Raise? && faults < old(faults) ==> frail(BlobReading)
      ensures r.Raise? ==> r.error == ValueError
      ensures r.Ok? ==> b in blobs && r.value == blobs[b]
      ensures faults == old(faults) && b in blobs ==> r.Ok?
    {
      var t := Tick(BlobReading);
      if t.Crashed? {
        return Crashed;
      }
      if t.Raise? || b !in blobs {
        return Raise(ValueError);
      }
      return Ok(blobs[b]);
    }

    /** Writes a new blob and reads it back. */
    method WriteBlob(b: Blob, content: Bytes) returns (r: Outcome<()>)
      requires !dead
      modifies this`dead, this`faults, this`blobs
      ensures dead <==> r.Crashed?
      ensures r.Ok? ==> faults == old(faults)
      ensures faults <= old(faults) <= faults + 1
      ensures r.Raise? && faults < old(faults) ==> frail(BlobWriting)
      ensures r.Ok? ==> b !in old(blobs) && blobs == old(blobs)[b := content]
      ensures forall c :: c in old(blobs) ==> c in blobs && blobs[c] == old(blobs)[c]
      ensures faults == old(faults) && b !in old(blobs) ==> r.Ok?
    {
      var _ :- Tick(BlobWriting);
      if b in blobs {
        return Raise(OsError);
      }
      blobs := blobs[b := content];
      var synced :- Tick(BlobWriting);
      return Ok(());
    }

    /** Makes the transaction directory and writes the plan into it; cut off, the plan file is
        missing or incomplete and so unreadable. */
    method WritePlan(plan: Plan) returns (r: Outcome<()>)
      requires !dead && planFile.None?
      modifies this`dead, this`faults, this`planFile
      ensures dead <==> r.Crashed?
      ensures r.Ok? ==> faults == old(faults)
      ensures faults <= old(faults) <= faults + 1
      ensures r.Raise? && faults < old(faults) ==> frail(PlanWriting)
      ensures planFile.None? || planFile == Some(plan)
      ensures r.Ok? ==> planFile == Some(plan)
      ensures faults == old(faults) ==> r.Ok?
    {
      var made :- Tick(PlanWriting);
      var written :- Tick(PlanWriting);
      planFile := Some(plan);
      var synced :- Tick(PlanWriting);
      return Ok(());
    }

    /** Opens the journal file for appending, creating it when missing. */
    method OpenLog() returns (r: Outcome<()>)
      requires !dead
      modifies this`dead, this`faults, this`stamp
      ensures dead <==> r.Crashed?
      ensures r.Ok? ==> faults == old(faults)
      ensures faults <= old(faults) <= faults + 1
      ensures r.Raise? && faults < old(faults) ==> frail(LogOpening)
      ensures r.Raise? ==> r.error == OsError
      ensures stamp == if r.Ok? && old(stamp) == 0 then 1 else old(stamp)
      ensures faults == old(faults) ==> r.Ok?
    {
      var _ :- Tick(LogOpening);
      if stamp == 0 {
        stamp := 1;
      }
      return Ok(());
    }

    /** Appends one line and syncs. Cut off or failing, it may have written nothing, a part of the
        line, or all of it. */
    method AppendLine(line: Record) returns (r: Outcome<()>)
      requires !dead && !torn && 0 < stamp
      modifies this`dead, this`faults, this`log, this`torn, this`stamp
      ensures dead <==> r.Crashed?
      ensures r.Ok? ==> faults == old(faults)
      ensures faults <= old(faults) <= faults + 1
      ensures r.Raise? && faults < old(faults) ==> frail(LogWriting)
      ensures r.Raise? ==> r.error == OsError
      ensures r.Ok? ==> log == old(log) + [line] && !torn
      ensures log == old(log) || log == old(log) + [line]
      ensures torn ==> log == old(log)
      ensures stamp == old(stamp) ==> log == old(log) && !torn
      ensures old(stamp) <= stamp
      ensures faults == old(faults) ==> r.Ok?
    {
      var first := Tick(LogWriting);
      if !first.Ok? {
        var partly := *;
        if partly {
          torn := true;
          stamp := stamp + 1;
        }
        return first;
      }
      log := log + [line];
      stamp := stamp + 1;
      var synced := Tick(LogWriting);
      return synced;
    }

    /** The index digest; it is the recorded one unless another process changed it. */
    method IndexDigest() returns (r: Outcome<Digest>)
      requires !dead
      modifies this`dead, this`faults
      ensures dead <==> r.Crashed?
      ensures r.Ok? && faults < old(faults) ==> frail(IndexDrifting)
      ensures faults <= old(faults) <= faults + 1
      ensures r.Raise? ==> faults < old(faults) && frail(IndexReading)
      ensures faults == old(faults) ==> r == Ok(index)
    {
      var _ :- Tick(IndexReading);
      var drift, other: nat := *, *;
      if faults > 0 && drift && frail(IndexDrifting) {
        faults := faults - 1;
        return Ok(OfIndex(other));
      }
      return Ok(index);
    }

    /** The digest of a repeated comparison of workspace and baseline. */
    method ChangesDigest() returns (r: Outcome<Digest>)
      requires !dead
      modifies this`dead, this`faults
      ensures dead <==> r.Crashed?
      ensures r.Ok? && faults < old(faults) ==> frail(ChangesDrifting)
      ensures faults <= old(faults) <= faults + 1
      ensures r.Raise? ==> faults < old(faults) && frail(Comparing)
      ensures faults == old(faults) ==> r == Ok(changes)
    {
      var _ :- Tick(Comparing);
      var drift, other: nat := *, *;
      if faults > 0 && drift && frail(ChangesDrifting) {
        faults := faults - 1;
        return Ok(OfChanges(other));
      }
      return Ok(changes);
    }
  }
}
