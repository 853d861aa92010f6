/** What the target tree may look like between the steps of a transaction. */
module TransactionTree {
  import opened Wrappers
  import opened ApplyModels
  import opened TargetTree
  import opened Hosts
  import opened Directories
  import opened EntryEffects
  import opened JournalEvidence
  import opened JournalLaws
  import opened EntryProgress

  /** Directories the plan creates for entry `k` belong to no other entry. */
  predicate OwnersDisjoint(plan: Plan) {
    forall i, j :: 0 <= i < |plan.entries| && 0 <= j < |plan.entries| && i != j ==>
      forall d :: d in plan.entries[i].createdParents ==> d !in plan.entries[j].createdParents
  }

  /** Some entry up to `k` creates `d`. */
  predicate CreatedUpTo(plan: Plan, d: Path, k: nat) {
    exists i :: 0 <= i <= k && i < |plan.entries| && d in plan.entries[i].createdParents
  }

  /** Entry `k` describes what the tree `t0` holds and misses. */
  ghost predicate PlannedEntry(plan: Plan, t0: Tree, k: nat)
    requires k < |plan.entries|
  {
    var e := plan.entries[k];
    && ValidEntry(e)
    && e.original != e.desired
    && LeafAt(t0, e.path) == e.original
    && (forall n: Name :: n.path == e.path && !n.Leaf? ==> n !in t0.files)
    && e.path !in t0.dirs
    && (forall j :: 0 <= j < |plan.entries| ==> e.path !in plan.entries[j].createdParents)
    && (forall d :: d in e.createdParents ==> d !in t0.dirs && Leaf(d) !in t0.files)
    && (forall m :: 0 < m < |e.path| ==> e.path[..m] in t0.dirs || CreatedUpTo(plan, e.path[..m], k))
    && e.parentIdentity == (if Parent(e.path) in t0.dirs then Some(Identity(t0, Parent(e.path))) else None)
  }

  /** The plan was made for the tree `t0`. */
  ghost predicate Planned(plan: Plan, t0: Tree) {
    && ValidPlan(plan)
    && WellFormed(t0)
    && OwnersDisjoint(plan)
    && plan.rootIdentity == Identity(t0, [])
    && forall k :: 0 <= k < |plan.entries| ==> PlannedEntry(plan, t0, k)
  }

  /** A name the transaction may use for `e`. */
  predicate OwnName(e: Entry, n: Name) {
    && n.path == e.path
    && (n.Temporary? ==> Some(n.digest) == DigestOf(e.original) || Some(n.digest) == DigestOf(e.desired))
  }

  predicate Foreign(plan: Plan, n: Name) {
    forall k :: 0 <= k < |plan.entries| ==> !OwnName(plan.entries[k], n)
  }

  predicate PlanDirectory(plan: Plan, d: Path) {
    exists k :: 0 <= k < |plan.entries| && d in plan.entries[k].createdParents
  }

  /** Nothing outside the plan moved. */
  ghost predicate SafeTree(plan: Plan, t0: Tree, t: Tree) {
    && WellFormed(t)
    && (forall n: Name :: Foreign(plan, n) ==> Lookup(t, n) == Lookup(t0, n))
    && (forall d :: d in t0.dirs ==> d in t.dirs && t.dirs[d] == t0.dirs[d])
    && (forall d :: d in t.dirs && d !in t0.dirs ==> PlanDirectory(plan, d))
  }

  /** The changes one entry's steps may make. */
  ghost predicate EntryFrame(t: Tree, u: Tree, e: Entry) {
    && SameFilesBut(t, u, e.path)
    && (forall n: Name :: n.path == e.path && !OwnName(e, n) ==> Lookup(u, n) == Lookup(t, n))
    && (forall d :: d !in e.createdParents ==> (d in u.dirs <==> d in t.dirs))
    && (forall d :: d in t.dirs && d in u.dirs ==> u.dirs[d] == t.dirs[d])
  }

  /** Where an entry that the log shows at `progress` stands in the tree. */
  ghost predicate EntryTree(t: Tree, e: Entry, rolling: bool, progress: Progress) {
    && (match progress
        case Untouched => Pristine(t, e)
        case Effecting =>
          if rolling then Settled(t, e.path, e.original) || Settled(t, e.path, e.desired)
          else InFlight(t, e.path, e.original, e.desired)
        case Effected => Settled(t, e.path, e.desired)
        case Reverting => rolling && InFlight(t, e.path, e.desired, e.original)
        case Reverted => rolling && Settled(t, e.path, e.original))
    && (!rolling && DigestOf(e.original) != DigestOf(e.desired) ==>
         TemporaryAt(t, e.path, DigestOf(e.original)).None?)
  }

  ghost predicate AllEntries(t: Tree, plan: Plan, rolling: bool, log: seq<Record>) {
    forall k :: 0 <= k < |plan.entries| ==>
      EntryTree(t, plan.entries[k], rolling, ProgressOf(log, plan.entries[k]))
  }

  predicate BackupsKept(blobs: map<Blob, Bytes>, plan: Plan) {
    forall k :: 0 <= k < |plan.entries| ==> BackupSaved(blobs, plan.entries[k])
  }

  /** Every planned change made, and nothing else. */
  ghost predicate AppliedTree(plan: Plan, t0: Tree, t: Tree) {
    && (forall n: Name :: Foreign(plan, n) ==> Lookup(t, n) == Lookup(t0, n))
    && (forall k :: 0 <= k < |plan.entries| ==>
         && LeafAt(t, plan.entries[k].path) == plan.entries[k].desired
         && forall n: Name :: OwnName(plan.entries[k], n) && !n.Leaf? ==> n !in t.files)
    && (forall d :: d in t.dirs <==> d in t0.dirs || PlanDirectory(plan, d))
    && (forall d :: d in t0.dirs ==> t.dirs[d] == t0.dirs[d])
  }

  /** What each phase says about the tree. */
  ghost predicate PhaseTreeFor(plan: Plan, t0: Tree, t: Tree, phase: Option<Phase>, log: seq<Record>,
                               blobs: map<Blob, Bytes>) {
    match phase
    case None => t == t0
    case Some(p) =>
      match p
      case Preparing => t == t0
      case BackupReady => t == t0 && BackupsKept(blobs, plan)
      case Applying => AllEntries(t, plan, false, log) && BackupsKept(blobs, plan)
      case RollingBack => AllEntries(t, plan, true, log) && BackupsKept(blobs, plan)
      case Applied => AppliedTree(plan, t0, t)
      case RolledBack => t == t0
      case RecoveryRequired => true
  }

  ghost predicate PhaseTree(plan: Plan, t0: Tree, t: Tree, log: seq<Record>, blobs: map<Blob, Bytes>) {
    PhaseTreeFor(plan, t0, t, LatestPhase(log), log, blobs)
  }

  /** What holds of tree, log and blobs at every moment of a transaction. */
  ghost predicate State(plan: Plan, t0: Tree, t: Tree, log: seq<Record>, blobs: map<Blob, Bytes>) {
    && Planned(plan, t0)
    && Sound(log, plan)
    && SafeTree(plan, t0, t)
    && PhaseTree(plan, t0, t, log, blobs)
  }

  /** The invariant of a transaction over all its runs, crashes and recoveries. */
  ghost predicate Transaction(plan: Plan, t0: Tree, host: Host)
    reads host`planFile, host`stamp, host`log, host`torn, host`tree, host`blobs
  {
    && host.planFile == Some(plan)
    && (host.stamp == 0 ==> host.log == [] && !host.torn)
    && State(plan, t0, host.tree, host.log, host.blobs)
  }

  lemma TransactionParts(plan: Plan, t0: Tree, host: Host)
    requires Transaction(plan, t0, host)
    ensures host.planFile == Some(plan)
    ensures host.stamp == 0 ==> host.log == [] && !host.torn
    ensures State(plan, t0, host.tree, host.log, host.blobs)
    ensures Planned(plan, t0) && ValidPlan(plan)
    ensures Sound(host.log, plan) && ValidLog(host.log, plan)
    ensures SafeTree(plan, t0, host.tree) && WellFormed(host.tree)
    ensures PhaseTree(plan, t0, host.tree, host.log, host.blobs)
  {
  }

  /** The invariant depends on the tree only through the state. */
  lemma TransactionIf(plan: Plan, t0: Tree, host: Host)
    requires host.planFile == Some(plan)
    requires host.stamp == 0 ==> host.log == [] && !host.torn
    requires State(plan, t0, host.tree, host.log, host.blobs)
    ensures Transaction(plan, t0, host)
  {
  }

  function PhaseOf(rolling: bool): Phase {
    if rolling then RollingBack else Applying
  }

  lemma StateParts(plan: Plan, t0: Tree, t: Tree, log: seq<Record>, blobs: map<Blob, Bytes>)
    requires State(plan, t0, t, log, blobs)
    ensures Planned(plan, t0) && ValidPlan(plan) && Sound(log, plan) && ValidLog(log, plan) && SafeTree(plan, t0, t)
    ensures WellFormed(t)
    ensures PhaseTree(plan, t0, t, log, blobs)
  {
  }

  // ---- frames ----

  lemma FramesAreEntryFrames(t: Tree, u: Tree, e: Entry)
    ensures PublishFrame(t, u, e) ==> EntryFrame(t, u, e)
    ensures RestoreFrame(t, u, e) ==> EntryFrame(t, u, e)
  {
  }

  lemma EffectFrameIsEntryFrame(t: Tree, u: Tree, e: Entry, y: Option<Snapshot>)
    requires LeafEffects.EffectFrame(t, u, e.path, y) && (y == e.original || y == e.desired)
    ensures EntryFrame(t, u, e)
  {
  }

  /** A step on one entry moves nothing outside the plan. */
  lemma SafeStep(plan: Plan, t0: Tree, t: Tree, u: Tree, k: nat)
    requires Planned(plan, t0) && SafeTree(plan, t0, t) && k < |plan.entries|
    requires EntryFrame(t, u, plan.entries[k]) && WellFormed(u)
    ensures SafeTree(plan, t0, u)
  {
    hide Planned, WellFormed, OwnName, PlanDirectory;
    PlannedDirectories(plan, t0, k);
    forall n: Name | Foreign(plan, n) ensures Lookup(u, n) == Lookup(t0, n) {
      assert !OwnName(plan.entries[k], n);
    }
  }

  lemma PlannedDirectories(plan: Plan, t0: Tree, k: nat)
    requires Planned(plan, t0) && k < |plan.entries|
    ensures forall d :: d in plan.entries[k].createdParents ==> d !in t0.dirs && PlanDirectory(plan, d)
  {
    assert PlannedEntry(plan, t0, k);
  }

  lemma PathIsNoDirectory(plan: Plan, t0: Tree, t: Tree, k: nat)
    requires Planned(plan, t0) && SafeTree(plan, t0, t) && k < |plan.entries|
    ensures plan.entries[k].path !in t.dirs
  {
    assert PlannedEntry(plan, t0, k);
  }

  lemma OtherEntryStays(plan: Plan, t0: Tree, t: Tree, u: Tree, k: nat, j: nat, rolling: bool, progress: Progress)
    requires Planned(plan, t0) && k < |plan.entries| && j < |plan.entries| && k != j
    requires EntryFrame(t, u, plan.entries[k])
    ensures EntryTree(u, plan.entries[j], rolling, progress) == EntryTree(t, plan.entries[j], rolling, progress)
  {
    var e, f := plan.entries[k], plan.entries[j];
    assert e.path != f.path;
    assert forall n: Name :: n.path == f.path ==> Lookup(u, n) == Lookup(t, n);
    assert forall d :: d in f.createdParents ==> d !in e.createdParents;
    assert ParentsAbsent(u, f) == ParentsAbsent(t, f);
  }

  /** The steps of one entry leave all others where they are. */
  lemma EntriesStep(plan: Plan, t0: Tree, t: Tree, u: Tree, k: nat, rolling: bool, log: seq<Record>)
    requires Planned(plan, t0) && k < |plan.entries|
    requires EntryFrame(t, u, plan.entries[k])
    requires AllEntries(t, plan, rolling, log)
    requires EntryTree(u, plan.entries[k], rolling, ProgressOf(log, plan.entries[k]))
    ensures AllEntries(u, plan, rolling, log)
  {
    hide EntryTree, EntryFrame;
    forall j | 0 <= j < |plan.entries|
      ensures EntryTree(u, plan.entries[j], rolling, ProgressOf(log, plan.entries[j]))
    {
      if j != k {
        OtherEntryStays(plan, t0, t, u, k, j, rolling, ProgressOf(log, plan.entries[j]));
      }
    }
  }

  // ---- the two terminal trees ----

  /** Every entry is back at its original, with nothing of the transaction left. */
  ghost predicate AllRestored(plan: Plan, t: Tree) {
    forall k :: 0 <= k < |plan.entries| ==> Pristine(t, plan.entries[k])
  }

  lemma RestoredTree(plan: Plan, t0: Tree, t: Tree)
    requires Planned(plan, t0) && SafeTree(plan, t0, t) && AllRestored(plan, t)
    ensures t == t0
  {
    forall n: Name ensures Lookup(t, n) == Lookup(t0, n) {
      if !Foreign(plan, n) {
        var k :| 0 <= k < |plan.entries| && OwnName(plan.entries[k], n);
        assert PlannedEntry(plan, t0, k) && Pristine(t, plan.entries[k]);
      }
    }
    SameLookups(t, t0);
    assert t.dirs.Keys == t0.dirs.Keys;
    assert t.dirs == t0.dirs;
  }

  lemma SameLookups(t: Tree, u: Tree)
    requires forall n: Name :: Lookup(t, n) == Lookup(u, n)
    ensures t.files == u.files
  {
    forall n: Name ensures n in t.files <==> n in u.files {
      assert Lookup(t, n) == Lookup(u, n);
    }
    forall n | n in t.files ensures t.files[n] == u.files[n] {
      assert Lookup(t, n) == Lookup(u, n);
    }
  }

  lemma PristineAtStart(plan: Plan, t0: Tree, k: nat)
    requires Planned(plan, t0) && k < |plan.entries|
    ensures Pristine(t0, plan.entries[k])
  {
    assert PlannedEntry(plan, t0, k);
  }

  /** Nothing but the desired leaves is left of the transaction's names. */
  predicate NoArtifacts(t: Tree, e: Entry) {
    && QuarantineAt(t, e.path).None?
    && TemporaryAt(t, e.path, DigestOf(e.original)).None?
    && TemporaryAt(t, e.path, DigestOf(e.desired)).None?
  }

  /** A created parent belongs to an addition, so its entry's leaf keeps it in the tree. */
  lemma ParentsStand(plan: Plan, t0: Tree, t: Tree, k: nat, d: Path)
    requires Planned(plan, t0) && WellFormed(t) && k < |plan.entries| && d in plan.entries[k].createdParents
    requires LeafAt(t, plan.entries[k].path) == plan.entries[k].desired
    ensures d in t.dirs
  {
    var e := plan.entries[k];
    assert PlannedEntry(plan, t0, k);
    AdditionOwnsParents(plan, t0, k);
    assert Leaf(e.path) in t.files;
    PrefixDirs(t, Parent(e.path), |d|);
    assert Parent(e.path)[..|d|] == d;
  }

  lemma AppliedIsApplied(plan: Plan, t0: Tree, t: Tree)
    requires Planned(plan, t0) && SafeTree(plan, t0, t)
    requires forall k :: 0 <= k < |plan.entries| ==>
               LeafAt(t, plan.entries[k].path) == plan.entries[k].desired && NoArtifacts(t, plan.entries[k])
    ensures AppliedTree(plan, t0, t)
  {
    hide Planned, WellFormed, NoArtifacts, OwnName, Foreign, PlanDirectory;
    AllParentsStand(plan, t0, t);
    forall k, n: Name | 0 <= k < |plan.entries| && OwnName(plan.entries[k], n) && !n.Leaf?
      ensures n !in t.files
    {
      assert NoArtifacts(t, plan.entries[k]);
      NoOtherNames(t, plan.entries[k], n);
    }
  }

  lemma NoOtherNames(t: Tree, e: Entry, n: Name)
    requires NoArtifacts(t, e) && OwnName(e, n) && !n.Leaf?
    ensures n !in t.files
  {
  }

  lemma AllParentsStand(plan: Plan, t0: Tree, t: Tree)
    requires Planned(plan, t0) && WellFormed(t)
    requires forall k :: 0 <= k < |plan.entries| ==> LeafAt(t, plan.entries[k].path) == plan.entries[k].desired
    ensures forall d :: PlanDirectory(plan, d) ==> d in t.dirs
  {
    hide Planned, WellFormed;
    forall d | PlanDirectory(plan, d) ensures d in t.dirs {
      var k :| 0 <= k < |plan.entries| && d in plan.entries[k].createdParents;
      ParentsStand(plan, t0, t, k, d);
    }
  }

  lemma AdditionOwnsParents(plan: Plan, t0: Tree, k: nat)
    requires Planned(plan, t0) && k < |plan.entries| && plan.entries[k].createdParents != []
    ensures plan.entries[k].original.None? && plan.entries[k].desired.Some?
  {
    var e := plan.entries[k];
    assert PlannedEntry(plan, t0, k);
    var d := e.createdParents[0];
    assert d in e.createdParents;
    assert Parent(e.path)[..|d|] == d;
    if e.original.Some? {
      assert Leaf(e.path) in t0.files;
      PrefixDirs(t0, Parent(e.path), |d|);
    }
  }

  /** Parents of planned paths are directories or missing, never files. */
  lemma PlannedUnobstructed(plan: Plan, t0: Tree, t: Tree, k: nat)
    requires Planned(plan, t0) && SafeTree(plan, t0, t) && k < |plan.entries|
    ensures Unobstructed(t, plan.entries[k].path)
  {
    var p := plan.entries[k].path;
    assert PlannedEntry(plan, t0, k);
    forall m | 0 < m < |p| ensures Leaf(p[..m]) !in t.files {
      var d := p[..m];
      if d !in t.dirs {
        assert CreatedUpTo(plan, d, k);
        var i :| 0 <= i <= k && i < |plan.entries| && d in plan.entries[i].createdParents;
        assert PlannedEntry(plan, t0, i);
        ParentIsForeign(plan, t0, i, d);
        assert Lookup(t, Leaf(d)) == Lookup(t0, Leaf(d));
      }
    }
  }

  /** A created parent's leaf name belongs to no entry. */
  lemma ParentIsForeign(plan: Plan, t0: Tree, i: nat, d: Path)
    requires Planned(plan, t0) && i < |plan.entries| && d in plan.entries[i].createdParents
    ensures Foreign(plan, Leaf(d))
  {
    forall j | 0 <= j < |plan.entries| ensures !OwnName(plan.entries[j], Leaf(d)) {
      assert PlannedEntry(plan, t0, j);
    }
  }

  // ---- the state during an effect phase ----

  /** Everything the steps of entry `k` need to know about it. */
  lemma EntryState(plan: Plan, t0: Tree, t: Tree, log: seq<Record>, blobs: map<Blob, Bytes>, k: nat, rolling: bool)
    requires State(plan, t0, t, log, blobs) && k < |plan.entries| && LatestPhase(log) == Some(PhaseOf(rolling))
    ensures var e := plan.entries[k];
            && WellFormed(t) && ValidEntry(e) && 0 < |e.path| && e.path !in t.dirs && Unobstructed(t, e.path)
            && EntryTree(t, e, rolling, ProgressOf(log, e))
            && BackupSaved(blobs, e)
            && e.original != e.desired
  {
    hide Sound, EntryTree, Unobstructed, BackupSaved;
    PathIsNoDirectory(plan, t0, t, k);
    PlannedUnobstructed(plan, t0, t, k);
    PlannedParts(plan, t0, k);
    assert EntryTree(t, plan.entries[k], rolling, ProgressOf(log, plan.entries[k]));
  }

  lemma PlannedParts(plan: Plan, t0: Tree, k: nat)
    requires Planned(plan, t0) && k < |plan.entries|
    ensures ValidPlan(plan) && ValidEntry(plan.entries[k]) && 0 < |plan.entries[k].path|
    ensures plan.entries[k].original != plan.entries[k].desired
  {
    assert PlannedEntry(plan, t0, k);
  }

  /** A step of entry `k` that keeps its stage keeps the state. */
  lemma StateStep(plan: Plan, t0: Tree, t: Tree, u: Tree, log: seq<Record>, blobs: map<Blob, Bytes>, k: nat,
                  rolling: bool)
    requires State(plan, t0, t, log, blobs) && k < |plan.entries| && LatestPhase(log) == Some(PhaseOf(rolling))
    requires EntryFrame(t, u, plan.entries[k]) && WellFormed(u)
    requires EntryTree(u, plan.entries[k], rolling, ProgressOf(log, plan.entries[k]))
    ensures State(plan, t0, u, log, blobs)
  {
    hide Planned, SafeTree, EntryFrame, WellFormed, EntryTree, AllEntries, Sound;
    SafeStep(plan, t0, t, u, k);
    EntriesStep(plan, t0, t, u, k, rolling, log);
  }
}
