/** The rollback loop of recovery: every affected entry undone, in reverse plan order. */
module RecoveryUndoAll {
  import opened Wrappers
  import opened ApplyModels
  import opened TargetTree
  import opened Hosts
  import opened Directories
  import opened EntryEffects
  import opened ApplyJournals
  import opened JournalEvidence
  import opened EntryProgress
  import opened TransactionTree
  import opened TransactionLog
  import opened Inspection
  import opened RecoveryEvidence
  import opened RecoveryClassify
  import opened RecoveryUndo

  /** Not yet undone: as it was when the loop began. */
  ghost predicate Remaining(t1: Tree, t: Tree, log1: seq<Record>, log: seq<Record>, e: Entry) {
    && ProgressOf(log, e) == ProgressOf(log1, e)
    && LeafAt(t, e.path) == LeafAt(t1, e.path)
    && QuarantineAt(t, e.path) == QuarantineAt(t1, e.path)
    && (forall d :: d in e.createdParents ==> (d in t.dirs <==> d in t1.dirs))
  }

  /** Undone, or never affected. */
  ghost predicate Finished(t1: Tree, t: Tree, log: seq<Record>, e: Entry)
    requires 0 < |e.path|
  {
    && Settled(t, e.path, e.original)
    && !ProgressOf(log, e).Effected? && !ProgressOf(log, e).Reverting?
    && (!ParentsAbsent(t1, e) ==> Parent(e.path) in t1.dirs)
  }

  predicate TempsKept(t1: Tree, t: Tree, e: Entry) {
    && (TemporaryAt(t1, e.path, DigestOf(e.original)).None? ==> TemporaryAt(t, e.path, DigestOf(e.original)).None?)
    && (DigestOf(e.original) != DigestOf(e.desired) ==>
         TemporaryAt(t, e.path, DigestOf(e.desired)) == TemporaryAt(t1, e.path, DigestOf(e.desired)))
  }

  ghost predicate EntryUndone(t1: Tree, t: Tree, log1: seq<Record>, log: seq<Record>, e: Entry, remaining: bool)
    requires 0 < |e.path|
  {
    && (if remaining then Remaining(t1, t, log1, log, e) else Finished(t1, t, log, e))
    && TempsKept(t1, t, e)
  }

  predicate RemovedBy(plan: Plan, d: Path, affected: seq<nat>, i: nat) {
    exists j :: i <= j < |affected| && affected[j] < |plan.entries| && d in plan.entries[affected[j]].createdParents
  }

  ghost predicate DirsUndone(plan: Plan, t1: Tree, t: Tree, affected: seq<nat>, i: nat) {
    && (forall d :: d in t.dirs ==> d in t1.dirs && t.dirs[d] == t1.dirs[d])
    && (forall d :: d in t1.dirs && d !in t.dirs ==> RemovedBy(plan, d, affected, i))
  }

  /** The log's index re-checks and created-parent evidence did not change. */
  ghost predicate MarksKept(plan: Plan, log1: seq<Record>, log: seq<Record>) {
    && LatestPhase(log) == LatestPhase(log1)
    && (forall m: Mark :: m.RollbackIndexRechecked? ==> Select(log, m) == Select(log1, m))
  }

  /** The loop has undone `affected[i..]`. */
  ghost predicate UndoneFrom(plan: Plan, t1: Tree, t: Tree, log1: seq<Record>, log: seq<Record>, affected: seq<nat>,
                             i: nat)
    requires ValidPlan(plan) && i <= |affected|
  {
    && (forall k :: 0 <= k < |plan.entries| ==> EntryUndone(t1, t, log1, log, plan.entries[k], k in affected[..i]))
    && DirsUndone(plan, t1, t, affected, i)
    && MarksKept(plan, log1, log)
  }

  /** Nothing stands in the way of an undisturbed rollback. */
  ghost predicate Clear(plan: Plan, t: Tree, evidence: map<Path, Digest>)
    requires ValidPlan(plan)
  {
    forall k :: 0 <= k < |plan.entries| ==>
      && Proven(t, plan.entries[k], evidence)
      && TemporaryAt(t, plan.entries[k].path, DigestOf(plan.entries[k].original)).None?
      && TemporaryAt(t, plan.entries[k].path, DigestOf(plan.entries[k].desired)).None?
      && (!ParentsAbsent(t, plan.entries[k]) ==> Parent(plan.entries[k].path) in t.dirs)
  }

  ghost predicate ClearedFrom(plan: Plan, t: Tree, affected: seq<nat>, i: nat)
    requires i <= |affected|
  {
    forall k :: 0 <= k < |plan.entries| && k !in affected[..i] ==> ParentsAbsent(t, plan.entries[k])
  }

  predicate Ascending(affected: seq<nat>, n: nat) {
    && (forall i :: 0 <= i < |affected| ==> affected[i] < n)
    && (forall i, j :: 0 <= i < j < |affected| ==> affected[i] < affected[j])
  }

  // ---- one round ----

  lemma OtherEntryUndone(plan: Plan, t0: Tree, t1: Tree, t: Tree, u: Tree, log1: seq<Record>, log: seq<Record>,
                         longer: seq<Record>, k: nat, j: nat, remaining: bool)
    requires Planned(plan, t0) && k < |plan.entries| && j < |plan.entries| && j != k && 0 < |plan.entries[j].path|
    requires RestoreFrame(t, u, plan.entries[k])
    requires ProgressOf(longer, plan.entries[j]) == ProgressOf(log, plan.entries[j])
    requires EntryUndone(t1, t, log1, log, plan.entries[j], remaining)
    ensures EntryUndone(t1, u, log1, longer, plan.entries[j], remaining)
    ensures ParentsAbsent(u, plan.entries[j]) == ParentsAbsent(t, plan.entries[j])
  {
    hide PlannedEntry, ProgressOf, WellFormed;
    var e, f := plan.entries[k], plan.entries[j];
    assert e.path != f.path;
    assert forall n: Name :: n.path == f.path ==> Lookup(u, n) == Lookup(t, n);
    assert forall d :: d in f.createdParents ==> d !in e.createdParents;
  }

  lemma SameEntryUndone(plan: Plan, t1: Tree, t: Tree, u: Tree, log1: seq<Record>, log: seq<Record>,
                        longer: seq<Record>, k: nat, evidence: map<Path, Digest>)
    requires k < |plan.entries| && 0 < |plan.entries[k].path|
    requires UndoOutcome(plan, t, u, log, longer, k, evidence)
    requires EntryUndone(t1, t, log1, log, plan.entries[k], true)
    requires forall d :: d in t.dirs ==> d in t1.dirs
    ensures EntryUndone(t1, u, log1, longer, plan.entries[k], false)
  {
    hide ProgressOf, Removable, LatestPhase, Select;
  }

  lemma DirsStep(plan: Plan, t1: Tree, t: Tree, u: Tree, affected: seq<nat>, i: nat)
    requires i < |affected| && affected[i] < |plan.entries|
    requires DirsUndone(plan, t1, t, affected, i + 1) && RestoreFrame(t, u, plan.entries[affected[i]])
    ensures DirsUndone(plan, t1, u, affected, i)
  {
    forall d | d in t1.dirs && d !in u.dirs ensures RemovedBy(plan, d, affected, i) {
      if d !in t.dirs {
        assert RemovedBy(plan, d, affected, i + 1);
      } else {
        assert d in plan.entries[affected[i]].createdParents;
      }
    }
  }

  lemma OutcomeParts(plan: Plan, t: Tree, u: Tree, log: seq<Record>, longer: seq<Record>, k: nat,
                     evidence: map<Path, Digest>)
    requires k < |plan.entries| && 0 < |plan.entries[k].path|
    requires UndoOutcome(plan, t, u, log, longer, k, evidence)
    ensures RestoreFrame(t, u, plan.entries[k])
    ensures LatestPhase(longer) == LatestPhase(log)
    ensures forall j :: 0 <= j < |plan.entries| && j != k ==>
              ProgressOf(longer, plan.entries[j]) == ProgressOf(log, plan.entries[j])
    ensures forall m: Mark :: m.RollbackIndexRechecked? ==> Select(longer, m) == Select(log, m)
    ensures Settled(u, plan.entries[k].path, plan.entries[k].original)
    ensures Removable(Tree(u.files, t.dirs), plan.entries[k].createdParents, evidence) ==>
              ParentsAbsent(u, plan.entries[k])
  {
    hide RestoreFrame, Removable, ProgressOf, LatestPhase, Select;
  }

  lemma Without(affected: seq<nat>, n: nat, i: nat, k: nat)
    requires Ascending(affected, n) && i < |affected|
    ensures k in affected[..i + 1] <==> k in affected[..i] || k == affected[i]
    ensures affected[i] !in affected[..i]
  {
  }

  lemma UndoStep(plan: Plan, t0: Tree, t1: Tree, t: Tree, u: Tree, log1: seq<Record>, log: seq<Record>,
                 longer: seq<Record>,
                 affected: seq<nat>, i: nat, evidence: map<Path, Digest>)
    requires Planned(plan, t0) && ValidPlan(plan) && Ascending(affected, |plan.entries|) && i < |affected|
    requires UndoneFrom(plan, t1, t, log1, log, affected, i + 1)
    requires 0 < |plan.entries[affected[i]].path|
    requires UndoOutcome(plan, t, u, log, longer, affected[i], evidence)
    ensures UndoneFrom(plan, t1, u, log1, longer, affected, i)
    ensures ClearedFrom(plan, t, affected, i + 1) && ParentsAbsent(u, plan.entries[affected[i]]) ==>
              ClearedFrom(plan, u, affected, i)
  {
    hide Planned, EntryUndone, UndoOutcome, RestoreFrame, ParentsAbsent, ProgressOf, LatestPhase, Select, Settled,
      Removable, RemovedBy;
    var k := affected[i];
    OutcomeParts(plan, t, u, log, longer, k, evidence);
    forall j | 0 <= j < |plan.entries|
      ensures EntryUndone(t1, u, log1, longer, plan.entries[j], j in affected[..i])
      ensures j != k ==> ParentsAbsent(u, plan.entries[j]) == ParentsAbsent(t, plan.entries[j])
      ensures j != k ==> (j in affected[..i] <==> j in affected[..i + 1])
    {
      Without(affected, |plan.entries|, i, j);
      EntryPathNonEmpty(plan, j);
      if j == k {
        SameEntryUndone(plan, t1, t, u, log1, log, longer, k, evidence);
      } else {
        OtherEntryUndone(plan, t0, t1, t, u, log1, log, longer, k, j, j in affected[..i]);
      }
    }
    DirsStep(plan, t1, t, u, affected, i);
  }

  lemma EntryPathNonEmpty(plan: Plan, k: nat)
    requires ValidPlan(plan) && k < |plan.entries|
    ensures 0 < |plan.entries[k].path|
  {
  }

  // ---- why created parents can be removed ----

  /** Entry `e` shows its original and nothing of the transaction. */
  ghost predicate Clean(t: Tree, e: Entry) {
    LeafAt(t, e.path) == e.original && NoArtifacts(t, e)
  }

  /** A planned path below a parent created for entry `k` comes no earlier than `k`. */
  lemma BelowCreated(plan: Plan, t0: Tree, k: nat, d: Path, j: nat, m: nat)
    requires Planned(plan, t0) && k < |plan.entries| && d in plan.entries[k].createdParents
    requires j < |plan.entries| && 0 < m < |plan.entries[j].path| && plan.entries[j].path[..m] == d
    ensures k <= j
  {
    assert PlannedEntry(plan, t0, k) && PlannedEntry(plan, t0, j);
    assert CreatedUpTo(plan, d, j);
  }

  lemma OriginalBelowDirectory(plan: Plan, t0: Tree, j: nat)
    requires Planned(plan, t0) && j < |plan.entries| && 0 < |plan.entries[j].path|
    requires Parent(plan.entries[j].path) !in t0.dirs
    ensures plan.entries[j].original.None?
  {
    assert PlannedEntry(plan, t0, j);
    var p := plan.entries[j].path;
    assert Leaf(p) in t0.files <==> plan.entries[j].original.Some?;
  }

  lemma ForeignStays(plan: Plan, t0: Tree, t: Tree, n: Name)
    requires Planned(plan, t0) && SafeTree(plan, t0, t) && Foreign(plan, n) && n in t.files && 0 < |n.path|
    ensures Parent(n.path) in t0.dirs
  {
    assert Lookup(t, n) == Lookup(t0, n);
    assert n in t0.files;
  }

  lemma CreatedIsNew(plan: Plan, t0: Tree, k: nat, d: Path)
    requires Planned(plan, t0) && k < |plan.entries| && d in plan.entries[k].createdParents
    ensures d !in t0.dirs && 0 < |d| && ProperPrefix(d, plan.entries[k].path)
  {
    assert PlannedEntry(plan, t0, k);
  }

  lemma OwnAbsent(plan: Plan, t0: Tree, t: Tree, k: nat, n: Name, j: nat)
    requires Planned(plan, t0) && k < |plan.entries| && j < |plan.entries| && 0 < |n.path|
    requires forall i :: k <= i < |plan.entries| ==> Clean(t, plan.entries[i])
    requires OwnName(plan.entries[j], n) && Parent(n.path) in plan.entries[k].createdParents
    ensures n !in t.files
  {
    hide Planned, Clean;
    var d := Parent(n.path);
    CreatedIsNew(plan, t0, k, d);
    BelowCreated(plan, t0, k, d, j, |n.path| - 1);
    OriginalBelowDirectory(plan, t0, j);
    CleanHasNothing(t, plan.entries[j], n);
  }

  lemma CleanHasNothing(t: Tree, e: Entry, n: Name)
    requires Clean(t, e) && e.original.None? && OwnName(e, n)
    ensures n !in t.files
  {
    assert Lookup(t, n).None?;
  }

  /** Once entry `k` shows its original again and all later entries are clean, no file is left in the
      parents created for `k`. */
  lemma NoFileBelow(plan: Plan, t0: Tree, t: Tree, k: nat, n: Name)
    requires Planned(plan, t0) && SafeTree(plan, t0, t) && k < |plan.entries|
    requires forall j :: k <= j < |plan.entries| ==> Clean(t, plan.entries[j])
    requires n in t.files && 0 < |n.path|
    ensures Parent(n.path) !in plan.entries[k].createdParents
  {
    hide Planned, SafeTree, Clean, OwnName;
    var d := Parent(n.path);
    if d in plan.entries[k].createdParents {
      CreatedIsNew(plan, t0, k, d);
      if Foreign(plan, n) {
        ForeignStays(plan, t0, t, n);
      } else {
        var j :| 0 <= j < |plan.entries| && OwnName(plan.entries[j], n);
        OwnAbsent(plan, t0, t, k, n, j);
      }
    }
  }

  lemma NewDirectory(plan: Plan, t0: Tree, t: Tree, c: Path)
    requires Planned(plan, t0) && SafeTree(plan, t0, t) && c in t.dirs && 0 < |c|
    ensures c in t0.dirs ==> Parent(c) in t0.dirs
    ensures c in t0.dirs || PlanDirectory(plan, c)
  {
  }

  lemma OnlyCreatedBelow(plan: Plan, t0: Tree, t: Tree, k: nat, c: Path)
    requires Planned(plan, t0) && SafeTree(plan, t0, t) && k < |plan.entries|
    requires forall j :: k < j < |plan.entries| ==> ParentsAbsent(t, plan.entries[j])
    requires c in t.dirs && 0 < |c| && Parent(c) in plan.entries[k].createdParents
    ensures c in plan.entries[k].createdParents
  {
    hide Planned, SafeTree;
    var d := Parent(c);
    CreatedIsNew(plan, t0, k, d);
    NewDirectory(plan, t0, t, c);
    var j :| 0 <= j < |plan.entries| && c in plan.entries[j].createdParents;
    CreatedIsNew(plan, t0, j, c);
    assert plan.entries[j].path[..|c| - 1] == d;
    BelowCreated(plan, t0, k, d, j, |c| - 1);
  }

  lemma HollowParents(plan: Plan, t0: Tree, t: Tree, k: nat)
    requires Planned(plan, t0) && SafeTree(plan, t0, t) && k < |plan.entries|
    requires forall j :: k <= j < |plan.entries| ==> Clean(t, plan.entries[j])
    requires forall j :: k < j < |plan.entries| ==> ParentsAbsent(t, plan.entries[j])
    ensures Hollow(t, plan.entries[k].createdParents)
  {
    hide Planned, SafeTree, Clean, ParentsAbsent;
    forall n: Name | n in t.files && 0 < |n.path| ensures Parent(n.path) !in plan.entries[k].createdParents {
      NoFileBelow(plan, t0, t, k, n);
    }
    forall c | c in t.dirs && 0 < |c| && Parent(c) in plan.entries[k].createdParents
      ensures c in plan.entries[k].createdParents
    {
      OnlyCreatedBelow(plan, t0, t, k, c);
    }
  }

  // ---- a clear rollback goes through ----

  lemma ParentStays(plan: Plan, t0: Tree, t1: Tree, t: Tree, affected: seq<nat>, i: nat)
    requires Planned(plan, t0) && Ascending(affected, |plan.entries|) && i < |affected|
    requires 0 < |plan.entries[affected[i]].path|
    requires Parent(plan.entries[affected[i]].path) in t1.dirs
    requires DirsUndone(plan, t1, t, affected, i + 1) && SafeTree(plan, t0, t)
    ensures Parent(plan.entries[affected[i]].path) in t.dirs
  {
    hide Planned, WellFormed;
    var k := affected[i];
    var p := plan.entries[k].path;
    if Parent(p) !in t.dirs {
      assert RemovedBy(plan, Parent(p), affected, i + 1);
      var j :| i + 1 <= j < |affected| && affected[j] < |plan.entries|
               && Parent(p) in plan.entries[affected[j]].createdParents;
      CreatedIsNew(plan, t0, affected[j], Parent(p));
      BelowCreated(plan, t0, affected[j], Parent(p), k, |p| - 1);
    }
  }

  lemma StepReady(plan: Plan, t0: Tree, t1: Tree, t: Tree, log1: seq<Record>, log: seq<Record>, affected: seq<nat>,
                  i: nat,
                  evidence: map<Path, Digest>)
    requires Planned(plan, t0) && ValidPlan(plan) && SafeTree(plan, t0, t)
    requires Ascending(affected, |plan.entries|) && i < |affected| && 0 < |plan.entries[affected[i]].path|
    requires UndoneFrom(plan, t1, t, log1, log, affected, i + 1) && Clear(plan, t1, evidence)
    ensures UndoReady(t, plan.entries[affected[i]], evidence)
  {
    hide Planned, SafeTree, Remaining, Finished;
    var k := affected[i];
    var e := plan.entries[k];
    assert EntryUndone(t1, t, log1, log, e, k in affected[..i + 1]);
    assert Proven(t1, e, evidence);
    if !ParentsAbsent(t, e) {
      ParentStays(plan, t0, t1, t, affected, i);
    }
  }

  lemma MixedWellFormed(t: Tree, u: Tree, e: Entry)
    requires WellFormed(t) && WellFormed(u) && RestoreFrame(t, u, e) && e.path !in t.dirs
    ensures WellFormed(Tree(u.files, t.dirs))
  {
    forall d | d in t.dirs ensures Leaf(d) !in u.files {
      assert Lookup(u, Leaf(d)) == Lookup(t, Leaf(d));
    }
  }

  /** The tree with the files after a restore and the directories from before it. */
  lemma MixedSafe(plan: Plan, t0: Tree, t: Tree, u: Tree, k: nat)
    requires Planned(plan, t0) && SafeTree(plan, t0, t) && SafeTree(plan, t0, u) && k < |plan.entries|
    requires RestoreFrame(t, u, plan.entries[k])
    ensures SafeTree(plan, t0, Tree(u.files, t.dirs))
  {
    hide Planned, WellFormed, RestoreFrame, Foreign, PlanDirectory;
    var v := Tree(u.files, t.dirs);
    PathIsNoDirectory(plan, t0, t, k);
    MixedWellFormed(t, u, plan.entries[k]);
    assert forall n: Name :: Lookup(v, n) == Lookup(u, n);
  }

  lemma LaterClean(plan: Plan, t1: Tree, t: Tree, u: Tree, log1: seq<Record>, log: seq<Record>, longer: seq<Record>,
                   affected: seq<nat>, i: nat, evidence: map<Path, Digest>, j: nat)
    requires ValidPlan(plan) && Ascending(affected, |plan.entries|) && i < |affected|
    requires 0 < |plan.entries[affected[i]].path|
    requires UndoneFrom(plan, t1, t, log1, log, affected, i + 1) && Clear(plan, t1, evidence)
    requires UndoOutcome(plan, t, u, log, longer, affected[i], evidence)
    requires affected[i] <= j < |plan.entries|
    ensures Clean(u, plan.entries[j])
  {
    hide ProgressOf, Removable, Advanced, Remaining;
    var k := affected[i];
    assert EntryUndone(t1, t, log1, log, plan.entries[j], j in affected[..i + 1]);
    assert EntryUndone(t1, t, log1, log, plan.entries[k], k in affected[..i + 1]);
    if j != k {
      assert j !in affected[..i + 1];
      assert plan.entries[j].path != plan.entries[k].path;
    }
  }

  lemma StepRemovable(plan: Plan, t0: Tree, t1: Tree, t: Tree, u: Tree, log1: seq<Record>, log: seq<Record>,
                      longer: seq<Record>, affected: seq<nat>, i: nat, evidence: map<Path, Digest>)
    requires Planned(plan, t0) && ValidPlan(plan) && SafeTree(plan, t0, t) && SafeTree(plan, t0, u)
    requires Ascending(affected, |plan.entries|) && i < |affected| && 0 < |plan.entries[affected[i]].path|
    requires UndoneFrom(plan, t1, t, log1, log, affected, i + 1) && Clear(plan, t1, evidence)
    requires ClearedFrom(plan, t, affected, i + 1)
    requires UndoOutcome(plan, t, u, log, longer, affected[i], evidence)
    ensures ParentsAbsent(u, plan.entries[affected[i]])
  {
    hide Planned, SafeTree, UndoneFrom, Clear, UndoOutcome, Clean, ParentsAbsent, RestoreFrame, UndoReady;
    var k := affected[i];
    var v := Tree(u.files, t.dirs);
    OutcomeParts(plan, t, u, log, longer, k, evidence);
    MixedSafe(plan, t0, t, u, k);
    forall j | k <= j < |plan.entries| ensures Clean(v, plan.entries[j]) {
      LaterClean(plan, t1, t, u, log1, log, longer, affected, i, evidence, j);
      SameFilesClean(u, v, plan.entries[j]);
    }
    forall j | k < j < |plan.entries| ensures ParentsAbsent(v, plan.entries[j]) {
      assert j !in affected[..i + 1];
      SameDirsAbsent(t, v, plan.entries[j]);
    }
    HollowParents(plan, t0, v, k);
    StepReady(plan, t0, t1, t, log1, log, affected, i, evidence);
    ReadyRemovable(t, v, plan.entries[k], evidence);
  }

  lemma SameFilesClean(t: Tree, u: Tree, e: Entry)
    requires t.files == u.files
    ensures Clean(t, e) == Clean(u, e)
  {
  }

  lemma SameDirsAbsent(t: Tree, u: Tree, e: Entry)
    requires t.dirs == u.dirs
    ensures ParentsAbsent(t, e) == ParentsAbsent(u, e)
  {
  }

  lemma ReadyRemovable(t: Tree, v: Tree, e: Entry, evidence: map<Path, Digest>)
    requires 0 < |e.path| && UndoReady(t, e, evidence) && v.dirs == t.dirs && Hollow(v, e.createdParents)
    ensures Removable(v, e.createdParents, evidence)
  {
  }

  /** The rollback loop. However it ends the transaction's invariant holds; a clear and undisturbed rollback
      ends with every entry restored and every created parent gone. */
  method UndoAll(host: Host, journal: ApplyJournal, plan: Plan, ghost t0: Tree, affected: seq<nat>,
                 evidence: map<Path, Digest>, pending: set<Path>)
    returns (r: Outcome<()>)
    requires Running(plan, t0, host, journal) && ValidPlan(plan)
    requires LatestPhase(host.log) == Some(RollingBack) && !host.torn
    requires Ascending(affected, |plan.entries|)
    requires UndoneFrom(plan, host.tree, host.tree, host.log, host.log, affected, |affected|)
    requires ClearedFrom(plan, host.tree, affected, |affected|)
    requires forall i :: 0 <= i < |affected| ==> Undoable(host.tree, host.log, plan.entries[affected[i]], pending)
    modifies journal, host`dead, host`faults, host`tree, host`looked, host`log, host`torn, host`stamp
    ensures Transaction(plan, t0, host)
    ensures host.dead <==> r.Crashed?
    ensures host.faults <= old(host.faults)
    ensures !host.dead && (JournalSteady(host.frail) || host.faults == old(host.faults)) ==> host.torn == old(host.torn)
    ensures !host.dead ==> Running(plan, t0, host, journal)
    ensures r.Ok? ==> !host.torn && LatestPhase(host.log) == Some(RollingBack)
    ensures r.Ok? ==> UndoneFrom(plan, old(host.tree), host.tree, old(host.log), host.log, affected, 0)
    ensures host.faults == old(host.faults) && Clear(plan, old(host.tree), evidence) ==>
              r.Ok? && ClearedFrom(plan, host.tree, affected, 0)
  {
    hide *;
    ghost var t1, log1 := host.tree, host.log;
    RunningParts(plan, t0, host, journal);
    var i := |affected|;
    while 0 < i
      invariant 0 <= i <= |affected|
      invariant Running(plan, t0, host, journal) && !host.dead && host.faults <= old(host.faults) && !host.torn
      invariant LatestPhase(host.log) == Some(RollingBack)
      invariant UndoneFrom(plan, t1, host.tree, log1, host.log, affected, i)
      invariant host.faults == old(host.faults) && Clear(plan, t1, evidence) ==>
                  ClearedFrom(plan, host.tree, affected, i)
    {
      i := i - 1;
      ghost var t, log := host.tree, host.log;
      AscendingAt(affected, |plan.entries|, i);
      EntryPathNonEmpty(plan, affected[i]);
      RunningParts(plan, t0, host, journal);
      TransactionParts(plan, t0, host);
      StillUndoable(plan, t1, t, log1, log, affected, i, pending);
      if Clear(plan, t1, evidence) {
        StepReady(plan, t0, t1, t, log1, log, affected, i, evidence);
      }
      r := UndoEntry(host, journal, plan, t0, affected[i], evidence, pending);
      if !r.Ok? {
        return r;
      }
      TransactionParts(plan, t0, host);
      if host.faults == old(host.faults) && Clear(plan, t1, evidence) {
        StepRemovable(plan, t0, t1, t, host.tree, log1, log, host.log, affected, i, evidence);
      }
      OutcomeParts(plan, t, host.tree, log, host.log, affected[i], evidence);
      UndoStep(plan, t0, t1, t, host.tree, log1, log, host.log, affected, i, evidence);
    }
    RunningParts(plan, t0, host, journal);
    return Ok(());
  }

  lemma AscendingAt(affected: seq<nat>, n: nat, i: nat)
    requires Ascending(affected, n) && i < |affected|
    ensures affected[i] < n
  {
  }

  lemma StillUndoable(plan: Plan, t1: Tree, t: Tree, log1: seq<Record>, log: seq<Record>, affected: seq<nat>, i: nat,
                      pending: set<Path>)
    requires ValidPlan(plan) && Ascending(affected, |plan.entries|) && i < |affected|
    requires UndoneFrom(plan, t1, t, log1, log, affected, i + 1)
    requires Undoable(t1, log1, plan.entries[affected[i]], pending)
    ensures Undoable(t, log, plan.entries[affected[i]], pending)
  {
    hide ProgressOf;
    var k := affected[i];
    assert affected[..i + 1][i] == k;
    assert EntryUndone(t1, t, log1, log, plan.entries[k], k in affected[..i + 1]);
  }
}
