/** Startup inspection: resolving interrupted effects and telling which entries must be undone. */
module RecoveryClassify {
  import opened Wrappers
  import opened ApplyModels
  import opened TargetTree
  import opened Hosts
  import opened Directories
  import opened EntryEffects
  import opened JournalEvidence
  import opened EntryProgress
  import opened TransactionTree
  import opened Inspection
  import opened RecoveryEvidence

  lemma EntryTreeInFlight(t: Tree, e: Entry, rolling: bool, progress: Progress)
    requires EntryTree(t, e, rolling, progress)
    ensures InFlight(t, e.path, Displaced(e, rolling), Wanted(e, rolling))
  {
  }

  /** Resolving keeps an entry at the stage the log shows. */
  lemma ResolveKeepsStage(t: Tree, u: Tree, e: Entry, rolling: bool, progress: Progress, ok: bool)
    requires EntryTree(t, e, rolling, progress) && EntryResolution(t, u, e, rolling, ok)
    ensures EntryTree(u, e, rolling, progress)
  {
    if progress.Untouched? {
      assert ParentsAbsent(u, e);
    }
  }

  /** The entry shows one of its two snapshots and its interrupted temporary is gone. */
  predicate ResolvedEntry(t: Tree, e: Entry, rolling: bool) {
    && (Settled(t, e.path, e.original) || Settled(t, e.path, e.desired))
    && TemporaryAt(t, e.path, DigestOf(Wanted(e, rolling))).None?
  }

  predicate Resolved(plan: Plan, t: Tree, rolling: bool) {
    forall k :: 0 <= k < |plan.entries| ==> ResolvedEntry(t, plan.entries[k], rolling)
  }

  /** The temporaries of the abandoned direction are as they were. */
  predicate SameAbandoned(plan: Plan, t: Tree, u: Tree, rolling: bool) {
    forall k :: 0 <= k < |plan.entries| && DigestOf(plan.entries[k].original) != DigestOf(plan.entries[k].desired) ==>
      var e := plan.entries[k];
      TemporaryAt(u, e.path, DigestOf(Displaced(e, rolling))) == TemporaryAt(t, e.path, DigestOf(Displaced(e, rolling)))
  }

  predicate AllUsable(plan: Plan, t: Tree, rolling: bool) {
    forall k :: 0 <= k < |plan.entries| ==> TemporaryUsable(t, plan.entries[k], rolling)
  }

  /** One entry's resolution as a step of the transaction. */
  method ResolveOne(host: Host, plan: Plan, ghost t0: Tree, k: nat, rolling: bool) returns (r: Outcome<()>)
    requires Transaction(plan, t0, host) && !host.dead && k < |plan.entries|
    requires LatestPhase(host.log) == Some(PhaseOf(rolling))
    modifies host`dead, host`faults, host`tree, host`looked
    ensures Transaction(plan, t0, host)
    ensures host.dead <==> r.Crashed?
    ensures host.faults <= old(host.faults)
    ensures ResolveOutcome(plan, old(host.tree), host.tree, k, rolling, r.Ok?)
    ensures host.faults == old(host.faults) && TemporaryUsable(old(host.tree), plan.entries[k], rolling) ==> r.Ok?
  {
    hide *;
    var e := plan.entries[k];
    ghost var t := host.tree;
    TransactionParts(plan, t0, host);
    EntryState(plan, t0, t, host.log, host.blobs, k, rolling);
    EntryTreeInFlight(t, e, rolling, ProgressOf(host.log, e));
    r := ResolveArtifacts(host, e, rolling);
    ResolveFrame(plan, t0, t, host.tree, host.log, host.blobs, k, rolling, r.Ok?);
    TransactionIf(plan, t0, host);
  }

  /** What resolving entry `k` did to the tree. */
  ghost predicate ResolveOutcome(plan: Plan, t: Tree, u: Tree, k: nat, rolling: bool, ok: bool)
    requires k < |plan.entries|
  {
    && u.dirs == t.dirs
    && SameFilesBut(t, u, plan.entries[k].path)
    && SameAbandoned(plan, t, u, rolling)
    && (ok ==> ResolvedEntry(u, plan.entries[k], rolling) && TemporaryUsable(t, plan.entries[k], rolling))
  }

  lemma ResolveFrame(plan: Plan, t0: Tree, t: Tree, u: Tree, log: seq<Record>, blobs: map<Blob, Bytes>, k: nat,
                     rolling: bool, ok: bool)
    requires State(plan, t0, t, log, blobs) && k < |plan.entries| && LatestPhase(log) == Some(PhaseOf(rolling))
    requires WellFormed(u)
    requires EntryResolution(t, u, plan.entries[k], rolling, ok)
    ensures State(plan, t0, u, log, blobs)
    ensures ResolveOutcome(plan, t, u, k, rolling, ok)
  {
    hide Sound, AllEntries, EntryTree, Settled;
    var e := plan.entries[k];
    EntryState(plan, t0, t, log, blobs, k, rolling);
    ResolveKeepsStage(t, u, e, rolling, ProgressOf(log, e), ok);
    EffectFrameIsEntryFrame(t, u, e, Wanted(e, rolling));
    StateStep(plan, t0, t, u, log, blobs, k, rolling);
    AbandonedKept(plan, t0, t, u, k, rolling);
  }

  lemma AbandonedKept(plan: Plan, t0: Tree, t: Tree, u: Tree, k: nat, rolling: bool)
    requires Planned(plan, t0) && k < |plan.entries|
    requires LeafEffects.EffectFrame(t, u, plan.entries[k].path, Wanted(plan.entries[k], rolling))
    ensures SameAbandoned(plan, t, u, rolling)
  {
    forall j | 0 <= j < |plan.entries| && DigestOf(plan.entries[j].original) != DigestOf(plan.entries[j].desired)
      ensures var e := plan.entries[j];
              TemporaryAt(u, e.path, DigestOf(Displaced(e, rolling))) == TemporaryAt(t, e.path, DigestOf(Displaced(e, rolling)))
    {
      var e := plan.entries[j];
      if j != k {
        assert e.path != plan.entries[k].path;
      }
    }
  }

  /** Facts about one entry that another entry's resolution does not touch. */
  lemma OtherResolved(plan: Plan, t: Tree, u: Tree, k: nat, j: nat, rolling: bool)
    requires ValidPlan(plan) && k < |plan.entries| && j < |plan.entries| && j != k
    requires SameFilesBut(t, u, plan.entries[k].path)
    ensures ResolvedEntry(u, plan.entries[j], rolling) == ResolvedEntry(t, plan.entries[j], rolling)
    ensures TemporaryUsable(u, plan.entries[j], rolling) == TemporaryUsable(t, plan.entries[j], rolling)
  {
    assert plan.entries[j].path != plan.entries[k].path;
  }

  /** Resolves every entry in plan order, stopping at the first that cannot be resolved. */
  method ResolveAll(host: Host, plan: Plan, ghost t0: Tree, rolling: bool) returns (r: Outcome<()>)
    requires Transaction(plan, t0, host) && !host.dead
    requires LatestPhase(host.log) == Some(PhaseOf(rolling))
    modifies host`dead, host`faults, host`tree, host`looked
    ensures Transaction(plan, t0, host)
    ensures host.dead <==> r.Crashed?
    ensures host.faults <= old(host.faults)
    ensures host.tree.dirs == old(host.tree).dirs
    ensures SameAbandoned(plan, old(host.tree), host.tree, rolling)
    ensures r.Ok? ==> Resolved(plan, host.tree, rolling)
    ensures r.Ok? ==> AllUsable(plan, old(host.tree), rolling)
    ensures host.faults == old(host.faults) && AllUsable(plan, old(host.tree), rolling) ==> r.Ok?
  {
    hide *;
    TransactionParts(plan, t0, host);
    SameAbandonedSelf(plan, host.tree, rolling);
    for k := 0 to |plan.entries|
      invariant Transaction(plan, t0, host) && !host.dead && host.faults <= old(host.faults)
      invariant LatestPhase(host.log) == Some(PhaseOf(rolling))
      invariant ResolvedUpTo(plan, old(host.tree), host.tree, rolling, k)
    {
      ghost var t := host.tree;
      ResolvedUpToParts(plan, old(host.tree), t, rolling, k);
      var one := ResolveOne(host, plan, t0, k, rolling);
      if !one.Ok? {
        ResolveStopped(plan, old(host.tree), t, host.tree, rolling, k);
        return one;
      }
      ResolvedStep(plan, old(host.tree), t, host.tree, rolling, k);
    }
    ResolvedUpToParts(plan, old(host.tree), host.tree, rolling, |plan.entries|);
    return Ok(());
  }

  /** The first `k` entries are resolved, the others untouched. */
  predicate ResolvedUpTo(plan: Plan, t: Tree, u: Tree, rolling: bool, k: nat)
    requires k <= |plan.entries|
  {
    && u.dirs == t.dirs
    && SameAbandoned(plan, t, u, rolling)
    && (forall j :: 0 <= j < k ==>
         ResolvedEntry(u, plan.entries[j], rolling) && TemporaryUsable(t, plan.entries[j], rolling))
    && (forall j :: k <= j < |plan.entries| ==>
         TemporaryUsable(u, plan.entries[j], rolling) == TemporaryUsable(t, plan.entries[j], rolling))
  }

  lemma ResolvedUpToParts(plan: Plan, t: Tree, u: Tree, rolling: bool, k: nat)
    requires k <= |plan.entries| && ResolvedUpTo(plan, t, u, rolling, k)
    ensures u.dirs == t.dirs && SameAbandoned(plan, t, u, rolling)
    ensures k < |plan.entries| ==>
              TemporaryUsable(u, plan.entries[k], rolling) == TemporaryUsable(t, plan.entries[k], rolling)
    ensures k < |plan.entries| && AllUsable(plan, t, rolling) ==> TemporaryUsable(t, plan.entries[k], rolling)
    ensures k == |plan.entries| ==> Resolved(plan, u, rolling) && AllUsable(plan, t, rolling)
  {
    hide TemporaryUsable, ResolvedEntry, SameAbandoned;
  }

  lemma ResolveStopped(plan: Plan, t: Tree, u: Tree, v: Tree, rolling: bool, k: nat)
    requires k < |plan.entries| && ResolvedUpTo(plan, t, u, rolling, k) && ResolveOutcome(plan, u, v, k, rolling, false)
    ensures v.dirs == t.dirs && SameAbandoned(plan, t, v, rolling)
  {
    SameAbandonedTransitive(plan, t, u, v, rolling);
  }

  lemma ResolvedStep(plan: Plan, t: Tree, u: Tree, v: Tree, rolling: bool, k: nat)
    requires ValidPlan(plan) && k < |plan.entries| && ResolvedUpTo(plan, t, u, rolling, k)
    requires ResolveOutcome(plan, u, v, k, rolling, true)
    ensures ResolvedUpTo(plan, t, v, rolling, k + 1)
  {
    SameAbandonedTransitive(plan, t, u, v, rolling);
    hide ValidPlan, SameFilesBut, ResolvedEntry, TemporaryUsable, SameAbandoned;
    forall j | 0 <= j < |plan.entries| && j != k
      ensures ResolvedEntry(v, plan.entries[j], rolling) == ResolvedEntry(u, plan.entries[j], rolling)
      ensures TemporaryUsable(v, plan.entries[j], rolling) == TemporaryUsable(u, plan.entries[j], rolling)
    {
      OtherResolved(plan, u, v, k, j, rolling);
    }
  }

  lemma SameAbandonedSelf(plan: Plan, t: Tree, rolling: bool)
    ensures SameAbandoned(plan, t, t, rolling)
    ensures ResolvedUpTo(plan, t, t, rolling, 0)
  {
  }

  lemma SameAbandonedTransitive(plan: Plan, t: Tree, u: Tree, v: Tree, rolling: bool)
    requires SameAbandoned(plan, t, u, rolling) && SameAbandoned(plan, u, v, rolling)
    ensures SameAbandoned(plan, t, v, rolling)
  {
  }

  // ---- classification ----

  /** Whether a created parent of `e` exists; one without matching evidence is an error. */
  method CleanupNeeded(t: Tree, e: Entry, evidence: map<Path, Digest>) returns (r: Outcome<bool>)
    ensures r.Ok? || r == Raise(ValueError)
    ensures r.Ok? <==> forall d :: d in e.createdParents && d in t.dirs ==>
              Expected(evidence, d) == Some(Identity(t, d))
    ensures r.Ok? ==> (r.value <==> !ParentsAbsent(t, e))
  {
    var needed := false;
    for i := 0 to |e.createdParents|
      invariant needed <==> exists j :: 0 <= j < i && e.createdParents[j] in t.dirs
      invariant forall j :: 0 <= j < i && e.createdParents[j] in t.dirs ==>
                  Expected(evidence, e.createdParents[j]) == Some(Identity(t, e.createdParents[j]))
    {
      var d := e.createdParents[i];
      if d in t.dirs {
        needed := true;
        if d !in evidence || evidence[d] != Identity(t, d) {
          assert d in e.createdParents;
          return Raise(ValueError);
        }
      }
    }
    return Ok(needed);
  }

  /** The entries whose effect must still be undone. */
  predicate Affected(t: Tree, log: seq<Record>, e: Entry) {
    match ProgressOf(log, e)
    case Reverting => true
    case Effected => true
    case Effecting => LeafAt(t, e.path) == e.desired || exists d :: d in e.createdParents && d in t.dirs
    case _ => false
  }

  /** Outside the affected entries nothing is left to undo. */
  ghost predicate Unaffected(t: Tree, log: seq<Record>, e: Entry) {
    && Settled(t, e.path, e.original)
    && ParentsAbsent(t, e)
    && !ProgressOf(log, e).Effected? && !ProgressOf(log, e).Reverting?
  }

  datatype LogPaths = LogPaths(
    completedRollback: set<Path>,
    pendingRollback: set<Path>,
    completedApply: set<Path>,
    pendingApply: set<Path>)

  function PathsInLog(log: seq<Record>): LogPaths {
    LogPaths(
      PathsOf(log, RollbackStage, Completed),
      PathsOf(log, RollbackStage, Pending),
      PathsOf(log, ApplyStage, Completed),
      PathsOf(log, ApplyStage, Pending))
  }

  /** The decision of one round of the classification loop. */
  function Decide(paths: LogPaths, e: Entry, current: Option<Snapshot>, cleanup: bool): Outcome<bool> {
    if e.path in paths.completedRollback then
      if current != e.original || cleanup then Raise(ValueError) else Ok(false)
    else if e.path in paths.pendingRollback then
      if current == e.original then Ok(true)
      else if current != e.desired then Raise(ValueError)
      else Ok(true)
    else if e.path in paths.completedApply then
      if current != e.desired then Raise(ValueError) else Ok(true)
    else if e.path in paths.pendingApply then
      if current == e.desired then Ok(true)
      else if current != e.original then Raise(ValueError)
      else Ok(cleanup)
    else if current != e.original then Raise(ValueError)
    else if cleanup then Raise(ValueError)
    else Ok(false)
  }

  /** On a resolved entry the decision is exactly `Affected`, unless a created parent was left behind
      a completed rollback. */
  lemma DecisionIs(t: Tree, log: seq<Record>, plan: Plan, t0: Tree, k: nat, rolling: bool, cleanup: bool)
    requires Planned(plan, t0) && Sound(log, plan) && k < |plan.entries|
    requires EntryTree(t, plan.entries[k], rolling, ProgressOf(log, plan.entries[k]))
    requires ResolvedEntry(t, plan.entries[k], rolling)
    requires cleanup <==> !ParentsAbsent(t, plan.entries[k])
    ensures var e := plan.entries[k];
            var decision := Decide(PathsInLog(log), e, LeafAt(t, e.path), cleanup);
            && !decision.Crashed?
            && (decision.Ok? <==> !ParentLeft(t, log, e))
            && (decision.Ok? ==> (decision.value <==> Affected(t, log, e)))
            && (decision == Ok(false) ==> Unaffected(t, log, e))
  {
    hide Planned, PlannedEntry, Sound, PathsOf, Select, OwnName, Pristine, ValidLog;
    var e := plan.entries[k];
    PlannedParts(plan, t0, k);
    SoundIsReadable(log, plan);
    PathsTell(log, plan, t0, k);
    if ProgressOf(log, e).Untouched? {
      PristineParts(t, e);
    }
  }

  lemma PristineParts(t: Tree, e: Entry)
    requires Pristine(t, e)
    ensures Settled(t, e.path, e.original) && ParentsAbsent(t, e)
  {
  }

  lemma CleanupMeansUnproven(t: Tree, log: seq<Record>, plan: Plan, k: nat, evidence: map<Path, Digest>)
    requires k < |plan.entries| && EvidenceIs(evidence, log, plan)
    ensures (forall d :: d in plan.entries[k].createdParents && d in t.dirs ==> Expected(evidence, d) == Some(Identity(t, d)))
            <==> !UnprovenParent(t, log, plan.entries[k])
  {
    var e := plan.entries[k];
    assert forall d :: d in e.createdParents ==> Expected(evidence, d) == ParentProof(log, e, d);
  }

  method ClassifyEntry(host: Host, plan: Plan, ghost t0: Tree, k: nat, ghost rolling: bool, paths: LogPaths,
                       evidence: map<Path, Digest>)
    returns (r: Outcome<bool>)
    requires Transaction(plan, t0, host) && !host.dead && k < |plan.entries|
    requires LatestPhase(host.log) == Some(PhaseOf(rolling))
    requires ResolvedEntry(host.tree, plan.entries[k], rolling)
    requires EvidenceIs(evidence, host.log, plan) && paths == PathsInLog(host.log)
    modifies host`dead, host`faults, host`tree, host`looked
    ensures host.tree == old(host.tree)
    ensures host.dead <==> r.Crashed?
    ensures host.faults <= old(host.faults)
    ensures r.Ok? ==>
              !UnprovenParent(host.tree, host.log, plan.entries[k]) && !ParentLeft(host.tree, host.log, plan.entries[k])
    ensures r.Ok? ==> (r.value <==> Affected(host.tree, host.log, plan.entries[k]))
    ensures r == Ok(false) ==> Unaffected(host.tree, host.log, plan.entries[k])
    ensures host.faults == old(host.faults) && !UnprovenParent(host.tree, host.log, plan.entries[k])
            && !ParentLeft(host.tree, host.log, plan.entries[k])
            ==> r.Ok?
  {
    hide Transaction, State, Planned, Sound, ValidLog, SafeTree, PhaseTree, WellFormed, EntryTree, ProgressOf,
      PathsInLog,
      Affected, Unaffected, ParentProof, ResolvedEntry, ParentLeft, UnprovenParent, Unobstructed, LatestPhase, EvidenceIs,
      Decide, ParentsAbsent, ValidEntry, ValidPlan, BackupSaved;
    var e := plan.entries[k];
    TransactionParts(plan, t0, host);
    EntryState(plan, t0, host.tree, host.log, host.blobs, k, rolling);
    CleanupMeansUnproven(host.tree, host.log, plan, k, evidence);
    var cleanup :- CleanupNeeded(host.tree, e, evidence);
    var current :- TakeSnapshot(host, e.path);
    DecisionIs(host.tree, host.log, plan, t0, k, rolling, cleanup);
    return Decide(paths, e, current, cleanup);
  }

  /** The affected entries, in plan order; everything else is clean, and every parent is proven. */
  ghost predicate Classified(plan: Plan, t: Tree, log: seq<Record>, affected: seq<nat>, upTo: nat)
    requires upTo <= |plan.entries|
  {
    && (forall i :: 0 <= i < |affected| ==> affected[i] < upTo && Affected(t, log, plan.entries[affected[i]]))
    && (forall i, j :: 0 <= i < j < |affected| ==> affected[i] < affected[j])
    && (forall k :: 0 <= k < upTo && k !in affected ==> Unaffected(t, log, plan.entries[k]))
    && (forall k :: 0 <= k < upTo ==> !UnprovenParent(t, log, plan.entries[k]) && !ParentLeft(t, log, plan.entries[k]))
  }

  method Classify(host: Host, plan: Plan, ghost t0: Tree, ghost rolling: bool, paths: LogPaths,
                  evidence: map<Path, Digest>)
    returns (r: Outcome<seq<nat>>)
    requires Transaction(plan, t0, host) && !host.dead
    requires LatestPhase(host.log) == Some(PhaseOf(rolling))
    requires Resolved(plan, host.tree, rolling)
    requires EvidenceIs(evidence, host.log, plan) && paths == PathsInLog(host.log)
    modifies host`dead, host`faults, host`tree, host`looked
    ensures host.tree == old(host.tree)
    ensures host.dead <==> r.Crashed?
    ensures host.faults <= old(host.faults)
    ensures r.Ok? ==> Classified(plan, host.tree, host.log, r.value, |plan.entries|)
    ensures host.faults == old(host.faults) && (forall k :: 0 <= k < |plan.entries| ==>
                            !UnprovenParent(host.tree, host.log, plan.entries[k]) && !ParentLeft(host.tree, host.log, plan.entries[k]))
            ==> r.Ok?
  {
    hide State, LatestPhase, UnprovenParent, ParentLeft, Affected, Unaffected,
      ResolvedEntry, PathsInLog, EvidenceIs;
    var affected: seq<nat> := [];
    for k := 0 to |plan.entries|
      invariant !host.dead && host.faults <= old(host.faults) && host.tree == old(host.tree)
      invariant Classified(plan, host.tree, host.log, affected, k)
    {
      var one :- ClassifyEntry(host, plan, t0, k, rolling, paths, evidence);
      if one {
        affected := affected + [k];
      }
    }
    return Ok(affected);
  }
}
