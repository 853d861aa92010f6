/** Startup recovery of one transaction: what it may conclude, and when it can conclude a rollback. */
module Recovery {
  import opened Wrappers
  import opened ApplyModels
  import opened TargetTree
  import opened Hosts
  import opened Directories
  import opened EntryEffects
  import opened ApplyJournals
  import opened JournalEvidence
  import opened JournalLaws
  import opened EntryProgress
  import opened TransactionTree
  import opened TransactionLog
  import opened Inspection
  import opened RecoveryEvidence
  import opened RecoveryClassify
  import opened RecoveryUndo
  import opened RecoveryUndoAll

  /** What a caller is told about the transaction. */
  datatype Verdict = IsApplied | IsRolledBack | NeedsRecovery

  /** Records RECOVERY_REQUIRED if it can; a log that cannot be written blocks by itself. */
  method RequireRecovery(host: Host, journal: ApplyJournal, plan: Plan, ghost t0: Tree) returns (r: Outcome<Verdict>)
    requires Running(plan, t0, host, journal)
    modifies journal, host`dead, host`faults, host`log, host`torn, host`stamp
    ensures Transaction(plan, t0, host)
    ensures host.dead <==> r.Crashed?
    ensures host.faults <= old(host.faults)
    ensures !host.dead ==> Running(plan, t0, host, journal) && r == Ok(NeedsRecovery)
    ensures SamePhaseOrStuck(old(host.log), host.log)
    ensures host.log == old(host.log)
            || host.log == old(host.log) + [Numbering(old(host.log), PhaseLine(RecoveryRequired, plan))]
    ensures r == Ok(NeedsRecovery) && !old(host.torn)
            && (JournalSteady(host.frail) || host.faults == old(host.faults))
            ==> LatestPhase(host.log) == Some(RecoveryRequired)
    ensures old(host.torn) ==> host.torn && host.log == old(host.log)
  {
    hide *;
    RunningParts(plan, t0, host, journal);
    TransactionParts(plan, t0, host);
    ReadableIf(journal, plan);
    PhaseKept(host.log, host.log);
    var latest := journal.ReadPhase();
    if host.dead {
      return Crashed;
    }
    RunningIf(plan, t0, host, journal);
    if LatestPhase(host.log) != Some(RecoveryRequired) {
      RequiredAccepted(host.log, plan);
    }
    if latest.Ok? && latest.value != Some(RecoveryRequired) {
      AnyTreeNeedsRecovery(plan, t0, host.tree, host.log, host.blobs);
      var noted := CommitPhase(host, journal, plan, t0, RecoveryRequired);
      PhaseKept(old(host.log), host.log);
      if host.dead {
        return Crashed;
      }
    }
    return Ok(NeedsRecovery);
  }

  /** The latest phase is what it was, or RECOVERY_REQUIRED. */
  predicate SamePhaseOrStuck(log: seq<Record>, longer: seq<Record>) {
    LatestPhase(longer) == LatestPhase(log) || LatestPhase(longer) == Some(RecoveryRequired)
  }

  lemma PhaseKept(log: seq<Record>, longer: seq<Record>)
    ensures LatestPhase(longer) == LatestPhase(log) || LatestPhase(longer) == Some(RecoveryRequired)
            <==> SamePhaseOrStuck(log, longer)
    ensures SamePhaseOrStuck(log, log)
  {
  }

  lemma RequiredAccepted(log: seq<Record>, plan: Plan)
    requires ValidLog(log, plan) && LatestPhase(log) != Some(RecoveryRequired)
    ensures Accepts(log, plan, Numbering(log, PhaseLine(RecoveryRequired, plan)))
  {
    AppendPhase(log, plan, Numbering(log, PhaseLine(RecoveryRequired, plan)));
    if LatestPhase(log).None? && log != [] {
      assert RecordOk(log, plan, 0);
      FirstPhase(log);
    }
  }

  lemma {:induction false} FirstPhase(log: seq<Record>)
    requires log != [] && log[0].phase.Some?
    ensures LatestPhase(log).Some?
  {
    if |log| > 1 {
      FirstPhase(log[..|log| - 1]);
    }
  }

  lemma AnyTreeNeedsRecovery(plan: Plan, t0: Tree, t: Tree, log: seq<Record>, blobs: map<Blob, Bytes>)
    ensures PhaseTreeFor(plan, t0, t, Some(RecoveryRequired), log, blobs)
  {
  }

  // ---- the end of a rollback ----

  /** All leaves are back, no artifact and no created parent is left. */
  ghost predicate FullyRestored(plan: Plan, t: Tree) {
    forall k :: 0 <= k < |plan.entries| ==>
      && Settled(t, plan.entries[k].path, plan.entries[k].original)
      && NoArtifacts(t, plan.entries[k])
      && ParentsAbsent(t, plan.entries[k])
  }

  lemma FullyRestoredTree(plan: Plan, t0: Tree, t: Tree)
    requires Planned(plan, t0) && SafeTree(plan, t0, t) && FullyRestored(plan, t)
    ensures t == t0
  {
    hide Planned, SafeTree;
    forall k | 0 <= k < |plan.entries| ensures Pristine(t, plan.entries[k]) {
      assert Settled(t, plan.entries[k].path, plan.entries[k].original);
    }
    RestoredTree(plan, t0, t);
  }

  /** The checks after the rollback loop: leaves, artifacts, created parents. */
  method CheckRestored(host: Host, plan: Plan, ghost t0: Tree, affected: seq<nat>) returns (r: Outcome<()>)
    requires Transaction(plan, t0, host) && !host.dead && ValidPlan(plan) && Ascending(affected, |plan.entries|)
    requires AllSettled(plan, host.tree) && ShutOutside(plan, host.tree, affected)
    modifies host`dead, host`faults, host`tree, host`looked
    ensures host.tree == old(host.tree) && Transaction(plan, t0, host)
    ensures host.dead <==> r.Crashed?
    ensures host.faults <= old(host.faults)
    ensures r.Ok? ==> FullyRestored(plan, host.tree)
    ensures host.faults == old(host.faults) && FullyRestored(plan, host.tree) ==> r.Ok?
    ensures r.Ok? ==> LeavesSeen(plan, host.tree, host.looked, affected) && ArtifactsSeen(plan, host.tree, host.looked)
  {
    hide *;
    TransactionParts(plan, t0, host);
    AscendingBounds(affected, |plan.entries|);
    SettledLeaves(plan, host.tree, affected);
    var restored := VerifyLeaves(host, plan, affected, false, t0);
    TransactionIf(plan, t0, host);
    if restored != Ok(true) {
      return if host.dead then Crashed else Raise(ValueError);
    }
    FullyRestoredParts(plan, host.tree, affected);
    ghost var looked := host.looked;
    var absent := ArtifactsAbsent(host, plan, t0);
    VisitsStay(plan, host.tree, looked, host.looked, affected);
    TransactionIf(plan, t0, host);
    if absent != Ok(true) {
      return if host.dead then Crashed else Raise(ValueError);
    }
    if !ParentsRestored(host.tree, plan, affected) {
      return Raise(ValueError);
    }
    RestoredFully(plan, host.tree, affected);
    return Ok(());
  }

  /** Outside the affected entries a created parent is left only around a temporary. */
  ghost predicate ShutOutside(plan: Plan, t: Tree, affected: seq<nat>) {
    forall k :: 0 <= k < |plan.entries| && k !in affected ==>
      || ParentsAbsent(t, plan.entries[k])
      || TemporaryAt(t, plan.entries[k].path, DigestOf(plan.entries[k].desired)).Some?
  }

  ghost predicate AllSettled(plan: Plan, t: Tree) {
    forall k :: 0 <= k < |plan.entries| ==> Settled(t, plan.entries[k].path, plan.entries[k].original)
  }

  lemma AscendingBounds(affected: seq<nat>, n: nat)
    requires Ascending(affected, n)
    ensures forall i :: 0 <= i < |affected| ==> affected[i] < n
  {
  }

  lemma SettledLeaves(plan: Plan, t: Tree, affected: seq<nat>)
    requires AllSettled(plan, t) && forall i :: 0 <= i < |affected| ==> affected[i] < |plan.entries|
    ensures forall i :: 0 <= i < |affected| ==> LeafIs(t, plan.entries[affected[i]], false)
  {
  }

  lemma FullyRestoredParts(plan: Plan, t: Tree, affected: seq<nat>)
    requires forall i :: 0 <= i < |affected| ==> affected[i] < |plan.entries|
    ensures FullyRestored(plan, t) ==> forall k :: 0 <= k < |plan.entries| ==> NoArtifacts(t, plan.entries[k])
    ensures FullyRestored(plan, t) ==> ParentsRestored(t, plan, affected)
  {
    hide NoArtifacts, Settled;
  }

  lemma RestoredFully(plan: Plan, t: Tree, affected: seq<nat>)
    requires forall i :: 0 <= i < |affected| ==> affected[i] < |plan.entries|
    requires AllSettled(plan, t) && ShutOutside(plan, t, affected)
    requires forall k :: 0 <= k < |plan.entries| ==> NoArtifacts(t, plan.entries[k])
    requires ParentsRestored(t, plan, affected)
    ensures FullyRestored(plan, t)
  {
    hide Settled;
    forall k | 0 <= k < |plan.entries| ensures ParentsAbsent(t, plan.entries[k]) {
      if k in affected {
        var i :| 0 <= i < |affected| && affected[i] == k;
      }
    }
  }

  ghost predicate NoneOpen(plan: Plan, log: seq<Record>) {
    forall k :: 0 <= k < |plan.entries| ==>
      !ProgressOf(log, plan.entries[k]).Effected? && !ProgressOf(log, plan.entries[k]).Reverting?
  }

  /** The index mark of a rollback. */
  function IndexMark(plan: Plan): Mark {
    RollbackIndexRechecked(Some(plan.indexDigest))
  }

  /** Re-checks the index and records the end of the rollback. */
  method RecordRolledBack(host: Host, journal: ApplyJournal, plan: Plan, ghost t0: Tree) returns (r: Outcome<()>)
    requires Running(plan, t0, host, journal) && ValidPlan(plan)
    requires LatestPhase(host.log) == Some(RollingBack)
    requires FullyRestored(plan, host.tree) && NoneOpen(plan, host.log)
    modifies journal, host`dead, host`faults, host`log, host`torn, host`stamp
    ensures Transaction(plan, t0, host)
    ensures host.dead <==> r.Crashed?
    ensures host.faults <= old(host.faults)
    ensures !host.dead && (JournalSteady(host.frail) || host.faults == old(host.faults)) ==> host.torn == old(host.torn)
    ensures !host.dead ==> Running(plan, t0, host, journal)
    ensures r.Ok? ==> host.tree == t0 && LatestPhase(host.log) == Some(RolledBack) && !host.torn
    ensures r.Ok? ==> !Seen(old(host.log), IndexMark(plan))
    ensures host.faults == old(host.faults) && host.index == plan.indexDigest && !old(host.torn)
            && !Seen(old(host.log), IndexMark(plan))
            ==> r.Ok?
    ensures r.Ok? && (host.faults == old(host.faults) || !host.frail(IndexDrifting)) ==>
              host.index == plan.indexDigest
  {
    hide *;
    RunningParts(plan, t0, host, journal);
    TransactionParts(plan, t0, host);
    ghost var log := host.log;
    var index := host.IndexDigest();
    if !index.Ok? {
      if !host.dead {
        RunningIf(plan, t0, host, journal);
      }
      return match index case Raise(error) => Raise(error) case _ => Crashed;
    }
    RunningIf(plan, t0, host, journal);
    if index.value != plan.indexDigest {
      return Raise(ValueError);
    }
    IndexLine(log, plan);
    r := CommitVerification(host, journal, plan, t0, IndexMark(plan));
    if !r.Ok? {
      return r;
    }
    FullyRestoredTree(plan, t0, host.tree);
    TransactionParts(plan, t0, host);
    RestoredPhase(plan, t0, host.tree, host.log, host.blobs);
    RolledBackLine(log, host.log, plan);
    r := CommitPhase(host, journal, plan, t0, RolledBack);
  }

  lemma IndexLine(log: seq<Record>, plan: Plan)
    requires LatestPhase(log) == Some(RollingBack)
    ensures IndexMark(plan).RollbackIndexRechecked?
    ensures Accepts(log, plan, Numbering(log, MarkLine(IndexMark(plan))))
  {
  }

  lemma RestoredPhase(plan: Plan, t0: Tree, t: Tree, log: seq<Record>, blobs: map<Blob, Bytes>)
    requires t == t0
    ensures PhaseTreeFor(plan, t0, t, Some(RolledBack), log, blobs)
    ensures RolledBack != RollingBack
  {
  }

  lemma RolledBackLine(log: seq<Record>, longer: seq<Record>, plan: Plan)
    requires ValidPlan(plan) && Sound(longer, plan) && LatestPhase(longer) == Some(RollingBack)
    requires longer == log + [Numbering(log, MarkLine(IndexMark(plan)))]
    requires NoneOpen(plan, log) && SameProgress(log, longer, plan)
    ensures Accepts(longer, plan, Numbering(longer, PhaseLine(RolledBack, plan))) <==> !Seen(log, IndexMark(plan))
  {
    hide Sound, Accepts, ProgressOf;
    SelectAppend(log, Numbering(log, MarkLine(IndexMark(plan))), IndexMark(plan));
    RolledBackAccepted(longer, plan);
  }

  // ---- the whole of a rollback ----

  lemma InitialUndone(plan: Plan, t0: Tree, t: Tree, log1: seq<Record>, log: seq<Record>, blobs: map<Blob, Bytes>,
                      affected: seq<nat>, rolling: bool)
    requires State(plan, t0, t, log1, blobs) && LatestPhase(log1) == Some(PhaseOf(rolling)) && ValidPlan(plan)
    requires Resolved(plan, t, rolling) && Classified(plan, t, log1, affected, |plan.entries|)
    requires SameProgress(log1, log, plan)
    ensures Ascending(affected, |plan.entries|)
    ensures UndoneFrom(plan, t, t, log, log, affected, |affected|)
    ensures ClearedFrom(plan, t, affected, |affected|)
  {
    hide State, ProgressOf, LatestPhase, Unaffected, Affected, Resolved, EntryUndone, ParentsAbsent, SameProgress;
    assert affected[..|affected|] == affected;
    forall k | 0 <= k < |plan.entries|
      ensures EntryUndone(t, t, log, log, plan.entries[k], k in affected)
      ensures k !in affected ==> ParentsAbsent(t, plan.entries[k])
    {
      OriginalTemporaryAbsent(plan, t0, t, log1, blobs, k, rolling);
      assert k !in affected ==> Unaffected(t, log1, plan.entries[k]);
      InitialEntry(plan, t, log1, log, k, rolling, k in affected);
    }
    MarksKeptSelf(plan, log);
  }

  lemma MarksKeptSelf(plan: Plan, log: seq<Record>)
    ensures MarksKept(plan, log, log)
  {
  }

  lemma InitialEntry(plan: Plan, t: Tree, log1: seq<Record>, log: seq<Record>, k: nat, rolling: bool, affected: bool)
    requires ValidPlan(plan) && k < |plan.entries| && Resolved(plan, t, rolling) && SameProgress(log1, log, plan)
    requires !affected ==> Unaffected(t, log1, plan.entries[k])
    requires TemporaryAt(t, plan.entries[k].path, DigestOf(plan.entries[k].original)).None?
    ensures EntryUndone(t, t, log, log, plan.entries[k], affected)
    ensures !affected ==> ParentsAbsent(t, plan.entries[k])
  {
    hide ProgressOf;
  }

  lemma OriginalTemporaryAbsent(plan: Plan, t0: Tree, t: Tree, log: seq<Record>, blobs: map<Blob, Bytes>, k: nat,
                                rolling: bool)
    requires State(plan, t0, t, log, blobs) && LatestPhase(log) == Some(PhaseOf(rolling)) && k < |plan.entries|
    requires Resolved(plan, t, rolling)
    ensures TemporaryAt(t, plan.entries[k].path, DigestOf(plan.entries[k].original)).None?
  {
    hide Sound, ProgressOf, LatestPhase, State;
    EntryState(plan, t0, t, log, blobs, k, rolling);
    assert ResolvedEntry(t, plan.entries[k], rolling);
  }

  lemma AffectedUndoable(plan: Plan, t0: Tree, t: Tree, log1: seq<Record>, log: seq<Record>, affected: seq<nat>,
                         rolling: bool)
    requires Planned(plan, t0) && Sound(log1, plan) && ValidPlan(plan)
    requires Resolved(plan, t, rolling) && Classified(plan, t, log1, affected, |plan.entries|)
    requires SameProgress(log1, log, plan)
    ensures forall i :: 0 <= i < |affected| ==>
              affected[i] < |plan.entries| && Undoable(t, log, plan.entries[affected[i]], PathsInLog(log1).pendingRollback)
  {
    hide Planned, Sound, UnprovenParent, ParentLeft, ValidLog;
    SoundIsReadable(log1, plan);
    forall i | 0 <= i < |affected|
      ensures affected[i] < |plan.entries|
              && Undoable(t, log, plan.entries[affected[i]], PathsInLog(log1).pendingRollback)
    {
      var k := affected[i];
      PathsTell(log1, plan, t0, k);
      assert ResolvedEntry(t, plan.entries[k], rolling);
      assert SameProgress(log1, log, plan) ==> ProgressOf(log, plan.entries[k]) == ProgressOf(log1, plan.entries[k]);
    }
  }

  lemma ClearedIsShut(plan: Plan, t: Tree, affected: seq<nat>)
    requires ClearedFrom(plan, t, affected, |affected|)
    ensures ShutOutside(plan, t, affected)
  {
    assert affected[..|affected|] == affected;
  }

  lemma UndoneSettled(plan: Plan, t0: Tree, t1: Tree, t: Tree, log1: seq<Record>, log: seq<Record>, affected: seq<nat>)
    requires Planned(plan, t0) && ValidPlan(plan) && UndoneFrom(plan, t1, t, log1, log, affected, 0)
    requires ShutOutside(plan, t1, affected)
    ensures AllSettled(plan, t) && NoneOpen(plan, log) && ShutOutside(plan, t, affected)
  {
    hide ProgressOf, Planned;
    forall k | 0 <= k < |plan.entries| ensures EntryUndone(t1, t, log1, log, plan.entries[k], false) {
      assert EntryUndone(t1, t, log1, log, plan.entries[k], k in affected[..0]);
    }
    forall k | 0 <= k < |plan.entries| && k !in affected
      ensures ParentsAbsent(t, plan.entries[k])
              || TemporaryAt(t, plan.entries[k].path, DigestOf(plan.entries[k].desired)).Some?
    {
      var e := plan.entries[k];
      if e.createdParents != [] {
        AdditionOwnsParents(plan, t0, k);
      }
    }
  }

  /** From resolved and classified entries to the recorded end of the rollback. */
  method RollBackAffected(host: Host, journal: ApplyJournal, plan: Plan, ghost t0: Tree, affected: seq<nat>,
                          evidence: map<Path, Digest>, pending: set<Path>)
    returns (r: Outcome<()>)
    requires Running(plan, t0, host, journal) && ValidPlan(plan)
    requires LatestPhase(host.log) == Some(RollingBack) && !host.torn
    requires Ascending(affected, |plan.entries|)
    requires UndoneFrom(plan, host.tree, host.tree, host.log, host.log, affected, |affected|)
    requires ClearedFrom(plan, host.tree, affected, |affected|)
    requires forall i :: 0 <= i < |affected| ==> Undoable(host.tree, host.log, plan.entries[affected[i]], pending)
    modifies journal, host`dead, host`faults, host`tree, host`looked, host`log, host`torn, host`stamp
    ensures Transaction(plan, t0, host)
    ensures host.dead <==> r.Crashed?
    ensures host.faults <= old(host.faults)
    ensures !host.dead && (JournalSteady(host.frail) || host.faults == old(host.faults)) ==> host.torn == old(host.torn)
    ensures !host.dead ==> Running(plan, t0, host, journal)
    ensures r.Ok? ==> RolledBackFrom(plan, t0, old(host.tree), host.tree, old(host.log), host.log, affected)
    ensures host.faults == old(host.faults) && host.index == plan.indexDigest && Clear(plan, old(host.tree), evidence)
            && !Seen(old(host.log), IndexMark(plan))
            ==> r.Ok?
    ensures r.Ok? && (host.faults == old(host.faults) || !host.frail(IndexDrifting)) ==>
              host.index == plan.indexDigest
    ensures r.Ok? ==> LeavesSeen(plan, host.tree, host.looked, affected) && ArtifactsSeen(plan, host.tree, host.looked)
  {
    hide *;
    ghost var t1, log1 := host.tree, host.log;
    r := UndoAll(host, journal, plan, t0, affected, evidence, pending);
    if !r.Ok? {
      return r;
    }
    ghost var log := host.log;
    RunningParts(plan, t0, host, journal);
    TransactionParts(plan, t0, host);
    ClearedIsShut(plan, t1, affected);
    UndoneSettled(plan, t0, t1, host.tree, log1, log, affected);
    if Clear(plan, t1, evidence) {
      ClearRestored(plan, t1, host.tree, log1, log, affected, evidence);
    }
    IndexKept(plan, t1, host.tree, log1, log, affected);
    r := ConcludeRollback(host, journal, plan, t0, affected);
    if r.Ok? {
      FromParts(plan, t0, t1, host.tree, log1, log, host.log, affected);
    }
  }

  /** The checks and records after the rollback loop. */
  method ConcludeRollback(host: Host, journal: ApplyJournal, plan: Plan, ghost t0: Tree, affected: seq<nat>)
    returns (r: Outcome<()>)
    requires Running(plan, t0, host, journal) && ValidPlan(plan) && Ascending(affected, |plan.entries|)
    requires LatestPhase(host.log) == Some(RollingBack) && !host.torn
    requires AllSettled(plan, host.tree) && ShutOutside(plan, host.tree, affected) && NoneOpen(plan, host.log)
    modifies journal, host`dead, host`faults, host`tree, host`looked, host`log, host`torn, host`stamp
    ensures host.tree == old(host.tree) && Transaction(plan, t0, host)
    ensures host.dead <==> r.Crashed?
    ensures host.faults <= old(host.faults)
    ensures !host.dead && (JournalSteady(host.frail) || host.faults == old(host.faults)) ==> host.torn == old(host.torn)
    ensures !host.dead ==> Running(plan, t0, host, journal)
    ensures r.Ok? ==> host.tree == t0 && LatestPhase(host.log) == Some(RolledBack) && FullyRestored(plan, host.tree)
    ensures r.Ok? ==> !Seen(old(host.log), IndexMark(plan))
    ensures r.Ok? && (host.faults == old(host.faults) || !host.frail(IndexDrifting)) ==>
              host.index == plan.indexDigest
    ensures r.Ok? ==> LeavesSeen(plan, host.tree, host.looked, affected) && ArtifactsSeen(plan, host.tree, host.looked)
    ensures host.faults == old(host.faults) && host.index == plan.indexDigest && FullyRestored(plan, host.tree)
            && !Seen(old(host.log), IndexMark(plan))
            ==> r.Ok?
  {
    hide *;
    RunningParts(plan, t0, host, journal);
    r := CheckRestored(host, plan, t0, affected);
    if !r.Ok? {
      if !host.dead {
        RunningIf(plan, t0, host, journal);
      }
      return r;
    }
    RunningIf(plan, t0, host, journal);
    r := RecordRolledBack(host, journal, plan, t0);
  }

  /** What a recorded rollback tells about the tree and log the loop started from. */
  ghost predicate RolledBackFrom(plan: Plan, t0: Tree, t1: Tree, t: Tree, log1: seq<Record>, log: seq<Record>,
                                 affected: seq<nat>) {
    && t == t0
    && LatestPhase(log) == Some(RolledBack)
    && !Seen(log1, IndexMark(plan))
    && forall k :: 0 <= k < |plan.entries| ==> EntryWasClear(t1, plan.entries[k])
  }

  ghost predicate EntryWasClear(t1: Tree, e: Entry) {
    && (DigestOf(e.original) != DigestOf(e.desired) ==> TemporaryAt(t1, e.path, DigestOf(e.desired)).None?)
    && (0 < |e.path| && !ParentsAbsent(t1, e) ==> Parent(e.path) in t1.dirs)
  }

  lemma IndexKept(plan: Plan, t1: Tree, t: Tree, log1: seq<Record>, log: seq<Record>, affected: seq<nat>)
    requires ValidPlan(plan) && UndoneFrom(plan, t1, t, log1, log, affected, 0)
    ensures Seen(log, IndexMark(plan)) == Seen(log1, IndexMark(plan))
  {
    hide EntryUndone, DirsUndone;
    assert Select(log, IndexMark(plan)) == Select(log1, IndexMark(plan));
  }

  lemma ClearRestored(plan: Plan, t1: Tree, t: Tree, log1: seq<Record>, log: seq<Record>, affected: seq<nat>,
                      evidence: map<Path, Digest>)
    requires ValidPlan(plan) && UndoneFrom(plan, t1, t, log1, log, affected, 0) && Clear(plan, t1, evidence)
    ensures ClearedFrom(plan, t, affected, 0) ==> FullyRestored(plan, t)
  {
    hide ProgressOf, Proven;
    forall k | 0 <= k < |plan.entries|
      ensures Settled(t, plan.entries[k].path, plan.entries[k].original) && NoArtifacts(t, plan.entries[k])
    {
      assert EntryUndone(t1, t, log1, log, plan.entries[k], k in affected[..0]);
    }
  }

  lemma FromParts(plan: Plan, t0: Tree, t1: Tree, t: Tree, log1: seq<Record>, log: seq<Record>, longer: seq<Record>,
                  affected: seq<nat>)
    requires ValidPlan(plan) && UndoneFrom(plan, t1, t, log1, log, affected, 0) && FullyRestored(plan, t)
    requires t == t0 && LatestPhase(longer) == Some(RolledBack) && !Seen(log1, IndexMark(plan))
    ensures RolledBackFrom(plan, t0, t1, t, log1, longer, affected)
  {
    hide ProgressOf, LatestPhase;
    forall k | 0 <= k < |plan.entries| ensures EntryWasClear(t1, plan.entries[k]) {
      assert EntryUndone(t1, t, log1, log, plan.entries[k], k in affected[..0]);
      assert NoArtifacts(t, plan.entries[k]);
    }
  }

  // ---- startup ----

  /** What a successful inspection found. */
  ghost predicate Inspected(plan: Plan, t: Tree, t1: Tree, log: seq<Record>, rolling: bool, affected: seq<nat>,
                            evidence: map<Path, Digest>) {
    && t1.dirs == t.dirs
    && AllUsable(plan, t, rolling)
    && SameAbandoned(plan, t, t1, rolling)
    && Resolved(plan, t1, rolling)
    && Classified(plan, t1, log, affected, |plan.entries|)
    && EvidenceIs(evidence, log, plan)
  }

  ghost predicate ParentsAccounted(plan: Plan, t: Tree, log: seq<Record>) {
    forall k :: 0 <= k < |plan.entries| ==>
      !UnprovenParent(t, log, plan.entries[k]) && !ParentLeft(t, log, plan.entries[k])
  }

  /** The first stage of recovery: resolve, collect evidence, classify. */
  method InspectEffects(host: Host, plan: Plan, ghost t0: Tree, rolling: bool, paths: LogPaths, records: seq<Record>)
    returns (r: Outcome<(seq<nat>, map<Path, Digest>)>)
    requires Transaction(plan, t0, host) && !host.dead
    requires LatestPhase(host.log) == Some(PhaseOf(rolling))
    requires records == host.log && paths == PathsInLog(host.log)
    modifies host`dead, host`faults, host`tree, host`looked
    ensures Transaction(plan, t0, host)
    ensures host.dead <==> r.Crashed?
    ensures host.faults <= old(host.faults)
    ensures r.Ok? ==> Inspected(plan, old(host.tree), host.tree, host.log, rolling, r.value.0, r.value.1)
    ensures host.faults == old(host.faults) && AllUsable(plan, old(host.tree), rolling)
            && ParentsAccounted(plan, old(host.tree), host.log)
            ==> r.Ok?
  {
    hide *;
    ghost var t := host.tree;
    var resolved := ResolveAll(host, plan, t0, rolling);
    if !resolved.Ok? {
      return match resolved case Raise(error) => Raise(error) case _ => Crashed;
    }
    TransactionParts(plan, t0, host);
    SameDirsAccounted(plan, t, host.tree, host.log);
    var collected := AllCreatedParentEvidence(records, plan, t0);
    if !collected.Ok? {
      return Raise(ValueError);
    }
    AccountedParts(plan, host.tree, host.log);
    var affected := Classify(host, plan, t0, rolling, paths, collected.value);
    TransactionIf(plan, t0, host);
    if !affected.Ok? {
      return match affected case Raise(error) => Raise(error) case _ => Crashed;
    }
    IsInspected(plan, t, host.tree, host.log, rolling, affected.value, collected.value);
    return Ok((affected.value, collected.value));
  }

  lemma SameDirsAccounted(plan: Plan, t: Tree, u: Tree, log: seq<Record>)
    requires u.dirs == t.dirs
    ensures ParentsAccounted(plan, u, log) == ParentsAccounted(plan, t, log)
  {
    hide ProgressOf, ParentProof;
    forall k | 0 <= k < |plan.entries|
      ensures UnprovenParent(t, log, plan.entries[k]) == UnprovenParent(u, log, plan.entries[k])
      ensures ParentLeft(t, log, plan.entries[k]) == ParentLeft(u, log, plan.entries[k])
    {
    }
  }

  lemma AccountedParts(plan: Plan, t: Tree, log: seq<Record>)
    ensures ParentsAccounted(plan, t, log) ==> forall k :: 0 <= k < |plan.entries| ==>
              !UnprovenParent(t, log, plan.entries[k]) && !ParentLeft(t, log, plan.entries[k])
  {
  }

  lemma IsInspected(plan: Plan, t: Tree, t1: Tree, log: seq<Record>, rolling: bool, affected: seq<nat>,
                    evidence: map<Path, Digest>)
    requires t1.dirs == t.dirs && AllUsable(plan, t, rolling) && SameAbandoned(plan, t, t1, rolling)
    requires Resolved(plan, t1, rolling) && Classified(plan, t1, log, affected, |plan.entries|)
             && EvidenceIs(evidence, log, plan)
    ensures Inspected(plan, t, t1, log, rolling, affected, evidence)
  {
  }

  /** Outside the windows an inspection succeeds and leaves a clear rollback. */
  lemma OutsideWindow(plan: Plan, t0: Tree, t: Tree, log: seq<Record>, blobs: map<Blob, Bytes>, rolling: bool)
    requires State(plan, t0, t, log, blobs) && ValidPlan(plan)
    requires LatestPhase(log) == Some(PhaseOf(rolling)) && !Window(plan, t, log)
    ensures AllUsable(plan, t, rolling) && ParentsAccounted(plan, t, log) && !Seen(log, IndexMark(plan))
  {
    hide State, ProgressOf, ParentProof, LatestPhase, Select;
    forall k | 0 <= k < |plan.entries| ensures !EntryWindow(t, log, plan.entries[k], rolling) {
    }
  }

  lemma OutsideWindowClear(plan: Plan, t: Tree, t1: Tree, log: seq<Record>, rolling: bool, affected: seq<nat>,
                           evidence: map<Path, Digest>)
    requires ValidPlan(plan) && LatestPhase(log) == Some(PhaseOf(rolling)) && !Window(plan, t, log)
    requires Inspected(plan, t, t1, log, rolling, affected, evidence)
    requires forall k :: 0 <= k < |plan.entries| ==>
               TemporaryAt(t1, plan.entries[k].path, DigestOf(plan.entries[k].original)).None?
    ensures Clear(plan, t1, evidence)
  {
    hide ProgressOf, ParentProof, LatestPhase, Select, ParentLeft, Affected, Unaffected;
    forall k | 0 <= k < |plan.entries|
      ensures Proven(t1, plan.entries[k], evidence)
      ensures TemporaryAt(t1, plan.entries[k].path, DigestOf(plan.entries[k].desired)).None?
      ensures !ParentsAbsent(t1, plan.entries[k]) ==> Parent(plan.entries[k].path) in t1.dirs
    {
      var e := plan.entries[k];
      assert !EntryWindow(t, log, e, rolling);
      assert ResolvedEntry(t1, e, rolling);
      CleanupMeansUnproven(t1, log, plan, k, evidence);
      assert !UnprovenParent(t1, log, e);
    }
  }

  /** Conversely, a recorded rollback proves that there was no window. */
  lemma RolledBackNoWindow(plan: Plan, t0: Tree, t: Tree, t1: Tree, t2: Tree, log: seq<Record>, log1: seq<Record>,
                           log2: seq<Record>,
                           blobs: map<Blob, Bytes>, rolling: bool, affected: seq<nat>, evidence: map<Path, Digest>)
    requires State(plan, t0, t, log, blobs) && ValidPlan(plan) && LatestPhase(log) == Some(PhaseOf(rolling))
    requires Inspected(plan, t, t1, log, rolling, affected, evidence)
    requires RolledBackFrom(plan, t0, t1, t2, log1, log2, affected)
    requires Seen(log, IndexMark(plan)) ==> Seen(log1, IndexMark(plan))
    ensures !Window(plan, t, log)
  {
    hide State, ProgressOf, ParentProof, LatestPhase, Select, Affected, Unaffected;
    forall k | 0 <= k < |plan.entries| ensures !EntryWindow(t, log, plan.entries[k], rolling) {
      var e := plan.entries[k];
      EntryState(plan, t0, t, log, blobs, k, rolling);
      assert EntryWasClear(t1, e);
      assert TemporaryUsable(t, e, rolling);
      assert !UnprovenParent(t1, log, e) && !ParentLeft(t1, log, e);
      NoStray(plan, t, t1, log, k, rolling);
    }
  }

  lemma NoStray(plan: Plan, t: Tree, t1: Tree, log: seq<Record>, k: nat, rolling: bool)
    requires k < |plan.entries| && EntryTree(t, plan.entries[k], rolling, ProgressOf(log, plan.entries[k]))
    requires TemporaryUsable(t, plan.entries[k], rolling) && SameAbandoned(plan, t, t1, rolling)
    requires EntryWasClear(t1, plan.entries[k])
    ensures !StrayTemporary(t, plan.entries[k], rolling)
  {
    hide ProgressOf, InFlight, Settled, Pristine;
  }

  /** Resolved entries of an applying transaction fit the rollback phase. */
  lemma ResolvedRolls(plan: Plan, t0: Tree, t: Tree, log: seq<Record>, blobs: map<Blob, Bytes>)
    requires State(plan, t0, t, log, blobs) && LatestPhase(log) == Some(PhaseOf(false)) && Resolved(plan, t, false)
    ensures PhaseTreeFor(plan, t0, t, Some(RollingBack), log, blobs)
    ensures LatestPhase(log) == Some(Applying)
  {
    hide ProgressOf, LatestPhase, Sound, SafeTree, Planned, Pristine, Settled;
    forall k | 0 <= k < |plan.entries| ensures EntryTree(t, plan.entries[k], true, ProgressOf(log, plan.entries[k])) {
      assert EntryTree(t, plan.entries[k], false, ProgressOf(log, plan.entries[k]));
      assert ResolvedEntry(t, plan.entries[k], false);
    }
  }

  /** Enters ROLLING_BACK unless the log is already there. */
  method EnterRollback(host: Host, journal: ApplyJournal, plan: Plan, ghost t0: Tree, rolling: bool)
    returns (r: Outcome<()>)
    requires Running(plan, t0, host, journal) && LatestPhase(host.log) == Some(PhaseOf(rolling))
    requires Resolved(plan, host.tree, rolling)
    modifies journal, host`dead, host`faults, host`log, host`torn, host`stamp
    ensures Transaction(plan, t0, host)
    ensures host.dead <==> r.Crashed?
    ensures host.faults <= old(host.faults)
    ensures !host.dead && (JournalSteady(host.frail) || host.faults == old(host.faults)) ==> host.torn == old(host.torn)
    ensures !host.dead ==> Running(plan, t0, host, journal)
    ensures r.Ok? ==> LatestPhase(host.log) == Some(RollingBack) && SameProgress(old(host.log), host.log, plan)
    ensures r.Ok? ==> Seen(host.log, IndexMark(plan)) == Seen(old(host.log), IndexMark(plan))
    ensures r.Ok? && !old(host.torn) ==> !host.torn
    ensures host.faults == old(host.faults) && !old(host.torn) ==> r.Ok?
  {
    hide *;
    RunningParts(plan, t0, host, journal);
    TransactionParts(plan, t0, host);
    if rolling {
      StartsRolling(host.log);
      RollingIs(host.log, plan);
      return Ok(());
    }
    ResolvedRolls(plan, t0, host.tree, host.log, host.blobs);
    RollingLine(host.log, plan);
    r := CommitPhase(host, journal, plan, t0, RollingBack);
  }

  lemma RollingIs(log: seq<Record>, plan: Plan)
    requires LatestPhase(log) == Some(PhaseOf(true))
    ensures LatestPhase(log) == Some(RollingBack) && SameProgress(log, log, plan)
  {
  }

  lemma RollingLine(log: seq<Record>, plan: Plan)
    requires ValidLog(log, plan) && LatestPhase(log) == Some(Applying)
    ensures var rec := Numbering(log, PhaseLine(RollingBack, plan));
            Accepts(log, plan, rec) && Seen(log + [rec], IndexMark(plan)) == Seen(log, IndexMark(plan))
  {
    var rec := Numbering(log, PhaseLine(RollingBack, plan));
    AppendPhase(log, plan, rec);
    SelectAppend(log, rec, IndexMark(plan));
  }

  /** Recovery from an effect phase. It concludes a rollback exactly when, undisturbed, the disk is
      outside the windows; otherwise it asks for manual recovery. */
  method RecoverEffects(host: Host, journal: ApplyJournal, plan: Plan, ghost t0: Tree, rolling: bool,
                        records: seq<Record>)
    returns (r: Outcome<Verdict>)
    requires Running(plan, t0, host, journal) && ValidPlan(plan) && !host.torn
    requires LatestPhase(host.log) == Some(PhaseOf(rolling)) && records == host.log
    modifies journal, host`dead, host`faults, host`tree, host`looked, host`log, host`torn, host`stamp
    ensures Transaction(plan, t0, host)
    ensures host.dead <==> r.Crashed?
    ensures host.faults <= old(host.faults)
    ensures !r.Raise? && r != Ok(IsApplied)
    ensures r == Ok(IsRolledBack) ==>
              host.tree == t0 && LatestPhase(host.log) == Some(RolledBack) && !Window(plan, old(host.tree), old(host.log))
    ensures host.faults == old(host.faults) && host.index == plan.indexDigest
            && !Window(plan, old(host.tree), old(host.log))
            ==> r == Ok(IsRolledBack)
    ensures r == Ok(IsRolledBack) && (host.faults == old(host.faults) || !host.frail(IndexDrifting)) ==>
              host.index == plan.indexDigest
    ensures r == Ok(NeedsRecovery) && !old(host.torn)
            && (JournalSteady(host.frail) || host.faults == old(host.faults))
            ==> LatestPhase(host.log) == Some(RecoveryRequired)
    ensures r == Ok(IsRolledBack) ==> ArtifactsSeen(plan, host.tree, host.looked)
  {
    hide *;
    ghost var t, log, blobs := host.tree, host.log, host.blobs;
    RunningParts(plan, t0, host, journal);
    TransactionParts(plan, t0, host);
    if !Window(plan, t, log) {
      OutsideWindow(plan, t0, t, log, blobs, rolling);
    }
    var paths := PathsInLog(records);
    var found := InspectEffects(host, plan, t0, rolling, paths, records);
    if host.dead {
      return Crashed;
    }
    RunningIf(plan, t0, host, journal);
    if !found.Ok? {
      r := RequireRecovery(host, journal, plan, t0);
      return;
    }
    ghost var t1 := host.tree;
    TransactionParts(plan, t0, host);
    InspectedParts(plan, t0, t, t1, log, blobs, rolling, found.value.0, found.value.1);
    var entered := EnterRollback(host, journal, plan, t0, rolling);
    if !entered.Ok? {
      if host.dead {
        return Crashed;
      }
      r := RequireRecovery(host, journal, plan, t0);
      return;
    }
    ghost var log1 := host.log;
    InitialUndone(plan, t0, t1, log, log1, blobs, found.value.0, rolling);
    AffectedUndoable(plan, t0, t1, log, log1, found.value.0, rolling);
    AscendingBounds(found.value.0, |plan.entries|);
    if !Window(plan, t, log) {
      OutsideWindowClear(plan, t, t1, log, rolling, found.value.0, found.value.1);
    }
    var undone := RollBackAffected(host, journal, plan, t0, found.value.0, found.value.1, PendingPaths(paths));
    if !undone.Ok? {
      if host.dead {
        return Crashed;
      }
      r := RequireRecovery(host, journal, plan, t0);
      return;
    }
    RolledBackNoWindow(plan, t0, t, t1, host.tree, log, log1, host.log, blobs, rolling, found.value.0, found.value.1);
    RolledBackFromParts(plan, t0, t1, host.tree, log1, host.log, found.value.0);
    return Ok(IsRolledBack);
  }

  function PendingPaths(paths: LogPaths): set<Path> {
    paths.pendingRollback
  }

  lemma InspectedParts(plan: Plan, t0: Tree, t: Tree, t1: Tree, log: seq<Record>, blobs: map<Blob, Bytes>,
                       rolling: bool,
                       affected: seq<nat>, evidence: map<Path, Digest>)
    requires State(plan, t0, t1, log, blobs) && LatestPhase(log) == Some(PhaseOf(rolling))
    requires Inspected(plan, t, t1, log, rolling, affected, evidence)
    ensures Resolved(plan, t1, rolling) && Classified(plan, t1, log, affected, |plan.entries|)
    ensures forall k :: 0 <= k < |plan.entries| ==>
              TemporaryAt(t1, plan.entries[k].path, DigestOf(plan.entries[k].original)).None?
    ensures PathsInLog(log).pendingRollback == PendingPaths(PathsInLog(log))
  {
    hide State, Resolved, Classified, TemporaryAt, LatestPhase;
    forall k | 0 <= k < |plan.entries|
      ensures TemporaryAt(t1, plan.entries[k].path, DigestOf(plan.entries[k].original)).None?
    {
      OriginalTemporaryAbsent(plan, t0, t1, log, blobs, k, rolling);
    }
  }

  lemma RolledBackFromParts(plan: Plan, t0: Tree, t1: Tree, t: Tree, log1: seq<Record>, log: seq<Record>,
                            affected: seq<nat>)
    requires RolledBackFrom(plan, t0, t1, t, log1, log, affected)
    ensures t == t0 && LatestPhase(log) == Some(RolledBack)
  {
  }

  // ---- terminal phases ----

  /** Re-verification of a log that ends in APPLIED. */
  method ConfirmApplied(host: Host, journal: ApplyJournal, plan: Plan, ghost t0: Tree) returns (r: Outcome<Verdict>)
    requires Running(plan, t0, host, journal) && LatestPhase(host.log) == Some(Applied)
    modifies journal, host`dead, host`faults, host`tree, host`looked, host`log, host`torn, host`stamp
    ensures Transaction(plan, t0, host)
    ensures host.dead <==> r.Crashed?
    ensures host.faults <= old(host.faults)
    ensures r != Ok(IsRolledBack)
    ensures r == Ok(IsApplied) ==> AppliedTree(plan, t0, host.tree) && LatestPhase(host.log) == Some(Applied)
    ensures host.faults == old(host.faults) && host.index == plan.indexDigest ==> r == Ok(IsApplied)
    ensures host.tree == old(host.tree) && SamePhaseOrStuck(old(host.log), host.log)
    ensures r == Ok(IsApplied) && (host.faults == old(host.faults) || !host.frail(IndexDrifting)) ==>
              host.index == plan.indexDigest
    ensures r == Ok(NeedsRecovery) && !old(host.torn)
            && (JournalSteady(host.frail) || host.faults == old(host.faults))
            ==> LatestPhase(host.log) == Some(RecoveryRequired)
    ensures !host.dead && host.faults == old(host.faults) ==> r.Ok?
    ensures r == Ok(IsApplied) ==> EverythingSeen(plan, host.tree, host.looked)
  {
    hide *;
    PhaseKept(host.log, host.log);
    RunningParts(plan, t0, host, journal);
    TransactionParts(plan, t0, host);
    AppliedParts(plan, t0, host.tree, host.log, host.blobs);
    var index := host.IndexDigest();
    if !index.Ok? {
      return match index case Raise(error) => Raise(error) case _ => Crashed;
    }
    var leaves := VerifyLeaves(host, plan, Everyone(plan), true, t0);
    TransactionIf(plan, t0, host);
    if host.dead {
      return Crashed;
    }
    if leaves == Ok(true) {
      ghost var looked := host.looked;
      var absent := ArtifactsAbsent(host, plan, t0);
      VisitsStay(plan, host.tree, looked, host.looked, Everyone(plan));
      TransactionIf(plan, t0, host);
      if host.dead {
        return Crashed;
      }
      if absent == Ok(true) && index.value == plan.indexDigest {
        EverythingSeenIf(plan, host.tree, host.looked);
        return Ok(IsApplied);
      }
    }
    RunningIf(plan, t0, host, journal);
    r := RequireRecovery(host, journal, plan, t0);
  }

  lemma AppliedParts(plan: Plan, t0: Tree, t: Tree, log: seq<Record>, blobs: map<Blob, Bytes>)
    requires State(plan, t0, t, log, blobs) && LatestPhase(log) == Some(Applied)
    ensures AppliedTree(plan, t0, t)
    ensures |Everyone(plan)| == |plan.entries|
    ensures forall i :: 0 <= i < |Everyone(plan)| ==>
              Everyone(plan)[i] < |plan.entries| && LeafIs(t, plan.entries[Everyone(plan)[i]], true)
    ensures forall k :: 0 <= k < |plan.entries| ==> NoArtifacts(t, plan.entries[k])
  {
    hide Sound, SafeTree, Planned, LatestPhase, Foreign;
    forall k | 0 <= k < |plan.entries| ensures NoArtifacts(t, plan.entries[k]) {
      AppliedHasNoArtifacts(plan, t0, t, k);
    }
  }

  lemma AppliedHasNoArtifacts(plan: Plan, t0: Tree, t: Tree, k: nat)
    requires AppliedTree(plan, t0, t) && k < |plan.entries|
    ensures NoArtifacts(t, plan.entries[k])
  {
    var e := plan.entries[k];
    assert OwnName(e, Quarantine(e.path));
    assert e.original.Some? ==> OwnName(e, Temporary(e.path, DigestOf(e.original).value));
    assert e.desired.Some? ==> OwnName(e, Temporary(e.path, DigestOf(e.desired).value));
  }

  /** Re-verification of a log that ends in ROLLED_BACK. */
  method ConfirmRolledBack(host: Host, journal: ApplyJournal, plan: Plan, ghost t0: Tree) returns (r: Outcome<Verdict>)
    requires Running(plan, t0, host, journal) && LatestPhase(host.log) == Some(RolledBack)
    modifies journal, host`dead, host`faults, host`tree, host`looked, host`log, host`torn, host`stamp
    ensures Transaction(plan, t0, host)
    ensures host.dead <==> r.Crashed?
    ensures host.faults <= old(host.faults)
    ensures r != Ok(IsApplied)
    ensures r == Ok(IsRolledBack) ==> host.tree == t0 && LatestPhase(host.log) == Some(RolledBack)
    ensures host.faults == old(host.faults) && host.index == plan.indexDigest ==> r == Ok(IsRolledBack)
    ensures host.tree == old(host.tree) && SamePhaseOrStuck(old(host.log), host.log)
    ensures r == Ok(IsRolledBack) && (host.faults == old(host.faults) || !host.frail(IndexDrifting)) ==>
              host.index == plan.indexDigest
    ensures r == Ok(NeedsRecovery) && !old(host.torn)
            && (JournalSteady(host.frail) || host.faults == old(host.faults))
            ==> LatestPhase(host.log) == Some(RecoveryRequired)
    ensures !host.dead && host.faults == old(host.faults) ==> r.Ok?
    ensures r == Ok(IsRolledBack) ==> EverythingSeen(plan, host.tree, host.looked)
  {
    hide *;
    PhaseKept(host.log, host.log);
    RunningParts(plan, t0, host, journal);
    TransactionParts(plan, t0, host);
    RolledBackParts(plan, t0, host.tree, host.log, host.blobs);
    var index := host.IndexDigest();
    if !index.Ok? {
      return match index case Raise(error) => Raise(error) case _ => Crashed;
    }
    var leaves := VerifyLeaves(host, plan, Everyone(plan), false, t0);
    TransactionIf(plan, t0, host);
    if host.dead {
      return Crashed;
    }
    if leaves == Ok(true) && ParentsRestored(host.tree, plan, Everyone(plan)) {
      ghost var looked := host.looked;
      var absent := ArtifactsAbsent(host, plan, t0);
      VisitsStay(plan, host.tree, looked, host.looked, Everyone(plan));
      TransactionIf(plan, t0, host);
      if host.dead {
        return Crashed;
      }
      if absent == Ok(true) && index.value == plan.indexDigest {
        EverythingSeenIf(plan, host.tree, host.looked);
        return Ok(IsRolledBack);
      }
    }
    RunningIf(plan, t0, host, journal);
    r := RequireRecovery(host, journal, plan, t0);
  }

  lemma RolledBackParts(plan: Plan, t0: Tree, t: Tree, log: seq<Record>, blobs: map<Blob, Bytes>)
    requires State(plan, t0, t, log, blobs) && LatestPhase(log) == Some(RolledBack)
    ensures t == t0
    ensures |Everyone(plan)| == |plan.entries|
    ensures forall i :: 0 <= i < |Everyone(plan)| ==>
              Everyone(plan)[i] < |plan.entries| && LeafIs(t, plan.entries[Everyone(plan)[i]], false)
    ensures ParentsRestored(t, plan, Everyone(plan))
    ensures forall k :: 0 <= k < |plan.entries| ==> NoArtifacts(t, plan.entries[k])
  {
    hide Sound, SafeTree, Planned, LatestPhase;
    forall k | 0 <= k < |plan.entries| ensures Pristine(t, plan.entries[k]) {
      PristineAtStart(plan, t0, k);
    }
  }

  /** A readable phase from which `Recover` continues an interrupted effect. */
  predicate EffectPhase(log: seq<Record>) {
    LatestPhase(log) == Some(Applying) || LatestPhase(log) == Some(RollingBack)
  }

  lemma ArtifactsAmong(plan: Plan, t: Tree, looked: set<Name>)
    ensures EverythingSeen(plan, t, looked) ==> ArtifactsSeen(plan, t, looked)
  {
  }

  /** Whether the directories are still the ones the plan recorded; an error counts as no. */
  method CheckIdentity(host: Host, journal: ApplyJournal, plan: Plan, ghost t0: Tree) returns (r: Outcome<bool>)
    requires Running(plan, t0, host, journal)
    modifies host`dead, host`faults
    ensures Transaction(plan, t0, host)
    ensures host.dead <==> r.Crashed?
    ensures host.faults <= old(host.faults)
    ensures !r.Raise?
    ensures !host.dead ==> Running(plan, t0, host, journal)
    ensures host.faults == old(host.faults) <==> r == Ok(true)
    ensures host.frail(IdentityReading) || r != Ok(false)
  {
    hide *;
    RunningParts(plan, t0, host, journal);
    TransactionParts(plan, t0, host);
    var looked := host.Tick(IdentityReading);
    TransactionIf(plan, t0, host);
    if host.dead {
      return Crashed;
    }
    RunningIf(plan, t0, host, journal);
    IdentityKept(plan, t0, host.tree);
    return Ok(looked.Ok? && IdentityMatches(host.tree, plan));
  }

  /** Recovery of a transaction whose log could be read. */
  method RecoverReadable(host: Host, journal: ApplyJournal, plan: Plan, ghost t0: Tree, latest: Option<Phase>)
    returns (r: Outcome<Verdict>)
    requires Running(plan, t0, host, journal) && !host.dead && ValidPlan(plan)
    requires !host.torn && latest == LatestPhase(host.log)
    modifies journal, host`dead, host`faults, host`tree, host`looked, host`log, host`torn, host`stamp
    ensures Transaction(plan, t0, host)
    ensures host.dead <==> r.Crashed?
    ensures host.faults <= old(host.faults)
    ensures r == Ok(IsRolledBack) ==> host.tree == t0 && LatestPhase(host.log) == Some(RolledBack)
    ensures r == Ok(IsApplied) ==> AppliedTree(plan, t0, host.tree) && LatestPhase(host.log) == Some(Applied)
    ensures latest == Some(Applied) ==> r != Ok(IsRolledBack)
    ensures latest != Some(Applied) ==> r != Ok(IsApplied)
    ensures r == Ok(IsRolledBack) ==> EffectPhase(old(host.log)) || latest == Some(RolledBack)
    ensures !EffectPhase(old(host.log)) ==> host.tree == old(host.tree) && SamePhaseOrStuck(old(host.log), host.log)
    ensures host.faults == old(host.faults) && host.index == plan.indexDigest && EffectPhase(old(host.log)) ==>
              (r == Ok(IsRolledBack) <==> !Window(plan, old(host.tree), old(host.log)))
    ensures host.faults == old(host.faults) && host.index == plan.indexDigest && latest == Some(Applied) ==>
              r == Ok(IsApplied)
    ensures host.faults == old(host.faults) && host.index == plan.indexDigest && latest == Some(RolledBack) ==>
              r == Ok(IsRolledBack)
    ensures (r == Ok(IsRolledBack) || r == Ok(IsApplied))
            && (host.faults == old(host.faults) || !host.frail(IndexDrifting)) ==>
              host.index == plan.indexDigest
    ensures r == Ok(NeedsRecovery) && !old(host.torn)
            && (JournalSteady(host.frail) || host.faults == old(host.faults))
            ==> LatestPhase(host.log) == Some(RecoveryRequired)
    ensures !host.dead && host.faults == old(host.faults) ==> r.Ok?
    ensures r == Ok(IsApplied) ==> EverythingSeen(plan, host.tree, host.looked)
    ensures r == Ok(IsRolledBack) ==> ArtifactsSeen(plan, host.tree, host.looked)
  {
    hide *;
    PhasesAre(host.log);
    RunningParts(plan, t0, host, journal);
    TransactionParts(plan, t0, host);
    PhaseKept(host.log, host.log);
    var same := CheckIdentity(host, journal, plan, t0);
    if host.dead {
      return Crashed;
    }
    if same != Ok(true) {
      r := RequireRecovery(host, journal, plan, t0);
    } else if latest == Some(Applied) {
      r := ConfirmApplied(host, journal, plan, t0);
    } else if latest == Some(RolledBack) {
      r := ConfirmRolledBack(host, journal, plan, t0);
      ArtifactsAmong(plan, host.tree, host.looked);
    } else if latest == Some(Applying) || latest == Some(RollingBack) {
      ReadableIf(journal, plan);
      var records := journal.Records();
      if !records.Ok? {
        return match records case Raise(error) => Raise(error) case _ => Crashed;
      }
      RunningIf(plan, t0, host, journal);
      r := RecoverEffects(host, journal, plan, t0, latest == Some(RollingBack), records.value);
    } else {
      r := RequireRecovery(host, journal, plan, t0);
    }
  }

  /** One recovery run over whatever is on disk. The log decides what is attempted; a verdict other
      than manual recovery is a statement about the whole tree. */
  method Recover(host: Host, ghost plan: Plan, ghost t0: Tree) returns (r: Outcome<Verdict>)
    requires Transaction(plan, t0, host) && !host.dead && ValidPlan(plan)
    modifies host`dead, host`faults, host`tree, host`looked, host`log, host`torn, host`stamp
    ensures Transaction(plan, t0, host)
    ensures host.dead <==> r.Crashed?
    ensures host.faults <= old(host.faults)
    ensures r == Ok(IsRolledBack) ==> host.tree == t0 && LatestPhase(host.log) == Some(RolledBack)
    ensures r == Ok(IsApplied) ==> AppliedTree(plan, t0, host.tree) && LatestPhase(host.log) == Some(Applied)
    ensures old(host.torn) ==> !r.Ok?
    ensures LatestPhase(old(host.log)) == Some(Applied) ==> r != Ok(IsRolledBack)
    ensures LatestPhase(old(host.log)) != Some(Applied) ==> r != Ok(IsApplied)
    ensures r == Ok(IsRolledBack) ==> EffectPhase(old(host.log)) || LatestPhase(old(host.log)) == Some(RolledBack)
    ensures !EffectPhase(old(host.log)) ==> host.tree == old(host.tree) && SamePhaseOrStuck(old(host.log), host.log)
    ensures host.faults == old(host.faults) && host.index == plan.indexDigest && !old(host.torn)
            && EffectPhase(old(host.log)) ==>
              (r == Ok(IsRolledBack) <==> !Window(plan, old(host.tree), old(host.log)))
    ensures host.faults == old(host.faults) && host.index == plan.indexDigest && !old(host.torn)
            && LatestPhase(old(host.log)) == Some(Applied)
            ==> r == Ok(IsApplied)
    ensures host.faults == old(host.faults) && host.index == plan.indexDigest && !old(host.torn)
            && LatestPhase(old(host.log)) == Some(RolledBack)
            ==> r == Ok(IsRolledBack)
    ensures (r == Ok(IsRolledBack) || r == Ok(IsApplied))
            && (host.faults == old(host.faults) || !host.frail(IndexDrifting)) ==>
              host.index == plan.indexDigest
    ensures r == Ok(NeedsRecovery) && !old(host.torn)
            && (JournalSteady(host.frail) || host.faults == old(host.faults))
            ==> LatestPhase(host.log) == Some(RecoveryRequired)
    ensures !host.dead && host.faults == old(host.faults) && !old(host.torn) ==> r.Ok?
    ensures old(host.torn) ==> host.torn && host.tree == old(host.tree) && host.log == old(host.log)
    ensures r == Ok(IsApplied) ==> EverythingSeen(plan, host.tree, host.looked)
    ensures r == Ok(IsRolledBack) ==> ArtifactsSeen(plan, host.tree, host.looked)
  {
    hide *;
    TransactionParts(plan, t0, host);
    PhasesAre(host.log);
    PhaseKept(host.log, host.log);
    var journal := new ApplyJournal(host);
    var read := journal.ReadPlan();
    if !read.Ok? {
      return match read case Raise(error) => Raise(error) case _ => Crashed;
    }
    var thePlan := read.value;
    ReadableIf(journal, plan);
    var latest := journal.ReadPhase();
    if !latest.Ok? {
      return match latest case Raise(error) => Raise(error) case _ => Crashed;
    }
    RunningIf(plan, t0, host, journal);
    r := RecoverReadable(host, journal, thePlan, t0, latest.value);
  }

  lemma ReadableIf(journal: ApplyJournal, plan: Plan)
    requires journal.host.planFile == Some(plan) && ValidLog(journal.host.log, plan)
    ensures journal.host.planFile.Some?
    ensures !journal.host.torn ==> journal.Readable()
  {
  }

  lemma PhasesAre(log: seq<Record>)
    ensures EffectPhase(log) <==> LatestPhase(log) == Some(Applying) || LatestPhase(log) == Some(RollingBack)
    ensures LatestPhase(log) == Some(Applying) ==> LatestPhase(log) == Some(PhaseOf(false))
    ensures LatestPhase(log) == Some(RollingBack) ==> LatestPhase(log) == Some(PhaseOf(true))
  {
  }
}
