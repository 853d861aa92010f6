/** The in-process rollback after a failed apply: the affected entries undone in reverse order. */
module ApplyRollback {
  import opened Wrappers
  import opened ApplyModels
  import opened TargetTree
  import opened Hosts
  import opened Directories
  import opened EntryEffects
  import opened ApplyJournals
  import opened JournalEvidence
  import opened JournalLaws
  import opened EntryProgress
  import opened TransactionTree
  import opened TransactionLog
  import opened Inspection
  import opened RecoveryUndo
  import opened RecoveryUndoAll
  import opened Recovery

  /** The affected entries show their new state; the others their old one, cleanly. */
  ghost predicate Failed(plan: Plan, t: Tree, log: seq<Record>, affected: seq<nat>) {
    && Ascending(affected, |plan.entries|)
    && ShutOutside(plan, t, affected)
    && forall k :: 0 <= k < |plan.entries| ==> FailedEntry(t, log, plan.entries[k], k in affected)
  }

  ghost predicate FailedEntry(t: Tree, log: seq<Record>, e: Entry, affected: bool) {
    if affected then
      (ProgressOf(log, e).Effecting? || ProgressOf(log, e).Effected?) && Settled(t, e.path, e.desired)
    else
      || (ProgressOf(log, e).Untouched? && Pristine(t, e))
      || (ProgressOf(log, e).Effecting? && FailedCleanly(t, e))
  }

  /** A failed apply may enter ROLLING_BACK. */
  lemma FailedRolls(plan: Plan, t0: Tree, t: Tree, log: seq<Record>, blobs: map<Blob, Bytes>, affected: seq<nat>)
    requires State(plan, t0, t, log, blobs) && LatestPhase(log) == Some(Applying) && Failed(plan, t, log, affected)
    ensures PhaseTreeFor(plan, t0, t, Some(RollingBack), log, blobs)
  {
    hide ProgressOf, LatestPhase, Sound, SafeTree, Planned, Pristine, Settled;
    forall k | 0 <= k < |plan.entries| ensures EntryTree(t, plan.entries[k], true, ProgressOf(log, plan.entries[k])) {
      assert FailedEntry(t, log, plan.entries[k], k in affected);
    }
  }

  lemma FailedUndone(plan: Plan, t0: Tree, t: Tree, log0: seq<Record>, log: seq<Record>, affected: seq<nat>)
    requires ValidPlan(plan) && WellFormed(t) && Failed(plan, t, log0, affected) && SameProgress(log0, log, plan)
    ensures UndoneFrom(plan, t, t, log, log, affected, |affected|)
  {
    hide ProgressOf, LatestPhase;
    assert affected[..|affected|] == affected;
    forall k | 0 <= k < |plan.entries| ensures EntryUndone(t, t, log, log, plan.entries[k], k in affected) {
      assert FailedEntry(t, log0, plan.entries[k], k in affected);
      ShutHasParent(t, plan.entries[k]);
    }
  }

  lemma ShutHasParent(t: Tree, e: Entry)
    requires WellFormed(t) && 0 < |e.path|
    ensures TemporaryAt(t, e.path, DigestOf(e.desired)).Some? ==> Parent(e.path) in t.dirs
  {
  }

  /** An entry the in-process rollback still has to undo. */
  ghost predicate AwaitsUndo(t: Tree, log: seq<Record>, e: Entry) {
    (ProgressOf(log, e).Effecting? || ProgressOf(log, e).Effected?) && ShowsEither(t, e)
  }

  /** Undoes one entry with its two records, whether or not its leaf still needs restoring. */
  method UndoApplied(host: Host, journal: ApplyJournal, plan: Plan, ghost t0: Tree, k: nat, evidence: map<Path, Digest>)
    returns (r: Outcome<()>)
    requires Running(plan, t0, host, journal) && k < |plan.entries| && 0 < |plan.entries[k].path|
    requires LatestPhase(host.log) == Some(RollingBack) && AwaitsUndo(host.tree, host.log, plan.entries[k])
    modifies journal, host`dead, host`faults, host`tree, host`looked, host`log, host`torn, host`stamp
    ensures Transaction(plan, t0, host)
    ensures host.dead <==> r.Crashed?
    ensures host.faults <= old(host.faults)
    ensures !host.dead && (JournalSteady(host.frail) || host.faults == old(host.faults)) ==> host.torn == old(host.torn)
    ensures !host.dead ==> Running(plan, t0, host, journal)
    ensures r.Ok? ==> !host.torn
    ensures r.Ok? ==> UndoOutcome(plan, old(host.tree), host.tree, old(host.log), host.log, k, evidence)
    ensures host.faults == old(host.faults) && !old(host.torn)
            && UndoReady(old(host.tree), plan.entries[k], evidence)
            ==> r.Ok?
  {
    hide *;
    ghost var t, log := host.tree, host.log;
    var e := plan.entries[k];
    RunningParts(plan, t0, host, journal);
    TransactionParts(plan, t0, host);
    StartsRolling(log);
    EntryState(plan, t0, t, log, host.blobs, k, true);
    PendingParts(t, log, e);
    var current := TakeSnapshot(host, e.path);
    TransactionIf(plan, t0, host);
    if host.dead {
      return Crashed;
    }
    RunningIf(plan, t0, host, journal);
    if !current.Ok? {
      return Raise(ApplyFailure);
    }
    var restoreRequired := current.value == e.desired || !ParentsRestored(host.tree, plan, [k]);
    if restoreRequired && UndoReady(t, e, evidence) {
      ReadyParts(plan, t0, t, k, evidence);
    }
    if current.value != e.desired && current.value != e.original {
      return Raise(ApplyFailure);
    }
    r := CommitRollbackPending(host, journal, plan, t0, k);
    if !r.Ok? {
      return r;
    }
    ghost var mid := host.log;
    StillReverting(log, mid, plan, k);
    if restoreRequired {
      r := UndoPending(host, journal, plan, t0, k, evidence);
      if r.Ok? {
        RestoredOutcome(plan, t, host.tree, log, mid, host.log, k, evidence);
      }
      return r;
    }
    NoParentsToRestore(plan, t, k);
    r := SettleUndone(host, journal, plan, t0, k);
    if r.Ok? {
      AdvancedTwice(log, mid, host.log, plan, k);
      NothingToRestore(plan, t, log, host.log, k, evidence, true);
    }
  }

  /** Reads an entry that needs no restoring once more and records it as undone. */
  method SettleUndone(host: Host, journal: ApplyJournal, plan: Plan, ghost t0: Tree, k: nat) returns (r: Outcome<()>)
    requires Running(plan, t0, host, journal) && k < |plan.entries| && 0 < |plan.entries[k].path|
    requires LatestPhase(host.log) == Some(RollingBack) && ProgressOf(host.log, plan.entries[k]).Reverting?
    requires Settled(host.tree, plan.entries[k].path, plan.entries[k].original)
    modifies journal, host`dead, host`faults, host`tree, host`looked, host`log, host`torn, host`stamp
    ensures host.tree == old(host.tree) && Transaction(plan, t0, host)
    ensures host.dead <==> r.Crashed?
    ensures host.faults <= old(host.faults)
    ensures !host.dead && (JournalSteady(host.frail) || host.faults == old(host.faults)) ==> host.torn == old(host.torn)
    ensures !host.dead ==> Running(plan, t0, host, journal)
    ensures r.Ok? ==> Advanced(old(host.log), host.log, plan, k, Reverted) && !host.torn
    ensures host.faults == old(host.faults) && !old(host.torn) ==> r.Ok?
  {
    hide *;
    var e := plan.entries[k];
    RunningParts(plan, t0, host, journal);
    TransactionParts(plan, t0, host);
    StartsRolling(host.log);
    EntryState(plan, t0, host.tree, host.log, host.blobs, k, true);
    SettledLeaf(host.tree, e);
    var seen := TakeSnapshot(host, e.path);
    TransactionIf(plan, t0, host);
    if host.dead {
      return Crashed;
    }
    RunningIf(plan, t0, host, journal);
    if seen != Ok(e.original) {
      return Raise(ApplyFailure);
    }
    r := CommitUndone(host, journal, plan, t0, k);
  }

  lemma SettledLeaf(t: Tree, e: Entry)
    requires Settled(t, e.path, e.original)
    ensures LeafAt(t, e.path) == e.original
  {
  }

  /** What a ready undo needs of the directory: it is there whenever something has to be restored. */
  lemma ReadyParts(plan: Plan, t0: Tree, t: Tree, k: nat, evidence: map<Path, Digest>)
    requires Planned(plan, t0) && SafeTree(plan, t0, t) && k < |plan.entries| && 0 < |plan.entries[k].path|
    requires UndoReady(t, plan.entries[k], evidence)
             && (LeafAt(t, plan.entries[k].path) == plan.entries[k].desired || !ParentsRestored(t, plan, [k]))
    ensures Parent(plan.entries[k].path) in t.dirs
    ensures TemporaryAt(t, plan.entries[k].path, DigestOf(plan.entries[k].original)).None?
  {
    hide Planned, SafeTree;
    if LeafAt(t, plan.entries[k].path) == plan.entries[k].desired {
      LeafHasParent(plan, t0, t, k);
    }
  }

  lemma PendingParts(t: Tree, log: seq<Record>, e: Entry)
    requires AwaitsUndo(t, log, e)
    ensures ProgressOf(log, e).Effecting? || ProgressOf(log, e).Effected?
    ensures ShowsEither(t, e)
    ensures LeafAt(t, e.path) == e.original ==> Settled(t, e.path, e.original)
    ensures LeafAt(t, e.path) == e.original || LeafAt(t, e.path) == e.desired
  {
  }

  lemma NoParentsToRestore(plan: Plan, t: Tree, k: nat)
    requires k < |plan.entries|
    ensures ParentsRestored(t, plan, [k]) ==> ParentsAbsent(t, plan.entries[k])
  {
    assert [k][0] == k;
  }

  lemma RemainingPending(plan: Plan, t1: Tree, t: Tree, log1: seq<Record>, log: seq<Record>, affected: seq<nat>, i: nat)
    requires ValidPlan(plan) && Ascending(affected, |plan.entries|) && i < |affected|
    requires UndoneFrom(plan, t1, t, log1, log, affected, i + 1)
    requires AwaitsUndo(t1, log1, plan.entries[affected[i]])
    ensures AwaitsUndo(t, log, plan.entries[affected[i]])
  {
    hide ProgressOf;
    var k := affected[i];
    assert affected[..i + 1][i] == k;
    assert EntryUndone(t1, t, log1, log, plan.entries[k], k in affected[..i + 1]);
  }

  method UndoAllApplied(host: Host, journal: ApplyJournal, plan: Plan, ghost t0: Tree, affected: seq<nat>,
                        evidence: map<Path, Digest>)
    returns (r: Outcome<()>)
    requires Running(plan, t0, host, journal) && ValidPlan(plan) && !host.torn
    requires LatestPhase(host.log) == Some(RollingBack) && Ascending(affected, |plan.entries|)
    requires UndoneFrom(plan, host.tree, host.tree, host.log, host.log, affected, |affected|)
    requires forall i :: 0 <= i < |affected| ==> AwaitsUndo(host.tree, host.log, plan.entries[affected[i]])
    modifies journal, host`dead, host`faults, host`tree, host`looked, host`log, host`torn, host`stamp
    ensures Transaction(plan, t0, host)
    ensures host.dead <==> r.Crashed?
    ensures host.faults <= old(host.faults)
    ensures !host.dead && (JournalSteady(host.frail) || host.faults == old(host.faults)) ==> host.torn == old(host.torn)
    ensures !host.dead ==> Running(plan, t0, host, journal)
    ensures r.Ok? ==> !host.torn && LatestPhase(host.log) == Some(RollingBack)
    ensures r.Ok? ==> UndoneFrom(plan, old(host.tree), host.tree, old(host.log), host.log, affected, 0)
    ensures host.faults == old(host.faults) && Clear(plan, old(host.tree), evidence)
            && ClearedFrom(plan, old(host.tree), affected, |affected|)
            ==> r.Ok? && ClearedFrom(plan, host.tree, affected, 0)
  {
    hide *;
    ghost var t1, log1 := host.tree, host.log;
    ghost var clear := Clear(plan, t1, evidence) && ClearedFrom(plan, t1, affected, |affected|);
    RunningParts(plan, t0, host, journal);
    var i := |affected|;
    while 0 < i
      invariant 0 <= i <= |affected|
      invariant Running(plan, t0, host, journal) && !host.dead && host.faults <= old(host.faults) && !host.torn
      invariant LatestPhase(host.log) == Some(RollingBack)
      invariant UndoneFrom(plan, t1, host.tree, log1, host.log, affected, i)
      invariant host.faults == old(host.faults) && clear ==> ClearedFrom(plan, host.tree, affected, i)
    {
      i := i - 1;
      ghost var t, log := host.tree, host.log;
      AscendingAt(affected, |plan.entries|, i);
      EntryPathNonEmpty(plan, affected[i]);
      RunningParts(plan, t0, host, journal);
      TransactionParts(plan, t0, host);
      RemainingPending(plan, t1, t, log1, log, affected, i);
      if clear {
        StepReady(plan, t0, t1, t, log1, log, affected, i, evidence);
      }
      r := UndoApplied(host, journal, plan, t0, affected[i], evidence);
      if !r.Ok? {
        return r;
      }
      TransactionParts(plan, t0, host);
      if host.faults == old(host.faults) && clear {
        StepRemovable(plan, t0, t1, t, host.tree, log1, log, host.log, affected, i, evidence);
      }
      OutcomeParts(plan, t, host.tree, log, host.log, affected[i], evidence);
      UndoStep(plan, t0, t1, t, host.tree, log1, log, host.log, affected, i, evidence);
    }
    RunningParts(plan, t0, host, journal);
    return Ok(());
  }

  /** The rollback of a failed apply: ROLLED_BACK with the old tree, or manual recovery. */
  method RollBackApply(host: Host, journal: ApplyJournal, plan: Plan, ghost t0: Tree, affected: seq<nat>,
                       evidence: map<Path, Digest>)
    returns (r: Outcome<Verdict>)
    requires Running(plan, t0, host, journal) && ValidPlan(plan) && !host.torn
    requires LatestPhase(host.log) == Some(Applying) && Failed(plan, host.tree, host.log, affected)
    modifies journal, host`dead, host`faults, host`tree, host`looked, host`log, host`torn, host`stamp
    ensures Transaction(plan, t0, host)
    ensures host.dead <==> r.Crashed?
    ensures host.faults <= old(host.faults)
    ensures !r.Raise? && r != Ok(IsApplied)
    ensures r == Ok(IsRolledBack) ==> host.tree == t0 && LatestPhase(host.log) == Some(RolledBack)
    ensures host.faults == old(host.faults) && host.index == plan.indexDigest
            && Clear(plan, old(host.tree), evidence) ==>
              r == Ok(IsRolledBack)
    ensures r == Ok(IsRolledBack) && (host.faults == old(host.faults) || !host.frail(IndexDrifting)) ==>
              host.index == plan.indexDigest
    ensures r == Ok(NeedsRecovery) && !old(host.torn)
            && (JournalSteady(host.frail) || host.faults == old(host.faults))
            ==> LatestPhase(host.log) == Some(RecoveryRequired)
    ensures r == Ok(IsRolledBack) ==>
              LeavesSeen(plan, host.tree, host.looked, affected) && ArtifactsSeen(plan, host.tree, host.looked)
  {
    hide *;
    ghost var t, log := host.tree, host.log;
    RunningParts(plan, t0, host, journal);
    TransactionParts(plan, t0, host);
    FailedRolls(plan, t0, t, log, host.blobs, affected);
    NoIndexMarkYet(log, plan);
    RollingLine(log, plan);
    var entered := CommitPhase(host, journal, plan, t0, RollingBack);
    if host.dead {
      return Crashed;
    }
    if entered.Ok? {
      FailedUndone(plan, t0, t, log, host.log, affected);
      FailedPending(plan, t, log, host.log, affected);
      var finished := FinishRollback(host, journal, plan, t0, affected, evidence);
      if host.dead {
        return Crashed;
      }
      if finished.Ok? {
        return Ok(IsRolledBack);
      }
    }
    r := RequireRecovery(host, journal, plan, t0);
  }

  lemma NoIndexMarkYet(log: seq<Record>, plan: Plan)
    requires ValidLog(log, plan) && LatestPhase(log) == Some(Applying)
    ensures !Seen(log, IndexMark(plan))
  {
    hide LatestPhase;
    if Seen(log, IndexMark(plan)) {
      SelectedFromLog(log, IndexMark(plan), 0);
      var i :| 0 <= i < |log| && log[i] == Select(log, IndexMark(plan))[0];
      assert RecordOk(log, plan, i);
      NoRollbackBeforeRolling(log, plan, i);
    }
  }

  lemma ClearOutside(plan: Plan, t: Tree, affected: seq<nat>, evidence: map<Path, Digest>)
    requires ValidPlan(plan) && Clear(plan, t, evidence) && ShutOutside(plan, t, affected)
    ensures ClearedFrom(plan, t, affected, |affected|)
  {
    hide Proven, ParentsAbsent;
    assert affected[..|affected|] == affected;
  }

  lemma FailedPending(plan: Plan, t: Tree, log0: seq<Record>, log: seq<Record>, affected: seq<nat>)
    requires Failed(plan, t, log0, affected) && SameProgress(log0, log, plan)
    ensures Ascending(affected, |plan.entries|) && ShutOutside(plan, t, affected)
    ensures forall i :: 0 <= i < |affected| ==>
              affected[i] < |plan.entries| && AwaitsUndo(t, log, plan.entries[affected[i]])
  {
    hide ProgressOf, Pristine;
    forall i | 0 <= i < |affected|
      ensures affected[i] < |plan.entries| && AwaitsUndo(t, log, plan.entries[affected[i]])
    {
      assert FailedEntry(t, log0, plan.entries[affected[i]], affected[i] in affected);
    }
  }

  method FinishRollback(host: Host, journal: ApplyJournal, plan: Plan, ghost t0: Tree, affected: seq<nat>,
                        evidence: map<Path, Digest>)
    returns (r: Outcome<()>)
    requires Running(plan, t0, host, journal) && ValidPlan(plan) && !host.torn
    requires LatestPhase(host.log) == Some(RollingBack)
    requires Ascending(affected, |plan.entries|) && ShutOutside(plan, host.tree, affected)
    requires UndoneFrom(plan, host.tree, host.tree, host.log, host.log, affected, |affected|)
    requires forall i :: 0 <= i < |affected| ==>
               affected[i] < |plan.entries| && AwaitsUndo(host.tree, host.log, plan.entries[affected[i]])
    modifies journal, host`dead, host`faults, host`tree, host`looked, host`log, host`torn, host`stamp
    ensures Transaction(plan, t0, host)
    ensures host.dead <==> r.Crashed?
    ensures host.faults <= old(host.faults)
    ensures !host.dead && (JournalSteady(host.frail) || host.faults == old(host.faults)) ==> host.torn == old(host.torn)
    ensures !host.dead ==> Running(plan, t0, host, journal)
    ensures r.Ok? ==> host.tree == t0 && LatestPhase(host.log) == Some(RolledBack)
    ensures host.faults == old(host.faults) && host.index == plan.indexDigest && Clear(plan, old(host.tree), evidence)
            && !Seen(old(host.log), IndexMark(plan))
            ==> r.Ok?
    ensures r.Ok? && (host.faults == old(host.faults) || !host.frail(IndexDrifting)) ==>
              host.index == plan.indexDigest
    ensures r.Ok? ==> LeavesSeen(plan, host.tree, host.looked, affected) && ArtifactsSeen(plan, host.tree, host.looked)
  {
    hide *;
    ghost var t1, log1 := host.tree, host.log;
    if Clear(plan, t1, evidence) {
      ClearOutside(plan, t1, affected, evidence);
    }
    r := UndoAllApplied(host, journal, plan, t0, affected, evidence);
    if !r.Ok? {
      return r;
    }
    RunningParts(plan, t0, host, journal);
    TransactionParts(plan, t0, host);
    UndoneSettled(plan, t0, t1, host.tree, log1, host.log, affected);
    if Clear(plan, t1, evidence) {
      ClearRestored(plan, t1, host.tree, log1, host.log, affected, evidence);
    }
    IndexKept(plan, t1, host.tree, log1, host.log, affected);
    r := CheckRestored(host, plan, t0, affected);
    if host.dead {
      return Crashed;
    }
    RunningIf(plan, t0, host, journal);
    if !r.Ok? {
      return Raise(ApplyFailure);
    }
    var same := CheckIdentity(host, journal, plan, t0);
    if host.dead {
      return Crashed;
    }
    if same != Ok(true) {
      return Raise(ApplyFailure);
    }
    r := RecordRolledBack(host, journal, plan, t0);
  }
}
