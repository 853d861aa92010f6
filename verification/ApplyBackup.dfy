/** The preparation of an apply: plan, payloads and backups on disk before the first effect. */
module ApplyBackup {
  import opened Wrappers
  import opened ApplyModels
  import opened TargetTree
  import opened Hosts
  import opened EntryEffects
  import opened ApplyJournals
  import opened JournalEvidence
  import opened JournalLaws
  import opened EntryProgress
  import opened TransactionTree
  import opened TransactionLog
  import opened Inspection
  import opened ApplyRun

  // ---- what the log shows before the effect phase ----

  /** APPLYING was reached at some time. */
  predicate EffectsBegun(log: seq<Record>) {
    exists i :: 0 <= i < |log| && log[i].phase == Some(Applying)
  }

  lemma EarlyNotBegun(log: seq<Record>, plan: Plan)
    requires ValidLog(log, plan)
    requires LatestPhase(log) == None || LatestPhase(log) == Some(Preparing) || LatestPhase(log) == Some(BackupReady)
    ensures !EffectsBegun(log)
    ensures !EffectsBegun(log + [Numbering(log, PhaseLine(RecoveryRequired, plan))])
  {
    if i :| 0 <= i < |log| && log[i].phase == Some(Applying) {
      PhaseHistory(log, plan, i);
    }
  }

  lemma EarlyTree(plan: Plan, t0: Tree, t: Tree, log: seq<Record>, blobs: map<Blob, Bytes>)
    requires State(plan, t0, t, log, blobs)
    requires LatestPhase(log) == Some(Preparing) || LatestPhase(log) == Some(BackupReady)
    ensures t == t0
  {
    hide Sound, Planned, SafeTree, LatestPhase;
  }

  /** No effect is announced before APPLYING is reached. */
  lemma NothingBeforeApplying(log: seq<Record>, plan: Plan, p: Path)
    requires ValidLog(log, plan)
    requires LatestPhase(log) == None || LatestPhase(log) == Some(Preparing) || LatestPhase(log) == Some(BackupReady)
    ensures !Seen(log, EffectPending(p))
  {
    if Seen(log, EffectPending(p)) {
      SelectedFromLog(log, EffectPending(p), 0);
      var i :| 0 <= i < |log| && log[i] == Select(log, EffectPending(p))[0];
      assert RecordOk(log, plan, i);
      LatestIsRecorded(log[..i]);
      var j :| 0 <= j < i && log[..i][j].phase == LatestPhase(log[..i]);
      PhaseHistory(log, plan, j);
    }
  }

  lemma UntouchedBeforeApplying(log: seq<Record>, plan: Plan, k: nat)
    requires Sound(log, plan) && k < |plan.entries|
    requires LatestPhase(log) == None || LatestPhase(log) == Some(Preparing) || LatestPhase(log) == Some(BackupReady)
    ensures ProgressOf(log, plan.entries[k]).Untouched?
  {
    hide ValidLog, LatestPhase, Select;
    NothingBeforeApplying(log, plan, plan.entries[k].path);
    assert EntryChain(log, plan.entries[k]);
  }

  // ---- creating the journal ----

  /** No transaction directory exists yet. */
  ghost predicate Fresh(plan: Plan, t0: Tree, host: Host)
    reads host`planFile, host`stamp, host`log, host`torn, host`tree, host`blobs
  {
    && Planned(plan, t0)
    && host.planFile.None? && host.stamp == 0 && host.log == [] && !host.torn && host.blobs == map[]
    && host.tree == t0
  }

  lemma EmptyState(plan: Plan, t0: Tree, blobs: map<Blob, Bytes>)
    requires Planned(plan, t0)
    ensures State(plan, t0, t0, [], blobs)
  {
    assert SafeTree(plan, t0, t0);
  }

  lemma FreshParts(plan: Plan, t0: Tree, host: Host)
    requires Fresh(plan, t0, host)
    ensures Planned(plan, t0) && ValidPlan(plan)
    ensures host.planFile.None? && host.stamp == 0 && host.log == [] && !host.torn && host.blobs == map[]
            && host.tree == t0
    ensures LatestPhase([]) == None
  {
  }

  lemma FreshIf(plan: Plan, t0: Tree, host: Host)
    requires Planned(plan, t0) && host.planFile.None? && host.stamp == 0 && host.log == [] && !host.torn
    requires host.blobs == map[] && host.tree == t0
    ensures Fresh(plan, t0, host)
  {
  }

  /** The first record of a log. */
  lemma PreparingAccepted(plan: Plan)
    ensures Accepts([], plan, Numbering([], PhaseLine(Preparing, plan)))
    ensures LatestPhase([]) == None
  {
    AppendPhase([], plan, Numbering([], PhaseLine(Preparing, plan)));
  }

  // ---- backups ----

  /** Entries before `i` are backed up in log and blobs, the others not begun. */
  ghost predicate BackedUpTo(plan: Plan, log: seq<Record>, blobs: map<Blob, Bytes>, i: nat) {
    && LatestPhase(log) == Some(Preparing)
    && (forall j :: 0 <= j < |plan.entries| ==>
         if j < i then
           && EntryBackedUp(log, plan.entries[j], |log| + 1)
           && BackupSaved(blobs, plan.entries[j]) && PayloadReady(blobs, plan.entries[j])
         else
           NoBackupYet(log, plan.entries[j]))
    && forall b :: b in blobs ==> 0 < b.order <= i
  }

  predicate NoBackupYet(log: seq<Record>, e: Entry) {
    !Seen(log, BackupPending(e.path)) && !Seen(log, BackupVerified(e.path, DigestOf(e.original)))
  }

  /** A backup record concerns no effect and no created parent. */
  lemma BackupLine(plan: Plan, t0: Tree, t: Tree, log: seq<Record>, blobs: map<Blob, Bytes>, k: nat, m: Mark)
    requires ValidPlan(plan) && k < |plan.entries| && LatestPhase(log) == Some(Preparing)
    requires PhaseTree(plan, t0, t, log, blobs)
    requires m == BackupPending(plan.entries[k].path)
             || m == BackupVerified(plan.entries[k].path, DigestOf(plan.entries[k].original))
    ensures var rec := Numbering(log, MarkLine(m));
            && Accepts(log, plan, rec) && Orderly(log, plan, rec)
            && PhaseTree(plan, t0, t, log + [rec], blobs)
            && LatestPhase(log + [rec]) == Some(Preparing)
  {
    hide ProgressOf;
    EntryForMember(plan, k);
    LatestAppend(log, Numbering(log, MarkLine(m)));
  }

  method CommitBackup(host: Host, journal: ApplyJournal, plan: Plan, ghost t0: Tree, k: nat, m: Mark)
    returns (r: Outcome<()>)
    requires Running(plan, t0, host, journal) && k < |plan.entries| && LatestPhase(host.log) == Some(Preparing)
    requires m == BackupPending(plan.entries[k].path)
             || m == BackupVerified(plan.entries[k].path, DigestOf(plan.entries[k].original))
    modifies journal, host`dead, host`faults, host`log, host`torn, host`stamp
    ensures Transaction(plan, t0, host)
    ensures host.dead <==> r.Crashed?
    ensures host.faults <= old(host.faults)
    ensures !host.dead && (JournalSteady(host.frail) || host.faults == old(host.faults)) ==> host.torn == old(host.torn)
    ensures JournalSteady(host.frail) && r.Ok? ==> host.faults == old(host.faults)
    ensures !host.dead ==> Running(plan, t0, host, journal)
    ensures r.Ok? ==> host.log == old(host.log) + [Numbering(old(host.log), MarkLine(m))] && !host.torn
    ensures LatestPhase(host.log) == Some(Preparing)
    ensures host.faults == old(host.faults) && !old(host.torn) ==> r.Ok?
  {
    hide Sound, Planned, SafeTree, PhaseTree, Accepts, Orderly, State, LatestPhase, ValidPlan, ValidLog;
    TransactionParts(plan, t0, host);
    BackupLine(plan, t0, host.tree, host.log, host.blobs, k, m);
    r := Commit(host, journal, MarkLine(m), plan, t0);
  }

  /** Writing blobs changes neither tree nor log. */
  lemma BlobsKeepState(plan: Plan, t0: Tree, t: Tree, log: seq<Record>, blobs: map<Blob, Bytes>, more: map<Blob, Bytes>)
    requires State(plan, t0, t, log, blobs) && LatestPhase(log) == Some(Preparing)
    ensures State(plan, t0, t, log, more) && t == t0
  {
    hide Sound, Planned, SafeTree, LatestPhase;
  }

  /** Writes one blob of the transaction directory. */
  method SaveBlob(host: Host, journal: ApplyJournal, plan: Plan, ghost t0: Tree, b: Blob, content: Bytes)
    returns (r: Outcome<()>)
    requires Running(plan, t0, host, journal) && LatestPhase(host.log) == Some(Preparing)
    modifies host`dead, host`faults, host`blobs
    ensures Transaction(plan, t0, host)
    ensures host.dead <==> r.Crashed?
    ensures host.faults <= old(host.faults)
    ensures r.Ok? ==> host.faults == old(host.faults)
    ensures !host.dead ==> Running(plan, t0, host, journal)
    ensures r.Ok? ==> host.blobs == old(host.blobs)[b := content]
    ensures host.faults == old(host.faults) && b !in old(host.blobs) ==> r.Ok?
  {
    hide *;
    RunningParts(plan, t0, host, journal);
    TransactionParts(plan, t0, host);
    r := host.WriteBlob(b, content);
    BlobsKeepState(plan, t0, host.tree, host.log, old(host.blobs), host.blobs);
    TransactionIf(plan, t0, host);
    if !host.dead {
      RunningIf(plan, t0, host, journal);
    }
  }

  /** The payload, and the record that announces the backup. */
  method AnnounceBackup(host: Host, journal: ApplyJournal, plan: Plan, ghost t0: Tree, k: nat) returns (r: Outcome<()>)
    requires Running(plan, t0, host, journal) && ValidPlan(plan) && k < |plan.entries|
    requires !host.torn && BackedUpTo(plan, host.log, host.blobs, k)
    modifies journal, host`dead, host`faults, host`log, host`torn, host`stamp, host`blobs
    ensures Transaction(plan, t0, host)
    ensures host.dead <==> r.Crashed?
    ensures host.faults <= old(host.faults)
    ensures !host.dead && (JournalSteady(host.frail) || host.faults == old(host.faults)) ==> host.torn == old(host.torn)
    ensures JournalSteady(host.frail) && r.Ok? ==> host.faults == old(host.faults)
    ensures !host.dead ==> Running(plan, t0, host, journal)
    ensures LatestPhase(host.log) == Some(Preparing)
    ensures r.Ok? ==>
              host.log == old(host.log) + [Numbering(old(host.log), MarkLine(BackupPending(plan.entries[k].path)))] && !host.torn
    ensures r.Ok? ==> host.blobs == PayloadSaved(old(host.blobs), plan.entries[k])
    ensures host.faults == old(host.faults) ==> r.Ok?
  {
    hide *;
    var e := plan.entries[k];
    PreparingFacts(plan, t0, host, journal, k);
    PayloadSavedIs(host.blobs, e);
    if e.desired.Some? {
      r := SaveBlob(host, journal, plan, t0, Payload(e.order), e.desired.value.content);
      if !r.Ok? {
        return r;
      }
    }
    r := CommitBackup(host, journal, plan, t0, k, BackupPending(e.path));
  }

  function PayloadSaved(blobs: map<Blob, Bytes>, e: Entry): map<Blob, Bytes> {
    if e.desired.Some? then blobs[Payload(e.order) := e.desired.value.content] else blobs
  }

  lemma PayloadSavedIs(blobs: map<Blob, Bytes>, e: Entry)
    ensures PayloadSaved(blobs, e) == if e.desired.Some? then blobs[Payload(e.order) := e.desired.value.content] else blobs
    ensures Backup(e.order) in PayloadSaved(blobs, e) <==> Backup(e.order) in blobs
  {
  }

  /** Payload, pending record, backup, check of the target, verified record. */
  method BackUpEntry(host: Host, journal: ApplyJournal, plan: Plan, ghost t0: Tree, k: nat) returns (r: Outcome<()>)
    requires Running(plan, t0, host, journal) && ValidPlan(plan) && k < |plan.entries|
    requires !host.torn && BackedUpTo(plan, host.log, host.blobs, k)
    modifies journal, host`dead, host`faults, host`tree, host`looked, host`log, host`torn, host`stamp, host`blobs
    ensures Transaction(plan, t0, host)
    ensures host.dead <==> r.Crashed?
    ensures host.faults <= old(host.faults)
    ensures !host.dead && (JournalSteady(host.frail) || host.faults == old(host.faults)) ==> host.torn == old(host.torn)
    ensures JournalSteady(host.frail) && r.Ok? ==> host.faults == old(host.faults)
    ensures !host.dead ==> Running(plan, t0, host, journal)
    ensures LatestPhase(host.log) == Some(Preparing)
    ensures r.Ok? ==> !host.torn && BackedUpTo(plan, host.log, host.blobs, k + 1)
    ensures host.faults == old(host.faults) ==> r.Ok?
    ensures r.Ok? ==> Visited(host.tree, host.looked, Leaf(plan.entries[k].path))
    ensures old(host.looked) <= host.looked
  {
    hide *;
    ghost var log, blobs := host.log, host.blobs;
    var e := plan.entries[k];
    PreparingFacts(plan, t0, host, journal, k);
    PayloadSavedIs(blobs, e);
    r := AnnounceBackup(host, journal, plan, t0, k);
    if !r.Ok? {
      return r;
    }
    ghost var log1, mid := host.log, host.blobs;
    if e.original.Some? {
      r := SaveBlob(host, journal, plan, t0, Backup(e.order), e.original.value.content);
      if !r.Ok? {
        return r;
      }
    }
    PreparingTree(plan, t0, host, journal, k);
    var seen := TakeSnapshot(host, e.path);
    TransactionIf(plan, t0, host);
    if host.dead {
      return Crashed;
    }
    RunningIf(plan, t0, host, journal);
    if seen != Ok(e.original) {
      return Raise(ApplyFailure);
    }
    r := CommitBackup(host, journal, plan, t0, k, BackupVerified(e.path, DigestOf(e.original)));
    if r.Ok? {
      BlobsWritten(e, blobs, mid, host.blobs);
      BackedUpStep(plan, log, log1, host.log, blobs, host.blobs, k);
    }
  }

  lemma PreparingFacts(plan: Plan, t0: Tree, host: Host, journal: ApplyJournal, k: nat)
    requires Running(plan, t0, host, journal) && ValidPlan(plan) && k < |plan.entries|
    requires BackedUpTo(plan, host.log, host.blobs, k)
    ensures LatestPhase(host.log) == Some(Preparing) && journal.host == host && !host.dead
    ensures Payload(plan.entries[k].order) !in host.blobs && Backup(plan.entries[k].order) !in host.blobs
  {
  }

  lemma PreparingTree(plan: Plan, t0: Tree, host: Host, journal: ApplyJournal, k: nat)
    requires Running(plan, t0, host, journal) && k < |plan.entries| && LatestPhase(host.log) == Some(Preparing)
    ensures !host.dead && journal.Valid() && journal.host == host && host.planFile == Some(plan)
    ensures host.stamp == 0 ==> host.log == [] && !host.torn
    ensures State(plan, t0, host.tree, host.log, host.blobs)
    ensures WellFormed(host.tree) && 0 < |plan.entries[k].path|
    ensures LeafAt(host.tree, plan.entries[k].path) == plan.entries[k].original
    ensures plan.entries[k].path !in host.tree.dirs && Directories.Unobstructed(host.tree, plan.entries[k].path)
  {
    hide Sound, Directories.Unobstructed;
    StateParts(plan, t0, host.tree, host.log, host.blobs);
    EntryIsInspectable(plan, t0, host.tree, k);
    PristineAtStart(plan, t0, k);
  }

  lemma BackedUpStep(plan: Plan, log: seq<Record>, log1: seq<Record>, log2: seq<Record>, blobs: map<Blob, Bytes>,
                     blobs2: map<Blob, Bytes>, k: nat)
    requires ValidPlan(plan) && k < |plan.entries| && BackedUpTo(plan, log, blobs, k)
    requires log1 == log + [Numbering(log, MarkLine(BackupPending(plan.entries[k].path)))]
    requires log2 == log1 + [Numbering(log1, MarkLine(BackupVerified(plan.entries[k].path, DigestOf(plan.entries[k].original))))]
    requires LatestPhase(log2) == Some(Preparing)
    requires BlobsFor(plan.entries[k], blobs, blobs2)
    ensures BackedUpTo(plan, log2, blobs2, k + 1)
  {
    hide LatestPhase, EntryBackedUp, NoBackupYet;
    forall j | 0 <= j < |plan.entries|
      ensures if j < k + 1 then EntryBackedUp(log2, plan.entries[j], |log2| + 1) else NoBackupYet(log2, plan.entries[j])
    {
      BackupSelects(plan, log, log1, log2, k, j);
    }
    forall j | 0 <= j < k + 1 ensures BackupSaved(blobs2, plan.entries[j]) && PayloadReady(blobs2, plan.entries[j]) {
      assert plan.entries[j].order == j + 1;
    }
  }

  /** The blobs of one entry were added and nothing else. */
  ghost predicate BlobsFor(e: Entry, blobs: map<Blob, Bytes>, more: map<Blob, Bytes>) {
    && (forall b :: b in more ==> b in blobs || b.order == e.order)
    && (forall b :: b in blobs && b.order != e.order ==> b in more && more[b] == blobs[b])
    && BackupSaved(more, e) && PayloadReady(more, e)
  }

  lemma BlobsWritten(e: Entry, blobs: map<Blob, Bytes>, mid: map<Blob, Bytes>, more: map<Blob, Bytes>)
    requires mid == if e.desired.Some? then blobs[Payload(e.order) := e.desired.value.content] else blobs
    requires more == if e.original.Some? then mid[Backup(e.order) := e.original.value.content] else mid
    ensures BlobsFor(e, blobs, more)
  {
  }

  lemma BackupSelects(plan: Plan, log: seq<Record>, log1: seq<Record>, log2: seq<Record>, k: nat, j: nat)
    requires ValidPlan(plan) && k < |plan.entries| && j < |plan.entries|
    requires log1 == log + [Numbering(log, MarkLine(BackupPending(plan.entries[k].path)))]
    requires log2 == log1 + [Numbering(log1, MarkLine(BackupVerified(plan.entries[k].path, DigestOf(plan.entries[k].original))))]
    requires if j < k then EntryBackedUp(log, plan.entries[j], |log| + 1) else NoBackupYet(log, plan.entries[j])
    ensures if j < k + 1 then EntryBackedUp(log2, plan.entries[j], |log2| + 1) else NoBackupYet(log2, plan.entries[j])
  {
    var e, f := plan.entries[k], plan.entries[j];
    var a, b := BackupPending(f.path), BackupVerified(f.path, DigestOf(f.original));
    var r1, r2 := log1[|log|], log2[|log1|];
    assert j != k ==> e.path != f.path;
    SelectAppend(log, r1, a);
    SelectAppend(log, r1, b);
    SelectAppend(log1, r2, a);
    SelectAppend(log1, r2, b);
  }

  /** Plan file and PREPARING record. */
  method CreateJournal(host: Host, plan: Plan, ghost t0: Tree) returns (r: Outcome<ApplyJournal>)
    requires Fresh(plan, t0, host) && !host.dead
    modifies host`dead, host`faults, host`planFile, host`log, host`torn, host`stamp
    ensures host.dead <==> r.Crashed?
    ensures host.faults <= old(host.faults)
    ensures !host.dead && (JournalSteady(host.frail) || host.faults == old(host.faults)) ==> host.torn == old(host.torn)
    ensures JournalSteady(host.frail) && !host.frail(PlanWriting) && !host.dead ==> host.faults == old(host.faults)
    ensures Fresh(plan, t0, host) || Transaction(plan, t0, host)
    ensures r.Ok? ==> fresh(r.value) && Running(plan, t0, host, r.value) && !host.torn
    ensures r.Ok? ==> host.log == [Numbering([], PhaseLine(Preparing, plan))]
    ensures host.faults == old(host.faults) ==> r.Ok?
  {
    hide *;
    FreshParts(plan, t0, host);
    var written := host.WritePlan(plan);
    EmptyState(plan, t0, host.blobs);
    if host.planFile == Some(plan) {
      TransactionIf(plan, t0, host);
    } else {
      FreshIf(plan, t0, host);
    }
    if !written.Ok? {
      return match written case Raise(error) => Raise(error) case _ => Crashed;
    }
    var journal := new ApplyJournal(host);
    RunningIf(plan, t0, host, journal);
    PreparingPhase(plan, t0, host.tree, host.log, host.blobs);
    PreparingAccepted(plan);
    var noted := CommitPhase(host, journal, plan, t0, Preparing);
    if !noted.Ok? {
      return match noted case Raise(error) => Raise(error) case _ => Crashed;
    }
    assert [] + [Numbering([], PhaseLine(Preparing, plan))] == [Numbering([], PhaseLine(Preparing, plan))];
    return Ok(journal);
  }

  lemma PreparingPhase(plan: Plan, t0: Tree, t: Tree, log: seq<Record>, blobs: map<Blob, Bytes>)
    requires t == t0
    ensures PhaseTreeFor(plan, t0, t, Some(Preparing), log, blobs)
  {
  }

  lemma PreparedNothing(plan: Plan)
    ensures BackedUpTo(plan, [Numbering([], PhaseLine(Preparing, plan))], map[], 0)
  {
    var log := [Numbering([], PhaseLine(Preparing, plan))];
    assert log[..0] == [];
    forall m: Mark ensures Select(log, m) == [] {
      assert Select([], m) == [];
    }
  }

  /** All backups, then the BACKUP_READY record. */
  method BackUp(host: Host, journal: ApplyJournal, plan: Plan, ghost t0: Tree) returns (r: Outcome<()>)
    requires Running(plan, t0, host, journal) && ValidPlan(plan)
    requires !host.torn && BackedUpTo(plan, host.log, host.blobs, 0)
    modifies journal, host`dead, host`faults, host`tree, host`looked, host`log, host`torn, host`stamp, host`blobs
    ensures Transaction(plan, t0, host)
    ensures host.dead <==> r.Crashed?
    ensures host.faults <= old(host.faults)
    ensures !host.dead && (JournalSteady(host.frail) || host.faults == old(host.faults)) ==> host.torn == old(host.torn)
    ensures JournalSteady(host.frail) && r.Ok? ==> host.faults == old(host.faults)
    ensures !host.dead ==> Running(plan, t0, host, journal)
    ensures LatestPhase(host.log) == Some(Preparing) || LatestPhase(host.log) == Some(BackupReady)
    ensures r.Ok? ==> !host.torn && LatestPhase(host.log) == Some(BackupReady) && PayloadsReady(host.blobs, plan)
    ensures host.faults == old(host.faults) ==> r.Ok?
    ensures r.Ok? ==> LeavesSeen(plan, host.tree, host.looked, Everyone(plan))
  {
    hide *;
    RunningParts(plan, t0, host, journal);
    NoneToVisit(plan, t0, host.looked);
    for k := 0 to |plan.entries|
      invariant Running(plan, t0, host, journal) && !host.torn && !host.dead && host.faults <= old(host.faults)
      invariant JournalSteady(host.frail) ==> host.faults == old(host.faults)
      invariant BackedUpTo(plan, host.log, host.blobs, k)
      invariant VisitedUpTo(plan, t0, host.looked, k)
    {
      ghost var looked := host.looked;
      r := BackUpEntry(host, journal, plan, t0, k);
      if !r.Ok? {
        return r;
      }
      RunningParts(plan, t0, host, journal);
      TransactionParts(plan, t0, host);
      EarlyTree(plan, t0, host.tree, host.log, host.blobs);
      OneMoreVisited(plan, t0, looked, host.looked, k);
    }
    RunningParts(plan, t0, host, journal);
    TransactionParts(plan, t0, host);
    BackedUpPhase(plan, host.log, host.blobs, |plan.entries|);
    BackupsReady(plan, t0, host.tree, host.log, host.blobs);
    EarlyTree(plan, t0, host.tree, host.log, host.blobs);
    AllVisited(plan, t0, host.looked);
    r := CommitPhase(host, journal, plan, t0, BackupReady);
  }

  /** The leaves of the first entries were read in the untouched tree. */
  predicate VisitedUpTo(plan: Plan, t: Tree, looked: set<Name>, k: nat) {
    forall j :: 0 <= j < k && j < |plan.entries| ==> Visited(t, looked, Leaf(plan.entries[j].path))
  }

  lemma NoneToVisit(plan: Plan, t: Tree, looked: set<Name>)
    ensures VisitedUpTo(plan, t, looked, 0)
  {
  }

  lemma OneMoreVisited(plan: Plan, t: Tree, looked: set<Name>, more: set<Name>, k: nat)
    requires VisitedUpTo(plan, t, looked, k) && looked <= more && k < |plan.entries|
    requires Visited(t, more, Leaf(plan.entries[k].path))
    ensures VisitedUpTo(plan, t, more, k + 1)
  {
  }

  lemma AllVisited(plan: Plan, t: Tree, looked: set<Name>)
    requires VisitedUpTo(plan, t, looked, |plan.entries|)
    ensures LeavesSeen(plan, t, looked, Everyone(plan))
  {
  }

  lemma BackedUpPhase(plan: Plan, log: seq<Record>, blobs: map<Blob, Bytes>, k: nat)
    requires BackedUpTo(plan, log, blobs, k)
    ensures LatestPhase(log) == Some(Preparing)
  {
  }

  lemma BackupsReady(plan: Plan, t0: Tree, t: Tree, log: seq<Record>, blobs: map<Blob, Bytes>)
    requires State(plan, t0, t, log, blobs) && ValidLog(log, plan) && BackedUpTo(plan, log, blobs, |plan.entries|)
    ensures PhaseTreeFor(plan, t0, t, Some(BackupReady), log, blobs) && PayloadsReady(blobs, plan)
    ensures Accepts(log, plan, Numbering(log, PhaseLine(BackupReady, plan)))
  {
    hide Sound, Planned, SafeTree;
    var r := Numbering(log, PhaseLine(BackupReady, plan));
    AppendPhase(log, plan, r);
    forall k | 0 <= k < |plan.entries| ensures EntryBackedUp(log + [r], plan.entries[k], |log| + 1) {
      var e := plan.entries[k];
      assert EntryBackedUp(log, e, |log| + 1);
      SelectAppend(log, r, BackupPending(e.path));
      SelectAppend(log, r, BackupVerified(e.path, DigestOf(e.original)));
    }
  }

  /** Enters APPLYING with every entry untouched. */
  method EnterApplying(host: Host, journal: ApplyJournal, plan: Plan, ghost t0: Tree) returns (r: Outcome<()>)
    requires Running(plan, t0, host, journal) && ValidPlan(plan)
    requires !host.torn && LatestPhase(host.log) == Some(BackupReady)
    modifies journal, host`dead, host`faults, host`log, host`torn, host`stamp
    ensures Transaction(plan, t0, host)
    ensures host.dead <==> r.Crashed?
    ensures host.faults <= old(host.faults)
    ensures !host.dead && (JournalSteady(host.frail) || host.faults == old(host.faults)) ==> host.torn == old(host.torn)
    ensures JournalSteady(host.frail) && !host.dead ==> host.faults == old(host.faults)
    ensures !host.dead ==> Running(plan, t0, host, journal)
    ensures r.Ok? ==> !host.torn && LoopAt(plan, host.log, 0) && NoTemporaries(plan, host.tree)
    ensures host.faults == old(host.faults) ==> r.Ok?
  {
    hide *;
    ghost var log := host.log;
    RunningParts(plan, t0, host, journal);
    TransactionParts(plan, t0, host);
    ReadyToApply(plan, t0, host.tree, log, host.blobs);
    r := CommitPhase(host, journal, plan, t0, Applying);
    if r.Ok? {
      StartLoop(plan, log, host.log);
    }
  }

  lemma ReadyToApply(plan: Plan, t0: Tree, t: Tree, log: seq<Record>, blobs: map<Blob, Bytes>)
    requires State(plan, t0, t, log, blobs) && ValidLog(log, plan) && LatestPhase(log) == Some(BackupReady)
    ensures PhaseTreeFor(plan, t0, t, Some(Applying), log, blobs) && NoTemporaries(plan, t)
    ensures Accepts(log, plan, Numbering(log, PhaseLine(Applying, plan)))
    ensures forall k :: 0 <= k < |plan.entries| ==> ProgressOf(log, plan.entries[k]).Untouched?
  {
    hide Sound, SafeTree, ProgressOf;
    AppendPhase(log, plan, Numbering(log, PhaseLine(Applying, plan)));
    forall k | 0 <= k < |plan.entries|
      ensures ProgressOf(log, plan.entries[k]).Untouched? && Pristine(t, plan.entries[k])
    {
      UntouchedBeforeApplying(log, plan, k);
      PristineAtStart(plan, t0, k);
    }
  }

  lemma StartLoop(plan: Plan, log: seq<Record>, longer: seq<Record>)
    requires forall k :: 0 <= k < |plan.entries| ==> ProgressOf(log, plan.entries[k]).Untouched?
    requires SameProgress(log, longer, plan) && LatestPhase(longer) == Some(Applying)
    ensures LoopAt(plan, longer, 0)
  {
    hide ProgressOf, LatestPhase;
  }
}
