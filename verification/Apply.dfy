/** The apply coordinator from the plan on, replays of a finished transaction, and whole lifetimes. */
module Apply {
  import opened Wrappers
  import opened ApplyModels
  import opened TargetTree
  import opened Hosts
  import opened Directories
  import opened ApplyJournals
  import opened JournalEvidence
  import opened JournalLaws
  import opened TransactionTree
  import opened TransactionLog
  import opened Inspection
  import opened RecoveryEvidence
  import opened Recovery
  import opened ApplyRollback
  import opened ApplyRun
  import opened ApplyBackup

  /** The transaction has not begun on disk, or its invariant holds. */
  ghost predicate Anytime(plan: Plan, t0: Tree, host: Host)
    reads host
  {
    Fresh(plan, t0, host) || Transaction(plan, t0, host)
  }

  lemma AnytimeParts(plan: Plan, t0: Tree, host: Host)
    requires Anytime(plan, t0, host)
    ensures ValidPlan(plan)
    ensures host.planFile.None? ==> Fresh(plan, t0, host)
    ensures host.planFile.Some? ==> Transaction(plan, t0, host)
  {
    if Transaction(plan, t0, host) {
      TransactionParts(plan, t0, host);
    }
  }

  lemma AnytimeIf(plan: Plan, t0: Tree, host: Host)
    requires Fresh(plan, t0, host) || Transaction(plan, t0, host)
    ensures Anytime(plan, t0, host)
  {
  }

  /** Index and change set are still those the plan was made for. */
  predicate Steady(host: Host, plan: Plan)
    reads host`index, host`changes
  {
    host.index == plan.indexDigest && host.changes == plan.changesDigest
  }

  lemma SteadyParts(host: Host, plan: Plan)
    ensures Steady(host, plan) <==> host.index == plan.indexDigest && host.changes == plan.changesDigest
  {
  }

  /** The result for a journal that could not be created: note what is possible, ask for recovery. */
  method AfterFailedCreate(host: Host, ghost plan: Plan, ghost t0: Tree) returns (r: Outcome<Verdict>)
    requires Anytime(plan, t0, host) && !host.dead
    modifies host`dead, host`faults, host`log, host`torn, host`stamp
    ensures Anytime(plan, t0, host)
    ensures host.dead <==> r.Crashed?
    ensures host.faults <= old(host.faults)
    ensures !host.dead ==> r == Ok(NeedsRecovery)
    ensures !host.dead && host.planFile.Some? && !old(host.torn)
            && (JournalSteady(host.frail) || host.faults == old(host.faults))
            ==> LatestPhase(host.log) == Some(RecoveryRequired)
  {
    hide *;
    AnytimeParts(plan, t0, host);
    if host.planFile.None? {
      return Ok(NeedsRecovery);
    }
    TransactionParts(plan, t0, host);
    var journal := new ApplyJournal(host);
    RunningIf(plan, t0, host, journal);
    r := RequireRecovery(host, journal, host.planFile.value, t0);
    AnytimeIf(plan, t0, host);
  }

  /** From BACKUP_READY to a verdict. */
  method ApplyEffects(host: Host, journal: ApplyJournal, plan: Plan, ghost t0: Tree) returns (r: Outcome<Verdict>)
    requires Running(plan, t0, host, journal) && ValidPlan(plan)
    requires !host.torn && LatestPhase(host.log) == Some(BackupReady) && PayloadsReady(host.blobs, plan)
    modifies journal, host`dead, host`faults, host`tree, host`looked, host`log, host`torn, host`stamp
    ensures Transaction(plan, t0, host)
    ensures host.dead <==> r.Crashed?
    ensures host.faults <= old(host.faults)
    ensures !r.Raise?
    ensures r == Ok(IsApplied) ==> AppliedTree(plan, t0, host.tree) && LatestPhase(host.log) == Some(Applied)
    ensures r == Ok(IsRolledBack) ==> host.tree == t0 && LatestPhase(host.log) == Some(RolledBack)
    ensures host.faults == old(host.faults) && Steady(host, plan) ==> r == Ok(IsApplied)
    ensures Benign(host.frail, plan) && Steady(host, plan) && !host.dead && old(host.faults) <= host.faults + 1 ==>
              r == Ok(if host.faults == old(host.faults) then IsApplied else IsRolledBack)
    ensures r == Ok(IsApplied)
            && (host.faults == old(host.faults) || (!host.frail(ChangesDrifting) && !host.frail(IndexDrifting)))
            ==> Steady(host, plan)
    ensures !host.dead && host.faults == old(host.faults) && !Steady(host, plan) ==> r == Ok(NeedsRecovery)
    ensures r == Ok(IsRolledBack) && (host.faults == old(host.faults) || !host.frail(IndexDrifting)) ==>
              host.index == plan.indexDigest
    ensures r == Ok(NeedsRecovery) && !old(host.torn)
            && (JournalSteady(host.frail) || host.faults == old(host.faults))
            ==> LatestPhase(host.log) == Some(RecoveryRequired)
    ensures r == Ok(IsApplied) ==> EverythingSeen(plan, host.tree, host.looked)
    ensures r == Ok(IsRolledBack) ==> ArtifactsSeen(plan, host.tree, host.looked)
  {
    hide *;
    SteadyParts(host, plan);
    if Benign(host.frail, plan) {
      BenignParts(host.frail, plan);
    }
    var entered := EnterApplying(host, journal, plan, t0);
    if host.dead {
      return Crashed;
    }
    if !entered.Ok? {
      r := RequireRecovery(host, journal, plan, t0);
      return;
    }
    var looped := ApplyLoop(host, journal, plan, t0);
    if !looped.Ok? {
      return Crashed;
    }
    match looped.value
    case Uncertain =>
      r := RequireRecovery(host, journal, plan, t0);
    case Stopped(affected, evidence) =>
      r := RollBackApply(host, journal, plan, t0, affected, evidence);
    case AllPublished(evidence) =>
      var checked := VerifyApply(host, journal, plan, t0);
      if !checked.Ok? {
        return Crashed;
      }
      match checked.value
      case Accepted => return Ok(IsApplied);
      case Unprovable =>
        r := RequireRecovery(host, journal, plan, t0);
      case Refuted =>
        RunningParts(plan, t0, host, journal);
        TransactionParts(plan, t0, host);
        AllFailed(plan, t0, host.tree, host.log, host.blobs);
        FailedClear(plan, t0, host.tree, host.log, AffectedUpTo(|plan.entries|, false), evidence);
        r := RollBackApply(host, journal, plan, t0, AffectedUpTo(|plan.entries|, false), evidence);
  }

  /** Applies a plan. It ends APPLIED with every entry in its new state, ROLLED_BACK with the old
      tree, or asks for recovery; killed at any step it leaves a transaction recovery can read. */
  method ApplyPlanned(host: Host, plan: Plan, ghost t0: Tree) returns (r: Outcome<Verdict>)
    requires Fresh(plan, t0, host) && !host.dead
    modifies host`dead, host`faults, host`tree, host`looked, host`planFile, host`log, host`torn, host`stamp, host`blobs
    ensures Anytime(plan, t0, host)
    ensures host.dead <==> r.Crashed?
    ensures host.faults <= old(host.faults)
    ensures !r.Raise?
    ensures r == Ok(IsApplied) ==> AppliedTree(plan, t0, host.tree) && LatestPhase(host.log) == Some(Applied)
    ensures r == Ok(IsRolledBack) ==> host.tree == t0 && LatestPhase(host.log) == Some(RolledBack)
    ensures host.faults == old(host.faults) && Steady(host, plan) ==> r == Ok(IsApplied)
    ensures Benign(host.frail, plan) && Steady(host, plan) && !host.dead && old(host.faults) <= host.faults + 1 ==>
              || (r == Ok(IsApplied) && host.faults == old(host.faults))
              || (r == Ok(IsRolledBack) && host.faults < old(host.faults))
              || (r == Ok(NeedsRecovery) && host.faults < old(host.faults) && !EffectsBegun(host.log) && host.tree == t0)
    ensures r == Ok(IsApplied)
            && (host.faults == old(host.faults) || (!host.frail(ChangesDrifting) && !host.frail(IndexDrifting)))
            ==> Steady(host, plan)
    ensures !host.dead && host.faults == old(host.faults) && !Steady(host, plan) ==> r == Ok(NeedsRecovery)
    ensures r == Ok(IsRolledBack) && (host.faults == old(host.faults) || !host.frail(IndexDrifting)) ==>
              host.index == plan.indexDigest
    ensures r == Ok(NeedsRecovery) && host.planFile.Some?
            && (JournalSteady(host.frail) || host.faults == old(host.faults))
            ==> LatestPhase(host.log) == Some(RecoveryRequired)
    ensures r == Ok(IsApplied) ==> EverythingSeen(plan, host.tree, host.looked)
    ensures r == Ok(IsRolledBack) ==> ArtifactsSeen(plan, host.tree, host.looked)
  {
    hide *;
    SteadyParts(host, plan);
    if Benign(host.frail, plan) {
      BenignParts(host.frail, plan);
    }
    FreshParts(plan, t0, host);
    var created := CreateJournal(host, plan, t0);
    AnytimeIf(plan, t0, host);
    if host.dead {
      return Crashed;
    }
    if !created.Ok? {
      r := AfterFailedCreate(host, plan, t0);
      return;
    }
    var journal := created.value;
    PreparedNothing(plan);
    var ready := BackUp(host, journal, plan, t0);
    AnytimeIf(plan, t0, host);
    if host.dead {
      return Crashed;
    }
    TransactionParts(plan, t0, host);
    EarlyTree(plan, t0, host.tree, host.log, host.blobs);
    EarlyNotBegun(host.log, plan);
    if ready.Ok? {
      var same := CheckIdentity(host, journal, plan, t0);
      AnytimeIf(plan, t0, host);
      if host.dead {
        return Crashed;
      }
      if same == Ok(true) {
        r := ApplyEffects(host, journal, plan, t0);
        AnytimeIf(plan, t0, host);
        return;
      }
    }
    r := RequireRecovery(host, journal, plan, t0);
    AnytimeIf(plan, t0, host);
  }

  // ---- later runs ----

  /** Apply called again for an existing transaction: a finished one is confirmed, any other needs recovery. */
  method Replay(host: Host, ghost plan: Plan, ghost t0: Tree) returns (r: Outcome<Verdict>)
    requires Transaction(plan, t0, host) && !host.dead && ValidPlan(plan)
    modifies host`dead, host`faults, host`tree, host`looked, host`log, host`torn, host`stamp
    ensures Transaction(plan, t0, host)
    ensures host.dead <==> r.Crashed?
    ensures host.faults <= old(host.faults)
    ensures host.tree == old(host.tree) && SamePhaseOrStuck(old(host.log), host.log)
    ensures r == Ok(IsRolledBack) ==> host.tree == t0 && LatestPhase(host.log) == Some(RolledBack)
    ensures r == Ok(IsApplied) ==> AppliedTree(plan, t0, host.tree) && LatestPhase(host.log) == Some(Applied)
    ensures host.faults == old(host.faults) && host.index == plan.indexDigest && !old(host.torn) ==>
              && (LatestPhase(old(host.log)) == Some(Applied) ==> r == Ok(IsApplied))
              && (LatestPhase(old(host.log)) == Some(RolledBack) ==> r == Ok(IsRolledBack))
    ensures (r == Ok(IsRolledBack) || r == Ok(IsApplied))
            && (host.faults == old(host.faults) || !host.frail(IndexDrifting)) ==>
              host.index == plan.indexDigest
    ensures r == Ok(NeedsRecovery) && !old(host.torn)
            && (JournalSteady(host.frail) || host.faults == old(host.faults))
            ==> LatestPhase(host.log) == Some(RecoveryRequired)
    ensures !host.dead && host.faults == old(host.faults) ==> r.Ok?
    ensures old(host.torn) ==> host.torn && host.log == old(host.log) && r != Ok(IsRolledBack) && r != Ok(IsApplied)
    ensures r == Ok(IsApplied) ==> EverythingSeen(plan, host.tree, host.looked)
    ensures r == Ok(IsRolledBack) ==> ArtifactsSeen(plan, host.tree, host.looked)
  {
    hide *;
    TransactionParts(plan, t0, host);
    PhaseKept(host.log, host.log);
    var journal := new ApplyJournal(host);
    RunningIf(plan, t0, host, journal);
    var read := journal.ReadPlan();
    if host.dead {
      return Crashed;
    }
    RunningIf(plan, t0, host, journal);
    if !read.Ok? {
      r := RequireRecovery(host, journal, host.planFile.value, t0);
      return;
    }
    ReadableIf(journal, plan);
    var latest := journal.ReadPhase();
    if host.dead {
      return Crashed;
    }
    RunningIf(plan, t0, host, journal);
    var same := CheckIdentity(host, journal, read.value, t0);
    if host.dead {
      return Crashed;
    }
    if latest == Ok(Some(Applied)) && same == Ok(true) {
      r := ConfirmApplied(host, journal, read.value, t0);
    } else if latest == Ok(Some(RolledBack)) && same == Ok(true) {
      r := ConfirmRolledBack(host, journal, read.value, t0);
      ArtifactsAmong(read.value, host.tree, host.looked);
    } else {
      r := RequireRecovery(host, journal, read.value, t0);
    }
  }

  /** A later process: recovery at startup, or the same request once more, under some disturbances. */
  datatype Restart = Restart(replay: bool, faults: nat, frail: Step -> bool)

  /** No fault of such a run can hit the journal. */
  predicate Reliable(faults: nat, frail: Step -> bool) {
    faults == 0 || JournalSteady(frail)
  }

  /** What is left between two runs: whether there is a plan, the tree, and the journal. */
  datatype Disk = Disk(planned: bool, tree: Tree, log: seq<Record>, torn: bool)

  function DiskOf(host: Host): Disk
    reads host`planFile, host`tree, host`log, host`torn
  {
    Disk(host.planFile.Some?, host.tree, host.log, host.torn)
  }

  /** Nothing can be concluded about the transaction any more. */
  predicate Blocked(d: Disk) {
    !d.planned || d.torn || LatestPhase(d.log) == Some(RecoveryRequired)
  }

  predicate Terminal(r: Outcome<Verdict>) {
    r == Ok(IsApplied) || r == Ok(IsRolledBack)
  }

  /** What one later run may do to the disk, and what it must do when nothing disturbs it. */
  ghost predicate Meant(plan: Plan, t0: Tree, index: Digest, restart: Restart, before: Disk, after: Disk,
                        r: Outcome<Verdict>)
    requires ValidPlan(plan)
  {
    && (r == Ok(IsRolledBack) ==> after.tree == t0 && LatestPhase(after.log) == Some(RolledBack))
    && (r == Ok(IsApplied) ==> AppliedTree(plan, t0, after.tree) && LatestPhase(after.log) == Some(Applied))
    && (!EffectPhase(before.log) ==> after.tree == before.tree && SamePhaseOrStuck(before.log, after.log))
    && (restart.replay ==> after.tree == before.tree && SamePhaseOrStuck(before.log, after.log))
    && (Blocked(before) ==> Blocked(after) && after.tree == before.tree && !Terminal(r))
    && (r == Ok(NeedsRecovery) && Reliable(restart.faults, restart.frail) ==> Blocked(after))
    && (Terminal(r) && (restart.faults == 0 || !restart.frail(IndexDrifting)) ==> index == plan.indexDigest)
    && (restart.faults == 0 && before.planned && !before.torn ==> !r.Raise?)
    && (restart.faults == 0 && before.planned && !before.torn && index == plan.indexDigest ==>
         && (LatestPhase(before.log) == Some(Applied) ==> r == Ok(IsApplied))
         && (LatestPhase(before.log) == Some(RolledBack) ==> r == Ok(IsRolledBack))
         && (EffectPhase(before.log) ==>
              (r == Ok(IsRolledBack) <==> !restart.replay && !Window(plan, before.tree, before.log))))
  }

  lemma BlockedParts(d: Disk)
    ensures Blocked(d) <==> !d.planned || d.torn || LatestPhase(d.log) == Some(RecoveryRequired)
    ensures forall r :: Terminal(r) <==> r == Ok(IsApplied) || r == Ok(IsRolledBack)
  {
  }

  lemma DiskParts(host: Host)
    ensures var d := DiskOf(host);
            d.planned == host.planFile.Some? && d.tree == host.tree && d.log == host.log && d.torn == host.torn
  {
  }

  lemma ReliableParts(faults: nat, frail: Step -> bool)
    ensures Reliable(faults, frail) <==> faults == 0 || JournalSteady(frail)
  {
  }

  /** A run over a missing plan only says so. */
  lemma UnplannedMeant(plan: Plan, t0: Tree, index: Digest, restart: Restart, d: Disk)
    requires ValidPlan(plan) && !d.planned
    ensures Meant(plan, t0, index, restart, d, d, Raise(ValueError))
  {
    PhaseKept(d.log, d.log);
  }

  /** The contract of a replay is what is meant. */
  lemma ReplayMeant(plan: Plan, t0: Tree, index: Digest, restart: Restart, before: Disk, after: Disk, r: Outcome<Verdict>)
    requires ValidPlan(plan) && restart.replay && before.planned && after.planned
    requires after.tree == before.tree && SamePhaseOrStuck(before.log, after.log)
    requires r == Ok(IsRolledBack) ==> after.tree == t0 && LatestPhase(after.log) == Some(RolledBack)
    requires r == Ok(IsApplied) ==> AppliedTree(plan, t0, after.tree) && LatestPhase(after.log) == Some(Applied)
    requires before.torn ==> after.torn && r != Ok(IsRolledBack) && r != Ok(IsApplied)
    requires r == Ok(NeedsRecovery) && !before.torn && (JournalSteady(restart.frail) || restart.faults == 0) ==>
               LatestPhase(after.log) == Some(RecoveryRequired)
    requires (r == Ok(IsRolledBack) || r == Ok(IsApplied)) && (restart.faults == 0 || !restart.frail(IndexDrifting)) ==>
               index == plan.indexDigest
    requires restart.faults == 0 ==> !r.Raise?
    requires restart.faults == 0 && index == plan.indexDigest && !before.torn ==>
               && (LatestPhase(before.log) == Some(Applied) ==> r == Ok(IsApplied))
               && (LatestPhase(before.log) == Some(RolledBack) ==> r == Ok(IsRolledBack))
    ensures Meant(plan, t0, index, restart, before, after, r)
  {
    hide LatestPhase, AppliedTree, JournalSteady, Window;
  }

  /** And so is the contract of a recovery. */
  lemma RecoveryMeant(plan: Plan, t0: Tree, index: Digest, restart: Restart, before: Disk, after: Disk,
                      r: Outcome<Verdict>)
    requires ValidPlan(plan) && !restart.replay && before.planned && after.planned
    requires r == Ok(IsRolledBack) ==> after.tree == t0 && LatestPhase(after.log) == Some(RolledBack)
    requires r == Ok(IsApplied) ==> AppliedTree(plan, t0, after.tree) && LatestPhase(after.log) == Some(Applied)
    requires before.torn ==> !r.Ok? && after.torn && after.tree == before.tree
    requires LatestPhase(before.log) != Some(Applied) ==> r != Ok(IsApplied)
    requires r == Ok(IsRolledBack) ==> EffectPhase(before.log) || LatestPhase(before.log) == Some(RolledBack)
    requires !EffectPhase(before.log) ==> after.tree == before.tree && SamePhaseOrStuck(before.log, after.log)
    requires r == Ok(NeedsRecovery) && !before.torn && (JournalSteady(restart.frail) || restart.faults == 0) ==>
               LatestPhase(after.log) == Some(RecoveryRequired)
    requires (r == Ok(IsRolledBack) || r == Ok(IsApplied)) && (restart.faults == 0 || !restart.frail(IndexDrifting)) ==>
               index == plan.indexDigest
    requires restart.faults == 0 && !before.torn ==> !r.Raise?
    requires restart.faults == 0 && index == plan.indexDigest && !before.torn ==>
               && (LatestPhase(before.log) == Some(Applied) ==> r == Ok(IsApplied))
               && (LatestPhase(before.log) == Some(RolledBack) ==> r == Ok(IsRolledBack))
               && (EffectPhase(before.log) ==> (r == Ok(IsRolledBack) <==> !Window(plan, before.tree, before.log)))
    ensures Meant(plan, t0, index, restart, before, after, r)
  {
    hide LatestPhase, AppliedTree, JournalSteady, Window;
  }

  method LaterRun(host: Host, plan: Plan, ghost t0: Tree, restart: Restart) returns (r: Outcome<Verdict>)
    requires Anytime(plan, t0, host)
    modifies host`dead, host`faults, host`frail, host`tree, host`looked, host`log, host`torn, host`stamp
    ensures Anytime(plan, t0, host)
    ensures Meant(plan, t0, host.index, restart, old(DiskOf(host)), DiskOf(host), r)
  {
    hide *;
    AnytimeParts(plan, t0, host);
    DiskParts(host);
    ghost var before := DiskOf(host);
    if host.planFile.None? {
      FreshParts(plan, t0, host);
      host.Reboot(restart.faults, restart.frail);
      FreshIf(plan, t0, host);
      AnytimeIf(plan, t0, host);
      UnplannedMeant(plan, t0, host.index, restart, before);
      DiskParts(host);
      return Raise(ValueError);
    }
    TransactionParts(plan, t0, host);
    host.Reboot(restart.faults, restart.frail);
    TransactionIf(plan, t0, host);
    if restart.replay {
      r := Replay(host, plan, t0);
      DiskParts(host);
      ReplayMeant(plan, t0, host.index, restart, before, DiskOf(host), r);
    } else {
      r := Recover(host, plan, t0);
      DiskParts(host);
      RecoveryMeant(plan, t0, host.index, restart, before, DiskOf(host), r);
    }
    AnytimeIf(plan, t0, host);
  }

  /** Once a run has reported a terminal verdict, the tree and the log bear it out from then on. */
  ghost predicate VerdictsHold(plan: Plan, t0: Tree, t: Tree, log: seq<Record>, verdicts: seq<Outcome<Verdict>>) {
    && (Ok(IsRolledBack) in verdicts ==>
         t == t0 && (LatestPhase(log) == Some(RolledBack) || LatestPhase(log) == Some(RecoveryRequired)))
    && (Ok(IsApplied) in verdicts ==>
         AppliedTree(plan, t0, t) && (LatestPhase(log) == Some(Applied) || LatestPhase(log) == Some(RecoveryRequired)))
    && !(Ok(IsApplied) in verdicts && Ok(IsRolledBack) in verdicts)
  }

  lemma VerdictJoins(plan: Plan, t0: Tree, t: Tree, u: Tree, log: seq<Record>, longer: seq<Record>,
                     verdicts: seq<Outcome<Verdict>>, r: Outcome<Verdict>)
    requires VerdictsHold(plan, t0, t, log, verdicts)
    requires r == Ok(IsRolledBack) ==> u == t0 && LatestPhase(longer) == Some(RolledBack)
    requires r == Ok(IsApplied) ==> AppliedTree(plan, t0, u) && LatestPhase(longer) == Some(Applied)
    requires !EffectPhase(log) ==> u == t && SamePhaseOrStuck(log, longer)
    ensures VerdictsHold(plan, t0, u, longer, verdicts + [r])
  {
    hide LatestPhase, AppliedTree;
  }

  lemma FirstVerdict(plan: Plan, t0: Tree, u: Tree, longer: seq<Record>, r: Outcome<Verdict>)
    requires r == Ok(IsRolledBack) ==> u == t0 && LatestPhase(longer) == Some(RolledBack)
    requires r == Ok(IsApplied) ==> AppliedTree(plan, t0, u) && LatestPhase(longer) == Some(Applied)
    ensures VerdictsHold(plan, t0, u, longer, [r])
  {
    hide LatestPhase, AppliedTree;
  }

  /** Asking for recovery stops everything: wherever a run whose journal was sound asked for it, the
      tree stays and no later run reports a terminal verdict. */
  ghost predicate StopsForGood(verdicts: seq<Outcome<Verdict>>, disks: seq<Disk>, faults: nat, frail: Step -> bool,
                               restarts: seq<Restart>)
    requires |verdicts| == |disks| <= |restarts| + 1
  {
    forall i, j :: 0 <= i < j < |verdicts| && Asked(verdicts, faults, frail, restarts, i) ==>
      disks[j].tree == disks[i].tree && !Terminal(verdicts[j])
  }

  /** Run `i` asked for recovery, and no fault can have kept that from the journal. */
  predicate Asked(verdicts: seq<Outcome<Verdict>>, faults: nat, frail: Step -> bool, restarts: seq<Restart>, i: nat)
    requires i < |verdicts| <= |restarts| + 1
  {
    && verdicts[i] == Ok(NeedsRecovery)
    && (if i == 0 then Reliable(faults, frail) else Reliable(restarts[i - 1].faults, restarts[i - 1].frail))
  }

  /** Since any such run the transaction has been blocked, with the tree it left. */
  ghost predicate BlockedSince(verdicts: seq<Outcome<Verdict>>, disks: seq<Disk>, faults: nat, frail: Step -> bool,
                               restarts: seq<Restart>)
    requires 0 < |verdicts| == |disks| <= |restarts| + 1
  {
    forall i :: 0 <= i < |verdicts| && Asked(verdicts, faults, frail, restarts, i) ==>
      Blocked(disks[|disks| - 1]) && disks[|disks| - 1].tree == disks[i].tree
  }

  lemma FirstStops(verdicts: seq<Outcome<Verdict>>, disks: seq<Disk>, faults: nat, frail: Step -> bool,
                   restarts: seq<Restart>)
    requires |verdicts| == |disks| == 1
    requires verdicts[0] == Ok(NeedsRecovery) && Reliable(faults, frail) ==> Blocked(disks[0])
    ensures StopsForGood(verdicts, disks, faults, frail, restarts)
    ensures BlockedSince(verdicts, disks, faults, frail, restarts)
  {
  }

  lemma NextStops(plan: Plan, t0: Tree, index: Digest, verdicts: seq<Outcome<Verdict>>, disks: seq<Disk>, faults: nat,
                  frail: Step -> bool, restarts: seq<Restart>, d: Disk, r: Outcome<Verdict>)
    requires 0 < |verdicts| == |disks| <= |restarts| && ValidPlan(plan)
    requires StopsForGood(verdicts, disks, faults, frail, restarts)
    requires BlockedSince(verdicts, disks, faults, frail, restarts)
    requires Meant(plan, t0, index, restarts[|verdicts| - 1], disks[|disks| - 1], d, r)
    ensures StopsForGood(verdicts + [r], disks + [d], faults, frail, restarts)
    ensures BlockedSince(verdicts + [r], disks + [d], faults, frail, restarts)
  {
    hide Terminal, Reliable, Blocked, Window, AppliedTree, LatestPhase, EffectPhase, SamePhaseOrStuck;
    forall i | 0 <= i < |verdicts| && Asked(verdicts + [r], faults, frail, restarts, i)
      ensures Asked(verdicts, faults, frail, restarts, i)
    {
    }
  }

  /** Every later run did what it is meant to do. */
  ghost predicate AllMeant(plan: Plan, t0: Tree, index: Digest, restarts: seq<Restart>, disks: seq<Disk>,
                           verdicts: seq<Outcome<Verdict>>)
    requires |verdicts| == |disks| <= |restarts| + 1 && ValidPlan(plan)
  {
    forall i :: 0 < i < |verdicts| ==> Meant(plan, t0, index, restarts[i - 1], disks[i - 1], disks[i], verdicts[i])
  }

  lemma MeantAppend(plan: Plan, t0: Tree, index: Digest, restarts: seq<Restart>, disks: seq<Disk>,
                    verdicts: seq<Outcome<Verdict>>, d: Disk, r: Outcome<Verdict>)
    requires 0 < |verdicts| == |disks| <= |restarts| && ValidPlan(plan)
    requires AllMeant(plan, t0, index, restarts, disks, verdicts)
    requires Meant(plan, t0, index, restarts[|verdicts| - 1], disks[|disks| - 1], d, r)
    ensures AllMeant(plan, t0, index, restarts, disks + [d], verdicts + [r])
  {
    hide Meant;
  }

  lemma NoneMeantYet(plan: Plan, t0: Tree, index: Digest, restarts: seq<Restart>, d: Disk, r: Outcome<Verdict>)
    requires ValidPlan(plan)
    ensures AllMeant(plan, t0, index, restarts, [d], [r])
  {
  }

  /** What the verdicts of later runs rest on. */
  lemma MeantVerdict(plan: Plan, t0: Tree, index: Digest, restart: Restart, before: Disk, after: Disk,
                     r: Outcome<Verdict>)
    requires ValidPlan(plan) && Meant(plan, t0, index, restart, before, after, r)
    ensures r == Ok(IsRolledBack) ==> after.tree == t0 && LatestPhase(after.log) == Some(RolledBack)
    ensures r == Ok(IsApplied) ==> AppliedTree(plan, t0, after.tree) && LatestPhase(after.log) == Some(Applied)
    ensures !EffectPhase(before.log) ==> after.tree == before.tree && SamePhaseOrStuck(before.log, after.log)
  {
  }

  /** A whole lifetime: one apply, cut off or failing anywhere, then any number of later runs, each
      cut off or failing anywhere. A ROLLED_BACK verdict means the tree of before; an APPLIED verdict
      means the planned tree; neither is ever followed by a change of the tree or by the other one. Once a
      run asked for recovery and could write that down, nothing moves any more. `disks` is what each run
      left; each later one did with it what it is meant to do. */
  method Lifetime(host: Host, plan: Plan, ghost t0: Tree, restarts: seq<Restart>)
    returns (verdicts: seq<Outcome<Verdict>>, ghost disks: seq<Disk>)
    requires Fresh(plan, t0, host) && !host.dead
    modifies host`dead, host`faults, host`frail, host`tree, host`looked, host`planFile, host`log, host`torn, host`stamp, host`blobs
    ensures Anytime(plan, t0, host)
    ensures |verdicts| == |disks| == |restarts| + 1 && disks[|restarts|] == DiskOf(host)
    ensures old(host.faults) == 0 && old(Steady(host, plan)) ==> verdicts[0] == Ok(IsApplied)
    ensures Ok(IsRolledBack) in verdicts ==> host.tree == t0
    ensures Ok(IsApplied) in verdicts ==> AppliedTree(plan, t0, host.tree)
    ensures !(Ok(IsApplied) in verdicts && Ok(IsRolledBack) in verdicts)
    ensures StopsForGood(verdicts, disks, old(host.faults), old(host.frail), restarts)
    ensures AllMeant(plan, t0, host.index, restarts, disks, verdicts)
  {
    hide *;
    SteadyParts(host, plan);
    FreshParts(plan, t0, host);
    var first := ApplyPlanned(host, plan, t0);
    verdicts, disks := [first], [DiskOf(host)];
    DiskParts(host);
    BlockedParts(DiskOf(host));
    ReliableParts(old(host.faults), old(host.frail));
    FirstStops(verdicts, disks, old(host.faults), old(host.frail), restarts);
    NoneMeantYet(plan, t0, host.index, restarts, DiskOf(host), first);
    FirstVerdict(plan, t0, host.tree, host.log, first);
    for i := 0 to |restarts|
      invariant |verdicts| == |disks| == i + 1 && verdicts[0] == first
      invariant Anytime(plan, t0, host)
      invariant VerdictsHold(plan, t0, host.tree, host.log, verdicts)
      invariant disks[i] == DiskOf(host)
      invariant StopsForGood(verdicts, disks, old(host.faults), old(host.frail), restarts)
      invariant BlockedSince(verdicts, disks, old(host.faults), old(host.frail), restarts)
      invariant AllMeant(plan, t0, host.index, restarts, disks, verdicts)
    {
      ghost var t, log, before := host.tree, host.log, DiskOf(host);
      DiskParts(host);
      var r := LaterRun(host, plan, t0, restarts[i]);
      DiskParts(host);
      MeantVerdict(plan, t0, host.index, restarts[i], before, DiskOf(host), r);
      VerdictJoins(plan, t0, t, host.tree, log, host.log, verdicts, r);
      NextStops(plan, t0, host.index, verdicts, disks, old(host.faults), old(host.frail), restarts, DiskOf(host), r);
      MeantAppend(plan, t0, host.index, restarts, disks, verdicts, DiskOf(host), r);
      verdicts, disks := verdicts + [r], disks + [DiskOf(host)];
    }
    VerdictsMean(plan, t0, host.tree, host.log, verdicts);
  }

  lemma VerdictsMean(plan: Plan, t0: Tree, t: Tree, log: seq<Record>, verdicts: seq<Outcome<Verdict>>)
    requires VerdictsHold(plan, t0, t, log, verdicts)
    ensures Ok(IsRolledBack) in verdicts ==> t == t0
    ensures Ok(IsApplied) in verdicts ==> AppliedTree(plan, t0, t)
    ensures !(Ok(IsApplied) in verdicts && Ok(IsRolledBack) in verdicts)
  {
  }
}
