/** Undoing the affected entries of a transaction, last one first. */
module RecoveryUndo {
  import opened Wrappers
  import opened ApplyModels
  import opened TargetTree
  import opened Hosts
  import opened Directories
  import opened EntryEffects
  import opened ApplyJournals
  import opened JournalEvidence
  import opened EntryProgress
  import opened TransactionTree
  import opened TransactionLog
  import opened Inspection
  import opened RecoveryEvidence
  import opened RecoveryClassify

  /** Restoring an entry whose rollback is pending, as a step of the transaction. */
  method RestoreStep(host: Host, plan: Plan, ghost t0: Tree, k: nat, evidence: map<Path, Digest>)
    returns (r: Outcome<()>)
    requires Transaction(plan, t0, host) && !host.dead && k < |plan.entries| && 0 < |plan.entries[k].path|
    requires LatestPhase(host.log) == Some(RollingBack) && ProgressOf(host.log, plan.entries[k]).Reverting?
    requires ShowsEither(host.tree, plan.entries[k])
    modifies host`dead, host`faults, host`tree, host`looked
    ensures Transaction(plan, t0, host)
    ensures host.dead <==> r.Crashed?
    ensures host.faults <= old(host.faults)
    ensures RestoreOutcome(old(host.tree), host.tree, plan.entries[k], evidence, r.Ok?)
    ensures host.faults == old(host.faults) && Parent(plan.entries[k].path) in old(host.tree).dirs
            && TemporaryAt(old(host.tree), plan.entries[k].path, DigestOf(plan.entries[k].original)).None?
            ==> r.Ok?
  {
    hide *;
    var e := plan.entries[k];
    ghost var t := host.tree;
    TransactionParts(plan, t0, host);
    StartsRolling(host.log);
    EntryState(plan, t0, t, host.log, host.blobs, k, true);
    EitherSettled(t, e);
    r := RestoreEntry(host, e, evidence);
    RestoreKeepsState(plan, t0, t, host.tree, host.log, host.blobs, k, evidence, r.Ok?);
    TransactionIf(plan, t0, host);
  }

  lemma StartsRolling(log: seq<Record>)
    ensures LatestPhase(log) == Some(RollingBack) ==> LatestPhase(log) == Some(PhaseOf(true))
    ensures LatestPhase(log) == Some(Applying) ==> LatestPhase(log) == Some(PhaseOf(false))
  {
  }

  predicate ShowsEither(t: Tree, e: Entry) {
    Settled(t, e.path, e.original) || Settled(t, e.path, e.desired)
  }

  lemma EitherSettled(t: Tree, e: Entry)
    ensures ShowsEither(t, e) <==> Settled(t, e.path, e.original) || Settled(t, e.path, e.desired)
  {
  }

  lemma RestoreKeepsState(plan: Plan, t0: Tree, t: Tree, u: Tree, log: seq<Record>, blobs: map<Blob, Bytes>, k: nat,
                          evidence: map<Path, Digest>, ok: bool)
    requires State(plan, t0, t, log, blobs) && k < |plan.entries| && LatestPhase(log) == Some(RollingBack)
    requires ProgressOf(log, plan.entries[k]).Reverting? && WellFormed(u)
    requires 0 < |plan.entries[k].path| && RestoreOutcome(t, u, plan.entries[k], evidence, ok)
    requires InFlight(u, plan.entries[k].path, plan.entries[k].desired, plan.entries[k].original)
    ensures State(plan, t0, u, log, blobs)
  {
    hide State, WellFormed, InFlight, RestoreFrame, ProgressOf, LatestPhase;
    FramesAreEntryFrames(t, u, plan.entries[k]);
    StateStep(plan, t0, t, u, log, blobs, k, true);
  }

  /** The evidence for the existing created parents of `e` is complete and right. */
  predicate Proven(t: Tree, e: Entry, evidence: map<Path, Digest>) {
    forall d :: d in e.createdParents && d in t.dirs ==> Expected(evidence, d) == Some(Identity(t, d))
  }

  /** The circumstances under which an undisturbed undo succeeds. */
  ghost predicate UndoReady(t: Tree, e: Entry, evidence: map<Path, Digest>)
    requires 0 < |e.path|
  {
    && Proven(t, e, evidence)
    && TemporaryAt(t, e.path, DigestOf(e.original)).None?
    && (!ParentsAbsent(t, e) ==> Parent(e.path) in t.dirs)
  }

  /** How undoing entry `k` ends: its original is back and the log has it reverted, or there was
      nothing to undo. */
  ghost predicate UndoOutcome(plan: Plan, t: Tree, u: Tree, log: seq<Record>, longer: seq<Record>, k: nat,
                              evidence: map<Path, Digest>)
    requires k < |plan.entries| && 0 < |plan.entries[k].path|
  {
    var e := plan.entries[k];
    && RestoreFrame(t, u, e)
    && Settled(u, e.path, e.original)
    && (!ParentsAbsent(t, e) ==> Parent(e.path) in t.dirs)
    && (TemporaryAt(t, e.path, DigestOf(e.original)).None? ==> TemporaryAt(u, e.path, DigestOf(e.original)).None?)
    && (Removable(Tree(u.files, t.dirs), e.createdParents, evidence) ==> ParentsAbsent(u, e))
    && (|| Advanced(log, longer, plan, k, Reverted)
        || (longer == log && ProgressOf(log, e).Effecting? && LeafAt(t, e.path) == e.original && ParentsAbsent(t, e)))
  }

  /** The records around restoring an entry whose rollback is already pending. */
  method UndoPending(host: Host, journal: ApplyJournal, plan: Plan, ghost t0: Tree, k: nat, evidence: map<Path, Digest>)
    returns (r: Outcome<()>)
    requires Running(plan, t0, host, journal) && k < |plan.entries| && 0 < |plan.entries[k].path|
    requires LatestPhase(host.log) == Some(RollingBack) && ProgressOf(host.log, plan.entries[k]).Reverting?
    requires ShowsEither(host.tree, plan.entries[k])
    modifies journal, host`dead, host`faults, host`tree, host`looked, host`log, host`torn, host`stamp
    ensures Transaction(plan, t0, host)
    ensures host.dead <==> r.Crashed?
    ensures host.faults <= old(host.faults)
    ensures !host.dead && (JournalSteady(host.frail) || host.faults == old(host.faults)) ==> host.torn == old(host.torn)
    ensures !host.dead ==> Running(plan, t0, host, journal)
    ensures r.Ok? ==> Advanced(old(host.log), host.log, plan, k, Reverted) && !host.torn
    ensures r.Ok? ==> RestoreOutcome(old(host.tree), host.tree, plan.entries[k], evidence, true)
    ensures host.faults == old(host.faults) && !old(host.torn) && Parent(plan.entries[k].path) in old(host.tree).dirs
            && TemporaryAt(old(host.tree), plan.entries[k].path, DigestOf(plan.entries[k].original)).None?
            ==> r.Ok?
  {
    hide *;
    var e := plan.entries[k];
    RunningParts(plan, t0, host, journal);
    TransactionParts(plan, t0, host);
    r := RestoreStep(host, plan, t0, k, evidence);
    if r.Ok? {
      ghost var u := host.tree;
      TransactionParts(plan, t0, host);
      OutcomeSettled(old(host.tree), u, e, evidence);
      StartsRolling(host.log);
      EntryState(plan, t0, u, host.log, host.blobs, k, true);
      var seen := TakeSnapshot(host, e.path);
      TransactionIf(plan, t0, host);
      match seen
      case Crashed => r := Crashed;
      case Raise(error) =>
        r := Raise(error);
        RunningIf(plan, t0, host, journal);
      case Ok(leaf) =>
        RunningIf(plan, t0, host, journal);
        if leaf != e.original {
          r := Raise(ValueError);
        } else {
          r := CommitUndone(host, journal, plan, t0, k);
        }
    } else if !host.dead {
      RunningIf(plan, t0, host, journal);
    }
  }

  lemma OutcomeSettled(t: Tree, u: Tree, e: Entry, evidence: map<Path, Digest>)
    requires 0 < |e.path| && RestoreOutcome(t, u, e, evidence, true)
    ensures Settled(u, e.path, e.original) && LeafAt(u, e.path) == e.original
  {
  }

  /** One look at an entry before it is undone: its leaf, and whether it still has created parents. */
  method LookAt(host: Host, plan: Plan, ghost t0: Tree, k: nat, ghost rolling: bool, evidence: map<Path, Digest>)
    returns (r: Outcome<(Option<Snapshot>, bool)>)
    requires Transaction(plan, t0, host) && !host.dead && k < |plan.entries|
    requires LatestPhase(host.log) == Some(PhaseOf(rolling))
    modifies host`dead, host`faults, host`tree, host`looked
    ensures host.tree == old(host.tree) && Transaction(plan, t0, host)
    ensures host.dead <==> r.Crashed?
    ensures host.faults <= old(host.faults)
    ensures r.Ok? ==> r.value.0 == LeafAt(host.tree, plan.entries[k].path)
    ensures r.Ok? ==> (r.value.1 <==> !ParentsAbsent(host.tree, plan.entries[k]))
    ensures host.faults == old(host.faults) && Proven(host.tree, plan.entries[k], evidence) ==> r.Ok?
  {
    hide *;
    var e := plan.entries[k];
    TransactionParts(plan, t0, host);
    EntryState(plan, t0, host.tree, host.log, host.blobs, k, rolling);
    var current := TakeSnapshot(host, e.path);
    TransactionIf(plan, t0, host);
    match current
    case Crashed => return Crashed;
    case Raise(error) => return Raise(error);
    case Ok(leaf) =>
      ProvenIs(host.tree, e, evidence);
      var cleanup := CleanupNeeded(host.tree, e, evidence);
      match cleanup
      case Crashed => return Raise(ValueError);
      case Raise(error) => return Raise(error);
      case Ok(needed) => return Ok((leaf, needed));
  }

  lemma ProvenIs(t: Tree, e: Entry, evidence: map<Path, Digest>)
    ensures Proven(t, e, evidence)
            <==> forall d :: d in e.createdParents && d in t.dirs ==> Expected(evidence, d) == Some(Identity(t, d))
  {
  }

  /** Undoes one affected entry. An entry whose rollback was pending before gets no second pending record. */
  method UndoEntry(host: Host, journal: ApplyJournal, plan: Plan, ghost t0: Tree, k: nat, evidence: map<Path, Digest>,
                   pending: set<Path>)
    returns (r: Outcome<()>)
    requires Running(plan, t0, host, journal) && k < |plan.entries| && 0 < |plan.entries[k].path|
    requires LatestPhase(host.log) == Some(RollingBack)
    requires Undoable(host.tree, host.log, plan.entries[k], pending)
    modifies journal, host`dead, host`faults, host`tree, host`looked, host`log, host`torn, host`stamp
    ensures Transaction(plan, t0, host)
    ensures host.dead <==> r.Crashed?
    ensures host.faults <= old(host.faults)
    ensures !host.dead && (JournalSteady(host.frail) || host.faults == old(host.faults)) ==> host.torn == old(host.torn)
    ensures !host.dead ==> Running(plan, t0, host, journal)
    ensures r.Ok? && !old(host.torn) ==> !host.torn
    ensures r.Ok? ==> UndoOutcome(plan, old(host.tree), host.tree, old(host.log), host.log, k, evidence)
    ensures host.faults == old(host.faults) && !old(host.torn)
            && UndoReady(old(host.tree), plan.entries[k], evidence)
            ==> r.Ok?
  {
    hide *;
    ghost var t, log := host.tree, host.log;
    var e := plan.entries[k];
    RunningParts(plan, t0, host, journal);
    StartsRolling(host.log);
    UndoableParts(plan, t0, t, log, host.blobs, k, pending, evidence, host);
    var look := LookAt(host, plan, t0, k, true, evidence);
    if host.dead {
      return Crashed;
    }
    RunningIf(plan, t0, host, journal);
    match look
    case Crashed => return Crashed;
    case Raise(error) => return Raise(error);
    case Ok(seen) =>
      if seen.0 == e.original && !seen.1 {
        if e.path in pending {
          r := CommitUndone(host, journal, plan, t0, k);
        } else {
          r := Ok(());
        }
        if r.Ok? {
          NothingToRestore(plan, t, log, host.log, k, evidence, e.path in pending);
        }
        return r;
      }
      if e.path !in pending {
        r := CommitRollbackPending(host, journal, plan, t0, k);
        if !r.Ok? {
          return r;
        }
        StillReverting(log, host.log, plan, k);
      }
      ghost var mid := host.log;
      r := UndoPending(host, journal, plan, t0, k, evidence);
      if r.Ok? {
        RestoredOutcome(plan, t, host.tree, log, mid, host.log, k, evidence);
      }
  }

  /** The entry may be undone, and `pending` tells whether its rollback was announced. */
  predicate Undoable(t: Tree, log: seq<Record>, e: Entry, pending: set<Path>) {
    && (ProgressOf(log, e).Effecting? || ProgressOf(log, e).Effected? || ProgressOf(log, e).Reverting?)
    && (e.path in pending <==> ProgressOf(log, e).Reverting?)
    && ShowsEither(t, e)
  }

  lemma UndoableParts(plan: Plan, t0: Tree, t: Tree, log: seq<Record>, blobs: map<Blob, Bytes>, k: nat,
                      pending: set<Path>,
                      evidence: map<Path, Digest>, host: Host)
    requires host.tree == t && host.log == log && host.blobs == blobs && Transaction(plan, t0, host)
    requires k < |plan.entries| && 0 < |plan.entries[k].path| && LatestPhase(log) == Some(RollingBack)
    requires Undoable(t, log, plan.entries[k], pending)
    ensures var e := plan.entries[k];
            && (ProgressOf(log, e).Effecting? || ProgressOf(log, e).Effected? || ProgressOf(log, e).Reverting?)
            && (e.path in pending <==> ProgressOf(log, e).Reverting?)
            && ShowsEither(t, e)
            && (LeafAt(t, e.path) == e.original ==> Settled(t, e.path, e.original))
            && (ProgressOf(log, e).Effected? ==> LeafAt(t, e.path) != e.original)
            && (UndoReady(t, e, evidence) ==> Proven(t, e, evidence))
            && (UndoReady(t, e, evidence) && (LeafAt(t, e.path) != e.original || !ParentsAbsent(t, e)) ==>
                 Parent(e.path) in t.dirs && TemporaryAt(t, e.path, DigestOf(e.original)).None?)
  {
    hide Sound, ProgressOf;
    var e := plan.entries[k];
    StateParts(plan, t0, t, log, blobs);
    StartsRolling(log);
    EntryState(plan, t0, t, log, blobs, k, true);
    if LeafAt(t, e.path) != e.original {
      LeafHasParent(plan, t0, t, k);
    }
  }

  /** A path that shows its desired state has its parent directory. */
  lemma LeafHasParent(plan: Plan, t0: Tree, t: Tree, k: nat)
    requires Planned(plan, t0) && SafeTree(plan, t0, t) && k < |plan.entries| && 0 < |plan.entries[k].path|
    requires LeafAt(t, plan.entries[k].path) == plan.entries[k].desired
    ensures Parent(plan.entries[k].path) in t.dirs
  {
    var e := plan.entries[k];
    assert PlannedEntry(plan, t0, k);
    if e.desired.Some? {
      assert Leaf(e.path) in t.files;
    } else {
      assert Leaf(e.path) in t0.files;
    }
  }

  lemma NothingToRestore(plan: Plan, t: Tree, log: seq<Record>, longer: seq<Record>, k: nat,
                         evidence: map<Path, Digest>, logged: bool)
    requires k < |plan.entries| && 0 < |plan.entries[k].path|
    requires Settled(t, plan.entries[k].path, plan.entries[k].original) && ParentsAbsent(t, plan.entries[k])
    requires if logged then Advanced(log, longer, plan, k, Reverted)
             else longer == log && ProgressOf(log, plan.entries[k]).Effecting?
    ensures UndoOutcome(plan, t, t, log, longer, k, evidence)
  {
  }

  lemma StillReverting(log: seq<Record>, longer: seq<Record>, plan: Plan, k: nat)
    requires k < |plan.entries| && Advanced(log, longer, plan, k, Reverting)
    ensures LatestPhase(longer) == LatestPhase(log) && ProgressOf(longer, plan.entries[k]).Reverting?
  {
  }

  lemma RestoredOutcome(plan: Plan, t: Tree, u: Tree, log: seq<Record>, mid: seq<Record>, longer: seq<Record>, k: nat,
                        evidence: map<Path, Digest>)
    requires k < |plan.entries| && 0 < |plan.entries[k].path|
    requires RestoreOutcome(t, u, plan.entries[k], evidence, true)
    requires mid == log || Advanced(log, mid, plan, k, Reverting)
    requires Advanced(mid, longer, plan, k, Reverted)
    ensures UndoOutcome(plan, t, u, log, longer, k, evidence)
  {
    hide Removable, RestoreFrame, Settled, TemporaryAt;
    AdvancedTwice(log, mid, longer, plan, k);
  }

  lemma AdvancedTwice(log: seq<Record>, mid: seq<Record>, longer: seq<Record>, plan: Plan, k: nat)
    requires k < |plan.entries| && (mid == log || Advanced(log, mid, plan, k, Reverting))
    requires Advanced(mid, longer, plan, k, Reverted)
    ensures Advanced(log, longer, plan, k, Reverted)
  {
    hide ProgressOf, LatestPhase, Select;
  }
}
