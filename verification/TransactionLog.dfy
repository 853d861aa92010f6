/** Writing the journal of a transaction so that its invariant survives every way a write can end. */
module TransactionLog {
  import opened Wrappers
  import opened ApplyModels
  import opened TargetTree
  import opened Hosts
  import opened ApplyJournals
  import opened JournalEvidence
  import opened JournalLaws
  import opened EntryProgress
  import opened EntryEffects
  import opened TransactionTree

  /** A live process works on the transaction through `journal`. */
  ghost predicate Running(plan: Plan, t0: Tree, host: Host, journal: ApplyJournal)
    reads host, journal
  {
    && Transaction(plan, t0, host)
    && !host.dead
    && journal.host == host
    && journal.Valid()
  }

  lemma RunningParts(plan: Plan, t0: Tree, host: Host, journal: ApplyJournal)
    requires Running(plan, t0, host, journal)
    ensures Transaction(plan, t0, host) && !host.dead && journal.host == host && journal.Valid()
  {
  }

  lemma RunningIf(plan: Plan, t0: Tree, host: Host, journal: ApplyJournal)
    requires Transaction(plan, t0, host) && !host.dead && journal.host == host && journal.Valid()
    ensures Running(plan, t0, host, journal)
  {
  }

  /** Writing `line` is in order, and the tree fits the log with or without it. */
  ghost predicate Fitting(plan: Plan, t0: Tree, host: Host, line: Line)
    reads host
  {
    var rec := Numbering(host.log, line);
    && Orderly(host.log, plan, rec)
    && PhaseTree(plan, t0, host.tree, host.log + [rec], host.blobs)
  }

  /** Appends a fitting record. However the write ends, the transaction's invariant holds. */
  method Commit(host: Host, journal: ApplyJournal, line: Line, ghost plan: Plan, ghost t0: Tree)
    returns (r: Outcome<()>)
    requires Running(plan, t0, host, journal)
    requires Accepts(host.log, plan, Numbering(host.log, line)) ==> Fitting(plan, t0, host, line)
    modifies journal, host`dead, host`faults, host`log, host`torn, host`stamp
    ensures Transaction(plan, t0, host)
    ensures host.dead <==> r.Crashed?
    ensures host.faults <= old(host.faults)
    ensures !host.dead && (JournalSteady(host.frail) || host.faults == old(host.faults)) ==> host.torn == old(host.torn)
    ensures JournalSteady(host.frail) && !host.dead ==> host.faults == old(host.faults)
    ensures !host.dead ==> Running(plan, t0, host, journal)
    ensures host.log == old(host.log) || host.log == old(host.log) + [Numbering(old(host.log), line)]
    ensures r.Ok? ==> host.log == old(host.log) + [Numbering(old(host.log), line)] && !host.torn
    ensures r.Ok? ==> Accepts(old(host.log), plan, Numbering(old(host.log), line))
    ensures host.faults == old(host.faults) && !old(host.torn)
            && Accepts(old(host.log), plan, Numbering(old(host.log), line))
            ==> r.Ok?
  {
    StateParts(plan, t0, host.tree, host.log, host.blobs);
    hide ValidLog, EntryChain, PhaseTree, Planned, SafeTree, Accepts, Orderly, Sound;
    r := journal.Record(line);
    ghost var rec := Numbering(old(host.log), line);
    if host.log == old(host.log) + [rec] {
      AppendSound(old(host.log), plan, rec);
    }
  }

  // ---- which entry a record concerns ----

  /** No entry but `k` is moved by the record. */
  predicate MovesOnly(plan: Plan, r: Record, k: nat) {
    forall j :: 0 <= j < |plan.entries| && j != k ==>
      !Bears(r, EffectPending(plan.entries[j].path)) && !Bears(r, AppliedMark(plan.entries[j]))
      && !Bears(r, RollbackPending(plan.entries[j].path)) && !Bears(r, Undone(plan.entries[j]))
  }

  /** The record concerns no created parent. */
  predicate NoParent(r: Record) {
    !r.detail.CreatedParentText?
  }

  lemma PathMovesOnly(plan: Plan, r: Record, k: nat)
    requires ValidPlan(plan) && k < |plan.entries| && r.path == Some(plan.entries[k].path)
    ensures MovesOnly(plan, r, k)
  {
  }

  /** A record that concerns entry `k` alone is orderly when it is so for `k`. */
  lemma OrderlyOne(log: seq<Record>, plan: Plan, r: Record, k: nat)
    requires k < |plan.entries| && MovesOnly(plan, r, k) && NoParent(r) && r.phase.None?
    requires OrderlyFor(log, plan.entries[k], r)
    ensures Orderly(log, plan, r)
  {
    hide ProgressOf;
    forall j | 0 <= j < |plan.entries| ensures OrderlyFor(log, plan.entries[j], r) {
    }
  }

  /** A record that moves no entry at all. */
  lemma OrderlyNone(log: seq<Record>, plan: Plan, r: Record)
    requires r.phase == Some(RollingBack) ==> LatestPhase(log) == Some(Applying)
    requires r.path.None?
    ensures Orderly(log, plan, r)
    ensures forall k :: 0 <= k < |plan.entries| ==>
              ProgressOf(log + [r], plan.entries[k]) == ProgressOf(log, plan.entries[k])
  {
    hide Select;
    forall k | 0 <= k < |plan.entries|
      ensures OrderlyFor(log, plan.entries[k], r)
              && ProgressOf(log + [r], plan.entries[k]) == ProgressOf(log, plan.entries[k])
    {
      AppendMoves(log, plan.entries[k], r);
    }
  }

  lemma EntriesAppend(t: Tree, plan: Plan, rolling: bool, log: seq<Record>, r: Record, k: nat)
    requires k < |plan.entries| && MovesOnly(plan, r, k) && Orderly(log, plan, r)
    requires AllEntries(t, plan, rolling, log)
    requires EntryTree(t, plan.entries[k], rolling, Move(r, plan.entries[k], ProgressOf(log, plan.entries[k])))
    ensures AllEntries(t, plan, rolling, log + [r])
    ensures forall j :: 0 <= j < |plan.entries| && j != k ==>
              ProgressOf(log + [r], plan.entries[j]) == ProgressOf(log, plan.entries[j])
    ensures ProgressOf(log + [r], plan.entries[k]) == Move(r, plan.entries[k], ProgressOf(log, plan.entries[k]))
  {
    hide EntryTree, ProgressOf, Bears, OrderlyFor;
    forall j | 0 <= j < |plan.entries|
      ensures EntryTree(t, plan.entries[j], rolling, ProgressOf(log + [r], plan.entries[j]))
      ensures ProgressOf(log + [r], plan.entries[j]) == Move(r, plan.entries[j], ProgressOf(log, plan.entries[j]))
    {
      AppendMoves(log, plan.entries[j], r);
    }
  }

  // ---- rollback records ----

  /** RP for an entry whose effect was under way or verified. */
  method CommitRollbackPending(host: Host, journal: ApplyJournal, plan: Plan, ghost t0: Tree, k: nat)
    returns (r: Outcome<()>)
    requires Running(plan, t0, host, journal) && k < |plan.entries|
    requires LatestPhase(host.log) == Some(RollingBack)
    requires ProgressOf(host.log, plan.entries[k]).Effecting? || ProgressOf(host.log, plan.entries[k]).Effected?
    modifies journal, host`dead, host`faults, host`log, host`torn, host`stamp
    ensures Transaction(plan, t0, host)
    ensures host.dead <==> r.Crashed?
    ensures host.faults <= old(host.faults)
    ensures !host.dead && (JournalSteady(host.frail) || host.faults == old(host.faults)) ==> host.torn == old(host.torn)
    ensures JournalSteady(host.frail) && !host.dead ==> host.faults == old(host.faults)
    ensures !host.dead ==> Running(plan, t0, host, journal)
    ensures r.Ok? ==> Advanced(old(host.log), host.log, plan, k, Reverting) && !host.torn
    ensures host.faults == old(host.faults) && !old(host.torn) ==> r.Ok?
  {
    var line := MarkLine(RollbackPending(plan.entries[k].path));
    RollbackFits(plan, t0, host.tree, host.log, host.blobs, k, Numbering(host.log, line), true);
    hide Sound, Planned, SafeTree, PhaseTree, Advanced, ProgressOf, Accepts, Orderly;
    r := Commit(host, journal, line, plan, t0);
  }

  /** The log grew by records of one phase that moved entry `k` to `progress` and no other entry. */
  ghost predicate Advanced(log: seq<Record>, longer: seq<Record>, plan: Plan, k: nat, progress: Progress)
    requires k < |plan.entries|
  {
    && LatestPhase(longer) == LatestPhase(log)
    && ProgressOf(longer, plan.entries[k]) == progress
    && (forall j :: 0 <= j < |plan.entries| && j != k ==>
         ProgressOf(longer, plan.entries[j]) == ProgressOf(log, plan.entries[j]))
    && (forall m: Mark :: m.RollbackIndexRechecked? ==> Select(longer, m) == Select(log, m))
    && (forall j, i :: 0 <= j < |plan.entries| && 0 <= i < |plan.entries[j].createdParents| ==>
         var m := ParentCreated(plan.entries[j].createdParents[i], plan.entries[j].path);
         Select(longer, m) == Select(log, m))
  }

  lemma AdvancedBy(log: seq<Record>, r: Record, plan: Plan, k: nat)
    requires k < |plan.entries| && MovesOnly(plan, r, k) && Orderly(log, plan, r) && r.phase.None?
    requires NoParent(r) && !r.detail.RollbackIndexText?
    ensures Advanced(log, log + [r], plan, k, Move(r, plan.entries[k], ProgressOf(log, plan.entries[k])))
  {
    LatestAppend(log, r);
    forall j | 0 <= j < |plan.entries|
      ensures ProgressOf(log + [r], plan.entries[j]) == Move(r, plan.entries[j], ProgressOf(log, plan.entries[j]))
    {
      AppendMoves(log, plan.entries[j], r);
    }
    forall m: Mark | m.RollbackIndexRechecked? || m.ParentCreated? ensures Select(log + [r], m) == Select(log, m) {
      SelectAppend(log, r, m);
    }
  }

  /** A rollback record is accepted while rolling back, and orderly when its entry is at the step before. */
  lemma RollbackLine(log: seq<Record>, plan: Plan, k: nat, rec: Record, pending: bool)
    requires ValidPlan(plan) && k < |plan.entries| && LatestPhase(log) == Some(RollingBack)
    requires var e := plan.entries[k];
             rec == Numbering(log, MarkLine(if pending then RollbackPending(e.path) else Undone(e)))
    requires if pending then ProgressOf(log, plan.entries[k]).Effecting? || ProgressOf(log, plan.entries[k]).Effected?
             else ProgressOf(log, plan.entries[k]).Reverting?
    ensures Accepts(log, plan, rec)
    ensures OrderlyFor(log, plan.entries[k], rec)
    ensures Move(rec, plan.entries[k], ProgressOf(log, plan.entries[k])) == if pending then Reverting else Reverted
  {
    EntryForMember(plan, k);
  }

  /** A rollback record at the right moment fits log and tree, and moves its entry alone. */
  lemma RollbackFits(plan: Plan, t0: Tree, t: Tree, log: seq<Record>, blobs: map<Blob, Bytes>, k: nat, rec: Record,
                     pending: bool)
    requires ValidPlan(plan) && k < |plan.entries| && LatestPhase(log) == Some(RollingBack)
    requires PhaseTree(plan, t0, t, log, blobs)
    requires rec == Numbering(log, MarkLine(
               if pending then RollbackPending(plan.entries[k].path) else Undone(plan.entries[k])))
    requires if pending then ProgressOf(log, plan.entries[k]).Effecting? || ProgressOf(log, plan.entries[k]).Effected?
             else ProgressOf(log, plan.entries[k]).Reverting? && Settled(t, plan.entries[k].path, plan.entries[k].original)
    ensures Accepts(log, plan, rec) && Orderly(log, plan, rec)
    ensures PhaseTree(plan, t0, t, log + [rec], blobs)
    ensures Advanced(log, log + [rec], plan, k, if pending then Reverting else Reverted)
  {
    hide Select, Accepts, ProgressOf, OrderlyFor, Orderly, MovesOnly, Bears, LatestPhase, Advanced;
    RollbackLine(log, plan, k, rec, pending);
    PathMovesOnly(plan, rec, k);
    OrderlyOne(log, plan, rec, k);
    LatestAppend(log, rec);
    AdvancedBy(log, rec, plan, k);
    assert EntryTree(t, plan.entries[k], true, ProgressOf(log, plan.entries[k]));
    EntriesAppend(t, plan, true, log, rec, k);
  }

  /** RV for an entry whose original is back. */
  method CommitUndone(host: Host, journal: ApplyJournal, plan: Plan, ghost t0: Tree, k: nat) returns (r: Outcome<()>)
    requires Running(plan, t0, host, journal) && k < |plan.entries|
    requires LatestPhase(host.log) == Some(RollingBack)
    requires ProgressOf(host.log, plan.entries[k]).Reverting?
    requires Settled(host.tree, plan.entries[k].path, plan.entries[k].original)
    modifies journal, host`dead, host`faults, host`log, host`torn, host`stamp
    ensures Transaction(plan, t0, host)
    ensures host.dead <==> r.Crashed?
    ensures host.faults <= old(host.faults)
    ensures !host.dead && (JournalSteady(host.frail) || host.faults == old(host.faults)) ==> host.torn == old(host.torn)
    ensures JournalSteady(host.frail) && !host.dead ==> host.faults == old(host.faults)
    ensures !host.dead ==> Running(plan, t0, host, journal)
    ensures r.Ok? ==> Advanced(old(host.log), host.log, plan, k, Reverted) && !host.torn
    ensures host.faults == old(host.faults) && !old(host.torn) ==> r.Ok?
  {
    var line := MarkLine(Undone(plan.entries[k]));
    RollbackFits(plan, t0, host.tree, host.log, host.blobs, k, Numbering(host.log, line), false);
    hide Sound, Planned, SafeTree, PhaseTree, Advanced, ProgressOf, Accepts, Orderly;
    r := Commit(host, journal, line, plan, t0);
  }

  lemma FittingIf(plan: Plan, t0: Tree, host: Host, line: Line)
    requires Orderly(host.log, plan, Numbering(host.log, line))
    requires PhaseTree(plan, t0, host.tree, host.log + [Numbering(host.log, line)], host.blobs)
    ensures Fitting(plan, t0, host, line)
  {
  }

  lemma VerificationFits(plan: Plan, t0: Tree, t: Tree, log: seq<Record>, blobs: map<Blob, Bytes>, m: Mark)
    requires PhaseTree(plan, t0, t, log, blobs)
    requires m.RollbackIndexRechecked? || m.IndexRechecked? || m.ChangesRechecked?
    ensures var rec := Numbering(log, MarkLine(m));
            && Orderly(log, plan, rec)
            && PhaseTree(plan, t0, t, log + [rec], blobs)
            && LatestPhase(log + [rec]) == LatestPhase(log)
            && SameProgress(log, log + [rec], plan)
  {
    hide Select, ProgressOf, AllEntries, AppliedTree, OrderlyFor;
    var rec := Numbering(log, MarkLine(m));
    OrderlyNone(log, plan, rec);
    LatestAppend(log, rec);
    SameProgressTree(t, plan, log, log + [rec]);
  }

  /** A verification record leaves every entry where it is. */
  method CommitVerification(host: Host, journal: ApplyJournal, plan: Plan, ghost t0: Tree, m: Mark)
    returns (r: Outcome<()>)
    requires Running(plan, t0, host, journal)
    requires m.RollbackIndexRechecked? || m.IndexRechecked? || m.ChangesRechecked?
    modifies journal, host`dead, host`faults, host`log, host`torn, host`stamp
    ensures Transaction(plan, t0, host)
    ensures host.dead <==> r.Crashed?
    ensures host.faults <= old(host.faults)
    ensures !host.dead && (JournalSteady(host.frail) || host.faults == old(host.faults)) ==> host.torn == old(host.torn)
    ensures JournalSteady(host.frail) && !host.dead ==> host.faults == old(host.faults)
    ensures !host.dead ==> Running(plan, t0, host, journal)
    ensures r.Ok? ==> Accepts(old(host.log), plan, Numbering(old(host.log), MarkLine(m)))
    ensures r.Ok? ==> !host.torn && host.log == old(host.log) + [Numbering(old(host.log), MarkLine(m))]
    ensures r.Ok? ==> LatestPhase(host.log) == LatestPhase(old(host.log))
    ensures r.Ok? ==> SameProgress(old(host.log), host.log, plan)
    ensures host.faults == old(host.faults) && !old(host.torn)
            && Accepts(old(host.log), plan, Numbering(old(host.log), MarkLine(m)))
            ==> r.Ok?
  {
    hide *;
    var line := MarkLine(m);
    RunningParts(plan, t0, host, journal);
    TransactionParts(plan, t0, host);
    VerificationFits(plan, t0, host.tree, host.log, host.blobs, m);
    FittingIf(plan, t0, host, line);
    r := Commit(host, journal, line, plan, t0);
  }

  ghost predicate SameProgress(log: seq<Record>, longer: seq<Record>, plan: Plan) {
    forall k :: 0 <= k < |plan.entries| ==> ProgressOf(longer, plan.entries[k]) == ProgressOf(log, plan.entries[k])
  }

  lemma SameProgressTree(t: Tree, plan: Plan, log: seq<Record>, longer: seq<Record>)
    requires SameProgress(log, longer, plan)
    ensures forall rolling :: AllEntries(t, plan, rolling, log) ==> AllEntries(t, plan, rolling, longer)
  {
    hide EntryTree, ProgressOf;
  }

  lemma PhaseFits(plan: Plan, t0: Tree, t: Tree, log: seq<Record>, blobs: map<Blob, Bytes>, phase: Phase)
    requires phase.RollingBack? ==> LatestPhase(log) == Some(Applying)
    requires PhaseTreeFor(plan, t0, t, Some(phase), log, blobs)
    ensures var rec := Numbering(log, PhaseLine(phase, plan));
            && Orderly(log, plan, rec)
            && PhaseTree(plan, t0, t, log + [rec], blobs)
            && LatestPhase(log + [rec]) == Some(phase)
            && SameProgress(log, log + [rec], plan)
  {
    hide Select, ProgressOf, AllEntries, AppliedTree, OrderlyFor;
    var rec := Numbering(log, PhaseLine(phase, plan));
    OrderlyNone(log, plan, rec);
    LatestAppend(log, rec);
    SameProgressTree(t, plan, log, log + [rec]);
  }

  /** A phase record whose tree condition already holds. */
  method CommitPhase(host: Host, journal: ApplyJournal, plan: Plan, ghost t0: Tree, phase: Phase)
    returns (r: Outcome<()>)
    requires Running(plan, t0, host, journal)
    requires phase.RollingBack? ==> LatestPhase(host.log) == Some(Applying)
    requires PhaseTreeFor(plan, t0, host.tree, Some(phase), host.log, host.blobs)
    modifies journal, host`dead, host`faults, host`log, host`torn, host`stamp
    ensures Transaction(plan, t0, host)
    ensures host.dead <==> r.Crashed?
    ensures host.faults <= old(host.faults)
    ensures !host.dead && (JournalSteady(host.frail) || host.faults == old(host.faults)) ==> host.torn == old(host.torn)
    ensures JournalSteady(host.frail) && !host.dead ==> host.faults == old(host.faults)
    ensures !host.dead ==> Running(plan, t0, host, journal)
    ensures r.Ok? ==> !host.torn && LatestPhase(host.log) == Some(phase)
    ensures LatestPhase(host.log) == LatestPhase(old(host.log)) || LatestPhase(host.log) == Some(phase)
    ensures host.log == old(host.log) || host.log == old(host.log) + [Numbering(old(host.log), PhaseLine(phase, plan))]
    ensures r.Ok? ==> host.log == old(host.log) + [Numbering(old(host.log), PhaseLine(phase, plan))]
    ensures r.Ok? ==> Accepts(old(host.log), plan, Numbering(old(host.log), PhaseLine(phase, plan)))
    ensures r.Ok? ==> SameProgress(old(host.log), host.log, plan)
    ensures host.faults == old(host.faults) && !old(host.torn)
            && Accepts(old(host.log), plan, Numbering(old(host.log), PhaseLine(phase, plan)))
            ==> r.Ok?
  {
    hide *;
    var line := PhaseLine(phase, plan);
    RunningParts(plan, t0, host, journal);
    TransactionParts(plan, t0, host);
    PhaseFits(plan, t0, host.tree, host.log, host.blobs, phase);
    FittingIf(plan, t0, host, line);
    r := Commit(host, journal, line, plan, t0);
  }
}
