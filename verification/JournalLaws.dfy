/** What the validation rules guarantee about whole logs. */
module JournalLaws {
  import opened Wrappers
  import opened ApplyModels
  import opened JournalEvidence

  // ---- selection under prefix and append ----

  lemma SelectAppend(log: seq<Record>, r: Record, m: Mark)
    ensures Select(log + [r], m) == Select(log, m) + (if Bears(r, m) then [r] else [])
  {
    assert (log + [r])[..|log|] == log;
  }

  lemma LatestAppend(log: seq<Record>, r: Record)
    ensures LatestPhase(log + [r]) == (if r.phase.Some? then r.phase else LatestPhase(log))
  {
    assert (log + [r])[..|log|] == log;
  }

  lemma {:induction false} SelectedFromLog(log: seq<Record>, m: Mark, k: nat)
    requires k < |Select(log, m)|
    ensures Select(log, m)[k] in log && Bears(Select(log, m)[k], m)
  {
    if k < |Select(log[..|log| - 1], m)| {
      SelectedFromLog(log[..|log| - 1], m, k);
    }
  }

  lemma {:induction false} SelectNonEmpty(log: seq<Record>, m: Mark, i: nat)
    requires i < |log| && Bears(log[i], m)
    ensures log[i] in Select(log, m)
  {
    if i < |log| - 1 {
      SelectNonEmpty(log[..|log| - 1], m, i);
    }
  }

  /** When the only record bearing `m` stands among the first `k`, the rest of the log adds nothing. */
  lemma {:induction false} SelectPrefix(log: seq<Record>, m: Mark, k: nat)
    requires Numbered(log) && k <= |log|
    requires Select(log, m) == [] || (Once(log, m) && Select(log, m)[0].order <= k)
    ensures Select(log[..k], m) == Select(log, m)
  {
    if k == |log| {
      assert log[..k] == log;
    } else {
      var init := log[..|log| - 1];
      assert log[|log| - 1].order == |log|;
      SelectPrefix(init, m, k);
      assert init[..k] == log[..k];
    }
  }

  lemma {:induction false} SelectBeforePrefix(log: seq<Record>, m: Mark, order: nat, k: nat)
    requires Numbered(log) && order <= k <= |log|
    ensures SelectBefore(log[..k], m, order) == SelectBefore(log, m, order)
  {
    if k == |log| {
      assert log[..k] == log;
    } else {
      var init := log[..|log| - 1];
      assert log[|log| - 1].order == |log|;
      SelectBeforePrefix(init, m, order, k);
      assert init[..k] == log[..k];
    }
  }

  // ---- prefix closure ----

  lemma PairPrefix(log: seq<Record>, a: Mark, b: Mark, order: nat, k: nat)
    requires Numbered(log) && order <= k <= |log|
    requires OncePair(log, a, b, order)
    ensures Select(log[..k], a) == Select(log, a) && Select(log[..k], b) == Select(log, b)
    ensures OncePair(log[..k], a, b, order)
  {
    SelectPrefix(log, a, k);
    SelectPrefix(log, b, k);
  }

  lemma AppliedPrefix(log: seq<Record>, e: Entry, order: nat, k: nat)
    requires Numbered(log) && order <= k <= |log|
    requires EntryApplied(log, e, order)
    ensures EntryApplied(log[..k], e, order)
  {
    PairPrefix(log, EffectPending(e.path), EffectVerified(e.path, DigestOf(e.desired)), order, k);
    forall j | 0 <= j < |e.createdParents|
      ensures ParentProven(log[..k], e, e.createdParents[j])
    {
      assert ParentProven(log, e, e.createdParents[j]);
      SelectPrefix(log, ParentCreated(e.createdParents[j], e.path), k);
    }
  }

  lemma RolledBackPrefix(log: seq<Record>, e: Entry, order: nat, k: nat)
    requires Numbered(log) && order <= k <= |log|
    requires EntryRolledBack(log, e, order)
    ensures EntryRolledBack(log[..k], e, order)
  {
    var applied := EffectVerified(e.path, DigestOf(e.desired));
    SelectPrefix(log, applied, k);
    if Select(log, applied) != [] {
      PairPrefix(log, RollbackPending(e.path), RollbackVerified(e.path, DigestOf(e.original)), order, k);
    }
  }

  lemma SeenPrefix(log: seq<Record>, m: Mark, order: nat, k: nat)
    requires Numbered(log) && order <= k <= |log|
    requires SeenBefore(log, m, order)
    ensures SeenBefore(log[..k], m, order)
  {
    var i :| 0 <= i < |log| && Bears(log[i], m) && log[i].order < order;
    assert log[..k][i] == log[i];
  }

  lemma EvidencePrefix(log: seq<Record>, plan: Plan, r: Record, k: nat)
    requires Numbered(log) && r.order <= k <= |log|
    requires r.phase.Some? && PhaseEvidence(log, plan, r)
    ensures PhaseEvidence(log[..k], plan, r)
  {
    match r.phase.value
    case BackupReady =>
      forall i | 0 <= i < |plan.entries| ensures EntryBackedUp(log[..k], plan.entries[i], r.order) {
        var e := plan.entries[i];
        assert EntryBackedUp(log, e, r.order);
        PairPrefix(log, BackupPending(e.path), BackupVerified(e.path, DigestOf(e.original)), r.order, k);
      }
    case Applied =>
      forall i | 0 <= i < |plan.entries| ensures EntryApplied(log[..k], plan.entries[i], r.order) {
        AppliedPrefix(log, plan.entries[i], r.order, k);
      }
      SeenPrefix(log, ChangesRechecked(Some(plan.changesDigest)), r.order, k);
      SeenPrefix(log, IndexRechecked(Some(plan.indexDigest)), r.order, k);
    case RolledBack =>
      forall i | 0 <= i < |plan.entries| ensures EntryRolledBack(log[..k], plan.entries[i], r.order) {
        RolledBackPrefix(log, plan.entries[i], r.order, k);
      }
      SelectBeforePrefix(log, RollbackIndexRechecked(Some(plan.indexDigest)), r.order, k);
    case _ =>
  }

  /** Losing whole records off the end of a readable log leaves a readable log. */
  lemma PrefixClosed(log: seq<Record>, plan: Plan, k: nat)
    requires ValidLog(log, plan) && k <= |log|
    ensures ValidLog(log[..k], plan)
  {
    forall i | 0 <= i < k ensures RecordOk(log[..k], plan, i) {
      assert RecordOk(log, plan, i);
      assert log[..k][..i] == log[..i];
      if log[i].phase.Some? {
        EvidencePrefix(log, plan, log[i], k);
      }
    }
  }

  // ---- the phase machine over a whole log ----

  /** The three phases that can be entered only once come first, in this order. */
  function Rank(p: Phase): nat {
    match p
    case Preparing => 0
    case BackupReady => 1
    case Applying => 2
    case _ => 3
  }

  lemma {:induction false} PhaseHistory(log: seq<Record>, plan: Plan, i: nat)
    requires ValidLog(log, plan) && i < |log| && log[i].phase.Some?
    ensures LatestPhase(log).Some?
    ensures Rank(log[i].phase.value) <= Rank(LatestPhase(log).value)
    ensures log[i].phase == Some(Applied) || log[i].phase == Some(RolledBack) ==>
              LatestPhase(log) == log[i].phase || LatestPhase(log) == Some(RecoveryRequired)
              || LatestPhase(log) == Some(RollingBack) || LatestPhase(log) == Some(RolledBack)
    ensures LatestPhase(log) == Some(Applied) ==> log[i].phase.value in {Preparing, BackupReady, Applying, Applied}
  {
    var n := |log| - 1;
    var init := log[..n];
    assert RecordOk(log, plan, n);
    if i < n {
      PrefixClosed(log, plan, n);
      PhaseHistory(init, plan, i);
    }
  }

  /** Phases below the rollback ones are never entered again. */
  lemma {:induction false} PhaseStrict(log: seq<Record>, plan: Plan, i: nat, j: nat)
    requires ValidLog(log, plan) && i < j < |log| && log[i].phase.Some? && log[j].phase.Some?
    ensures Rank(log[i].phase.value) <= Rank(log[j].phase.value)
    ensures Rank(log[j].phase.value) < 3 || log[j].phase == Some(Applied) ==>
              Rank(log[i].phase.value) < Rank(log[j].phase.value)
  {
    PrefixClosed(log, plan, j);
    PhaseHistory(log[..j], plan, i);
    assert RecordOk(log, plan, j);
  }

  lemma {:induction false} LatestIsRecorded(log: seq<Record>)
    ensures LatestPhase(log).Some? ==> exists i :: 0 <= i < |log| && log[i].phase == LatestPhase(log)
  {
    if log != [] && log[|log| - 1].phase.None? {
      LatestIsRecorded(log[..|log| - 1]);
    }
  }

  /** No rollback record stands in a log that has not entered ROLLING_BACK. */
  lemma NoRollbackBeforeRolling(log: seq<Record>, plan: Plan, i: nat)
    requires ValidLog(log, plan) && LatestPhase(log) == Some(Applying) && i < |log| && log[i].phase.None?
    ensures LatestPhase(log[..i]) != Some(RollingBack)
  {
    if LatestPhase(log[..i]) == Some(RollingBack) {
      LatestIsRecorded(log[..i]);
      var j :| 0 <= j < i && log[..i][j].phase == LatestPhase(log[..i]);
      PhaseHistory(log, plan, j);
    }
  }

  // ---- the incremental check ----

  /** What `record` checks before it appends: the whole log for a phase, one record otherwise. */
  predicate Accepts(log: seq<Record>, plan: Plan, r: Record) {
    && r.order == |log| + 1
    && if r.phase.Some? then ValidLog(log + [r], plan) else NonPhaseOk(r, LatestPhase(log), plan)
  }

  /** A rollback record for an entry already proven rolled back: it comes after ROLLED_BACK. */
  predicate Disturbs(log: seq<Record>, plan: Plan, r: Record) {
    && r.phase.None?
    && r.stage.RollbackStage?
    && (exists i :: 0 <= i < |log| && log[i].phase == Some(RolledBack))
    && r.path.Some?
    && var e := EntryFor(plan, r.path.value);
    && e.Some?
    && Select(log, EffectVerified(r.path.value, DigestOf(e.value.desired))) != []
  }

  lemma {:induction false} EntryForPath(entries: seq<Entry>, p: Path)
    ensures EntryAmong(entries, p).Some? ==>
              EntryAmong(entries, p).value in entries && EntryAmong(entries, p).value.path == p
    ensures EntryAmong(entries, p).None? ==> forall e :: e in entries ==> e.path != p
  {
    if entries != [] {
      EntryForPath(entries[..|entries| - 1], p);
    }
  }

  lemma EntryForMember(plan: Plan, i: nat)
    requires ValidPlan(plan) && i < |plan.entries|
    ensures EntryFor(plan, plan.entries[i].path) == Some(plan.entries[i])
  {
    EntryForPath(plan.entries, plan.entries[i].path);
  }

  /** A record of a higher phase cannot have let `r` in. */
  lemma EarlierPhaseUntouched(log: seq<Record>, plan: Plan, r: Record, i: nat)
    requires ValidLog(log, plan) && i < |log| && log[i].phase.Some?
    requires NonPhaseOk(r, LatestPhase(log), plan)
    ensures log[i].phase == Some(BackupReady) ==> !r.stage.BackupStage?
    ensures log[i].phase == Some(Applied) || log[i].phase == Some(RolledBack) ==>
              !r.stage.BackupStage? && !r.stage.ApplyStage?
  {
    PhaseHistory(log, plan, i);
  }

  lemma EvidenceAppend(log: seq<Record>, plan: Plan, r: Record, i: nat)
    requires ValidPlan(plan) && ValidLog(log, plan) && i < |log| && log[i].phase.Some?
    requires r.order == |log| + 1 && NonPhaseOk(r, LatestPhase(log), plan) && !Disturbs(log, plan, r)
    ensures PhaseEvidence(log + [r], plan, log[i])
  {
    var p := log[i];
    assert RecordOk(log, plan, i);
    EarlierPhaseUntouched(log, plan, r, i);
    match p.phase.value
    case BackupReady =>
      forall k | 0 <= k < |plan.entries| ensures EntryBackedUp(log + [r], plan.entries[k], p.order) {
        var e := plan.entries[k];
        assert EntryBackedUp(log, e, p.order);
        SelectAppend(log, r, BackupPending(e.path));
        SelectAppend(log, r, BackupVerified(e.path, DigestOf(e.original)));
      }
    case Applied =>
      forall k | 0 <= k < |plan.entries| ensures EntryApplied(log + [r], plan.entries[k], p.order) {
        AppliedAppend(log, plan.entries[k], r, p.order);
      }
      SeenAppend(log, r, ChangesRechecked(Some(plan.changesDigest)), p.order);
      SeenAppend(log, r, IndexRechecked(Some(plan.indexDigest)), p.order);
    case RolledBack =>
      forall k | 0 <= k < |plan.entries| ensures EntryRolledBack(log + [r], plan.entries[k], p.order) {
        RolledBackAppend(log, plan, k, r, i);
      }
      assert (log + [r])[..|log|] == log;
    case _ =>
  }

  lemma SeenAppend(log: seq<Record>, r: Record, m: Mark, order: nat)
    requires SeenBefore(log, m, order)
    ensures SeenBefore(log + [r], m, order)
  {
    var i :| 0 <= i < |log| && Bears(log[i], m) && log[i].order < order;
    assert (log + [r])[i] == log[i];
  }

  lemma AppliedAppend(log: seq<Record>, e: Entry, r: Record, order: nat)
    requires EntryApplied(log, e, order) && !r.stage.ApplyStage?
    ensures EntryApplied(log + [r], e, order)
  {
    SelectAppend(log, r, EffectPending(e.path));
    SelectAppend(log, r, EffectVerified(e.path, DigestOf(e.desired)));
    forall j | 0 <= j < |e.createdParents| ensures ParentProven(log + [r], e, e.createdParents[j]) {
      assert ParentProven(log, e, e.createdParents[j]);
      SelectAppend(log, r, ParentCreated(e.createdParents[j], e.path));
    }
  }

  lemma RolledBackAppend(log: seq<Record>, plan: Plan, k: nat, r: Record, i: nat)
    requires ValidPlan(plan) && k < |plan.entries|
    requires i < |log| && log[i].phase == Some(RolledBack)
    requires EntryRolledBack(log, plan.entries[k], log[i].order)
    requires r.phase.None? && !r.stage.ApplyStage? && !Disturbs(log, plan, r)
    ensures EntryRolledBack(log + [r], plan.entries[k], log[i].order)
  {
    var e := plan.entries[k];
    EntryForMember(plan, k);
    SelectAppend(log, r, EffectVerified(e.path, DigestOf(e.desired)));
    SelectAppend(log, r, RollbackPending(e.path));
    SelectAppend(log, r, RollbackVerified(e.path, DigestOf(e.original)));
  }

  /** A record that `record` accepts keeps the log readable exactly when it does not disturb an
      earlier ROLLED_BACK: the local check of a non-phase record is then as good as the whole one. */
  lemma AppendRefines(log: seq<Record>, plan: Plan, r: Record)
    requires ValidPlan(plan) && ValidLog(log, plan) && Accepts(log, plan, r)
    ensures ValidLog(log + [r], plan) <==> !Disturbs(log, plan, r)
  {
    if r.phase.None? {
      if Disturbs(log, plan, r) {
        DisturbedIsInvalid(log, plan, r);
      } else {
        forall i | 0 <= i < |log + [r]| ensures RecordOk(log + [r], plan, i) {
          assert (log + [r])[..i] == log[..i];
          if i < |log| {
            assert RecordOk(log, plan, i);
            if log[i].phase.Some? {
              EvidenceAppend(log, plan, r, i);
            }
          } else {
            assert log[..i] == log;
          }
        }
      }
    }
  }

  lemma DisturbedIsInvalid(log: seq<Record>, plan: Plan, r: Record)
    requires ValidPlan(plan) && ValidLog(log, plan) && Disturbs(log, plan, r)
    requires NonPhaseOk(r, LatestPhase(log), plan)
    ensures !ValidLog(log + [r], plan)
  {
    var i :| 0 <= i < |log| && log[i].phase == Some(RolledBack);
    var p := r.path.value;
    EntryForPath(plan.entries, p);
    var e := EntryFor(plan, p).value;
    var k :| 0 <= k < |plan.entries| && plan.entries[k] == e;
    assert RecordOk(log, plan, i);
    assert EntryRolledBack(log, plan.entries[k], log[i].order);
    SecondRollback(log, e, r, log[i].order);
    assert !EntryRolledBack(log + [r], plan.entries[k], log[i].order);
    assert (log + [r])[i] == log[i];
    assert !RecordOk(log + [r], plan, i);
  }

  /** A further rollback record of an entry proven rolled back spoils the proof. */
  lemma SecondRollback(log: seq<Record>, e: Entry, r: Record, order: nat)
    requires EntryRolledBack(log, e, order) && Select(log, EffectVerified(e.path, DigestOf(e.desired))) != []
    requires r.phase.None?
    requires Bears(r, RollbackPending(e.path)) || Bears(r, RollbackVerified(e.path, DigestOf(e.original)))
    ensures !EntryRolledBack(log + [r], e, order)
  {
    SelectAppend(log, r, EffectVerified(e.path, DigestOf(e.desired)));
    SelectAppend(log, r, RollbackPending(e.path));
    SelectAppend(log, r, RollbackVerified(e.path, DigestOf(e.original)));
  }

  /** Without a ROLLED_BACK record in the log nothing can be disturbed. */
  lemma AppendStaysValid(log: seq<Record>, plan: Plan, r: Record)
    requires ValidPlan(plan) && ValidLog(log, plan) && Accepts(log, plan, r)
    requires forall i :: 0 <= i < |log| ==> log[i].phase != Some(RolledBack)
    ensures ValidLog(log + [r], plan)
  {
    AppendRefines(log, plan, r);
  }
}
