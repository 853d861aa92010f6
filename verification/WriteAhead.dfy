/** The order in which a readable log that reached APPLIED must have been written. */
module WriteAhead {
  import opened Wrappers
  import opened ApplyModels
  import opened JournalEvidence
  import opened JournalLaws

  /** `k` is the only position of the log whose record has this phase. */
  ghost predicate OnlyPhase(log: seq<Record>, phase: Phase, k: nat) {
    && k < |log| && log[k].phase == Some(phase)
    && forall j :: 0 <= j < |log| && log[j].phase == Some(phase) ==> j == k
  }

  /** `k` is the only position of the log whose record bears the mark. */
  ghost predicate OnlyMark(log: seq<Record>, m: Mark, k: nat) {
    && k < |log| && Bears(log[k], m)
    && forall j :: 0 <= j < |log| && Bears(log[j], m) ==> j == k
  }

  /** Where the four forward phases stand. */
  datatype Forward = Forward(preparing: nat, ready: nat, applying: nat, applied: nat)

  ghost predicate PhasesInOrder(log: seq<Record>, f: Forward) {
    && OnlyPhase(log, Preparing, f.preparing)
    && OnlyPhase(log, BackupReady, f.ready)
    && OnlyPhase(log, Applying, f.applying)
    && OnlyPhase(log, Applied, f.applied)
    && f.preparing == 0 < f.ready < f.applying < f.applied
  }

  ghost predicate ParentInOrder(log: seq<Record>, parent: Path, owner: Path, pending: nat, verified: nat) {
    exists k: nat :: OnlyMark(log, ParentCreated(parent, owner), k) && pending < k < verified
  }

  /** One entry's evidence: each record once, backups before BACKUP_READY, effects after APPLYING. */
  ghost predicate EntryInOrder(log: seq<Record>, e: Entry, f: Forward) {
    exists bp: nat, bv: nat, ep: nat, ev: nat ::
      && OnlyMark(log, BackupPending(e.path), bp)
      && OnlyMark(log, BackupVerified(e.path, DigestOf(e.original)), bv)
      && OnlyMark(log, EffectPending(e.path), ep)
      && OnlyMark(log, EffectVerified(e.path, DigestOf(e.desired)), ev)
      && f.preparing < bp < bv < f.ready
      && f.applying < ep < ev < f.applied
      && forall parent :: parent in e.createdParents ==> ParentInOrder(log, parent, e.path, ep, ev)
  }

  lemma {:induction false} LatestIndex(log: seq<Record>) returns (k: nat)
    requires LatestPhase(log).Some?
    ensures k < |log| && log[k].phase == LatestPhase(log)
  {
    var n := |log| - 1;
    if log[n].phase.Some? {
      k := n;
    } else {
      k := LatestIndex(log[..n]);
    }
  }

  lemma OnceIndex(log: seq<Record>, m: Mark) returns (k: nat)
    requires Numbered(log) && Once(log, m)
    ensures OnlyMark(log, m, k) && Select(log, m)[0].order == k + 1
  {
    SelectedFromLog(log, m, 0);
    k := Select(log, m)[0].order - 1;
    forall j | 0 <= j < |log| && Bears(log[j], m) ensures j == k {
      SelectNonEmpty(log, m, j);
      var i :| 0 <= i < |Select(log, m)| && Select(log, m)[i] == log[j];
      assert i == 0;
    }
  }

  lemma ForwardPhaseOnce(log: seq<Record>, plan: Plan, k: nat)
    requires ValidLog(log, plan) && k < |log|
    requires log[k].phase.Some? && log[k].phase.value in {Preparing, BackupReady, Applying, Applied}
    ensures OnlyPhase(log, log[k].phase.value, k)
  {
    forall j | 0 <= j < |log| && log[j].phase == log[k].phase ensures j == k {
      if j < k {
        PhaseStrict(log, plan, j, k);
      } else if k < j {
        PhaseStrict(log, plan, k, j);
      }
    }
  }

  /** The phase record that a given one has to follow. */
  lemma Predecessor(log: seq<Record>, plan: Plan, k: nat, before: Phase) returns (j: nat)
    requires ValidLog(log, plan) && k < |log|
    requires LatestPhase(log[..k]) == Some(before)
    requires before in {Preparing, BackupReady, Applying, Applied}
    ensures j < k && OnlyPhase(log, before, j)
  {
    j := LatestIndex(log[..k]);
    ForwardPhaseOnce(log, plan, j);
  }

  lemma PhasesOrdered(log: seq<Record>, plan: Plan, d: nat) returns (f: Forward)
    requires ValidLog(log, plan) && d < |log| && log[d].phase == Some(Applied)
    ensures PhasesInOrder(log, f) && f.applied == d
  {
    ForwardPhaseOnce(log, plan, d);
    assert RecordOk(log, plan, d);
    var a := Predecessor(log, plan, d, Applying);
    assert RecordOk(log, plan, a);
    var b := Predecessor(log, plan, a, BackupReady);
    assert RecordOk(log, plan, b);
    var p := Predecessor(log, plan, b, Preparing);
    assert RecordOk(log, plan, p);
    f := Forward(p, b, a, d);
  }

  lemma BackupsOrdered(log: seq<Record>, plan: Plan, f: Forward, e: Entry) returns (bp: nat, bv: nat)
    requires ValidLog(log, plan) && PhasesInOrder(log, f) && e in plan.entries
    ensures OnlyMark(log, BackupPending(e.path), bp)
    ensures OnlyMark(log, BackupVerified(e.path, DigestOf(e.original)), bv)
    ensures f.preparing < bp < bv < f.ready
  {
    var i :| 0 <= i < |plan.entries| && plan.entries[i] == e;
    assert RecordOk(log, plan, f.ready);
    assert EntryBackedUp(log, plan.entries[i], log[f.ready].order);
    bp := OnceIndex(log, BackupPending(e.path));
    bv := OnceIndex(log, BackupVerified(e.path, DigestOf(e.original)));
  }

  lemma EffectsOrdered(log: seq<Record>, plan: Plan, f: Forward, e: Entry) returns (ep: nat, ev: nat)
    requires ValidLog(log, plan) && PhasesInOrder(log, f) && e in plan.entries
    ensures OnlyMark(log, EffectPending(e.path), ep)
    ensures OnlyMark(log, EffectVerified(e.path, DigestOf(e.desired)), ev)
    ensures f.applying < ep < ev < f.applied
    ensures forall parent :: parent in e.createdParents ==> ParentInOrder(log, parent, e.path, ep, ev)
  {
    var i :| 0 <= i < |plan.entries| && plan.entries[i] == e;
    assert RecordOk(log, plan, f.applied);
    assert EntryApplied(log, plan.entries[i], log[f.applied].order);
    ep := OnceIndex(log, EffectPending(e.path));
    ev := OnceIndex(log, EffectVerified(e.path, DigestOf(e.desired)));
    assert RecordOk(log, plan, ep);
    var a := Predecessor(log, plan, ep, Applying);
    forall parent | parent in e.createdParents ensures ParentInOrder(log, parent, e.path, ep, ev) {
      var j :| 0 <= j < |e.createdParents| && e.createdParents[j] == parent;
      assert ParentProven(log, e, e.createdParents[j]);
      var k := OnceIndex(log, ParentCreated(parent, e.path));
    }
  }

  /** In any readable log that contains APPLIED, every forward phase stands once and every entry has
      backup pending < backup verified < BACKUP_READY < APPLYING < effect pending < created parents
      < effect verified < APPLIED, each exactly once. */
  lemma WriteAheadOrder(log: seq<Record>, plan: Plan, d: nat) returns (f: Forward)
    requires ValidLog(log, plan) && d < |log| && log[d].phase == Some(Applied)
    ensures PhasesInOrder(log, f)
    ensures forall e :: e in plan.entries ==> EntryInOrder(log, e, f)
  {
    f := PhasesOrdered(log, plan, d);
    forall e | e in plan.entries ensures EntryInOrder(log, e, f) {
      var bp, bv := BackupsOrdered(log, plan, f, e);
      var ep, ev := EffectsOrdered(log, plan, f, e);
    }
  }

  /** An entry whose effect was verified was rolled back once, after that, whatever number of
      recoveries it took. */
  ghost predicate UndoneOnce(log: seq<Record>, e: Entry, d: nat) {
    || (forall k :: 0 <= k < |log| ==> !Bears(log[k], EffectVerified(e.path, DigestOf(e.desired))))
    || exists ev: nat, rp: nat, rv: nat ::
         && OnlyMark(log, EffectVerified(e.path, DigestOf(e.desired)), ev)
         && OnlyMark(log, RollbackPending(e.path), rp)
         && OnlyMark(log, RollbackVerified(e.path, DigestOf(e.original)), rv)
         && ev < rp < rv < d
  }

  /** In any readable log with a ROLLED_BACK record every verified effect was undone exactly once before it. */
  lemma RollbackOrder(log: seq<Record>, plan: Plan, d: nat, e: Entry)
    requires ValidLog(log, plan) && d < |log| && log[d].phase == Some(RolledBack) && e in plan.entries
    ensures UndoneOnce(log, e, d)
  {
    var i :| 0 <= i < |plan.entries| && plan.entries[i] == e;
    assert RecordOk(log, plan, d);
    assert EntryRolledBack(log, plan.entries[i], log[d].order);
    var applied := EffectVerified(e.path, DigestOf(e.desired));
    if Select(log, applied) == [] {
      forall k | 0 <= k < |log| ensures !Bears(log[k], applied) {
        if Bears(log[k], applied) {
          SelectNonEmpty(log, applied, k);
        }
      }
    } else {
      var ev := OnceIndex(log, applied);
      var rp := OnceIndex(log, RollbackPending(e.path));
      var rv := OnceIndex(log, RollbackVerified(e.path, DigestOf(e.original)));
    }
  }

  // ---- why ROLLING_BACK must not be entered again after ROLLED_BACK ----

  /** The phase machine lets RECOVERY_REQUIRED follow ROLLED_BACK and ROLLING_BACK follow that; a
      rollback record is then accepted on its own although the longer log is unreadable. */
  lemma ReentryBreaksTheLog(log: seq<Record>, plan: Plan, i: nat)
    requires ValidPlan(plan) && ValidLog(log, plan) && i < |plan.entries|
    requires LatestPhase(log) == Some(RolledBack)
    requires Select(log, EffectVerified(plan.entries[i].path, DigestOf(plan.entries[i].desired))) != []
    ensures ValidLog(Reentered(log, plan), plan)
    ensures var r := Numbering(Reentered(log, plan), MarkLine(RollbackPending(plan.entries[i].path)));
            Accepts(Reentered(log, plan), plan, r) && !ValidLog(Reentered(log, plan) + [r], plan)
  {
    var required := Numbering(log, PhaseLine(RecoveryRequired, plan));
    var once := log + [required];
    PhaseAppend(log, plan, required);
    LatestAppend(log, required);
    var again := Numbering(once, PhaseLine(RollingBack, plan));
    PhaseAppend(once, plan, again);
    LatestAppend(once, again);
    var twice := once + [again];
    var p := plan.entries[i].path;
    EntryForMember(plan, i);
    var m := EffectVerified(p, DigestOf(plan.entries[i].desired));
    SelectAppend(log, required, m);
    SelectAppend(once, again, m);
    var k := LatestIndex(log);
    assert twice[k] == log[k];
    var r := Numbering(twice, MarkLine(RollbackPending(p)));
    assert NonPhaseOk(r, LatestPhase(twice), plan);
    assert Disturbs(twice, plan, r);
    AppendRefines(twice, plan, r);
  }

  function Reentered(log: seq<Record>, plan: Plan): seq<Record> {
    var once := log + [Numbering(log, PhaseLine(RecoveryRequired, plan))];
    once + [Numbering(once, PhaseLine(RollingBack, plan))]
  }

  /** A phase record that asks for no evidence leaves a readable log readable. */
  lemma PhaseAppend(log: seq<Record>, plan: Plan, r: Record)
    requires ValidLog(log, plan) && r.order == |log| + 1
    requires r.phase == Some(RecoveryRequired) || r.phase == Some(RollingBack)
    requires PhaseShape(r, plan) && PhaseStep(LatestPhase(log), r.phase.value, log == [])
    ensures ValidLog(log + [r], plan)
  {
    forall i | 0 <= i < |log + [r]| ensures RecordOk(log + [r], plan, i) {
      assert (log + [r])[..i] == log[..i];
      if i < |log| {
        assert RecordOk(log, plan, i);
        if log[i].phase.Some? {
          PhaseKeepsEvidence(log, plan, r, log[i]);
        }
      } else {
        assert log[..i] == log;
      }
    }
  }

  lemma PhaseKeepsEvidence(log: seq<Record>, plan: Plan, r: Record, at: Record)
    requires at.phase.Some? && r.phase.Some? && PhaseEvidence(log, plan, at) && at.order <= r.order
    ensures PhaseEvidence(log + [r], plan, at)
  {
    forall m ensures Select(log + [r], m) == Select(log, m) {
      SelectAppend(log, r, m);
    }
    match at.phase.value
    case BackupReady =>
      forall i | 0 <= i < |plan.entries| ensures EntryBackedUp(log + [r], plan.entries[i], at.order) {
        assert EntryBackedUp(log, plan.entries[i], at.order);
      }
    case Applied =>
      forall i | 0 <= i < |plan.entries| ensures EntryApplied(log + [r], plan.entries[i], at.order) {
        var e := plan.entries[i];
        assert EntryApplied(log, e, at.order);
        forall j | 0 <= j < |e.createdParents| ensures ParentProven(log + [r], e, e.createdParents[j]) {
          assert ParentProven(log, e, e.createdParents[j]);
        }
      }
      SeenAppend(log, r, ChangesRechecked(Some(plan.changesDigest)), at.order);
      SeenAppend(log, r, IndexRechecked(Some(plan.indexDigest)), at.order);
    case RolledBack =>
      forall i | 0 <= i < |plan.entries| ensures EntryRolledBack(log + [r], plan.entries[i], at.order) {
        assert EntryRolledBack(log, plan.entries[i], at.order);
      }
      assert (log + [r])[..|log|] == log;
    case _ =>
  }
}
