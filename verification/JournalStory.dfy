/** What a readable log can tell: the course its phases take, and which record may stand under which phase,
    written in the plain fields of the records. */
module JournalStory {
  import opened Wrappers
  import opened ApplyModels
  import opened JournalEvidence
  import opened JournalLaws
  import opened WriteAhead

  // ---- the course of the phases ----

  const FORWARD: seq<Phase> := [Preparing, BackupReady, Applying, Applied]

  /** The phases of a log in order. */
  function PhasesOf(log: seq<Record>): seq<Phase> {
    if log == [] then []
    else
      var last := log[|log| - 1];
      PhasesOf(log[..|log| - 1]) + (if last.phase.Some? then [last.phase.value] else [])
  }

  /** After its forward steps a transaction only asks for recovery, rolls back from APPLYING or on such a
      request, and ends a rollback it has begun. */
  predicate Turns(phases: seq<Phase>, i: nat)
    requires i < |phases|
  {
    || (phases[i] == RecoveryRequired && (i == 0 || phases[i - 1] != RecoveryRequired))
    || (phases[i] == RollingBack && 0 < i && phases[i - 1] in {Applying, RecoveryRequired})
    || (phases[i] == RolledBack && 0 < i && phases[i - 1] == RollingBack)
  }

  /** `n` forward steps, then turns. */
  predicate Course(phases: seq<Phase>, n: nat) {
    && n <= |FORWARD| && n <= |phases| && phases[..n] == FORWARD[..n]
    && forall i :: n <= i < |phases| ==> Turns(phases, i)
  }

  /** The phase machine admits phase `i` after the one before it. */
  predicate StepAdmitted(phases: seq<Phase>, i: nat)
    requires i < |phases|
  {
    PhaseStep(if i == 0 then None else Some(phases[i - 1]), phases[i], i == 0)
  }

  predicate Admitted(phases: seq<Phase>) {
    forall i :: 0 <= i < |phases| ==> StepAdmitted(phases, i)
  }

  /** The phase machine admits exactly such courses. */
  lemma {:induction false} AdmittedIsCourse(phases: seq<Phase>)
    ensures Admitted(phases) <==> exists n: nat :: Course(phases, n)
  {
    if Admitted(phases) {
      var n := AdmittedCourse(phases);
    }
    if n: nat :| Course(phases, n) {
      forall i | 0 <= i < |phases| ensures StepAdmitted(phases, i) {
        if i < n {
          assert phases[i] == phases[..n][i] == FORWARD[i];
          assert 0 < i ==> phases[i - 1] == phases[..n][i - 1] == FORWARD[i - 1];
        } else {
          assert Turns(phases, i);
        }
      }
    }
  }

  lemma {:induction false} AdmittedCourse(phases: seq<Phase>) returns (n: nat)
    requires Admitted(phases)
    ensures Course(phases, n)
    ensures forall i :: n <= i < |phases| ==> phases[i] in {RecoveryRequired, RollingBack, RolledBack}
  {
    var k := |phases| - 1;
    if phases == [] {
      return 0;
    }
    var init := phases[..k];
    forall i | 0 <= i < k ensures StepAdmitted(init, i) {
      assert StepAdmitted(phases, i);
    }
    var m := AdmittedCourse(init);
    assert phases[..m] == init[..m];
    forall i | m <= i < k ensures Turns(phases, i) {
      assert Turns(init, i);
    }
    assert m > 0 ==> phases[m - 1] == init[..m][m - 1] == FORWARD[m - 1];
    assert StepAdmitted(phases, k);
    if phases[k] in {RecoveryRequired, RollingBack, RolledBack} {
      n := m;
    } else {
      assert m == k;
      n := k + 1;
      assert phases[..n] == phases[..k] + [phases[k]];
      assert FORWARD[..n] == FORWARD[..k] + [FORWARD[k]];
    }
  }

  lemma {:induction false} LatestIsLast(log: seq<Record>)
    ensures LatestPhase(log) ==
            if PhasesOf(log) == [] then None else Some(PhasesOf(log)[|PhasesOf(log)| - 1])
  {
    if log != [] && log[|log| - 1].phase.None? {
      LatestIsLast(log[..|log| - 1]);
    }
  }

  lemma RecordSteps(log: seq<Record>, plan: Plan, i: nat)
    requires ValidLog(log, plan) && i < |log|
    ensures log[i].phase.Some? ==> PhaseStep(LatestPhase(log[..i]), log[i].phase.value, i == 0)
    ensures log[i].phase.None? ==> LatestPhase(log[..i]).Some?
  {
    hide PhaseEvidence, PhaseShape, PhaseStep, LatestPhase;
    assert RecordOk(log, plan, i);
  }

  lemma {:induction false} PhasesAdmitted(log: seq<Record>, plan: Plan)
    requires ValidLog(log, plan)
    ensures Admitted(PhasesOf(log))
    ensures log != [] ==> PhasesOf(log) != []
  {
    hide PhaseEvidence, PhaseShape, NonPhaseOk;
    if log != [] {
      var n := |log| - 1;
      PrefixClosed(log, plan, n);
      PhasesAdmitted(log[..n], plan);
      LatestIsLast(log[..n]);
      RecordSteps(log, plan, n);
      var init, phases := PhasesOf(log[..n]), PhasesOf(log);
      forall i | 0 <= i < |phases| ensures StepAdmitted(phases, i) {
        if i < |init| {
          assert StepAdmitted(init, i);
        }
      }
    }
  }

  /** The phases of every readable log take such a course. */
  lemma LogTakesCourse(log: seq<Record>, plan: Plan)
    requires ValidLog(log, plan)
    ensures exists n: nat :: Course(PhasesOf(log), n)
  {
    PhasesAdmitted(log, plan);
    AdmittedIsCourse(PhasesOf(log));
  }

  // ---- phase records ----

  /** A phase record is sealed: completed, without a path, under the stage of its phase, and with the digest
      of the plan wherever it claims something about the whole plan. */
  predicate Sealed(r: Record, plan: Plan) {
    && r.phase.Some? && r.path.None? && r.status.Completed?
    && (r.stage.PrepareStage? <==> r.phase == Some(Preparing))
    && (r.stage.BackupStage? <==> r.phase == Some(BackupReady))
    && (r.stage.ApplyStage? <==> r.phase == Some(Applying))
    && (r.stage.RollbackStage? <==> r.phase == Some(RollingBack))
    && (r.stage.RecoveryStage? <==> r.phase == Some(RecoveryRequired))
    && (r.stage.VerifyStage? <==> r.phase in {Some(Applied), Some(RolledBack)})
    && r.evidence == (if r.phase in {Some(Applying), Some(RollingBack), Some(RecoveryRequired)} then None
                      else Some(plan.digest))
  }

  lemma PhaseShapeIsSealed(r: Record, plan: Plan)
    requires r.phase.Some?
    ensures PhaseShape(r, plan) <==> Sealed(r, plan)
  {
  }

  // ---- the other records ----

  /** The entry of the plan at a path. */
  predicate Planned(plan: Plan, r: Record, e: Entry) {
    e in plan.entries && r.path == Some(e.path)
  }

  /** Entry `k` is the last one that lists `d` among the parents it creates, and nothing is planned at `d`. */
  predicate Owns(plan: Plan, k: nat, d: Path) {
    && k < |plan.entries| && d in plan.entries[k].createdParents
    && (forall j :: k < j < |plan.entries| ==> d !in plan.entries[j].createdParents)
    && (forall e :: e in plan.entries ==> e.path != d)
  }

  /** A step on entry `e` was announced, or carried out with the digest it must leave. */
  predicate Announced(r: Record, pending: Detail) {
    r.status.Pending? && r.detail == pending && r.evidence.None?
  }

  predicate Done(r: Record, verified: Detail, digest: Option<Digest>) {
    r.status.Completed? && r.detail == verified && r.evidence == digest
  }

  /** What a record may say while `phase` lasts. */
  ghost predicate Says(r: Record, phase: Phase, plan: Plan) {
    match phase
    case Preparing => r.stage.BackupStage? && exists e :: Planned(plan, r, e) && SaysOfBackup(r, e)
    case Applying =>
      || (r.stage.ApplyStage? && exists e :: Planned(plan, r, e) && SaysOfEffect(r, e))
      || (r.stage.ApplyStage? && r.path.Some? && exists k: nat :: Owns(plan, k, r.path.value) && SaysOfParent(r, plan, k))
      || (r.stage.VerifyStage? && r.path.None?
          && (Done(r, ChangesRecheckedText, Some(plan.changesDigest))
              || Done(r, IndexRecheckedText, Some(plan.indexDigest))))
    case RollingBack =>
      || (r.stage.RollbackStage? && exists e :: Planned(plan, r, e) && SaysOfRollback(r, e))
      || (r.stage.VerifyStage? && r.path.None? && Done(r, RollbackIndexText, Some(plan.indexDigest)))
    case _ => false
  }

  predicate SaysOfBackup(r: Record, e: Entry) {
    Announced(r, BackupPendingText) || Done(r, BackupVerifiedText, DigestOf(e.original))
  }

  predicate SaysOfEffect(r: Record, e: Entry) {
    Announced(r, EffectPendingText) || Done(r, EffectVerifiedText, DigestOf(e.desired))
  }

  predicate SaysOfRollback(r: Record, e: Entry) {
    Announced(r, RollbackPendingText) || Done(r, RollbackVerifiedText, DigestOf(e.original))
  }

  /** A parent was created for its owner, and has this identity. */
  predicate SaysOfParent(r: Record, plan: Plan, k: nat) {
    k < |plan.entries| && r.evidence.Some? && Done(r, CreatedParentText(plan.entries[k].path), r.evidence)
  }

  lemma PlannedIs(plan: Plan, r: Record)
    requires ValidPlan(plan) && r.path.Some?
    ensures var found := EntryFor(plan, r.path.value);
            && (found.Some? ==> Planned(plan, r, found.value))
            && forall e :: Planned(plan, r, e) ==> found == Some(e)
  {
    EntryForPath(plan.entries, r.path.value);
    forall e | Planned(plan, r, e) ensures EntryFor(plan, r.path.value) == Some(e) {
      var i :| 0 <= i < |plan.entries| && plan.entries[i] == e;
      EntryForMember(plan, i);
    }
  }

  lemma {:induction false} OwnerIsLast(entries: seq<Entry>, d: Path)
    ensures OwnerAmong(entries, d).Some? ==>
              exists k :: 0 <= k < |entries| && d in entries[k].createdParents && OwnerAmong(entries, d) == Some(entries[k])
                          && forall j :: k < j < |entries| ==> d !in entries[j].createdParents
    ensures OwnerAmong(entries, d).None? ==> forall k :: 0 <= k < |entries| ==> d !in entries[k].createdParents
  {
    if entries != [] && d !in entries[|entries| - 1].createdParents {
      OwnerIsLast(entries[..|entries| - 1], d);
    }
  }

  lemma OwnerIs(plan: Plan, d: Path, k: nat)
    requires Owns(plan, k, d)
    ensures OwnerFor(plan, d) == Some(plan.entries[k])
  {
    OwnerIsLast(plan.entries, d);
  }

  /** The journal lets a record in under a phase exactly if that phase lets it say this. */
  lemma AdmittedIsSaid(r: Record, phase: Phase, plan: Plan)
    requires ValidPlan(plan) && r.phase.None?
    ensures NonPhaseOk(r, Some(phase), plan) <==> Says(r, phase, plan)
  {
    hide ValidPlan, Planned, Owns, EntryFor, OwnerFor;
    if r.path.Some? {
      PlannedIs(plan, r);
      OwnedIs(plan, r.path.value);
    } else {
      NowherePlanned(plan, r);
    }
  }

  lemma NowherePlanned(plan: Plan, r: Record)
    requires r.path.None?
    ensures forall e :: !Planned(plan, r, e)
  {
  }

  lemma OwnedIs(plan: Plan, d: Path)
    ensures EntryFor(plan, d).None? && OwnerFor(plan, d).Some? ==>
              exists k: nat :: k < |plan.entries| && Owns(plan, k, d) && OwnerFor(plan, d) == Some(plan.entries[k])
    ensures forall k: nat :: Owns(plan, k, d) ==>
              EntryFor(plan, d).None? && OwnerFor(plan, d) == Some(plan.entries[k])
  {
    EntryForPath(plan.entries, d);
    OwnerIsLast(plan.entries, d);
    forall k: nat | Owns(plan, k, d) ensures EntryFor(plan, d).None? && OwnerFor(plan, d) == Some(plan.entries[k]) {
      OwnerIs(plan, d, k);
    }
    if EntryFor(plan, d).None? && OwnerFor(plan, d).Some? {
      var k: nat :| k < |plan.entries| && d in plan.entries[k].createdParents && OwnerFor(plan, d) == Some(plan.entries[k])
                    && forall j :: k < j < |plan.entries| ==> d !in plan.entries[j].createdParents;
      assert Owns(plan, k, d);
    }
  }

  /** Record `d` is the phase record under which record `i` stands. */
  predicate Heads(log: seq<Record>, d: nat, i: nat) {
    && d < i < |log| && log[d].phase.Some?
    && forall j :: d < j < i ==> log[j].phase.None?
  }

  lemma {:induction false} LatestHeads(log: seq<Record>, i: nat) returns (d: nat)
    requires i < |log| && LatestPhase(log[..i]).Some?
    ensures Heads(log, d, i) && log[d].phase == LatestPhase(log[..i])
  {
    if log[i - 1].phase.Some? {
      d := i - 1;
    } else {
      assert log[..i][..i - 1] == log[..i - 1];
      d := LatestHeads(log, i - 1);
    }
  }

  /** Every record of a readable log is a sealed phase record, or says what the phase it stands under lets it
      say: nothing is backed up but while preparing, touched but while applying, undone but while rolling
      back, and nothing at all happens under any other phase. */
  lemma EveryRecordTells(log: seq<Record>, plan: Plan, i: nat)
    requires ValidPlan(plan) && ValidLog(log, plan) && i < |log|
    ensures log[i].order == i + 1
    ensures log[i].phase.Some? ==> Sealed(log[i], plan)
    ensures log[i].phase.None? ==> exists d: nat :: Heads(log, d, i) && Says(log[i], log[d].phase.value, plan)
  {
    assert RecordOk(log, plan, i);
    if log[i].phase.Some? {
      PhaseShapeIsSealed(log[i], plan);
    } else {
      var d := LatestHeads(log, i);
      AdmittedIsSaid(log[i], log[d].phase.value, plan);
    }
  }

  // ---- what a terminal phase rests on ----

  /** Before APPLIED, and after APPLYING, the change set and the index were read and found as planned. */
  lemma AppliedWasRechecked(log: seq<Record>, plan: Plan, d: nat) returns (f: Forward, c: nat, x: nat)
    requires ValidPlan(plan) && ValidLog(log, plan) && d < |log| && log[d].phase == Some(Applied)
    ensures PhasesInOrder(log, f) && f.applied == d
    ensures f.applying < c < d && Done(log[c], ChangesRecheckedText, Some(plan.changesDigest))
    ensures f.applying < x < d && Done(log[x], IndexRecheckedText, Some(plan.indexDigest))
  {
    f := PhasesOrdered(log, plan, d);
    assert RecordOk(log, plan, d);
    c :| 0 <= c < |log| && Bears(log[c], ChangesRechecked(Some(plan.changesDigest))) && log[c].order < log[d].order;
    x :| 0 <= x < |log| && Bears(log[x], IndexRechecked(Some(plan.indexDigest))) && log[x].order < log[d].order;
    UnderApplying(log, plan, f, c);
    UnderApplying(log, plan, f, x);
  }

  lemma UnderApplying(log: seq<Record>, plan: Plan, f: Forward, c: nat)
    requires ValidPlan(plan) && ValidLog(log, plan) && PhasesInOrder(log, f) && c < |log|
    requires log[c].detail in {ChangesRecheckedText, IndexRecheckedText} && log[c].phase.None?
    ensures f.applying < c
  {
    hide ValidLog, ValidPlan, Planned, Owns;
    EveryRecordTells(log, plan, c);
    var d: nat :| Heads(log, d, c) && Says(log[c], log[d].phase.value, plan);
    assert log[d].phase == Some(Applying);
  }

  lemma {:induction false} NoneBefore(log: seq<Record>, m: Mark, order: nat)
    requires SelectBefore(log, m, order) == []
    ensures forall j :: 0 <= j < |log| && log[j].order < order ==> !Bears(log[j], m)
  {
    if log != [] {
      NoneBefore(log[..|log| - 1], m, order);
      assert forall j :: 0 <= j < |log| - 1 ==> log[..|log| - 1][j] == log[j];
    }
  }

  lemma {:induction false} SingleBefore(log: seq<Record>, m: Mark, order: nat) returns (x: nat)
    requires |SelectBefore(log, m, order)| == 1
    ensures x < |log| && Bears(log[x], m) && log[x].order < order
    ensures forall j :: 0 <= j < |log| && log[j].order < order && Bears(log[j], m) ==> j == x
  {
    var n := |log| - 1;
    assert forall j :: 0 <= j < n ==> log[..n][j] == log[j];
    if Bears(log[n], m) && log[n].order < order {
      x := n;
      assert SelectBefore(log[..n], m, order) == [];
      NoneBefore(log[..n], m, order);
    } else {
      x := SingleBefore(log[..n], m, order);
    }
  }

  // ---- the whole account ----

  lemma {:induction false} SelectNone(log: seq<Record>, m: Mark)
    requires forall j :: 0 <= j < |log| ==> !Bears(log[j], m)
    ensures Select(log, m) == []
  {
    if log != [] {
      SelectNone(log[..|log| - 1], m);
    }
  }

  lemma {:induction false} SelectOnly(log: seq<Record>, m: Mark, k: nat)
    requires OnlyMark(log, m, k)
    ensures Select(log, m) == [log[k]]
  {
    var n := |log| - 1;
    if k == n {
      SelectNone(log[..n], m);
    } else {
      SelectOnly(log[..n], m, k);
    }
  }

  /** Exactly one record bears the first mark, exactly one the second, in this order and before position `d`. */
  ghost predicate InTurn(log: seq<Record>, a: Mark, b: Mark, d: nat) {
    exists i: nat, j: nat :: OnlyMark(log, a, i) && OnlyMark(log, b, j) && i < j < d
  }

  lemma PairInTurn(log: seq<Record>, a: Mark, b: Mark, d: nat)
    requires Numbered(log)
    ensures OncePair(log, a, b, d + 1) <==> InTurn(log, a, b, d)
  {
    hide OnlyMark, Numbered, Once, Select;
    OnceIsOnly(log, a);
    OnceIsOnly(log, b);
  }

  lemma OnceIsOnly(log: seq<Record>, m: Mark)
    requires Numbered(log)
    ensures Once(log, m) <==> exists k: nat :: OnlyMark(log, m, k)
    ensures forall k: nat :: OnlyMark(log, m, k) ==> Once(log, m) && |Select(log, m)| == 1 && Select(log, m)[0].order == k + 1
  {
    hide Bears;
    if Once(log, m) {
      var k := OnceIndex(log, m);
    }
    forall k: nat | OnlyMark(log, m, k) ensures Select(log, m) == [log[k]] {
      SelectOnly(log, m, k);
    }
  }

  /** The effect of an entry came in its turn, with each created parent noted in between. */
  ghost predicate Landed(log: seq<Record>, e: Entry, d: nat) {
    exists ep: nat, ev: nat ::
      && OnlyMark(log, EffectPending(e.path), ep)
      && OnlyMark(log, EffectVerified(e.path, DigestOf(e.desired)), ev)
      && ep < ev < d
      && forall parent :: parent in e.createdParents ==> ParentInOrder(log, parent, e.path, ep, ev)
  }

  lemma ProvenInOrder(log: seq<Record>, e: Entry, parent: Path, ep: nat, ev: nat)
    requires Numbered(log)
    requires OnlyMark(log, EffectPending(e.path), ep)
    requires OnlyMark(log, EffectVerified(e.path, DigestOf(e.desired)), ev)
    ensures Once(log, EffectPending(e.path)) && Once(log, EffectVerified(e.path, DigestOf(e.desired)))
    ensures ParentProven(log, e, parent) <==> ParentInOrder(log, parent, e.path, ep, ev)
  {
    hide Bears;
    var m := ParentCreated(parent, e.path);
    SelectOnly(log, EffectPending(e.path), ep);
    SelectOnly(log, EffectVerified(e.path, DigestOf(e.desired)), ev);
    if Once(log, m) {
      var k := OnceIndex(log, m);
    }
    if k: nat :| OnlyMark(log, m, k) && ep < k < ev {
      SelectOnly(log, m, k);
    }
  }

  lemma AppliedIsLanded(log: seq<Record>, e: Entry, d: nat)
    requires Numbered(log)
    ensures EntryApplied(log, e, d + 1) <==> Landed(log, e, d)
  {
    hide Bears, ParentProven, ParentInOrder, Once, OncePair;
    var pending, verified := EffectPending(e.path), EffectVerified(e.path, DigestOf(e.desired));
    PairInTurn(log, pending, verified, d);
    forall ep: nat, ev: nat, parent | OnlyMark(log, pending, ep) && OnlyMark(log, verified, ev)
      ensures Once(log, pending) && Once(log, verified)
      ensures ParentProven(log, e, parent) <==> ParentInOrder(log, parent, e.path, ep, ev)
    {
      ProvenInOrder(log, e, parent, ep, ev);
    }
    if EntryApplied(log, e, d + 1) {
      var ep: nat, ev: nat :| OnlyMark(log, pending, ep) && OnlyMark(log, verified, ev) && ep < ev < d;
      forall parent | parent in e.createdParents ensures ParentInOrder(log, parent, e.path, ep, ev) {
        var j :| 0 <= j < |e.createdParents| && e.createdParents[j] == parent;
        assert ParentProven(log, e, e.createdParents[j]);
      }
      assert Landed(log, e, d);
    }
  }

  lemma RolledBackIsUndone(log: seq<Record>, e: Entry, d: nat)
    requires Numbered(log)
    ensures EntryRolledBack(log, e, d + 1) <==> UndoneOnce(log, e, d)
  {
    hide Bears;
    var applied := EffectVerified(e.path, DigestOf(e.desired));
    var pending, verified := RollbackPending(e.path), RollbackVerified(e.path, DigestOf(e.original));
    PairInTurn(log, pending, verified, d);
    if EntryRolledBack(log, e, d + 1) {
      if Select(log, applied) == [] {
        forall k | 0 <= k < |log| ensures !Bears(log[k], applied) {
          if Bears(log[k], applied) {
            SelectNonEmpty(log, applied, k);
          }
        }
      } else {
        var ev := OnceIndex(log, applied);
        var rp := OnceIndex(log, pending);
        var rv := OnceIndex(log, verified);
        assert OnlyMark(log, applied, ev) && OnlyMark(log, pending, rp) && OnlyMark(log, verified, rv);
      }
    }
    if UndoneOnce(log, e, d) {
      if forall k :: 0 <= k < |log| ==> !Bears(log[k], applied) {
        SelectNone(log, applied);
      } else {
        var ev: nat, rp: nat, rv: nat :|
          OnlyMark(log, applied, ev) && OnlyMark(log, pending, rp) && OnlyMark(log, verified, rv) && ev < rp < rv < d;
        SelectOnly(log, applied, ev);
        SelectOnly(log, pending, rp);
        assert InTurn(log, pending, verified, d);
      }
    }
  }

  /** One record before position `d` bears the mark. */
  ghost predicate SingleUpTo(log: seq<Record>, m: Mark, d: nat) {
    exists x: nat :: x < d && x < |log| && Bears(log[x], m)
      && forall j :: 0 <= j < d && j < |log| && Bears(log[j], m) ==> j == x
  }

  lemma {:induction false} CountedBefore(log: seq<Record>, m: Mark, order: nat, x: nat)
    requires x < |log| && Bears(log[x], m) && log[x].order < order
    requires forall j :: 0 <= j < |log| && log[j].order < order && Bears(log[j], m) ==> j == x
    ensures |SelectBefore(log, m, order)| == 1
  {
    var n := |log| - 1;
    assert forall j :: 0 <= j < n ==> log[..n][j] == log[j];
    if x == n {
      NothingBefore(log[..n], m, order);
    } else {
      CountedBefore(log[..n], m, order, x);
    }
  }

  lemma {:induction false} NothingBefore(log: seq<Record>, m: Mark, order: nat)
    requires forall j :: 0 <= j < |log| && log[j].order < order ==> !Bears(log[j], m)
    ensures SelectBefore(log, m, order) == []
  {
    if log != [] {
      var n := |log| - 1;
      assert forall j :: 0 <= j < n ==> log[..n][j] == log[j];
      NothingBefore(log[..n], m, order);
    }
  }

  lemma CountIsSingle(log: seq<Record>, m: Mark, d: nat)
    requires Numbered(log)
    ensures |SelectBefore(log, m, d + 1)| == 1 <==> SingleUpTo(log, m, d)
  {
    hide Bears;
    if |SelectBefore(log, m, d + 1)| == 1 {
      var x := SingleBefore(log, m, d + 1);
    }
    if x: nat :| x < d && x < |log| && Bears(log[x], m)
                 && forall j :: 0 <= j < d && j < |log| && Bears(log[j], m) ==> j == x {
      CountedBefore(log, m, d + 1, x);
    }
  }

  /** What the phase record at `d` rests on. */
  ghost predicate Rests(log: seq<Record>, plan: Plan, d: nat)
    requires d < |log|
  {
    && (log[d].phase == Some(BackupReady) ==>
         forall e :: e in plan.entries ==>
           InTurn(log, BackupPending(e.path), BackupVerified(e.path, DigestOf(e.original)), d))
    && (log[d].phase == Some(Applied) ==>
         && (forall e :: e in plan.entries ==> Landed(log, e, d))
         && (exists c :: 0 <= c < d && Bears(log[c], ChangesRechecked(Some(plan.changesDigest))))
         && (exists x :: 0 <= x < d && Bears(log[x], IndexRechecked(Some(plan.indexDigest)))))
    && (log[d].phase == Some(RolledBack) ==>
         && (forall e :: e in plan.entries ==> UndoneOnce(log, e, d))
         && SingleUpTo(log, RollbackIndexRechecked(Some(plan.indexDigest)), d))
  }

  lemma EvidenceRests(log: seq<Record>, plan: Plan, d: nat)
    requires Numbered(log) && d < |log| && log[d].phase.Some?
    ensures PhaseEvidence(log, plan, log[d]) <==> Rests(log, plan, d)
  {
    hide Bears, InTurn, Landed, UndoneOnce, EntryBackedUp, EntryApplied, EntryRolledBack, SelectBefore, SingleUpTo;
    forall i | 0 <= i < |plan.entries| ensures EntryRests(log, plan.entries[i], d) {
      EntryEvidenceRests(log, plan.entries[i], d);
    }
    CountIsSingle(log, RollbackIndexRechecked(Some(plan.indexDigest)), d);
  }

  /** The evidence demanded of one entry, in both readings. */
  ghost predicate EntryRests(log: seq<Record>, e: Entry, d: nat) {
    && (EntryBackedUp(log, e, d + 1) <==>
          InTurn(log, BackupPending(e.path), BackupVerified(e.path, DigestOf(e.original)), d))
    && (EntryApplied(log, e, d + 1) <==> Landed(log, e, d))
    && (EntryRolledBack(log, e, d + 1) <==> UndoneOnce(log, e, d))
  }

  lemma EntryEvidenceRests(log: seq<Record>, e: Entry, d: nat)
    requires Numbered(log)
    ensures EntryRests(log, e, d)
  {
    hide InTurn, Landed, UndoneOnce, OncePair, EntryApplied, EntryRolledBack, Numbered;
    PairInTurn(log, BackupPending(e.path), BackupVerified(e.path, DigestOf(e.original)), d);
    AppliedIsLanded(log, e, d);
    RolledBackIsUndone(log, e, d);
  }

  /** The whole account of a readable log, record by record, without the journal's own rules: numbers in a
      row, phases on their course, sealed phase records that rest on their evidence, and other records that
      say what their phase lets them say. */
  ghost predicate Account(log: seq<Record>, plan: Plan) {
    && Numbered(log)
    && (exists n: nat :: Course(PhasesOf(log), n))
    && forall i :: 0 <= i < |log| ==>
         if log[i].phase.Some? then Sealed(log[i], plan) && Rests(log, plan, i)
         else exists d: nat :: Heads(log, d, i) && Says(log[i], log[d].phase.value, plan)
  }

  lemma {:induction false} HeadsIsLatest(log: seq<Record>, d: nat, i: nat)
    requires Heads(log, d, i)
    ensures LatestPhase(log[..i]) == log[d].phase
  {
    assert log[..i][..i - 1] == log[..i - 1];
    if d < i - 1 {
      HeadsIsLatest(log, d, i - 1);
    }
  }

  lemma {:induction false} PhasesSoFar(log: seq<Record>, i: nat)
    requires i < |log| && log[i].phase.Some?
    ensures var before := PhasesOf(log[..i]);
            |before| < |PhasesOf(log)| && PhasesOf(log)[..|before|] == before
            && PhasesOf(log)[|before|] == log[i].phase.value
  {
    var n := |log| - 1;
    if i < n {
      PhasesSoFar(log[..n], i);
      assert log[..n][..i] == log[..i];
    }
  }

  /** In an account every phase record follows the one before it as the phase machine wants. */
  lemma AccountSteps(log: seq<Record>, plan: Plan, i: nat)
    requires Account(log, plan) && i < |log| && log[i].phase.Some?
    ensures PhaseStep(LatestPhase(log[..i]), log[i].phase.value, i == 0)
  {
    hide Sealed, Rests, Says;
    AdmittedIsCourse(PhasesOf(log));
    PhasesSoFar(log, i);
    LatestIsLast(log[..i]);
    var before := PhasesOf(log[..i]);
    assert StepAdmitted(PhasesOf(log), |before|);
    assert before != [] ==> PhasesOf(log)[|before| - 1] == before[|before| - 1];
    assert log[0].phase.Some?;
    if 0 < i {
      PhasesSoFar(log[..i], 0);
    }
  }

  /** A fresh read accepts exactly the logs that give such an account. */
  lemma ReadableIsAccounted(log: seq<Record>, plan: Plan)
    requires ValidPlan(plan)
    ensures ValidLog(log, plan) <==> Account(log, plan)
  {
    hide PhaseEvidence, Rests, PhaseShape, Sealed, NonPhaseOk, Says, PhaseStep, LatestPhase, Course, ValidPlan;
    if ValidLog(log, plan) {
      LogTakesCourse(log, plan);
      forall i | 0 <= i < |log|
        ensures if log[i].phase.Some? then Sealed(log[i], plan) && Rests(log, plan, i)
                else exists d: nat :: Heads(log, d, i) && Says(log[i], log[d].phase.value, plan)
      {
        EveryRecordTells(log, plan, i);
        assert RecordOk(log, plan, i);
        if log[i].phase.Some? {
          EvidenceRests(log, plan, i);
        }
      }
    }
    if Account(log, plan) {
      forall i | 0 <= i < |log| ensures RecordOk(log, plan, i) {
        if log[i].phase.Some? {
          PhaseShapeIsSealed(log[i], plan);
          EvidenceRests(log, plan, i);
          AccountSteps(log, plan, i);
        } else {
          var d: nat :| Heads(log, d, i) && Says(log[i], log[d].phase.value, plan);
          HeadsIsLatest(log, d, i);
          AdmittedIsSaid(log[i], log[d].phase.value, plan);
        }
      }
    }
  }
}
