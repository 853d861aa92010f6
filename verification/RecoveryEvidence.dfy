/** What recovery reads out of the log: which paths have which records, and the evidence for created parents. */
module RecoveryEvidence {
  import opened Wrappers
  import opened ApplyModels
  import opened TargetTree
  import opened Directories
  import opened JournalEvidence
  import opened JournalLaws
  import opened EntryProgress
  import opened EntryEffects
  import opened TransactionTree

  /** The paths of the records of one stage and status. */
  function PathsOf(log: seq<Record>, stage: Stage, status: Status): set<Path> {
    set r | r in log && r.stage == stage && r.status == status && r.path.Some? :: r.path.value
  }

  /** For a planned path of a readable log, stage and status alone tell which mark a record bears. */
  lemma PathsTell(log: seq<Record>, plan: Plan, t0: Tree, k: nat)
    requires Planned(plan, t0) && ValidLog(log, plan) && k < |plan.entries|
    ensures var e := plan.entries[k];
            && (e.path in PathsOf(log, RollbackStage, Completed) <==> Seen(log, Undone(e)))
            && (e.path in PathsOf(log, RollbackStage, Pending) <==> Seen(log, RollbackPending(e.path)))
            && (e.path in PathsOf(log, ApplyStage, Completed) <==> Seen(log, AppliedMark(e)))
            && (e.path in PathsOf(log, ApplyStage, Pending) <==> Seen(log, EffectPending(e.path)))
  {
    var e := plan.entries[k];
    PathsTellOne(log, plan, k, RollbackStage, Completed, Undone(e));
    PathsTellOne(log, plan, k, RollbackStage, Pending, RollbackPending(e.path));
    PathsTellOne(log, plan, k, ApplyStage, Completed, AppliedMark(e));
    PathsTellOne(log, plan, k, ApplyStage, Pending, EffectPending(e.path));
  }

  predicate Denotes(stage: Stage, status: Status, m: Mark, e: Entry) {
    || (stage.RollbackStage? && status.Completed? && m == Undone(e))
    || (stage.RollbackStage? && status.Pending? && m == RollbackPending(e.path))
    || (stage.ApplyStage? && status.Completed? && m == AppliedMark(e))
    || (stage.ApplyStage? && status.Pending? && m == EffectPending(e.path))
  }

  lemma PathsTellOne(log: seq<Record>, plan: Plan, k: nat, stage: Stage, status: Status, m: Mark)
    requires ValidPlan(plan) && ValidLog(log, plan) && k < |plan.entries|
    requires Denotes(stage, status, m, plan.entries[k])
    ensures plan.entries[k].path in PathsOf(log, stage, status) <==> Seen(log, m)
  {
    var p := plan.entries[k].path;
    if p in PathsOf(log, stage, status) {
      var i :| 0 <= i < |log| && log[i].stage == stage && log[i].status == status && log[i].path == Some(p);
      assert RecordOk(log, plan, i);
      EntryForMember(plan, k);
      SelectNonEmpty(log, m, i);
    }
    if Seen(log, m) {
      SelectedFromLog(log, m, 0);
    }
  }

  /** The identity the log proves for a created parent. */
  function ParentProof(log: seq<Record>, e: Entry, d: Path): Option<Digest> {
    var found := Select(log, ParentCreated(d, e.path));
    if found == [] then None else found[|found| - 1].evidence
  }

  lemma ParentProofStep(log: seq<Record>, i: nat, e: Entry, d: Path)
    requires i < |log|
    ensures ParentProof(log[..i + 1], e, d)
            == if Bears(log[i], ParentCreated(d, e.path)) then log[i].evidence else ParentProof(log[..i], e, d)
  {
    assert log[..i + 1] == log[..i] + [log[i]];
    SelectAppend(log[..i], log[i], ParentCreated(d, e.path));
  }

  lemma {:induction false} SelectMonotone(log: seq<Record>, i: nat, m: Mark)
    requires i <= |log|
    ensures |Select(log[..i], m)| <= |Select(log, m)|
  {
    if i == |log| {
      assert log[..i] == log;
    } else {
      assert log[..|log| - 1][..i] == log[..i];
      SelectMonotone(log[..|log| - 1], i, m);
    }
  }

  lemma {:induction false} OwnerAmongFirst(entries: seq<Entry>, d: Path)
    ensures OwnerAmong(entries, d).Some? ==> OwnerAmong(entries, d).value in entries
                                             && d in OwnerAmong(entries, d).value.createdParents
    ensures OwnerAmong(entries, d).None? ==> forall e :: e in entries ==> d !in e.createdParents
  {
    if entries != [] {
      OwnerAmongFirst(entries[..|entries| - 1], d);
    }
  }

  lemma OwnerIs(plan: Plan, k: nat, d: Path)
    requires OwnersDisjoint(plan) && k < |plan.entries| && d in plan.entries[k].createdParents
    ensures OwnerFor(plan, d) == Some(plan.entries[k])
  {
    OwnerAmongFirst(plan.entries, d);
    assert plan.entries[k] in plan.entries;
  }

  predicate ParentRecord(r: Record, plan: Plan) {
    && r.stage.ApplyStage? && r.status.Completed? && r.path.Some? && r.evidence.Some?
    && OwnerFor(plan, r.path.value).Some?
  }

  lemma ParentIsNoEntry(plan: Plan, t0: Tree, d: Path)
    requires Planned(plan, t0) && OwnerFor(plan, d).Some?
    ensures EntryFor(plan, d).None?
  {
    OwnerAmongFirst(plan.entries, d);
    EntryForPath(plan.entries, d);
    forall k, j | 0 <= k < |plan.entries| && 0 <= j < |plan.entries|
      ensures plan.entries[k].path !in plan.entries[j].createdParents
    {
      assert PlannedEntry(plan, t0, k);
    }
  }

  /** In a readable log such a record is the evidence of its owner and of nobody else. */
  lemma ParentRecordBears(log: seq<Record>, plan: Plan, t0: Tree, i: nat)
    requires Planned(plan, t0) && ValidLog(log, plan) && i < |log| && ParentRecord(log[i], plan)
    ensures Bears(log[i], ParentCreated(log[i].path.value, OwnerFor(plan, log[i].path.value).value.path))
  {
    var d := log[i].path.value;
    assert RecordOk(log, plan, i);
    ParentIsNoEntry(plan, t0, d);
  }

  /** The collected evidence agrees with the log so far. */
  ghost predicate EvidenceIs(evidence: map<Path, Digest>, log: seq<Record>, plan: Plan) {
    forall k, d :: 0 <= k < |plan.entries| && d in plan.entries[k].createdParents ==>
      Expected(evidence, d) == ParentProof(log, plan.entries[k], d)
  }

  lemma EvidenceStep(evidence: map<Path, Digest>, log: seq<Record>, plan: Plan, t0: Tree, i: nat)
    requires Planned(plan, t0) && ValidLog(log, plan) && i < |log|
    requires EvidenceIs(evidence, log[..i], plan)
    ensures EvidenceIs(if ParentRecord(log[i], plan) then evidence[log[i].path.value := log[i].evidence.value] else evidence,
              log[..i + 1], plan)
  {
    var r := log[i];
    if ParentRecord(r, plan) {
      ParentRecordBears(log, plan, t0, i);
    }
    forall k, d | 0 <= k < |plan.entries| && d in plan.entries[k].createdParents
      ensures Expected(if ParentRecord(r, plan) then evidence[r.path.value := r.evidence.value] else evidence, d)
              == ParentProof(log[..i + 1], plan.entries[k], d)
    {
      OwnerIs(plan, k, d);
      ParentProofStep(log, i, plan.entries[k], d);
      assert Expected(evidence, d) == ParentProof(log[..i], plan.entries[k], d);
      if r.path == Some(d) {
        assert ParentRecord(r, plan) <==> Bears(r, ParentCreated(d, plan.entries[k].path));
      }
    }
  }

  /** A second proof of the same parent cannot stand in a sound log. */
  lemma NoSecondProof(evidence: map<Path, Digest>, log: seq<Record>, plan: Plan, t0: Tree, i: nat)
    requires Planned(plan, t0) && Sound(log, plan) && i < |log| && ParentRecord(log[i], plan)
    requires EvidenceIs(evidence, log[..i], plan)
    ensures log[i].path.value !in evidence || evidence[log[i].path.value] == log[i].evidence.value
    ensures log[i].detail == CreatedParentText(OwnerFor(plan, log[i].path.value).value.path)
  {
    var d := log[i].path.value;
    ParentRecordBears(log, plan, t0, i);
    OwnerAmongFirst(plan.entries, d);
    var e := OwnerFor(plan, d).value;
    var k :| 0 <= k < |plan.entries| && plan.entries[k] == e;
    if d in evidence {
      assert Expected(evidence, d) == ParentProof(log[..i], e, d);
      assert EntryChain(log, plan.entries[k]);
      ProofIsSingle(log, e, d, i);
    }
  }

  lemma ProofIsSingle(log: seq<Record>, e: Entry, d: Path, i: nat)
    requires EntryChain(log, e) && d in e.createdParents && i < |log|
    requires Bears(log[i], ParentCreated(d, e.path))
    ensures ParentProof(log[..i], e, d).None?
  {
    hide Numbered, Chain;
    var m := ParentCreated(d, e.path);
    var j :| 0 <= j < |e.createdParents| && e.createdParents[j] == d;
    assert ParentChain(log, e, e.createdParents[j]);
    SelectMonotone(log, i + 1, m);
    assert log[..i + 1] == log[..i] + [log[i]];
    SelectAppend(log[..i], log[i], m);
  }

  /** Collects the evidence for created parents; two different proofs of one parent are an error. */
  method AllCreatedParentEvidence(log: seq<Record>, plan: Plan, ghost t0: Tree) returns (r: Outcome<map<Path, Digest>>)
    requires Planned(plan, t0) && Sound(log, plan)
    ensures r.Ok? && EvidenceIs(r.value, log, plan)
  {
    hide Planned, ParentRecord, Sound, ValidLog;
    var evidence: map<Path, Digest> := map[];
    assert ValidLog(log, plan) by {
      SoundIsReadable(log, plan);
    }
    for i := 0 to |log|
      invariant EvidenceIs(evidence, log[..i], plan)
    {
      var record := log[i];
      EvidenceStep(evidence, log, plan, t0, i);
      if ParentRecord(record, plan) {
        NoSecondProof(evidence, log, plan, t0, i);
        ParentRecordParts(record, plan);
        var owner := OwnerFor(plan, record.path.value).value;
        if record.detail != CreatedParentText(owner.path) {
          return Raise(ValueError);
        }
        if record.path.value in evidence && evidence[record.path.value] != record.evidence.value {
          return Raise(ValueError);
        }
        evidence := evidence[record.path.value := record.evidence.value];
      }
    }
    assert log[..|log|] == log;
    return Ok(evidence);
  }

  lemma SoundIsReadable(log: seq<Record>, plan: Plan)
    requires Sound(log, plan)
    ensures ValidLog(log, plan)
  {
  }

  lemma ParentRecordParts(r: Record, plan: Plan)
    requires ParentRecord(r, plan)
    ensures r.path.Some? && r.evidence.Some? && OwnerFor(plan, r.path.value).Some?
  {
  }

  // ---- the windows in which recovery fails closed ----

  /** A created parent exists without matching evidence. */
  predicate UnprovenParent(t: Tree, log: seq<Record>, e: Entry) {
    exists d :: d in e.createdParents && d in t.dirs && ParentProof(log, e, d) != Some(Identity(t, d))
  }

  /** A temporary that resolving will not clear: an incomplete one, or one of the abandoned direction. */
  predicate StrayTemporary(t: Tree, e: Entry, rolling: bool) {
    || !TemporaryUsable(t, e, rolling)
    || (DigestOf(e.original) != DigestOf(e.desired)
        && TemporaryAt(t, e.path, DigestOf(Displaced(e, rolling))).Some?)
  }

  /** An entry proven rolled back still has a created parent. */
  predicate ParentLeft(t: Tree, log: seq<Record>, e: Entry) {
    ProgressOf(log, e).Reverted? && exists d :: d in e.createdParents && d in t.dirs
  }

  /** Of nested created parents the inner ones are gone and an outer one is left. */
  predicate HalfRemoved(t: Tree, e: Entry)
    requires 0 < |e.path|
  {
    Parent(e.path) !in t.dirs && exists d :: d in e.createdParents && d in t.dirs
  }

  predicate EntryWindow(t: Tree, log: seq<Record>, e: Entry, rolling: bool)
    requires 0 < |e.path|
  {
    StrayTemporary(t, e, rolling) || UnprovenParent(t, log, e) || ParentLeft(t, log, e) || HalfRemoved(t, e)
  }

  /** The states from which recovery refuses to roll back on its own. */
  predicate Window(plan: Plan, t: Tree, log: seq<Record>)
    requires ValidPlan(plan)
  {
    || Seen(log, RollbackIndexRechecked(Some(plan.indexDigest)))
    || exists k :: 0 <= k < |plan.entries|
         && EntryWindow(t, log, plan.entries[k], LatestPhase(log) == Some(RollingBack))
  }
}
