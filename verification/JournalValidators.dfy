/** The validators as they run: one pass that files records by path, then a check per plan entry. */
module JournalValidators {
  import opened Wrappers
  import opened ApplyModels
  import opened JournalEvidence
  import opened JournalLaws

  /** The lists a validator keeps by path; a completed list is kept whatever digest its records carry. */
  datatype Family =
    | BackupPendings
    | BackupVerifieds
    | EffectPendings
    | EffectVerifieds
    | ParentCreations
    | RollbackPendings
    | RollbackVerifieds

  predicate Belongs(r: Record, f: Family) {
    && r.phase.None?
    && r.path.Some?
    && match f
       case BackupPendings => Bears(r, BackupPending(r.path.value))
       case BackupVerifieds => Bears(r, BackupVerified(r.path.value, r.evidence))
       case EffectPendings => Bears(r, EffectPending(r.path.value))
       case EffectVerifieds => Bears(r, EffectVerified(r.path.value, r.evidence))
       case ParentCreations =>
         r.detail.CreatedParentText? && Bears(r, ParentCreated(r.path.value, r.detail.owner))
       case RollbackPendings => Bears(r, RollbackPending(r.path.value))
       case RollbackVerifieds => Bears(r, RollbackVerified(r.path.value, r.evidence))
  }

  type Table = map<Path, seq<Record>>

  function Listed(t: Table, p: Path): seq<Record> {
    if p in t then t[p] else []
  }

  function File(t: Table, r: Record, f: Family): Table {
    if Belongs(r, f) then t[r.path.value := Listed(t, r.path.value) + [r]] else t
  }

  function Filing(log: seq<Record>, f: Family): Table {
    if log == [] then map[] else File(Filing(log[..|log| - 1], f), log[|log| - 1], f)
  }

  /** Which family a mark is looked up in, and under which path. */
  predicate KeptUnder(m: Mark, f: Family, p: Path) {
    match m
    case BackupPending(q) => f.BackupPendings? && p == q
    case BackupVerified(q, _) => f.BackupVerifieds? && p == q
    case EffectPending(q) => f.EffectPendings? && p == q
    case EffectVerified(q, _) => f.EffectVerifieds? && p == q
    case ParentCreated(q, _) => f.ParentCreations? && p == q
    case RollbackPending(q) => f.RollbackPendings? && p == q
    case RollbackVerified(q, _) => f.RollbackVerifieds? && p == q
    case _ => false
  }

  lemma BearerIsKept(r: Record, m: Mark, f: Family, p: Path)
    requires KeptUnder(m, f, p) && Bears(r, m)
    ensures Belongs(r, f) && r.path == Some(p)
  {
  }

  lemma ListedStep(t: Table, r: Record, f: Family, p: Path)
    ensures Listed(File(t, r, f), p) == Listed(t, p) + (if Belongs(r, f) && r.path == Some(p) then [r] else [])
  {
    hide Bears;
  }

  /** Looking a mark up in its list finds what a scan of the whole log finds. */
  lemma {:induction false} ListedSelects(log: seq<Record>, f: Family, p: Path, m: Mark)
    requires KeptUnder(m, f, p)
    ensures Select(Listed(Filing(log, f), p), m) == Select(log, m)
  {
    hide Bears, Belongs, KeptUnder, File, Listed;
    if log == [] {
      EmptyListed(f, p);
    } else {
      var init, last := log[..|log| - 1], log[|log| - 1];
      ListedSelects(init, f, p, m);
      ListedStep(Filing(init, f), last, f, p);
      var before := Listed(Filing(init, f), p);
      assert before + [] == before;
      SelectAppend(before, last, m);
      if Bears(last, m) {
        BearerIsKept(last, m, f, p);
      }
    }
  }

  lemma EmptyListed(f: Family, p: Path)
    ensures Listed(Filing([], f), p) == []
  {
  }

  lemma FilingStep(log: seq<Record>, i: nat, f: Family)
    requires i < |log|
    ensures Filing(log[..i + 1], f) == File(Filing(log[..i], f), log[i], f)
  {
    assert log[..i + 1][..i] == log[..i];
  }

  /** A list of pending records needs no further selection. */
  lemma {:induction false} ListedPending(log: seq<Record>, f: Family, p: Path, m: Mark)
    requires KeptUnder(m, f, p)
    requires m.BackupPending? || m.EffectPending? || m.RollbackPending?
    ensures Listed(Filing(log, f), p) == Select(log, m)
  {
    if log != [] {
      ListedPending(log[..|log| - 1], f, p, m);
    }
  }

  /** A pending and a completed record, each alone, in order, before `order`. */
  predicate AlonePair(pending: seq<Record>, completed: seq<Record>, order: nat) {
    |pending| == 1 && |completed| == 1 && pending[0].order < completed[0].order < order
  }

  method ValidateBackupEvidence(log: seq<Record>, plan: Plan, order: nat) returns (ok: bool)
    ensures ok <==> BackupEvidence(log, plan, order)
  {
    var pending, completed := map[], map[];
    for i := 0 to |log|
      invariant pending == Filing(log[..i], BackupPendings)
      invariant completed == Filing(log[..i], BackupVerifieds)
    {
      FilingStep(log, i, BackupPendings);
      FilingStep(log, i, BackupVerifieds);
      pending := File(pending, log[i], BackupPendings);
      completed := File(completed, log[i], BackupVerifieds);
    }
    assert log[..|log|] == log;
    for i := 0 to |plan.entries|
      invariant forall k :: 0 <= k < i ==> EntryBackedUp(log, plan.entries[k], order)
    {
      var e := plan.entries[i];
      var mark := BackupVerified(e.path, DigestOf(e.original));
      ListedPending(log, BackupPendings, e.path, BackupPending(e.path));
      ListedSelects(log, BackupVerifieds, e.path, mark);
      if !AlonePair(Listed(pending, e.path), Select(Listed(completed, e.path), mark), order) {
        assert !EntryBackedUp(log, e, order);
        return false;
      }
    }
    return true;
  }

  /** The check of one entry and its created parents against the lists of `_validate_applied_evidence`. */
  method CheckApplied(log: seq<Record>, e: Entry, order: nat, pending: Table, completed: Table, created: Table)
    returns (ok: bool)
    requires pending == Filing(log, EffectPendings)
    requires completed == Filing(log, EffectVerifieds)
    requires created == Filing(log, ParentCreations)
    ensures ok <==> EntryApplied(log, e, order)
  {
    var mark := EffectVerified(e.path, DigestOf(e.desired));
    ListedPending(log, EffectPendings, e.path, EffectPending(e.path));
    ListedSelects(log, EffectVerifieds, e.path, mark);
    var before, after := Listed(pending, e.path), Select(Listed(completed, e.path), mark);
    if !AlonePair(before, after, order) {
      return false;
    }
    for j := 0 to |e.createdParents|
      invariant forall k :: 0 <= k < j ==> ParentProven(log, e, e.createdParents[k])
    {
      var parent := e.createdParents[j];
      ListedSelects(log, ParentCreations, parent, ParentCreated(parent, e.path));
      var evidence := Select(Listed(created, parent), ParentCreated(parent, e.path));
      if !(|evidence| == 1 && before[0].order < evidence[0].order < after[0].order) {
        assert !ParentProven(log, e, parent);
        return false;
      }
    }
    return true;
  }

  method ValidateAppliedEvidence(log: seq<Record>, plan: Plan, order: nat) returns (ok: bool)
    ensures ok <==> AppliedEvidence(log, plan, order)
  {
    var pending, completed, created := map[], map[], map[];
    var changesSeen, indexSeen := false, false;
    for i := 0 to |log|
      invariant pending == Filing(log[..i], EffectPendings)
      invariant completed == Filing(log[..i], EffectVerifieds)
      invariant created == Filing(log[..i], ParentCreations)
      invariant changesSeen <==> SeenBefore(log[..i], ChangesRechecked(Some(plan.changesDigest)), order)
      invariant indexSeen <==> SeenBefore(log[..i], IndexRechecked(Some(plan.indexDigest)), order)
    {
      FilingStep(log, i, EffectPendings);
      FilingStep(log, i, EffectVerifieds);
      FilingStep(log, i, ParentCreations);
      SeenStep(log, i, ChangesRechecked(Some(plan.changesDigest)), order);
      SeenStep(log, i, IndexRechecked(Some(plan.indexDigest)), order);
      pending := File(pending, log[i], EffectPendings);
      completed := File(completed, log[i], EffectVerifieds);
      created := File(created, log[i], ParentCreations);
      if log[i].order < order {
        changesSeen := changesSeen || Bears(log[i], ChangesRechecked(Some(plan.changesDigest)));
        indexSeen := indexSeen || Bears(log[i], IndexRechecked(Some(plan.indexDigest)));
      }
    }
    assert log[..|log|] == log;
    for i := 0 to |plan.entries|
      invariant forall k :: 0 <= k < i ==> EntryApplied(log, plan.entries[k], order)
    {
      var one := CheckApplied(log, plan.entries[i], order, pending, completed, created);
      if !one {
        return false;
      }
    }
    return changesSeen && indexSeen;
  }

  lemma SeenStep(log: seq<Record>, i: nat, m: Mark, order: nat)
    requires i < |log|
    ensures SeenBefore(log[..i + 1], m, order)
            <==> SeenBefore(log[..i], m, order) || (Bears(log[i], m) && log[i].order < order)
  {
    if SeenBefore(log[..i + 1], m, order) {
      var k :| 0 <= k < i + 1 && Bears(log[..i + 1][k], m) && log[..i + 1][k].order < order;
      if k < i {
        assert log[..i][k] == log[..i + 1][k];
      }
    }
    if SeenBefore(log[..i], m, order) {
      var k :| 0 <= k < i && Bears(log[..i][k], m) && log[..i][k].order < order;
      assert log[..i + 1][k] == log[..i][k];
    }
    if Bears(log[i], m) && log[i].order < order {
      assert log[..i + 1][i] == log[i];
    }
  }

  method CheckRolledBack(log: seq<Record>, e: Entry, order: nat, applied: Table, pending: Table, completed: Table)
    returns (ok: bool)
    requires applied == Filing(log, EffectVerifieds)
    requires pending == Filing(log, RollbackPendings)
    requires completed == Filing(log, RollbackVerifieds)
    ensures ok <==> EntryRolledBack(log, e, order)
  {
    var done := EffectVerified(e.path, DigestOf(e.desired));
    var undone := RollbackVerified(e.path, DigestOf(e.original));
    ListedSelects(log, EffectVerifieds, e.path, done);
    ListedPending(log, RollbackPendings, e.path, RollbackPending(e.path));
    ListedSelects(log, RollbackVerifieds, e.path, undone);
    var first := Select(Listed(applied, e.path), done);
    if first == [] {
      return true;
    }
    if |first| != 1 {
      return false;
    }
    var before, after := Listed(pending, e.path), Select(Listed(completed, e.path), undone);
    return AlonePair(before, after, order) && first[0].order < before[0].order;
  }

  method ValidateRolledBackEvidence(log: seq<Record>, plan: Plan, order: nat) returns (ok: bool)
    ensures ok <==> RolledBackEvidence(log, plan, order)
  {
    hide Bears, File, EntryRolledBack;
    var applied, pending, completed := map[], map[], map[];
    var rechecked: seq<Record> := [];
    var mark := RollbackIndexRechecked(Some(plan.indexDigest));
    for i := 0 to |log|
      invariant applied == Filing(log[..i], EffectVerifieds)
      invariant pending == Filing(log[..i], RollbackPendings)
      invariant completed == Filing(log[..i], RollbackVerifieds)
      invariant rechecked == SelectBefore(log[..i], mark, order)
    {
      FilingStep(log, i, EffectVerifieds);
      FilingStep(log, i, RollbackPendings);
      FilingStep(log, i, RollbackVerifieds);
      assert log[..i + 1][..i] == log[..i];
      applied := File(applied, log[i], EffectVerifieds);
      pending := File(pending, log[i], RollbackPendings);
      completed := File(completed, log[i], RollbackVerifieds);
      if Bears(log[i], mark) && log[i].order < order {
        rechecked := rechecked + [log[i]];
      }
    }
    assert log[..|log|] == log;
    for i := 0 to |plan.entries|
      invariant forall k :: 0 <= k < i ==> EntryRolledBack(log, plan.entries[k], order)
    {
      var one := CheckRolledBack(log, plan.entries[i], order, applied, pending, completed);
      if !one {
        return false;
      }
    }
    return |rechecked| == 1;
  }

  /** The evidence scan that a phase record triggers. */
  method ValidatePhaseEvidence(log: seq<Record>, plan: Plan, r: Record) returns (ok: bool)
    requires r.phase.Some?
    ensures ok <==> PhaseEvidence(log, plan, r)
  {
    match r.phase.value
    case BackupReady => ok := ValidateBackupEvidence(log, plan, r.order);
    case Applied => ok := ValidateAppliedEvidence(log, plan, r.order);
    case RolledBack => ok := ValidateRolledBackEvidence(log, plan, r.order);
    case _ => ok := true;
  }

  /** The single pass over a log that carries the current phase along. */
  method ValidateRecordSequence(log: seq<Record>, plan: Plan) returns (ok: bool)
    ensures ok <==> forall i :: 0 <= i < |log| ==> RecordOk(log, plan, i)
  {
    var current: Option<Phase> := None;
    for i := 0 to |log|
      invariant current == LatestPhase(log[..i])
      invariant forall k :: 0 <= k < i ==> RecordOk(log, plan, k)
    {
      var r := log[i];
      assert log[..i + 1][..i] == log[..i];
      if r.phase.None? {
        if !NonPhaseOk(r, current, plan) {
          assert !RecordOk(log, plan, i);
          return false;
        }
      } else {
        if !PhaseShape(r, plan) || !PhaseStep(current, r.phase.value, i == 0) {
          assert !RecordOk(log, plan, i);
          return false;
        }
        current := r.phase;
        var evidence := ValidatePhaseEvidence(log, plan, r);
        if !evidence {
          assert !RecordOk(log, plan, i);
          return false;
        }
      }
    }
    return true;
  }
}
