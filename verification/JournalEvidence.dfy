/** What makes a transaction log acceptable: the phase machine and the evidence each phase needs. */
module JournalEvidence {
  import opened Wrappers
  import opened ApplyModels

  /** The records that serve as evidence, told apart by everything the validators look at. */
  datatype Mark =
    | BackupPending(path: Path)
    | BackupVerified(path: Path, digest: Option<Digest>)
    | EffectPending(path: Path)
    | EffectVerified(path: Path, digest: Option<Digest>)
    | ParentCreated(parent: Path, owner: Path)
    | ChangesRechecked(digest: Option<Digest>)
    | IndexRechecked(digest: Option<Digest>)
    | RollbackPending(path: Path)
    | RollbackVerified(path: Path, digest: Option<Digest>)
    | RollbackIndexRechecked(digest: Option<Digest>)

  predicate Bears(r: Record, m: Mark) {
    && r.phase.None?
    && match m
       case BackupPending(p) =>
         r.stage.BackupStage? && r.status.Pending? && r.path == Some(p)
         && r.detail.BackupPendingText? && r.evidence.None?
       case BackupVerified(p, d) =>
         r.stage.BackupStage? && r.status.Completed? && r.path == Some(p)
         && r.detail.BackupVerifiedText? && r.evidence == d
       case EffectPending(p) =>
         r.stage.ApplyStage? && r.status.Pending? && r.path == Some(p)
         && r.detail.EffectPendingText? && r.evidence.None?
       case EffectVerified(p, d) =>
         r.stage.ApplyStage? && r.status.Completed? && r.path == Some(p)
         && r.detail.EffectVerifiedText? && r.evidence == d
       case ParentCreated(p, owner) =>
         r.stage.ApplyStage? && r.status.Completed? && r.path == Some(p)
         && r.detail == CreatedParentText(owner) && r.evidence.Some?
       case ChangesRechecked(d) =>
         r.stage.VerifyStage? && r.status.Completed? && r.path.None?
         && r.detail.ChangesRecheckedText? && r.evidence == d
       case IndexRechecked(d) =>
         r.stage.VerifyStage? && r.status.Completed? && r.path.None?
         && r.detail.IndexRecheckedText? && r.evidence == d
       case RollbackPending(p) =>
         r.stage.RollbackStage? && r.status.Pending? && r.path == Some(p)
         && r.detail.RollbackPendingText? && r.evidence.None?
       case RollbackVerified(p, d) =>
         r.stage.RollbackStage? && r.status.Completed? && r.path == Some(p)
         && r.detail.RollbackVerifiedText? && r.evidence == d
       case RollbackIndexRechecked(d) =>
         r.stage.VerifyStage? && r.status.Completed? && r.path.None?
         && r.detail.RollbackIndexText? && r.evidence == d
  }

  /** The records of the log that bear a mark, in log order. */
  function Select(log: seq<Record>, m: Mark): seq<Record> {
    if log == [] then []
    else
      var last := log[|log| - 1];
      Select(log[..|log| - 1], m) + (if Bears(last, m) then [last] else [])
  }

  /** The phase reached by a log: that of its last phase record. */
  function LatestPhase(log: seq<Record>): Option<Phase> {
    if log == [] then None
    else
      var last := log[|log| - 1];
      if last.phase.Some? then last.phase else LatestPhase(log[..|log| - 1])
  }

  predicate Numbered(log: seq<Record>) {
    forall i :: 0 <= i < |log| ==> log[i].order == i + 1
  }

  function EntryFor(plan: Plan, p: Path): Option<Entry> {
    EntryAmong(plan.entries, p)
  }

  function EntryAmong(entries: seq<Entry>, p: Path): Option<Entry> {
    if entries == [] then None
    else
      var last := entries[|entries| - 1];
      if last.path == p then Some(last) else EntryAmong(entries[..|entries| - 1], p)
  }

  /** The entry that owns a created parent; when several claim it the last one wins. */
  function OwnerFor(plan: Plan, p: Path): Option<Entry> {
    OwnerAmong(plan.entries, p)
  }

  function OwnerAmong(entries: seq<Entry>, p: Path): Option<Entry> {
    if entries == [] then None
    else
      var last := entries[|entries| - 1];
      if p in last.createdParents then Some(last) else OwnerAmong(entries[..|entries| - 1], p)
  }

  // ---- phase machine ----

  predicate MayFollow(next: Phase, current: Phase) {
    match next
    case Preparing => false
    case BackupReady => current == Preparing
    case Applying => current == BackupReady
    case Applied => current == Applying
    case RollingBack => current == Applying || current == RecoveryRequired
    case RolledBack => current == RollingBack
    case RecoveryRequired => current != RecoveryRequired
  }

  function StageOf(phase: Phase): Stage {
    match phase
    case Preparing => PrepareStage
    case BackupReady => BackupStage
    case Applying => ApplyStage
    case Applied => VerifyStage
    case RollingBack => RollbackStage
    case RolledBack => VerifyStage
    case RecoveryRequired => RecoveryStage
  }

  predicate CarriesPlanDigest(phase: Phase) {
    phase.Preparing? || phase.BackupReady? || phase.Applied? || phase.RolledBack?
  }

  /** A phase record as such: no path, completed, under its own stage, with the digest it must carry. */
  predicate PhaseShape(r: Record, plan: Plan)
    requires r.phase.Some?
  {
    && r.path.None?
    && r.status.Completed?
    && r.stage == StageOf(r.phase.value)
    && r.evidence == (if CarriesPlanDigest(r.phase.value) then Some(plan.digest) else None)
  }

  predicate PhaseStep(current: Option<Phase>, next: Phase, first: bool) {
    match current
    case None => first && (next.Preparing? || next.RecoveryRequired?)
    case Some(c) => MayFollow(next, c)
  }

  // ---- evidence demanded at a phase record ----

  /** The single record bearing `m` exists. */
  predicate Once(log: seq<Record>, m: Mark) {
    |Select(log, m)| == 1
  }

  /** `a` and `b` are each borne once, `a` first, and `b` before position `order`. */
  predicate OncePair(log: seq<Record>, a: Mark, b: Mark, order: nat) {
    && Once(log, a)
    && Once(log, b)
    && Select(log, a)[0].order < Select(log, b)[0].order < order
  }

  predicate EntryBackedUp(log: seq<Record>, e: Entry, order: nat) {
    OncePair(log, BackupPending(e.path), BackupVerified(e.path, DigestOf(e.original)), order)
  }

  predicate BackupEvidence(log: seq<Record>, plan: Plan, order: nat) {
    forall i :: 0 <= i < |plan.entries| ==> EntryBackedUp(log, plan.entries[i], order)
  }

  predicate ParentProven(log: seq<Record>, e: Entry, parent: Path)
    requires Once(log, EffectPending(e.path)) && Once(log, EffectVerified(e.path, DigestOf(e.desired)))
  {
    && Once(log, ParentCreated(parent, e.path))
    && Select(log, EffectPending(e.path))[0].order
       < Select(log, ParentCreated(parent, e.path))[0].order
       < Select(log, EffectVerified(e.path, DigestOf(e.desired)))[0].order
  }

  predicate EntryApplied(log: seq<Record>, e: Entry, order: nat) {
    && OncePair(log, EffectPending(e.path), EffectVerified(e.path, DigestOf(e.desired)), order)
    && forall j :: 0 <= j < |e.createdParents| ==> ParentProven(log, e, e.createdParents[j])
  }

  /** Some record bearing `m` stands before position `order`. */
  predicate SeenBefore(log: seq<Record>, m: Mark, order: nat) {
    exists i :: 0 <= i < |log| && Bears(log[i], m) && log[i].order < order
  }

  predicate AppliedEvidence(log: seq<Record>, plan: Plan, order: nat) {
    && (forall i :: 0 <= i < |plan.entries| ==> EntryApplied(log, plan.entries[i], order))
    && SeenBefore(log, ChangesRechecked(Some(plan.changesDigest)), order)
    && SeenBefore(log, IndexRechecked(Some(plan.indexDigest)), order)
  }

  /** An entry whose effect was verified has exactly one pending and one verified rollback after it. */
  predicate EntryRolledBack(log: seq<Record>, e: Entry, order: nat) {
    var applied := EffectVerified(e.path, DigestOf(e.desired));
    Select(log, applied) == [] ||
    (&& OncePair(log, RollbackPending(e.path), RollbackVerified(e.path, DigestOf(e.original)), order)
     && Once(log, applied)
     && Select(log, applied)[0].order < Select(log, RollbackPending(e.path))[0].order)
  }

  /** The records before position `order` that bear `m`. */
  function SelectBefore(log: seq<Record>, m: Mark, order: nat): seq<Record> {
    if log == [] then []
    else
      var last := log[|log| - 1];
      SelectBefore(log[..|log| - 1], m, order)
      + (if Bears(last, m) && last.order < order then [last] else [])
  }

  predicate RolledBackEvidence(log: seq<Record>, plan: Plan, order: nat) {
    && (forall i :: 0 <= i < |plan.entries| ==> EntryRolledBack(log, plan.entries[i], order))
    && |SelectBefore(log, RollbackIndexRechecked(Some(plan.indexDigest)), order)| == 1
  }

  predicate PhaseEvidence(log: seq<Record>, plan: Plan, r: Record)
    requires r.phase.Some?
  {
    match r.phase.value
    case BackupReady => BackupEvidence(log, plan, r.order)
    case Applied => AppliedEvidence(log, plan, r.order)
    case RolledBack => RolledBackEvidence(log, plan, r.order)
    case _ => true
  }

  // ---- other records ----

  /** Whether a record without a phase may stand while `current` is the phase. */
  predicate NonPhaseOk(r: Record, current: Option<Phase>, plan: Plan) {
    && r.phase.None?
    && match r.stage
       case BackupStage =>
         && current == Some(Preparing) && r.path.Some?
         && var e := EntryFor(plan, r.path.value);
         && e.Some?
         && (Bears(r, BackupPending(r.path.value))
             || Bears(r, BackupVerified(r.path.value, DigestOf(e.value.original))))
       case ApplyStage =>
         && current == Some(Applying) && r.path.Some?
         && var e := EntryFor(plan, r.path.value);
         var owner := OwnerFor(plan, r.path.value);
         if e.Some? then
           || Bears(r, EffectPending(r.path.value))
           || Bears(r, EffectVerified(r.path.value, DigestOf(e.value.desired)))
         else
           owner.Some? && Bears(r, ParentCreated(r.path.value, owner.value.path))
       case VerifyStage =>
         || (&& current == Some(Applying)
             && (Bears(r, ChangesRechecked(Some(plan.changesDigest)))
                 || Bears(r, IndexRechecked(Some(plan.indexDigest)))))
         || (current == Some(RollingBack) && Bears(r, RollbackIndexRechecked(Some(plan.indexDigest))))
       case RollbackStage =>
         && current == Some(RollingBack) && r.path.Some?
         && var e := EntryFor(plan, r.path.value);
         && e.Some?
         && (Bears(r, RollbackPending(r.path.value))
             || Bears(r, RollbackVerified(r.path.value, DigestOf(e.value.original))))
       case _ => false
  }

  /** Record `i` of the log is acceptable; the evidence at a phase record is sought in the whole log. */
  predicate RecordOk(log: seq<Record>, plan: Plan, i: nat)
    requires i < |log|
  {
    var r := log[i];
    var current := LatestPhase(log[..i]);
    if r.phase.None? then NonPhaseOk(r, current, plan)
    else
      && PhaseShape(r, plan)
      && PhaseStep(current, r.phase.value, i == 0)
      && PhaseEvidence(log, plan, r)
  }

  /** The log that a fresh read accepts. */
  predicate ValidLog(log: seq<Record>, plan: Plan) {
    && Numbered(log)
    && forall i :: 0 <= i < |log| ==> RecordOk(log, plan, i)
  }

  // ---- the records the coordinators write ----

  /** A record before it gets its number. */
  datatype Line = Line(
    stage: Stage,
    status: Status,
    phase: Option<Phase>,
    path: Option<Path>,
    detail: Detail,
    evidence: Option<Digest>)

  function Numbering(log: seq<Record>, line: Line): Record {
    Record(|log| + 1, line.stage, line.status, line.phase, line.path, line.detail, line.evidence)
  }

  function MarkLine(m: Mark): Line
    requires !m.ParentCreated?
  {
    match m
    case BackupPending(p) => Line(BackupStage, Pending, None, Some(p), BackupPendingText, None)
    case BackupVerified(p, d) => Line(BackupStage, Completed, None, Some(p), BackupVerifiedText, d)
    case EffectPending(p) => Line(ApplyStage, Pending, None, Some(p), EffectPendingText, None)
    case EffectVerified(p, d) => Line(ApplyStage, Completed, None, Some(p), EffectVerifiedText, d)
    case ChangesRechecked(d) => Line(VerifyStage, Completed, None, None, ChangesRecheckedText, d)
    case IndexRechecked(d) => Line(VerifyStage, Completed, None, None, IndexRecheckedText, d)
    case RollbackPending(p) => Line(RollbackStage, Pending, None, Some(p), RollbackPendingText, None)
    case RollbackVerified(p, d) => Line(RollbackStage, Completed, None, Some(p), RollbackVerifiedText, d)
    case RollbackIndexRechecked(d) => Line(VerifyStage, Completed, None, None, RollbackIndexText, d)
  }

  function ParentLine(parent: Path, owner: Path, identity: Digest): Line {
    Line(ApplyStage, Completed, None, Some(parent), CreatedParentText(owner), Some(identity))
  }

  function PhaseLine(phase: Phase, plan: Plan): Line {
    Line(StageOf(phase), Completed, Some(phase), None, OtherText,
      if CarriesPlanDigest(phase) then Some(plan.digest) else None)
  }
}
