/** The immutable values of the apply transaction: paths, snapshots, plans and journal records. */
module ApplyModels {
  import opened Wrappers

  /** A repository path is its sequence of segments; the empty sequence is the root directory. */
  type Path = seq<string>

  type Bytes = seq<bv8>

  datatype Kind = RegularFile | Symlink

  /** What one name in the target tree holds. */
  datatype Snapshot = Snapshot(content: Bytes, kind: Kind, executable: bool)

  /** Collision-free digests: equal digests have equal preimages. */
  datatype Digest =
    | OfContent(content: Bytes)
    | OfDirectory(inode: nat)
    | OfIndex(index: nat)
    | OfChanges(changes: nat)
    | OfPlan(plan: nat)

  function DigestOf(s: Option<Snapshot>): Option<Digest> {
    match s
    case None => None
    case Some(v) => Some(OfContent(v.content))
  }

  /** One planned change: `original` is what the target holds, `desired` what it shall hold. */
  datatype Entry = Entry(
    order: nat,
    path: Path,
    original: Option<Snapshot>,
    desired: Option<Snapshot>,
    createdParents: seq<Path>,
    parentIdentity: Option<Digest>)

  datatype Plan = Plan(
    changesDigest: Digest,
    indexDigest: Digest,
    rootIdentity: Digest,
    entries: seq<Entry>,
    digest: Digest)

  predicate ProperPrefix(p: Path, q: Path) {
    |p| < |q| && p == q[..|p|]
  }

  /** The invariants of a plan entry. */
  predicate ValidEntry(e: Entry) {
    && 0 < e.order
    && 0 < |e.path|
    && (e.original.Some? || e.desired.Some?)
    && (forall i :: 0 <= i < |e.createdParents| ==>
         0 < |e.createdParents[i]| && ProperPrefix(e.createdParents[i], e.path))
    && (forall i, j :: 0 <= i < j < |e.createdParents| ==>
         |e.createdParents[i]| < |e.createdParents[j]|)
  }

  /** The invariants of a plan: orders count from one and no path occurs twice. */
  predicate ValidPlan(plan: Plan) {
    && (forall i :: 0 <= i < |plan.entries| ==> ValidEntry(plan.entries[i]) && plan.entries[i].order == i + 1)
    && (forall i, j :: 0 <= i < j < |plan.entries| ==> plan.entries[i].path != plan.entries[j].path)
  }

  datatype Phase = Preparing | BackupReady | Applying | Applied | RollingBack | RolledBack | RecoveryRequired

  datatype Stage = PrepareStage | BackupStage | ApplyStage | RollbackStage | VerifyStage | RecoveryStage

  datatype Status = Pending | Completed

  /** The free-text detail of a record, reduced to the texts the journal recognises. */
  datatype Detail =
    | BackupPendingText
    | BackupVerifiedText
    | EffectPendingText
    | EffectVerifiedText
    | CreatedParentText(owner: Path)
    | ChangesRecheckedText
    | IndexRecheckedText
    | RollbackPendingText
    | RollbackVerifiedText
    | RollbackIndexText
    | OtherText

  datatype Record = Record(
    order: nat,
    stage: Stage,
    status: Status,
    phase: Option<Phase>,
    path: Option<Path>,
    detail: Detail,
    evidence: Option<Digest>)
}
