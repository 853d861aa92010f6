/** How far the log says each plan entry has come, and the order in which its evidence is written. */
module EntryProgress {
  import opened Wrappers
  import opened ApplyModels
  import opened JournalEvidence
  import opened JournalLaws

  datatype Progress = Untouched | Effecting | Effected | Reverting | Reverted

  predicate Seen(log: seq<Record>, m: Mark) {
    Select(log, m) != []
  }

  function AppliedMark(e: Entry): Mark {
    EffectVerified(e.path, DigestOf(e.desired))
  }

  function Undone(e: Entry): Mark {
    RollbackVerified(e.path, DigestOf(e.original))
  }

  /** The furthest evidence wins, in the order recovery looks for it. */
  function ProgressOf(log: seq<Record>, e: Entry): Progress {
    if Seen(log, Undone(e)) then Reverted
    else if Seen(log, RollbackPending(e.path)) then Reverting
    else if Seen(log, AppliedMark(e)) then Effected
    else if Seen(log, EffectPending(e.path)) then Effecting
    else Untouched
  }

  /** `b` is borne at most once, and only after `a`, which is borne at most once. */
  predicate Follows(log: seq<Record>, a: Mark, b: Mark) {
    && |Select(log, a)| <= 1
    && |Select(log, b)| <= 1
    && (Seen(log, a) && Seen(log, b) ==> Select(log, a)[0].order < Select(log, b)[0].order)
  }

  /** The evidence of one entry is written at most once, in order, and not skipping what it rests on. */
  predicate Chain(log: seq<Record>, e: Entry) {
    && Follows(log, EffectPending(e.path), AppliedMark(e))
    && Follows(log, AppliedMark(e), RollbackPending(e.path))
    && Follows(log, RollbackPending(e.path), Undone(e))
    && (Seen(log, AppliedMark(e)) ==> Seen(log, EffectPending(e.path)))
    && (Seen(log, RollbackPending(e.path)) ==> Seen(log, EffectPending(e.path)))
    && (Seen(log, Undone(e)) ==> Seen(log, RollbackPending(e.path)))
  }

  predicate ParentChain(log: seq<Record>, e: Entry, parent: Path) {
    && Follows(log, EffectPending(e.path), ParentCreated(parent, e.path))
    && Follows(log, ParentCreated(parent, e.path), AppliedMark(e))
    && (Seen(log, ParentCreated(parent, e.path)) ==> Seen(log, EffectPending(e.path)))
    && (Seen(log, AppliedMark(e)) ==> Seen(log, ParentCreated(parent, e.path)))
  }

  predicate EntryChain(log: seq<Record>, e: Entry) {
    && Chain(log, e)
    && forall j :: 0 <= j < |e.createdParents| ==> ParentChain(log, e, e.createdParents[j])
  }

  /** ROLLING_BACK is never entered again after ROLLED_BACK. */
  predicate OneRollback(log: seq<Record>) {
    LatestPhase(log) == Some(RollingBack) ==>
      forall i :: 0 <= i < |log| ==> log[i].phase != Some(RolledBack)
  }

  /** The log of a transaction: readable, and with every entry's evidence exactly once and in order. */
  predicate Sound(log: seq<Record>, plan: Plan) {
    && ValidLog(log, plan)
    && OneRollback(log)
    && forall k :: 0 <= k < |plan.entries| ==> EntryChain(log, plan.entries[k])
  }

  /** What the coordinators make sure of before they write a record. */
  predicate OrderlyFor(log: seq<Record>, e: Entry, r: Record) {
    && (Bears(r, EffectPending(e.path)) ==> ProgressOf(log, e).Untouched?)
    && (Bears(r, AppliedMark(e)) ==>
         && ProgressOf(log, e).Effecting?
         && forall j :: 0 <= j < |e.createdParents| ==> Seen(log, ParentCreated(e.createdParents[j], e.path)))
    && (Bears(r, RollbackPending(e.path)) ==> ProgressOf(log, e).Effecting? || ProgressOf(log, e).Effected?)
    && (Bears(r, Undone(e)) ==> ProgressOf(log, e).Reverting?)
    && forall j :: 0 <= j < |e.createdParents| ==>
         Bears(r, ParentCreated(e.createdParents[j], e.path)) ==>
           ProgressOf(log, e).Effecting? && !Seen(log, ParentCreated(e.createdParents[j], e.path))
  }

  predicate Orderly(log: seq<Record>, plan: Plan, r: Record) {
    && (r.phase == Some(RollingBack) ==> LatestPhase(log) == Some(Applying))
    && forall k :: 0 <= k < |plan.entries| ==> OrderlyFor(log, plan.entries[k], r)
  }

  lemma FollowsAppend(log: seq<Record>, a: Mark, b: Mark, r: Record)
    requires Numbered(log) && r.order == |log| + 1
    requires Follows(log, a, b)
    requires !(Bears(r, a) && Bears(r, b))
    requires Bears(r, a) ==> !Seen(log, a) && !Seen(log, b)
    requires Bears(r, b) ==> !Seen(log, b)
    ensures Follows(log + [r], a, b)
    ensures Seen(log + [r], a) <==> Seen(log, a) || Bears(r, a)
    ensures Seen(log + [r], b) <==> Seen(log, b) || Bears(r, b)
  {
    SelectAppend(log, r, a);
    SelectAppend(log, r, b);
    if Seen(log, a) {
      SelectedFromLog(log, a, 0);
    }
  }

  lemma SeenAppend(log: seq<Record>, m: Mark, r: Record)
    ensures Seen(log + [r], m) <==> Seen(log, m) || Bears(r, m)
  {
    SelectAppend(log, r, m);
  }

  lemma ChainAppend(log: seq<Record>, e: Entry, r: Record)
    requires Numbered(log) && r.order == |log| + 1
    requires Chain(log, e) && OrderlyFor(log, e, r)
    ensures Chain(log + [r], e)
  {
    hide Select, Numbered;
    FollowsAppend(log, EffectPending(e.path), AppliedMark(e), r);
    FollowsAppend(log, AppliedMark(e), RollbackPending(e.path), r);
    FollowsAppend(log, RollbackPending(e.path), Undone(e), r);
  }

  lemma ParentChainAppend(log: seq<Record>, e: Entry, r: Record, j: nat)
    requires Numbered(log) && r.order == |log| + 1 && j < |e.createdParents|
    requires Chain(log, e) && OrderlyFor(log, e, r) && ParentChain(log, e, e.createdParents[j])
    ensures ParentChain(log + [r], e, e.createdParents[j])
  {
    hide Select, Numbered;
    var parent := e.createdParents[j];
    FollowsAppend(log, EffectPending(e.path), ParentCreated(parent, e.path), r);
    FollowsAppend(log, ParentCreated(parent, e.path), AppliedMark(e), r);
  }

  lemma EntryChainAppend(log: seq<Record>, e: Entry, r: Record)
    requires Numbered(log) && r.order == |log| + 1
    requires EntryChain(log, e) && OrderlyFor(log, e, r)
    ensures EntryChain(log + [r], e)
  {
    ChainAppend(log, e, r);
    forall j | 0 <= j < |e.createdParents| ensures ParentChain(log + [r], e, e.createdParents[j]) {
      ParentChainAppend(log, e, r, j);
    }
  }

  /** Appending an accepted and orderly record keeps the log sound. */
  lemma AppendSound(log: seq<Record>, plan: Plan, r: Record)
    requires ValidPlan(plan) && Sound(log, plan) && Accepts(log, plan, r) && Orderly(log, plan, r)
    ensures Sound(log + [r], plan)
  {
    hide EntryChain, OrderlyFor;
    AppendRefines(log, plan, r);
    LatestAppend(log, r);
    if r.phase == Some(RollingBack) {
      forall i | 0 <= i < |log| ensures log[i].phase != Some(RolledBack) {
        if log[i].phase == Some(RolledBack) {
          PhaseHistory(log, plan, i);
        }
      }
    }
    forall k | 0 <= k < |plan.entries| ensures EntryChain(log + [r], plan.entries[k]) {
      EntryChainAppend(log, plan.entries[k], r);
    }
  }

  /** Where a record takes an entry. */
  function Move(r: Record, e: Entry, before: Progress): Progress {
    if Bears(r, EffectPending(e.path)) then Effecting
    else if Bears(r, AppliedMark(e)) then Effected
    else if Bears(r, RollbackPending(e.path)) then Reverting
    else if Bears(r, Undone(e)) then Reverted
    else before
  }

  lemma AppendMoves(log: seq<Record>, e: Entry, r: Record)
    requires OrderlyFor(log, e, r)
    ensures ProgressOf(log + [r], e) == Move(r, e, ProgressOf(log, e))
  {
    hide Select;
    SeenAppend(log, EffectPending(e.path), r);
    SeenAppend(log, AppliedMark(e), r);
    SeenAppend(log, RollbackPending(e.path), r);
    SeenAppend(log, Undone(e), r);
  }

  /** A sound log whose verified entries are all reverted and whose index was re-checked exactly once
      accepts ROLLED_BACK; a second index re-check makes it refuse. */
  lemma RolledBackAccepted(log: seq<Record>, plan: Plan)
    requires ValidPlan(plan) && Sound(log, plan) && LatestPhase(log) == Some(RollingBack)
    requires forall k :: 0 <= k < |plan.entries| ==>
               !ProgressOf(log, plan.entries[k]).Effected? && !ProgressOf(log, plan.entries[k]).Reverting?
    ensures Accepts(log, plan, Numbering(log, PhaseLine(RolledBack, plan)))
            <==> |Select(log, RollbackIndexRechecked(Some(plan.indexDigest)))| == 1
  {
    var r := Numbering(log, PhaseLine(RolledBack, plan));
    var mark := RollbackIndexRechecked(Some(plan.indexDigest));
    SelectBeforeAll(log, mark, |log| + 1);
    assert (log + [r])[..|log|] == log;
    assert SelectBefore(log + [r], mark, |log| + 1) == Select(log, mark);
    forall k | 0 <= k < |plan.entries| ensures EntryRolledBack(log + [r], plan.entries[k], |log| + 1) {
      RevertedEntry(log, plan.entries[k], r);
    }
    assert RolledBackEvidence(log + [r], plan, |log| + 1) <==> |Select(log, mark)| == 1;
    AppendPhase(log, plan, r);
  }

  lemma RevertedEntry(log: seq<Record>, e: Entry, r: Record)
    requires Numbered(log) && EntryChain(log, e) && r.phase.Some?
    requires !ProgressOf(log, e).Effected? && !ProgressOf(log, e).Reverting?
    ensures EntryRolledBack(log + [r], e, |log| + 1)
  {
    SelectAppend(log, r, AppliedMark(e));
    SelectAppend(log, r, RollbackPending(e.path));
    SelectAppend(log, r, Undone(e));
    if Seen(log, Undone(e)) {
      SelectedFromLog(log, Undone(e), 0);
    }
  }

  lemma {:induction false} SelectBeforeAll(log: seq<Record>, m: Mark, order: nat)
    requires forall i :: 0 <= i < |log| ==> log[i].order < order
    ensures SelectBefore(log, m, order) == Select(log, m)
  {
    if log != [] {
      SelectBeforeAll(log[..|log| - 1], m, order);
    }
  }

  /** Appending a phase record to a readable log is accepted exactly when its own checks pass. */
  lemma AppendPhase(log: seq<Record>, plan: Plan, r: Record)
    requires ValidLog(log, plan) && r.phase.Some? && r.order == |log| + 1
    ensures Accepts(log, plan, r)
            <==> && PhaseShape(r, plan)
                 && PhaseStep(LatestPhase(log), r.phase.value, |log| == 0)
                 && PhaseEvidence(log + [r], plan, r)
  {
    var longer := log + [r];
    assert longer[..|log|] == log;
    assert longer[|log|] == r;
    if PhaseShape(r, plan) && PhaseStep(LatestPhase(log), r.phase.value, |log| == 0)
       && PhaseEvidence(longer, plan, r) {
      forall i | 0 <= i < |longer| ensures RecordOk(longer, plan, i) {
        if i < |log| {
          assert RecordOk(log, plan, i);
          assert longer[..i] == log[..i];
          if log[i].phase.Some? {
            EvidenceUnderPhase(log, plan, i, r);
          }
        }
      }
    } else {
      assert !RecordOk(longer, plan, |log|);
    }
  }

  /** A phase record is no evidence, so it changes no earlier verdict. */
  lemma EvidenceUnderPhase(log: seq<Record>, plan: Plan, i: nat, r: Record)
    requires Numbered(log) && i < |log| && log[i].phase.Some? && r.phase.Some?
    requires PhaseEvidence(log, plan, log[i])
    ensures PhaseEvidence(log + [r], plan, log[i])
  {
    hide Bears, Select, Numbered;
    forall m ensures Select(log + [r], m) == Select(log, m) {
      PhaseIsNoMark(log, r, m);
    }
    match log[i].phase.value
    case Applied =>
      SeenStays(log, r, ChangesRechecked(Some(plan.changesDigest)), log[i].order);
      SeenStays(log, r, IndexRechecked(Some(plan.indexDigest)), log[i].order);
    case RolledBack =>
      PhaseSelectsNothing(log, r, RollbackIndexRechecked(Some(plan.indexDigest)), log[i].order);
    case _ =>
  }

  lemma PhaseIsNoMark(log: seq<Record>, r: Record, m: Mark)
    requires r.phase.Some?
    ensures Select(log + [r], m) == Select(log, m)
  {
    SelectAppend(log, r, m);
  }

  lemma PhaseSelectsNothing(log: seq<Record>, r: Record, m: Mark, order: nat)
    requires r.phase.Some?
    ensures SelectBefore(log + [r], m, order) == SelectBefore(log, m, order)
  {
    assert (log + [r])[..|log|] == log;
  }

  lemma SeenStays(log: seq<Record>, r: Record, m: Mark, order: nat)
    requires SeenBefore(log, m, order)
    ensures SeenBefore(log + [r], m, order)
  {
    JournalLaws.SeenAppend(log, r, m, order);
  }
}
