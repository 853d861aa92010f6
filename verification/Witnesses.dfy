/** Transactions of one addition, followed record by record into each state from which recovery does not
    roll back, and to the end of a rollback that a second one spoils. */
module Witnesses {
  import opened Wrappers
  import opened ApplyModels
  import opened TargetTree
  import opened Hosts
  import opened Directories
  import opened EntryEffects
  import opened JournalEvidence
  import opened JournalLaws
  import opened EntryProgress
  import opened TransactionTree
  import opened RecoveryEvidence
  import opened Recovery
  import WriteAhead

  // ---- the logs ----

  function Append(log: seq<Record>, line: Line): seq<Record> {
    log + [Numbering(log, line)]
  }

  /** The log of an addition up to APPLYING. */
  function Begun(plan: Plan): seq<Record>
    requires |plan.entries| == 1
  {
    var p := plan.entries[0].path;
    var prepared := Append([], PhaseLine(Preparing, plan));
    var pending := Append(prepared, MarkLine(BackupPending(p)));
    var backedUp := Append(pending, MarkLine(BackupVerified(p, DigestOf(plan.entries[0].original))));
    Append(Append(backedUp, PhaseLine(BackupReady, plan)), PhaseLine(Applying, plan))
  }

  function Announced(plan: Plan): seq<Record>
    requires |plan.entries| == 1
  {
    Append(Begun(plan), MarkLine(EffectPending(plan.entries[0].path)))
  }

  /** With evidence for the first `n` created parents, which got the identities 1, 2, and so on. */
  function Proven(plan: Plan, n: nat): seq<Record>
    requires |plan.entries| == 1 && n <= |plan.entries[0].createdParents|
  {
    if n == 0 then Announced(plan)
    else
      var e := plan.entries[0];
      Append(Proven(plan, n - 1), ParentLine(e.createdParents[n - 1], e.path, OfDirectory(n)))
  }

  function Verified(plan: Plan): seq<Record>
    requires |plan.entries| == 1
  {
    var e := plan.entries[0];
    Append(Proven(plan, |e.createdParents|), MarkLine(AppliedMark(e)))
  }

  function Undoing(plan: Plan): seq<Record>
    requires |plan.entries| == 1
  {
    Append(Append(Verified(plan), PhaseLine(RollingBack, plan)), MarkLine(RollbackPending(plan.entries[0].path)))
  }

  function Reversed(plan: Plan): seq<Record>
    requires |plan.entries| == 1
  {
    Append(Undoing(plan), MarkLine(Undone(plan.entries[0])))
  }

  function Rechecked(plan: Plan): seq<Record>
    requires |plan.entries| == 1
  {
    Append(Reversed(plan), MarkLine(RollbackIndexRechecked(Some(plan.indexDigest))))
  }

  function Finished(plan: Plan): seq<Record>
    requires |plan.entries| == 1
  {
    Append(Rechecked(plan), PhaseLine(RolledBack, plan))
  }

  // ---- what they prove ----

  /** Where the single entry of a sound log stands. */
  ghost predicate At(log: seq<Record>, plan: Plan, phase: Phase, progress: Progress, parents: nat, rechecks: nat)
    requires |plan.entries| == 1
  {
    var e := plan.entries[0];
    && Sound(log, plan)
    && LatestPhase(log) == Some(phase)
    && ProgressOf(log, e) == progress
    && (forall j :: 0 <= j < |e.createdParents| ==>
         ParentProof(log, e, e.createdParents[j]) == if j < parents then Some(OfDirectory(j + 1)) else None)
    && |Select(log, RollbackIndexRechecked(Some(plan.indexDigest)))| == rechecks
  }

  lemma MarkStep(log: seq<Record>, plan: Plan, m: Mark, phase: Phase, progress: Progress, parents: nat, rechecks: nat)
    requires ValidPlan(plan) && |plan.entries| == 1 && !m.ParentCreated?
    requires At(log, plan, phase, progress, parents, rechecks)
    requires NonPhaseOk(Numbering(log, MarkLine(m)), Some(phase), plan)
    requires OrderlyFor(log, plan.entries[0], Numbering(log, MarkLine(m)))
    ensures At(Append(log, MarkLine(m)), plan, phase, Move(Numbering(log, MarkLine(m)), plan.entries[0], progress),
              parents, rechecks + if m == RollbackIndexRechecked(Some(plan.indexDigest)) then 1 else 0)
  {
    hide Chain, ParentChain, ValidLog, OrderlyFor, NonPhaseOk, ProgressOf, Select;
    var e := plan.entries[0];
    var r := Numbering(log, MarkLine(m));
    AppendSound(log, plan, r);
    LatestAppend(log, r);
    AppendMoves(log, e, r);
    SelectAppend(log, r, RollbackIndexRechecked(Some(plan.indexDigest)));
    forall d ensures Select(log + [r], ParentCreated(d, e.path)) == Select(log, ParentCreated(d, e.path)) {
      SelectAppend(log, r, ParentCreated(d, e.path));
    }
  }

  lemma ParentStep(log: seq<Record>, plan: Plan, parents: nat)
    requires ValidPlan(plan) && |plan.entries| == 1 && parents < |plan.entries[0].createdParents|
    requires At(log, plan, Applying, Effecting, parents, 0)
    ensures At(Append(log, ParentLine(plan.entries[0].createdParents[parents], plan.entries[0].path, OfDirectory(parents + 1))),
              plan, Applying, Effecting, parents + 1, 0)
  {
    hide Chain, ParentChain, ValidLog, ProgressOf, Select;
    var e := plan.entries[0];
    var d := e.createdParents[parents];
    var r := Numbering(log, ParentLine(d, e.path, OfDirectory(parents + 1)));
    OnlyOwner(plan, d);
    assert ParentProof(log, e, d) == None;
    assert Select(log, ParentCreated(d, e.path)) == [] by { NoProof(log, e, d); }
    AppendSound(log, plan, r);
    LatestAppend(log, r);
    AppendMoves(log, e, r);
    SelectAppend(log, r, RollbackIndexRechecked(Some(plan.indexDigest)));
    forall j | 0 <= j < |e.createdParents|
      ensures ParentProof(log + [r], e, e.createdParents[j])
              == if j == parents then Some(OfDirectory(parents + 1)) else ParentProof(log, e, e.createdParents[j])
    {
      SelectAppend(log, r, ParentCreated(e.createdParents[j], e.path));
    }
  }

  lemma NoProof(log: seq<Record>, e: Entry, d: Path)
    requires ParentProof(log, e, d).None?
    ensures Select(log, ParentCreated(d, e.path)) == []
  {
    var found := Select(log, ParentCreated(d, e.path));
    if found != [] {
      SelectedFromLog(log, ParentCreated(d, e.path), |found| - 1);
    }
  }

  lemma OnlyOwner(plan: Plan, d: Path)
    requires ValidPlan(plan) && |plan.entries| == 1 && d in plan.entries[0].createdParents
    ensures EntryFor(plan, d).None? && OwnerFor(plan, d) == Some(plan.entries[0])
  {
    assert ValidEntry(plan.entries[0]);
    OwnerAmongFirst(plan.entries, d);
    EntryForPath(plan.entries, d);
  }

  lemma PhaseStepAt(log: seq<Record>, plan: Plan, phase: Phase, next: Phase, progress: Progress, parents: nat,
                    rechecks: nat)
    requires ValidPlan(plan) && |plan.entries| == 1
    requires At(log, plan, phase, progress, parents, rechecks)
    requires MayFollow(next, phase) && (next == RollingBack ==> phase == Applying)
    requires PhaseEvidence(Append(log, PhaseLine(next, plan)), plan, Numbering(log, PhaseLine(next, plan)))
    ensures At(Append(log, PhaseLine(next, plan)), plan, next, progress, parents, rechecks)
  {
    hide Chain, ParentChain, ValidLog, ProgressOf, Select, PhaseEvidence;
    var e := plan.entries[0];
    var r := Numbering(log, PhaseLine(next, plan));
    SoundIsReadable(log, plan);
    LogNotEmpty(log);
    AppendPhase(log, plan, r);
    AppendSound(log, plan, r);
    LatestAppend(log, r);
    AppendMoves(log, e, r);
    forall m ensures Select(log + [r], m) == Select(log, m) {
      SelectAppend(log, r, m);
    }
  }

  lemma LogNotEmpty(log: seq<Record>)
    requires LatestPhase(log).Some?
    ensures log != []
  {
  }

  lemma BegunAt(plan: Plan)
    requires ValidPlan(plan) && |plan.entries| == 1
    ensures At(Begun(plan), plan, Applying, Untouched, 0, 0)
  {
    hide ValidLog, Chain, ParentChain, ProgressOf, Accepts;
    var e := plan.entries[0];
    var prepared := Append([], PhaseLine(Preparing, plan));
    PreparedAt(plan);
    EntryForMember(plan, 0);
    var bp, bv := BackupPending(e.path), BackupVerified(e.path, DigestOf(e.original));
    MarkStep(prepared, plan, bp, Preparing, Untouched, 0, 0);
    var pending := Append(prepared, MarkLine(bp));
    MarkStep(pending, plan, bv, Preparing, Untouched, 0, 0);
    var backedUp := Append(pending, MarkLine(bv));
    BackedUp(plan);
    PhaseStepAt(backedUp, plan, Preparing, BackupReady, Untouched, 0, 0);
    PhaseStepAt(Append(backedUp, PhaseLine(BackupReady, plan)), plan, BackupReady, Applying, Untouched, 0, 0);
  }

  lemma PreparedAt(plan: Plan)
    requires ValidPlan(plan) && |plan.entries| == 1
    ensures At(Append([], PhaseLine(Preparing, plan)), plan, Preparing, Untouched, 0, 0)
  {
    var r := Numbering([], PhaseLine(Preparing, plan));
    AppendPhase([], plan, r);
    AppendSound([], plan, r);
    LatestAppend([], r);
    forall m ensures Select([] + [r], m) == [] {
      SelectAppend([], r, m);
    }
  }

  lemma BackedUp(plan: Plan)
    requires ValidPlan(plan) && |plan.entries| == 1
    ensures var e := plan.entries[0];
            var prepared := Append([], PhaseLine(Preparing, plan));
            var pending := Append(prepared, MarkLine(BackupPending(e.path)));
            var log := Append(pending, MarkLine(BackupVerified(e.path, DigestOf(e.original))));
            PhaseEvidence(Append(log, PhaseLine(BackupReady, plan)), plan, Numbering(log, PhaseLine(BackupReady, plan)))
  {
    var e := plan.entries[0];
    var bp, bv := BackupPending(e.path), BackupVerified(e.path, DigestOf(e.original));
    var prepared := Append([], PhaseLine(Preparing, plan));
    var pending := Append(prepared, MarkLine(bp));
    var log := Append(pending, MarkLine(bv));
    forall m | m == bp || m == bv
      ensures Select(Append(log, PhaseLine(BackupReady, plan)), m)
              == if m == bp then [Numbering(prepared, MarkLine(bp))] else [Numbering(pending, MarkLine(bv))]
    {
      SelectAppend([], Numbering([], PhaseLine(Preparing, plan)), m);
      SelectAppend(prepared, Numbering(prepared, MarkLine(bp)), m);
      SelectAppend(pending, Numbering(pending, MarkLine(bv)), m);
      SelectAppend(log, Numbering(log, PhaseLine(BackupReady, plan)), m);
    }
  }

  lemma {:induction false} ProvenAt(plan: Plan, n: nat)
    requires ValidPlan(plan) && |plan.entries| == 1 && n <= |plan.entries[0].createdParents|
    ensures At(Proven(plan, n), plan, Applying, Effecting, n, 0)
  {
    hide At, OrderlyFor;
    if n == 0 {
      BegunAt(plan);
      EntryForMember(plan, 0);
      Announces(Begun(plan), plan);
    } else {
      ProvenAt(plan, n - 1);
      ParentStep(Proven(plan, n - 1), plan, n - 1);
    }
  }

  lemma Announces(log: seq<Record>, plan: Plan)
    requires ValidPlan(plan) && |plan.entries| == 1
    requires At(log, plan, Applying, Untouched, 0, 0)
    ensures At(Append(log, MarkLine(EffectPending(plan.entries[0].path))), plan, Applying, Effecting, 0, 0)
  {
    hide Sound, ProgressOf;
    EntryForMember(plan, 0);
    MarkStep(log, plan, EffectPending(plan.entries[0].path), Applying, Untouched, 0, 0);
  }

  lemma VerifiedAt(plan: Plan)
    requires ValidPlan(plan) && |plan.entries| == 1
    ensures At(Verified(plan), plan, Applying, Effected, |plan.entries[0].createdParents|, 0)
  {
    hide Sound, ProgressOf;
    var e := plan.entries[0];
    var n := |e.createdParents|;
    ProvenAt(plan, n);
    EntryForMember(plan, 0);
    MarkStep(Proven(plan, n), plan, AppliedMark(e), Applying, Effecting, n, 0);
  }

  lemma UndoingAt(plan: Plan)
    requires ValidPlan(plan) && |plan.entries| == 1
    ensures At(Undoing(plan), plan, RollingBack, Reverting, |plan.entries[0].createdParents|, 0)
  {
    hide Sound, ProgressOf;
    var e := plan.entries[0];
    var n := |e.createdParents|;
    VerifiedAt(plan);
    EntryForMember(plan, 0);
    PhaseStepAt(Verified(plan), plan, Applying, RollingBack, Effected, n, 0);
    MarkStep(Append(Verified(plan), PhaseLine(RollingBack, plan)), plan, RollbackPending(e.path), RollingBack, Effected, n, 0);
  }

  lemma ReversedAt(plan: Plan)
    requires ValidPlan(plan) && |plan.entries| == 1
    ensures At(Reversed(plan), plan, RollingBack, Reverted, |plan.entries[0].createdParents|, 0)
  {
    hide Sound, ProgressOf;
    UndoingAt(plan);
    EntryForMember(plan, 0);
    MarkStep(Undoing(plan), plan, Undone(plan.entries[0]), RollingBack, Reverting, |plan.entries[0].createdParents|, 0);
  }

  lemma RecheckedAt(plan: Plan)
    requires ValidPlan(plan) && |plan.entries| == 1
    ensures At(Rechecked(plan), plan, RollingBack, Reverted, |plan.entries[0].createdParents|, 1)
  {
    hide Sound, ProgressOf;
    ReversedAt(plan);
    MarkStep(Reversed(plan), plan, RollbackIndexRechecked(Some(plan.indexDigest)), RollingBack, Reverted,
      |plan.entries[0].createdParents|, 0);
  }

  // ---- the stranded trees ----

  const ROOT: Tree := Tree(map[], map[[] := 0])
  const CONTENT: Snapshot := Snapshot([1], RegularFile, false)

  /** The file `p` is added to an empty repository, with all directories above it. */
  function Addition(p: Path): (plan: Plan)
    requires 0 < |p|
    ensures |plan.entries| == 1 && plan.entries[0].path == p && |plan.entries[0].createdParents| == |p| - 1
  {
    var createdParents := seq(|p| - 1, i requires 0 <= i < |p| - 1 => p[..i + 1]);
    var parentIdentity := if |p| == 1 then Some(OfDirectory(0)) else None;
    Plan(OfChanges(0), OfIndex(0), OfDirectory(0), [Entry(1, p, None, Some(CONTENT), createdParents, parentIdentity)], OfPlan(0))
  }

  /** The root with the first `n` directories on the way to `p`. */
  function Made(p: Path, n: nat): Tree
    requires n < |p|
  {
    if n == 0 then ROOT else Made(p, n - 1).(dirs := Made(p, n - 1).dirs[p[..n] := n])
  }

  lemma {:induction false} MadeIs(p: Path, n: nat)
    requires n < |p|
    ensures Made(p, n).files == map[]
    ensures forall d :: d in Made(p, n).dirs <==> |d| <= n && d == p[..|d|]
    ensures forall d :: d in Made(p, n).dirs ==> Made(p, n).dirs[d] == |d|
    ensures WellFormed(Made(p, n))
  {
    if n > 0 {
      MadeIs(p, n - 1);
      assert Parent(p[..n]) == p[..n - 1];
    }
  }

  lemma ParentsAre(p: Path, d: Path)
    requires 0 < |p|
    ensures d in Addition(p).entries[0].createdParents <==> 0 < |d| < |p| && d == p[..|d|]
  {
    var created := Addition(p).entries[0].createdParents;
    if 0 < |d| < |p| && d == p[..|d|] {
      assert created[|d| - 1] == d;
    }
  }

  lemma AdditionFits(p: Path)
    requires 0 < |p|
    ensures Planned(Addition(p), ROOT)
  {
    hide Addition, ValidPlan, PlannedEntry;
    AdditionIs(p);
    AdditionPlanned(p);
  }

  lemma AdditionPlanned(p: Path)
    requires 0 < |p|
    ensures PlannedEntry(Addition(p), ROOT, 0)
  {
    hide Addition, ValidPlan, CreatedUpTo;
    AdditionIs(p);
    var plan := Addition(p);
    var e := plan.entries[0];
    forall d ensures d in e.createdParents <==> 0 < |d| < |p| && d == p[..|d|] {
      ParentsAre(p, d);
    }
    forall m | 0 < m < |p| ensures CreatedUpTo(plan, p[..m], 0) {
      assert p[..m] in plan.entries[0].createdParents;
      CreatedByFirst(plan, p[..m]);
    }
  }

  lemma CreatedByFirst(plan: Plan, d: Path)
    requires |plan.entries| == 1 && d in plan.entries[0].createdParents
    ensures CreatedUpTo(plan, d, 0) && PlanDirectory(plan, d)
  {
  }

  lemma AdditionIs(p: Path)
    requires 0 < |p|
    ensures var plan := Addition(p);
            && ValidPlan(plan)
            && plan.rootIdentity == OfDirectory(0)
            && plan.entries[0].original.None?
            && plan.entries[0].desired == Some(CONTENT)
            && plan.entries[0].parentIdentity == (if |p| == 1 then Some(OfDirectory(0)) else None)
  {
  }

  /** The state of an addition from what its log proves and its tree shows. */
  lemma StateAt(p: Path, t: Tree, log: seq<Record>, rolling: bool, progress: Progress, parents: nat, rechecks: nat)
    requires 0 < |p| && At(log, Addition(p), PhaseOf(rolling), progress, parents, rechecks)
    requires WellFormed(t) && [] in t.dirs && t.dirs[[]] == 0
    requires forall d :: d in t.dirs ==> |d| < |p| && d == p[..|d|]
    requires forall n :: n in t.files ==> OwnName(Addition(p).entries[0], n)
    requires EntryTree(t, Addition(p).entries[0], rolling, progress)
    ensures State(Addition(p), ROOT, t, log, map[])
  {
    hide Planned, Sound, SafeTree, EntryTree, ProgressOf, Addition, WellFormed;
    AdditionFits(p);
    AdditionIs(p);
    SafeAddition(p, t);
  }

  lemma SafeAddition(p: Path, t: Tree)
    requires 0 < |p|
    requires WellFormed(t) && [] in t.dirs && t.dirs[[]] == 0
    requires forall d :: d in t.dirs ==> |d| < |p| && d == p[..|d|]
    requires forall n :: n in t.files ==> OwnName(Addition(p).entries[0], n)
    ensures SafeTree(Addition(p), ROOT, t)
  {
    hide WellFormed, Addition, OwnName;
    var plan := Addition(p);
    forall d | d in t.dirs && d !in ROOT.dirs ensures PlanDirectory(plan, d) {
      ParentsAre(p, d);
      CreatedByFirst(plan, d);
    }
  }

  // ---- every window can stand open, and alone ----

  /** The reasons for which recovery fails closed. */
  datatype Reason = ATemporary | AnUnprovenParent | AParentLeft | HalfTheParents | AnIndexRecheck

  predicate Applies(reason: Reason, plan: Plan, t: Tree, log: seq<Record>)
    requires |plan.entries| == 1 && 0 < |plan.entries[0].path|
  {
    var e := plan.entries[0];
    match reason
    case ATemporary => StrayTemporary(t, e, LatestPhase(log) == Some(RollingBack))
    case AnUnprovenParent => UnprovenParent(t, log, e)
    case AParentLeft => ParentLeft(t, log, e)
    case HalfTheParents => HalfRemoved(t, e)
    case AnIndexRecheck => Seen(log, RollbackIndexRechecked(Some(plan.indexDigest)))
  }

  /** A state of a transaction in an effect phase in which recovery refuses for this reason alone. */
  ghost predicate Stranded(plan: Plan, t0: Tree, t: Tree, log: seq<Record>, reason: Reason)
    requires |plan.entries| == 1 && 0 < |plan.entries[0].path|
  {
    && State(plan, t0, t, log, map[])
    && EffectPhase(log)
    && forall other :: Applies(other, plan, t, log) <==> other == reason
  }

  lemma StrandedParts(plan: Plan, t0: Tree, t: Tree, log: seq<Record>, reason: Reason)
    requires |plan.entries| == 1 && 0 < |plan.entries[0].path|
    requires Stranded(plan, t0, t, log, reason)
    ensures ValidPlan(plan) && State(plan, t0, t, log, map[])
    ensures EffectPhase(log) && LatestPhase(log) != Some(Applied)
    ensures Window(plan, t, log)
  {
    hide ValidPlan, Sound, StrayTemporary, UnprovenParent, ParentLeft, HalfRemoved;
    StateParts(plan, t0, t, log, map[]);
    assert Applies(reason, plan, t, log);
    assert reason != AnIndexRecheck ==> EntryWindow(t, log, plan.entries[0], LatestPhase(log) == Some(RollingBack));
  }

  lemma MadeParents(p: Path, n: nat)
    requires 0 < |p| && n < |p|
    ensures var e, dirs := Addition(p).entries[0], Made(p, n).dirs;
            && (forall d :: d in e.createdParents <==> exists j :: 0 <= j < |p| - 1 && e.createdParents[j] == d)
            && (forall j :: 0 <= j < |p| - 1 ==>
                 && (e.createdParents[j] in dirs <==> j < n)
                 && (j < n ==> dirs[e.createdParents[j]] == j + 1))
            && (Parent(p) in dirs <==> n == |p| - 1)
  {
    hide WellFormed;
    MadeIs(p, n);
  }

  /** What the reasons come to for a tree of `n` directories, given the evidence of the log. */
  lemma ReasonsAt(p: Path, n: nat, t: Tree, log: seq<Record>, rolling: bool, progress: Progress, parents: nat,
                  rechecks: nat)
    requires 0 < |p| && n < |p| && t.dirs == Made(p, n).dirs
    requires At(log, Addition(p), PhaseOf(rolling), progress, parents, rechecks)
    ensures Applies(AnUnprovenParent, Addition(p), t, log) <==> parents < n
    ensures Applies(AParentLeft, Addition(p), t, log) <==> progress.Reverted? && 0 < n
    ensures Applies(HalfTheParents, Addition(p), t, log) <==> 0 < n < |p| - 1
    ensures Applies(AnIndexRecheck, Addition(p), t, log) <==> 0 < rechecks
  {
    hide Sound, ProgressOf, ParentProof, Addition, Made;
    var e := Addition(p).entries[0];
    MadeParents(p, n);
    if 0 < n {
      assert e.createdParents[0] in t.dirs && e.createdParents[n - 1] in t.dirs;
    }
  }

  /** A tree of directories only is a state of an effect that left no file, with no temporary in the way. */
  lemma BareState(p: Path, n: nat, log: seq<Record>, rolling: bool, progress: Progress, parents: nat, rechecks: nat)
    requires 0 < |p| && n < |p|
    requires At(log, Addition(p), PhaseOf(rolling), progress, parents, rechecks)
    requires progress.Effecting? || (rolling && (progress.Reverting? || progress.Reverted?))
    ensures State(Addition(p), ROOT, Made(p, n), log, map[])
    ensures !Applies(ATemporary, Addition(p), Made(p, n), log)
  {
    hide Sound, ProgressOf, Addition, ValidPlan, State;
    MadeIs(p, n);
    AdditionIs(p);
    StateAt(p, Made(p, n), log, rolling, progress, parents, rechecks);
  }

  /** A temporary of which only a part was written. */
  function Torn(p: Path): Tree {
    ROOT.(files := map[Temporary(p, OfContent(CONTENT.content)) := CONTENT.(content := [])])
  }

  lemma TornState(p: Path)
    requires |p| == 1
    ensures State(Addition(p), ROOT, Torn(p), Proven(Addition(p), 0), map[])
    ensures Applies(ATemporary, Addition(p), Torn(p), Proven(Addition(p), 0))
    ensures At(Proven(Addition(p), 0), Addition(p), PhaseOf(false), Effecting, 0, 0)
  {
    hide At, Addition, ValidPlan, State, Proven;
    AdditionIs(p);
    ProvenAt(Addition(p), 0);
    AtPhase(Proven(Addition(p), 0), Addition(p), PhaseOf(false), Effecting, 0, 0);
    assert Parent(p) == [];
    StateAt(p, Torn(p), Proven(Addition(p), 0), false, Effecting, 0, 0);
  }

  lemma AtPhase(log: seq<Record>, plan: Plan, phase: Phase, progress: Progress, parents: nat, rechecks: nat)
    requires |plan.entries| == 1 && At(log, plan, phase, progress, parents, rechecks)
    ensures LatestPhase(log) == Some(phase)
    ensures phase == Applying || phase == RollingBack ==> EffectPhase(log)
  {
  }

  lemma StrandedIf(plan: Plan, t: Tree, log: seq<Record>, reason: Reason)
    requires |plan.entries| == 1 && 0 < |plan.entries[0].path|
    requires State(plan, ROOT, t, log, map[]) && EffectPhase(log)
    requires Applies(ATemporary, plan, t, log) <==> reason == ATemporary
    requires Applies(AnUnprovenParent, plan, t, log) <==> reason == AnUnprovenParent
    requires Applies(AParentLeft, plan, t, log) <==> reason == AParentLeft
    requires Applies(HalfTheParents, plan, t, log) <==> reason == HalfTheParents
    requires Applies(AnIndexRecheck, plan, t, log) <==> reason == AnIndexRecheck
    ensures Stranded(plan, ROOT, t, log, reason)
  {
    hide State, EffectPhase, Applies;
  }

  /** The directories on the way to `p` with nothing else strand a log for the reason that fits them. */
  lemma BareStranded(p: Path, n: nat, log: seq<Record>, rolling: bool, progress: Progress, parents: nat, rechecks: nat,
                     reason: Reason)
    requires 0 < |p| && n < |p|
    requires At(log, Addition(p), PhaseOf(rolling), progress, parents, rechecks)
    requires progress.Effecting? || (rolling && (progress.Reverting? || progress.Reverted?))
    requires reason != ATemporary
    requires parents < n <==> reason == AnUnprovenParent
    requires progress.Reverted? && 0 < n <==> reason == AParentLeft
    requires 0 < n < |p| - 1 <==> reason == HalfTheParents
    requires 0 < rechecks <==> reason == AnIndexRecheck
    ensures Stranded(Addition(p), ROOT, Made(p, n), log, reason)
  {
    hide At, State, Applies, Made, Addition;
    AtPhase(log, Addition(p), PhaseOf(rolling), progress, parents, rechecks);
    BareState(p, n, log, rolling, progress, parents, rechecks);
    ReasonsAt(p, n, Made(p, n), log, rolling, progress, parents, rechecks);
    StrandedIf(Addition(p), Made(p, n), log, reason);
  }

  lemma TornStranded(p: Path)
    requires |p| == 1
    ensures Stranded(Addition(p), ROOT, Torn(p), Proven(Addition(p), 0), ATemporary)
  {
    hide At, State, Applies, Addition, Proven;
    TornState(p);
    var log := Proven(Addition(p), 0);
    AtPhase(log, Addition(p), PhaseOf(false), Effecting, 0, 0);
    ReasonsAt(p, 0, Torn(p), log, false, Effecting, 0, 0);
    StrandedIf(Addition(p), Torn(p), log, ATemporary);
  }

  /** For each reason there is a state that the transaction of an addition can be in, where recovery
      refuses for that reason and no other. */
  lemma EachWindow(reason: Reason) returns (p: Path, t: Tree, log: seq<Record>)
    ensures 0 < |p| && Stranded(Addition(p), ROOT, t, log, reason)
  {
    hide At, Stranded, Made, Addition, Proven, Undoing, Reversed, Rechecked, ValidPlan;
    match reason
    case ATemporary =>
      p := ["f"];
      t, log := Torn(p), Proven(Addition(p), 0);
      TornStranded(p);
    case AnUnprovenParent =>
      p := ["a", "f"];
      AdditionIs(p);
      ProvenAt(Addition(p), 0);
      t, log := Made(p, 1), Proven(Addition(p), 0);
      BareStranded(p, 1, log, false, Effecting, 0, 0, reason);
    case AParentLeft =>
      p := ["a", "f"];
      t, log := Made(p, 1), Reversed(Addition(p));
      AdditionIs(p);
      ReversedAt(Addition(p));
      BareStranded(p, 1, log, true, Reverted, 1, 0, reason);
    case HalfTheParents =>
      p := ["a", "b", "f"];
      t, log := Made(p, 1), Undoing(Addition(p));
      AdditionIs(p);
      UndoingAt(Addition(p));
      BareStranded(p, 1, log, true, Reverting, 2, 0, reason);
    case AnIndexRecheck =>
      p := ["f"];
      t, log := Made(p, 0), Rechecked(Addition(p));
      AdditionIs(p);
      RecheckedAt(Addition(p));
      BareStranded(p, 0, log, true, Reverted, 0, 1, reason);
  }

  /** Even undisturbed, recovery of a stranded transaction ends without a verdict. */
  method RecoverStranded(plan: Plan, t: Tree, log: seq<Record>, ghost t0: Tree, ghost reason: Reason)
    returns (r: Outcome<Verdict>)
    requires |plan.entries| == 1 && 0 < |plan.entries[0].path| && Stranded(plan, t0, t, log, reason)
    ensures r != Ok(IsRolledBack) && r != Ok(IsApplied)
  {
    hide *;
    StrandedParts(plan, t0, t, log, reason);
    var host := new Host(t, plan.indexDigest, plan.changesDigest, 0, s => false);
    host.planFile, host.log, host.stamp := Some(plan), log, 1;
    TransactionIf(plan, t0, host);
    r := Recover(host, plan, t0);
  }

  // ---- a rollback spoilt by another ----

  lemma FinishedAt(plan: Plan)
    requires ValidPlan(plan) && |plan.entries| == 1
    ensures Sound(Finished(plan), plan) && LatestPhase(Finished(plan)) == Some(RolledBack)
  {
    hide Chain, ParentChain, ValidLog, ProgressOf, Select, PhaseEvidence, Rechecked;
    var log := Rechecked(plan);
    var r := Numbering(log, PhaseLine(RolledBack, plan));
    RecheckedAt(plan);
    RolledBackAccepted(log, plan);
    AppendSound(log, plan, r);
    LatestAppend(log, r);
  }

  /** The verified effect is on record to the end. */
  lemma EffectSeen(plan: Plan)
    requires ValidPlan(plan) && |plan.entries| == 1
    ensures Seen(Finished(plan), AppliedMark(plan.entries[0]))
  {
    hide Select, Proven;
    var e := plan.entries[0];
    var m := AppliedMark(e);
    var proven := Proven(plan, |e.createdParents|);
    EntryProgress.SeenAppend(proven, m, Numbering(proven, MarkLine(m)));
    var rolling := Append(Verified(plan), PhaseLine(RollingBack, plan));
    EntryProgress.SeenAppend(Verified(plan), m, Numbering(Verified(plan), PhaseLine(RollingBack, plan)));
    EntryProgress.SeenAppend(rolling, m, Numbering(rolling, MarkLine(RollbackPending(e.path))));
    EntryProgress.SeenAppend(Undoing(plan), m, Numbering(Undoing(plan), MarkLine(Undone(e))));
    var index := RollbackIndexRechecked(Some(plan.indexDigest));
    EntryProgress.SeenAppend(Reversed(plan), m, Numbering(Reversed(plan), MarkLine(index)));
    EntryProgress.SeenAppend(Rechecked(plan), m, Numbering(Rechecked(plan), PhaseLine(RolledBack, plan)));
  }

  lemma FinishedState(p: Path)
    requires 0 < |p|
    ensures State(Addition(p), ROOT, ROOT, Finished(Addition(p)), map[])
  {
    hide Sound, Finished, Addition, Planned;
    AdditionIs(p);
    AdditionFits(p);
    FinishedAt(Addition(p));
  }

  /** The rolled back addition meets what makes a second rollback spoil its log. */
  lemma ReentryHappens(p: Path)
    requires 0 < |p|
    ensures var plan := Addition(p);
            var log := WriteAhead.Reentered(Finished(plan), plan);
            var r := Numbering(log, MarkLine(RollbackPending(p)));
            State(plan, ROOT, ROOT, Finished(plan), map[])
            && LatestPhase(Finished(plan)) == Some(RolledBack)
            && ValidLog(log, plan) && Accepts(log, plan, r) && !ValidLog(log + [r], plan)
  {
    hide *;
    AdditionIs(p);
    AdditionFits(p);
    FinishedAt(Addition(p));
    SoundIsReadable(Finished(Addition(p)), Addition(p));
    EffectSeen(Addition(p));
    SeenIs(p);
    FinishedState(p);
    WriteAhead.ReentryBreaksTheLog(Finished(Addition(p)), Addition(p), 0);
  }

  lemma SeenIs(p: Path)
    requires 0 < |p| && Seen(Finished(Addition(p)), AppliedMark(Addition(p).entries[0]))
    ensures var plan := Addition(p);
            Select(Finished(plan), EffectVerified(plan.entries[0].path, DigestOf(plan.entries[0].desired))) != []
  {
    hide Addition, Finished;
  }
}
