/** The effect loop and the final verification of an apply. */
module ApplyRun {
  import opened Wrappers
  import opened ApplyModels
  import opened TargetTree
  import opened Hosts
  import opened Directories
  import opened LeafEffects
  import opened EntryEffects
  import opened ApplyJournals
  import opened JournalEvidence
  import opened JournalLaws
  import opened EntryProgress
  import opened TransactionTree
  import opened TransactionLog
  import opened Inspection
  import opened RecoveryUndo
  import opened RecoveryUndoAll
  import opened Recovery
  import opened ApplyEntryStep
  import opened ApplyRollback

  /** How the effect loop ends. */
  datatype LoopEnd =
    | AllPublished(evidence: map<Path, Digest>)
    | Stopped(affected: seq<nat>, evidence: map<Path, Digest>)
    | Uncertain

  /** The first `k` entries are published and verified, the others untouched. */
  ghost predicate LoopAt(plan: Plan, log: seq<Record>, k: nat) {
    && LatestPhase(log) == Some(Applying)
    && forall j :: 0 <= j < |plan.entries| ==>
         if j < k then ProgressOf(log, plan.entries[j]).Effected? else ProgressOf(log, plan.entries[j]).Untouched?
  }

  predicate PayloadsReady(blobs: map<Blob, Bytes>, plan: Plan) {
    forall k :: 0 <= k < |plan.entries| ==> PayloadReady(blobs, plan.entries[k])
  }

  /** With all earlier entries published, the parents of the next one exist or are its own to create. */
  lemma NextPublishable(plan: Plan, t0: Tree, t: Tree, log: seq<Record>, blobs: map<Blob, Bytes>, k: nat)
    requires State(plan, t0, t, log, blobs) && k < |plan.entries| && LoopAt(plan, log, k) && PayloadsReady(blobs, plan)
    ensures EntryPublishable(plan, t, blobs, k)
  {
    hide Sound, ProgressOf, WellFormed, LatestPhase;
    var e := plan.entries[k];
    StateParts(plan, t0, t, log, blobs);
    PlannedParts(plan, t0, k);
    PlannedUnobstructed(plan, t0, t, k);
    if e.desired.Some? {
      forall m | 0 < m < |e.path| ensures e.path[..m] in t.dirs || (e.path[..m] in e.createdParents && Leaf(e.path[..m]) !in t.files) {
        PrefixReady(plan, t0, t, log, blobs, k, m);
      }
    } else {
      DeletionHasParent(plan, t0, t, k);
    }
  }

  lemma PrefixReady(plan: Plan, t0: Tree, t: Tree, log: seq<Record>, blobs: map<Blob, Bytes>, k: nat, m: nat)
    requires State(plan, t0, t, log, blobs) && k < |plan.entries| && LoopAt(plan, log, k)
    requires 0 < m < |plan.entries[k].path|
    ensures plan.entries[k].path[..m] in t.dirs || plan.entries[k].path[..m] in plan.entries[k].createdParents
  {
    hide Sound, ProgressOf, LatestPhase;
    var d := plan.entries[k].path[..m];
    assert PlannedEntry(plan, t0, k);
    if d !in t0.dirs && d !in plan.entries[k].createdParents {
      assert CreatedUpTo(plan, d, k);
      var i :| 0 <= i <= k && i < |plan.entries| && d in plan.entries[i].createdParents;
      StageOfPublished(plan, t0, t, log, blobs, k, i);
      ParentsStand(plan, t0, t, i, d);
    }
  }

  lemma StageOfPublished(plan: Plan, t0: Tree, t: Tree, log: seq<Record>, blobs: map<Blob, Bytes>, k: nat, i: nat)
    requires State(plan, t0, t, log, blobs) && k <= |plan.entries| && i < k && LoopAt(plan, log, k)
    ensures Planned(plan, t0) && WellFormed(t)
    ensures Settled(t, plan.entries[i].path, plan.entries[i].desired)
    ensures LeafAt(t, plan.entries[i].path) == plan.entries[i].desired
  {
    hide Sound, ProgressOf;
    StateParts(plan, t0, t, log, blobs);
    assert EntryTree(t, plan.entries[i], false, ProgressOf(log, plan.entries[i]));
  }

  lemma DeletionHasParent(plan: Plan, t0: Tree, t: Tree, k: nat)
    requires Planned(plan, t0) && SafeTree(plan, t0, t) && k < |plan.entries| && 0 < |plan.entries[k].path|
    requires plan.entries[k].desired.None?
    ensures Parent(plan.entries[k].path) in t.dirs
  {
    assert PlannedEntry(plan, t0, k);
    assert Leaf(plan.entries[k].path) in t0.files;
  }

  /** No temporary of the transaction exists. */
  predicate NoTemporaries(plan: Plan, t: Tree) {
    forall k :: 0 <= k < |plan.entries| ==>
      && TemporaryAt(t, plan.entries[k].path, DigestOf(plan.entries[k].original)).None?
      && TemporaryAt(t, plan.entries[k].path, DigestOf(plan.entries[k].desired)).None?
  }

  lemma TemporariesNext(plan: Plan, t: Tree, u: Tree, k: nat)
    requires ValidPlan(plan) && k < |plan.entries| && NoTemporaries(plan, t)
    requires PublishFrame(t, u, plan.entries[k])
    requires TemporaryAt(u, plan.entries[k].path, DigestOf(plan.entries[k].desired)).None?
    ensures NoTemporaries(plan, u)
  {
    forall j | 0 <= j < |plan.entries|
      ensures TemporaryAt(u, plan.entries[j].path, DigestOf(plan.entries[j].original)).None?
      ensures TemporaryAt(u, plan.entries[j].path, DigestOf(plan.entries[j].desired)).None?
    {
      if j != k {
        assert plan.entries[j].path != plan.entries[k].path;
      }
    }
  }

  lemma RoundFrame(plan: Plan, t: Tree, u: Tree, log: seq<Record>, longer: seq<Record>, k: nat, attempt: Attempt)
    requires k < |plan.entries| && RoundOutcome(plan, t, u, log, longer, k, attempt) && !attempt.MustRecover?
    ensures PublishFrame(t, u, plan.entries[k])
    ensures attempt.Published? ==> TemporaryAt(u, plan.entries[k].path, DigestOf(plan.entries[k].desired)).None?
  {
    hide ProgressOf, LatestPhase, OthersKept, PublishFrame;
  }

  // ---- the evidence a rollback will need ----

  ghost predicate AllProven(plan: Plan, t: Tree, evidence: map<Path, Digest>) {
    forall k :: 0 <= k < |plan.entries| ==> Proven(t, plan.entries[k], evidence)
  }

  lemma NothingToProve(plan: Plan, t0: Tree, t: Tree, log: seq<Record>, blobs: map<Blob, Bytes>)
    requires State(plan, t0, t, log, blobs) && LoopAt(plan, log, 0)
    ensures AllProven(plan, t, map[])
  {
    hide ProgressOf, Sound, Planned, SafeTree;
    forall k | 0 <= k < |plan.entries| ensures Proven(t, plan.entries[k], map[]) {
      assert EntryTree(t, plan.entries[k], false, ProgressOf(log, plan.entries[k]));
    }
  }

  lemma ProvenOwn(u: Tree, e: Entry, evidence: map<Path, Digest>, created: map<Path, Digest>)
    requires Proven(u, e, created)
    ensures Proven(u, e, evidence + created)
  {
    forall d | d in e.createdParents && d in u.dirs ensures Expected(evidence + created, d) == Some(Identity(u, d)) {
      assert Expected(created, d) == Some(Identity(u, d));
    }
  }

  lemma ProvenOther(t: Tree, u: Tree, e: Entry, f: Entry, evidence: map<Path, Digest>, created: map<Path, Digest>)
    requires PublishFrame(t, u, e) && Proven(t, f, evidence)
    requires forall d :: d in created ==> d in e.createdParents
    requires forall d :: d in f.createdParents ==> d !in e.createdParents
    ensures Proven(u, f, evidence + created)
  {
    forall d | d in f.createdParents && d in u.dirs ensures Expected(evidence + created, d) == Some(Identity(u, d)) {
      assert Expected(evidence, d) == Some(Identity(t, d));
    }
  }

  /** The evidence of one more entry adds to that of the earlier ones. */
  lemma ProvenNext(plan: Plan, t0: Tree, t: Tree, u: Tree, k: nat, evidence: map<Path, Digest>,
                   created: map<Path, Digest>)
    requires Planned(plan, t0) && k < |plan.entries| && AllProven(plan, t, evidence)
    requires PublishFrame(t, u, plan.entries[k]) && RoundEvidence(u, plan.entries[k], created)
    requires TemporaryAt(u, plan.entries[k].path, DigestOf(plan.entries[k].desired)).None?
    ensures AllProven(plan, u, evidence + created)
  {
    hide PlannedEntry, WellFormed, PublishFrame, Proven;
    forall j | 0 <= j < |plan.entries| ensures Proven(u, plan.entries[j], evidence + created) {
      if j == k {
        ProvenOwn(u, plan.entries[k], evidence, created);
      } else {
        ProvenOther(t, u, plan.entries[k], plan.entries[j], evidence, created);
      }
    }
  }

  /** Where the loop stands after round `k`. */
  ghost predicate RoundDone(plan: Plan, u: Tree, longer: seq<Record>, k: nat, attempt: Attempt,
                            evidence: map<Path, Digest>)
    requires k < |plan.entries|
  {
    && (TemporaryAt(u, plan.entries[k].path, DigestOf(plan.entries[k].desired)).None? && !attempt.MustRecover? ==>
         NoTemporaries(plan, u))
    && (attempt.Published? ==>
         && LoopAt(plan, longer, k + 1) && NoTemporaries(plan, u) && AllProven(plan, u, evidence))
    && (attempt.GaveUp? ==>
         && Failed(plan, u, longer, AffectedUpTo(k, attempt.effective))
         && (NoTemporaries(plan, u) && ValidPlan(plan) ==> Clear(plan, u, evidence)))
    && (!attempt.MustRecover? ==> LatestPhase(longer) == Some(Applying))
  }

  lemma AfterRound(plan: Plan, t0: Tree, t: Tree, u: Tree, log: seq<Record>, longer: seq<Record>,
                   blobs: map<Blob, Bytes>,
                   k: nat, attempt: Attempt, evidence: map<Path, Digest>, created: map<Path, Digest>)
    requires State(plan, t0, u, longer, blobs) && ValidPlan(plan) && k < |plan.entries| && LoopAt(plan, log, k)
    requires RoundOutcome(plan, t, u, log, longer, k, attempt)
    requires !attempt.MustRecover? ==> RoundEvidence(u, plan.entries[k], created)
    requires NoTemporaries(plan, t) && AllProven(plan, t, evidence)
    ensures RoundDone(plan, u, longer, k, attempt, evidence + created)
  {
    hide *;
    StateParts(plan, t0, u, longer, blobs);
    RoundDoneIf(plan, u, longer, k, attempt, evidence + created);
    if attempt.MustRecover? {
      return;
    }
    RoundFrame(plan, t, u, log, longer, k, attempt);
    if TemporaryAt(u, plan.entries[k].path, DigestOf(plan.entries[k].desired)).None? {
      TemporariesNext(plan, t, u, k);
      ProvenNext(plan, t0, t, u, k, evidence, created);
    }
    match attempt
    case GaveUp(effective) =>
      StoppedState(plan, t0, t, u, log, longer, blobs, k, effective);
      if NoTemporaries(plan, u) {
        NoneAt(plan, u, k);
        FailedClear(plan, t0, u, longer, AffectedUpTo(k, effective), evidence + created);
      }
    case Published =>
      LoopNext(plan, t, u, log, longer, k);
      LoopPhase(plan, longer, k + 1);
  }

  lemma RoundDoneIf(plan: Plan, u: Tree, longer: seq<Record>, k: nat, attempt: Attempt, evidence: map<Path, Digest>)
    requires k < |plan.entries| && ValidPlan(plan)
    ensures RoundDone(plan, u, longer, k, attempt, evidence) <==>
              && (TemporaryAt(u, plan.entries[k].path, DigestOf(plan.entries[k].desired)).None? && !attempt.MustRecover? ==>
                   NoTemporaries(plan, u))
              && (attempt.Published? ==>
                   && LoopAt(plan, longer, k + 1) && NoTemporaries(plan, u) && AllProven(plan, u, evidence))
              && (attempt.GaveUp? ==>
                   && Failed(plan, u, longer, AffectedUpTo(k, attempt.effective))
                   && (NoTemporaries(plan, u) ==> Clear(plan, u, evidence)))
              && (!attempt.MustRecover? ==> LatestPhase(longer) == Some(Applying))
  {
  }

  /** After a failure without leftovers a rollback has everything it needs. */
  lemma FailedClear(plan: Plan, t0: Tree, t: Tree, log: seq<Record>, affected: seq<nat>, evidence: map<Path, Digest>)
    requires Planned(plan, t0) && ValidPlan(plan) && SafeTree(plan, t0, t) && Failed(plan, t, log, affected)
    requires NoTemporaries(plan, t) && AllProven(plan, t, evidence)
    ensures Clear(plan, t, evidence)
  {
    hide Planned, SafeTree, ProgressOf, Proven;
    forall k | 0 <= k < |plan.entries| && !ParentsAbsent(t, plan.entries[k]) ensures Parent(plan.entries[k].path) in t.dirs {
      assert FailedEntry(t, log, plan.entries[k], k in affected);
      EntryPathNonEmpty(plan, k);
      LeafHasParent(plan, t0, t, k);
    }
  }

  // ---- single failures ----

  predicate HadOriginal(plan: Plan, p: Path) {
    exists k :: 0 <= k < |plan.entries| && plan.entries[k].path == p && plan.entries[k].original.Some?
  }

  /** Steps whose failure leaves no doubt about any effect: reading a leaf or a temporary, writing or
      publishing new content where something was before, the final checks and re-reads. */
  predicate Certain(s: Step, plan: Plan) {
    match s
    case Reading(n) => n.Quarantine? ==> !HadOriginal(plan, n.path)
    case Creating(n) => !n.Quarantine? && HadOriginal(plan, n.path)
    case Rewriting(n) => n.Temporary? && HadOriginal(plan, n.path)
    case Linking(n) => n.Leaf? && HadOriginal(plan, n.path)
    case IdentityReading => true
    case IndexReading => true
    case Comparing => true
    case _ => false
  }

  /** Nothing but certain steps can fail. */
  ghost predicate Benign(frail: Step -> bool, plan: Plan) {
    forall s :: frail(s) ==> Certain(s, plan)
  }

  lemma BenignEntry(frail: Step -> bool, plan: Plan, k: nat)
    requires ValidPlan(plan) && Benign(frail, plan) && k < |plan.entries|
    ensures GentleEntry(frail, plan.entries[k])
  {
    var e := plan.entries[k];
    assert HadOriginal(plan, e.path) <==> e.original.Some?;
    forall s | frail(s) ensures HarmlessAt(s, e.path, e.original.Some?) {
      assert Certain(s, plan);
    }
    BenignParts(frail, plan);
  }

  lemma BenignParts(frail: Step -> bool, plan: Plan)
    requires Benign(frail, plan)
    ensures JournalSteady(frail) && !frail(IndexDrifting) && !frail(ChangesDrifting) && !frail(PlanWriting)
  {
  }

  lemma LoopNext(plan: Plan, t: Tree, u: Tree, log: seq<Record>, longer: seq<Record>, k: nat)
    requires k < |plan.entries| && LoopAt(plan, log, k)
    requires RoundOutcome(plan, t, u, log, longer, k, Published)
    ensures LoopAt(plan, longer, k + 1)
  {
    hide ProgressOf, LatestPhase, PublishFrame;
  }

  /** The entries affected when round `k` gave up. */
  function AffectedUpTo(k: nat, effective: bool): seq<nat> {
    seq(if effective then k + 1 else k, i => i)
  }

  lemma StoppedState(plan: Plan, t0: Tree, t: Tree, u: Tree, log: seq<Record>, longer: seq<Record>,
                     blobs: map<Blob, Bytes>,
                     k: nat, effective: bool)
    requires State(plan, t0, u, longer, blobs) && k < |plan.entries| && LoopAt(plan, log, k)
    requires RoundOutcome(plan, t, u, log, longer, k, GaveUp(effective))
    ensures Failed(plan, u, longer, AffectedUpTo(k, effective)) && LatestPhase(longer) == Some(Applying)
  {
    hide ProgressOf, LatestPhase, Sound, Planned, SafeTree, PublishFrame;
    var affected := AffectedUpTo(k, effective);
    forall j | 0 <= j < |plan.entries| ensures FailedEntry(u, longer, plan.entries[j], j in affected) {
      if j < |affected| {
        assert affected[j] == j;
      }
      assert EntryTree(u, plan.entries[j], false, ProgressOf(longer, plan.entries[j]));
    }
    forall j | 0 <= j < |plan.entries| && j !in affected
      ensures ParentsAbsent(u, plan.entries[j])
              || TemporaryAt(u, plan.entries[j].path, DigestOf(plan.entries[j].desired)).Some?
    {
      assert FailedEntry(u, longer, plan.entries[j], false);
    }
  }

  /** Applies the entries in plan order until one fails. */
  method ApplyLoop(host: Host, journal: ApplyJournal, plan: Plan, ghost t0: Tree) returns (r: Outcome<LoopEnd>)
    requires Running(plan, t0, host, journal) && ValidPlan(plan) && !host.torn
    requires LoopAt(plan, host.log, 0) && NoTemporaries(plan, host.tree)
    modifies journal, host`dead, host`faults, host`tree, host`looked, host`log, host`torn, host`stamp
    ensures Transaction(plan, t0, host)
    ensures host.dead <==> r.Crashed?
    ensures host.faults <= old(host.faults)
    ensures !host.dead && (JournalSteady(host.frail) || host.faults == old(host.faults)) ==> host.torn == old(host.torn)
    ensures !r.Raise?
    ensures !host.dead ==> Running(plan, t0, host, journal)
    ensures r.Ok? && !r.value.Uncertain? ==> !host.torn && LatestPhase(host.log) == Some(Applying)
    ensures r.Ok? && r.value.AllPublished? ==>
              LoopAt(plan, host.log, |plan.entries|) && NoTemporaries(plan, host.tree) && AllProven(plan, host.tree, r.value.evidence)
    ensures r.Ok? && r.value.Stopped? ==> Failed(plan, host.tree, host.log, r.value.affected)
    ensures r.Ok? && r.value.Stopped? && NoTemporaries(plan, host.tree) ==> Clear(plan, host.tree, r.value.evidence)
    ensures host.faults == old(host.faults) && PayloadsReady(host.blobs, plan) ==> r.Ok? && r.value.AllPublished?
    ensures Benign(host.frail, plan) && PayloadsReady(host.blobs, plan) && !host.dead
            && old(host.faults) <= host.faults + 1 ==>
              && r.Ok? && !r.value.Uncertain?
              && (r.value.AllPublished? <==> host.faults == old(host.faults))
              && NoTemporaries(plan, host.tree)
  {
    hide *;
    var evidence: map<Path, Digest> := map[];
    RunningParts(plan, t0, host, journal);
    TransactionParts(plan, t0, host);
    LoopPhase(plan, host.log, 0);
    NothingToProve(plan, t0, host.tree, host.log, host.blobs);
    for k := 0 to |plan.entries|
      invariant Running(plan, t0, host, journal) && !host.torn && !host.dead && host.faults <= old(host.faults)
      invariant NoTemporaries(plan, host.tree)
      invariant LoopAt(plan, host.log, k) && LatestPhase(host.log) == Some(Applying)
      invariant AllProven(plan, host.tree, evidence)
      invariant Benign(host.frail, plan) && PayloadsReady(host.blobs, plan) && old(host.faults) <= host.faults + 1 ==>
                  host.faults == old(host.faults)
    {
      ghost var t, log := host.tree, host.log;
      LoopPhase(plan, log, k);
      RunningParts(plan, t0, host, journal);
      TransactionParts(plan, t0, host);
      if PayloadsReady(host.blobs, plan) {
        NextPublishable(plan, t0, t, log, host.blobs, k);
      }
      if Benign(host.frail, plan) {
        BenignEntry(host.frail, plan, k);
      }
      ghost var before := host.faults;
      var attempt, created := ApplyEntry(host, journal, plan, t0, k);
      if !attempt.Ok? {
        return Crashed;
      }
      CertainIf(attempt, host.faults == before, host.tree, plan.entries[k]);
      RunningParts(plan, t0, host, journal);
      TransactionParts(plan, t0, host);
      AfterRound(plan, t0, t, host.tree, log, host.log, host.blobs, k, attempt.value, evidence, created);
      evidence := evidence + created;
      RoundDoneIf(plan, host.tree, host.log, k, attempt.value, evidence);
      match attempt.value
      case MustRecover => return Ok(Uncertain);
      case GaveUp(effective) => return Ok(Stopped(AffectedUpTo(k, effective), evidence));
      case Published =>
    }
    RunningParts(plan, t0, host, journal);
    return Ok(AllPublished(evidence));
  }

  lemma NoneAt(plan: Plan, t: Tree, k: nat)
    requires NoTemporaries(plan, t) && k < |plan.entries|
    ensures TemporaryAt(t, plan.entries[k].path, DigestOf(plan.entries[k].desired)).None?
  {
  }

  lemma LoopPhase(plan: Plan, log: seq<Record>, k: nat)
    requires LoopAt(plan, log, k)
    ensures LatestPhase(log) == Some(Applying)
    ensures k < |plan.entries| ==> ProgressOf(log, plan.entries[k]).Untouched?
  {
  }

  // ---- final verification ----

  /** What the final verification concluded. */
  datatype Checked = Accepted | Refuted | Unprovable

  lemma AppliedAccepted(log: seq<Record>, plan: Plan)
    requires Sound(log, plan) && LatestPhase(log) == Some(Applying)
    requires forall k :: 0 <= k < |plan.entries| ==> ProgressOf(log, plan.entries[k]).Effected?
    requires Seen(log, ChangesRechecked(Some(plan.changesDigest))) && Seen(log, IndexRechecked(Some(plan.indexDigest)))
    ensures Accepts(log, plan, Numbering(log, PhaseLine(Applied, plan)))
  {
    var r := Numbering(log, PhaseLine(Applied, plan));
    AppendPhase(log, plan, r);
    forall k | 0 <= k < |plan.entries| ensures EntryApplied(log + [r], plan.entries[k], |log| + 1) {
      EffectedEntry(log, plan.entries[k], r);
    }
    SeenEarlier(log, r, ChangesRechecked(Some(plan.changesDigest)));
    SeenEarlier(log, r, IndexRechecked(Some(plan.indexDigest)));
  }

  lemma SeenEarlier(log: seq<Record>, r: Record, m: Mark)
    requires Numbered(log) && Seen(log, m)
    ensures SeenBefore(log + [r], m, |log| + 1)
  {
    SelectedFromLog(log, m, 0);
    var i :| 0 <= i < |log| && log[i] == Select(log, m)[0];
    assert (log + [r])[i] == log[i];
  }

  /** The chain of a verified entry is what the validator of APPLIED asks for. */
  lemma EffectedEntry(log: seq<Record>, e: Entry, r: Record)
    requires Numbered(log) && EntryChain(log, e) && ProgressOf(log, e).Effected? && r.phase.Some?
    ensures EntryApplied(log + [r], e, |log| + 1)
  {
    SelectAppend(log, r, EffectPending(e.path));
    SelectAppend(log, r, AppliedMark(e));
    SelectedFromLog(log, AppliedMark(e), 0);
    assert OncePair(log + [r], EffectPending(e.path), AppliedMark(e), |log| + 1);
    forall j | 0 <= j < |e.createdParents| ensures ParentProven(log + [r], e, e.createdParents[j]) {
      assert ParentChain(log, e, e.createdParents[j]);
      SelectAppend(log, r, ParentCreated(e.createdParents[j], e.path));
    }
  }

  /** The journal itself refuses a re-check whose digest differs from the plan's. */
  lemma MismatchRefused(log: seq<Record>, plan: Plan, d: Digest)
    ensures d != plan.changesDigest ==> !Accepts(log, plan, Numbering(log, MarkLine(ChangesRechecked(Some(d)))))
    ensures d != plan.indexDigest ==> !Accepts(log, plan, Numbering(log, MarkLine(IndexRechecked(Some(d)))))
    ensures d == plan.changesDigest && LatestPhase(log) == Some(Applying) ==>
              Accepts(log, plan, Numbering(log, MarkLine(ChangesRechecked(Some(d)))))
    ensures d == plan.indexDigest && LatestPhase(log) == Some(Applying) ==>
              Accepts(log, plan, Numbering(log, MarkLine(IndexRechecked(Some(d)))))
  {
  }

  /** Looks at every leaf, every artifact name and the directory identities. */
  method VerifyTarget(host: Host, journal: ApplyJournal, plan: Plan, ghost t0: Tree) returns (r: Outcome<bool>)
    requires Running(plan, t0, host, journal) && LoopAt(plan, host.log, |plan.entries|)
    modifies host`dead, host`faults, host`tree, host`looked
    ensures host.tree == old(host.tree) && Transaction(plan, t0, host)
    ensures host.dead <==> r.Crashed?
    ensures host.faults <= old(host.faults)
    ensures r == Ok(true) ==> host.faults == old(host.faults)
    ensures !r.Raise?
    ensures !host.dead ==> Running(plan, t0, host, journal)
    ensures r == Ok(true) ==> AppliedTree(plan, t0, host.tree)
    ensures host.faults == old(host.faults)
            && (forall k :: 0 <= k < |plan.entries| ==> NoArtifacts(host.tree, plan.entries[k]))
            ==> r == Ok(true)
    ensures r == Ok(true) ==> EverythingSeen(plan, host.tree, host.looked)
  {
    hide *;
    RunningParts(plan, t0, host, journal);
    TransactionParts(plan, t0, host);
    AllDesired(plan, t0, host.tree, host.log, host.blobs);
    var leaves := VerifyLeaves(host, plan, Everyone(plan), true, t0);
    TransactionIf(plan, t0, host);
    if host.dead {
      return Crashed;
    }
    RunningIf(plan, t0, host, journal);
    if leaves != Ok(true) {
      return Ok(false);
    }
    ghost var looked := host.looked;
    var absent := ArtifactsAbsent(host, plan, t0);
    VisitsStay(plan, host.tree, looked, host.looked, Everyone(plan));
    TransactionIf(plan, t0, host);
    if host.dead {
      return Crashed;
    }
    RunningIf(plan, t0, host, journal);
    if absent != Ok(true) {
      return Ok(false);
    }
    r := CheckIdentity(host, journal, plan, t0);
    if r != Ok(true) {
      return r;
    }
    AppliedIsApplied(plan, t0, host.tree);
    EverythingSeenIf(plan, host.tree, host.looked);
    return Ok(true);
  }

  lemma AllDesired(plan: Plan, t0: Tree, t: Tree, log: seq<Record>, blobs: map<Blob, Bytes>)
    requires State(plan, t0, t, log, blobs) && LoopAt(plan, log, |plan.entries|)
    ensures |Everyone(plan)| == |plan.entries|
    ensures forall i :: 0 <= i < |Everyone(plan)| ==>
              Everyone(plan)[i] < |plan.entries| && LeafIs(t, plan.entries[Everyone(plan)[i]], true)
    ensures forall k :: 0 <= k < |plan.entries| ==> LeafAt(t, plan.entries[k].path) == plan.entries[k].desired
  {
    hide State, LoopAt;
    forall k | 0 <= k < |plan.entries| ensures LeafAt(t, plan.entries[k].path) == plan.entries[k].desired {
      StageOfPublished(plan, t0, t, log, blobs, |plan.entries|, k);
    }
  }

  lemma AllFailed(plan: Plan, t0: Tree, t: Tree, log: seq<Record>, blobs: map<Blob, Bytes>)
    requires State(plan, t0, t, log, blobs) && LoopAt(plan, log, |plan.entries|)
    ensures Failed(plan, t, log, AffectedUpTo(|plan.entries|, false)) && LatestPhase(log) == Some(Applying)
  {
    hide State, ProgressOf, LatestPhase;
    var affected := AffectedUpTo(|plan.entries|, false);
    forall k | 0 <= k < |plan.entries| ensures k in affected && FailedEntry(t, log, plan.entries[k], true) {
      assert affected[k] == k;
      StageOfPublished(plan, t0, t, log, blobs, |plan.entries|, k);
    }
  }

  lemma LoopKept(plan: Plan, log: seq<Record>, longer: seq<Record>, k: nat)
    requires LoopAt(plan, log, k) && SameProgress(log, longer, plan) && LatestPhase(longer) == LatestPhase(log)
    ensures LoopAt(plan, longer, k)
  {
    hide ProgressOf, LatestPhase;
  }

  /** The digest that is re-read is still the one of the plan. */
  predicate Unmoved(host: Host, plan: Plan, changes: bool)
    reads host`index, host`changes
  {
    if changes then host.changes == plan.changesDigest else host.index == plan.indexDigest
  }

  lemma UnmovedParts(host: Host, plan: Plan)
    ensures Unmoved(host, plan, true) <==> host.changes == plan.changesDigest
    ensures Unmoved(host, plan, false) <==> host.index == plan.indexDigest
    ensures Drift(true) == ChangesDrifting && Drift(false) == IndexDrifting
  {
  }

  /** Compares the workspace again, or reads the index again. */
  method ReadAgain(host: Host, changes: bool) returns (seen: Outcome<Digest>)
    requires !host.dead
    modifies host`dead, host`faults
    ensures host.dead <==> seen.Crashed?
    ensures host.faults <= old(host.faults) <= host.faults + 1
    ensures seen.Ok? && host.faults < old(host.faults) ==> host.frail(Drift(changes))
    ensures seen.Raise? ==> host.faults < old(host.faults)
    ensures host.faults == old(host.faults) ==> seen == Ok(if changes then host.changes else host.index)
  {
    if changes {
      seen := host.ChangesDigest();
    } else {
      seen := host.IndexDigest();
    }
  }

  function Drift(changes: bool): Step {
    if changes then ChangesDrifting else IndexDrifting
  }

  /** Re-reads one digest and records it as evidence. */
  method Recheck(host: Host, journal: ApplyJournal, plan: Plan, ghost t0: Tree, changes: bool)
    returns (r: Outcome<Checked>)
    requires Running(plan, t0, host, journal) && LoopAt(plan, host.log, |plan.entries|) && !host.torn
    modifies journal, host`dead, host`faults, host`log, host`torn, host`stamp
    ensures Transaction(plan, t0, host)
    ensures host.dead <==> r.Crashed?
    ensures host.faults <= old(host.faults)
    ensures !host.dead && (JournalSteady(host.frail) || host.faults == old(host.faults)) ==> host.torn == old(host.torn)
    ensures !r.Raise?
    ensures !host.dead ==> Running(plan, t0, host, journal)
    ensures r.Ok? && !r.value.Unprovable? ==> !host.torn && LoopAt(plan, host.log, |plan.entries|)
    ensures r == Ok(Accepted) ==> Grew(old(host.log), host.log, plan, changes)
    ensures Benign(host.frail, plan) && Unmoved(host, plan, changes) && !host.dead
            && old(host.faults) <= host.faults + 1
            ==> r.Ok? && !r.value.Unprovable? && (r.value.Accepted? <==> host.faults == old(host.faults))
    ensures r == Ok(Accepted)
            && (host.faults == old(host.faults) || !host.frail(Drift(changes)))
            ==> Unmoved(host, plan, changes)
    ensures host.faults == old(host.faults) && Unmoved(host, plan, changes) ==> r == Ok(Accepted)
    ensures !host.dead && host.faults == old(host.faults) && !Unmoved(host, plan, changes) ==> r == Ok(Unprovable)
  {
    hide *;
    ghost var log := host.log;
    RunningParts(plan, t0, host, journal);
    TransactionParts(plan, t0, host);
    LoopPhase(plan, log, |plan.entries|);
    UnmovedParts(host, plan);
    if Benign(host.frail, plan) {
      BenignParts(host.frail, plan);
    }
    var seen := ReadAgain(host, changes);
    if host.dead {
      return Crashed;
    }
    RunningIf(plan, t0, host, journal);
    if !seen.Ok? {
      return Ok(Refuted);
    }
    RecheckMarkIs(seen.value, changes);
    MismatchRefused(log, plan, seen.value);
    var noted := CommitVerification(host, journal, plan, t0, RecheckMark(seen.value, changes));
    if host.dead {
      return Crashed;
    }
    if !noted.Ok? {
      return Ok(Unprovable);
    }
    LoopKept(plan, log, host.log, |plan.entries|);
    if seen.value != (if changes then plan.changesDigest else plan.indexDigest) {
      return Ok(Refuted);
    }
    GrewBy(log, host.log, plan, seen.value, changes);
    return Ok(Accepted);
  }

  function RecheckMark(d: Digest, changes: bool): Mark {
    if changes then ChangesRechecked(Some(d)) else IndexRechecked(Some(d))
  }

  lemma RecheckMarkIs(d: Digest, changes: bool)
    ensures RecheckMark(d, true) == ChangesRechecked(Some(d)) && RecheckMark(d, false) == IndexRechecked(Some(d))
    ensures RecheckMark(d, changes).ChangesRechecked? || RecheckMark(d, changes).IndexRechecked?
  {
  }

  /** The log gained the re-check of this kind and lost nothing. */
  ghost predicate Grew(log: seq<Record>, longer: seq<Record>, plan: Plan, changes: bool) {
    && Seen(longer, RecheckMark(if changes then plan.changesDigest else plan.indexDigest, changes))
    && forall m: Mark :: Seen(log, m) ==> Seen(longer, m)
  }

  lemma GrewBy(log: seq<Record>, longer: seq<Record>, plan: Plan, d: Digest, changes: bool)
    requires longer == log + [Numbering(log, MarkLine(RecheckMark(d, changes)))]
    requires d == if changes then plan.changesDigest else plan.indexDigest
    ensures Grew(log, longer, plan, changes)
  {
    forall m: Mark ensures Seen(longer, m) <==> Seen(log, m) || Bears(Numbering(log, MarkLine(RecheckMark(d, changes))), m) {
      EntryProgress.SeenAppend(log, m, Numbering(log, MarkLine(RecheckMark(d, changes))));
    }
  }

  /** Both digests stand in the log as the plan has them. */
  predicate BothRechecked(plan: Plan, log: seq<Record>) {
    Seen(log, RecheckMark(plan.changesDigest, true)) && Seen(log, RecheckMark(plan.indexDigest, false))
  }

  lemma BothGrew(plan: Plan, log0: seq<Record>, log1: seq<Record>, log: seq<Record>)
    requires Grew(log0, log1, plan, true) && Grew(log1, log, plan, false)
    ensures BothRechecked(plan, log)
  {
    hide Seen;
  }

  /** The change set and the index are re-read and recorded. */
  method RecheckBoth(host: Host, journal: ApplyJournal, plan: Plan, ghost t0: Tree) returns (r: Outcome<Checked>)
    requires Running(plan, t0, host, journal) && LoopAt(plan, host.log, |plan.entries|) && !host.torn
    modifies journal, host`dead, host`faults, host`log, host`torn, host`stamp
    ensures Transaction(plan, t0, host)
    ensures host.dead <==> r.Crashed?
    ensures host.faults <= old(host.faults)
    ensures !host.dead && (JournalSteady(host.frail) || host.faults == old(host.faults)) ==> host.torn == old(host.torn)
    ensures !r.Raise?
    ensures !host.dead ==> Running(plan, t0, host, journal)
    ensures r.Ok? && !r.value.Unprovable? ==> !host.torn && LoopAt(plan, host.log, |plan.entries|)
    ensures r == Ok(Accepted) ==> BothRechecked(plan, host.log)
    ensures Benign(host.frail, plan) && Unmoved(host, plan, true) && Unmoved(host, plan, false) && !host.dead
            && old(host.faults) <= host.faults + 1
            ==> r.Ok? && !r.value.Unprovable? && (r.value.Accepted? <==> host.faults == old(host.faults))
    ensures r == Ok(Accepted) && (host.faults == old(host.faults) || !host.frail(Drift(true))) ==>
              Unmoved(host, plan, true)
    ensures r == Ok(Accepted) && (host.faults == old(host.faults) || !host.frail(Drift(false))) ==>
              Unmoved(host, plan, false)
    ensures host.faults == old(host.faults) && Unmoved(host, plan, true) && Unmoved(host, plan, false) ==>
              r == Ok(Accepted)
    ensures !host.dead && host.faults == old(host.faults)
            && !(Unmoved(host, plan, true) && Unmoved(host, plan, false)) ==>
              r == Ok(Unprovable)
  {
    hide *;
    r := Recheck(host, journal, plan, t0, true);
    if r != Ok(Accepted) {
      return r;
    }
    ghost var log1 := host.log;
    r := Recheck(host, journal, plan, t0, false);
    if r == Ok(Accepted) {
      BothGrew(plan, old(host.log), log1, host.log);
    }
  }

  /** Everything between the last effect and APPLIED. */
  method VerifyApply(host: Host, journal: ApplyJournal, plan: Plan, ghost t0: Tree) returns (r: Outcome<Checked>)
    requires Running(plan, t0, host, journal) && LoopAt(plan, host.log, |plan.entries|) && !host.torn
    modifies journal, host`dead, host`faults, host`tree, host`looked, host`log, host`torn, host`stamp
    ensures host.tree == old(host.tree) && Transaction(plan, t0, host)
    ensures host.dead <==> r.Crashed?
    ensures host.faults <= old(host.faults)
    ensures !host.dead && (JournalSteady(host.frail) || host.faults == old(host.faults)) ==> host.torn == old(host.torn)
    ensures !r.Raise?
    ensures !host.dead ==> Running(plan, t0, host, journal)
    ensures r == Ok(Refuted) ==> !host.torn && LoopAt(plan, host.log, |plan.entries|)
    ensures r == Ok(Accepted) ==> AppliedTree(plan, t0, host.tree) && LatestPhase(host.log) == Some(Applied)
    ensures Benign(host.frail, plan) && host.index == plan.indexDigest && host.changes == plan.changesDigest
            && !host.dead
            && old(host.faults) <= host.faults + 1 && NoTemporaries(plan, host.tree)
            ==> r.Ok? && !r.value.Unprovable? && (r.value.Accepted? <==> host.faults == old(host.faults))
    ensures r == Ok(Accepted)
            && (host.faults == old(host.faults) || (!host.frail(ChangesDrifting) && !host.frail(IndexDrifting)))
            ==> host.changes == plan.changesDigest && host.index == plan.indexDigest
    ensures host.faults == old(host.faults) && host.index == plan.indexDigest && host.changes == plan.changesDigest
            && NoTemporaries(plan, host.tree)
            ==> r == Ok(Accepted)
    ensures !host.dead && host.faults == old(host.faults) && NoTemporaries(plan, host.tree)
            && !(host.changes == plan.changesDigest && host.index == plan.indexDigest)
            ==> r == Ok(Unprovable)
    ensures r == Ok(Accepted) ==> EverythingSeen(plan, host.tree, host.looked)
  {
    hide *;
    RunningParts(plan, t0, host, journal);
    TransactionParts(plan, t0, host);
    PublishedHasNoArtifacts(plan, t0, host.tree, host.log, host.blobs);
    UnmovedParts(host, plan);
    var intact := VerifyTarget(host, journal, plan, t0);
    if !intact.Ok? {
      return Crashed;
    }
    if !intact.value {
      return Ok(Refuted);
    }
    r := RecheckBoth(host, journal, plan, t0);
    if r != Ok(Accepted) {
      return r;
    }
    RunningParts(plan, t0, host, journal);
    TransactionParts(plan, t0, host);
    ReadyToAccept(plan, t0, host.tree, host.log, host.blobs);
    if Benign(host.frail, plan) {
      BenignParts(host.frail, plan);
    }
    var noted := CommitPhase(host, journal, plan, t0, Applied);
    if host.dead {
      return Crashed;
    }
    return if noted.Ok? then Ok(Accepted) else Ok(Unprovable);
  }

  lemma PublishedHasNoArtifacts(plan: Plan, t0: Tree, t: Tree, log: seq<Record>, blobs: map<Blob, Bytes>)
    requires State(plan, t0, t, log, blobs) && LoopAt(plan, log, |plan.entries|)
    ensures NoTemporaries(plan, t) ==> forall k :: 0 <= k < |plan.entries| ==> NoArtifacts(t, plan.entries[k])
  {
    hide State, LoopAt;
    forall k | 0 <= k < |plan.entries| ensures QuarantineAt(t, plan.entries[k].path).None? {
      StageOfPublished(plan, t0, t, log, blobs, |plan.entries|, k);
    }
  }

  lemma ReadyToAccept(plan: Plan, t0: Tree, t: Tree, log: seq<Record>, blobs: map<Blob, Bytes>)
    requires Sound(log, plan) && LoopAt(plan, log, |plan.entries|) && AppliedTree(plan, t0, t)
    requires BothRechecked(plan, log)
    ensures PhaseTreeFor(plan, t0, t, Some(Applied), log, blobs)
    ensures Accepts(log, plan, Numbering(log, PhaseLine(Applied, plan)))
  {
    hide Sound, AppliedTree, Accepts, Select;
    AppliedAccepted(log, plan);
  }
}
