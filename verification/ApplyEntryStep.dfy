/** One round of the effect loop: announce, publish, prove the created parents, verify. */
module ApplyEntryStep {
  import opened Wrappers
  import opened ApplyModels
  import opened TargetTree
  import opened Hosts
  import opened Directories
  import opened LeafEffects
  import opened EntryEffects
  import opened ApplyJournals
  import opened JournalEvidence
  import opened EntryProgress
  import opened TransactionTree
  import opened TransactionLog
  import opened Inspection
  import opened RecoveryUndo
  import opened ApplyLog

  /** How one round ends. */
  datatype Attempt =
    | Published
    | GaveUp(effective: bool)
    | MustRecover

  /** A single failure during the round of `e` leaves no doubt. */
  ghost predicate GentleEntry(frail: Step -> bool, e: Entry) {
    GentleAt(frail, e.path, e.original.Some?) && JournalSteady(frail)
  }

  lemma GentleParts(frail: Step -> bool, e: Entry)
    ensures GentleEntry(frail, e) <==> GentleAt(frail, e.path, e.original.Some?) && JournalSteady(frail)
  {
  }

  /** What publishing an entry did to the tree. */
  ghost predicate PublishOutcome(t: Tree, u: Tree, e: Entry, r: Outcome<()>, created: seq<Path>,
                                 evidence: map<Path, Digest>) {
    && PublishFrame(t, u, e)
    && (r.Ok? ==>
         && Settled(u, e.path, e.desired)
         && TemporaryAt(u, e.path, DigestOf(e.desired)).None?
         && Evidenced(t, u, e, created, evidence))
    && (r.Raise? && r.error != UncertainEffect ==> FailedCleanly(u, e))
  }

  method PublishStep(host: Host, plan: Plan, ghost t0: Tree, k: nat)
    returns (r: Outcome<()>, created: seq<Path>, evidence: map<Path, Digest>)
    requires Transaction(plan, t0, host) && !host.dead && k < |plan.entries| && 0 < |plan.entries[k].path|
    requires LatestPhase(host.log) == Some(Applying) && ProgressOf(host.log, plan.entries[k]).Effecting?
    requires Pristine(host.tree, plan.entries[k])
    modifies host`dead, host`faults, host`tree, host`looked
    ensures Transaction(plan, t0, host)
    ensures host.dead <==> r.Crashed?
    ensures host.faults <= old(host.faults)
    ensures r.Ok? ==> host.faults == old(host.faults)
    ensures PublishOutcome(old(host.tree), host.tree, plan.entries[k], r, created, evidence)
    ensures GentleEntry(host.frail, plan.entries[k]) && Publishable(old(host.tree), host.blobs, plan.entries[k])
            && r.Raise?
            && old(host.faults) <= host.faults + 1
            ==> r.error != UncertainEffect && TemporaryAt(host.tree, plan.entries[k].path, DigestOf(plan.entries[k].desired)).None?
    ensures host.faults == old(host.faults) && Publishable(old(host.tree), host.blobs, plan.entries[k]) ==> r.Ok?
  {
    hide *;
    var e := plan.entries[k];
    ghost var t := host.tree;
    TransactionParts(plan, t0, host);
    StartsRolling(host.log);
    EntryState(plan, t0, t, host.log, host.blobs, k, false);
    GentleParts(host.frail, e);
    r, created, evidence := PublishEntry(host, e);
    PublishIs(t, host.tree, e, r, created, evidence);
    PublishKeepsState(plan, t0, t, host.tree, host.log, host.blobs, k);
    TransactionIf(plan, t0, host);
  }

  lemma PublishIs(t: Tree, u: Tree, e: Entry, r: Outcome<()>, created: seq<Path>, evidence: map<Path, Digest>)
    requires PublishFrame(t, u, e)
    requires r.Ok? ==> Settled(u, e.path, e.desired)
    requires r.Ok? ==> TemporaryAt(u, e.path, DigestOf(e.desired)).None?
    requires r.Ok? ==> Evidenced(t, u, e, created, evidence)
    requires r.Raise? && r.error != UncertainEffect ==> FailedCleanly(u, e)
    ensures PublishOutcome(t, u, e, r, created, evidence)
  {
  }

  lemma PublishKeepsState(plan: Plan, t0: Tree, t: Tree, u: Tree, log: seq<Record>, blobs: map<Blob, Bytes>, k: nat)
    requires State(plan, t0, t, log, blobs) && k < |plan.entries| && LatestPhase(log) == Some(Applying)
    requires ProgressOf(log, plan.entries[k]).Effecting? && WellFormed(u)
    requires PublishFrame(t, u, plan.entries[k])
    requires InFlight(u, plan.entries[k].path, plan.entries[k].original, plan.entries[k].desired)
    ensures State(plan, t0, u, log, blobs)
  {
    hide State, WellFormed, InFlight, ProgressOf, LatestPhase, Settled, Pristine;
    StartsRolling(log);
    EntryState(plan, t0, t, log, blobs, k, false);
    FramesAreEntryFrames(t, u, plan.entries[k]);
    StateStep(plan, t0, t, u, log, blobs, k, false);
  }

  // ---- the evidence of created parents ----

  /** The first `i` created directories of entry `k` have their record, the others have none. */
  ghost predicate LoggedUpTo(log: seq<Record>, e: Entry, created: seq<Path>, i: nat) {
    forall j :: 0 <= j < |created| ==> (Seen(log, ParentCreated(created[j], e.path)) <==> j < i)
  }

  /** Other entries did not move and have the created-parent evidence they had. */
  ghost predicate OthersKept(log: seq<Record>, longer: seq<Record>, plan: Plan, k: nat) {
    forall j :: 0 <= j < |plan.entries| && j != k ==>
      ProgressOf(longer, plan.entries[j]) == ProgressOf(log, plan.entries[j])
  }

  method LogParents(host: Host, journal: ApplyJournal, plan: Plan, ghost t0: Tree, k: nat, created: seq<Path>,
                    evidence: map<Path, Digest>)
    returns (r: Outcome<()>)
    requires Running(plan, t0, host, journal) && k < |plan.entries| && !host.torn
    requires LatestPhase(host.log) == Some(Applying) && ProgressOf(host.log, plan.entries[k]).Effecting?
    requires Nested(created, plan.entries[k].path) && LoggedUpTo(host.log, plan.entries[k], created, 0)
    requires forall d :: d in created ==> d in plan.entries[k].createdParents && d in evidence
    modifies journal, host`dead, host`faults, host`log, host`torn, host`stamp
    ensures Transaction(plan, t0, host)
    ensures host.dead <==> r.Crashed?
    ensures host.faults <= old(host.faults)
    ensures !host.dead && (JournalSteady(host.frail) || host.faults == old(host.faults)) ==> host.torn == old(host.torn)
    ensures JournalSteady(host.frail) && !host.dead ==> host.faults == old(host.faults)
    ensures !host.dead ==> Running(plan, t0, host, journal)
    ensures r.Ok? ==>
              LatestPhase(host.log) == Some(Applying) && SameProgress(old(host.log), host.log, plan) && !host.torn
    ensures r.Ok? ==> LoggedUpTo(host.log, plan.entries[k], created, |created|)
    ensures host.faults == old(host.faults) ==> r.Ok?
  {
    hide *;
    var e := plan.entries[k];
    SameProgressSelf(host.log, plan);
    RunningParts(plan, t0, host, journal);
    var i := 0;
    while i < |created|
      invariant 0 <= i <= |created|
      invariant Running(plan, t0, host, journal) && !host.torn && !host.dead && host.faults <= old(host.faults)
      invariant JournalSteady(host.frail) ==> host.faults == old(host.faults)
      invariant LatestPhase(host.log) == Some(Applying) && SameProgress(old(host.log), host.log, plan)
      invariant ProgressOf(host.log, plan.entries[k]).Effecting?
      invariant LoggedUpTo(host.log, e, created, i)
    {
      ghost var log := host.log;
      NextUnlogged(log, e, created, i);
      r := CommitParent(host, journal, plan, t0, k, created[i], evidence[created[i]]);
      if !r.Ok? {
        return r;
      }
      ParentLoggedStep(old(host.log), log, host.log, plan, k, created, i);
      RunningParts(plan, t0, host, journal);
      i := i + 1;
    }
    RunningParts(plan, t0, host, journal);
    return Ok(());
  }

  lemma SameProgressSelf(log: seq<Record>, plan: Plan)
    ensures SameProgress(log, log, plan)
  {
  }

  lemma NextUnlogged(log: seq<Record>, e: Entry, created: seq<Path>, i: nat)
    requires i < |created| && LoggedUpTo(log, e, created, i)
    ensures !Seen(log, ParentCreated(created[i], e.path))
  {
  }

  lemma ParentLoggedStep(log0: seq<Record>, log: seq<Record>, longer: seq<Record>, plan: Plan, k: nat,
                         created: seq<Path>, i: nat)
    requires k < |plan.entries| && i < |created| && Nested(created, plan.entries[k].path)
    requires SameProgress(log0, log, plan) && ParentAdded(log, longer, plan, k, created[i])
    requires LoggedUpTo(log, plan.entries[k], created, i)
    ensures LoggedUpTo(longer, plan.entries[k], created, i + 1)
    ensures SameProgress(log0, longer, plan)
    ensures LatestPhase(longer) == LatestPhase(log)
    ensures ProgressOf(longer, plan.entries[k]) == ProgressOf(log, plan.entries[k])
  {
    hide ProgressOf, Seen, LatestPhase;
  }

  /** A log that has not announced the entry holds no evidence of its created parents. */
  lemma NoParentsYet(log: seq<Record>, plan: Plan, k: nat, longer: seq<Record>, created: seq<Path>)
    requires Sound(log, plan) && k < |plan.entries| && ProgressOf(log, plan.entries[k]).Untouched?
    requires Advanced(log, longer, plan, k, Effecting)
    requires forall d :: d in created ==> d in plan.entries[k].createdParents
    ensures LoggedUpTo(longer, plan.entries[k], created, 0)
  {
    hide ValidLog, LatestPhase;
    var e := plan.entries[k];
    assert EntryChain(log, e);
    forall j | 0 <= j < |e.createdParents| ensures !Seen(longer, ParentCreated(e.createdParents[j], e.path)) {
      assert ParentChain(log, e, e.createdParents[j]);
    }
    forall i | 0 <= i < |created| ensures !Seen(longer, ParentCreated(created[i], e.path)) {
      assert created[i] in e.createdParents;
    }
  }

  // ---- the round ----

  /** Where a round leaves tree and log. */
  ghost predicate RoundOutcome(plan: Plan, t: Tree, u: Tree, log: seq<Record>, longer: seq<Record>, k: nat,
                               attempt: Attempt)
    requires k < |plan.entries|
  {
    var e := plan.entries[k];
    match attempt
    case Published =>
      && LatestPhase(longer) == Some(Applying) && OthersKept(log, longer, plan, k)
      && PublishFrame(t, u, e)
      && TemporaryAt(u, e.path, DigestOf(e.desired)).None?
      && ProgressOf(longer, e).Effected?
    case GaveUp(effective) =>
      && LatestPhase(longer) == Some(Applying) && OthersKept(log, longer, plan, k)
      && PublishFrame(t, u, e)
      && !ProgressOf(longer, e).Effected?
      && (if effective then ProgressOf(longer, e).Effecting? && Settled(u, e.path, e.desired) else FailedCleanly(u, e))
    case MustRecover => true
  }

  /** The evidence a round returns is about parents of the entry, and complete unless a temporary is left. */
  ghost predicate RoundEvidence(u: Tree, e: Entry, evidence: map<Path, Digest>) {
    && (forall d :: d in evidence ==> d in e.createdParents)
    && (Proven(u, e, evidence) || TemporaryAt(u, e.path, DigestOf(e.desired)).Some?)
  }

  /** How a round ends after at most one certain failure. */
  ghost predicate CertainEnd(r: Outcome<Attempt>, unharmed: bool, u: Tree, e: Entry) {
    && r.Ok? && !r.value.MustRecover?
    && (r.value.Published? <==> unharmed)
    && TemporaryAt(u, e.path, DigestOf(e.desired)).None?
  }

  lemma CertainIf(r: Outcome<Attempt>, unharmed: bool, u: Tree, e: Entry)
    ensures CertainEnd(r, unharmed, u, e) <==>
              && r.Ok? && !r.value.MustRecover?
              && (r.value.Published? <==> unharmed)
              && TemporaryAt(u, e.path, DigestOf(e.desired)).None?
  {
  }

  lemma NoEvidence(u: Tree, e: Entry)
    requires FailedCleanly(u, e) || Pristine(u, e)
    ensures RoundEvidence(u, e, map[])
  {
  }

  lemma FullEvidence(t: Tree, u: Tree, e: Entry, r: Outcome<()>, created: seq<Path>, evidence: map<Path, Digest>)
    requires PublishOutcome(t, u, e, r, created, evidence) && r.Ok?
    ensures RoundEvidence(u, e, evidence)
  {
    forall d | d in evidence ensures d in e.createdParents {
      assert d in evidence.Keys;
    }
    forall d | d in e.createdParents && d in u.dirs ensures Expected(evidence, d) == Some(Identity(u, d)) {
      assert d in evidence.Keys;
    }
  }

  lemma FailedParts(t: Tree, u: Tree, e: Entry, r: Outcome<()>, created: seq<Path>, evidence: map<Path, Digest>)
    requires PublishOutcome(t, u, e, r, created, evidence) && r.Raise? && r.error != UncertainEffect
    ensures FailedCleanly(u, e)
  {
  }

  /** Publishes an announced entry and writes the evidence for the parents it created. */
  method PublishAnnounced(host: Host, journal: ApplyJournal, plan: Plan, ghost t0: Tree, k: nat,
                          ghost log0: seq<Record>)
    returns (r: Outcome<Attempt>, evidence: map<Path, Digest>)
    requires Running(plan, t0, host, journal) && k < |plan.entries| && 0 < |plan.entries[k].path| && !host.torn
    requires Sound(log0, plan) && ProgressOf(log0, plan.entries[k]).Untouched?
    requires Advanced(log0, host.log, plan, k, Effecting) && LatestPhase(host.log) == Some(Applying)
    requires Pristine(host.tree, plan.entries[k])
    modifies journal, host`dead, host`faults, host`tree, host`looked, host`log, host`torn, host`stamp
    ensures Transaction(plan, t0, host)
    ensures host.dead <==> r.Crashed?
    ensures host.faults <= old(host.faults)
    ensures !host.dead && (JournalSteady(host.frail) || host.faults == old(host.faults)) ==> host.torn == old(host.torn)
    ensures !r.Raise?
    ensures !host.dead ==> Running(plan, t0, host, journal)
    ensures r.Ok? ==> RoundOutcome(plan, old(host.tree), host.tree, log0, host.log, k, r.value)
    ensures r.Ok? && !r.value.MustRecover? ==> !host.torn
    ensures r.Ok? && !r.value.MustRecover? ==> RoundEvidence(host.tree, plan.entries[k], evidence)
    ensures GentleEntry(host.frail, plan.entries[k]) && Publishable(old(host.tree), host.blobs, plan.entries[k])
            && !host.dead
            && old(host.faults) <= host.faults + 1
            ==> CertainEnd(r, host.faults == old(host.faults), host.tree, plan.entries[k])
    ensures host.faults == old(host.faults) && Publishable(old(host.tree), host.blobs, plan.entries[k]) ==>
              r == Ok(Published)
    ensures r == Ok(Published) ==> Visited(host.tree, host.looked, Leaf(plan.entries[k].path))
  {
    hide *;
    var e := plan.entries[k];
    ghost var t, log := host.tree, host.log;
    RunningParts(plan, t0, host, journal);
    AnnouncedOnly(log0, log, plan, k);
    var published, created;
    published, created, evidence := PublishStep(host, plan, t0, k);
    if host.dead {
      return Crashed, evidence;
    }
    RunningIf(plan, t0, host, journal);
    ghost var u := host.tree;
    if published.Raise? {
      if published.error == UncertainEffect {
        MayRecover(plan, t, u, log0, log, k);
        return Ok(MustRecover), evidence;
      }
      FailureParts(t, u, e, published, created, evidence);
      FailedParts(t, u, e, published, created, evidence);
      NoEvidence(u, e);
      evidence := map[];
      r := Reconsider(host, journal, plan, t0, k, t, log0);
      CertainIf(r, host.faults == old(host.faults), u, e);
      return;
    }
    PublishedParts(plan, t0, t, u, k, published, created, evidence);
    FullEvidence(t, u, e, published, created, evidence);
    GentleParts(host.frail, e);
    NoParentsYet(log0, plan, k, log, created);
    var logged := LogParents(host, journal, plan, t0, k, created, evidence);
    if !logged.Ok? {
      MayRecover(plan, t, u, log0, host.log, k);
      return if host.dead then Crashed else Ok(MustRecover), evidence;
    }
    ghost var log1 := host.log;
    AllLogged(log1, plan, k, created);
    RunningParts(plan, t0, host, journal);
    TransactionParts(plan, t0, host);
    StartsRolling(log1);
    EntryState(plan, t0, u, log1, host.blobs, k, false);
    var seen := TakeSnapshot(host, e.path);
    TransactionIf(plan, t0, host);
    if host.dead {
      return Crashed, evidence;
    }
    RunningIf(plan, t0, host, journal);
    LoggedProgress(log0, log, log1, plan, k);
    if seen != Ok(e.desired) {
      r := Reconsider(host, journal, plan, t0, k, t, log0);
      CertainIf(r, host.faults == old(host.faults), u, e);
      return;
    }
    var verified := CommitEffectVerified(host, journal, plan, t0, k);
    if !verified.Ok? {
      MayRecover(plan, t, u, log0, host.log, k);
      return if host.dead then Crashed else Ok(MustRecover), evidence;
    }
    VerifiedOutcome(plan, t, u, log0, log1, host.log, k);
    CertainIf(Ok(Published), host.faults == old(host.faults), u, e);
    return Ok(Published), evidence;
  }

  lemma MayRecover(plan: Plan, t: Tree, u: Tree, log: seq<Record>, longer: seq<Record>, k: nat)
    requires k < |plan.entries|
    ensures RoundOutcome(plan, t, u, log, longer, k, MustRecover)
  {
  }

  lemma PublishedParts(plan: Plan, t0: Tree, t: Tree, u: Tree, k: nat, r: Outcome<()>, created: seq<Path>,
                       evidence: map<Path, Digest>)
    requires k < |plan.entries| && r.Ok? && PublishOutcome(t, u, plan.entries[k], r, created, evidence)
    ensures var e := plan.entries[k];
            && Nested(created, e.path)
            && (forall d :: d in created ==> d in e.createdParents && d in evidence)
            && (forall d :: d in e.createdParents ==> d in created)
            && PublishFrame(t, u, e) && Settled(u, e.path, e.desired) && LeafAt(u, e.path) == e.desired
            && EitherWay(u, e)
            && TemporaryAt(u, e.path, DigestOf(e.desired)).None?
  {
    var e := plan.entries[k];
    assert evidence.Keys == (set d | d in created) == (set d | d in e.createdParents);
    forall d | d in created ensures d in evidence && d in e.createdParents {
      assert d in evidence.Keys;
    }
    forall d | d in e.createdParents ensures d in created {
      assert d in evidence.Keys;
    }
  }

  lemma AllLogged(log: seq<Record>, plan: Plan, k: nat, created: seq<Path>)
    requires k < |plan.entries| && LoggedUpTo(log, plan.entries[k], created, |created|)
    requires forall d :: d in plan.entries[k].createdParents ==> d in created
    ensures ParentsLogged(log, plan.entries[k])
  {
    hide Seen;
    var e := plan.entries[k];
    forall j | 0 <= j < |e.createdParents| ensures Seen(log, ParentCreated(e.createdParents[j], e.path)) {
      assert e.createdParents[j] in created;
      var i :| 0 <= i < |created| && created[i] == e.createdParents[j];
    }
  }

  /** After a failed round the entry is cleanly undone or fully published. */
  ghost predicate EitherWay(t: Tree, e: Entry) {
    FailedCleanly(t, e) || Settled(t, e.path, e.desired)
  }

  lemma FailureParts(t: Tree, u: Tree, e: Entry, r: Outcome<()>, created: seq<Path>, evidence: map<Path, Digest>)
    requires PublishOutcome(t, u, e, r, created, evidence) && r.Raise? && r.error != UncertainEffect
    ensures PublishFrame(t, u, e) && EitherWay(u, e)
  {
  }

  lemma AnnouncedOnly(log: seq<Record>, longer: seq<Record>, plan: Plan, k: nat)
    requires k < |plan.entries| && Advanced(log, longer, plan, k, Effecting)
    ensures OthersKept(log, longer, plan, k) && ProgressOf(longer, plan.entries[k]).Effecting?
  {
    hide ProgressOf, LatestPhase, Select;
  }

  lemma LoggedProgress(log: seq<Record>, announced: seq<Record>, longer: seq<Record>, plan: Plan, k: nat)
    requires k < |plan.entries| && Advanced(log, announced, plan, k, Effecting) && SameProgress(announced, longer, plan)
    ensures OthersKept(log, longer, plan, k) && ProgressOf(longer, plan.entries[k]).Effecting?
  {
    hide ProgressOf, LatestPhase, Select;
  }

  lemma VerifiedOutcome(plan: Plan, t: Tree, u: Tree, log: seq<Record>, before: seq<Record>, longer: seq<Record>,
                        k: nat)
    requires k < |plan.entries| && OthersKept(log, before, plan, k) && LatestPhase(before) == Some(Applying)
    requires Advanced(before, longer, plan, k, Effected) && PublishFrame(t, u, plan.entries[k])
    requires TemporaryAt(u, plan.entries[k].path, DigestOf(plan.entries[k].desired)).None?
    ensures RoundOutcome(plan, t, u, log, longer, k, Published)
  {
    hide ProgressOf, LatestPhase, Select, PublishFrame;
  }

  /** After a failure that left no doubt about the effect: is the entry affected or not? */
  method Reconsider(host: Host, journal: ApplyJournal, plan: Plan, ghost t0: Tree, k: nat, ghost t: Tree,
                    ghost log0: seq<Record>)
    returns (r: Outcome<Attempt>)
    requires Running(plan, t0, host, journal) && k < |plan.entries| && !host.torn
    requires LatestPhase(host.log) == Some(Applying) && ProgressOf(host.log, plan.entries[k]).Effecting?
    requires OthersKept(log0, host.log, plan, k) && PublishFrame(t, host.tree, plan.entries[k])
    requires EitherWay(host.tree, plan.entries[k])
    modifies host`dead, host`faults, host`tree, host`looked
    ensures host.tree == old(host.tree) && Transaction(plan, t0, host)
    ensures host.dead <==> r.Crashed?
    ensures host.faults <= old(host.faults)
    ensures host.faults == old(host.faults) ==> r.Ok? && !r.value.MustRecover?
    ensures !r.Raise? && r != Ok(Published)
    ensures !host.dead ==> Running(plan, t0, host, journal)
    ensures r.Ok? ==> RoundOutcome(plan, t, host.tree, log0, host.log, k, r.value)
  {
    hide *;
    var e := plan.entries[k];
    RunningParts(plan, t0, host, journal);
    TransactionParts(plan, t0, host);
    StartsRolling(host.log);
    EntryState(plan, t0, host.tree, host.log, host.blobs, k, false);
    var current := TakeSnapshot(host, e.path);
    TransactionIf(plan, t0, host);
    if host.dead {
      return Crashed;
    }
    RunningIf(plan, t0, host, journal);
    GaveUpOutcome(plan, t, host.tree, log0, host.log, k);
    EitherLeaf(host.tree, e);
    if current == Ok(e.desired) {
      return Ok(GaveUp(true));
    }
    if current == Ok(e.original) {
      return Ok(GaveUp(false));
    }
    return Ok(MustRecover);
  }

  lemma EitherLeaf(t: Tree, e: Entry)
    requires EitherWay(t, e)
    ensures LeafAt(t, e.path) == e.desired || LeafAt(t, e.path) == e.original
  {
  }

  lemma GaveUpOutcome(plan: Plan, t: Tree, u: Tree, log: seq<Record>, longer: seq<Record>, k: nat)
    requires k < |plan.entries| && OthersKept(log, longer, plan, k) && LatestPhase(longer) == Some(Applying)
    requires ProgressOf(longer, plan.entries[k]).Effecting? && PublishFrame(t, u, plan.entries[k])
    requires EitherWay(u, plan.entries[k]) && plan.entries[k].original != plan.entries[k].desired
    ensures LeafAt(u, plan.entries[k].path) == plan.entries[k].desired ==>
              RoundOutcome(plan, t, u, log, longer, k, GaveUp(true))
    ensures LeafAt(u, plan.entries[k].path) == plan.entries[k].original ==>
              RoundOutcome(plan, t, u, log, longer, k, GaveUp(false))
    ensures RoundOutcome(plan, t, u, log, longer, k, MustRecover)
  {
    hide ProgressOf, LatestPhase, OthersKept, PublishFrame;
  }

  /** One round of the effect loop. It never raises: a failure ends the loop one way or another. */
  method ApplyEntry(host: Host, journal: ApplyJournal, plan: Plan, ghost t0: Tree, k: nat)
    returns (r: Outcome<Attempt>, evidence: map<Path, Digest>)
    requires Running(plan, t0, host, journal) && ValidPlan(plan) && k < |plan.entries| && !host.torn
    requires LatestPhase(host.log) == Some(Applying) && ProgressOf(host.log, plan.entries[k]).Untouched?
    modifies journal, host`dead, host`faults, host`tree, host`looked, host`log, host`torn, host`stamp
    ensures Transaction(plan, t0, host)
    ensures host.dead <==> r.Crashed?
    ensures host.faults <= old(host.faults)
    ensures !host.dead && (JournalSteady(host.frail) || host.faults == old(host.faults)) ==> host.torn == old(host.torn)
    ensures !r.Raise?
    ensures !host.dead ==> Running(plan, t0, host, journal)
    ensures r.Ok? ==> RoundOutcome(plan, old(host.tree), host.tree, old(host.log), host.log, k, r.value)
    ensures r.Ok? && !r.value.MustRecover? ==> !host.torn
    ensures r.Ok? && !r.value.MustRecover? ==> RoundEvidence(host.tree, plan.entries[k], evidence)
    ensures GentleEntry(host.frail, plan.entries[k]) && EntryPublishable(plan, old(host.tree), host.blobs, k)
            && !host.dead
            && old(host.faults) <= host.faults + 1
            ==> CertainEnd(r, host.faults == old(host.faults), host.tree, plan.entries[k])
    ensures host.faults == old(host.faults) && EntryPublishable(plan, old(host.tree), host.blobs, k) ==>
              r == Ok(Published)
  {
    hide *;
    evidence := map[];
    var e := plan.entries[k];
    ghost var t, log := host.tree, host.log;
    RunningParts(plan, t0, host, journal);
    TransactionParts(plan, t0, host);
    StartsRolling(log);
    EntryState(plan, t0, t, log, host.blobs, k, false);
    UntouchedIsPristine(plan, t, log, host.blobs, k);
    NoEvidence(t, e);
    PristineTemporary(t, e);
    var before := TakeSnapshot(host, e.path);
    TransactionIf(plan, t0, host);
    if host.dead {
      return Crashed, evidence;
    }
    RunningIf(plan, t0, host, journal);
    if before != Ok(e.original) || !CreatedParentsAbsent(host.tree, e) {
      CertainIf(Ok(GaveUp(false)), host.faults == old(host.faults), t, e);
      return Ok(GaveUp(false)), evidence;
    }
    GentleParts(host.frail, e);
    var announced := CommitEffectPending(host, journal, plan, t0, k);
    if !announced.Ok? {
      MayRecover(plan, t, t, log, host.log, k);
      return if host.dead then Crashed else Ok(MustRecover), evidence;
    }
    AnnouncedPhase(log, host.log, plan, k);
    r, evidence := PublishAnnounced(host, journal, plan, t0, k, log);
  }

  lemma PristineTemporary(t: Tree, e: Entry)
    requires Pristine(t, e)
    ensures TemporaryAt(t, e.path, DigestOf(e.desired)).None?
  {
  }

  predicate CreatedParentsAbsent(t: Tree, e: Entry) {
    forall i :: 0 <= i < |e.createdParents| ==> e.createdParents[i] !in t.dirs
  }

  ghost predicate EntryPublishable(plan: Plan, t: Tree, blobs: map<Blob, Bytes>, k: nat)
    requires k < |plan.entries|
  {
    0 < |plan.entries[k].path| && Publishable(t, blobs, plan.entries[k])
  }

  lemma AnnouncedPhase(log: seq<Record>, longer: seq<Record>, plan: Plan, k: nat)
    requires k < |plan.entries| && Advanced(log, longer, plan, k, Effecting)
    ensures LatestPhase(longer) == LatestPhase(log)
  {
  }

  /** Before its round an entry shows its original, and giving up leaves it untouched. */
  lemma UntouchedIsPristine(plan: Plan, t: Tree, log: seq<Record>, blobs: map<Blob, Bytes>, k: nat)
    requires k < |plan.entries| && LatestPhase(log) == Some(Applying) && ProgressOf(log, plan.entries[k]).Untouched?
    requires EntryTree(t, plan.entries[k], false, ProgressOf(log, plan.entries[k]))
    ensures Pristine(t, plan.entries[k])
    ensures LeafAt(t, plan.entries[k].path) == plan.entries[k].original
    ensures CreatedParentsAbsent(t, plan.entries[k])
    ensures RoundOutcome(plan, t, t, log, log, k, GaveUp(false))
    ensures EntryPublishable(plan, t, blobs, k) ==>
              0 < |plan.entries[k].path| && Publishable(t, blobs, plan.entries[k])
  {
    hide ProgressOf, LatestPhase, Publishable;
  }
}
