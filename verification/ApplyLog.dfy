/** The records of the backup and effect phases, each written when log and tree are ready for it. */
module ApplyLog {
  import opened Wrappers
  import opened ApplyModels
  import opened TargetTree
  import opened Hosts
  import opened EntryEffects
  import opened ApplyJournals
  import opened JournalEvidence
  import opened JournalLaws
  import opened EntryProgress
  import opened TransactionTree
  import opened TransactionLog
  import opened RecoveryEvidence

  /** All created parents of `e` have their record. */
  predicate ParentsLogged(log: seq<Record>, e: Entry) {
    forall j :: 0 <= j < |e.createdParents| ==> Seen(log, ParentCreated(e.createdParents[j], e.path))
  }

  /** An effect record at the right moment is accepted and orderly. */
  lemma EffectLine(log: seq<Record>, plan: Plan, k: nat, rec: Record, pending: bool)
    requires ValidPlan(plan) && k < |plan.entries| && LatestPhase(log) == Some(Applying)
    requires var e := plan.entries[k];
             rec == Numbering(log, MarkLine(if pending then EffectPending(e.path) else AppliedMark(e)))
    requires if pending then ProgressOf(log, plan.entries[k]).Untouched?
             else ProgressOf(log, plan.entries[k]).Effecting? && ParentsLogged(log, plan.entries[k])
    ensures Accepts(log, plan, rec)
    ensures OrderlyFor(log, plan.entries[k], rec)
    ensures Move(rec, plan.entries[k], ProgressOf(log, plan.entries[k])) == if pending then Effecting else Effected
  {
    EntryForMember(plan, k);
  }

  lemma EffectFits(plan: Plan, t0: Tree, t: Tree, log: seq<Record>, blobs: map<Blob, Bytes>, k: nat, rec: Record,
                   pending: bool)
    requires ValidPlan(plan) && k < |plan.entries| && LatestPhase(log) == Some(Applying)
    requires PhaseTree(plan, t0, t, log, blobs)
    requires rec == Numbering(log, MarkLine(
               if pending then EffectPending(plan.entries[k].path) else AppliedMark(plan.entries[k])))
    requires if pending then ProgressOf(log, plan.entries[k]).Untouched?
             else && ProgressOf(log, plan.entries[k]).Effecting? && ParentsLogged(log, plan.entries[k])
                  && Settled(t, plan.entries[k].path, plan.entries[k].desired)
    ensures Accepts(log, plan, rec) && Orderly(log, plan, rec)
    ensures PhaseTree(plan, t0, t, log + [rec], blobs)
    ensures Advanced(log, log + [rec], plan, k, if pending then Effecting else Effected)
  {
    hide Select, Accepts, ProgressOf, OrderlyFor, Orderly, MovesOnly, Bears, LatestPhase, Advanced, ParentsLogged;
    EffectLine(log, plan, k, rec, pending);
    PathMovesOnly(plan, rec, k);
    OrderlyOne(log, plan, rec, k);
    LatestAppend(log, rec);
    AdvancedBy(log, rec, plan, k);
    assert EntryTree(t, plan.entries[k], false, ProgressOf(log, plan.entries[k]));
    EntriesAppend(t, plan, false, log, rec, k);
  }

  method CommitEffectPending(host: Host, journal: ApplyJournal, plan: Plan, ghost t0: Tree, k: nat)
    returns (r: Outcome<()>)
    requires Running(plan, t0, host, journal) && ValidPlan(plan) && k < |plan.entries|
    requires LatestPhase(host.log) == Some(Applying) && ProgressOf(host.log, plan.entries[k]).Untouched?
    modifies journal, host`dead, host`faults, host`log, host`torn, host`stamp
    ensures Transaction(plan, t0, host)
    ensures host.dead <==> r.Crashed?
    ensures host.faults <= old(host.faults)
    ensures !host.dead && (JournalSteady(host.frail) || host.faults == old(host.faults)) ==> host.torn == old(host.torn)
    ensures JournalSteady(host.frail) && !host.dead ==> host.faults == old(host.faults)
    ensures !host.dead ==> Running(plan, t0, host, journal)
    ensures r.Ok? ==> Advanced(old(host.log), host.log, plan, k, Effecting) && !host.torn
    ensures host.faults == old(host.faults) && !old(host.torn) ==> r.Ok?
  {
    hide Sound, Planned, SafeTree, PhaseTree, Advanced, ProgressOf, Accepts, Orderly, State, LatestPhase;
    var line := MarkLine(EffectPending(plan.entries[k].path));
    TransactionParts(plan, t0, host);
    EffectFits(plan, t0, host.tree, host.log, host.blobs, k, Numbering(host.log, line), true);
    r := Commit(host, journal, line, plan, t0);
  }

  method CommitEffectVerified(host: Host, journal: ApplyJournal, plan: Plan, ghost t0: Tree, k: nat)
    returns (r: Outcome<()>)
    requires Running(plan, t0, host, journal) && ValidPlan(plan) && k < |plan.entries|
    requires LatestPhase(host.log) == Some(Applying) && ProgressOf(host.log, plan.entries[k]).Effecting?
    requires ParentsLogged(host.log, plan.entries[k])
    requires Settled(host.tree, plan.entries[k].path, plan.entries[k].desired)
    modifies journal, host`dead, host`faults, host`log, host`torn, host`stamp
    ensures Transaction(plan, t0, host)
    ensures host.dead <==> r.Crashed?
    ensures host.faults <= old(host.faults)
    ensures !host.dead && (JournalSteady(host.frail) || host.faults == old(host.faults)) ==> host.torn == old(host.torn)
    ensures JournalSteady(host.frail) && !host.dead ==> host.faults == old(host.faults)
    ensures !host.dead ==> Running(plan, t0, host, journal)
    ensures r.Ok? ==> Advanced(old(host.log), host.log, plan, k, Effected) && !host.torn
    ensures host.faults == old(host.faults) && !old(host.torn) ==> r.Ok?
  {
    hide Sound, Planned, SafeTree, PhaseTree, Advanced, ProgressOf, Accepts, Orderly, State, LatestPhase,
      ParentsLogged, Settled;
    var line := MarkLine(AppliedMark(plan.entries[k]));
    TransactionParts(plan, t0, host);
    EffectFits(plan, t0, host.tree, host.log, host.blobs, k, Numbering(host.log, line), false);
    r := Commit(host, journal, line, plan, t0);
  }

  /** The log gained the evidence of one created parent and nothing else. */
  ghost predicate ParentAdded(log: seq<Record>, longer: seq<Record>, plan: Plan, k: nat, d: Path)
    requires k < |plan.entries|
  {
    && LatestPhase(longer) == LatestPhase(log)
    && SameProgress(log, longer, plan)
    && (forall c :: Seen(longer, ParentCreated(c, plan.entries[k].path)) <==>
                      Seen(log, ParentCreated(c, plan.entries[k].path)) || c == d)
    && (forall c, j :: 0 <= j < |plan.entries| && j != k ==>
         Seen(longer, ParentCreated(c, plan.entries[j].path)) == Seen(log, ParentCreated(c, plan.entries[j].path)))
  }

  lemma ParentFits(plan: Plan, t0: Tree, t: Tree, log: seq<Record>, blobs: map<Blob, Bytes>, k: nat, d: Path,
                   identity: Digest)
    requires Planned(plan, t0) && ValidPlan(plan) && k < |plan.entries| && LatestPhase(log) == Some(Applying)
    requires PhaseTree(plan, t0, t, log, blobs)
    requires d in plan.entries[k].createdParents && ProgressOf(log, plan.entries[k]).Effecting?
    requires !Seen(log, ParentCreated(d, plan.entries[k].path))
    ensures var rec := Numbering(log, ParentLine(d, plan.entries[k].path, identity));
            && Accepts(log, plan, rec) && Orderly(log, plan, rec)
            && PhaseTree(plan, t0, t, log + [rec], blobs)
            && ParentAdded(log, log + [rec], plan, k, d)
  {
    hide Planned, PlannedEntry, ProgressOf, LatestPhase, EntryTree, PhaseTreeFor, ValidEntry, Seen;
    var e := plan.entries[k];
    var rec := Numbering(log, ParentLine(d, e.path, identity));
    assert OwnersDisjoint(plan) by {
      PlannedDisjoint(plan, t0);
    }
    OwnerIs(plan, k, d);
    ParentIsNoEntry(plan, t0, d);
    LatestAppend(log, rec);
    forall j | 0 <= j < |plan.entries|
      ensures OrderlyFor(log, plan.entries[j], rec)
      ensures ProgressOf(log + [rec], plan.entries[j]) == ProgressOf(log, plan.entries[j])
    {
      if j != k {
        assert plan.entries[j].path != e.path;
      }
      AppendMoves(log, plan.entries[j], rec);
    }
    forall c, p ensures Seen(log + [rec], ParentCreated(c, p)) <==> Seen(log, ParentCreated(c, p)) || (c == d && p == e.path) {
      EntryProgress.SeenAppend(log, ParentCreated(c, p), rec);
    }
    SameProgressTree(t, plan, log, log + [rec]);
    SamePhaseTree(plan, t0, t, log, log + [rec], blobs);
  }

  lemma PlannedDisjoint(plan: Plan, t0: Tree)
    requires Planned(plan, t0)
    ensures OwnersDisjoint(plan)
  {
  }

  lemma SamePhaseTree(plan: Plan, t0: Tree, t: Tree, log: seq<Record>, longer: seq<Record>, blobs: map<Blob, Bytes>)
    requires PhaseTree(plan, t0, t, log, blobs) && LatestPhase(longer) == LatestPhase(log)
    requires forall rolling :: AllEntries(t, plan, rolling, log) ==> AllEntries(t, plan, rolling, longer)
    ensures PhaseTree(plan, t0, t, longer, blobs)
  {
    hide AllEntries, AppliedTree, LatestPhase;
  }

  method CommitParent(host: Host, journal: ApplyJournal, plan: Plan, ghost t0: Tree, k: nat, d: Path, identity: Digest)
    returns (r: Outcome<()>)
    requires Running(plan, t0, host, journal) && k < |plan.entries|
    requires LatestPhase(host.log) == Some(Applying) && ProgressOf(host.log, plan.entries[k]).Effecting?
    requires d in plan.entries[k].createdParents && !Seen(host.log, ParentCreated(d, plan.entries[k].path))
    modifies journal, host`dead, host`faults, host`log, host`torn, host`stamp
    ensures Transaction(plan, t0, host)
    ensures host.dead <==> r.Crashed?
    ensures host.faults <= old(host.faults)
    ensures !host.dead && (JournalSteady(host.frail) || host.faults == old(host.faults)) ==> host.torn == old(host.torn)
    ensures JournalSteady(host.frail) && !host.dead ==> host.faults == old(host.faults)
    ensures !host.dead ==> Running(plan, t0, host, journal)
    ensures r.Ok? ==> ParentAdded(old(host.log), host.log, plan, k, d) && !host.torn
    ensures host.faults == old(host.faults) && !old(host.torn) ==> r.Ok?
  {
    hide Sound, Planned, SafeTree, PhaseTree, ProgressOf, Accepts, Orderly, State, LatestPhase, ParentAdded,
      ValidPlan, Seen;
    TransactionParts(plan, t0, host);
    ParentFits(plan, t0, host.tree, host.log, host.blobs, k, d, identity);
    r := Commit(host, journal, ParentLine(d, plan.entries[k].path, identity), plan, t0);
  }
}
