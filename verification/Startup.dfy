/** The scan at process start: what may still be running or unfinished, and whether new work may begin. */
module Startup {
  import opened Wrappers
  import opened ApplyModels
  import L = Leases

  datatype TaskState = AwaitingClarification | AwaitingPlanApproval | BlockedTask | OtherState

  /** What the database knows about the newest approval of a task. */
  datatype ApprovalFacts = ApprovalFacts(
    isPlanApproval: bool,
    consumed: bool,
    revoked: bool,
    expiresAt: Option<nat>,
    planVersion: Option<string>)

  datatype Candidate = Candidate(
    task: string,
    state: TaskState,
    run: Option<string>,
    transaction: Option<string>,
    applyPhase: Option<Phase>,
    journalReference: Option<string>,
    planVersion: Option<string>,
    approval: Option<ApprovalFacts>,
    planDigest: Option<string>,
    blockedReason: Option<string>,
    cleanup: L.Evidence,
    workspaceMatches: bool)

  datatype Journal = Journal(transaction: string, reference: string, phase: Option<Phase>, planDigest: string, blocking: bool)

  datatype Container = Container(task: string, run: string, terminal: bool)

  datatype Kind =
    | StaleLease | ResidualContainer | NonterminalApply | MissingJournal | EvidenceMismatch
    | SafeWaiting | StaleApproval | DuplicateStartup

  datatype Decision = ManualRecovery | RequestOwnership | Delegate | Pause | ReleaseAllowed | Invalidate

  datatype Finding = Finding(
    kind: Kind,
    task: Option<string>,
    run: Option<string>,
    lease: Option<string>,
    transaction: Option<string>,
    decision: Decision,
    blocks: bool)

  datatype Report = Report(findings: seq<Finding>, executionPermitted: bool)

  /** One call of the recovery coordinator. */
  datatype Delegation = Delegation(candidate: Candidate, journal: Journal, lease: L.Lease)

  predicate AnyBlocks(findings: seq<Finding>) {
    exists i :: 0 <= i < |findings| && findings[i].blocks
  }

  lemma BlocksAppend(findings: seq<Finding>, more: seq<Finding>)
    ensures AnyBlocks(findings + more) <==> AnyBlocks(findings) || AnyBlocks(more)
  {
    var all := findings + more;
    if AnyBlocks(findings) {
      var i :| 0 <= i < |findings| && findings[i].blocks;
      assert all[i].blocks;
    }
    if AnyBlocks(more) {
      var i :| 0 <= i < |more| && more[i].blocks;
      assert all[|findings| + i].blocks;
    }
  }

  function MakeReport(findings: seq<Finding>): Outcome<Report> {
    if |findings| > 1000 then Raise(ValueError) else Ok(Report(findings, !AnyBlocks(findings)))
  }

  // ---- tasks that wait for someone ----

  function Note(c: Candidate, kind: Kind, decision: Decision, blocks: bool): Finding {
    Finding(kind, Some(c.task), c.run, None, None, decision, blocks)
  }

  function WaitingFinding(c: Candidate, now: nat): Option<Finding> {
    var approvalPlan := if c.approval.Some? then c.approval.value.planVersion else None;
    if approvalPlan.Some? && c.planVersion.Some? && approvalPlan != c.planVersion then
      Some(Note(c, StaleApproval, Invalidate, true))
    else match c.state
      case AwaitingClarification => Some(Note(c, SafeWaiting, Pause, false))
      case AwaitingPlanApproval =>
        var bindingPresent := approvalPlan.Some? && c.planVersion.Some?;
        var valid := && c.approval.Some? && c.approval.value.isPlanApproval
                     && !c.approval.value.consumed && !c.approval.value.revoked
                     && c.approval.value.expiresAt.Some? && now < c.approval.value.expiresAt.value
                     && bindingPresent;
        if c.approval.Some? && !valid then Some(Note(c, EvidenceMismatch, ManualRecovery, true))
        else
          var approved := valid && approvalPlan == c.planVersion;
          var safe := approved && L.PermitsRelease(c.cleanup) && c.workspaceMatches;
          if approved && !safe then Some(Note(c, EvidenceMismatch, ManualRecovery, true))
          else Some(Note(c, SafeWaiting, if safe then ReleaseAllowed else Pause, !safe))
      case BlockedTask =>
        if c.blockedReason.None? then Some(Note(c, EvidenceMismatch, ManualRecovery, true))
        else Some(Note(c, SafeWaiting, Pause, false))
      case OtherState => None
  }

  /** The live approval of the task's own plan version. */
  predicate Approved(c: Candidate, now: nat) {
    && c.approval.Some? && c.approval.value.isPlanApproval
    && !c.approval.value.consumed && !c.approval.value.revoked
    && (match c.approval.value.expiresAt case None => false case Some(t) => now < t)
    && c.planVersion.Some? && c.approval.value.planVersion == c.planVersion
  }

  /** A waiting task stands in the way of new work unless its wait is provably safe. */
  predicate WaitsSafely(c: Candidate, now: nat) {
    && !(c.approval.Some? && c.approval.value.planVersion.Some? && c.planVersion.Some?
         && c.approval.value.planVersion != c.planVersion)
    && (c.state.AwaitingPlanApproval? ==> Approved(c, now) && L.PermitsRelease(c.cleanup) && c.workspaceMatches)
    && (c.state.BlockedTask? ==> c.blockedReason.Some?)
  }

  /** The approval on record is for another version of the plan. */
  predicate Outdated(c: Candidate) {
    && c.approval.Some? && c.approval.value.planVersion.Some? && c.planVersion.Some?
    && c.approval.value.planVersion != c.planVersion
  }

  /** The wait contradicts what is known about it. */
  predicate Contradicts(c: Candidate, now: nat) {
    || (c.state.AwaitingPlanApproval? && c.approval.Some?
        && !(Approved(c, now) && L.PermitsRelease(c.cleanup) && c.workspaceMatches))
    || (c.state.BlockedTask? && c.blockedReason.None?)
  }

  /** The finding of a waiting task blocks exactly when the wait is not safe, and a release is allowed
      exactly for an approved, cleaned up wait. */
  lemma WaitingBlocks(c: Candidate, now: nat)
    ensures WaitingFinding(c, now).None? <==> c.state.OtherState? && !Outdated(c)
    ensures WaitingFinding(c, now).None? ==> WaitsSafely(c, now)
    ensures WaitingFinding(c, now).Some? ==>
              var f := WaitingFinding(c, now).value;
              && f.task == Some(c.task) && f.run == c.run && f.lease.None? && f.transaction.None?
              && (f.blocks <==> !WaitsSafely(c, now))
              && (f.kind.StaleApproval? <==> Outdated(c)) && (f.decision.Invalidate? <==> Outdated(c))
              && (f.kind.EvidenceMismatch? <==> !Outdated(c) && Contradicts(c, now))
              && (f.decision.ManualRecovery? <==> !Outdated(c) && Contradicts(c, now))
              && (f.kind.SafeWaiting? <==> !Outdated(c) && !Contradicts(c, now))
              && (f.decision.ReleaseAllowed? <==>
                   && c.state.AwaitingPlanApproval? && Approved(c, now)
                   && L.PermitsRelease(c.cleanup) && c.workspaceMatches)
              && (f.decision.Pause? <==> f.kind.SafeWaiting? && !f.decision.ReleaseAllowed?)
  {
  }

  // ---- the gate ----

  predicate EvidenceMatches(c: Candidate, j: Journal) {
    && c.journalReference == Some(j.reference)
    && c.applyPhase == j.phase
    && (c.planDigest.None? || c.planDigest == Some(j.planDigest))
  }

  predicate DistinctTransactions(journals: seq<Journal>) {
    forall i, k :: 0 <= i < k < |journals| ==> journals[i].transaction != journals[k].transaction
  }

  /** A candidate that is no obstacle: it waits safely, or its transaction has a matching, finished journal. */
  predicate Clear(c: Candidate, journals: seq<Journal>, now: nat) {
    match c.transaction
    case None => WaitsSafely(c, now)
    case Some(t) =>
      exists i :: 0 <= i < |journals| && journals[i].transaction == t && EvidenceMatches(c, journals[i]) && !journals[i].blocking
  }

  predicate Claimed(j: Journal, candidates: seq<Candidate>) {
    exists i :: 0 <= i < |candidates| && candidates[i].transaction == Some(j.transaction)
  }

  ghost predicate Gate(rows: map<string, L.Lease>, lockAcquired: bool, candidates: seq<Candidate>,
                       journals: Option<seq<Journal>>, containers: seq<Container>, now: nat)
  {
    && lockAcquired
    && journals.Some? && DistinctTransactions(journals.value)
    && (forall id :: id in rows ==> !L.Open(rows[id]))
    && (forall i :: 0 <= i < |containers| ==> containers[i].terminal)
    && (forall i :: 0 <= i < |candidates| ==> Clear(candidates[i], journals.value, now))
    && (forall i :: 0 <= i < |journals.value| ==> Claimed(journals.value[i], candidates))
  }

  /** With the gate open no journal blocks and every transaction is accounted for on both sides. */
  lemma GateMeans(rows: map<string, L.Lease>, lockAcquired: bool, candidates: seq<Candidate>,
                  journals: Option<seq<Journal>>, containers: seq<Container>, now: nat)
    requires Gate(rows, lockAcquired, candidates, journals, containers, now)
    ensures forall j :: 0 <= j < |journals.value| ==> !journals.value[j].blocking
    ensures forall i :: 0 <= i < |candidates| && candidates[i].transaction.Some? ==>
              exists j :: 0 <= j < |journals.value| && candidates[i].transaction == Some(journals.value[j].transaction)
                          && candidates[i].journalReference == Some(journals.value[j].reference)
                          && candidates[i].applyPhase == journals.value[j].phase
                          && candidates[i].planDigest in {None, Some(journals.value[j].planDigest)}
  {
    forall j | 0 <= j < |journals.value| ensures !journals.value[j].blocking {
      assert Claimed(journals.value[j], candidates);
      var i :| 0 <= i < |candidates| && candidates[i].transaction == Some(journals.value[j].transaction);
      assert Clear(candidates[i], journals.value, now);
    }
    forall i | 0 <= i < |candidates| && candidates[i].transaction.Some?
      ensures exists j :: 0 <= j < |journals.value| && candidates[i].transaction == Some(journals.value[j].transaction)
                          && candidates[i].journalReference == Some(journals.value[j].reference)
                          && candidates[i].applyPhase == journals.value[j].phase
                          && candidates[i].planDigest in {None, Some(journals.value[j].planDigest)}
    {
      assert Clear(candidates[i], journals.value, now);
    }
  }

  // ---- the scan ----

  /** A lease this scan was granted to recover an expired one of the same task and run. */
  ghost predicate FreshRecovery(before: map<string, L.Lease>, after: map<string, L.Lease>, l: L.Lease, owner: string) {
    && l.id !in before && l.id in after && after[l.id] == l
    && l.purpose.RecoveryPurpose? && l.status.Active? && l.revision == 1 && l.owner == owner
    && exists prior :: prior in before && L.Open(before[prior]) && before[prior].task == l.task && before[prior].run == l.run
                      && prior in after && after[prior].status.Released?
  }

  predicate Known(candidates: seq<Candidate>, task: string, run: string) {
    exists i :: 0 <= i < |candidates| && candidates[i].task == task && candidates[i].run == Some(run)
  }

  /** A lease that is ripe for recovery: its time is up, or it already waits. */
  predicate Ripe(rows: map<string, L.Lease>, timeout: nat, id: string, now: nat) {
    id in rows && (rows[id].status.RecoveryPending? || L.Expired(rows, timeout, id, now))
  }

  /** The revision at which a ripe lease waits for recovery. */
  function WaitingRevision(l: L.Lease): nat {
    if l.status.Active? then l.revision + 1 else l.revision
  }

  /** The recovery lease that takes over from `l`. */
  function Successor(l: L.Lease, now: nat, owner: string, leaseName: (string, string, nat) -> string): L.Lease {
    L.Fresh(leaseName(l.task, l.run, WaitingRevision(l)), l.task, l.run, owner, L.RecoveryPurpose, "ROLLING_BACK", now)
  }

  /** Once `l` waits, its recovery lease is granted: its task and run are known, and the new name is free. */
  predicate Recoverable(rows: map<string, L.Lease>, l: L.Lease, candidates: seq<Candidate>, now: nat, owner: string,
                        leaseName: (string, string, nat) -> string)
  {
    && Known(candidates, l.task, l.run)
    && var next := Successor(l, now, owner, leaseName);
       && L.ValidIdentity(next.id) && L.ValidIdentity(next.task) && L.ValidIdentity(next.run)
       && L.ValidIdentity(owner)
       && next.id !in rows
  }

  /** The recovery lease the scan gets out of the open lease `id`, if any. */
  function Taken(rows: map<string, L.Lease>, timeout: nat, candidates: seq<Candidate>, id: string, now: nat,
                 owner: string, leaseName: (string, string, nat) -> string): Option<L.Lease>
    requires id in rows
  {
    if Ripe(rows, timeout, id, now) && Recoverable(rows, rows[id], candidates, now, owner, leaseName)
    then Some(Successor(rows[id], now, owner, leaseName))
    else None
  }

  /** The table after the scan looked at the open lease `id`. */
  ghost predicate Reviewed(rows: map<string, L.Lease>, after: map<string, L.Lease>, timeout: nat, id: string, now: nat,
                           taken: Option<L.Lease>)
    requires id in rows
  {
    var l := rows[id];
    if taken.Some? then
      after == rows[id := l.(status := L.Released, revision := WaitingRevision(l) + 1)][taken.value.id := taken.value]
    else if L.Expired(rows, timeout, id, now) then
      after == rows[id := l.(status := L.RecoveryPending, revision := l.revision + 1)]
    else
      after == rows
  }

  /** An open lease is reported, expired if its time is up, and taken over for recovery if it can be. */
  method ReviewLease(service: L.LeaseService, candidates: seq<Candidate>, now: nat, owner: string,
                     leaseName: (string, string, nat) -> string)
    returns (r: Outcome<()>, findings: seq<Finding>, current: Option<L.Lease>, recovery: Option<L.Lease>)
    requires service.Valid()
    modifies service
    ensures service.Valid() && L.Advances(old(service.rows), service.rows)
    ensures service.outages <= old(service.outages)
    ensures !r.Crashed? && (r.Raise? ==> service.outages < old(service.outages))
    ensures r.Ok? ==> (AnyBlocks(findings) <==> exists id :: id in old(service.rows) && L.Open(old(service.rows)[id]))
    ensures |findings| <= 1
    ensures forall f :: f in findings ==> exists id :: id in old(service.rows) && ReportsLease(f, old(service.rows)[id])
    ensures r.Ok? ==> forall id :: id in old(service.rows) && L.Open(old(service.rows)[id]) ==>
              exists f :: f in findings && ReportsLease(f, old(service.rows)[id])
    ensures r.Raise? ==> recovery.None? && service.rows == old(service.rows)
    ensures recovery.Some? ==> FreshRecovery(old(service.rows), service.rows, recovery.value, owner)
    ensures recovery.Some? ==> Known(candidates, recovery.value.task, recovery.value.run)
    ensures service.rows.Keys == old(service.rows).Keys + if recovery.Some? then {recovery.value.id} else {}
    ensures service.outages == old(service.outages)
            && (forall id :: id in old(service.rows) ==> !L.Open(old(service.rows)[id])) ==>
              service.rows == old(service.rows) && recovery.None?
    ensures service.outages == old(service.outages) ==>
              forall id :: id in old(service.rows) && L.Open(old(service.rows)[id]) ==>
                && recovery == Taken(old(service.rows), service.timeout, candidates, id, now, owner, leaseName)
                && Reviewed(old(service.rows), service.rows, service.timeout, id, now, recovery)
  {
    hide L.History, L.Advances, L.Lapsed, Known;
    findings, current, recovery := [], None, None;
    L.AdvancesReflexive(service.rows);
    ghost var first := service.rows;
    var failed := service.Fails();
    if failed {
      return Raise(ValueError), findings, current, recovery;
    }
    current := service.OpenLease();
    if current.None? {
      return Ok(()), findings, current, recovery;
    }
    var open := current.value;
    findings := [Finding(StaleLease, Some(open.task), Some(open.run), Some(open.id), None, RequestOwnership, true)];
    assert findings[0].blocks && ReportsLease(findings[0], service.rows[open.id]);
    var l := ExpireOpen(service, open, now);
    ghost var second := service.rows;
    current := Some(l);
    recovery := TakeOver(service, l, candidates, now, owner, leaseName);
    L.AdvancesTransitive(first, second, service.rows);
    TakenInOne(first, second, service.rows, service.timeout, candidates, open, now, owner, leaseName, recovery);
    return Ok(()), findings, current, recovery;
  }

  /** The open lease after its expiry was tried. */
  method ExpireOpen(service: L.LeaseService, open: L.Lease, now: nat) returns (l: L.Lease)
    requires service.Valid() && open.id in service.rows && service.rows[open.id] == open && L.Open(open)
    requires forall id :: id in service.rows && id != open.id ==> !L.Open(service.rows[id])
    modifies service
    ensures service.Valid() && L.Advances(old(service.rows), service.rows)
    ensures service.outages <= old(service.outages)
    ensures l == open || (L.Expired(old(service.rows), service.timeout, open.id, now)
                          && l == open.(status := L.RecoveryPending, revision := open.revision + 1))
    ensures service.rows == old(service.rows)[open.id := l]
    ensures service.outages == old(service.outages) && L.Expired(old(service.rows), service.timeout, open.id, now) ==>
              l != open
  {
    hide L.History, L.Advances, L.Lapsed;
    L.AdvancesReflexive(service.rows);
    l := open;
    if open.status.Active? {
      var expired := service.DoMarkExpired(L.MarkExpired(now));
      if expired.Granted? {
        SameOpen(old(service.rows), open.id, expired.lease.id, service);
        l := expired.lease;
      }
    }
    assert service.rows == old(service.rows)[open.id := l];
  }

  /** Asks for the recovery lease after `l`, if it waits and its task and run are known. */
  method TakeOver(service: L.LeaseService, l: L.Lease, candidates: seq<Candidate>, now: nat, owner: string,
                  leaseName: (string, string, nat) -> string) returns (recovery: Option<L.Lease>)
    requires service.Valid() && l.id in service.rows && service.rows[l.id] == l && L.Open(l) && 1 <= l.revision
    requires forall id :: id in service.rows && id != l.id ==> !L.Open(service.rows[id])
    modifies service
    ensures service.Valid() && L.Advances(old(service.rows), service.rows)
    ensures service.outages <= old(service.outages)
    ensures recovery.Some? ==>
              && l.status.RecoveryPending? && Recoverable(old(service.rows), l, candidates, now, owner, leaseName)
              && recovery == Some(Successor(l, now, owner, leaseName))
              && service.rows == old(service.rows)[l.id := l.(status := L.Released, revision := l.revision + 1)]
                                                  [recovery.value.id := recovery.value]
    ensures recovery.None? ==> service.rows == old(service.rows)
    ensures service.outages == old(service.outages) ==>
              (recovery.Some? <==>
                l.status.RecoveryPending? && Recoverable(old(service.rows), l, candidates, now, owner, leaseName))
  {
    hide L.History, L.Advances, L.Lapsed, Known;
    L.AdvancesReflexive(service.rows);
    recovery := None;
    if l.status.RecoveryPending? && Known(candidates, l.task, l.run) {
      var requested := leaseName(l.task, l.run, l.revision);
      var granted, pending := service.DoAcquireRecovery(
        L.AcquireRecovery(requested, l.task, l.run, owner, "ROLLING_BACK", l.revision, now));
      if granted.Granted? {
        recovery := Some(granted.lease);
        assert pending == l.id;
      }
    }
  }

  /** Expiry and takeover together are the review. */
  lemma TakenInOne(rows: map<string, L.Lease>, second: map<string, L.Lease>, after: map<string, L.Lease>, timeout: nat,
                   candidates: seq<Candidate>, open: L.Lease, now: nat, owner: string,
                   leaseName: (string, string, nat) -> string, recovery: Option<L.Lease>)
    requires open.id in rows && rows[open.id] == open && L.Open(open) && open.id in second
    requires forall id :: id in rows && id != open.id ==> !L.Open(rows[id])
    requires second == rows[open.id := second[open.id]]
    requires second[open.id] == open
             || (L.Expired(rows, timeout, open.id, now)
                 && second[open.id] == open.(status := L.RecoveryPending, revision := open.revision + 1))
    requires recovery.Some? ==>
               && second[open.id].status.RecoveryPending? && Recoverable(second, second[open.id], candidates, now, owner, leaseName)
               && recovery == Some(Successor(second[open.id], now, owner, leaseName))
               && after == second[open.id := second[open.id].(status := L.Released, revision := second[open.id].revision + 1)]
                                 [recovery.value.id := recovery.value]
    requires recovery.None? ==> after == second
    ensures recovery.Some? ==> FreshRecovery(rows, after, recovery.value, owner)
    ensures after.Keys == rows.Keys + if recovery.Some? then {recovery.value.id} else {}
    ensures (L.Expired(rows, timeout, open.id, now) ==> second[open.id] != open)
            && (recovery.Some? <==>
                  second[open.id].status.RecoveryPending?
                  && Recoverable(second, second[open.id], candidates, now, owner, leaseName)) ==>
              forall id :: id in rows && L.Open(rows[id]) ==>
                && recovery == Taken(rows, timeout, candidates, id, now, owner, leaseName)
                && Reviewed(rows, after, timeout, id, now, recovery)
  {
    hide Known, L.ValidIdentity;
    if recovery.Some? {
      assert open.id in after && after[open.id].status.Released?;
    }
    if (L.Expired(rows, timeout, open.id, now) ==> second[open.id] != open)
       && (recovery.Some? <==>
             second[open.id].status.RecoveryPending?
             && Recoverable(second, second[open.id], candidates, now, owner, leaseName)) {
      assert recovery == Taken(rows, timeout, candidates, open.id, now, owner, leaseName);
      assert Reviewed(rows, after, timeout, open.id, now, recovery);
    }
  }

  /** The finding about an open lease. */
  predicate ReportsLease(f: Finding, l: L.Lease) {
    && L.Open(l) && f.kind.StaleLease? && f.decision.RequestOwnership? && f.blocks
    && f.task == Some(l.task) && f.run == Some(l.run) && f.lease == Some(l.id) && f.transaction.None?
  }

  lemma SameOpen(first: map<string, L.Lease>, a: string, b: string, service: L.LeaseService)
    requires a in first && L.Open(first[a]) && b in first && L.Open(first[b])
    requires forall id :: id in first && id != a ==> !L.Open(first[id])
    ensures a == b
  {
  }

  method ReviewContainers(containers: seq<Container>) returns (findings: seq<Finding>)
    ensures AnyBlocks(findings) <==> exists i :: 0 <= i < |containers| && !containers[i].terminal
    ensures |findings| <= |containers|
    ensures forall f :: f in findings ==> exists c :: c in containers && ReportsContainer(f, c)
    ensures forall c :: c in containers && !c.terminal ==> exists f :: f in findings && ReportsContainer(f, c)
  {
    findings := [];
    for i := 0 to |containers|
      invariant |findings| <= i
      invariant forall f :: f in findings ==> exists c :: c in containers && ReportsContainer(f, c)
      invariant forall j :: 0 <= j < i && !containers[j].terminal ==>
                  exists f :: f in findings && ReportsContainer(f, containers[j])
      invariant AnyBlocks(findings) <==> exists j :: 0 <= j < i && !containers[j].terminal
    {
      if !containers[i].terminal {
        var c := containers[i];
        var finding := Finding(ResidualContainer, Some(c.task), Some(c.run), None, None, ManualRecovery, true);
        BlocksAppend(findings, [finding]);
        assert [finding][0].blocks;
        assert c in containers && ReportsContainer(finding, c);
        findings := findings + [finding];
        assert findings[|findings| - 1] == finding;
      }
    }
  }

  /** The finding about a container that still runs. */
  predicate ReportsContainer(f: Finding, c: Container) {
    && !c.terminal && f.kind.ResidualContainer? && f.decision.ManualRecovery? && f.blocks
    && f.task == Some(c.task) && f.run == Some(c.run) && f.lease.None? && f.transaction.None?
  }

  /** The journal of a transaction among journals with distinct transactions. */
  method FindJournal(journals: seq<Journal>, t: string) returns (found: Option<Journal>)
    requires DistinctTransactions(journals)
    ensures found.Some? ==> found.value in journals && found.value.transaction == t
    ensures forall i :: 0 <= i < |journals| && journals[i].transaction == t ==> found == Some(journals[i])
  {
    found := None;
    for i := 0 to |journals|
      invariant found.Some? ==> found.value in journals && found.value.transaction == t
      invariant forall j :: 0 <= j < i && journals[j].transaction == t ==> found == Some(journals[j])
    {
      if journals[i].transaction == t {
        found := Some(journals[i]);
      }
    }
  }

  /** A delegation is for a blocking journal that matches its candidate, under a recovery lease of that task and run. */
  predicate Delegable(d: Delegation, candidates: seq<Candidate>, journals: seq<Journal>, recovery: Option<L.Lease>) {
    && d.candidate in candidates && d.journal in journals
    && d.candidate.transaction == Some(d.journal.transaction)
    && d.candidate.journalReference == Some(d.journal.reference) && d.candidate.applyPhase == d.journal.phase
    && d.candidate.planDigest in {None, Some(d.journal.planDigest)}
    && d.journal.blocking
    && recovery == Some(d.lease) && d.lease.task == d.candidate.task && Some(d.lease.run) == d.candidate.run
  }

  /** A candidate with a blocking, matching journal, of the task and run under recovery. */
  predicate MustDelegate(c: Candidate, journals: seq<Journal>, recovery: Option<L.Lease>) {
    && recovery.Some? && recovery.value.task == c.task && Some(recovery.value.run) == c.run
    && exists j :: j in journals && c.transaction == Some(j.transaction) && EvidenceMatches(c, j) && j.blocking
  }

  method ReviewCandidate(c: Candidate, journals: seq<Journal>, current: Option<L.Lease>, recovery: Option<L.Lease>,
                         now: nat)
    returns (findings: seq<Finding>, delegated: Option<Delegation>)
    requires DistinctTransactions(journals)
    ensures AnyBlocks(findings) <==> !Clear(c, journals, now)
    ensures delegated.Some? ==> Delegable(delegated.value, [c], journals, recovery)
    ensures delegated.Some? <==> MustDelegate(c, journals, recovery)
    ensures delegated.Some? ==> delegated.value.candidate == c
    ensures |findings| == if c.transaction.Some? || WaitingFinding(c, now).Some? then 1 else 0
    ensures forall f :: f in findings ==> Reports(f, c, journals, recovery, now)
  {
    findings, delegated := [], None;
    if c.transaction.None? {
      var waiting := WaitingFinding(c, now);
      WaitingBlocks(c, now);
      if waiting.Some? {
        findings := [waiting.value];
        assert findings[0] == waiting.value;
      }
      return;
    }
    var snapshot := FindJournal(journals, c.transaction.value);
    var held := if current.Some? then Some(current.value.id) else None;
    if snapshot.None? {
      var kind := if journals != [] then EvidenceMismatch else MissingJournal;
      findings := [Finding(kind, Some(c.task), c.run, held, c.transaction, ManualRecovery, true)];
      assert findings[0].blocks;
      return;
    }
    if !EvidenceMatches(c, snapshot.value) {
      findings := [Finding(EvidenceMismatch, Some(c.task), c.run, held, c.transaction, ManualRecovery, true)];
      assert findings[0].blocks;
      return;
    }
    var ours := recovery.Some? && recovery.value.task == c.task && Some(recovery.value.run) == c.run && snapshot.value.blocking;
    var lease := if recovery.Some? then Some(recovery.value.id) else None;
    findings := [Finding(NonterminalApply, Some(c.task), c.run, lease, c.transaction,
                         if ours then Delegate else RequestOwnership, snapshot.value.blocking)];
    assert findings[0].blocks <==> snapshot.value.blocking;
    if ours {
      delegated := Some(Delegation(c, snapshot.value, recovery.value));
    }
  }

  /** The finding about a candidate: a wait as `WaitingFinding` has it; an unfinished transaction that is
      delegated, or whose recovery has to be requested; or evidence that is missing or does not match. */
  predicate Reports(f: Finding, c: Candidate, journals: seq<Journal>, recovery: Option<L.Lease>, now: nat) {
    && f.task == Some(c.task) && f.run == c.run && f.transaction == c.transaction
    && (c.transaction.None? ==> WaitingFinding(c, now) == Some(f))
    && (c.transaction.Some? ==>
         && (f.blocks <==> !Clear(c, journals, now))
         && (f.kind.MissingJournal? <==> journals == [])
         && (f.kind.NonterminalApply? <==> HasMatch(c, journals))
         && (f.kind.EvidenceMismatch? <==> journals != [] && !HasMatch(c, journals))
         && (f.decision.Delegate? <==> MustDelegate(c, journals, recovery))
         && (f.decision.RequestOwnership? <==> HasMatch(c, journals) && !MustDelegate(c, journals, recovery))
         && (f.decision.ManualRecovery? <==> !HasMatch(c, journals)))
  }

  predicate HasMatch(c: Candidate, journals: seq<Journal>) {
    exists i :: 0 <= i < |journals| && c.transaction == Some(journals[i].transaction) && EvidenceMatches(c, journals[i])
  }

  /** The candidates to be recovered under a recovery lease, in order. */
  function ToRecover(candidates: seq<Candidate>, journals: seq<Journal>, recovery: Option<L.Lease>): seq<Candidate> {
    if candidates == [] then []
    else
      var n := |candidates| - 1;
      ToRecover(candidates[..n], journals, recovery)
      + (if MustDelegate(candidates[n], journals, recovery) then [candidates[n]] else [])
  }

  /** The candidates that the recovery coordinator was called for, in order. */
  function Served(delegations: seq<Delegation>): seq<Candidate> {
    seq(|delegations|, k requires 0 <= k < |delegations| => delegations[k].candidate)
  }

  lemma {:induction false} RecoveredAreDue(candidates: seq<Candidate>, journals: seq<Journal>, recovery: Option<L.Lease>)
    ensures forall c :: c in ToRecover(candidates, journals, recovery) <==>
                          c in candidates && MustDelegate(c, journals, recovery)
    ensures recovery.None? ==> ToRecover(candidates, journals, recovery) == []
  {
    hide MustDelegate;
    if candidates != [] {
      var n := |candidates| - 1;
      RecoveredAreDue(candidates[..n], journals, recovery);
      assert candidates == candidates[..n] + [candidates[n]];
      NoLeaseNoDuty(candidates[n], journals, recovery);
    }
  }

  lemma NoLeaseNoDuty(c: Candidate, journals: seq<Journal>, recovery: Option<L.Lease>)
    ensures recovery.None? ==> !MustDelegate(c, journals, recovery)
  {
  }

  method ReviewCandidates(candidates: seq<Candidate>, journals: seq<Journal>, current: Option<L.Lease>,
                          recovery: Option<L.Lease>, now: nat)
    returns (findings: seq<Finding>, delegations: seq<Delegation>)
    requires DistinctTransactions(journals)
    ensures AnyBlocks(findings) <==> exists i :: 0 <= i < |candidates| && !Clear(candidates[i], journals, now)
    ensures |findings| <= |candidates|
    ensures Told(findings, candidates, journals, recovery, now)
    ensures forall d :: d in delegations ==> Delegable(d, candidates, journals, recovery)
    ensures Served(delegations) == ToRecover(candidates, journals, recovery)
  {
    hide AnyBlocks, Clear, DistinctTransactions, EvidenceMatches, MustDelegate, Reports, WaitingFinding, Told, ToRecover,
      Served, Delegable;
    findings, delegations := [], [];
    NothingBlocks();
    NothingTold(journals, recovery, now);
    for i := 0 to |candidates|
      invariant AnyBlocks(findings) <==> exists j :: 0 <= j < i && !Clear(candidates[j], journals, now)
      invariant |findings| <= i
      invariant Told(findings, candidates[..i], journals, recovery, now)
      invariant forall d :: d in delegations ==> Delegable(d, candidates, journals, recovery)
      invariant Served(delegations) == ToRecover(candidates[..i], journals, recovery)
    {
      var more, delegated := ReviewCandidate(candidates[i], journals, current, recovery, now);
      BlocksAppend(findings, more);
      TellOneMore(findings, candidates[..i], more, candidates[i], journals, recovery, now);
      findings := findings + more;
      assert candidates[..i + 1] == candidates[..i] + [candidates[i]];
      ServeOneMore(candidates, i, journals, recovery, delegations, delegated);
      if delegated.Some? {
        delegations := delegations + [delegated.value];
      }
    }
    assert candidates[..|candidates|] == candidates;
  }

  lemma NothingTold(journals: seq<Journal>, recovery: Option<L.Lease>, now: nat)
    ensures Told([], [], journals, recovery, now)
    ensures Served([]) == ToRecover([], journals, recovery) == []
  {
  }

  lemma ServeOneMore(candidates: seq<Candidate>, i: nat, journals: seq<Journal>, recovery: Option<L.Lease>,
                     delegations: seq<Delegation>, delegated: Option<Delegation>)
    requires i < |candidates| && Served(delegations) == ToRecover(candidates[..i], journals, recovery)
    requires delegated.Some? <==> MustDelegate(candidates[i], journals, recovery)
    requires delegated.Some? ==> delegated.value.candidate == candidates[i]
    requires delegated.Some? ==> Delegable(delegated.value, [candidates[i]], journals, recovery)
    ensures delegated.Some? ==> Delegable(delegated.value, candidates, journals, recovery)
    ensures delegated.Some? ==>
              Served(delegations + [delegated.value]) == ToRecover(candidates[..i + 1], journals, recovery)
    ensures delegated.None? ==> Served(delegations) == ToRecover(candidates[..i + 1], journals, recovery)
  {
    hide MustDelegate, EvidenceMatches;
    assert candidates[..i + 1][..i] == candidates[..i];
    if delegated.Some? {
      assert Served(delegations + [delegated.value]) == Served(delegations) + [candidates[i]];
    }
  }

  /** Each finding is about a candidate, and each candidate with something to tell has one. */
  ghost predicate Told(findings: seq<Finding>, candidates: seq<Candidate>, journals: seq<Journal>,
                       recovery: Option<L.Lease>, now: nat)
  {
    && (forall f :: f in findings ==> exists c :: c in candidates && Reports(f, c, journals, recovery, now))
    && (forall c :: c in candidates && (c.transaction.Some? || WaitingFinding(c, now).Some?) ==>
         exists f :: f in findings && Reports(f, c, journals, recovery, now))
  }

  lemma TellOneMore(findings: seq<Finding>, candidates: seq<Candidate>, more: seq<Finding>, c: Candidate,
                    journals: seq<Journal>, recovery: Option<L.Lease>, now: nat)
    requires Told(findings, candidates, journals, recovery, now)
    requires |more| == if c.transaction.Some? || WaitingFinding(c, now).Some? then 1 else 0
    requires forall f :: f in more ==> Reports(f, c, journals, recovery, now)
    ensures Told(findings + more, candidates + [c], journals, recovery, now)
  {
    hide Reports, WaitingFinding;
    forall f | f in findings + more
      ensures exists d :: d in candidates + [c] && Reports(f, d, journals, recovery, now)
    {
      if f in findings {
        var d :| d in candidates && Reports(f, d, journals, recovery, now);
        assert d in candidates + [c];
      } else {
        assert c in candidates + [c];
      }
    }
    forall d | d in candidates + [c] && (d.transaction.Some? || WaitingFinding(d, now).Some?)
      ensures exists f :: f in findings + more && Reports(f, d, journals, recovery, now)
    {
      if d in candidates {
        var f :| f in findings && Reports(f, d, journals, recovery, now);
        assert f in findings + more;
      } else {
        assert more[0] in findings + more;
      }
    }
  }

  lemma NothingBlocks()
    ensures !AnyBlocks([])
  {
  }

  /** Journals that no candidate accounts for. */
  method ReviewOrphans(candidates: seq<Candidate>, journals: seq<Journal>) returns (findings: seq<Finding>)
    ensures AnyBlocks(findings) <==> exists i :: 0 <= i < |journals| && !Claimed(journals[i], candidates)
    ensures |findings| <= |journals|
    ensures forall f :: f in findings ==> exists j :: j in journals && ReportsOrphan(f, j, candidates)
    ensures forall j :: j in journals && !Claimed(j, candidates) ==>
              exists f :: f in findings && ReportsOrphan(f, j, candidates)
  {
    hide Claimed;
    findings := [];
    for i := 0 to |journals|
      invariant AnyBlocks(findings) <==> exists j :: 0 <= j < i && !Claimed(journals[j], candidates)
      invariant |findings| <= i
      invariant forall f :: f in findings ==> exists j :: j in journals && ReportsOrphan(f, j, candidates)
      invariant forall j :: 0 <= j < i && !Claimed(journals[j], candidates) ==>
                  exists f :: f in findings && ReportsOrphan(f, journals[j], candidates)
    {
      if !Claimed(journals[i], candidates) {
        var finding := Finding(EvidenceMismatch, None, None, None, Some(journals[i].transaction), ManualRecovery, true);
        BlocksAppend(findings, [finding]);
        assert [finding][0].blocks;
        assert journals[i] in journals && ReportsOrphan(finding, journals[i], candidates);
        findings := findings + [finding];
        assert findings[|findings| - 1] == finding;
      }
    }
  }

  /** The finding about a journal that no candidate accounts for. */
  predicate ReportsOrphan(f: Finding, j: Journal, candidates: seq<Candidate>) {
    && !Claimed(j, candidates)
    && f.kind.EvidenceMismatch? && f.decision.ManualRecovery? && f.blocks && f.transaction == Some(j.transaction)
  }

  /** Lock held and journals enumerated without a contradiction: the scan looks at everything. */
  predicate Reached(lockAcquired: bool, journals: Option<seq<Journal>>) {
    lockAcquired && journals.Some? && DistinctTransactions(journals.value)
  }

  /** Each finding is about a lease, container, candidate or journal, and each of these that has
      something to tell has a finding. */
  ghost predicate Accounts(findings: seq<Finding>, rows: map<string, L.Lease>, candidates: seq<Candidate>,
                           journals: seq<Journal>, containers: seq<Container>, taken: Option<L.Lease>, now: nat)
  {
    && (forall f :: f in findings ==>
         || (exists id :: id in rows && ReportsLease(f, rows[id]))
         || (exists c :: c in containers && ReportsContainer(f, c))
         || (exists c :: c in candidates && Reports(f, c, journals, taken, now))
         || (exists j :: j in journals && ReportsOrphan(f, j, candidates)))
    && (forall id :: id in rows && L.Open(rows[id]) ==> exists f :: f in findings && ReportsLease(f, rows[id]))
    && (forall c :: c in containers && !c.terminal ==> exists f :: f in findings && ReportsContainer(f, c))
    && (forall c :: c in candidates && (c.transaction.Some? || WaitingFinding(c, now).Some?) ==>
         exists f :: f in findings && Reports(f, c, journals, taken, now))
    && (forall j :: j in journals && !Claimed(j, candidates) ==>
         exists f :: f in findings && ReportsOrphan(f, j, candidates))
  }

  lemma AllAccounted(a: seq<Finding>, b: seq<Finding>, c: seq<Finding>, d: seq<Finding>, rows: map<string, L.Lease>,
                     candidates: seq<Candidate>, journals: seq<Journal>, containers: seq<Container>,
                     taken: Option<L.Lease>, now: nat)
    requires forall f :: f in a ==> exists id :: id in rows && ReportsLease(f, rows[id])
    requires forall id :: id in rows && L.Open(rows[id]) ==> exists f :: f in a && ReportsLease(f, rows[id])
    requires forall f :: f in b ==> exists x :: x in containers && ReportsContainer(f, x)
    requires forall x :: x in containers && !x.terminal ==> exists f :: f in b && ReportsContainer(f, x)
    requires Told(c, candidates, journals, taken, now)
    requires forall f :: f in d ==> exists j :: j in journals && ReportsOrphan(f, j, candidates)
    requires forall j :: j in journals && !Claimed(j, candidates) ==>
               exists f :: f in d && ReportsOrphan(f, j, candidates)
    ensures Accounts(a + b + c + d, rows, candidates, journals, containers, taken, now)
  {
    hide Reports, ReportsLease, ReportsContainer, ReportsOrphan, WaitingFinding, Claimed;
    var all := a + b + c + d;
    assert forall f :: f in all <==> f in a || f in b || f in c || f in d;
  }

  /** The whole scan. New work is permitted exactly when the gate is open. The open lease is taken over
      exactly when it is ripe and its task known, and then recovery is delegated for exactly the
      candidates of that task and run that have a matching, blocking journal. `taken` is that lease. */
  method Scan(service: L.LeaseService, lockAcquired: bool, candidates: seq<Candidate>, journals: Option<seq<Journal>>,
              containers: seq<Container>, now: nat, owner: string, leaseName: (string, string, nat) -> string)
    returns (r: Outcome<Report>, delegations: seq<Delegation>, ghost taken: Option<L.Lease>)
    requires service.Valid()
    modifies service
    ensures service.Valid() && L.Advances(old(service.rows), service.rows)
    ensures service.outages <= old(service.outages)
    ensures r.Ok? ==> (r.value.executionPermitted <==>
                        Gate(old(service.rows), lockAcquired, candidates, journals, containers, now))
    ensures r.Ok? ==> |r.value.findings| <= 1000
    ensures r.Ok? && Reached(lockAcquired, journals) ==>
              Accounts(r.value.findings, old(service.rows), candidates, journals.value, containers, taken, now)
    ensures service.outages == old(service.outages)
            && 1 + |containers| + |candidates| + (if journals.Some? then |journals.value| else 0) <= 1000
            ==> r.Ok?
    ensures !Reached(lockAcquired, journals) ==>
              && taken.None? && service.rows == old(service.rows) && r.Ok? && |r.value.findings| == 1
              && r.value.findings[0].kind == (if lockAcquired then EvidenceMismatch else DuplicateStartup)
              && r.value.findings[0].decision.ManualRecovery?
    ensures taken.Some? ==> FreshRecovery(old(service.rows), service.rows, taken.value, owner)
    ensures forall l :: FreshRecovery(old(service.rows), service.rows, l, owner) ==> taken == Some(l)
    ensures Served(delegations) == if taken.Some? then ToRecover(candidates, journals.value, taken) else []
    ensures forall d :: d in delegations ==> Delegable(d, candidates, journals.value, taken)
    ensures service.outages == old(service.outages) && Reached(lockAcquired, journals) ==>
              && (forall id :: id in old(service.rows) && L.Open(old(service.rows)[id]) ==>
                   && taken == Taken(old(service.rows), service.timeout, candidates, id, now, owner, leaseName)
                   && Reviewed(old(service.rows), service.rows, service.timeout, id, now, taken))
              && ((forall id :: id in old(service.rows) ==> !L.Open(old(service.rows)[id])) ==>
                   service.rows == old(service.rows) && taken.None?)
    ensures delegations != [] && r.Ok? ==> !r.value.executionPermitted
  {
    hide L.History, L.Advances, L.Lapsed, AnyBlocks, Clear, Claimed, EvidenceMatches, FreshRecovery, Reviewed, Taken,
      Told, Accounts, ReportsLease, ReportsContainer, ReportsOrphan, ToRecover, Delegable;
    L.AdvancesReflexive(service.rows);
    delegations, taken := [], None;
    NothingFresh(service.rows, owner);
    if !lockAcquired {
      r := MakeReport([Finding(DuplicateStartup, None, None, None, None, ManualRecovery, true)]);
      OneBlocks(Finding(DuplicateStartup, None, None, None, None, ManualRecovery, true));
      return;
    }
    if journals.None? {
      var first := if candidates == [] then None else Some(candidates[0]);
      var finding := Finding(EvidenceMismatch, if first.Some? then Some(first.value.task) else None,
                             if first.Some? then first.value.run else None, None,
                             if first.Some? then first.value.transaction else None, ManualRecovery, true);
      OneBlocks(finding);
      r := MakeReport([finding]);
      return;
    }
    if !DistinctTransactions(journals.value) {
      var finding := Finding(EvidenceMismatch, None, None, None, None, ManualRecovery, true);
      OneBlocks(finding);
      r := MakeReport([finding]);
      return;
    }
    ghost var before := service.rows;
    var reviewed, leaseFindings, current, recovery := ReviewLease(service, candidates, now, owner, leaseName);
    taken := recovery;
    OneFresh(before, service.rows, owner, taken);
    if !reviewed.Ok? {
      RecoveredAreDue(candidates, journals.value, None);
      return Raise(ValueError), delegations, taken;
    }
    var containerFindings := ReviewContainers(containers);
    var candidateFindings;
    candidateFindings, delegations := ReviewCandidates(candidates, journals.value, current, recovery, now);
    RecoveredAreDue(candidates, journals.value, recovery);
    var orphanFindings := ReviewOrphans(candidates, journals.value);
    BlocksAppend(leaseFindings, containerFindings);
    BlocksAppend(leaseFindings + containerFindings, candidateFindings);
    BlocksAppend(leaseFindings + containerFindings + candidateFindings, orphanFindings);
    AllAccounted(leaseFindings, containerFindings, candidateFindings, orphanFindings, before, candidates, journals.value,
                 containers, taken, now);
    r := MakeReport(leaseFindings + containerFindings + candidateFindings + orphanFindings);
    if delegations != [] {
      assert Served(delegations) != [];
      RecoveryMeansLease(before, service.rows, taken.value, owner);
    }
  }

  lemma NothingFresh(rows: map<string, L.Lease>, owner: string)
    ensures forall l :: !FreshRecovery(rows, rows, l, owner)
  {
  }

  lemma OneFresh(before: map<string, L.Lease>, after: map<string, L.Lease>, owner: string, taken: Option<L.Lease>)
    requires after.Keys == before.Keys + if taken.Some? then {taken.value.id} else {}
    requires taken.Some? ==> FreshRecovery(before, after, taken.value, owner)
    ensures forall l :: FreshRecovery(before, after, l, owner) ==> taken == Some(l)
  {
  }

  lemma OneBlocks(f: Finding)
    requires f.blocks
    ensures AnyBlocks([f])
  {
    assert [f][0].blocks;
  }

  lemma RecoveryMeansLease(before: map<string, L.Lease>, after: map<string, L.Lease>, l: L.Lease, owner: string)
    requires FreshRecovery(before, after, l, owner)
    ensures exists id :: id in before && L.Open(before[id])
  {
  }
}
