/** The single execution slot: leases in a table, changed by compare-and-swap on a revision. */
module Leases {
  import opened Wrappers

  datatype Purpose = Execution | RecoveryPurpose

  datatype Status = Active | RecoveryPending | Released

  /** What the caller of a release vouches for. */
  datatype Evidence = Evidence(containerTerminal: bool, fileEffectsTerminal: bool, cleanupVerified: bool)

  predicate PermitsRelease(e: Evidence) {
    e.containerTerminal && e.fileEffectsTerminal && e.cleanupVerified
  }

  datatype Lease = Lease(
    id: string,
    task: string,
    run: string,
    owner: string,
    purpose: Purpose,
    acquiredAt: nat,
    lastProgressAt: nat,
    phase: string,
    status: Status,
    revision: nat)

  /** How a lease came to its end. */
  datatype End = ByRelease(evidence: Evidence) | ByRecovery(successor: string)

  datatype Answer = Granted(lease: Lease) | Conflict | Unavailable | Invalid

  datatype Call =
    | Acquire(id: string, task: string, run: string, owner: string, phase: string, now: int)
    | Heartbeat(id: string, owner: string, revision: int, phase: string, now: int)
    | MarkExpired(now: int)
    | Release(id: string, owner: string, revision: int, evidence: Evidence, now: int)
    | AcquireRecovery(id: string, task: string, run: string, owner: string, phase: string, pendingRevision: int, now: int)

  predicate ValidIdentity(s: string) {
    s != "" && '\0' !in s
  }

  function Fresh(id: string, task: string, run: string, owner: string, purpose: Purpose, phase: string,
                 now: nat): Lease {
    Lease(id, task, run, owner, purpose, now, now, phase, Active, 1)
  }

  // ---- what changes a lease may undergo ----

  function Rank(s: Status): nat {
    match s
    case Active => 0
    case RecoveryPending => 1
    case Released => 2
  }

  predicate SameHolder(a: Lease, b: Lease) {
    a.(lastProgressAt := 0, phase := "", status := Active, revision := 0)
    == b.(lastProgressAt := 0, phase := "", status := Active, revision := 0)
  }

  /** A lease either stays or moves to a higher revision; it never goes back and never reopens. */
  predicate Moves(a: Lease, b: Lease) {
    && SameHolder(a, b)
    && Rank(a.status) <= Rank(b.status)
    && a.lastProgressAt <= b.lastProgressAt
    && (a == b || (a.revision < b.revision && !a.status.Released?))
  }

  ghost predicate Advances(before: map<string, Lease>, after: map<string, Lease>) {
    forall id :: id in before ==> id in after && Moves(before[id], after[id])
  }

  lemma AdvancesTransitive(a: map<string, Lease>, b: map<string, Lease>, c: map<string, Lease>)
    requires Advances(a, b) && Advances(b, c)
    ensures Advances(a, c)
  {
    forall id | id in a ensures id in c && Moves(a[id], c[id]) {
      assert Moves(a[id], b[id]) && Moves(b[id], c[id]);
    }
  }

  /** What an owner holding this revision of the lease can no longer do anything with. */
  predicate Superseded(rows: map<string, Lease>, id: string, revision: int) {
    id in rows && (revision < rows[id].revision || !rows[id].status.Active?)
  }

  /** Once superseded, always superseded. */
  lemma StaysSuperseded(before: map<string, Lease>, after: map<string, Lease>, id: string, revision: int)
    requires Advances(before, after) && Superseded(before, id, revision)
    ensures Superseded(after, id, revision)
  {
    assert Moves(before[id], after[id]);
  }

  // ---- the slot over its history ----

  ghost predicate Listed(rows: map<string, Lease>, order: seq<string>, ends: map<string, End>) {
    && (forall id :: id in rows <==> id in order)
    && (forall id :: id in ends ==> id in order)
    && (forall i, j :: 0 <= i < j < |order| ==> order[i] != order[j])
  }

  /** A well-formed row; only the newest lease may be open. */
  ghost predicate RowOk(l: Lease, id: string, newest: bool, ended: bool) {
    && l.id == id
    && 1 <= l.revision
    && l.acquiredAt <= l.lastProgressAt
    && (!newest ==> !Open(l))
    && (!Open(l) <==> ended)
  }

  ghost predicate Chain(rows: map<string, Lease>, order: seq<string>, ends: map<string, End>) {
    && Listed(rows, order, ends)
    && (forall i :: 0 <= i < |order| ==> RowOk(rows[order[i]], order[i], i == |order| - 1, order[i] in ends))
    && (forall i :: 0 < i < |order| ==> Follows(rows[order[i - 1]], ends[order[i - 1]], rows[order[i]]))
    && (order != [] ==> rows[order[0]].purpose.Execution?)
  }

  /** The leases in the order they were granted: each was open only while it was the newest, and the
      way it ended decided what could follow. */
  ghost predicate History(rows: map<string, Lease>, order: seq<string>, ends: map<string, End>) {
    && Chain(rows, order, ends)
    && (order != [] && order[|order| - 1] in ends ==> PermittedEnd(ends[order[|order| - 1]]))
  }

  /** Nothing but a recovery takes over from an expired lease, and nothing but a released one frees the slot. */
  predicate Follows(before: Lease, end: End, next: Lease) {
    match end
    case ByRelease(e) => PermitsRelease(e) && next.purpose.Execution?
    case ByRecovery(successor) =>
      && next.purpose.RecoveryPurpose? && next.id == successor
      && next.task == before.task && next.run == before.run
  }

  predicate PermittedEnd(end: End) {
    end.ByRelease? && PermitsRelease(end.evidence)
  }

  predicate Open(l: Lease) {
    !l.status.Released?
  }

  /** At most one lease is open at any time. */
  lemma OneOpen(rows: map<string, Lease>, order: seq<string>, ends: map<string, End>, a: string, b: string)
    requires Chain(rows, order, ends)
    requires a in rows && b in rows && Open(rows[a]) && Open(rows[b])
    ensures a == b && order[|order| - 1] == a
  {
    var i :| 0 <= i < |order| && order[i] == a;
    var j :| 0 <= j < |order| && order[j] == b;
    assert RowOk(rows[order[i]], order[i], i == |order| - 1, order[i] in ends);
    assert RowOk(rows[order[j]], order[j], j == |order| - 1, order[j] in ends);
  }

  /** An execution lease that is not the first follows a release with all three proofs. */
  lemma ExecutionFollowsRelease(rows: map<string, Lease>, order: seq<string>, ends: map<string, End>, i: nat)
    requires History(rows, order, ends) && 0 < i < |order| && rows[order[i]].purpose.Execution?
    ensures ends[order[i - 1]] == ByRelease(Evidence(true, true, true))
  {
    assert Follows(rows[order[i - 1]], ends[order[i - 1]], rows[order[i]]);
  }

  /** A recovery lease is never the first; the lease before it was the same task's and run's, ended by it. */
  lemma RecoverySucceedsItsOwn(rows: map<string, Lease>, order: seq<string>, ends: map<string, End>, i: nat)
    requires History(rows, order, ends) && i < |order| && rows[order[i]].purpose.RecoveryPurpose?
    ensures 0 < i && ends[order[i - 1]] == ByRecovery(order[i])
    ensures rows[order[i - 1]].task == rows[order[i]].task && rows[order[i - 1]].run == rows[order[i]].run
  {
    assert i > 0;
    assert Follows(rows[order[i - 1]], ends[order[i - 1]], rows[order[i]]);
  }

  /** `expired` holds the leases that ever expired: each waits for recovery or was ended by one. */
  ghost predicate Lapsed(rows: map<string, Lease>, ends: map<string, End>, expired: set<string>) {
    && (forall id :: id in expired ==>
         && id in rows && !rows[id].status.Active?
         && (rows[id].status.Released? ==> id in ends && ends[id].ByRecovery?))
    && (forall id :: id in rows && rows[id].status.RecoveryPending? ==> id in expired)
  }

  lemma RecoveryKeepsLapsed(rows: map<string, Lease>, ends: map<string, End>, expired: set<string>, closed: Lease,
                            next: Lease)
    requires Lapsed(rows, ends, expired) && closed.id in rows && rows[closed.id].status.RecoveryPending?
    requires closed.status.Released? && next.status.Active? && next.id !in rows
    ensures Lapsed(rows[closed.id := closed][next.id := next], ends[closed.id := ByRecovery(next.id)], expired)
  {
  }

  /** An expired lease is succeeded only by a recovery lease of the same task and run, and by nothing
      before it was taken over. */
  lemma ExpiredSucceeded(rows: map<string, Lease>, order: seq<string>, ends: map<string, End>, expired: set<string>,
                         i: nat)
    requires History(rows, order, ends) && Lapsed(rows, ends, expired)
    requires i + 1 < |order| && order[i] in expired
    ensures ends[order[i]] == ByRecovery(order[i + 1])
    ensures rows[order[i + 1]].purpose.RecoveryPurpose?
    ensures rows[order[i + 1]].task == rows[order[i]].task && rows[order[i + 1]].run == rows[order[i]].run
  {
    assert RowOk(rows[order[i]], order[i], i == |order| - 1, order[i] in ends);
    assert Follows(rows[order[i]], ends[order[i]], rows[order[i + 1]]);
    assert RowOk(rows[order[i + 1]], order[i + 1], i + 1 == |order| - 1, order[i + 1] in ends);
  }

  /** Putting a new lease at the end of the chain. */
  lemma GrantKeepsChain(rows: map<string, Lease>, order: seq<string>, ends: map<string, End>, l: Lease)
    requires Chain(rows, order, ends) && l.id !in rows && RowOk(l, l.id, true, false)
    requires order == [] ==> l.purpose.Execution?
    requires order != [] ==>
               order[|order| - 1] in ends && Follows(rows[order[|order| - 1]], ends[order[|order| - 1]], l)
    ensures Chain(rows[l.id := l], order + [l.id], ends)
  {
    hide Follows;
    var longer := order + [l.id];
    var after := rows[l.id := l];
    assert l.id !in order;
    forall i | 0 <= i < |longer|
      ensures RowOk(after[longer[i]], longer[i], i == |longer| - 1, longer[i] in ends)
      ensures 0 < i ==> Follows(after[longer[i - 1]], ends[longer[i - 1]], after[longer[i]])
    {
      if i < |order| {
        assert RowOk(rows[order[i]], order[i], i == |order| - 1, order[i] in ends);
      }
    }
  }

  /** Rewriting the newest lease, which may close it. */
  lemma ChangeKeepsChain(rows: map<string, Lease>, order: seq<string>, ends: map<string, End>, l: Lease,
                         closed: map<string, End>)
    requires Chain(rows, order, ends) && l.id in rows && Open(rows[l.id]) && Moves(rows[l.id], l)
    requires Open(l) ==> closed == ends
    requires !Open(l) ==> l.id in closed && closed == ends[l.id := closed[l.id]]
    ensures Chain(rows[l.id := l], order, closed)
    ensures order != [] && order[|order| - 1] == l.id
  {
    OneOpen(rows, order, ends, l.id, l.id);
    var n := |order| - 1;
    var after := rows[l.id := l];
    forall i | 0 <= i < |order|
      ensures RowOk(after[order[i]], order[i], i == n, order[i] in closed)
      ensures 0 < i ==> Follows(after[order[i - 1]], closed[order[i - 1]], after[order[i]])
    {
      assert RowOk(rows[order[i]], order[i], i == n, order[i] in ends);
      if 0 < i {
        assert Follows(rows[order[i - 1]], ends[order[i - 1]], rows[order[i]]);
      }
    }
  }

  lemma OneAdvances(rows: map<string, Lease>, l: Lease)
    requires l.id in rows ==> Moves(rows[l.id], l)
    ensures Advances(rows, rows[l.id := l])
  {
  }

  /** Granting an execution lease while the slot is free. */
  lemma GrantKeepsHistory(rows: map<string, Lease>, order: seq<string>, ends: map<string, End>, l: Lease)
    requires History(rows, order, ends) && l.id !in rows && RowOk(l, l.id, true, false) && l.purpose.Execution?
    requires forall id :: id in rows ==> !Open(rows[id])
    ensures History(rows[l.id := l], order + [l.id], ends)
    ensures Advances(rows, rows[l.id := l])
  {
    if order != [] {
      var n := |order| - 1;
      assert RowOk(rows[order[n]], order[n], true, order[n] in ends);
      assert order[n] in rows;
    }
    GrantKeepsChain(rows, order, ends, l);
    OneAdvances(rows, l);
  }

  /** Changing the open lease without closing it. */
  lemma ChangeKeepsHistory(rows: map<string, Lease>, order: seq<string>, ends: map<string, End>, l: Lease)
    requires History(rows, order, ends) && l.id in rows && Open(rows[l.id]) && Open(l) && Moves(rows[l.id], l)
    ensures History(rows[l.id := l], order, ends)
    ensures Advances(rows, rows[l.id := l])
  {
    ChangeKeepsChain(rows, order, ends, l, ends);
    OneAdvances(rows, l);
  }

  /** Closing the open lease with a permitted release. */
  lemma ReleaseKeepsHistory(rows: map<string, Lease>, order: seq<string>, ends: map<string, End>, l: Lease, end: End)
    requires History(rows, order, ends) && l.id in rows && Open(rows[l.id]) && !Open(l) && Moves(rows[l.id], l)
    requires PermittedEnd(end)
    ensures History(rows[l.id := l], order, ends[l.id := end])
    ensures Advances(rows, rows[l.id := l])
  {
    ChangeKeepsChain(rows, order, ends, l, ends[l.id := end]);
    OneAdvances(rows, l);
  }

  /** Closing an expired lease and granting its recovery in one transaction. */
  lemma RecoveryKeepsHistory(rows: map<string, Lease>, order: seq<string>, ends: map<string, End>, l: Lease,
                             next: Lease)
    requires History(rows, order, ends) && l.id in rows && Open(rows[l.id]) && !Open(l) && Moves(rows[l.id], l)
    requires next.id !in rows && RowOk(next, next.id, true, false)
    requires next.purpose.RecoveryPurpose? && next.task == l.task && next.run == l.run
    ensures History(rows[l.id := l][next.id := next], order + [next.id], ends[l.id := ByRecovery(next.id)])
    ensures Advances(rows, rows[l.id := l][next.id := next])
  {
    var closed := ends[l.id := ByRecovery(next.id)];
    ChangeKeepsChain(rows, order, ends, l, closed);
    GrantKeepsChain(rows[l.id := l], order, closed, next);
    OneAdvances(rows, l);
    OneAdvances(rows[l.id := l], next);
    AdvancesTransitive(rows, rows[l.id := l], rows[l.id := l][next.id := next]);
    NotYetEnded(rows, order, ends, next.id);
  }

  lemma NotYetEnded(rows: map<string, Lease>, order: seq<string>, ends: map<string, End>, id: string)
    requires Chain(rows, order, ends) && id !in rows
    ensures id !in ends
  {
  }

  // ---- what a call may do ----

  predicate ValidArguments(c: Call) {
    match c
    case Acquire(id, task, run, owner, _, now) =>
      ValidIdentity(id) && ValidIdentity(task) && ValidIdentity(run) && ValidIdentity(owner) && 0 <= now
    case Heartbeat(id, owner, revision, _, now) => ValidIdentity(id) && ValidIdentity(owner) && 1 <= revision && 0 <= now
    case MarkExpired(now) => 0 <= now
    case Release(id, owner, revision, _, now) => ValidIdentity(id) && ValidIdentity(owner) && 1 <= revision && 0 <= now
    case AcquireRecovery(id, task, run, owner, _, revision, now) =>
      && ValidIdentity(id) && ValidIdentity(task) && ValidIdentity(run) && ValidIdentity(owner)
      && 1 <= revision && 0 <= now
  }

  /** The conditions of a grant. */
  predicate CanAcquire(rows: map<string, Lease>, tasks: set<string>, c: Call)
    requires c.Acquire?
  {
    && (forall id :: id in rows ==> !Open(rows[id]))
    && c.id !in rows && c.task in tasks
  }

  /** The lease is open, active, at this revision and its owner's, and time has not gone back. */
  predicate Holds(rows: map<string, Lease>, id: string, owner: string, revision: int, now: int) {
    && id in rows && rows[id].status.Active?
    && rows[id].owner == owner && rows[id].revision == revision && rows[id].lastProgressAt <= now
  }

  /** An active lease without progress for longer than the timeout. */
  predicate Expired(rows: map<string, Lease>, timeout: nat, id: string, now: int) {
    id in rows && rows[id].status.Active? && now - rows[id].lastProgressAt > timeout
  }

  /** Lease `id` waits for recovery by this task and run, at this revision. */
  predicate Awaits(rows: map<string, Lease>, id: string, c: Call)
    requires c.AcquireRecovery?
  {
    && id in rows && rows[id].status.RecoveryPending?
    && rows[id].task == c.task && rows[id].run == c.run && rows[id].revision == c.pendingRevision
    && c.id !in rows
  }

  /** The lease a call is about, if the table permits the call. */
  predicate Permits(rows: map<string, Lease>, tasks: set<string>, timeout: nat, c: Call, id: string) {
    match c
    case Acquire(_, _, _, _, _, _) => id == c.id && CanAcquire(rows, tasks, c)
    case Heartbeat(_, _, _, _, _) => id == c.id && Holds(rows, id, c.owner, c.revision, c.now)
    case MarkExpired(_) => Expired(rows, timeout, id, c.now)
    case Release(_, _, _, _, _) => id == c.id && PermitsRelease(c.evidence) && Holds(rows, id, c.owner, c.revision, c.now)
    case AcquireRecovery(_, _, _, _, _, _, _) => Awaits(rows, id, c)
  }

  /** The table and the lease after a permitted call about lease `id`. */
  ghost predicate Does(before: map<string, Lease>, after: map<string, Lease>, c: Call, id: string, l: Lease)
    requires ValidArguments(c) && (!c.Acquire? ==> id in before)
  {
    match c
    case Acquire(_, _, _, _, _, _) =>
      && l == Fresh(c.id, c.task, c.run, c.owner, Execution, c.phase, c.now)
      && after == before[c.id := l]
    case Heartbeat(_, _, _, _, _) =>
      && l == before[id].(lastProgressAt := c.now, phase := c.phase, revision := c.revision + 1)
      && after == before[id := l]
    case MarkExpired(_) =>
      && l == before[id].(status := RecoveryPending, revision := before[id].revision + 1)
      && after == before[id := l]
    case Release(_, _, _, _, _) =>
      && l == before[id].(status := Released, revision := c.revision + 1)
      && after == before[id := l]
    case AcquireRecovery(_, _, _, _, _, _, _) =>
      && l == Fresh(c.id, c.task, c.run, c.owner, RecoveryPurpose, c.phase, c.now)
      && after == before[id := before[id].(status := Released, revision := c.pendingRevision + 1)][c.id := l]
  }

  /** What one call does to the table, and when: granted exactly if permitted, unless the store fails. */
  ghost predicate Stepped(before: map<string, Lease>, after: map<string, Lease>, tasks: set<string>, timeout: nat,
                          c: Call, r: Answer)
  {
    match r
    case Invalid => !ValidArguments(c) && after == before
    case Unavailable => ValidArguments(c) && after == before
    case Conflict => ValidArguments(c) && after == before && forall id :: !Permits(before, tasks, timeout, c, id)
    case Granted(l) =>
      ValidArguments(c) && exists id :: Permits(before, tasks, timeout, c, id) && Does(before, after, c, id, l)
  }

  // ---- the service ----

  /** The table and the services that share it. Each call is one immediate transaction: it is carried
      out whole, or an error of the store leaves the table as it was. */
  class LeaseService {
    var rows: map<string, Lease>
    const tasks: set<string>
    const timeout: nat
    /** How often the store will still fail at most. */
    var outages: nat
    ghost var order: seq<string>
    ghost var ends: map<string, End>
    ghost var expired: set<string>

    constructor (tasks: set<string>, timeout: nat, outages: nat)
      ensures Valid() && rows == map[] && order == [] && expired == {}
      ensures this.tasks == tasks && this.timeout == timeout && this.outages == outages
    {
      this.tasks := tasks;
      this.timeout := timeout;
      this.outages := outages;
      rows := map[];
      order := [];
      ends := map[];
      expired := {};
    }

    ghost predicate Valid()
      reads this
    {
      History(rows, order, ends) && Lapsed(rows, ends, expired)
    }

    /** Reads the open lease. The table never holds two. */
    method OpenLease() returns (open: Option<Lease>)
      requires Valid()
      ensures open.Some? ==> open.value.id in rows && rows[open.value.id] == open.value && Open(open.value)
      ensures open.Some? ==> 1 <= open.value.revision
      ensures open.None? ==> forall id :: id in rows ==> !Open(rows[id])
      ensures open.Some? ==> forall id :: id in rows && id != open.value.id ==> !Open(rows[id])
    {
      var found := set id | id in rows && Open(rows[id]);
      if found == {} {
        forall id | id in rows ensures !Open(rows[id]) {
          assert id !in found;
        }
        return None;
      }
      var id :| id in found;
      forall other | other in rows && other != id ensures !Open(rows[other]) {
        if Open(rows[other]) {
          OneOpen(rows, order, ends, id, other);
        }
      }
      return Some(rows[id]);
    }

    /** Whether the store fails a call. */
    method Fails() returns (failed: bool)
      modifies this`outages
      ensures outages == if failed then old(outages) - 1 else old(outages)
    {
      failed := *;
      if outages == 0 {
        return false;
      }
      if failed {
        outages := outages - 1;
      }
    }

    method DoAcquire(c: Call) returns (r: Answer)
      requires Valid() && c.Acquire?
      modifies this
      ensures Valid() && Advances(old(rows), rows) && old(expired) <= expired
      ensures r.Invalid? <==> !ValidArguments(c)
      ensures outages == if r.Unavailable? then old(outages) - 1 else old(outages)
      ensures r.Granted? ==>
              && CanAcquire(old(rows), tasks, c)
              && r.lease == Fresh(c.id, c.task, c.run, c.owner, Execution, c.phase, c.now)
              && rows == old(rows)[c.id := r.lease]
      ensures r.Conflict? ==> !CanAcquire(old(rows), tasks, c)
      ensures !r.Granted? ==> rows == old(rows)
    {
      hide History, Advances;
      AdvancesReflexive(rows);
      if !ValidArguments(c) {
        return Invalid;
      }
      var failed := Fails();
      if failed {
        return Unavailable;
      }
      var open := OpenLease();
      if open.Some? || c.id in rows || c.task !in tasks {
        return Conflict;
      }
      var l := Fresh(c.id, c.task, c.run, c.owner, Execution, c.phase, c.now);
      GrantKeepsHistory(rows, order, ends, l);
      rows := rows[c.id := l];
      order := order + [c.id];
      return Granted(l);
    }

    method DoHeartbeat(c: Call) returns (r: Answer)
      requires Valid() && c.Heartbeat?
      modifies this
      ensures Valid() && Advances(old(rows), rows) && old(expired) <= expired
      ensures r.Invalid? <==> !ValidArguments(c)
      ensures outages == if r.Unavailable? then old(outages) - 1 else old(outages)
      ensures r.Granted? ==>
              && Holds(old(rows), c.id, c.owner, c.revision, c.now)
              && r.lease == old(rows)[c.id].(lastProgressAt := c.now, phase := c.phase, revision := c.revision + 1)
              && rows == old(rows)[c.id := r.lease]
      ensures r.Conflict? ==> !Holds(old(rows), c.id, c.owner, c.revision, c.now)
      ensures !r.Granted? ==> rows == old(rows)
    {
      hide History, Advances;
      AdvancesReflexive(rows);
      if !ValidArguments(c) {
        return Invalid;
      }
      var failed := Fails();
      if failed {
        return Unavailable;
      }
      var open := OpenLease();
      if open.None? || !open.value.status.Active? || open.value.id != c.id || open.value.owner != c.owner
         || open.value.revision != c.revision || c.now < open.value.lastProgressAt {
        return Conflict;
      }
      var l := open.value.(lastProgressAt := c.now, phase := c.phase, revision := open.value.revision + 1);
      ChangeKeepsHistory(rows, order, ends, l);
      rows := rows[c.id := l];
      return Granted(l);
    }

    method DoMarkExpired(c: Call) returns (r: Answer)
      requires Valid() && c.MarkExpired?
      modifies this
      ensures Valid() && Advances(old(rows), rows) && old(expired) <= expired
      ensures r.Invalid? <==> !ValidArguments(c)
      ensures outages == if r.Unavailable? then old(outages) - 1 else old(outages)
      ensures r.Granted? ==>
              && Expired(old(rows), timeout, r.lease.id, c.now)
              && r.lease == old(rows)[r.lease.id].(status := RecoveryPending, revision := old(rows)[r.lease.id].revision + 1)
              && rows == old(rows)[r.lease.id := r.lease]
      ensures r.Granted? ==> r.lease.id in expired
      ensures r.Conflict? ==> forall id :: id in rows ==> !Expired(old(rows), timeout, id, c.now)
      ensures !r.Granted? ==> rows == old(rows)
    {
      hide History, Advances;
      AdvancesReflexive(rows);
      if !ValidArguments(c) {
        return Invalid;
      }
      var failed := Fails();
      if failed {
        return Unavailable;
      }
      var open := OpenLease();
      if open.None? || !open.value.status.Active? || c.now - open.value.lastProgressAt <= timeout {
        return Conflict;
      }
      var l := open.value.(status := RecoveryPending, revision := open.value.revision + 1);
      ChangeKeepsHistory(rows, order, ends, l);
      rows := rows[l.id := l];
      expired := expired + {l.id};
      return Granted(l);
    }

    method DoRelease(c: Call) returns (r: Answer)
      requires Valid() && c.Release?
      modifies this
      ensures Valid() && Advances(old(rows), rows) && old(expired) <= expired
      ensures r.Invalid? <==> !ValidArguments(c)
      ensures outages == if r.Unavailable? then old(outages) - 1 else old(outages)
      ensures r.Granted? ==>
              && PermitsRelease(c.evidence) && Holds(old(rows), c.id, c.owner, c.revision, c.now)
              && r.lease == old(rows)[c.id].(status := Released, revision := c.revision + 1)
              && rows == old(rows)[c.id := r.lease]
      ensures r.Conflict? ==> !PermitsRelease(c.evidence) || !Holds(old(rows), c.id, c.owner, c.revision, c.now)
      ensures !r.Granted? ==> rows == old(rows)
    {
      hide History, Advances;
      AdvancesReflexive(rows);
      if !ValidArguments(c) {
        return Invalid;
      }
      if !PermitsRelease(c.evidence) {
        return Conflict;
      }
      var failed := Fails();
      if failed {
        return Unavailable;
      }
      var open := OpenLease();
      if open.None? || !open.value.status.Active? || open.value.id != c.id || open.value.owner != c.owner
         || open.value.revision != c.revision || c.now < open.value.lastProgressAt {
        return Conflict;
      }
      var l := open.value.(status := Released, revision := open.value.revision + 1);
      ReleaseKeepsHistory(rows, order, ends, l, ByRelease(c.evidence));
      rows := rows[c.id := l];
      ends := ends[c.id := ByRelease(c.evidence)];
      return Granted(l);
    }

    method DoAcquireRecovery(c: Call) returns (r: Answer, ghost pending: string)
      requires Valid() && c.AcquireRecovery?
      modifies this
      ensures Valid() && Advances(old(rows), rows) && old(expired) <= expired
      ensures r.Invalid? <==> !ValidArguments(c)
      ensures outages == if r.Unavailable? then old(outages) - 1 else old(outages)
      ensures r.Granted? ==>
              && Awaits(old(rows), pending, c)
              && r.lease == Fresh(c.id, c.task, c.run, c.owner, RecoveryPurpose, c.phase, c.now)
              && rows == old(rows)[pending := old(rows)[pending].(status := Released, revision := c.pendingRevision + 1)]
                                  [c.id := r.lease]
      ensures r.Conflict? ==> forall id :: id in rows ==> !Awaits(old(rows), id, c)
      ensures !r.Granted? ==> rows == old(rows)
    {
      hide History, Advances, Lapsed;
      AdvancesReflexive(rows);
      pending := "";
      if !ValidArguments(c) {
        return Invalid, pending;
      }
      var failed := Fails();
      if failed {
        return Unavailable, pending;
      }
      var open := OpenLease();
      if open.None? || !open.value.status.RecoveryPending? || open.value.task != c.task || open.value.run != c.run
         || open.value.revision != c.pendingRevision || open.value.id == c.id || c.id in rows {
        return Conflict, pending;
      }
      var closed := open.value.(status := Released, revision := open.value.revision + 1);
      var next := Fresh(c.id, c.task, c.run, c.owner, RecoveryPurpose, c.phase, c.now);
      pending := closed.id;
      RecoveryKeepsHistory(rows, order, ends, closed, next);
      RecoveryKeepsLapsed(rows, ends, expired, closed, next);
      rows := rows[closed.id := closed][c.id := next];
      order := order + [c.id];
      ends := ends[closed.id := ByRecovery(c.id)];
      return Granted(next), pending;
    }

    method Step(c: Call) returns (r: Answer)
      requires Valid()
      modifies this
      ensures Valid() && Advances(old(rows), rows) && old(expired) <= expired
      ensures outages == if r.Unavailable? then old(outages) - 1 else old(outages)
      ensures Stepped(old(rows), rows, tasks, timeout, c, r)
      ensures c.Heartbeat? && Superseded(old(rows), c.id, c.revision) ==> !r.Granted?
      ensures c.Release? && Superseded(old(rows), c.id, c.revision) ==> !r.Granted?
      ensures c.Release? && !PermitsRelease(c.evidence) ==> !r.Granted?
    {
      hide History, Advances;
      ghost var subject: string;
      match c {
        case Acquire(_, _, _, _, _, _) => r := DoAcquire(c); subject := c.id;
        case Heartbeat(_, _, _, _, _) => r := DoHeartbeat(c); subject := c.id;
        case MarkExpired(_) => r := DoMarkExpired(c); subject := if r.Granted? then r.lease.id else "";
        case Release(_, _, _, _, _) => r := DoRelease(c); subject := c.id;
        case AcquireRecovery(_, _, _, _, _, _, _) =>
          r, subject := DoAcquireRecovery(c);
      }
      assert r.Granted? ==> Permits(old(rows), tasks, timeout, c, subject) && Does(old(rows), rows, c, subject, r.lease);
    }
  }

  /** Any number of owners calling in any order. The history stays as it must be, every lease only
      moves forward, and a superseded owner never gets a heartbeat or a release through again. `tables`
      is the table before each call and at the end: every call was granted exactly if it was permitted. */
  method Interleaving(service: LeaseService, calls: seq<Call>, ghost stale: string, ghost revision: int)
    returns (answers: seq<Answer>, ghost tables: seq<map<string, Lease>>)
    requires service.Valid()
    modifies service
    ensures service.Valid() && Advances(old(service.rows), service.rows) && old(service.expired) <= service.expired
    ensures |answers| == |calls| && |tables| == |calls| + 1
    ensures tables[0] == old(service.rows) && tables[|calls|] == service.rows
    ensures forall i :: 0 <= i < |calls| ==>
              Stepped(tables[i], tables[i + 1], service.tasks, service.timeout, calls[i], answers[i])
    ensures old(service.outages) == 0 ==> forall i :: 0 <= i < |calls| ==> !answers[i].Unavailable?
    ensures old(Superseded(service.rows, stale, revision)) ==>
              forall i :: 0 <= i < |calls| && answers[i].Granted? ==>
                !(calls[i].Heartbeat? && calls[i].id == stale && calls[i].revision <= revision)
                && !(calls[i].Release? && calls[i].id == stale && calls[i].revision <= revision)
  {
    hide History, Advances, Stepped, Lapsed;
    answers, tables := [], [service.rows];
    AdvancesReflexive(service.rows);
    for k := 0 to |calls|
      invariant service.Valid() && Advances(old(service.rows), service.rows) && old(service.expired) <= service.expired
      invariant |answers| == k && |tables| == k + 1
      invariant tables[0] == old(service.rows) && tables[k] == service.rows
      invariant forall i :: 0 <= i < k ==>
                  Stepped(tables[i], tables[i + 1], service.tasks, service.timeout, calls[i], answers[i])
      invariant old(service.outages) == 0 ==> service.outages == 0
      invariant old(service.outages) == 0 ==> forall i :: 0 <= i < k ==> !answers[i].Unavailable?
      invariant old(Superseded(service.rows, stale, revision)) ==>
                  forall i :: 0 <= i < k && answers[i].Granted? ==>
                    !(calls[i].Heartbeat? && calls[i].id == stale && calls[i].revision <= revision)
                    && !(calls[i].Release? && calls[i].id == stale && calls[i].revision <= revision)
    {
      ghost var before := service.rows;
      if old(Superseded(service.rows, stale, revision)) {
        StaysSuperseded(old(service.rows), service.rows, stale, revision);
      }
      var r := service.Step(calls[k]);
      AdvancesTransitive(old(service.rows), before, service.rows);
      answers, tables := answers + [r], tables + [service.rows];
    }
  }

  lemma AdvancesReflexive(rows: map<string, Lease>)
    ensures Advances(rows, rows)
  {
  }
}
