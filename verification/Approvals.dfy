/** Approvals: single-use permissions in a versioned table, used by clients that hold old copies. */
module Approvals {
  import opened Wrappers

  /** Everything an approval is bound to besides its lifecycle. */
  datatype Terms = Terms(
    kind: string,
    target: string,
    expectedState: string,
    planVersion: string,
    contractVersion: Option<string>,
    policyIdentity: string,
    policyDigest: string,
    reason: string,
    details: seq<Option<string>>)

  datatype Approval = Approval(
    identity: string,
    revision: nat,
    task: string,
    key: string,
    requestDigest: string,
    terms: Terms,
    createdAt: nat,
    expiresAt: nat,
    consumedAt: Option<nat>,
    revokedAt: Option<nat>)

  /** The situation in which an approval is used. */
  datatype Context = Context(task: string, key: string, requestDigest: string, terms: Terms)

  datatype Reference = Reference(identity: string, revision: nat)

  predicate Pending(a: Approval) {
    a.consumedAt.None? && a.revokedAt.None?
  }

  /** `bound` stands for the checks of an approval against its plan and the trusted policy record. */
  predicate Creatable(a: Approval, bound: Approval -> bool) {
    Pending(a) && bound(a)
  }

  predicate Matches(c: Context, a: Approval) {
    c.task == a.task && c.key == a.key && c.requestDigest == a.requestDigest && c.terms == a.terms
  }

  /** The consumed record, or nothing on a conflict. */
  function ConsumeApproval(current: Approval, expectedRevision: int, presented: Reference, context: Context,
                           bound: Approval -> bool, now: int): (r: Option<Approval>)
    ensures r.Some? <==> current.consumedAt.None? && current.revokedAt.None? && bound(current)
                         && presented == Reference(current.identity, current.revision)
                         && expectedRevision == current.revision
                         && context == Context(current.task, current.key, current.requestDigest, current.terms)
                         && current.createdAt <= now < current.expiresAt
    ensures r.Some? ==> r.value.consumedAt == Some(now) && r.value.revision == current.revision + 1
                        && r.value.(revision := current.revision, consumedAt := None) == current
  {
    if !Creatable(current, bound) || presented.identity != current.identity || presented.revision != current.revision
       || expectedRevision != current.revision || !Matches(context, current)
       || !(current.createdAt <= now < current.expiresAt) then None
    else Some(current.(revision := current.revision + 1, consumedAt := Some(now)))
  }

  function RevokeApproval(a: Approval, at: nat): (r: Option<Approval>)
    ensures r.Some? <==> a.consumedAt.None? && a.revokedAt.None?
    ensures r.Some? ==> r.value.revokedAt == Some(at) && r.value.revision == a.revision + 1
                        && r.value.(revision := a.revision, revokedAt := None) == a
  {
    if !Pending(a) then None else Some(a.(revision := a.revision + 1, revokedAt := Some(at)))
  }

  // ---- the table ----

  type Rows = map<Reference, Approval>

  predicate WellKeyed(rows: Rows) {
    forall k :: k in rows ==> k == Reference(rows[k].identity, rows[k].revision)
  }

  /** The row of an identity with the highest revision. */
  predicate Latest(rows: Rows, k: Reference) {
    k in rows && forall j :: j in rows && j.identity == k.identity ==> j.revision <= k.revision
  }

  function KeyOf(a: Approval): Reference {
    Reference(a.identity, a.revision)
  }

  predicate SameIntent(a: Approval, b: Approval) {
    a.task == b.task && a.key == b.key
  }

  // ---- what one call does ----

  datatype Call =
    | Record(approval: Approval)
    | Consume(copy: Reference, expectedRevision: int, presented: Reference, context: Context, now: int)
    | Revoke(copy: Reference, at: nat)

  /** The table, and the consumptions and revocations that were committed. */
  datatype Store = Store(rows: Rows, commits: multiset<string>)

  /** A recording is accepted when nothing has its task and idempotency key, nor its row. */
  predicate Recordable(rows: Rows, a: Approval, tasks: set<string>) {
    && (forall k :: k in rows ==> !SameIntent(rows[k], a))
    && KeyOf(a) !in rows && a.task in tasks
  }

  /** The next version a client makes of its copy. */
  function NextVersion(rows: Rows, c: Call, bound: Approval -> bool): Option<Approval>
    requires !c.Record?
  {
    if c.copy !in rows then None
    else if c.Consume? then ConsumeApproval(rows[c.copy], c.expectedRevision, c.presented, c.context, bound, c.now)
    else RevokeApproval(rows[c.copy], c.at)
  }

  /** The store after a call that meets no error of the database. */
  function Next(s: Store, c: Call, tasks: set<string>, bound: Approval -> bool): Store {
    if c.Record? then
      if Recordable(s.rows, c.approval, tasks) then s.(rows := s.rows[KeyOf(c.approval) := c.approval]) else s
    else
      var next := NextVersion(s.rows, c, bound);
      if next.None? || !Latest(s.rows, c.copy) then s
      else Store(s.rows[KeyOf(next.value) := next.value], s.commits + multiset{c.copy.identity})
  }

  function After(s: Store, calls: seq<Call>, tasks: set<string>, bound: Approval -> bool): Store {
    if calls == [] then s else Next(After(s, calls[..|calls| - 1], tasks, bound), calls[|calls| - 1], tasks, bound)
  }

  // ---- when an identity can be used again ----

  /** The latest row of the identity is consumed or revoked. */
  predicate Spent(rows: Rows, identity: string) {
    exists k :: k in rows && k.identity == identity && Latest(rows, k) && !Pending(rows[k])
  }

  predicate SingleUse(s: Store) {
    forall id :: id in s.commits ==> s.commits[id] <= 1
  }

  /** No identity was used twice, and none that was used can be used again as the table stands. */
  predicate Safe(s: Store) {
    && WellKeyed(s.rows)
    && forall id :: id in s.commits ==> s.commits[id] == 1 && Spent(s.rows, id)
  }

  /** The call records a pending row above all rows of an identity that was already used. */
  predicate Reopens(s: Store, c: Call, tasks: set<string>) {
    && c.Record? && Recordable(s.rows, c.approval, tasks)
    && Pending(c.approval) && c.approval.identity in s.commits
    && forall k :: k in s.rows && k.identity == c.approval.identity ==> k.revision < c.approval.revision
  }

  lemma SpentIsClosed(rows: Rows, k: Reference)
    requires Latest(rows, k)
    ensures Spent(rows, k.identity) <==> !Pending(rows[k])
  {
  }

  lemma OthersSpent(rows: Rows, a: Approval, id: string)
    requires KeyOf(a) !in rows && id != a.identity && Spent(rows, id)
    ensures Spent(rows[KeyOf(a) := a], id)
  {
    var k :| k in rows && k.identity == id && Latest(rows, k) && !Pending(rows[k]);
    assert Latest(rows[KeyOf(a) := a], k);
  }

  lemma TopSpent(rows: Rows, a: Approval)
    requires !Pending(a) && forall k :: k in rows && k.identity == a.identity ==> k.revision < a.revision
    ensures Spent(rows[KeyOf(a) := a], a.identity)
  {
    assert Latest(rows[KeyOf(a) := a], KeyOf(a));
  }

  lemma BelowSpent(rows: Rows, a: Approval, k: Reference)
    requires KeyOf(a) !in rows && Latest(rows, k) && !Pending(rows[k]) && k.identity == a.identity
    requires a.revision < k.revision
    ensures Spent(rows[KeyOf(a) := a], a.identity)
  {
    assert Latest(rows[KeyOf(a) := a], k);
  }

  lemma RecordKeepsSafe(s: Store, a: Approval, tasks: set<string>)
    requires Safe(s) && Recordable(s.rows, a, tasks) && !Reopens(s, Record(a), tasks)
    ensures Safe(s.(rows := s.rows[KeyOf(a) := a]))
  {
    var rows := s.rows;
    forall id | id in s.commits ensures Spent(rows[KeyOf(a) := a], id) {
      if id != a.identity {
        OthersSpent(rows, a, id);
      } else {
        var k :| k in rows && k.identity == id && Latest(rows, k) && !Pending(rows[k]);
        if a.revision < k.revision {
          BelowSpent(rows, a, k);
        } else {
          assert k.revision != a.revision;
          TopSpent(rows, a);
        }
      }
    }
  }

  /** A committed use is of a pending latest row, so of an identity never used before. */
  lemma UseKeepsSafe(s: Store, c: Call, bound: Approval -> bool)
    requires Safe(s) && !c.Record? && NextVersion(s.rows, c, bound).Some? && Latest(s.rows, c.copy)
    ensures c.copy.identity !in s.commits
    ensures Safe(Next(s, c, {}, bound))
  {
    var a := NextVersion(s.rows, c, bound).value;
    SpentIsClosed(s.rows, c.copy);
    TopSpent(s.rows, a);
    forall id | id in s.commits ensures Spent(s.rows[KeyOf(a) := a], id) {
      OthersSpent(s.rows, a, id);
    }
  }

  lemma StepKeepsSafe(s: Store, c: Call, tasks: set<string>, bound: Approval -> bool)
    requires Safe(s) && !Reopens(s, c, tasks)
    ensures Safe(Next(s, c, tasks, bound))
  {
    if c.Record? {
      if Recordable(s.rows, c.approval, tasks) {
        RecordKeepsSafe(s, c.approval, tasks);
      }
    } else if NextVersion(s.rows, c, bound).Some? && Latest(s.rows, c.copy) {
      UseKeepsSafe(s, c, bound);
    }
  }

  // ---- over whole runs ----

  const EMPTY: Store := Store(map[], multiset{})

  predicate NoRecording(calls: seq<Call>) {
    forall i :: 0 <= i < |calls| ==> !calls[i].Record?
  }

  /** No recording in the run reopens an identity that was used before it. */
  predicate NeverReopens(calls: seq<Call>, tasks: set<string>, bound: Approval -> bool) {
    forall i :: 0 <= i < |calls| ==> !Reopens(After(EMPTY, calls[..i], tasks, bound), calls[i], tasks)
  }

  /** Whenever recording stopped, no further use by anybody could make any identity be used twice. */
  ghost predicate SingleUseForGood(calls: seq<Call>, tasks: set<string>, bound: Approval -> bool) {
    forall k: nat, uses :: k <= |calls| && NoRecording(uses) ==> SingleUse(After(EMPTY, calls[..k] + uses, tasks, bound))
  }

  lemma {:induction false} RunIsSafe(calls: seq<Call>, tasks: set<string>, bound: Approval -> bool)
    requires NeverReopens(calls, tasks, bound)
    ensures Safe(After(EMPTY, calls, tasks, bound))
  {
    if calls != [] {
      var n := |calls| - 1;
      forall i | 0 <= i < n ensures !Reopens(After(EMPTY, calls[..n][..i], tasks, bound), calls[..n][i], tasks) {
        assert calls[..n][..i] == calls[..i];
      }
      RunIsSafe(calls[..n], tasks, bound);
      StepKeepsSafe(After(EMPTY, calls[..n], tasks, bound), calls[n], tasks, bound);
    }
  }

  lemma {:induction false} UsesAreSafe(s: Store, uses: seq<Call>, tasks: set<string>, bound: Approval -> bool)
    requires Safe(s) && NoRecording(uses)
    ensures Safe(After(s, uses, tasks, bound))
  {
    if uses != [] {
      var n := |uses| - 1;
      UsesAreSafe(s, uses[..n], tasks, bound);
      StepKeepsSafe(After(s, uses[..n], tasks, bound), uses[n], tasks, bound);
    }
  }

  lemma {:induction false} AfterBoth(s: Store, calls: seq<Call>, more: seq<Call>, tasks: set<string>,
                                     bound: Approval -> bool)
    ensures After(s, calls + more, tasks, bound) == After(After(s, calls, tasks, bound), more, tasks, bound)
  {
    hide Next;
    if more == [] {
      assert calls + more == calls;
    } else {
      var n := |more| - 1;
      AfterBoth(s, calls, more[..n], tasks, bound);
      assert (calls + more)[..|calls| + n] == calls + more[..n];
    }
  }

  /** Once an identity is reopened, revoking the new row is accepted and is a second use. */
  lemma RevokingReopened(s: Store, c: Call, tasks: set<string>, bound: Approval -> bool)
    requires Reopens(s, c, tasks)
    ensures var again := Revoke(KeyOf(c.approval), 0);
            !SingleUse(Next(Next(s, c, tasks, bound), again, tasks, bound))
  {
    var a := c.approval;
    var t := Next(s, c, tasks, bound);
    assert Latest(t.rows, KeyOf(a));
    var u := Next(t, Revoke(KeyOf(a), 0), tasks, bound);
    assert u.commits[a.identity] == s.commits[a.identity] + 1;
  }

  lemma NeverReopensPrefix(calls: seq<Call>, k: nat, tasks: set<string>, bound: Approval -> bool)
    requires NeverReopens(calls, tasks, bound) && k <= |calls|
    ensures NeverReopens(calls[..k], tasks, bound)
  {
    forall i | 0 <= i < k ensures !Reopens(After(EMPTY, calls[..k][..i], tasks, bound), calls[..k][i], tasks) {
      assert calls[..k][..i] == calls[..i];
    }
  }

  lemma SafeForGood(calls: seq<Call>, tasks: set<string>, bound: Approval -> bool)
    requires NeverReopens(calls, tasks, bound)
    ensures SingleUseForGood(calls, tasks, bound)
  {
    hide NeverReopens, After, Safe, NoRecording;
    forall k: nat, uses | k <= |calls| && NoRecording(uses)
      ensures SingleUse(After(EMPTY, calls[..k] + uses, tasks, bound))
    {
      NeverReopensPrefix(calls, k, tasks, bound);
      RunIsSafe(calls[..k], tasks, bound);
      UsesAreSafe(After(EMPTY, calls[..k], tasks, bound), uses, tasks, bound);
      AfterBoth(EMPTY, calls[..k], uses, tasks, bound);
      SafeIsSingle(After(EMPTY, calls[..k] + uses, tasks, bound));
    }
  }

  lemma SafeIsSingle(s: Store)
    requires Safe(s)
    ensures SingleUse(s)
  {
  }

  lemma AfterOne(s: Store, calls: seq<Call>, c: Call, tasks: set<string>, bound: Approval -> bool)
    ensures After(s, calls + [c], tasks, bound) == Next(After(s, calls, tasks, bound), c, tasks, bound)
  {
    assert (calls + [c])[..|calls|] == calls;
  }

  lemma ReopensRecords(s: Store, c: Call, tasks: set<string>)
    requires Reopens(s, c, tasks)
    ensures c.Record?
  {
  }

  lemma ReopeningBreaks(calls: seq<Call>, i: nat, tasks: set<string>, bound: Approval -> bool)
    requires i < |calls| && Reopens(After(EMPTY, calls[..i], tasks, bound), calls[i], tasks)
    ensures !SingleUseForGood(calls, tasks, bound)
  {
    hide After, Reopens, Next, SingleUse;
    ReopensRecords(After(EMPTY, calls[..i], tasks, bound), calls[i], tasks);
    var s, again := After(EMPTY, calls[..i], tasks, bound), Revoke(KeyOf(calls[i].approval), 0);
    RevokingReopened(s, calls[i], tasks, bound);
    AfterOne(EMPTY, calls[..i], calls[i], tasks, bound);
    assert calls[..i] + [calls[i]] == calls[..i + 1];
    AfterOne(EMPTY, calls[..i + 1], again, tasks, bound);
    assert NoRecording([again]);
  }

  /** Single use holds over a whole run, whatever its clients still do, if and only if no accepted
      recording puts a pending row above all rows of an identity that was already used. */
  lemma SingleUseExactly(calls: seq<Call>, tasks: set<string>, bound: Approval -> bool)
    ensures SingleUseForGood(calls, tasks, bound) <==> NeverReopens(calls, tasks, bound)
  {
    hide SingleUseForGood, After, Reopens;
    if NeverReopens(calls, tasks, bound) {
      SafeForGood(calls, tasks, bound);
    } else {
      var i :| 0 <= i < |calls| && Reopens(After(EMPTY, calls[..i], tasks, bound), calls[i], tasks);
      ReopeningBreaks(calls, i, tasks, bound);
    }
  }

  /** A run in which one identity is used twice: recorded, revoked, recorded again under another
      idempotency key with a higher revision, and revoked again. */
  lemma UsedTwice(terms: Terms, bound: Approval -> bool)
    ensures var a := Approval("approval", 1, "task", "first", "digest", terms, 0, 10, None, None);
            var b := a.(revision := 3, key := "second");
            After(EMPTY, [Record(a)] + [Revoke(KeyOf(a), 1)] + [Record(b)] + [Revoke(KeyOf(b), 2)], {"task"}, bound)
              .commits["approval"] == 2
  {
    hide After;
    var a := Approval("approval", 1, "task", "first", "digest", terms, 0, 10, None, None);
    var b, a2 := a.(revision := 3, key := "second"), a.(revision := 2, revokedAt := Some(1));
    var tasks := {"task"};
    assert [] + [Record(a)] == [Record(a)];
    AfterNothing(tasks, bound);
    AfterOne(EMPTY, [], Record(a), tasks, bound);
    AfterOne(EMPTY, [Record(a)], Revoke(KeyOf(a), 1), tasks, bound);
    AfterOne(EMPTY, [Record(a)] + [Revoke(KeyOf(a), 1)], Record(b), tasks, bound);
    AfterOne(EMPTY, [Record(a)] + [Revoke(KeyOf(a), 1)] + [Record(b)], Revoke(KeyOf(b), 2), tasks, bound);
    var s1 := Store(map[KeyOf(a) := a], multiset{});
    assert Next(EMPTY, Record(a), tasks, bound) == s1;
    assert Latest(s1.rows, KeyOf(a));
    var s2 := Next(s1, Revoke(KeyOf(a), 1), tasks, bound);
    assert s2 == Store(map[KeyOf(a) := a, KeyOf(a2) := a2], multiset{"approval"});
    assert b.key[0] != a.key[0];
    var s3 := Next(s2, Record(b), tasks, bound);
    assert s3.rows == s2.rows[KeyOf(b) := b];
    assert Latest(s3.rows, KeyOf(b));
  }

  lemma AfterNothing(tasks: set<string>, bound: Approval -> bool)
    ensures After(EMPTY, [], tasks, bound) == EMPTY
  {
  }

  /** Approvals recorded under one identity come with one task and one idempotency key. */
  predicate OneIntentEach(calls: seq<Call>) {
    forall i, j :: 0 <= i < |calls| && 0 <= j < |calls| && calls[i].Record? && calls[j].Record?
                   && calls[i].approval.identity == calls[j].approval.identity ==>
      SameIntent(calls[i].approval, calls[j].approval)
  }

  /** Every row stems from a recorded approval. */
  ghost predicate Recorded(rows: Rows, calls: seq<Call>) {
    forall k :: k in rows ==>
      exists i :: 0 <= i < |calls| && calls[i].Record? && calls[i].approval.identity == k.identity
                  && SameIntent(calls[i].approval, rows[k])
  }

  ghost predicate UsedHaveRows(s: Store) {
    forall id :: id in s.commits ==> exists k :: k in s.rows && k.identity == id
  }

  lemma {:induction false} RowsRecorded(calls: seq<Call>, tasks: set<string>, bound: Approval -> bool)
    ensures Recorded(After(EMPTY, calls, tasks, bound).rows, calls) && UsedHaveRows(After(EMPTY, calls, tasks, bound))
    ensures WellKeyed(After(EMPTY, calls, tasks, bound).rows)
  {
    if calls != [] {
      var n := |calls| - 1;
      var s, c := After(EMPTY, calls[..n], tasks, bound), calls[n];
      RowsRecorded(calls[..n], tasks, bound);
      RowsStep(s, c, calls, n, tasks, bound);
    }
  }

  lemma RowsStep(s: Store, c: Call, calls: seq<Call>, n: nat, tasks: set<string>, bound: Approval -> bool)
    requires n == |calls| - 1 && c == calls[n] && WellKeyed(s.rows) && Recorded(s.rows, calls[..n]) && UsedHaveRows(s)
    ensures Recorded(Next(s, c, tasks, bound).rows, calls) && UsedHaveRows(Next(s, c, tasks, bound))
    ensures WellKeyed(Next(s, c, tasks, bound).rows)
  {
    hide Latest, Recordable, WellKeyed, SameIntent, ConsumeApproval, RevokeApproval;
    MoreCalls(s.rows, calls, n);
    if c.Record? {
      if Recordable(s.rows, c.approval, tasks) {
        NewRow(s, c.approval, calls, n);
      }
    } else if NextVersion(s.rows, c, bound).Some? && Latest(s.rows, c.copy) {
      VersionRow(s, c, NextVersion(s.rows, c, bound).value, calls, bound);
    }
  }

  lemma MoreCalls(rows: Rows, calls: seq<Call>, n: nat)
    requires n <= |calls| && Recorded(rows, calls[..n])
    ensures Recorded(rows, calls)
  {
    forall k | k in rows
      ensures exists i :: 0 <= i < |calls| && calls[i].Record? && calls[i].approval.identity == k.identity
                          && SameIntent(calls[i].approval, rows[k])
    {
      var i :| 0 <= i < n && calls[..n][i].Record? && calls[..n][i].approval.identity == k.identity
               && SameIntent(calls[..n][i].approval, rows[k]);
      assert calls[i] == calls[..n][i];
    }
  }

  lemma NewRow(s: Store, a: Approval, calls: seq<Call>, n: nat)
    requires n < |calls| && calls[n] == Record(a) && WellKeyed(s.rows) && Recorded(s.rows, calls) && UsedHaveRows(s)
    ensures Recorded(s.rows[KeyOf(a) := a], calls) && WellKeyed(s.rows[KeyOf(a) := a])
    ensures UsedHaveRows(s.(rows := s.rows[KeyOf(a) := a]))
  {
    assert calls[n].Record? && calls[n].approval.identity == KeyOf(a).identity;
  }

  lemma VersionRow(s: Store, c: Call, a: Approval, calls: seq<Call>, bound: Approval -> bool)
    requires !c.Record? && NextVersion(s.rows, c, bound) == Some(a) && WellKeyed(s.rows) && Recorded(s.rows, calls)
             && UsedHaveRows(s)
    ensures Recorded(s.rows[KeyOf(a) := a], calls) && WellKeyed(s.rows[KeyOf(a) := a])
    ensures UsedHaveRows(Store(s.rows[KeyOf(a) := a], s.commits + multiset{c.copy.identity}))
  {
    var i :| 0 <= i < |calls| && calls[i].Record? && calls[i].approval.identity == c.copy.identity
             && SameIntent(calls[i].approval, s.rows[c.copy]);
    assert SameIntent(calls[i].approval, a) && calls[i].approval.identity == KeyOf(a).identity;
  }

  /** Clients that keep identity and idempotency key together never reopen anything. */
  lemma OneIntentNeverReopens(calls: seq<Call>, tasks: set<string>, bound: Approval -> bool)
    requires OneIntentEach(calls)
    ensures NeverReopens(calls, tasks, bound) && SingleUse(After(EMPTY, calls, tasks, bound))
  {
    hide After, SingleUse, Safe;
    forall i | 0 <= i < |calls| ensures !Reopens(After(EMPTY, calls[..i], tasks, bound), calls[i], tasks) {
      RowsRecorded(calls[..i], tasks, bound);
      IntentTaken(After(EMPTY, calls[..i], tasks, bound), calls, i, tasks);
    }
    RunIsSafe(calls, tasks, bound);
    SafeIsSingle(After(EMPTY, calls, tasks, bound));
  }

  /** A used identity has a row with the only intent it is recorded with, so recording it again is no new row. */
  lemma IntentTaken(s: Store, calls: seq<Call>, i: nat, tasks: set<string>)
    requires OneIntentEach(calls) && i < |calls| && Recorded(s.rows, calls[..i]) && UsedHaveRows(s)
    ensures !Reopens(s, calls[i], tasks)
  {
    if calls[i].Record? && calls[i].approval.identity in s.commits {
      var k :| k in s.rows && k.identity == calls[i].approval.identity;
      var j :| 0 <= j < i && calls[..i][j].Record? && calls[..i][j].approval.identity == k.identity
               && SameIntent(calls[..i][j].approval, s.rows[k]);
      assert SameIntent(calls[j].approval, calls[i].approval);
    }
  }

  // ---- the store and its clients ----

  datatype Answer = Done | AlreadyRecorded | Conflict | Failed | Refused

  /** The answer to a call that meets no error of the database. */
  ghost predicate Answered(rows: Rows, c: Call, tasks: set<string>, bound: Approval -> bool, r: Answer) {
    if c.Record? then
      && (r.Done? <==> Recordable(rows, c.approval, tasks))
      && (r.AlreadyRecorded? ==>
           Lowest(rows, KeyOf(c.approval), c.approval) && rows[KeyOf(c.approval)].requestDigest == c.approval.requestDigest)
      && (r.Conflict? ==>
           exists k :: Lowest(rows, k, c.approval)
                       && (k != KeyOf(c.approval) || rows[k].requestDigest != c.approval.requestDigest))
      && (r.Failed? ==> forall k :: k in rows ==> !SameIntent(rows[k], c.approval))
      && !r.Refused?
    else
      && (r.Refused? <==> NextVersion(rows, c, bound).None?)
      && (r.Done? <==> NextVersion(rows, c, bound).Some? && Latest(rows, c.copy))
      && (r.Conflict? <==> NextVersion(rows, c, bound).Some? && !Latest(rows, c.copy))
  }

  /** The first row for the task and idempotency key of `a`. */
  predicate Lowest(rows: Rows, k: Reference, a: Approval) {
    k in rows && SameIntent(rows[k], a) && forall j :: j in rows && SameIntent(rows[j], a) ==> k.revision <= j.revision
  }

  /** The calls that met no error of the database. */
  function Without(calls: seq<Call>, dropped: set<nat>): seq<Call> {
    if calls == [] then []
    else
      var n := |calls| - 1;
      Without(calls[..n], dropped) + (if n in dropped then [] else [calls[n]])
  }

  lemma {:induction false} WithoutFew(calls: seq<Call>, dropped: set<nat>, more: set<nat>)
    requires forall i :: 0 <= i < |calls| ==> (i in dropped <==> i in more)
    ensures Without(calls, dropped) == Without(calls, more)
  {
    if calls != [] {
      WithoutFew(calls[..|calls| - 1], dropped, more);
    }
  }

  lemma {:induction false} WithoutMembers(calls: seq<Call>, dropped: set<nat>)
    ensures forall c :: c in Without(calls, dropped) ==> c in calls
    ensures dropped == {} ==> Without(calls, dropped) == calls
  {
    if calls != [] {
      WithoutMembers(calls[..|calls| - 1], dropped);
      assert calls == calls[..|calls| - 1] + [calls[|calls| - 1]];
    }
  }

  class ApprovalStore {
    var rows: Rows
    const tasks: set<string>
    /** How often the database will still fail at most. */
    var outages: nat
    /** The consumptions and revocations that were committed. */
    ghost var commits: multiset<string>

    constructor (tasks: set<string>, outages: nat)
      ensures rows == map[] && commits == multiset{} && this.tasks == tasks && this.outages == outages
    {
      this.tasks := tasks;
      this.outages := outages;
      rows := map[];
      commits := multiset{};
    }

    ghost function State(): Store
      reads this
    {
      Store(rows, commits)
    }

    /** Whether the database fails a call. */
    method Fails() returns (failed: bool)
      modifies this`outages
      ensures outages == if failed then old(outages) - 1 else old(outages)
    {
      failed := *;
      if outages == 0 {
        return false;
      }
      if failed {
        outages := outages - 1;
      }
    }

    /** The first row for the same task and idempotency key. */
    method FirstFor(a: Approval) returns (k: Option<Reference>)
      ensures k.Some? ==> k.value in rows && SameIntent(rows[k.value], a)
      ensures k.Some? ==> forall j :: j in rows && SameIntent(rows[j], a) ==> k.value.revision <= j.revision
      ensures k.None? ==> forall j :: j in rows ==> !SameIntent(rows[j], a)
    {
      var candidates := set j | j in rows && SameIntent(rows[j], a);
      if candidates == {} {
        forall j | j in rows ensures !SameIntent(rows[j], a) {
          assert j !in candidates;
        }
        return None;
      }
      var least := LowestRevision(candidates);
      return Some(least);
    }

    /** Records a new approval once per task and idempotency key. */
    method RecordApproval(a: Approval) returns (r: Answer)
      requires WellKeyed(rows)
      modifies this`rows, this`outages
      ensures outages <= old(outages) <= outages + 1 && (outages < old(outages) ==> r.Failed?)
      ensures outages == old(outages) ==> forall bound :: Answered(old(rows), Record(a), tasks, bound, r)
      ensures r.Done? ==> Recordable(old(rows), a, tasks) && rows == old(rows)[KeyOf(a) := a]
      ensures r.AlreadyRecorded? ==>
                KeyOf(a) in rows && rows[KeyOf(a)].requestDigest == a.requestDigest && SameIntent(rows[KeyOf(a)], a)
      ensures r.Conflict? ==> exists k :: k in rows && SameIntent(rows[k], a)
      ensures !r.Done? ==> rows == old(rows)
      ensures !r.Refused?
    {
      var failed := Fails();
      if failed {
        return Failed;
      }
      var first := FirstFor(a);
      if first.Some? {
        var k := first.value;
        return if rows[k].requestDigest == a.requestDigest && k == KeyOf(a) then AlreadyRecorded else Conflict;
      }
      if KeyOf(a) in rows || a.task !in tasks {
        return Failed;
      }
      rows := rows[KeyOf(a) := a];
      return Done;
    }

    /** Appends the next version of an approval if the latest row is still the expected one. */
    method UpdateApproval(a: Approval, expectedRevision: nat) returns (r: Answer, ghost latest: Reference)
      requires WellKeyed(rows) && a.revision == expectedRevision + 1
      modifies this`rows, this`outages
      ensures outages <= old(outages) <= outages + 1 && (outages < old(outages) <==> r.Failed?)
      ensures r.Done? ==>
                && Latest(old(rows), latest) && latest == Reference(a.identity, expectedRevision)
                && SameIntent(old(rows)[latest], a) && old(rows)[latest].requestDigest == a.requestDigest
                && rows == old(rows)[KeyOf(a) := a]
      ensures r.Conflict? ==> !(exists k :: k in rows && Latest(rows, k) && k == Reference(a.identity, expectedRevision)
                                            && SameIntent(rows[k], a) && rows[k].requestDigest == a.requestDigest)
      ensures !r.Done? ==> rows == old(rows)
      ensures r.Done? || r.Conflict? || r.Failed?
    {
      latest := KeyOf(a);
      var failed := Fails();
      if failed {
        return Failed, latest;
      }
      var versions := set k | k in rows && k.identity == a.identity;
      if versions == {} {
        forall k | k in rows ensures k.identity != a.identity {
          assert k !in versions;
        }
        return Conflict, latest;
      }
      var newest := HighestRevision(versions);
      latest := newest;
      assert Latest(rows, newest) by {
        forall j | j in rows && j.identity == newest.identity ensures j.revision <= newest.revision {
          assert j in versions;
        }
      }
      if !SameIntent(rows[newest], a) || rows[newest].requestDigest != a.requestDigest || newest.revision != expectedRevision {
        return Conflict, latest;
      }
      rows := rows[KeyOf(a) := a];
      return Done, latest;
    }

    /** A client uses a copy it once read. Rows never change, so any copy equals its row. */
    method Use(c: Call, bound: Approval -> bool) returns (r: Answer)
      requires WellKeyed(rows) && !c.Record?
      modifies this
      ensures outages <= old(outages) <= outages + 1 && (outages < old(outages) <==> r.Failed?)
      ensures outages == old(outages) ==>
                State() == Next(old(State()), c, tasks, bound) && Answered(old(rows), c, tasks, bound, r)
      ensures r.Done? ==> c.copy in old(rows) && Latest(old(rows), c.copy) && Pending(old(rows)[c.copy])
                          && commits == old(commits) + multiset{c.copy.identity}
      ensures !r.Done? ==> State() == old(State())
      ensures WellKeyed(rows)
    {
      var next := NextVersion(rows, c, bound);
      if next.None? {
        return Refused;
      }
      ghost var latest;
      assert c.copy == Reference(next.value.identity, c.copy.revision) && SameIntent(rows[c.copy], next.value);
      r, latest := UpdateApproval(next.value, c.copy.revision);
      if r.Done? {
        commits := commits + multiset{c.copy.identity};
      }
    }

    method Step(c: Call, bound: Approval -> bool) returns (r: Answer)
      requires WellKeyed(rows)
      modifies this
      ensures outages <= old(outages) <= outages + 1
              && (outages < old(outages) ==> r.Failed? && State() == old(State()))
      ensures outages == old(outages) ==>
                State() == Next(old(State()), c, tasks, bound) && Answered(old(rows), c, tasks, bound, r)
      ensures WellKeyed(rows)
    {
      hide Answered, NextVersion, Latest;
      if c.Record? {
        r := RecordApproval(c.approval);
        DoneIsRecordable(old(rows), c, tasks, bound, r);
      } else {
        r := Use(c, bound);
      }
    }
  }

  lemma DoneIsRecordable(rows: Rows, c: Call, tasks: set<string>, bound: Approval -> bool, r: Answer)
    requires c.Record?
    ensures Answered(rows, c, tasks, bound, r) ==> (r.Done? <==> Recordable(rows, c.approval, tasks))
  {
  }

  method LowestRevision(s: set<Reference>) returns (k: Reference)
    requires s != {}
    ensures k in s && forall j :: j in s ==> k.revision <= j.revision
  {
    k :| k in s;
    var rest := s - {k};
    while rest != {}
      invariant k in s && rest <= s
      invariant forall j :: j in s - rest ==> k.revision <= j.revision
    {
      var j :| j in rest;
      rest := rest - {j};
      if j.revision < k.revision {
        k := j;
      }
    }
  }

  method HighestRevision(s: set<Reference>) returns (k: Reference)
    requires s != {}
    ensures k in s && forall j :: j in s ==> j.revision <= k.revision
  {
    k :| k in s;
    var rest := s - {k};
    while rest != {}
      invariant k in s && rest <= s
      invariant forall j :: j in s - rest ==> j.revision <= k.revision
    {
      var j :| j in rest;
      rest := rest - {j};
      if k.revision < j.revision {
        k := j;
      }
    }
  }

  /** Any number of clients with old copies, in any order, over a store that may fail: but for the calls
      that met such an error, `dropped`, they form a run, each is answered as its place in the run wants,
      and single use holds exactly as it does for that run. */
  method Interleaving(store: ApprovalStore, calls: seq<Call>, bound: Approval -> bool)
    returns (answers: seq<Answer>, ghost dropped: set<nat>)
    requires store.State() == EMPTY
    modifies store
    ensures |answers| == |calls|
    ensures store.State() == After(EMPTY, Without(calls, dropped), store.tasks, bound)
    ensures |dropped| + store.outages == old(store.outages)
    ensures forall i :: 0 <= i < |calls| && i in dropped ==> answers[i].Failed?
    ensures forall i :: 0 <= i < |calls| && i !in dropped ==>
              Answered(After(EMPTY, Without(calls[..i], dropped), store.tasks, bound).rows, calls[i], store.tasks, bound, answers[i])
    ensures NeverReopens(Without(calls, dropped), store.tasks, bound) ==> SingleUse(store.State())
    ensures OneIntentEach(calls) ==> SingleUse(store.State())
  {
    hide After, NeverReopens, SingleUse, OneIntentEach, Next, AsInRun, Without;
    answers, dropped := [], {};
    NothingYet(calls, store.tasks, bound);
    for i := 0 to |calls|
      invariant |answers| == i && WellKeyed(store.rows)
      invariant AsInRun(calls, answers, dropped, store.tasks, bound, store.State())
      invariant |dropped| + store.outages == old(store.outages)
    {
      ghost var before, s := store.outages, store.State();
      var r := store.Step(calls[i], bound);
      OneMoreAnswer(calls, answers, dropped, store.tasks, bound, s, r, store.State(), store.outages < before);
      dropped := if store.outages < before then dropped + {i} else dropped;
      answers := answers + [r];
    }
    RunAnswered(calls, answers, dropped, store.tasks, bound, store.State());
    ghost var effective := Without(calls, dropped);
    WithoutMembers(calls, dropped);
    if NeverReopens(effective, store.tasks, bound) {
      RunIsSafe(effective, store.tasks, bound);
      SafeIsSingle(After(EMPTY, effective, store.tasks, bound));
    }
    if OneIntentEach(calls) {
      FewerIntents(calls, effective);
      OneIntentNeverReopens(effective, store.tasks, bound);
    }
  }

  /** The store and the answers so far are those of the run of the calls that met no error. */
  ghost predicate AsInRun(calls: seq<Call>, answers: seq<Answer>, dropped: set<nat>, tasks: set<string>,
                          bound: Approval -> bool, s: Store)
    requires |answers| <= |calls|
  {
    && (forall j :: j in dropped ==> j < |answers|)
    && s == After(EMPTY, Without(calls[..|answers|], dropped), tasks, bound)
    && (forall j :: 0 <= j < |answers| && j in dropped ==> answers[j].Failed?)
    && (forall j :: 0 <= j < |answers| && j !in dropped ==>
         Answered(After(EMPTY, Without(calls[..j], dropped), tasks, bound).rows, calls[j], tasks, bound, answers[j]))
  }

  lemma NothingYet(calls: seq<Call>, tasks: set<string>, bound: Approval -> bool)
    ensures AsInRun(calls, [], {}, tasks, bound, EMPTY) && WellKeyed(EMPTY.rows)
  {
  }

  lemma OneMoreAnswer(calls: seq<Call>, answers: seq<Answer>, dropped: set<nat>, tasks: set<string>,
                      bound: Approval -> bool, s: Store, r: Answer, t: Store, failed: bool)
    requires |answers| < |calls| && AsInRun(calls, answers, dropped, tasks, bound, s)
    requires failed ==> r.Failed? && t == s
    requires !failed ==>
               t == Next(s, calls[|answers|], tasks, bound) && Answered(s.rows, calls[|answers|], tasks, bound, r)
    ensures |answers| !in dropped
    ensures AsInRun(calls, answers + [r], if failed then dropped + {|answers|} else dropped, tasks, bound, t)
  {
    hide After, Next, Answered, Without;
    var i := |answers|;
    WithoutNext(calls, dropped, i, failed);
    AfterOne(EMPTY, Without(calls[..i], dropped), calls[i], tasks, bound);
    assert forall j :: 0 <= j < i ==> (answers + [r])[j] == answers[j];
  }

  lemma WithoutNext(calls: seq<Call>, dropped: set<nat>, i: nat, failed: bool)
    requires i < |calls| && i !in dropped
    ensures var more := if failed then dropped + {i} else dropped;
            && Without(calls[..i + 1], more)
               == (if failed then Without(calls[..i], dropped) else Without(calls[..i], dropped) + [calls[i]])
            && (forall j :: 0 <= j <= i ==> Without(calls[..j], more) == Without(calls[..j], dropped))
  {
    var more := if failed then dropped + {i} else dropped;
    assert calls[..i + 1][..i] == calls[..i];
    forall j | 0 <= j <= i ensures Without(calls[..j], more) == Without(calls[..j], dropped) {
      WithoutFew(calls[..j], dropped, more);
    }
  }

  lemma RunAnswered(calls: seq<Call>, answers: seq<Answer>, dropped: set<nat>, tasks: set<string>,
                    bound: Approval -> bool, s: Store)
    requires |answers| == |calls| && AsInRun(calls, answers, dropped, tasks, bound, s)
    ensures s == After(EMPTY, Without(calls, dropped), tasks, bound)
    ensures forall i :: 0 <= i < |calls| && i in dropped ==> answers[i].Failed?
    ensures forall i :: 0 <= i < |calls| && i !in dropped ==>
              Answered(After(EMPTY, Without(calls[..i], dropped), tasks, bound).rows, calls[i], tasks, bound, answers[i])
  {
    hide After, Answered;
    assert calls[..|calls|] == calls;
  }

  lemma FewerIntents(calls: seq<Call>, fewer: seq<Call>)
    requires OneIntentEach(calls) && forall c :: c in fewer ==> c in calls
    ensures OneIntentEach(fewer)
  {
    forall i, j | 0 <= i < |fewer| && 0 <= j < |fewer| && fewer[i].Record? && fewer[j].Record?
                  && fewer[i].approval.identity == fewer[j].approval.identity
      ensures SameIntent(fewer[i].approval, fewer[j].approval)
    {
      assert fewer[i] in calls && fewer[j] in calls;
    }
  }
}
