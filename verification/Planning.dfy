/** From a change set to an apply plan, and what an applied plan delivers. */
module Planning {
  import opened Wrappers
  import opened ApplyModels
  import opened TargetTree
  import opened Hosts
  import opened Directories
  import opened Inspection
  import opened TransactionTree
  import opened Changesets

  function StampAt(t: Tree, p: Path): Option<Stamp> {
    var s := LeafAt(t, p);
    if s.Some? then Some(StampOf(s.value)) else None
  }

  /** The names of a transaction carry its id, so none of a new one exists yet. */
  ghost predicate NoTransactionNames(t: Tree) {
    forall n :: n in t.files ==> n.Leaf?
  }

  /** A change the target and the workspace still agree with. */
  ghost predicate Fits(c: FileChange, t: Tree, ws: Tree) {
    && c.scope.Target?
    && StampAt(t, c.path) == c.baseline
    && (c.current.Some? ==> StampAt(ws, c.path) == c.current)
    && c.path !in t.dirs
    && Unobstructed(t, c.path)
  }

  /** The parents of `p` that do not exist, outermost first. */
  ghost predicate MissingParents(t: Tree, p: Path, missing: seq<Path>) {
    && Nested(missing, p)
    && (forall d :: d in missing ==> d !in t.dirs && Leaf(d) !in t.files)
    && (forall k :: 0 < k < |p| && p[..k] !in t.dirs ==> p[..k] in missing)
  }

  /** Entry `e` carries out change `c`; directories already claimed belong to earlier entries. */
  ghost predicate Carries(e: Entry, c: FileChange, t: Tree, ws: Tree, claimed: set<Path>) {
    && e.path == c.path && 0 < |c.path|
    && e.original == LeafAt(t, c.path)
    && e.desired == (if c.current.Some? then LeafAt(ws, c.path) else None)
    && Nested(e.createdParents, c.path)
    && (forall d :: d in e.createdParents ==> d !in t.dirs && Leaf(d) !in t.files && d !in claimed)
    && (forall k :: 0 < k < |c.path| && c.path[..k] !in t.dirs ==> c.path[..k] in e.createdParents || c.path[..k] in claimed)
    && e.parentIdentity == (if Parent(c.path) in t.dirs then Some(Identity(t, Parent(c.path))) else None)
  }

  // ---- looking at the target ----

  /** Whether a directory exists; a file or link in its place is an error. */
  method DirectoryExists(host: Host, d: Path) returns (r: Outcome<bool>)
    requires !host.dead && WellFormed(host.tree) && 0 < |d|
    modifies host`dead, host`faults, host`tree, host`looked
    ensures host.tree == old(host.tree)
    ensures host.dead <==> r.Crashed?
    ensures host.faults <= old(host.faults)
    ensures r.Ok? ==> (r.value <==> d in host.tree.dirs) && Leaf(d) !in host.tree.files
    ensures host.faults == old(host.faults) && Unobstructed(host.tree, d) && Leaf(d) !in host.tree.files ==> r.Ok?
  {
    hide Unobstructed, Matches;
    var walked, created, made, chain := OpenParent(host, d, false, []);
    if walked.Crashed? {
      return Crashed;
    }
    if walked.Raise? {
      return if walked.error == FileNotFound then Ok(false) else Raise(walked.error);
    }
    if d in host.tree.dirs {
      return Ok(true);
    }
    return if Leaf(d) in host.tree.files then Raise(ApplyFailure) else Ok(false);
  }

  lemma ObstructedPrefix(t: Tree, p: Path, k: nat)
    requires Unobstructed(t, p) && 0 < k < |p|
    ensures Unobstructed(t, p[..k]) && Leaf(p[..k]) !in t.files
  {
    forall m | 0 < m < k ensures Leaf(p[..k][..m]) !in t.files {
      assert p[..k][..m] == p[..m];
    }
  }

  lemma PrefixOfDirectory(t: Tree, p: Path, m: nat, k: nat)
    requires WellFormed(t) && m <= k <= |p|
    ensures p[..k] in t.dirs ==> p[..m] in t.dirs
  {
    if p[..k] in t.dirs {
      PrefixDirs(t, p[..k], m);
      assert p[..k][..m] == p[..m];
    }
  }

  lemma BelowMissing(t: Tree, p: Path, m: nat, k: nat)
    requires WellFormed(t) && 0 < m < k < |p| && p[..m] !in t.dirs
    ensures p[..k] !in t.dirs && Leaf(p[..k]) !in t.files
  {
    assert Parent(p[..k]) == p[..k - 1];
    PrefixOfDirectory(t, p, m, k - 1);
    PrefixOfDirectory(t, p, m, k);
  }

  method FindMissingParents(host: Host, p: Path) returns (r: Outcome<seq<Path>>)
    requires !host.dead && WellFormed(host.tree) && 0 < |p|
    modifies host`dead, host`faults, host`tree, host`looked
    ensures host.tree == old(host.tree)
    ensures host.dead <==> r.Crashed?
    ensures host.faults <= old(host.faults)
    ensures r.Ok? ==> MissingParents(host.tree, p, r.value) && Unobstructed(host.tree, p)
    ensures host.faults == old(host.faults) && Unobstructed(host.tree, p) ==> r.Ok?
  {
    hide WellFormed;
    var missing: seq<Path> := [];
    var ancestorMissing := false;
    ghost var first := 0;
    for k := 1 to |p|
      invariant !host.dead && host.faults <= old(host.faults) && host.tree == old(host.tree)
      invariant Nested(missing, p) && forall d :: d in missing ==> |d| < k && d !in host.tree.dirs
      invariant forall m :: 0 < m < k ==> Leaf(p[..m]) !in host.tree.files
      invariant forall m :: 0 < m < k && p[..m] !in host.tree.dirs ==> p[..m] in missing
      invariant forall d :: d in missing ==> Leaf(d) !in host.tree.files
      invariant ancestorMissing ==> 0 < first < k && p[..first] !in host.tree.dirs
    {
      var parent := p[..k];
      var gone := ancestorMissing;
      if !ancestorMissing {
        if Unobstructed(host.tree, p) {
          ObstructedPrefix(host.tree, p, k);
        }
        var present :- DirectoryExists(host, parent);
        gone := !present;
        if gone {
          first := k;
        }
      } else {
        BelowMissing(host.tree, p, first, k);
      }
      if gone {
        ancestorMissing := true;
        missing := missing + [parent];
      }
    }
    return Ok(missing);
  }

  method ParentIdentity(host: Host, p: Path) returns (r: Outcome<Option<Digest>>)
    requires !host.dead && WellFormed(host.tree) && 0 < |p|
    modifies host`dead, host`faults, host`tree, host`looked
    ensures host.tree == old(host.tree)
    ensures host.dead <==> r.Crashed?
    ensures host.faults <= old(host.faults)
    ensures r.Ok? ==> r.value == if Parent(p) in host.tree.dirs then Some(Identity(host.tree, Parent(p))) else None
    ensures host.faults == old(host.faults) && Unobstructed(host.tree, p) ==> r.Ok?
  {
    hide Unobstructed, Matches;
    var walked, created, made, chain := OpenParent(host, p, false, []);
    if walked.Crashed? {
      return Crashed;
    }
    if walked.Raise? {
      return if walked.error == FileNotFound then Ok(None) else Raise(walked.error);
    }
    return Ok(Some(Identity(host.tree, Parent(p))));
  }

  /** Reads the new content from the workspace; it must still be what the change set recorded. */
  method WorkspacePayload(host: Host, ws: Tree, c: FileChange) returns (r: Outcome<Option<Snapshot>>)
    requires !host.dead && WellFormed(ws)
    modifies host`dead, host`faults
    ensures host.dead <==> r.Crashed?
    ensures host.faults <= old(host.faults)
    ensures r.Ok? ==> c.current == (if r.value.Some? then Some(StampOf(r.value.value)) else None)
    ensures r.Ok? ==> r.value == (if c.current.Some? then LeafAt(ws, c.path) else None)
    ensures host.faults == old(host.faults) && (c.current.Some? ==> StampAt(ws, c.path) == c.current) ==> r.Ok?
  {
    if c.current.None? {
      return Ok(None);
    }
    var read := host.Tick(WorkspaceReading);
    if read.Crashed? {
      return Crashed;
    }
    if read.Raise? || StampAt(ws, c.path) != c.current {
      return Raise(ValueError);
    }
    return Ok(LeafAt(ws, c.path));
  }

  // ---- the plan ----

  function Unclaimed(missing: seq<Path>, claimed: set<Path>): (owned: seq<Path>)
    ensures forall d :: d in owned <==> d in missing && d !in claimed
  {
    if missing == [] then []
    else
      var n := |missing| - 1;
      Unclaimed(missing[..n], claimed) + (if missing[n] in claimed then [] else [missing[n]])
  }

  lemma {:induction false} UnclaimedNested(missing: seq<Path>, claimed: set<Path>, p: Path)
    requires Nested(missing, p)
    ensures Nested(Unclaimed(missing, claimed), p)
  {
    if missing != [] {
      var n := |missing| - 1;
      var init := missing[..n];
      assert Nested(init, p);
      UnclaimedNested(init, claimed, p);
      if missing[n] !in claimed {
        NestedAppend(Unclaimed(init, claimed), missing[n], p);
      }
    }
  }

  lemma NestedAppend(s: seq<Path>, d: Path, p: Path)
    requires Nested(s, p) && 0 < |d| && ProperPrefix(d, p)
    requires forall x :: x in s ==> |x| < |d|
    ensures Nested(s + [d], p)
  {
  }

  /** Plans one change; nothing when the target no longer fits it. */
  method PlanOne(host: Host, ws: Tree, c: FileChange, order: nat, claimed: set<Path>)
    returns (r: Outcome<Option<Entry>>)
    requires !host.dead && WellFormed(host.tree) && WellFormed(ws) && 0 < |c.path|
    modifies host`dead, host`faults, host`tree, host`looked
    ensures host.tree == old(host.tree)
    ensures host.dead <==> r.Crashed?
    ensures host.faults <= old(host.faults)
    ensures r.Ok? && r.value.Some? ==> Fits(c, host.tree, ws)
    ensures r.Ok? && r.value.Some? ==> Carries(r.value.value, c, host.tree, ws, claimed) && r.value.value.order == order
    ensures host.faults == old(host.faults) && Fits(c, host.tree, ws) ==> r.Ok? && r.value.Some?
  {
    hide WellFormed, Nested;
    if !c.scope.Target? {
      return Ok(None);
    }
    var original :- TakeSnapshot(host, c.path);
    if c.baseline != StampAt(host.tree, c.path) {
      return Ok(None);
    }
    var payload :- WorkspacePayload(host, ws, c);
    var missing :- FindMissingParents(host, c.path);
    UnclaimedNested(missing, claimed, c.path);
    var identity :- ParentIdentity(host, c.path);
    return Ok(Some(Entry(order, c.path, original, payload, Unclaimed(missing, claimed), identity)));
  }

  /** The directories that the entries create. */
  function Claimed(entries: seq<Entry>): set<Path> {
    if entries == [] then {}
    else
      var n := |entries| - 1;
      Claimed(entries[..n]) + set d | d in entries[n].createdParents
  }

  lemma {:induction false} ClaimedBySome(entries: seq<Entry>, d: Path)
    ensures d in Claimed(entries) <==> exists i :: 0 <= i < |entries| && d in entries[i].createdParents
  {
    if entries != [] {
      var n := |entries| - 1;
      ClaimedBySome(entries[..n], d);
      if d in Claimed(entries[..n]) {
        var i :| 0 <= i < n && d in entries[..n][i].createdParents;
        assert d in entries[i].createdParents;
      }
      if i :| 0 <= i < |entries| && d in entries[i].createdParents {
        assert i < n ==> d in entries[..n][i].createdParents;
      }
    }
  }

  ghost predicate CarriesAll(entries: seq<Entry>, changes: seq<FileChange>, t: Tree, ws: Tree) {
    && |entries| <= |changes|
    && forall k :: 0 <= k < |entries| ==>
         && Fits(changes[k], t, ws)
         && Carries(entries[k], changes[k], t, ws, Claimed(entries[..k]))
         && entries[k].order == k + 1
  }

  lemma ClaimedOneMore(entries: seq<Entry>, e: Entry)
    ensures Claimed(entries + [e]) == Claimed(entries) + set d | d in e.createdParents
  {
    assert (entries + [e])[..|entries|] == entries;
  }

  lemma CarriesOneMore(entries: seq<Entry>, e: Entry, changes: seq<FileChange>, t: Tree, ws: Tree)
    requires CarriesAll(entries, changes, t, ws) && |entries| < |changes|
    requires Fits(changes[|entries|], t, ws) && e.order == |entries| + 1
    requires Carries(e, changes[|entries|], t, ws, Claimed(entries))
    ensures CarriesAll(entries + [e], changes, t, ws)
    ensures Claimed(entries + [e]) == Claimed(entries) + set d | d in e.createdParents
  {
    hide Fits, Carries, Claimed;
    ClaimedOneMore(entries, e);
    var longer := entries + [e];
    assert longer[..|entries|] == entries;
    forall k | 0 <= k < |longer|
      ensures Fits(changes[k], t, ws) && Carries(longer[k], changes[k], t, ws, Claimed(longer[..k]))
              && longer[k].order == k + 1
    {
      if k < |entries| {
        assert longer[..k] == entries[..k];
      }
    }
  }

  ghost predicate AllFit(changes: seq<FileChange>, t: Tree, ws: Tree) {
    forall k :: 0 <= k < |changes| ==> Fits(changes[k], t, ws)
  }

  /** Plans every change, or none when one of them no longer fits. */
  method PlanEntries(host: Host, ws: Tree, changes: seq<FileChange>) returns (r: Outcome<Option<seq<Entry>>>)
    requires !host.dead && WellFormed(host.tree) && WellFormed(ws)
    requires forall k :: 0 <= k < |changes| ==> 0 < |changes[k].path|
    modifies host`dead, host`faults, host`tree, host`looked
    ensures host.tree == old(host.tree)
    ensures host.dead <==> r.Crashed?
    ensures host.faults <= old(host.faults)
    ensures r.Ok? && r.value.Some? ==> |r.value.value| == |changes| && CarriesAll(r.value.value, changes, host.tree, ws)
    ensures host.faults == old(host.faults) && AllFit(changes, host.tree, ws) ==> r.Ok? && r.value.Some?
  {
    hide WellFormed, Fits, Carries;
    var entries: seq<Entry> := [];
    var claimed: set<Path> := {};
    for k := 0 to |changes|
      invariant !host.dead && host.faults <= old(host.faults) && host.tree == old(host.tree)
      invariant |entries| == k && CarriesAll(entries, changes, host.tree, ws)
      invariant claimed == Claimed(entries)
    {
      var planned :- PlanOne(host, ws, changes[k], k + 1, claimed);
      if planned.None? {
        return Ok(None);
      }
      var e := planned.value;
      CarriesOneMore(entries, e, changes, host.tree, ws);
      claimed := claimed + set d | d in e.createdParents;
      entries := entries + [e];
    }
    return Ok(Some(entries));
  }

  // ---- the plan fits the tree it was made for ----

  lemma StampInjective(a: Snapshot, b: Snapshot)
    requires StampOf(a) == StampOf(b)
    ensures a == b
  {
  }

  /** A workspace holds no file below another, so no change sits where another needs a directory. */
  lemma NoChangeIsParent(a: FileChange, b: FileChange, t: Tree, ws: Tree, k: nat)
    requires WellFormed(t) && WellFormed(ws) && Fits(a, t, ws) && Fits(b, t, ws)
    requires 0 < k < |b.path| && b.path[..k] !in t.dirs && a.current.Some? && b.baseline != b.current
    ensures a.path != b.path[..k]
  {
    PrefixOfDirectory(t, b.path, k, |b.path| - 1);
    assert Parent(b.path) !in t.dirs;
    assert Leaf(b.path) !in t.files;
    assert b.current.Some?;
    assert Leaf(b.path) in ws.files && Parent(b.path) in ws.dirs;
    PrefixOfDirectory(ws, b.path, k, |b.path| - 1);
    assert b.path[..|b.path| - 1] == Parent(b.path);
    assert b.path[..k] in ws.dirs;
    assert Leaf(a.path) in ws.files;
  }

  /** What `IsDiff` gives about single changes. */
  lemma DiffParts(changes: seq<FileChange>, baseline: map<Path, Stamp>, current: map<Path, Stamp>,
                  targets: Option<set<Path>>, k: nat)
    requires IsDiff(changes, baseline, current, targets) && k < |changes|
    ensures ValidChange(changes[k]) && changes[k].baseline != changes[k].current
    ensures forall j :: 0 <= j < |changes| && j != k ==> changes[j].path != changes[k].path
  {
    assert Tells(changes[k], baseline, current, targets);
    forall j | 0 <= j < |changes| && j != k ensures changes[j].path != changes[k].path {
      BeforeStrict(changes[if j < k then j else k].path, changes[if j < k then k else j].path);
    }
  }

  /** Every pair of changes is a true change, at different paths. */
  ghost predicate Distinct(changes: seq<FileChange>) {
    && (forall k :: 0 <= k < |changes| ==> 0 < |changes[k].path| && ValidChange(changes[k]) && changes[k].baseline != changes[k].current)
    && (forall j, k :: 0 <= j < k < |changes| ==> changes[j].path != changes[k].path)
  }

  lemma DiffDistinct(changes: seq<FileChange>, baseline: map<Path, Stamp>, current: map<Path, Stamp>,
                     targets: Option<set<Path>>)
    requires IsDiff(changes, baseline, current, targets) && ValidPaths(baseline.Keys + current.Keys)
    ensures Distinct(changes)
  {
    forall k | 0 <= k < |changes|
      ensures 0 < |changes[k].path| && ValidChange(changes[k]) && changes[k].baseline != changes[k].current
      ensures forall j :: 0 <= j < |changes| && j != k ==> changes[j].path != changes[k].path
    {
      DiffParts(changes, baseline, current, targets, k);
      assert Tells(changes[k], baseline, current, targets);
      assert changes[k].path in baseline.Keys + current.Keys;
    }
  }

  lemma OwnersAreDisjoint(plan: Plan, changes: seq<FileChange>, t: Tree, ws: Tree)
    requires CarriesAll(plan.entries, changes, t, ws)
    ensures OwnersDisjoint(plan)
  {
    forall i, j, d | 0 <= i < j < |plan.entries| && d in plan.entries[i].createdParents
      ensures d !in plan.entries[j].createdParents
    {
      assert plan.entries[..j][i] == plan.entries[i];
      ClaimedBySome(plan.entries[..j], d);
      assert Carries(plan.entries[j], changes[j], t, ws, Claimed(plan.entries[..j]));
    }
  }

  lemma NotACreatedParent(plan: Plan, changes: seq<FileChange>, t: Tree, ws: Tree, k: nat, j: nat)
    requires WellFormed(t) && WellFormed(ws) && Distinct(changes)
    requires CarriesAll(plan.entries, changes, t, ws) && k < |plan.entries| && j < |plan.entries|
    ensures plan.entries[k].path !in plan.entries[j].createdParents
  {
    hide WellFormed;
    var a, b := plan.entries[k], plan.entries[j];
    assert Fits(changes[k], t, ws) && Fits(changes[j], t, ws);
    assert Carries(a, changes[k], t, ws, Claimed(plan.entries[..k])) && Carries(b, changes[j], t, ws, Claimed(plan.entries[..j]));
    if i :| 0 <= i < |b.createdParents| && b.createdParents[i] == a.path {
      assert changes[k].baseline.None?;
      NoChangeIsParent(changes[k], changes[j], t, ws, |a.path|);
    }
  }

  lemma CreatedInTime(plan: Plan, changes: seq<FileChange>, t: Tree, ws: Tree, k: nat, m: nat)
    requires CarriesAll(plan.entries, changes, t, ws) && k < |plan.entries|
    requires 0 < m < |plan.entries[k].path| && plan.entries[k].path[..m] !in t.dirs
    ensures CreatedUpTo(plan, plan.entries[k].path[..m], k)
  {
    var e := plan.entries[k];
    var d := e.path[..m];
    assert Carries(e, changes[k], t, ws, Claimed(plan.entries[..k]));
    if d !in e.createdParents {
      ClaimedBySome(plan.entries[..k], d);
      var i :| 0 <= i < k && d in plan.entries[..k][i].createdParents;
      assert d in plan.entries[i].createdParents;
    }
  }

  lemma EntryPlanned(plan: Plan, changes: seq<FileChange>, t: Tree, ws: Tree, k: nat)
    requires WellFormed(t) && WellFormed(ws) && NoTransactionNames(t) && Distinct(changes)
    requires CarriesAll(plan.entries, changes, t, ws) && k < |plan.entries|
    ensures PlannedEntry(plan, t, k)
  {
    hide WellFormed, CreatedUpTo, Unobstructed, Claimed;
    var e := plan.entries[k];
    assert Fits(changes[k], t, ws) && Carries(e, changes[k], t, ws, Claimed(plan.entries[..k]));
    assert ValidChange(changes[k]) && changes[k].baseline != changes[k].current;
    forall j | 0 <= j < |plan.entries| ensures e.path !in plan.entries[j].createdParents {
      NotACreatedParent(plan, changes, t, ws, k, j);
    }
    forall m | 0 < m < |e.path| ensures e.path[..m] in t.dirs || CreatedUpTo(plan, e.path[..m], k) {
      if e.path[..m] !in t.dirs {
        CreatedInTime(plan, changes, t, ws, k, m);
      }
    }
  }

  /** A plan made this way is one the transaction is proven for. */
  lemma PlanHolds(plan: Plan, changes: seq<FileChange>, t: Tree, ws: Tree)
    requires WellFormed(t) && WellFormed(ws) && NoTransactionNames(t) && Distinct(changes)
    requires CarriesAll(plan.entries, changes, t, ws) && plan.rootIdentity == Identity(t, [])
    ensures Planned(plan, t)
    ensures Ordered(changes) ==>
              forall i, j :: 0 <= i < j < |plan.entries| ==> Before(plan.entries[i].path, plan.entries[j].path)
  {
    hide WellFormed, Before;
    OwnersAreDisjoint(plan, changes, t, ws);
    forall k | 0 <= k < |plan.entries| ensures PlannedEntry(plan, t, k) && plan.entries[k].order == k + 1 {
      EntryPlanned(plan, changes, t, ws, k);
    }
    forall i, j | 0 <= i < j < |plan.entries|
      ensures plan.entries[i].path == changes[i].path != changes[j].path == plan.entries[j].path
    {
      assert Carries(plan.entries[i], changes[i], t, ws, Claimed(plan.entries[..i]));
      assert Carries(plan.entries[j], changes[j], t, ws, Claimed(plan.entries[..j]));
    }
  }
}
