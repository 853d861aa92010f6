/** Diff then apply: what a change set does to the target over a whole lifetime. */
module Delivery {
  import opened Wrappers
  import opened ApplyModels
  import opened TargetTree
  import opened Hosts
  import opened Directories
  import opened TransactionTree
  import opened Inspection
  import opened Recovery
  import opened ApplyBackup
  import opened Apply
  import opened Changesets
  import opened Planning

  /** `current` holds the stamps of the workspace files. */
  ghost predicate Stamped(current: map<Path, Stamp>, ws: Tree) {
    forall p :: At(current, p) == StampAt(ws, p)
  }

  /** The old target overridden by the workspace on exactly the paths where it left the baseline;
      directories were added only above such paths, and nothing else is left behind. */
  ghost predicate Delivered(t0: Tree, t: Tree, baseline: map<Path, Stamp>, ws: Tree) {
    && (forall p :: LeafAt(t, p) == if At(baseline, p) != StampAt(ws, p) then LeafAt(ws, p) else LeafAt(t0, p))
    && NoTransactionNames(t)
    && (forall d :: d in t.dirs <==> d in t0.dirs || (0 < |d| && AboveChange(d, baseline, ws)))
    && (forall d :: d in t0.dirs ==> t.dirs[d] == t0.dirs[d])
  }

  ghost predicate AboveChange(d: Path, baseline: map<Path, Stamp>, ws: Tree) {
    exists p :: ProperPrefix(d, p) && At(baseline, p) != StampAt(ws, p)
  }

  lemma LeafDelivered(plan: Plan, changes: seq<FileChange>, t0: Tree, t: Tree, ws: Tree,
                      baseline: map<Path, Stamp>, current: map<Path, Stamp>, targets: Option<set<Path>>, p: Path)
    requires IsDiff(changes, baseline, current, targets) && Stamped(current, ws)
    requires |plan.entries| == |changes| && CarriesAll(plan.entries, changes, t0, ws)
    requires AppliedTree(plan, t0, t)
    ensures LeafAt(t, p) == if At(baseline, p) != StampAt(ws, p) then LeafAt(ws, p) else LeafAt(t0, p)
  {
    if Mentions(changes, p) {
      var k :| 0 <= k < |changes| && changes[k].path == p;
      assert Carries(plan.entries[k], changes[k], t0, ws, Claimed(plan.entries[..k]));
      assert Tells(changes[k], baseline, current, targets);
      assert At(current, p) == StampAt(ws, p);
    } else {
      assert At(baseline, p) == At(current, p) == StampAt(ws, p);
      forall k | 0 <= k < |plan.entries| ensures !OwnName(plan.entries[k], Leaf(p)) {
        assert Carries(plan.entries[k], changes[k], t0, ws, Claimed(plan.entries[..k]));
        assert changes[k].path != p;
      }
      assert Foreign(plan, Leaf(p));
    }
  }

  lemma NothingLeftBehind(plan: Plan, t0: Tree, t: Tree)
    requires NoTransactionNames(t0) && AppliedTree(plan, t0, t)
    ensures NoTransactionNames(t)
  {
    forall n | n in t.files ensures n.Leaf? {
      if Foreign(plan, n) {
        assert Lookup(t, n) == Lookup(t0, n);
      } else {
        var k :| 0 <= k < |plan.entries| && OwnName(plan.entries[k], n);
      }
    }
  }

  lemma PlanDirectoryIsAbove(plan: Plan, changes: seq<FileChange>, t0: Tree, ws: Tree,
                           baseline: map<Path, Stamp>, current: map<Path, Stamp>, targets: Option<set<Path>>, d: Path)
    requires IsDiff(changes, baseline, current, targets) && Stamped(current, ws)
    requires |plan.entries| == |changes| && CarriesAll(plan.entries, changes, t0, ws)
    requires PlanDirectory(plan, d)
    ensures 0 < |d| && AboveChange(d, baseline, ws)
  {
    var k :| 0 <= k < |plan.entries| && d in plan.entries[k].createdParents;
    assert Carries(plan.entries[k], changes[k], t0, ws, Claimed(plan.entries[..k]));
    assert Tells(changes[k], baseline, current, targets);
    assert ProperPrefix(d, changes[k].path) && At(current, changes[k].path) == StampAt(ws, changes[k].path);
  }

  lemma AboveIsPlanDirectory(plan: Plan, changes: seq<FileChange>, t0: Tree, ws: Tree,
                           baseline: map<Path, Stamp>, current: map<Path, Stamp>, targets: Option<set<Path>>, d: Path)
    requires IsDiff(changes, baseline, current, targets) && Stamped(current, ws)
    requires |plan.entries| == |changes| && CarriesAll(plan.entries, changes, t0, ws)
    requires 0 < |d| && AboveChange(d, baseline, ws) && d !in t0.dirs
    ensures PlanDirectory(plan, d)
  {
    var p :| ProperPrefix(d, p) && At(baseline, p) != StampAt(ws, p);
    assert At(current, p) == StampAt(ws, p);
    assert Mentions(changes, p);
    var k :| 0 <= k < |changes| && changes[k].path == p;
    assert Carries(plan.entries[k], changes[k], t0, ws, Claimed(plan.entries[..k]));
    assert p[..|d|] == d;
    if d !in plan.entries[k].createdParents {
      ClaimedBySome(plan.entries[..k], d);
      var i :| 0 <= i < k && d in plan.entries[..k][i].createdParents;
      assert d in plan.entries[i].createdParents;
    }
  }

  /** An applied plan delivers the change set it was made from. */
  lemma AppliedDelivers(plan: Plan, changes: seq<FileChange>, t0: Tree, t: Tree, ws: Tree,
                        baseline: map<Path, Stamp>, current: map<Path, Stamp>, targets: Option<set<Path>>)
    requires IsDiff(changes, baseline, current, targets) && Stamped(current, ws)
    requires |plan.entries| == |changes| && CarriesAll(plan.entries, changes, t0, ws)
    requires NoTransactionNames(t0) && AppliedTree(plan, t0, t)
    ensures Delivered(t0, t, baseline, ws)
  {
    hide IsDiff, Stamped, CarriesAll, StampAt, AboveChange, PlanDirectory, Foreign, OwnName;
    NothingLeftBehind(plan, t0, t);
    forall p ensures LeafAt(t, p) == if At(baseline, p) != StampAt(ws, p) then LeafAt(ws, p) else LeafAt(t0, p) {
      LeafDelivered(plan, changes, t0, t, ws, baseline, current, targets, p);
    }
    forall d ensures d in t.dirs <==> d in t0.dirs || (0 < |d| && AboveChange(d, baseline, ws)) {
      if PlanDirectory(plan, d) {
        PlanDirectoryIsAbove(plan, changes, t0, ws, baseline, current, targets, d);
      } else if 0 < |d| && AboveChange(d, baseline, ws) && d !in t0.dirs {
        AboveIsPlanDirectory(plan, changes, t0, ws, baseline, current, targets, d);
      }
    }
  }

  /** A target that held the baseline holds the workspace after delivery. */
  lemma DeliveredIsWorkspace(t0: Tree, t: Tree, baseline: map<Path, Stamp>, ws: Tree)
    requires Delivered(t0, t, baseline, ws)
    requires forall p :: p in baseline || LeafAt(ws, p).Some? ==> StampAt(t0, p) == At(baseline, p)
    ensures forall p :: p in baseline || LeafAt(ws, p).Some? ==> LeafAt(t, p) == LeafAt(ws, p)
  {
    forall p | p in baseline || LeafAt(ws, p).Some? ensures LeafAt(t, p) == LeafAt(ws, p) {
      assert StampAt(t0, p) == At(baseline, p);
      if At(baseline, p) == StampAt(ws, p) && LeafAt(t0, p).Some? {
        StampInjective(LeafAt(t0, p).value, LeafAt(ws, p).value);
      }
    }
  }

  /** No journal of the transaction exists and the target is an ordinary tree. */
  ghost predicate NothingBegun(host: Host)
    reads host`planFile, host`stamp, host`log, host`torn, host`tree, host`blobs
  {
    && host.planFile.None? && host.stamp == 0 && host.log == [] && !host.torn && host.blobs == map[]
    && WellFormed(host.tree) && NoTransactionNames(host.tree)
  }

  /** The plan is made of the change set and begins on a target it describes. */
  method Prepare(host: Host, ws: Tree, changes: seq<FileChange>, changesDigest: Digest, planDigest: Digest)
    returns (r: Outcome<Option<Plan>>)
    requires !host.dead && NothingBegun(host) && WellFormed(ws) && Distinct(changes)
    modifies host`dead, host`faults, host`tree, host`looked
    ensures host.tree == old(host.tree)
    ensures host.dead <==> r.Crashed?
    ensures host.faults <= old(host.faults)
    ensures r.Ok? && r.value.Some? ==>
              && Fresh(r.value.value, host.tree, host)
              && |r.value.value.entries| == |changes|
              && CarriesAll(r.value.value.entries, changes, host.tree, ws)
    ensures host.faults == old(host.faults) && AllFit(changes, host.tree, ws) ==>
              && r.Ok? && r.value.Some?
              && r.value.value.indexDigest == host.index && r.value.value.changesDigest == changesDigest
  {
    hide WellFormed, CarriesAll, Planned, AllFit;
    RootExists(host.tree);
    var index :- host.IndexDigest();
    var entries :- PlanEntries(host, ws, changes);
    if entries.None? {
      return Ok(None);
    }
    var plan := Plan(changesDigest, index, Identity(host.tree, []), entries.value, planDigest);
    PlanHolds(plan, changes, host.tree, ws);
    return Ok(Some(plan));
  }

  /** A change set applied, cut off or failing anywhere, with any number of later runs. An APPLIED
      verdict means it was delivered, a ROLLED_BACK one that the target is as before; without a plan
      the target is not touched. Undisturbed, and fitting the target, it is delivered at once. */
  method DeliverChangeSet(host: Host, baseline: map<Path, Stamp>, ws: Tree, ghost current: map<Path, Stamp>,
                          changes: seq<FileChange>, ghost targets: Option<set<Path>>,
                          changesDigest: Digest, planDigest: Digest, restarts: seq<Restart>)
    returns (verdicts: seq<Outcome<Verdict>>)
    requires !host.dead && NothingBegun(host) && WellFormed(ws) && Stamped(current, ws)
    requires ValidPaths(baseline.Keys + current.Keys) && IsDiff(changes, baseline, current, targets)
    modifies host`dead, host`faults, host`frail, host`tree, host`looked, host`planFile, host`log, host`torn, host`stamp, host`blobs
    ensures Ok(IsApplied) in verdicts ==> Delivered(old(host.tree), host.tree, baseline, ws)
    ensures Ok(IsRolledBack) in verdicts ==> host.tree == old(host.tree)
    ensures !(Ok(IsApplied) in verdicts && Ok(IsRolledBack) in verdicts)
    ensures !AllFit(changes, old(host.tree), ws) ==> verdicts == [] && host.tree == old(host.tree)
    ensures old(host.faults) == 0 && AllFit(changes, old(host.tree), ws) && old(host.changes) == changesDigest ==>
              Ok(IsApplied) in verdicts
  {
    hide WellFormed, IsDiff, Stamped, CarriesAll, AppliedTree, Delivered, Fits;
    DiffDistinct(changes, baseline, current, targets);
    ghost var t0 := host.tree;
    var prepared := Prepare(host, ws, changes, changesDigest, planDigest);
    if !prepared.Ok? || prepared.value.None? {
      return [];
    }
    var plan := prepared.value.value;
    CarriesFits(plan.entries, changes, t0, ws);
    SteadyParts(host, plan);
    ghost var disks;
    verdicts, disks := Lifetime(host, plan, t0, restarts);
    if Ok(IsApplied) in verdicts {
      AppliedDelivers(plan, changes, t0, host.tree, ws, baseline, current, targets);
    }
  }

  lemma CarriesFits(entries: seq<Entry>, changes: seq<FileChange>, t: Tree, ws: Tree)
    requires CarriesAll(entries, changes, t, ws) && |entries| == |changes|
    ensures AllFit(changes, t, ws)
  {
  }
}
