/** Read-only looks at the target: snapshots, verification, leftover artifacts, created parents. */
module Inspection {
  import opened Wrappers
  import opened ApplyModels
  import opened TargetTree
  import opened Hosts
  import opened Directories
  import opened EntryEffects
  import opened TransactionTree

  /** The leaves of the listed entries were read, or their directories are missing. */
  predicate LeavesSeen(plan: Plan, t: Tree, looked: set<Name>, which: seq<nat>) {
    forall i :: 0 <= i < |which| && which[i] < |plan.entries| ==> Visited(t, looked, Leaf(plan.entries[which[i]].path))
  }

  /** So were all names that a transaction could have left. */
  predicate ArtifactsSeen(plan: Plan, t: Tree, looked: set<Name>) {
    forall k :: 0 <= k < |plan.entries| ==> EntryArtifactsSeen(t, looked, plan.entries[k])
  }

  predicate EntryArtifactsSeen(t: Tree, looked: set<Name>, e: Entry) {
    && Visited(t, looked, Quarantine(e.path))
    && (e.original.Some? ==> Visited(t, looked, Temporary(e.path, DigestOf(e.original).value)))
    && (e.desired.Some? ==> Visited(t, looked, Temporary(e.path, DigestOf(e.desired).value)))
  }

  predicate Visited(t: Tree, looked: set<Name>, n: Name) {
    n in looked || |n.path| == 0 || Parent(n.path) !in t.dirs
  }

  /** Everything the transaction is about was read since the tree last changed. */
  predicate EverythingSeen(plan: Plan, t: Tree, looked: set<Name>) {
    LeavesSeen(plan, t, looked, Everyone(plan)) && ArtifactsSeen(plan, t, looked)
  }

  lemma VisitsStay(plan: Plan, t: Tree, looked: set<Name>, more: set<Name>, which: seq<nat>)
    requires looked <= more
    ensures LeavesSeen(plan, t, looked, which) ==> LeavesSeen(plan, t, more, which)
    ensures ArtifactsSeen(plan, t, looked) ==> ArtifactsSeen(plan, t, more)
  {
  }

  lemma EverythingSeenIf(plan: Plan, t: Tree, looked: set<Name>)
    requires LeavesSeen(plan, t, looked, Everyone(plan)) && ArtifactsSeen(plan, t, looked)
    ensures EverythingSeen(plan, t, looked)
  {
  }

  /** What a path shows; a missing parent counts as a missing leaf. */
  method TakeSnapshot(host: Host, p: Path) returns (r: Outcome<Option<Snapshot>>)
    requires !host.dead && WellFormed(host.tree) && 0 < |p|
    modifies host`dead, host`faults, host`tree, host`looked
    ensures host.tree == old(host.tree)
    ensures host.dead <==> r.Crashed?
    ensures host.faults <= old(host.faults)
    ensures old(host.faults) <= host.faults + 1 || r.Crashed?
    ensures r.Ok? ==> host.faults == old(host.faults)
    ensures r.Raise? && Unobstructed(host.tree, p) && p !in host.tree.dirs ==> host.frail(Reading(Leaf(p)))
    ensures r.Raise? ==> r.error == ApplyFailure
    ensures r.Ok? ==> r.value == LeafAt(host.tree, p) && p !in host.tree.dirs
    ensures host.faults == old(host.faults) && Unobstructed(host.tree, p) && p !in host.tree.dirs ==> r.Ok?
    ensures old(host.looked) <= host.looked
    ensures r.Ok? ==> Visited(host.tree, host.looked, Leaf(p))
  {
    hide Unobstructed, Matches;
    var walked, created, made, chain := OpenParent(host, p, false, []);
    if !walked.Ok? {
      NoNamesWithoutParent(host.tree, p);
      assert LeafAt(host.tree, p).None?;
      return if walked == Raise(FileNotFound) then Ok(None) else if walked.Crashed? then Crashed else Raise(ApplyFailure);
    }
    r := host.SnapshotAt(Leaf(p));
  }

  /** Whether every listed entry shows its desired (or its original) snapshot. Errors count as no. */
  method VerifyLeaves(host: Host, plan: Plan, which: seq<nat>, wantNew: bool, ghost t0: Tree) returns (r: Outcome<bool>)
    requires !host.dead && Planned(plan, t0) && SafeTree(plan, t0, host.tree)
    requires forall i :: 0 <= i < |which| ==> which[i] < |plan.entries|
    modifies host`dead, host`faults, host`tree, host`looked
    ensures host.tree == old(host.tree)
    ensures host.dead <==> r.Crashed?
    ensures host.faults <= old(host.faults)
    ensures r == Ok(true) ==> host.faults == old(host.faults)
    ensures !r.Raise?
    ensures r == Ok(true) ==> forall i :: 0 <= i < |which| ==> LeafIs(host.tree, plan.entries[which[i]], wantNew)
    ensures host.faults == old(host.faults)
            && (forall i :: 0 <= i < |which| ==> LeafIs(host.tree, plan.entries[which[i]], wantNew))
            ==> r == Ok(true)
    ensures old(host.looked) <= host.looked
    ensures r == Ok(true) ==> LeavesSeen(plan, host.tree, host.looked, which)
  {
    hide Planned, SafeTree, WellFormed;
    for i := 0 to |which|
      invariant !host.dead && host.faults == old(host.faults) && host.tree == old(host.tree)
      invariant forall j :: 0 <= j < i ==> LeafIs(host.tree, plan.entries[which[j]], wantNew)
      invariant old(host.looked) <= host.looked
      invariant forall j :: 0 <= j < i ==> Visited(host.tree, host.looked, Leaf(plan.entries[which[j]].path))
    {
      var e := plan.entries[which[i]];
      EntryIsInspectable(plan, t0, host.tree, which[i]);
      var seen := TakeSnapshot(host, e.path);
      if seen.Crashed? {
        return Crashed;
      }
      if seen.Raise? || seen.value != (if wantNew then e.desired else e.original) {
        return Ok(false);
      }
    }
    return Ok(true);
  }

  predicate LeafIs(t: Tree, e: Entry, wantNew: bool) {
    LeafAt(t, e.path) == if wantNew then e.desired else e.original
  }

  lemma EntryIsInspectable(plan: Plan, t0: Tree, t: Tree, k: nat)
    requires Planned(plan, t0) && SafeTree(plan, t0, t) && k < |plan.entries|
    ensures WellFormed(t) && ValidEntry(plan.entries[k]) && 0 < |plan.entries[k].path|
    ensures plan.entries[k].path !in t.dirs && Unobstructed(t, plan.entries[k].path)
  {
    PathIsNoDirectory(plan, t0, t, k);
    PlannedUnobstructed(plan, t0, t, k);
    assert PlannedEntry(plan, t0, k);
  }

  function Everyone(plan: Plan): seq<nat> {
    seq(|plan.entries|, i requires 0 <= i < |plan.entries| => i)
  }

  /** Looks for one leftover name; an error counts as found. */
  method NameAbsent(host: Host, n: Name) returns (r: Outcome<bool>)
    requires !host.dead && !n.Leaf?
    modifies host`dead, host`faults, host`looked
    ensures host.dead <==> r.Crashed?
    ensures host.faults <= old(host.faults)
    ensures r == Ok(true) ==> host.faults == old(host.faults)
    ensures !r.Raise?
    ensures r == Ok(true) ==> Lookup(host.tree, n).None?
    ensures host.faults == old(host.faults) ==> r == Ok(Lookup(host.tree, n).None?)
    ensures old(host.looked) <= host.looked
    ensures r == Ok(true) ==> n in host.looked
  {
    var seen := host.SnapshotAt(n);
    if seen.Crashed? {
      return Crashed;
    }
    return Ok(seen.Ok? && seen.value.None?);
  }

  method TemporaryAbsent(host: Host, p: Path, x: Option<Snapshot>) returns (r: Outcome<bool>)
    requires !host.dead
    modifies host`dead, host`faults, host`looked
    ensures host.dead <==> r.Crashed?
    ensures host.faults <= old(host.faults)
    ensures r == Ok(true) ==> host.faults == old(host.faults)
    ensures !r.Raise?
    ensures r == Ok(true) ==> TemporaryAt(host.tree, p, DigestOf(x)).None?
    ensures host.faults == old(host.faults) ==> r == Ok(TemporaryAt(host.tree, p, DigestOf(x)).None?)
    ensures old(host.looked) <= host.looked
    ensures r == Ok(true) && x.Some? ==> Temporary(p, DigestOf(x).value) in host.looked
  {
    if x.None? {
      return Ok(true);
    }
    r := NameAbsent(host, Temporary(p, OfContent(x.value.content)));
  }

  /** No quarantine and neither temporary is left next to the path of `e`. */
  method EntryArtifactsAbsent(host: Host, e: Entry) returns (r: Outcome<bool>)
    requires !host.dead && WellFormed(host.tree) && 0 < |e.path|
    modifies host`dead, host`faults, host`tree, host`looked
    ensures host.tree == old(host.tree)
    ensures host.dead <==> r.Crashed?
    ensures host.faults <= old(host.faults)
    ensures r == Ok(true) ==> host.faults == old(host.faults)
    ensures !r.Raise?
    ensures r == Ok(true) ==> NoArtifacts(host.tree, e)
    ensures host.faults == old(host.faults) && Unobstructed(host.tree, e.path) ==> r == Ok(NoArtifacts(host.tree, e))
    ensures old(host.looked) <= host.looked
    ensures r == Ok(true) ==> EntryArtifactsSeen(host.tree, host.looked, e)
  {
    hide Unobstructed, Matches;
    var walked, created, made, chain := OpenParent(host, e.path, false, []);
    if walked.Crashed? {
      return Crashed;
    }
    if walked.Raise? {
      NoNamesWithoutParent(host.tree, e.path);
      return Ok(walked.error == FileNotFound);
    }
    var quarantine :- NameAbsent(host, Quarantine(e.path));
    if !quarantine {
      return Ok(false);
    }
    var before :- TemporaryAbsent(host, e.path, e.original);
    if !before {
      return Ok(false);
    }
    r := TemporaryAbsent(host, e.path, e.desired);
  }

  method ArtifactsAbsent(host: Host, plan: Plan, ghost t0: Tree) returns (r: Outcome<bool>)
    requires !host.dead && Planned(plan, t0) && SafeTree(plan, t0, host.tree)
    modifies host`dead, host`faults, host`tree, host`looked
    ensures host.tree == old(host.tree)
    ensures host.dead <==> r.Crashed?
    ensures host.faults <= old(host.faults)
    ensures r == Ok(true) ==> host.faults == old(host.faults)
    ensures !r.Raise?
    ensures r == Ok(true) ==> forall k :: 0 <= k < |plan.entries| ==> NoArtifacts(host.tree, plan.entries[k])
    ensures host.faults == old(host.faults)
            && (forall k :: 0 <= k < |plan.entries| ==> NoArtifacts(host.tree, plan.entries[k]))
            ==> r == Ok(true)
    ensures old(host.looked) <= host.looked
    ensures r == Ok(true) ==> ArtifactsSeen(plan, host.tree, host.looked)
  {
    hide Planned, SafeTree, WellFormed;
    for k := 0 to |plan.entries|
      invariant !host.dead && host.faults == old(host.faults) && host.tree == old(host.tree)
      invariant forall j :: 0 <= j < k ==> NoArtifacts(host.tree, plan.entries[j])
      invariant old(host.looked) <= host.looked
      invariant forall j :: 0 <= j < k ==> EntryArtifactsSeen(host.tree, host.looked, plan.entries[j])
    {
      EntryIsInspectable(plan, t0, host.tree, k);
      var one :- EntryArtifactsAbsent(host, plan.entries[k]);
      if !one {
        return Ok(false);
      }
    }
    return Ok(true);
  }

  /** No created parent of the listed entries exists. */
  predicate ParentsRestored(t: Tree, plan: Plan, which: seq<nat>)
    requires forall i :: 0 <= i < |which| ==> which[i] < |plan.entries|
  {
    forall i :: 0 <= i < |which| ==>
      forall d :: d in plan.entries[which[i]].createdParents ==> d !in t.dirs
  }

  /** The root and the parents that existed when the plan was made are still the same directories. */
  predicate IdentityMatches(t: Tree, plan: Plan) {
    && [] in t.dirs && Identity(t, []) == plan.rootIdentity
    && forall k :: 0 <= k < |plan.entries| && 0 < |plan.entries[k].path| && plan.entries[k].parentIdentity.Some? ==>
         && Parent(plan.entries[k].path) in t.dirs
         && Some(Identity(t, Parent(plan.entries[k].path))) == plan.entries[k].parentIdentity
  }

  lemma IdentityKept(plan: Plan, t0: Tree, t: Tree)
    requires Planned(plan, t0) && SafeTree(plan, t0, t)
    ensures IdentityMatches(t, plan)
  {
    forall k | 0 <= k < |plan.entries| && 0 < |plan.entries[k].path| && plan.entries[k].parentIdentity.Some?
      ensures && Parent(plan.entries[k].path) in t.dirs
              && Some(Identity(t, Parent(plan.entries[k].path))) == plan.entries[k].parentIdentity
    {
      assert PlannedEntry(plan, t0, k);
    }
  }
}
