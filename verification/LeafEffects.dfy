/** Replacing what one path holds: quarantine the old leaf, publish the new one, drop the quarantine. */
module LeafEffects {
  import opened Wrappers
  import opened ApplyModels
  import opened TargetTree
  import opened Hosts

  /** Only the given names may differ. */
  ghost predicate OnlyNames(t: Tree, u: Tree, names: set<Name>) {
    u.dirs == t.dirs && forall n: Name :: n !in names ==> Lookup(u, n) == Lookup(t, n)
  }

  /** The directory of `p` is open and `p` itself is no directory. */
  ghost predicate Reachable(t: Tree, p: Path) {
    WellFormed(t) && 0 < |p| && Parent(p) in t.dirs && p !in t.dirs
  }

  /** A failure of this kind leaves no doubt about the effect at `p`: nothing of it is visible yet, or
      it can be taken back. `had` tells whether the path held something before. */
  predicate HarmlessAt(s: Step, p: Path, had: bool) {
    match s
    case Reading(n) => n == Quarantine(p) ==> !had
    case Creating(n) => n.path == p ==> had && !n.Quarantine?
    case Rewriting(n) => n.path == p ==> had && n.Temporary?
    case Linking(n) => n.path == p ==> had && n.Leaf?
    case Unlinking(n) => n.path != p
    case Syncing => false
    case BlobReading => false
    case _ => true
  }

  /** Only harmless kinds of steps can fail at `p`. */
  ghost predicate GentleAt(frail: Step -> bool, p: Path, had: bool) {
    forall s :: frail(s) ==> HarmlessAt(s, p, had)
  }

  /** Nothing is at the leaf and at the temporary. */
  predicate BothFree(t: Tree, p: Path, d: Digest) {
    LeafAt(t, p).None? && Temporary(p, d) !in t.files
  }

  /** Creates the temporary and writes it chunk by chunk. */
  method WriteTemporary(host: Host, p: Path, y: Snapshot, d: Digest) returns (r: Outcome<()>, present: bool)
    requires !host.dead && Reachable(host.tree, p)
    modifies host`dead, host`faults, host`tree, host`looked
    ensures host.dead <==> r.Crashed?
    ensures host.faults <= old(host.faults) <= host.faults + 1
    ensures r.Ok? ==> host.faults == old(host.faults) && present
    ensures Reachable(host.tree, p)
    ensures OnlyNames(old(host.tree), host.tree, {Temporary(p, d)})
    ensures r.Ok? ==> Lookup(host.tree, Temporary(p, d)) == Some(y.(kind := RegularFile))
    ensures Temporary(p, d) !in old(host.tree).files ==> (present <==> Temporary(p, d) in host.tree.files)
    ensures host.faults == old(host.faults) && Temporary(p, d) !in old(host.tree).files ==> r.Ok?
    ensures GentleAt(host.frail, p, false) && Temporary(p, d) !in old(host.tree).files ==> !r.Raise?
  {
    hide WellFormed;
    var temp := Temporary(p, d);
    present := false;
    var made := host.Create(temp, Snapshot([], RegularFile, false));
    if !made.Ok? {
      return made, present;
    }
    present := true;
    var written := 0;
    while written < |y.content|
      invariant 0 <= written <= |y.content|
      invariant !host.dead && host.faults == old(host.faults) && Reachable(host.tree, p)
      invariant OnlyNames(old(host.tree), host.tree, {temp})
      invariant Lookup(host.tree, temp) == Some(Snapshot(y.content[..written], RegularFile, false))
    {
      var chunk :| 1 <= chunk <= |y.content| - written;
      var w := host.Rewrite(temp, Snapshot(y.content[..written + chunk], RegularFile, false));
      if !w.Ok? {
        return w, present;
      }
      written := written + chunk;
    }
    assert y.content[..written] == y.content;
    var chmod := host.Rewrite(temp, y.(kind := RegularFile));
    if !chmod.Ok? {
      return chmod, present;
    }
    r := host.Fsync();
  }

  /** The write, chmod, link and unlink steps; `present` tells whether the temporary is there at the end. */
  method PublishTemporary(host: Host, p: Path, y: Snapshot, d: Digest) returns (r: Outcome<()>, present: bool)
    requires !host.dead && Reachable(host.tree, p)
    modifies host`dead, host`faults, host`tree, host`looked
    ensures host.dead <==> r.Crashed?
    ensures host.faults <= old(host.faults) <= host.faults + 1
    ensures r.Ok? ==> host.faults == old(host.faults)
    ensures Reachable(host.tree, p)
    ensures OnlyNames(old(host.tree), host.tree, {Leaf(p), Temporary(p, d)})
    ensures LeafAt(host.tree, p) == LeafAt(old(host.tree), p)
            || (LeafAt(old(host.tree), p).None? && LeafAt(host.tree, p) == Some(y.(kind := RegularFile)))
    ensures r.Ok? ==> LeafAt(old(host.tree), p).None? && LeafAt(host.tree, p) == Some(y.(kind := RegularFile))
    ensures r.Ok? ==> Temporary(p, d) !in host.tree.files
    ensures Temporary(p, d) !in old(host.tree).files ==> (present <==> Temporary(p, d) in host.tree.files)
    ensures host.faults == old(host.faults) && BothFree(old(host.tree), p, d) ==> r.Ok?
    ensures GentleAt(host.frail, p, true) && r.Raise? ==> LeafAt(host.tree, p) == LeafAt(old(host.tree), p)
    ensures GentleAt(host.frail, p, false) && BothFree(old(host.tree), p, d) ==> !r.Raise?
  {
    hide WellFormed;
    r, present := WriteTemporary(host, p, y, d);
    if !r.Ok? {
      return;
    }
    r := host.Link(Temporary(p, d), Leaf(p));
    if !r.Ok? {
      return;
    }
    r := host.Unlink(Temporary(p, d));
    if !r.Ok? {
      return;
    }
    present := false;
    r := host.Fsync();
  }

  method WriteRegularAtomic(host: Host, p: Path, y: Snapshot, d: Digest) returns (r: Outcome<()>)
    requires !host.dead && Reachable(host.tree, p)
    modifies host`dead, host`faults, host`tree, host`looked
    ensures host.dead <==> r.Crashed?
    ensures host.faults <= old(host.faults)
    ensures r.Ok? ==> host.faults == old(host.faults)
    ensures Reachable(host.tree, p)
    ensures OnlyNames(old(host.tree), host.tree, {Leaf(p), Temporary(p, d)})
    ensures LeafAt(host.tree, p) == LeafAt(old(host.tree), p)
            || (LeafAt(old(host.tree), p).None? && LeafAt(host.tree, p) == Some(y.(kind := RegularFile)))
    ensures r.Ok? ==> LeafAt(old(host.tree), p).None? && LeafAt(host.tree, p) == Some(y.(kind := RegularFile))
    ensures r.Ok? ==> Temporary(p, d) !in host.tree.files
    ensures host.faults == old(host.faults) && BothFree(old(host.tree), p, d) ==> r.Ok?
    ensures GentleAt(host.frail, p, true) && r.Raise? && BothFree(old(host.tree), p, d)
            && old(host.faults) <= host.faults + 1
            ==> BothFree(host.tree, p, d)
    ensures GentleAt(host.frail, p, false) && BothFree(old(host.tree), p, d) ==> !r.Raise?
  {
    hide GentleAt;
    var present;
    r, present := PublishTemporary(host, p, y, d);
    if r.Raise? && present {
      var removed := host.Unlink(Temporary(p, d));
      if removed.Ok? {
        removed := host.Fsync();
      }
      if removed.Crashed? {
        return Crashed;
      }
    }
  }

  /** A second name for a quarantined file, or the same symlink once more; then drops the quarantine. */
  method RestoreQuarantined(host: Host, p: Path, x: Snapshot) returns (r: Outcome<bool>)
    requires !host.dead && Reachable(host.tree, p)
    requires QuarantineAt(host.tree, p).None? || QuarantineAt(host.tree, p) == Some(x)
    modifies host`dead, host`faults, host`tree, host`looked
    ensures host.dead <==> r.Crashed?
    ensures host.faults <= old(host.faults)
    ensures !r.Raise?
    ensures Reachable(host.tree, p)
    ensures OnlyNames(old(host.tree), host.tree, {Leaf(p), Quarantine(p)})
    ensures QuarantineAt(host.tree, p).None? || QuarantineAt(host.tree, p) == Some(x)
    ensures LeafAt(host.tree, p) == LeafAt(old(host.tree), p) || LeafAt(host.tree, p) == Some(x)
    ensures QuarantineAt(host.tree, p) == QuarantineAt(old(host.tree), p) || LeafAt(host.tree, p) == Some(x)
    ensures r == Ok(true) ==> Settled(host.tree, p, Some(x))
    ensures host.faults == old(host.faults) && QuarantineAt(old(host.tree), p) == Some(x)
            && LeafAt(old(host.tree), p).None?
            ==> r == Ok(true)
  {
    var named;
    if x.kind.RegularFile? {
      named := host.Link(Quarantine(p), Leaf(p));
    } else {
      named := host.Create(Leaf(p), x);
    }
    if named.Crashed? {
      return Crashed;
    }
    if named.Raise? {
      return Ok(false);
    }
    var dropped := host.Unlink(Quarantine(p));
    if dropped.Ok? {
      dropped := host.Fsync();
    }
    if dropped.Crashed? {
      return Crashed;
    }
    return Ok(dropped.Ok?);
  }

  /** Links the leaf aside, checks that the link holds `x`, and unlinks the leaf. */
  method QuarantineLeaf(host: Host, p: Path, x: Snapshot) returns (r: Outcome<()>)
    requires !host.dead && Reachable(host.tree, p)
    modifies host`dead, host`faults, host`tree, host`looked
    ensures host.dead <==> r.Crashed?
    ensures host.faults <= old(host.faults)
    ensures r.Raise? ==> r.error == UncertainEffect
    ensures Reachable(host.tree, p)
    ensures OnlyNames(old(host.tree), host.tree, {Leaf(p), Quarantine(p)})
    ensures QuarantineAt(old(host.tree), p).Some? ==> host.tree == old(host.tree) && !r.Ok?
    ensures QuarantineAt(old(host.tree), p).None? ==>
              QuarantineAt(host.tree, p).None? || QuarantineAt(host.tree, p) == LeafAt(old(host.tree), p)
    ensures LeafAt(host.tree, p) == LeafAt(old(host.tree), p)
            || (LeafAt(host.tree, p).None? && LeafAt(old(host.tree), p) == Some(x) == QuarantineAt(host.tree, p))
    ensures r.Ok? ==> LeafAt(host.tree, p).None? && QuarantineAt(host.tree, p) == Some(x)
    ensures host.faults == old(host.faults) && Settled(old(host.tree), p, Some(x)) ==> r.Ok?
    ensures r.Ok? ==> host.faults == old(host.faults)
    ensures GentleAt(host.frail, p, true) && Settled(old(host.tree), p, Some(x)) ==> !r.Raise?
  {
    hide WellFormed, GentleAt;
    r := LinkAside(host, p, x);
    if !r.Ok? {
      return r;
    }
    var step := host.Unlink(Leaf(p));
    if step.Ok? {
      step := host.Fsync();
    }
    if GentleAt(host.frail, p, true) {
      GentleUnlinks(host.frail, p);
    }
    return if step.Raise? then Raise(UncertainEffect) else step;
  }

  lemma GentleUnlinks(frail: Step -> bool, p: Path)
    requires GentleAt(frail, p, true)
    ensures !frail(Unlinking(Leaf(p))) && !frail(Syncing)
  {
  }

  /** Gives the leaf its second name and checks what it holds; a foreign content loses the name again. */
  method LinkAside(host: Host, p: Path, x: Snapshot) returns (r: Outcome<()>)
    requires !host.dead && Reachable(host.tree, p)
    modifies host`dead, host`faults, host`tree, host`looked
    ensures host.dead <==> r.Crashed?
    ensures host.faults <= old(host.faults)
    ensures r.Raise? ==> r.error == UncertainEffect
    ensures Reachable(host.tree, p)
    ensures OnlyNames(old(host.tree), host.tree, {Quarantine(p)})
    ensures QuarantineAt(old(host.tree), p).Some? ==> host.tree == old(host.tree) && !r.Ok?
    ensures QuarantineAt(old(host.tree), p).None? ==>
              QuarantineAt(host.tree, p).None? || QuarantineAt(host.tree, p) == LeafAt(old(host.tree), p)
    ensures r.Ok? ==> LeafAt(host.tree, p) == Some(x) == QuarantineAt(host.tree, p)
    ensures host.faults == old(host.faults) && Settled(old(host.tree), p, Some(x)) ==> r.Ok?
    ensures r.Ok? ==> host.faults == old(host.faults)
    ensures GentleAt(host.frail, p, true) && Settled(old(host.tree), p, Some(x)) ==> !r.Raise?
  {
    hide WellFormed;
    var step := host.Link(Leaf(p), Quarantine(p));
    if step.Ok? {
      step := host.Fsync();
    }
    if !step.Ok? {
      return if step.Raise? then Raise(UncertainEffect) else step;
    }
    var seen := host.SnapshotAt(Quarantine(p));
    if seen.Crashed? {
      return Crashed;
    }
    if seen.Raise? {
      return Raise(UncertainEffect);
    }
    if seen.value != Some(x) {
      var dropped := host.Unlink(Quarantine(p));
      return if dropped.Crashed? then Crashed else Raise(UncertainEffect);
    }
    return Ok(());
  }

  /** Puts `y` under a free leaf name, or nothing. */
  method PublishLeaf(host: Host, p: Path, y: Option<Snapshot>) returns (r: Outcome<()>)
    requires !host.dead && Reachable(host.tree, p)
    modifies host`dead, host`faults, host`tree, host`looked
    ensures host.dead <==> r.Crashed?
    ensures host.faults <= old(host.faults)
    ensures Reachable(host.tree, p)
    ensures y.None? ==> host.tree == old(host.tree) && r.Ok?
    ensures y.Some? ==> OnlyNames(old(host.tree), host.tree, {Leaf(p), Temporary(p, DigestOf(y).value)})
    ensures LeafAt(host.tree, p) == LeafAt(old(host.tree), p)
            || (LeafAt(old(host.tree), p).None? && LeafAt(host.tree, p) == y)
    ensures r.Ok? && LeafAt(old(host.tree), p).None? ==> LeafAt(host.tree, p) == y
    ensures r.Ok? && y.Some? && y.value.kind.RegularFile? ==> TemporaryAt(host.tree, p, DigestOf(y)).None?
    ensures r.Ok? && y.Some? && y.value.kind.Symlink? ==>
              TemporaryAt(host.tree, p, DigestOf(y)) == TemporaryAt(old(host.tree), p, DigestOf(y))
    ensures host.faults == old(host.faults) && LeafAt(old(host.tree), p).None?
            && TemporaryAt(old(host.tree), p, DigestOf(y)).None?
            ==> r.Ok?
    ensures r.Ok? ==> host.faults == old(host.faults)
    ensures GentleAt(host.frail, p, true) && r.Raise? && LeafAt(old(host.tree), p).None?
            && TemporaryAt(old(host.tree), p, DigestOf(y)).None? && old(host.faults) <= host.faults + 1
            ==> LeafAt(host.tree, p).None? && TemporaryAt(host.tree, p, DigestOf(y)).None?
    ensures GentleAt(host.frail, p, false) && LeafAt(old(host.tree), p).None?
            && TemporaryAt(old(host.tree), p, DigestOf(y)).None? ==>
              !r.Raise?
  {
    if y.None? {
      return Ok(());
    }
    if y.value.kind.RegularFile? {
      r := WriteRegularAtomic(host, p, y.value, OfContent(y.value.content));
    } else {
      r := host.Create(Leaf(p), y.value);
      if r.Ok? {
        r := host.Fsync();
      }
    }
  }

  /** Only names of `p` may differ, and of its temporaries only the one for `y`. */
  ghost predicate EffectFrame(t: Tree, u: Tree, p: Path, y: Option<Snapshot>) {
    && OnlyAt(t, u, p)
    && forall d :: Some(d) != DigestOf(y) ==> Lookup(u, Temporary(p, d)) == Lookup(t, Temporary(p, d))
  }

  /** Clears the leaf name for the publish. */
  method TakeAside(host: Host, p: Path, x: Option<Snapshot>, ghost y: Option<Snapshot>) returns (r: Outcome<()>)
    requires !host.dead && Reachable(host.tree, p)
    modifies host`dead, host`faults, host`tree, host`looked
    ensures host.dead <==> r.Crashed?
    ensures host.faults <= old(host.faults)
    ensures r.Raise? ==> r.error == UncertainEffect || (r.error == ApplyFailure && x.None?)
    ensures !Settled(old(host.tree), p, x) ==> !r.Ok? && LeafAt(host.tree, p) == LeafAt(old(host.tree), p)
    ensures Reachable(host.tree, p)
    ensures EffectFrame(old(host.tree), host.tree, p, y)
    ensures TemporaryAt(host.tree, p, DigestOf(y)) == TemporaryAt(old(host.tree), p, DigestOf(y))
    ensures Settled(old(host.tree), p, x) ==> InFlight(host.tree, p, x, y)
    ensures Settled(old(host.tree), p, x) && x.None? ==> Settled(host.tree, p, x)
    ensures r.Ok? ==> LeafAt(host.tree, p).None? && QuarantineAt(host.tree, p) == x
    ensures Settled(old(host.tree), p, x) && host.faults == old(host.faults) ==> r.Ok?
    ensures r.Ok? ==> host.faults == old(host.faults)
    ensures Settled(old(host.tree), p, x) && GentleAt(host.frail, p, x.Some?) && r.Raise? ==>
              x.None? && r.error == ApplyFailure
  {
    hide WellFormed, Reachable, GentleAt;
    if x.Some? {
      r := QuarantineLeaf(host, p, x.value);
    } else {
      r := RequireClear(host, p);
    }
  }

  /** Publishes `y` under the free leaf name and drops the quarantine of `x`. */
  method PublishAndDrop(host: Host, p: Path, x: Option<Snapshot>, y: Option<Snapshot>) returns (r: Outcome<()>)
    requires !host.dead && Reachable(host.tree, p)
    requires LeafAt(host.tree, p).None? && QuarantineAt(host.tree, p) == x
    modifies host`dead, host`faults, host`tree, host`looked
    ensures host.dead <==> r.Crashed?
    ensures host.faults <= old(host.faults)
    ensures Reachable(host.tree, p)
    ensures EffectFrame(old(host.tree), host.tree, p, y)
    ensures InFlight(host.tree, p, x, y)
    ensures QuarantineAt(host.tree, p) == x || LeafAt(host.tree, p) == y
    ensures LeafAt(host.tree, p).None? || LeafAt(host.tree, p) == y
    ensures r.Ok? ==> Settled(host.tree, p, y)
    ensures r.Ok? && TemporaryAt(old(host.tree), p, DigestOf(y)).None? ==> TemporaryAt(host.tree, p, DigestOf(y)).None?
    ensures host.faults == old(host.faults) && TemporaryAt(old(host.tree), p, DigestOf(y)).None? ==> r.Ok?
    ensures r.Ok? ==> host.faults == old(host.faults)
    ensures GentleAt(host.frail, p, true) && r.Raise? && TemporaryAt(old(host.tree), p, DigestOf(y)).None?
            && old(host.faults) <= host.faults + 1
            ==> LeafAt(host.tree, p).None? && QuarantineAt(host.tree, p) == x && TemporaryAt(host.tree, p, DigestOf(y)).None?
    ensures GentleAt(host.frail, p, false) && TemporaryAt(old(host.tree), p, DigestOf(y)).None? && x.None? ==> !r.Raise?
  {
    hide WellFormed, Reachable, GentleAt;
    r := PublishLeaf(host, p, y);
    assert OnlyAt(old(host.tree), host.tree, p);
    if r.Ok? && x.Some? {
      r := DropQuarantine(host, p);
    }
  }

  method DropQuarantine(host: Host, p: Path) returns (r: Outcome<()>)
    requires !host.dead && Reachable(host.tree, p) && QuarantineAt(host.tree, p).Some?
    modifies host`dead, host`faults, host`tree, host`looked
    ensures host.dead <==> r.Crashed?
    ensures host.faults <= old(host.faults)
    ensures Reachable(host.tree, p)
    ensures OnlyNames(old(host.tree), host.tree, {Quarantine(p)})
    ensures QuarantineAt(host.tree, p).None? || host.tree == old(host.tree)
    ensures r.Ok? ==> QuarantineAt(host.tree, p).None?
    ensures host.faults == old(host.faults) ==> r.Ok?
    ensures r.Ok? ==> host.faults == old(host.faults)
    ensures GentleAt(host.frail, p, true) ==> !r.Raise?
  {
    hide WellFormed;
    r := host.Unlink(Quarantine(p));
    if r.Ok? {
      r := host.Fsync();
    }
  }

  /** Moves the path from `x` to `y`. However it ends, the effect is done, undone or still in flight; and
      if the path does not show `x`, its leaf is left alone and there is no success. */
  method ConditionalLeafEffect(host: Host, p: Path, x: Option<Snapshot>, y: Option<Snapshot>)
    returns (r: Outcome<()>)
    requires !host.dead && Reachable(host.tree, p)
    modifies host`dead, host`faults, host`tree, host`looked
    ensures host.dead <==> r.Crashed?
    ensures host.faults <= old(host.faults)
    ensures r.Raise? ==> r.error == UncertainEffect || r.error == ApplyFailure
    ensures Reachable(host.tree, p)
    ensures EffectFrame(old(host.tree), host.tree, p, y)
    ensures !Settled(old(host.tree), p, x) ==> !r.Ok? && LeafAt(host.tree, p) == LeafAt(old(host.tree), p)
    ensures Settled(old(host.tree), p, x) ==> InFlight(host.tree, p, x, y)
    ensures r.Ok? ==> Settled(host.tree, p, y)
    ensures r.Ok? && TemporaryAt(old(host.tree), p, DigestOf(y)).None? ==> TemporaryAt(host.tree, p, DigestOf(y)).None?
    ensures r == Raise(ApplyFailure) && Settled(old(host.tree), p, x) ==> Settled(host.tree, p, x)
    ensures Settled(old(host.tree), p, x) && host.faults == old(host.faults)
            && TemporaryAt(old(host.tree), p, DigestOf(y)).None?
            ==> r.Ok?
    ensures r.Ok? ==> host.faults == old(host.faults)
    ensures Settled(old(host.tree), p, x) && GentleAt(host.frail, p, x.Some?) && r.Raise?
            && TemporaryAt(old(host.tree), p, DigestOf(y)).None?
            && old(host.faults) <= host.faults + 1
            ==> r.error == ApplyFailure && TemporaryAt(host.tree, p, DigestOf(y)).None?
  {
    hide Reachable, WellFormed, GentleAt;
    var aside := TakeAside(host, p, x, y);
    if !aside.Ok? {
      return aside;
    }
    var step := PublishAndDrop(host, p, x, y);
    if !step.Raise? {
      return step;
    }
    if x.Some? {
      var restored :- RestoreQuarantined(host, p, x.value);
      if restored {
        return Raise(ApplyFailure);
      }
    }
    return Raise(UncertainEffect);
  }

  /** An added path must show neither a leaf nor a quarantine. */
  method RequireClear(host: Host, p: Path) returns (r: Outcome<()>)
    requires !host.dead && Reachable(host.tree, p)
    modifies host`dead, host`faults, host`looked
    ensures host.dead <==> r.Crashed?
    ensures host.faults <= old(host.faults)
    ensures r.Raise? ==> r.error == UncertainEffect || r.error == ApplyFailure
    ensures r.Ok? ==> Settled(host.tree, p, None)
    ensures host.faults == old(host.faults) && Settled(host.tree, p, None) ==> r.Ok?
    ensures r.Ok? ==> host.faults == old(host.faults)
    ensures Settled(host.tree, p, None) && r.Raise? ==> r.error == ApplyFailure
  {
    var leaf :- host.SnapshotAt(Leaf(p));
    if leaf.Some? {
      return Raise(UncertainEffect);
    }
    var quarantined :- host.SnapshotAt(Quarantine(p));
    if quarantined.Some? {
      return Raise(UncertainEffect);
    }
    return Ok(());
  }
}
