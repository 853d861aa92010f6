/** The journal of one transaction: the log on disk and the reader's cache of it. */
module ApplyJournals {
  import opened Wrappers
  import opened ApplyModels
  import opened JournalEvidence
  import opened JournalLaws
  import opened JournalValidators
  import opened Hosts

  /** No step on the journal can fail. */
  predicate JournalSteady(frail: Step -> bool) {
    !frail(PlanReading) && !frail(LogReading) && !frail(LogOpening) && !frail(LogWriting)
  }

  class ApplyJournal {
    const host: Host
    var recordsCache: seq<Record>
    var cached: bool
    var recordsSignature: Option<nat>
    var latestPhaseCache: Option<Phase>

    /** A cache whose signature is current holds exactly what is on disk. */
    ghost predicate Valid()
      reads this, host`log, host`torn, host`stamp
    {
      && (host.stamp == 0 ==> host.log == [] && !host.torn)
      && (recordsSignature.Some? ==> 0 < recordsSignature.value <= host.stamp)
      && (cached && recordsSignature == Some(host.stamp) ==>
            && recordsCache == host.log
            && !host.torn
            && latestPhaseCache == LatestPhase(host.log))
    }

    /** Opens the journal of an existing transaction with an empty cache. */
    constructor (host: Host)
      requires host.stamp == 0 ==> host.log == [] && !host.torn
      ensures Valid() && this.host == host
    {
      this.host := host;
      recordsCache := [];
      cached := false;
      recordsSignature := None;
      latestPhaseCache := None;
    }

    method ReadPlan() returns (r: Outcome<Plan>)
      requires !host.dead
      modifies host`dead, host`faults
      ensures host.dead <==> r.Crashed?
      ensures host.faults <= old(host.faults)
      ensures JournalSteady(host.frail) && !host.dead ==> host.faults == old(host.faults)
      ensures r.Raise? ==> r.error == ValueError
      ensures r.Ok? ==> host.planFile == Some(r.value)
      ensures host.faults == old(host.faults) && host.planFile.Some? ==> r.Ok?
    {
      var t := host.Tick(PlanReading);
      if t.Crashed? {
        return Crashed;
      }
      if t.Raise? || host.planFile.None? {
        return Raise(ValueError);
      }
      return Ok(host.planFile.value);
    }

    /** A fresh read succeeds on this disk content. */
    ghost predicate Readable()
      reads this, host`log, host`torn, host`planFile
    {
      && !host.torn
      && host.planFile.Some?
      && ValidLog(host.log, host.planFile.value)
    }

    lemma ReadableParts(log: seq<Record>, plan: Plan)
      ensures ValidLog(log, plan) <==> Numbered(log) && forall i :: 0 <= i < |log| ==> RecordOk(log, plan, i)
    {
    }

    /** The records on disk, from the cache when its signature is current. */
    method Records() returns (r: Outcome<seq<Record>>)
      requires !host.dead && Valid()
      modifies this, host`dead, host`faults
      ensures Valid()
      ensures host.dead <==> r.Crashed?
      ensures host.faults <= old(host.faults)
      ensures JournalSteady(host.frail) && !host.dead ==> host.faults == old(host.faults)
      ensures r.Raise? ==> r.error == ValueError
      ensures r.Ok? ==> r.value == host.log && !host.torn && latestPhaseCache == LatestPhase(host.log)
      ensures r.Ok? ==> recordsSignature == (if host.stamp == 0 then None else Some(host.stamp))
      ensures r.Ok? && !old(cached) ==>
                host.log == [] || (host.planFile.Some? && ValidLog(host.log, host.planFile.value))
      ensures host.faults == old(host.faults) && old(Readable()) ==> r.Ok?
    {
      hide ValidLog, RecordOk;
      if host.planFile.Some? {
        ReadableParts(host.log, host.planFile.value);
      }
      var seen := host.Tick(LogReading);
      if seen.Crashed? {
        return Crashed;
      }
      if seen.Raise? {
        return Raise(ValueError);
      }
      if host.stamp == 0 {
        recordsCache, cached := [], true;
        recordsSignature := None;
        latestPhaseCache := None;
        return Ok([]);
      }
      if cached && recordsSignature == Some(host.stamp) {
        return Ok(recordsCache);
      }
      var read := host.Tick(LogReading);
      if read.Crashed? {
        return Crashed;
      }
      if read.Raise? || host.torn {
        return Raise(ValueError);
      }
      if exists i :: 0 <= i < |host.log| && host.log[i].order != i + 1 {
        return Raise(ValueError);
      }
      var plan :- ReadPlan();
      var valid := ValidateRecordSequence(host.log, plan);
      if !valid {
        return Raise(ValueError);
      }
      recordsCache, cached := host.log, true;
      recordsSignature := Some(host.stamp);
      latestPhaseCache := LatestPhase(host.log);
      return Ok(host.log);
    }

    method ReadPhase() returns (r: Outcome<Option<Phase>>)
      requires !host.dead && Valid()
      modifies this, host`dead, host`faults
      ensures Valid()
      ensures host.dead <==> r.Crashed?
      ensures host.faults <= old(host.faults)
      ensures JournalSteady(host.frail) && !host.dead ==> host.faults == old(host.faults)
      ensures r.Raise? ==> r.error == ValueError
      ensures r.Ok? ==> r.value == LatestPhase(host.log) && !host.torn
      ensures host.faults == old(host.faults) && old(Readable()) ==> r.Ok?
    {
      var _ :- Records();
      return Ok(latestPhaseCache);
    }

    /** The checks `record` makes before it touches the file. */
    method Admit(rec: Record, records: seq<Record>, current: Option<Phase>) returns (r: Outcome<()>)
      requires !host.dead && Valid()
      requires records == host.log && current == LatestPhase(host.log) && rec.order == |records| + 1
      modifies host`dead, host`faults
      ensures host.dead <==> r.Crashed?
      ensures host.faults <= old(host.faults)
      ensures JournalSteady(host.frail) && !host.dead ==> host.faults == old(host.faults)
      ensures Valid()
      ensures r.Raise? ==> r.error == ValueError
      ensures r.Ok? ==> host.planFile.Some?
      ensures r.Ok? && Numbered(records) ==> Accepts(records, host.planFile.value, rec)
      ensures host.faults == old(host.faults) && old(Readable()) && Accepts(host.log, host.planFile.value, rec) ==>
                r.Ok?
    {
      if rec.phase.Some? && rec.phase != current {
        if !PhaseStep(current, rec.phase.value, records == []) {
          PhaseStepNeeded(records, rec);
          return Raise(ValueError);
        }
      }
      var plan :- ReadPlan();
      var valid;
      if rec.phase.None? {
        valid := NonPhaseOk(rec, current, plan);
      } else {
        valid := ValidateRecordSequence(records + [rec], plan);
      }
      return if valid then Ok(()) else Raise(ValueError);
    }

    lemma PhaseStepNeeded(records: seq<Record>, rec: Record)
      requires rec.phase.Some? && !PhaseStep(LatestPhase(records), rec.phase.value, records == [])
      ensures forall plan :: !ValidLog(records + [rec], plan)
    {
      forall plan ensures !ValidLog(records + [rec], plan) {
        assert (records + [rec])[..|records|] == records;
        assert !RecordOk(records + [rec], plan, |records|);
      }
    }

    /** Writes an admitted record and takes it into the cache. */
    method Write(rec: Record, records: seq<Record>) returns (r: Outcome<()>)
      requires !host.dead && Valid() && !host.torn && records == host.log && latestPhaseCache == LatestPhase(host.log)
      requires recordsSignature == if host.stamp == 0 then None else Some(host.stamp)
      modifies this, host`dead, host`faults, host`log, host`torn, host`stamp
      ensures Valid()
      ensures host.dead <==> r.Crashed?
      ensures host.faults <= old(host.faults)
      ensures !host.dead && (JournalSteady(host.frail) || host.faults == old(host.faults)) ==>
                host.torn == old(host.torn)
      ensures JournalSteady(host.frail) && !host.dead ==> host.faults == old(host.faults)
      ensures r.Raise? ==> r.error == OsError || r.error == ValueError
      ensures host.log == old(host.log) || host.log == old(host.log) + [rec]
      ensures r.Ok? ==> host.log == old(host.log) + [rec] && !host.torn
      ensures host.torn ==> host.log == old(host.log)
      ensures host.faults == old(host.faults) ==> r.Ok?
    {
      hide LatestPhase;
      var _ :- host.OpenLog();
      if recordsSignature.Some? && recordsSignature.value != host.stamp {
        return Raise(ValueError);
      }
      var _ :- host.AppendLine(rec);
      recordsCache, cached := records + [rec], true;
      recordsSignature := Some(host.stamp);
      LatestAppend(records, rec);
      if rec.phase.Some? {
        latestPhaseCache := rec.phase;
      }
      return Ok(());
    }

    /** Appends one record, or refuses it. Whatever happens, the log grew by this record or not at
        all, and the cache still tells the truth. */
    method Record(line: Line) returns (r: Outcome<()>)
      requires !host.dead && Valid()
      requires host.planFile.Some? && ValidLog(host.log, host.planFile.value)
      modifies this, host`dead, host`faults, host`log, host`torn, host`stamp
      ensures Valid()
      ensures host.dead <==> r.Crashed?
      ensures host.faults <= old(host.faults)
      ensures !host.dead && (JournalSteady(host.frail) || host.faults == old(host.faults)) ==>
                host.torn == old(host.torn)
      ensures JournalSteady(host.frail) && !host.dead ==> host.faults == old(host.faults)
      ensures r.Raise? ==> r.error == OsError || r.error == ValueError
      ensures host.log == old(host.log)
              || (&& host.log == old(host.log) + [Numbering(old(host.log), line)]
                  && Accepts(old(host.log), host.planFile.value, Numbering(old(host.log), line)))
      ensures r.Ok? ==> |host.log| == |old(host.log)| + 1 && !host.torn
      ensures old(host.torn) ==> !r.Ok? && host.torn && host.log == old(host.log)
      ensures host.torn ==> host.log == old(host.log)
      ensures host.faults == old(host.faults) && !old(host.torn)
              && Accepts(old(host.log), host.planFile.value, Numbering(old(host.log), line))
              ==> r.Ok?
    {
      assert Numbered(host.log);
      hide ValidLog, LatestPhase, NonPhaseOk, JournalSteady, Valid;
      var records :- Records();
      var rec := Numbering(records, line);
      var _ :- Admit(rec, records, latestPhaseCache);
      r := Write(rec, records);
    }
  }
}
