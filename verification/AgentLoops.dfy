/** The agent loop: rounds of one model answer, one policy question and at most one tool call. */
module AgentLoops {
  import opened Wrappers
  import opened Utf8
  import opened Json
  import opened FrozenJson
  import opened Actions
  import opened Reparsing
  import ActionRules
  import opened Stopping

  datatype ToolStatus = Succeeded | FailedTool | DeniedTool

  datatype Attempt = Attempt(action: Action, status: ToolStatus)

  /** What a run leaves behind, in order. */
  datatype Event =
    | ContextBuilt(round: nat)
    | AttemptPersisted(round: nat)
    | ModelAsked(round: nat)
    | PolicyAnswered(action: Action, allowed: bool)
    | ProposalBuilt
    | ToolCalled(action: Action)
    | FeedbackNoted(action: Action)
    | StopDecided(reason: StopReason)

  /** What the ports answer in one round, should they be asked: whether the context can be built and the
      attempt stored, the model's action, the policy's consent, and how the tool ends. */
  datatype Ports = Ports(
    built: bool,
    stored: bool,
    reply: Option<Value>,
    consent: Option<bool>,
    result: Option<ToolStatus>)

  /** Everything a run meets. Each port is asked at most once a round, so any behaviour of model, policy,
      tool, store and clock is some function of the round. */
  datatype World = World(
    ports: nat -> Ports,
    signature: (Action, ToolStatus) -> Option<string>,
    forbidden: Text -> bool,
    pathOk: Text -> bool)

  datatype LoopResult = LoopResult(
    reason: StopReason,
    rounds: nat,
    toolCalls: nat,
    attempts: seq<Attempt>,
    trace: seq<Event>,
    proposal: Option<Value>)

  // ---- what the agent may do ----

  predicate InvestigationTool(t: Text) {
    || t == Code("inspect_repository") || t == Code("list_files") || t == Code("read_file") || t == Code("search_text")
    || t == Code("git_repo_probe") || t == Code("git_repo_root") || t == Code("git_status")
    || t == Code("git_diff_worktree") || t == Code("git_diff_index")
    || t == Code("git_list_tracked") || t == Code("git_list_untracked")
  }

  /** Among the tools of the protocol the agent may use those that change nothing and bring nothing in. */
  lemma OnlyLooks(name: ActionRules.Name)
    requires ActionRules.RuleOf(name).category.ToolAction?
    ensures InvestigationTool(ActionRules.NameText(name)) <==>
              && !name.CreateFile? && !name.ReplaceFile? && !name.ApplyPatch? && !name.DeleteFile?
              && !name.RequestIgnoredInput? && !name.RunValidation?
              && !name.GitStagePaths? && !name.GitUnstagePaths?
  {
    hide Code, ActionRules.NameText;
    ActionRules.ToolTextIs(name);
    ActionRules.GitTextIs(name);
  }

  predicate PathValue(v: Value, pathOk: Text -> bool) {
    v.Str? && pathOk(v.text)
  }

  /** The paths an action names are acceptable; `pathOk` is the lexical check. */
  predicate PathsAcceptable(a: Action, pathOk: Text -> bool) {
    var parameters := Thaw(a.parameters);
    && parameters.Obj?
    && (a.actionType == Code("list_files") || a.actionType == Code("read_file") ==>
         var path := Find(parameters.members, Code("path"));
         path.Some? && PathValue(path.value, pathOk))
    && (|| a.actionType == Code("search_text") || a.actionType == Code("git_diff_worktree")
        || a.actionType == Code("git_diff_index") || a.actionType == Code("git_list_tracked")
        || a.actionType == Code("git_list_untracked") ==>
         var paths := Find(parameters.members, Code("paths"));
         paths.Some? ==> paths.value.Arr? && forall i :: 0 <= i < |paths.value.items| ==> PathValue(paths.value.items[i], pathOk))
  }

  function ProposalFields(): set<Text> {
    {Code("understanding"), Code("scope"), Code("validation"), Code("risks"), Code("budget"), Code("sensitive_actions")}
  }

  predicate ProposalOk(v: Value) {
    && v.Obj? && Keys(v.members) == ProposalFields()
    && forall i :: 0 <= i < |v.members| ==>
         var x := v.members[i].value;
         !x.Null? && (x.Str? ==> x.text != []) && (x.Arr? ==> x.items != []) && (x.Obj? ==> x.members != [])
  }

  function BuildProposal(a: Action): (r: Option<Value>)
    ensures r.Some? ==> Thaw(a.parameters).Obj? && ProposalOk(r.value)
  {
    var parameters := Thaw(a.parameters);
    if !parameters.Obj? || Keys(parameters.members) != {Code("proposal")} then None
    else
      var proposal := Find(parameters.members, Code("proposal"));
      if proposal.None? || !ProposalOk(proposal.value) then None else proposal
  }

  // ---- the shape of a trace ----

  function ToolCalls(trace: seq<Event>): nat {
    if trace == [] then 0 else ToolCalls(trace[..|trace| - 1]) + (if trace[|trace| - 1].ToolCalled? then 1 else 0)
  }

  function Rounds(trace: seq<Event>): nat {
    if trace == [] then 0 else Rounds(trace[..|trace| - 1]) + (if trace[|trace| - 1].ContextBuilt? then 1 else 0)
  }

  /** Before event `i`, in the same round: a persisted attempt, the model's answer, and the policy's consent. */
  predicate Gated(trace: seq<Event>, i: nat, pathOk: Text -> bool)
    requires i < |trace| && trace[i].ToolCalled?
  {
    && 4 <= i
    && trace[i - 4].ContextBuilt?
    && trace[i - 3] == AttemptPersisted(trace[i - 4].round)
    && trace[i - 2] == ModelAsked(trace[i - 4].round)
    && trace[i - 1] == PolicyAnswered(trace[i].action, true)
    && trace[i].action.category.ToolAction?
    && InvestigationTool(trace[i].action.actionType)
    && PathsAcceptable(trace[i].action, pathOk)
  }

  /** Rounds are numbered from one and every tool call is gated. */
  predicate WellTraced(trace: seq<Event>, pathOk: Text -> bool) {
    forall i :: 0 <= i < |trace| ==>
      && (trace[i].ContextBuilt? ==> trace[i].round == Rounds(trace[..i]) + 1)
      && (trace[i].ToolCalled? ==> Gated(trace, i, pathOk))
  }

  lemma Traced(trace: seq<Event>, e: Event, pathOk: Text -> bool)
    requires WellTraced(trace, pathOk)
    requires e.ContextBuilt? ==> e.round == Rounds(trace) + 1
    requires e.ToolCalled? ==> Gated(trace + [e], |trace|, pathOk)
    ensures WellTraced(trace + [e], pathOk)
    ensures ToolCalls(trace + [e]) == ToolCalls(trace) + (if e.ToolCalled? then 1 else 0)
    ensures Rounds(trace + [e]) == Rounds(trace) + (if e.ContextBuilt? then 1 else 0)
  {
    hide InvestigationTool, PathsAcceptable;
    var longer := trace + [e];
    assert longer[..|trace|] == trace;
    forall i | 0 <= i < |longer|
      ensures longer[i].ContextBuilt? ==> longer[i].round == Rounds(longer[..i]) + 1
      ensures longer[i].ToolCalled? ==> Gated(longer, i, pathOk)
    {
      if i < |trace| {
        assert longer[..i] == trace[..i];
      }
    }
  }

  /** What a snapshot of a parsed action is: the action itself. */
  function Snapshot(a: Action, forbidden: Text -> bool): Option<Action> {
    Parse(ToDict(a), forbidden)
  }

  // ---- one round ----

  /** The action of a round that reaches the policy. */
  function Proposed(p: Ports, w: World): Option<Action> {
    if p.built && p.stored && p.reply.Some? then Parse(p.reply.value, w.forbidden) else None
  }

  /** The action of a round that may be carried out. */
  function Consented(p: Ports, w: World): Option<Action> {
    var a := Proposed(p, w);
    if a.Some? && PathsAcceptable(a.value, w.pathOk) && p.consent == Some(true) then a else None
  }

  /** The events of round `n` up to the policy's answer. */
  function Opening(p: Ports, w: World, n: nat): seq<Event> {
    var a := Proposed(p, w);
    (if p.built then [ContextBuilt(n)] else [])
    + (if p.built && p.stored then [AttemptPersisted(n)] else [])
    + (if a.Some? then [ModelAsked(n)] else [])
    + (if a.Some? && PathsAcceptable(a.value, w.pathOk) && p.consent.Some? then
         [PolicyAnswered(a.value, p.consent.value)] else [])
  }

  datatype Answer = Answer(action: Option<Action>, trace: seq<Event>, rounds: nat)

  /** One round up to the policy's consent. */
  method Consult(trace: seq<Event>, round: nat, p: Ports, w: World) returns (r: Answer)
    requires WellTraced(trace, w.pathOk) && round == Rounds(trace) + 1
    ensures WellTraced(r.trace, w.pathOk) && ToolCalls(r.trace) == ToolCalls(trace)
    ensures Rounds(r.trace) == r.rounds == if p.built then round else round - 1
    ensures r.action == Consented(p, w)
    ensures r.trace == trace + Opening(p, w, round)
    ensures r.action.Some? ==>
              && PathsAcceptable(r.action.value, w.pathOk)
              && Snapshot(r.action.value, w.forbidden) == r.action
              && r.trace == trace + [ContextBuilt(round), AttemptPersisted(round), ModelAsked(round),
                                     PolicyAnswered(r.action.value, true)]
  {
    hide WellTraced, ToolCalls, Rounds, PathsAcceptable, Parse, ToDict;
    r := Answer(None, trace, round - 1);
    if !p.built {
      return;
    }
    Traced(r.trace, ContextBuilt(round), w.pathOk);
    r := Answer(None, r.trace + [ContextBuilt(round)], round);
    if !p.stored {
      return;
    }
    Traced(r.trace, AttemptPersisted(round), w.pathOk);
    r := Answer(None, r.trace + [AttemptPersisted(round)], round);
    if p.reply.None? {
      return;
    }
    var proposed := Parse(p.reply.value, w.forbidden);
    if proposed.None? {
      return;
    }
    Traced(r.trace, ModelAsked(round), w.pathOk);
    r := Answer(None, r.trace + [ModelAsked(round)], round);
    ReparseSame(p.reply.value, w.forbidden);
    var action := Snapshot(proposed.value, w.forbidden);
    if action.None? || !PathsAcceptable(action.value, w.pathOk) {
      return;
    }
    var forPolicy := Snapshot(action.value, w.forbidden);
    assert forPolicy == action;
    if p.consent.None? {
      return;
    }
    Traced(r.trace, PolicyAnswered(action.value, p.consent.value), w.pathOk);
    r := Answer(if p.consent.value then action else None, r.trace + [PolicyAnswered(action.value, p.consent.value)], round);
  }

  predicate Requests(t: Text) {
    t == Code("request_clarification") || t == Code("request_budget_extension") || t == Code("request_user_confirmation")
  }

  /** How a control action ends the run: which reason it gives, and when there is a proposal. */
  predicate Concludes(a: Action, reason: StopReason, proposal: Option<Value>) {
    && proposal == (if a.actionType == Code("propose_plan") then BuildProposal(a) else None)
    && (reason == Blocked <==> a.actionType == Code("report_blocked"))
    && (reason == FailedStop <==> a.actionType == Code("stop_with_failure"))
    && (reason == Cancelled <==> a.actionType == Code("stop_without_safe_action"))
    && (reason == AwaitingApproval <==> Requests(a.actionType) || proposal.Some?)
    && (reason == InvalidOrOutOfScope <==>
         && a.actionType !in {Code("report_blocked"), Code("stop_with_failure"), Code("stop_without_safe_action")}
         && !Requests(a.actionType) && proposal.None?)
  }

  /** The events after the policy's consent to a control action. */
  function Closing(a: Action, reason: StopReason, proposal: Option<Value>): seq<Event> {
    (if proposal.Some? then [ProposalBuilt] else [])
    + (if proposal.Some? || reason in {Blocked, FailedStop, Cancelled} then [StopDecided(reason)] else [])
  }

  method EndWithControl(trace: seq<Event>, a: Action, pathOk: Text -> bool)
    returns (reason: StopReason, proposal: Option<Value>, r: seq<Event>)
    requires WellTraced(trace, pathOk)
    ensures Concludes(a, reason, proposal)
    ensures reason in {InvalidOrOutOfScope, AwaitingApproval, Blocked, FailedStop, Cancelled}
    ensures r == trace + Closing(a, reason, proposal)
    ensures WellTraced(r, pathOk) && ToolCalls(r) == ToolCalls(trace) && Rounds(r) == Rounds(trace)
  {
    hide WellTraced, ToolCalls, Rounds, BuildProposal, Code;
    NamesDiffer();
    proposal, r := None, trace;
    if a.actionType == Code("propose_plan") {
      proposal := BuildProposal(a);
      if proposal.None? {
        reason := InvalidOrOutOfScope;
        return;
      }
      reason := AwaitingApproval;
      Traced(r, ProposalBuilt, pathOk);
      r := r + [ProposalBuilt];
      Traced(r, StopDecided(reason), pathOk);
      r := r + [StopDecided(reason)];
      return;
    }
    if a.actionType == Code("request_clarification") || a.actionType == Code("request_budget_extension")
       || a.actionType == Code("request_user_confirmation") {
      reason := AwaitingApproval;
      return;
    }
    if a.actionType == Code("report_blocked") {
      reason := Blocked;
    } else if a.actionType == Code("stop_with_failure") {
      reason := FailedStop;
    } else if a.actionType == Code("stop_without_safe_action") {
      reason := Cancelled;
    } else {
      reason := InvalidOrOutOfScope;
      return;
    }
    Traced(r, StopDecided(reason), pathOk);
    r := r + [StopDecided(reason)];
  }

  lemma NamesDiffer()
    ensures |Code("propose_plan")| == 12 && |Code("report_blocked")| == 14 && |Code("stop_with_failure")| == 17
    ensures |Code("stop_without_safe_action")| == 24 && |Code("request_clarification")| == 21
    ensures |Code("request_budget_extension")| == 24 && |Code("request_user_confirmation")| == 25
    ensures Code("request_budget_extension") != Code("stop_without_safe_action")
  {
    assert Code("request_budget_extension")[0] != Code("stop_without_safe_action")[0];
  }

  /** The attempt that a round adds to the history: an investigation tool was called and answered. */
  function AttemptOf(p: Ports, w: World): Option<Attempt> {
    var a := Consented(p, w);
    if a.Some? && a.value.category.ToolAction? && InvestigationTool(a.value.actionType) && p.result.Some?
    then Some(Attempt(a.value, p.result.value))
    else None
  }

  /** Calls the tool, which may answer anything or fail; nothing is called for any other action. */
  method UseTool(ghost before: seq<Event>, trace: seq<Event>, round: nat, a: Action, p: Ports, w: World)
    returns (called: bool, status: Option<ToolStatus>, r: seq<Event>)
    requires WellTraced(trace, w.pathOk)
    requires trace == before + [ContextBuilt(round), AttemptPersisted(round), ModelAsked(round), PolicyAnswered(a, true)]
    requires a.category.ToolAction? && PathsAcceptable(a, w.pathOk) && Snapshot(a, w.forbidden) == Some(a)
    ensures called <==> InvestigationTool(a.actionType)
    ensures status == if called then p.result else None
    ensures r == trace + (if called then [ToolCalled(a)] else []) + (if status.Some? then [FeedbackNoted(a)] else [])
    ensures WellTraced(r, w.pathOk) && Rounds(r) == Rounds(trace)
    ensures ToolCalls(r) == ToolCalls(trace) + (if called then 1 else 0)
  {
    hide WellTraced, ToolCalls, Rounds, PathsAcceptable, InvestigationTool, Snapshot;
    called, status, r := false, None, trace;
    var forTool := Snapshot(a, w.forbidden);
    if !InvestigationTool(a.actionType) || forTool != Some(a) {
      return;
    }
    CallIsGated(before, trace, round, a, w.pathOk);
    Traced(r, ToolCalled(a), w.pathOk);
    r := r + [ToolCalled(a)];
    called := true;
    if p.result.None? {
      return;
    }
    Traced(r, FeedbackNoted(a), w.pathOk);
    r := r + [FeedbackNoted(a)];
    status := p.result;
  }

  /** How a round ends: with the run, or with an attempt. */
  datatype RoundEnd =
    | Ended(reason: StopReason, proposal: Option<Value>, called: bool)
    | Gave(attempt: Attempt)

  /** The events of a round that ends in an attempt, before the controller's decision. */
  function RoundEvents(n: nat, a: Action): seq<Event> {
    [ContextBuilt(n), AttemptPersisted(n), ModelAsked(n), PolicyAnswered(a, true), ToolCalled(a), FeedbackNoted(a)]
  }

  /** Round `n` ended the run, with these events. */
  ghost predicate BreaksOff(p: Ports, w: World, n: nat, end: RoundEnd, tail: seq<Event>)
    requires end.Ended?
  {
    var a := Consented(p, w);
    var control := a.Some? && a.value.category.ControlAction?;
    && AttemptOf(p, w).None?
    && (end.called <==> a.Some? && a.value.category.ToolAction? && InvestigationTool(a.value.actionType))
    && (if control then Concludes(a.value, end.reason, end.proposal)
        else end.reason == InvalidOrOutOfScope && end.proposal.None?)
    && tail == Opening(p, w, n)
               + (if end.called then [ToolCalled(a.value)] else [])
               + (if control then Closing(a.value, end.reason, end.proposal) else [])
  }

  /** One round: the consultation, then the end of the run or one tool call. */
  method PlayRound(trace: seq<Event>, n: nat, p: Ports, w: World) returns (end: RoundEnd, rounds: nat, r: seq<Event>)
    requires WellTraced(trace, w.pathOk) && n == Rounds(trace) + 1
    ensures WellTraced(r, w.pathOk) && Rounds(r) == rounds == if p.built then n else n - 1
    ensures ToolCalls(r) == ToolCalls(trace) + (if end.Gave? || end.called then 1 else 0)
    ensures end.Gave? ==> AttemptOf(p, w) == Some(end.attempt) && r == trace + RoundEvents(n, end.attempt.action)
    ensures end.Gave? ==> p.built
    ensures end.Ended? ==> |trace| <= |r| && r[..|trace|] == trace && BreaksOff(p, w, n, end, r[|trace|..])
    ensures end.Ended? ==> end.reason in {InvalidOrOutOfScope, AwaitingApproval, Blocked, FailedStop, Cancelled}
    ensures end.Ended? && end.called ==> p.built
  {
    hide WellTraced, ToolCalls, Rounds, PathsAcceptable, Snapshot, Concludes, InvestigationTool, Parse, BuildProposal, Closing;
    var answer := Consult(trace, n, p, w);
    rounds, r := answer.rounds, answer.trace;
    if answer.action.None? {
      end := Ended(InvalidOrOutOfScope, None, false);
      return;
    }
    var action := answer.action.value;
    if action.category.ControlAction? {
      var reason, proposal, final := EndWithControl(r, action, w.pathOk);
      end, r := Ended(reason, proposal, false), final;
      return;
    }
    var called, status, after := UseTool(trace, r, n, action, p, w);
    r := after;
    end := if status.None? then Ended(InvalidOrOutOfScope, None, called) else Gave(Attempt(action, status.value));
  }

  /** What every result keeps to. */
  ghost predicate WithinLimits(r: LoopResult, limits: StopLimits, pathOk: Text -> bool) {
    && r.rounds <= limits.maxRounds
    && r.toolCalls <= limits.maxToolCalls && r.toolCalls <= r.rounds
    && |r.attempts| <= r.toolCalls <= |r.attempts| + 1
    && WellTraced(r.trace, pathOk) && ToolCalls(r.trace) == r.toolCalls && Rounds(r.trace) == r.rounds
  }

  /** The history the counter of a run is about. */
  function Signatures(attempts: seq<Attempt>, signature: (Action, ToolStatus) -> Option<string>): seq<string> {
    if attempts == [] then []
    else
      var last := attempts[|attempts| - 1];
      var s := signature(last.action, last.status);
      Signatures(attempts[..|attempts| - 1], signature) + (if s.Some? then [s.value] else [])
  }

  // ---- the whole run ----

  /** Every attempt so far gave an observation. */
  predicate AllObserved(attempts: seq<Attempt>, w: World) {
    forall i :: 0 <= i < |attempts| ==> w.signature(attempts[i].action, attempts[i].status).Some?
  }

  /** What the controller says after these attempts. */
  ghost predicate Decides(attempts: seq<Attempt>, limits: StopLimits, w: World, reason: StopReason) {
    var full := |attempts| >= limits.maxRounds || |attempts| >= limits.maxToolCalls;
    var stuck := Stuck(Signatures(attempts, w.signature), limits.noProgressLimit);
    && (reason == BudgetExhausted <==> full)
    && (reason == NoProgress <==> !full && stuck)
    && (reason == Continue <==> !full && !stuck)
  }

  /** The events of the rounds that ended in an attempt, one after the other. */
  ghost predicate Traces(trace: seq<Event>, attempts: seq<Attempt>, limits: StopLimits, w: World)
    decreases |attempts|
  {
    if attempts == [] then trace == []
    else
      var n := |attempts|;
      var last := attempts[n - 1];
      exists earlier, end ::
        && Traces(earlier, attempts[..n - 1], limits, w)
        && trace == earlier + RoundEvents(n, last.action) + end
        && Ending(end, attempts, limits, w)
  }

  /** A round that ended in an attempt closes with the controller's decision, if there was an observation. */
  ghost predicate Ending(end: seq<Event>, attempts: seq<Attempt>, limits: StopLimits, w: World)
    requires attempts != []
  {
    var last := attempts[|attempts| - 1];
    if w.signature(last.action, last.status).Some? then
      |end| == 1 && end[0].StopDecided? && Decides(attempts, limits, w, end[0].reason)
    else
      end == []
  }

  /** These are the attempts of the first rounds, and the loop went on after each of them but perhaps the last. */
  ghost predicate Attempted(attempts: seq<Attempt>, limits: StopLimits, w: World) {
    && (forall i :: 0 <= i < |attempts| ==> AttemptOf(w.ports(i + 1), w) == Some(attempts[i]))
    && (forall i :: 0 <= i < |attempts| ==>
         AllObserved(attempts[..i], w) && Decides(attempts[..i], limits, w, Continue))
  }

  /** The run ended after its last attempt: nothing was observed, or the controller said stop. */
  ghost predicate Stopped(r: LoopResult, limits: StopLimits, w: World) {
    && r.rounds == r.toolCalls == |r.attempts|
    && r.proposal.None?
    && Traces(r.trace, r.attempts, limits, w)
    && (if AllObserved(r.attempts, w) then r.reason != Continue && Decides(r.attempts, limits, w, r.reason)
        else r.reason == InvalidOrOutOfScope)
  }

  /** The run ended in the round after its last attempt, which gave none. */
  ghost predicate BrokeOff(r: LoopResult, limits: StopLimits, w: World) {
    var n := |r.attempts| + 1;
    var p := w.ports(n);
    && AllObserved(r.attempts, w) && Decides(r.attempts, limits, w, Continue)
    && r.rounds == (if p.built then n else n - 1)
    && r.toolCalls in {n - 1, n}
    && exists earlier, tail ::
         && Traces(earlier, r.attempts, limits, w)
         && r.trace == earlier + tail
         && BreaksOff(p, w, n, Ended(r.reason, r.proposal, r.toolCalls == n), tail)
  }

  /** What a run does, given what it meets. */
  ghost predicate Conducted(r: LoopResult, limits: StopLimits, acceptanceComplete: bool, w: World) {
    if acceptanceComplete then
      r == LoopResult(Completed, 0, 0, [], [], None)
    else
      Attempted(r.attempts, limits, w) && (Stopped(r, limits, w) || BrokeOff(r, limits, w))
  }

  /** Runs the loop. It always ends within its limits, calls a tool only behind a persisted attempt and
      the policy's consent, and reports completion exactly when told of it; how it ends follows from
      what it meets. */
  method Run(limits: StopLimits, state: ProgressState, acceptanceComplete: bool, w: World) returns (r: LoopResult)
    requires ValidLimits(limits)
    ensures WithinLimits(r, limits, w.pathOk)
    ensures Conducted(r, limits, acceptanceComplete, w)
    ensures Reported(r, limits, acceptanceComplete, w)
  {
    hide WellTraced, ToolCalls, Rounds, Signatures, ProgressAfter, Underway, AllObserved, AttemptOf, BreaksOff, BrokeOff,
      RoundEvents, Evaluate, Conducted, Reported, Attempted, Traces, Decides;
    var attempts: seq<Attempt> := [];
    var trace: seq<Event> := [];
    var rounds, calls := 0, 0;
    var progress: Option<ProgressRecord> := None;
    NothingTraced(limits, state, w);
    while true
      invariant 0 <= rounds <= limits.maxRounds && calls <= limits.maxToolCalls
      invariant |attempts| == calls == rounds
      invariant acceptanceComplete ==> attempts == [] && trace == []
      invariant WellTraced(trace, w.pathOk) && ToolCalls(trace) == calls && Rounds(trace) == rounds
      invariant progress == ProgressAfter(Signatures(attempts, w.signature), state)
      invariant Underway(attempts, trace, limits, w)
      decreases limits.maxRounds - rounds
    {
      var count := if progress.Some? then progress.value.count else 0;
      var reason := Evaluate(StopInputs(false, false, acceptanceComplete, rounds, calls, count), limits);
      StillUnderway(attempts, trace, limits, state, w);
      if reason != Continue {
        r := LoopResult(reason, rounds, calls, attempts, trace, None);
        IsConducted(r, limits, acceptanceComplete, w);
        return;
      }
      ghost var before, earlier := trace, attempts;
      var end;
      end, rounds, trace := PlayRound(trace, rounds + 1, w.ports(rounds + 1), w);
      if end.Ended? {
        calls := calls + if end.called then 1 else 0;
        r := LoopResult(end.reason, rounds, calls, attempts, trace, end.proposal);
        BrokeOffIf(r, limits, w, before, end);
        IsConducted(r, limits, acceptanceComplete, w);
        return;
      }
      var last := end.attempt;
      calls, attempts := calls + 1, attempts + [last];
      var observed := w.signature(last.action, last.status);
      if observed.None? {
        Unobserved(before, trace, earlier, last, limits, w);
        r := LoopResult(InvalidOrOutOfScope, rounds, calls, attempts, trace, None);
        IsConducted(r, limits, acceptanceComplete, w);
        return;
      }
      progress := Some(AdvanceNoProgress(progress, observed.value, state));
      reason := Evaluate(StopInputs(false, false, false, rounds, calls, progress.value.count), limits);
      Observed(before, trace, earlier, last, limits, state, w);
      Traced(trace, StopDecided(reason), w.pathOk);
      trace := trace + [StopDecided(reason)];
      if reason != Continue {
        r := LoopResult(reason, rounds, calls, attempts, trace, None);
        IsConducted(r, limits, acceptanceComplete, w);
        return;
      }
    }
  }

  /** What a result says to whoever asked for the run. */
  ghost predicate Reported(r: LoopResult, limits: StopLimits, acceptanceComplete: bool, w: World) {
    && r.reason != Continue
    && (r.reason == Completed <==> acceptanceComplete)
    && (acceptanceComplete ==> r.trace == [])
    && (r.proposal.Some? ==> r.reason == AwaitingApproval && ProposalOk(r.proposal.value))
    && (r.reason == BudgetExhausted ==> r.rounds == limits.maxRounds || r.toolCalls == limits.maxToolCalls)
    && (r.reason == NoProgress ==> TrailingRun(Signatures(r.attempts, w.signature), limits.noProgressLimit))
    && (forall a :: PolicyAnswered(a, true) in r.trace && a.category.ControlAction? ==>
         Concludes(a, r.reason, r.proposal))
  }

  /** The loop is about to go on after these attempts. */
  ghost predicate Underway(attempts: seq<Attempt>, trace: seq<Event>, limits: StopLimits, w: World) {
    && Attempted(attempts, limits, w) && AllObserved(attempts, w)
    && Traces(trace, attempts, limits, w) && Decides(attempts, limits, w, Continue)
  }

  lemma StillUnderway(attempts: seq<Attempt>, trace: seq<Event>, limits: StopLimits, state: ProgressState, w: World)
    requires ValidLimits(limits) && Underway(attempts, trace, limits, w)
    ensures var progress := ProgressAfter(Signatures(attempts, w.signature), state);
            var count := if progress.Some? then progress.value.count else 0;
            var inputs := StopInputs(false, false, false, |attempts|, |attempts|, count);
            && Evaluate(inputs.(completed := true), limits) == Completed
            && Evaluate(inputs, limits) == Continue
    ensures |attempts| < limits.maxRounds && |attempts| < limits.maxToolCalls
  {
    hide Traces, Attempted, Evaluate, Signatures, ProgressAfter, AllObserved;
    ControllerDecides(attempts, limits, state, w);
  }

  lemma IsConducted(r: LoopResult, limits: StopLimits, acceptanceComplete: bool, w: World)
    requires ValidLimits(limits)
    requires if acceptanceComplete then r == LoopResult(Completed, 0, 0, [], [], None)
             else Attempted(r.attempts, limits, w) && (Stopped(r, limits, w) || BrokeOff(r, limits, w))
    requires r.rounds <= limits.maxRounds && r.toolCalls <= limits.maxToolCalls
    ensures Conducted(r, limits, acceptanceComplete, w)
    ensures Reported(r, limits, acceptanceComplete, w)
  {
    hide Attempted, Traces, AllObserved, TrailingRun, BreaksOff, Stuck, Signatures, ProposalOk, Concludes;
    if !acceptanceComplete {
      if Stopped(r, limits, w) {
        OnlyTools(r.trace, r.attempts, limits, w);
        if r.reason == NoProgress {
          JustStuck(r.attempts, limits, w);
        }
      } else {
        var earlier, tail :| Traces(earlier, r.attempts, limits, w) && r.trace == earlier + tail
                             && BreaksOff(w.ports(|r.attempts| + 1), w, |r.attempts| + 1,
                                          Ended(r.reason, r.proposal, r.toolCalls == |r.attempts| + 1), tail);
        OnlyTools(earlier, r.attempts, limits, w);
        LastRound(w.ports(|r.attempts| + 1), w, |r.attempts| + 1,
                  Ended(r.reason, r.proposal, r.toolCalls == |r.attempts| + 1), tail);
      }
    }
  }

  /** Rounds that ended in an attempt consented to tool actions only. */
  lemma {:induction false} OnlyTools(trace: seq<Event>, attempts: seq<Attempt>, limits: StopLimits, w: World)
    requires Traces(trace, attempts, limits, w) && Attempted(attempts, limits, w)
    ensures forall a :: PolicyAnswered(a, true) in trace ==> a.category.ToolAction?
    decreases |attempts|
  {
    hide Traces, AttemptOf, Attempted;
    if attempts == [] {
      NoEvents(trace, limits, w);
    } else {
      var earlier, end := LastRoundTraced(trace, attempts, limits, w);
      AttemptedBefore(attempts, limits, w);
      OnlyTools(earlier, attempts[..|attempts| - 1], limits, w);
    }
  }

  lemma NoEvents(trace: seq<Event>, limits: StopLimits, w: World)
    requires Traces(trace, [], limits, w)
    ensures trace == []
  {
  }

  lemma LastRoundTraced(trace: seq<Event>, attempts: seq<Attempt>, limits: StopLimits, w: World)
    returns (earlier: seq<Event>, end: seq<Event>)
    requires attempts != [] && Traces(trace, attempts, limits, w) && Attempted(attempts, limits, w)
    ensures Traces(earlier, attempts[..|attempts| - 1], limits, w)
    ensures trace == earlier + RoundEvents(|attempts|, attempts[|attempts| - 1].action) + end
    ensures forall a :: PolicyAnswered(a, true) !in end
    ensures attempts[|attempts| - 1].action.category.ToolAction?
  {
    hide Decides, AttemptOf, AllObserved;
    var n := |attempts|;
    var last := attempts[n - 1];
    earlier, end :| Traces(earlier, attempts[..n - 1], limits, w)
                    && trace == earlier + RoundEvents(n, last.action) + end && Ending(end, attempts, limits, w);
    assert AttemptOf(w.ports(n - 1 + 1), w) == Some(attempts[n - 1]);
    AttemptsAreCalls(w.ports(n - 1 + 1), w, last);
  }

  lemma AttemptsAreCalls(p: Ports, w: World, attempt: Attempt)
    requires AttemptOf(p, w) == Some(attempt)
    ensures attempt.action.category.ToolAction?
  {
  }

  lemma AttemptedBefore(attempts: seq<Attempt>, limits: StopLimits, w: World)
    requires Attempted(attempts, limits, w) && attempts != []
    ensures Attempted(attempts[..|attempts| - 1], limits, w)
  {
    hide Decides, AttemptOf, AllObserved;
    var earlier := attempts[..|attempts| - 1];
    forall i | 0 <= i < |earlier| ensures AllObserved(earlier[..i], w) && Decides(earlier[..i], limits, w, Continue) {
      assert earlier[..i] == attempts[..i];
    }
  }

  lemma LastRound(p: Ports, w: World, n: nat, end: RoundEnd, tail: seq<Event>)
    requires end.Ended? && BreaksOff(p, w, n, end, tail)
    ensures end.proposal.Some? ==> end.reason == AwaitingApproval && ProposalOk(end.proposal.value)
    ensures end.reason in {InvalidOrOutOfScope, AwaitingApproval, Blocked, FailedStop, Cancelled}
    ensures forall a :: PolicyAnswered(a, true) in tail && a.category.ControlAction? ==>
              Concludes(a, end.reason, end.proposal)
  {
    hide InvestigationTool, PathsAcceptable, Parse, Code, ProposalOk, BuildProposal;
    if Consented(p, w).Some? && Consented(p, w).value.category.ControlAction? {
      ConclusionsAre(Consented(p, w).value, end.reason, end.proposal);
    }
  }

  lemma ConclusionsAre(a: Action, reason: StopReason, proposal: Option<Value>)
    requires Concludes(a, reason, proposal)
    ensures proposal.Some? ==> reason == AwaitingApproval && ProposalOk(proposal.value)
    ensures reason in {InvalidOrOutOfScope, AwaitingApproval, Blocked, FailedStop, Cancelled}
  {
    hide ProposalOk, Code;
    assert reason in {InvalidOrOutOfScope, AwaitingApproval, Blocked, FailedStop, Cancelled} by {
      NamesDiffer();
    }
  }

  /** The loop stops for lack of progress as soon as the run of equal observations is as long as the limit. */
  lemma JustStuck(attempts: seq<Attempt>, limits: StopLimits, w: World)
    requires ValidLimits(limits) && Attempted(attempts, limits, w) && AllObserved(attempts, w)
    requires Decides(attempts, limits, w, NoProgress)
    ensures TrailingRun(Signatures(attempts, w.signature), limits.noProgressLimit)
  {
    hide Stuck, Signatures, TrailingRun, AttemptOf;
    SignaturesAfter(attempts, limits, w);
    var n := |attempts| - 1;
    assert Decides(attempts[..n], limits, w, Continue);
    JustFull(Signatures(attempts[..n], w.signature), Signatures(attempts, w.signature), limits.noProgressLimit);
  }

  lemma SignaturesAfter(attempts: seq<Attempt>, limits: StopLimits, w: World)
    requires ValidLimits(limits) && AllObserved(attempts, w) && Decides(attempts, limits, w, NoProgress)
    ensures attempts != [] && Signatures(attempts, w.signature) != []
    ensures var s := Signatures(attempts, w.signature);
            s == Signatures(attempts[..|attempts| - 1], w.signature) + [s[|s| - 1]]
  {
  }

  lemma JustFull(before: seq<string>, after: seq<string>, k: nat)
    requires 1 <= k && after != [] && after == before + [after[|after| - 1]]
    requires Stuck(after, k) && !Stuck(before, k)
    ensures TrailingRun(after, k)
  {
    if k < |after| && after[|after| - k - 1] == after[|after| - 1] {
      forall i, j | |before| - k <= i < |before| && |before| - k <= j < |before| ensures before[i] == before[j] {
        assert before[i] == after[i] && before[j] == after[j];
      }
      assert Stuck(before, k);
    }
  }

  lemma ControllerDecides(attempts: seq<Attempt>, limits: StopLimits, state: ProgressState, w: World)
    requires ValidLimits(limits) && AllObserved(attempts, w)
    ensures var progress := ProgressAfter(Signatures(attempts, w.signature), state);
            var count := if progress.Some? then progress.value.count else 0;
            var inputs := StopInputs(false, false, false, |attempts|, |attempts|, count);
            && Decides(attempts, limits, w, Evaluate(inputs, limits))
            && Evaluate(inputs.(completed := true), limits) == Completed
            && (Evaluate(inputs, limits) == BudgetExhausted ==> |attempts| >= limits.maxRounds || |attempts| >= limits.maxToolCalls)
            && Evaluate(inputs, limits) in {BudgetExhausted, NoProgress, Continue}
            && (Evaluate(inputs, limits) == Continue ==> |attempts| < limits.maxRounds && |attempts| < limits.maxToolCalls)
  {
    hide Stuck, ProgressAfter, Signatures;
    var signatures := Signatures(attempts, w.signature);
    var count := if ProgressAfter(signatures, state).Some? then ProgressAfter(signatures, state).value.count else 0;
    if signatures != [] {
      StopsWhenStuck(signatures, state, StopInputs(false, false, false, |attempts|, |attempts|, count), limits);
    } else {
      NotStuckYet(limits, state);
    }
  }

  lemma NotStuckYet(limits: StopLimits, state: ProgressState)
    requires ValidLimits(limits)
    ensures !Stuck([], limits.noProgressLimit) && ProgressAfter([], state).None?
  {
  }

  /** One more round ended in an attempt. */
  lemma OneMoreAttempt(earlier: seq<Attempt>, last: Attempt, limits: StopLimits, w: World)
    requires Attempted(earlier, limits, w) && AllObserved(earlier, w) && Decides(earlier, limits, w, Continue)
    requires AttemptOf(w.ports(|earlier| + 1), w) == Some(last)
    ensures Attempted(earlier + [last], limits, w)
    ensures AllObserved(earlier + [last], w) <==> w.signature(last.action, last.status).Some?
  {
    hide Decides, AttemptOf;
    var longer := earlier + [last];
    forall i | 0 <= i < |longer|
      ensures AllObserved(longer[..i], w) && Decides(longer[..i], limits, w, Continue)
    {
      if i < |earlier| {
        assert longer[..i] == earlier[..i];
      } else {
        assert longer[..i] == earlier;
      }
    }
    if w.signature(last.action, last.status).None? {
      assert longer[|earlier|] == last;
    }
  }

  lemma BrokeOffIf(r: LoopResult, limits: StopLimits, w: World, before: seq<Event>, end: RoundEnd)
    requires Underway(r.attempts, before, limits, w)
    requires end.Ended? && r.reason == end.reason && r.proposal == end.proposal
    requires r.rounds == if w.ports(|r.attempts| + 1).built then |r.attempts| + 1 else |r.attempts|
    requires r.toolCalls == |r.attempts| + if end.called then 1 else 0
    requires |before| <= |r.trace| && r.trace[..|before|] == before
    requires BreaksOff(w.ports(|r.attempts| + 1), w, |r.attempts| + 1, end, r.trace[|before|..])
    ensures BrokeOff(r, limits, w) && Attempted(r.attempts, limits, w)
  {
    hide BreaksOff, Traces, Decides, AllObserved, Attempted;
    assert r.trace == before + r.trace[|before|..];
  }

  lemma Unobserved(before: seq<Event>, trace: seq<Event>, earlier: seq<Attempt>, last: Attempt, limits: StopLimits,
                   w: World)
    requires Underway(earlier, before, limits, w) && AttemptOf(w.ports(|earlier| + 1), w) == Some(last)
    requires w.signature(last.action, last.status).None?
    requires trace == before + RoundEvents(|earlier| + 1, last.action)
    ensures Attempted(earlier + [last], limits, w) && Traces(trace, earlier + [last], limits, w)
    ensures !AllObserved(earlier + [last], w)
  {
    hide Decides, Attempted, AllObserved, AttemptOf;
    OneMoreAttempt(earlier, last, limits, w);
    assert (earlier + [last])[..|earlier|] == earlier;
    assert trace == before + RoundEvents(|earlier| + 1, last.action) + [];
    assert Ending([], earlier + [last], limits, w);
  }

  lemma Observed(before: seq<Event>, trace: seq<Event>, earlier: seq<Attempt>, last: Attempt, limits: StopLimits,
                 state: ProgressState, w: World)
    requires ValidLimits(limits) && Underway(earlier, before, limits, w)
    requires AttemptOf(w.ports(|earlier| + 1), w) == Some(last) && w.signature(last.action, last.status).Some?
    requires trace == before + RoundEvents(|earlier| + 1, last.action)
    ensures var attempts := earlier + [last];
            var progress := AdvanceNoProgress(ProgressAfter(Signatures(earlier, w.signature), state),
                                              w.signature(last.action, last.status).value, state);
            var reason := Evaluate(StopInputs(false, false, false, |attempts|, |attempts|, progress.count), limits);
            && ProgressAfter(Signatures(attempts, w.signature), state) == Some(progress)
            && Attempted(attempts, limits, w) && AllObserved(attempts, w)
            && Traces(trace + [StopDecided(reason)], attempts, limits, w) && Decides(attempts, limits, w, reason)
            && (reason == Continue ==> Underway(attempts, trace + [StopDecided(reason)], limits, w))
  {
    hide Decides, Attempted, AllObserved, AttemptOf, Evaluate, Signatures, ProgressAfter;
    OneMoreAttempt(earlier, last, limits, w);
    ProgressStep(earlier, last, w.signature, state);
    ControllerDecides(earlier + [last], limits, state, w);
    assert (earlier + [last])[..|earlier|] == earlier;
    var progress := ProgressAfter(Signatures(earlier + [last], w.signature), state).value;
    var reason := Evaluate(StopInputs(false, false, false, |earlier| + 1, |earlier| + 1, progress.count), limits);
    assert trace + [StopDecided(reason)] == before + RoundEvents(|earlier| + 1, last.action) + [StopDecided(reason)];
    assert Ending([StopDecided(reason)], earlier + [last], limits, w);
  }

  lemma NothingTraced(limits: StopLimits, state: ProgressState, w: World)
    requires ValidLimits(limits)
    ensures WellTraced([], w.pathOk) && ToolCalls([]) == 0 && Rounds([]) == 0
    ensures Signatures([], w.signature) == [] && ProgressAfter([], state).None?
    ensures Underway([], [], limits, w)
  {
  }

  lemma CallIsGated(before: seq<Event>, trace: seq<Event>, round: nat, a: Action, pathOk: Text -> bool)
    requires trace == before + [ContextBuilt(round), AttemptPersisted(round), ModelAsked(round), PolicyAnswered(a, true)]
    requires a.category.ToolAction? && InvestigationTool(a.actionType) && PathsAcceptable(a, pathOk)
    ensures Gated(trace + [ToolCalled(a)], |trace|, pathOk)
  {
    hide InvestigationTool, PathsAcceptable;
  }

  lemma ProgressStep(attempts: seq<Attempt>, last: Attempt, signature: (Action,
                     ToolStatus) -> Option<string>, state: ProgressState)
    requires signature(last.action, last.status).Some?
    ensures ProgressAfter(Signatures(attempts + [last], signature), state)
            == Some(AdvanceNoProgress(ProgressAfter(Signatures(attempts, signature), state),
                                      signature(last.action, last.status).value, state))
    ensures Signatures(attempts + [last], signature) != []
  {
    assert (attempts + [last])[..|attempts|] == attempts;
    var s := Signatures(attempts, signature);
    assert (s + [signature(last.action, last.status).value])[..|s|] == s;
  }
}
