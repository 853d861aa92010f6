/** What the agent loop's checks of paths and proposals mean for any action the parser accepts. */
module LoopRules {
  import opened Wrappers
  import opened Utf8
  import opened Json
  import opened Normalization
  import opened FrozenJson
  import opened Actions
  import opened Reparsing
  import opened AgentLoops
  import R = ActionRules

  // ---- paths ----

  /** Which actions have a single path, and which a list of them. */
  predicate NamesAPath(name: R.Name) {
    name.ListFiles? || name.ReadFile? || name.CreateFile? || name.ReplaceFile? || name.ApplyPatch? || name.DeleteFile?
  }

  predicate NamesPaths(name: R.Name) {
    || name.SearchText? || name.RequestIgnoredInput? || name.GitDiffWorktree? || name.GitDiffIndex?
    || name.GitListTracked? || name.GitListUntracked? || name.GitStagePaths? || name.GitUnstagePaths?
  }

  predicate PathList(v: Value, pathOk: Text -> bool) {
    v.Arr? && forall i :: 0 <= i < |v.items| ==> PathValue(v.items[i], pathOk)
  }

  lemma FieldTextTells(f: R.Field)
    ensures R.FieldText(f) == Code("path") <==> f == R.PathField
    ensures R.FieldText(f) == Code("paths") <==> f == R.PathsField
    ensures R.FieldText(f) == Code("proposal") <==> f == R.Proposal
  {
    hide R.FieldText;
    R.FieldsAreTheirTexts();
    assert Code("path") != Code("text") && Code("path") != Code("mode") by {
      assert Code("path")[0] != Code("text")[0] && Code("path")[0] != Code("mode")[0];
    }
    assert Code("paths") != Code("phase") && Code("paths") != Code("limit") && Code("paths") != Code("patch") by {
      assert Code("paths")[1] != Code("phase")[1] && Code("paths")[0] != Code("limit")[0];
      assert Code("paths")[3] != Code("patch")[3];
    }
    assert Code("proposal") != Code("question") by {
      assert Code("proposal")[0] != Code("question")[0];
    }
  }

  lemma KeyTells(name: R.Name)
    ensures Code("path") in R.Texts(R.RuleOf(name).required.Keys) <==> NamesAPath(name)
    ensures Code("path") in R.Texts(R.Demands(R.RuleOf(name)).Keys) <==> NamesAPath(name)
    ensures Code("paths") in R.Texts(R.Demands(R.RuleOf(name)).Keys) <==> NamesPaths(name)
  {
    hide Code, R.FieldText, R.RuleOf;
    forall f
      ensures R.FieldText(f) == Code("path") <==> f == R.PathField
      ensures R.FieldText(f) == Code("paths") <==> f == R.PathsField
    {
      FieldTextTells(f);
    }
    PathOf(name);
    PathsOf(name);
  }

  lemma PathOf(name: R.Name)
    ensures R.PathField in R.RuleOf(name).required <==> NamesAPath(name)
    ensures R.PathField in R.Demands(R.RuleOf(name)) <==> NamesAPath(name)
  {
  }

  lemma PathsOf(name: R.Name)
    ensures R.PathsField in R.Demands(R.RuleOf(name)) <==> NamesPaths(name)
  {
  }

  /** The parameters of an accepted action are an object without repeated keys. */
  lemma AcceptedDistinct(raw: Value, forbidden: Text -> bool)
    requires Parse(raw, forbidden).Some?
    ensures var p := Thaw(Parse(raw, forbidden).value.parameters);
            p.Obj? && DistinctKeys(p.members)
  {
    hide Parse, Acceptable, Thaw, Freeze, Canon, R.RuleOf, R.NameText, R.Fitting, R.BudgetFits, R.IdentifierOk, Code, Cost;
    var id, name, p, b := R.AcceptedIsAllowed(raw, forbidden);
    var t, e := Str(R.NameText(name)), Str(Code(R.ResultOf(R.RuleOf(name).category)));
    FittingObject(name, p, forbidden);
    R.ParametersAcceptable(raw, Str(id), t, p, b, e);
    ThawFreeze(p);
    AcceptableCanon(p, 2);
    CanonShape(p);
    ObjectDistinct(Canon(p));
  }

  lemma FittingObject(name: R.Name, p: Value, forbidden: Text -> bool)
    requires R.Fitting(name, p, forbidden)
    ensures p.Obj?
  {
  }

  lemma ObjectDistinct(v: Value)
    requires Acceptable(v, 2) && v.Obj?
    ensures DistinctKeys(v.members)
  {
  }

  /** Every path a parameter names is acceptable. */
  predicate MemberChecked(m: Pair<Value>, pathOk: Text -> bool) {
    && (m.key == Code("path") ==> PathValue(m.value, pathOk))
    && (m.key == Code("paths") ==> PathList(m.value, pathOk))
  }

  /** For an action the agent may carry out, the loop's check passes exactly if every path in its parameters
      is acceptable: no path reaches a tool unchecked. */
  lemma EveryPathChecked(raw: Value, forbidden: Text -> bool, pathOk: Text -> bool)
    requires Parse(raw, forbidden).Some? && InvestigationTool(Parse(raw, forbidden).value.actionType)
    ensures var a := Parse(raw, forbidden).value;
            var p := Thaw(a.parameters);
            && p.Obj?
            && (PathsAcceptable(a, pathOk) <==> forall i :: 0 <= i < |p.members| ==> MemberChecked(p.members[i], pathOk))
  {
    hide Parse, Thaw, R.RuleOf, R.NameText, R.FieldText, InvestigationTool, Code, Find, PathsAcceptable, MemberChecked;
    var a := Parse(raw, forbidden).value;
    var name := R.AcceptedKeys(raw, forbidden);
    AcceptedDistinct(raw, forbidden);
    Looks(name);
    KeyTells(name);
    var members := Thaw(a.parameters).members;
    FindAt(members, Code("path"));
    FindAt(members, Code("paths"));
    ChecksAre(a, name, pathOk);
    MembersChecked(members, pathOk);
  }

  lemma Looks(name: R.Name)
    ensures InvestigationTool(R.NameText(name)) ==>
              && (NamesAPath(name) <==> name.ListFiles? || name.ReadFile?)
              && (NamesPaths(name) <==>
                    name.SearchText? || name.GitDiffWorktree? || name.GitDiffIndex? || name.GitListTracked?
                    || name.GitListUntracked?)
  {
    hide Code, R.NameText;
    R.ToolTextIs(name);
    R.GitTextIs(name);
  }

  /** The check looks at the path of two actions and at the paths of five. */
  lemma ChecksAre(a: Action, name: R.Name, pathOk: Text -> bool)
    requires a.actionType == R.NameText(name) && Thaw(a.parameters).Obj?
    ensures var path, paths := Find(Thaw(a.parameters).members, Code("path")), Find(Thaw(a.parameters).members, Code("paths"));
            PathsAcceptable(a, pathOk) <==>
              && (name.ListFiles? || name.ReadFile? ==> path.Some? && PathValue(path.value, pathOk))
              && (name.SearchText? || name.GitDiffWorktree? || name.GitDiffIndex? || name.GitListTracked?
                  || name.GitListUntracked? ==>
                    (paths.Some? ==> PathList(paths.value, pathOk)))
  {
    hide Code, R.NameText, Find, Thaw;
    R.ToolTextIs(name);
    R.GitTextIs(name);
  }

  lemma MembersChecked(members: seq<Pair<Value>>, pathOk: Text -> bool)
    requires DistinctKeys(members)
    ensures (forall i :: 0 <= i < |members| ==> MemberChecked(members[i], pathOk)) <==>
              && (var path := Find(members, Code("path")); path.Some? ==> PathValue(path.value, pathOk))
              && (var paths := Find(members, Code("paths"));
                  paths.Some? ==> PathList(paths.value, pathOk))
  {
    hide Code, Find;
    FindAt(members, Code("path"));
    FindAt(members, Code("paths"));
    if Code("path") in Keys(members) {
      var i :| 0 <= i < |members| && members[i].key == Code("path");
      assert MemberChecked(members[i], pathOk) ==> PathValue(members[i].value, pathOk);
    }
    if Code("paths") in Keys(members) {
      var i :| 0 <= i < |members| && members[i].key == Code("paths");
      assert MemberChecked(members[i], pathOk) ==> PathList(members[i].value, pathOk);
    }
  }

  // ---- proposals ----

  /** Nothing that could be read as an answer. */
  predicate Blank(v: Value) {
    v in {Null, Str([]), Arr([]), Obj([])}
  }

  predicate Answers(proposal: Value, part: Text)
    requires proposal.Obj?
  {
    exists i :: 0 <= i < |proposal.members| && proposal.members[i].key == part && !Blank(proposal.members[i].value)
  }

  const PARTS: seq<string> := ["understanding", "scope", "validation", "risks", "budget", "sensitive_actions"]

  /** A plan waits for approval exactly if its one parameter is a proposal that answers each of the six parts,
      and has no other. */
  lemma ProposalAnswersAll(a: Action, proposal: Value)
    requires Thaw(a.parameters).Obj? && DistinctKeys(Thaw(a.parameters).members)
    requires proposal.Obj? && DistinctKeys(proposal.members)
    ensures BuildProposal(a) == Some(proposal) <==>
              && Thaw(a.parameters).members == [Pair(Code("proposal"), proposal)]
              && (forall i :: 0 <= i < |PARTS| ==> Answers(proposal, Code(PARTS[i])))
              && (forall j :: 0 <= j < |proposal.members| ==>
                   exists i :: 0 <= i < |PARTS| && proposal.members[j].key == Code(PARTS[i]))
  {
    hide Code, Thaw;
    var members := Thaw(a.parameters).members;
    SoleMember(members, Code("proposal"));
    FieldsAreParts(proposal);
    PartsAnswered(proposal);
  }

  lemma SoleMember(members: seq<Pair<Value>>, key: Text)
    requires DistinctKeys(members)
    ensures Keys(members) == {key} <==> |members| == 1 && members[0].key == key
    ensures Keys(members) == {key} ==> Find(members, key) == Some(members[0].value)
  {
    assert 1 < |members| ==> members[0].key != members[1].key;
    if Keys(members) == {key} {
      assert key in Keys(members);
      forall i | 0 <= i < |members| ensures members[i].key == key {
        assert members[i].key in Keys(members);
      }
    }
    if |members| == 1 && members[0].key == key {
      assert Keys(members) == {key};
    }
  }

  lemma FieldsAreParts(proposal: Value)
    requires proposal.Obj?
    ensures Keys(proposal.members) == ProposalFields() <==>
              && (forall i :: 0 <= i < |PARTS| ==> Code(PARTS[i]) in Keys(proposal.members))
              && (forall j :: 0 <= j < |proposal.members| ==>
                   exists i :: 0 <= i < |PARTS| && proposal.members[j].key == Code(PARTS[i]))
  {
    hide Code;
    assert ProposalFields() == set i | 0 <= i < |PARTS| :: Code(PARTS[i]) by {
      assert PARTS[0] == "understanding" && PARTS[1] == "scope" && PARTS[2] == "validation" && PARTS[3] == "risks";
      assert PARTS[4] == "budget" && PARTS[5] == "sensitive_actions";
    }
    if (forall i :: 0 <= i < |PARTS| ==> Code(PARTS[i]) in Keys(proposal.members))
       && (forall j :: 0 <= j < |proposal.members| ==>
            exists i :: 0 <= i < |PARTS| && proposal.members[j].key == Code(PARTS[i])) {
      forall k ensures k in Keys(proposal.members) <==> k in ProposalFields() {
      }
    }
    if Keys(proposal.members) == ProposalFields() {
      forall j | 0 <= j < |proposal.members|
        ensures exists i :: 0 <= i < |PARTS| && proposal.members[j].key == Code(PARTS[i])
      {
        assert proposal.members[j].key in Keys(proposal.members);
      }
    }
  }

  lemma PartsAnswered(proposal: Value)
    requires proposal.Obj? && DistinctKeys(proposal.members)
    ensures ProposalOk(proposal) <==>
              && Keys(proposal.members) == ProposalFields()
              && forall i :: 0 <= i < |PARTS| ==> Answers(proposal, Code(PARTS[i]))
  {
    hide Code, ProposalFields;
    FieldsAreParts(proposal);
    if Keys(proposal.members) == ProposalFields() {
      if ProposalOk(proposal) {
        forall i | 0 <= i < |PARTS| ensures Answers(proposal, Code(PARTS[i])) {
          var j :| 0 <= j < |proposal.members| && proposal.members[j].key == Code(PARTS[i]);
          assert !Blank(proposal.members[j].value);
        }
      }
      if forall i :: 0 <= i < |PARTS| ==> Answers(proposal, Code(PARTS[i])) {
        forall j | 0 <= j < |proposal.members| ensures !Blank(proposal.members[j].value) {
          var i :| 0 <= i < |PARTS| && proposal.members[j].key == Code(PARTS[i]);
          assert Answers(proposal, Code(PARTS[i]));
        }
      }
    }
  }

  /** A value within an object costs less than the object. */
  lemma MemberCosts(v: Value, i: nat)
    requires v.Obj? && Writable(v) && i < |v.members|
    ensures Writable(v.members[i].value) && Cost(v.members[i].value) < Cost(v)
  {
    hide Sum, Cost;
    ObjectCost(v);
    SumPrefix(Apply(PairCost, v.members), i);
  }

  /** The proposal of an accepted action is never too large: it is a part of an input within the limit. */
  lemma ProposalWithinLimit(raw: Value, forbidden: Text -> bool)
    requires Parse(raw, forbidden).Some? && BuildProposal(Parse(raw, forbidden).value).Some?
    ensures var proposal := BuildProposal(Parse(raw, forbidden).value).value;
            Writable(proposal) && Cost(proposal) < 65536
  {
    hide Parse, Acceptable, Thaw, Freeze, Canon, ProposalOk, Find, R.RuleOf, R.NameText, R.Fitting, R.BudgetFits,
      R.IdentifierOk, Code, Cost, Writable;
    var a := Parse(raw, forbidden).value;
    var id, name, p, b := R.AcceptedIsAllowed(raw, forbidden);
    ThawFreeze(p);
    var members := Thaw(a.parameters).members;
    AcceptedDistinct(raw, forbidden);
    SoleMember(members, Code("proposal"));
    var dict := Dict(Str(id), Str(R.NameText(name)), p, b, Str(Code(R.ResultOf(R.RuleOf(name).category))));
    assert dict.members[2] in multiset(raw.members);
    var i :| 0 <= i < |raw.members| && raw.members[i] == dict.members[2];
    AcceptableIsWritable(raw, 1);
    MemberCosts(raw, i);
    CostCanon(p);
    MemberCosts(Canon(p), 0);
  }
}
