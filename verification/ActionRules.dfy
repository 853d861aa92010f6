/** The protocol of structured actions, type by type, and that the parser accepts exactly what it allows. */
module ActionRules {
  import opened Wrappers
  import opened Utf8
  import opened Json
  import opened Normalization
  import opened FrozenJson
  import opened Actions
  import opened Reparsing

  // ---- the table ----

  /** The actions an agent may ask for. */
  datatype Name =
    | RequestClarification | ProposePlan | RequestBudgetExtension | RequestUserConfirmation | ReportBlocked
    | StopWithFailure | StopWithoutSafeAction | InspectRepository | ListFiles | ReadFile | SearchText | CreateFile
    | ReplaceFile | ApplyPatch | DeleteFile | RequestIgnoredInput | RunValidation | GitRepoProbe | GitRepoRoot
    | GitStatus | GitDiffWorktree | GitDiffIndex | GitListTracked | GitListUntracked | GitStagePaths
    | GitUnstagePaths

  function NameText(x: Name): Text {
    match x
    case RequestClarification => Code("request_clarification")
    case ProposePlan => Code("propose_plan")
    case RequestBudgetExtension => Code("request_budget_extension")
    case RequestUserConfirmation => Code("request_user_confirmation")
    case ReportBlocked => Code("report_blocked")
    case StopWithFailure => Code("stop_with_failure")
    case StopWithoutSafeAction => Code("stop_without_safe_action")
    case InspectRepository => Code("inspect_repository")
    case ListFiles => Code("list_files")
    case ReadFile => Code("read_file")
    case SearchText => Code("search_text")
    case CreateFile => Code("create_file")
    case ReplaceFile => Code("replace_file")
    case ApplyPatch => Code("apply_patch")
    case DeleteFile => Code("delete_file")
    case RequestIgnoredInput => Code("request_ignored_input")
    case RunValidation => Code("run_validation")
    case GitRepoProbe => Code("git_repo_probe")
    case GitRepoRoot => Code("git_repo_root")
    case GitStatus => Code("git_status")
    case GitDiffWorktree => Code("git_diff_worktree")
    case GitDiffIndex => Code("git_diff_index")
    case GitListTracked => Code("git_list_tracked")
    case GitListUntracked => Code("git_list_untracked")
    case GitStagePaths => Code("git_stage_paths")
    case GitUnstagePaths => Code("git_unstage_paths")
  }

  /** The parameters of actions. */
  datatype Field =
    | Question | Proposal | Request | Condition | Report | PathField | PathsField | SearchedText | ExpectedDigest
    | Reason | Mode | PhaseField | ManifestVersion | Profile | Operation | Content | Limit | StartByte | MaxBytes
    | Patch

  function FieldText(x: Field): Text {
    match x
    case Question => Code("question")
    case Proposal => Code("proposal")
    case Request => Code("request")
    case Condition => Code("condition")
    case Report => Code("report")
    case PathField => Code("path")
    case PathsField => Code("paths")
    case SearchedText => Code("text")
    case ExpectedDigest => Code("expected_digest")
    case Reason => Code("reason")
    case Mode => Code("mode")
    case PhaseField => Code("phase")
    case ManifestVersion => Code("manifest_version")
    case Profile => Code("profile")
    case Operation => Code("operation")
    case Content => Code("content")
    case Limit => Code("limit")
    case StartByte => Code("start_byte")
    case MaxBytes => Code("max_bytes")
    case Patch => Code("patch")
  }

  /** What a parameter must be: text of so many bytes in UTF-8, a number, a list of paths, an object of
      bounded depth, or one of some words. */
  datatype Demand =
    | TextOf(least: nat, most: nat)
    | NumberFrom(least: nat)
    | PathsFrom(least: nat)
    | NestedObject
    | WordOf(words: set<string>)

  datatype Rule = Rule(category: Class, required: map<Field, Demand>, optional: map<Field, Demand>)

  function Control(field: Field, demand: Demand): Rule {
    Rule(ControlAction, map[field := demand], map[])
  }

  function Tool(required: map<Field, Demand>): Rule {
    Rule(ToolAction, required, map[])
  }

  const PLAIN: Demand := TextOf(1, 4096)

  function RuleOf(name: Name): Rule {
    match name
    case RequestClarification => Control(Question, PLAIN)
    case ProposePlan => Control(Proposal, NestedObject)
    case RequestBudgetExtension => Control(Request, NestedObject)
    case RequestUserConfirmation => Control(Condition, NestedObject)
    case ReportBlocked | StopWithFailure | StopWithoutSafeAction => Control(Report, NestedObject)
    case InspectRepository | GitRepoProbe | GitRepoRoot | GitStatus => Tool(map[])
    case ListFiles => Tool(map[PathField := PLAIN, Limit := NumberFrom(1)])
    case ReadFile => Tool(map[PathField := PLAIN, StartByte := NumberFrom(0), MaxBytes := NumberFrom(1)])
    case SearchText => Tool(map[SearchedText := PLAIN, PathsField := PathsFrom(1), Limit := NumberFrom(1)])
    case CreateFile => Tool(map[PathField := PLAIN, Content := TextOf(0, 65536)])
    case ReplaceFile => Tool(map[PathField := PLAIN, ExpectedDigest := PLAIN, Content := TextOf(0, 65536)])
    case ApplyPatch => Tool(map[PathField := PLAIN, ExpectedDigest := PLAIN, Patch := NestedObject])
    case DeleteFile => Tool(map[PathField := PLAIN, ExpectedDigest := PLAIN, Reason := PLAIN])
    case RequestIgnoredInput =>
      Tool(map[PathsField := PathsFrom(1),
               Mode := WordOf({"read_only_input", "writable_ephemeral"}),
               PhaseField := WordOf({"INVESTIGATING", "EXECUTING", "VERIFYING"}),
               ManifestVersion := PLAIN])
    case RunValidation => Tool(map[Profile := WordOf({"python312", "nodejs20_npm"}), Operation := PLAIN])
    case GitDiffWorktree | GitDiffIndex | GitListTracked | GitListUntracked =>
      Rule(ToolAction, map[], map[PathsField := PathsFrom(0)])
    case GitStagePaths | GitUnstagePaths => Tool(map[PathsField := PathsFrom(1)])
  }

  function Demands(rule: Rule): map<Field, Demand> {
    rule.required + rule.optional
  }

  // ---- what the demands mean ----

  predicate TextWithin(v: Value, least: nat, most: nat) {
    v.Str? && Encodable(v.text) && 0 !in v.text && least <= |EncodeText(v.text)| <= most
  }

  /** How deep containers are nested in a value. */
  function Depth(v: Value): nat {
    match v
    case Arr(items) => 1 + Deepest(items)
    case Obj(members) => 1 + DeepestMember(members)
    case _ => 0
  }

  function Deepest(items: seq<Value>): nat {
    if items == [] then 0
    else
      var first, rest := Depth(items[0]), Deepest(items[1..]);
      if first >= rest then first else rest
  }

  function DeepestMember(members: seq<Pair<Value>>): nat {
    if members == [] then 0
    else
      var first, rest := Depth(members[0].value), DeepestMember(members[1..]);
      if first >= rest then first else rest
  }

  /** All keys of a value, at any depth. */
  function AllKeys(v: Value): set<Text> {
    match v
    case Arr(items) => KeysWithin(items)
    case Obj(members) => KeysOfMembers(members)
    case _ => {}
  }

  function KeysWithin(items: seq<Value>): set<Text> {
    if items == [] then {} else AllKeys(items[0]) + KeysWithin(items[1..])
  }

  function KeysOfMembers(members: seq<Pair<Value>>): set<Text> {
    if members == [] then {} else {members[0].key} + AllKeys(members[0].value) + KeysOfMembers(members[1..])
  }

  predicate NamesNoCommand(v: Value, forbidden: Text -> bool) {
    forall k :: k in AllKeys(v) ==> !forbidden(k)
  }

  predicate Meets(v: Value, d: Demand, forbidden: Text -> bool) {
    match d
    case TextOf(least, most) => TextWithin(v, least, most)
    case NumberFrom(least) => v.Int? && least <= v.number < 0x8000_0000_0000_0000
    case PathsFrom(least) =>
      v.Arr? && least <= |v.items| <= 256 && forall i :: 0 <= i < |v.items| ==> TextWithin(v.items[i], 1, 4096)
    case NestedObject => v.Obj? && v.members != [] && Depth(v) <= 16 && NamesNoCommand(v, forbidden)
    case WordOf(words) => TextWithin(v, 1, 4096) && exists word :: word in words && v.text == Code(word)
  }

  /** Every required parameter is there, and every parameter is one of the rule and meets its demand. */
  predicate Follows(p: Value, rule: Rule, forbidden: Text -> bool) {
    && p.Obj?
    && (forall f :: f in rule.required ==> FieldText(f) in Keys(p.members))
    && (forall i :: 0 <= i < |p.members| ==> Allowed(p.members[i], rule, forbidden))
    && (rule.category.ToolAction? ==> NamesNoCommand(p, forbidden))
  }

  predicate Allowed(m: Pair<Value>, rule: Rule, forbidden: Text -> bool) {
    exists f :: f in Demands(rule) && m.key == FieldText(f) && Meets(m.value, Demands(rule)[f], forbidden)
  }

  /** A validation names an operation of its profile. */
  predicate Suits(name: Name, p: Value)
    requires p.Obj?
  {
    name.RunValidation? ==>
      var profile, operation := Find(p.members, Code("profile")), Find(p.members, Code("operation"));
      || (profile == Some(Str(Code("python312"))) && operation in {Some(Str(Code("pytest"))), Some(Str(Code("ruff")))})
      || (&& profile == Some(Str(Code("nodejs20_npm")))
          && operation in {Some(Str(Code("test"))), Some(Str(Code("lint"))), Some(Str(Code("build"))),
                           Some(Str(Code("typecheck")))})
  }

  /** The parameters are those of the action. */
  predicate Fitting(name: Name, p: Value, forbidden: Text -> bool) {
    Follows(p, RuleOf(name), forbidden) && Suits(name, p)
  }

  const LOWER := "abcdefghijklmnopqrstuvwxyz"
  const UPPER := "ABCDEFGHIJKLMNOPQRSTUVWXYZ"
  const DIGITS := "0123456789"

  predicate IdentifierOk(t: Text) {
    && 1 <= |t| <= 128
    && t[0] in Code(LOWER + UPPER + DIGITS)
    && forall i :: 0 <= i < |t| ==> t[i] in Code(LOWER + UPPER + DIGITS + "._:-")
  }

  /** One to sixteen named amounts, at least one of them positive. */
  predicate BudgetFits(b: Value) {
    && b.Obj? && 1 <= |b.members| <= 16
    && (forall i :: 0 <= i < |b.members| ==>
         && AmountName(b.members[i].key)
         && b.members[i].value.Int? && 0 <= b.members[i].value.number < 0x8000_0000_0000_0000)
    && exists i :: 0 <= i < |b.members| && b.members[i].value != Int(0)
  }

  predicate AmountName(t: Text) {
    && 1 <= |t| <= 64
    && t[0] in Code(LOWER)
    && forall i :: 0 <= i < |t| ==> t[i] in Code(LOWER + DIGITS + "_")
  }

  function ResultOf(category: Class): string {
    if category.ControlAction? then "control_result" else "tool_result"
  }

  /** `raw` asks for action `name` with these parts, in the five fields in any order, and all is as the
      protocol wants it. */
  predicate Asks(raw: Value, id: Text, name: Name, p: Value, b: Value, forbidden: Text -> bool) {
    && raw.Obj? && Acceptable(raw, 1) && Cost(raw) <= 65536
    && var rule := RuleOf(name);
    && multiset(raw.members) == multiset([
         Pair(Code("action_id"), Str(id)),
         Pair(Code("action_type"), Str(NameText(name))),
         Pair(Code("parameters"), p),
         Pair(Code("budget_impact"), b),
         Pair(Code("expected_result_type"), Str(Code(ResultOf(rule.category))))])
    && IdentifierOk(id)
    && Fitting(name, p, forbidden)
    && BudgetFits(b)
  }

  // ---- texts and strings ----

  lemma CodeInjective(s: string, t: string)
    ensures Code(s) == Code(t) <==> s == t
  {
    if Code(s) == Code(t) {
      forall i | 0 <= i < |s| ensures s[i] == t[i] {
        assert Code(s)[i] == Code(t)[i];
      }
    }
  }

  lemma TextMeans(v: Value, least: nat, most: nat)
    ensures StringOk(v, least, most) <==> TextWithin(v, least, most)
  {
  }

  // ---- depth and keys ----

  lemma {:induction false} DeepestIs(items: seq<Value>, n: nat)
    ensures Deepest(items) <= n <==> forall i :: 0 <= i < |items| ==> Depth(items[i]) <= n
  {
    if items != [] {
      DeepestIs(items[1..], n);
      assert forall i :: 0 < i < |items| ==> items[i] == items[1..][i - 1];
      assert forall i :: 0 <= i < |items[1..]| ==> items[1..][i] == items[i + 1];
    }
  }

  lemma {:induction false} DeepestMemberIs(members: seq<Pair<Value>>, n: nat)
    ensures DeepestMember(members) <= n <==> forall i :: 0 <= i < |members| ==> Depth(members[i].value) <= n
  {
    if members != [] {
      DeepestMemberIs(members[1..], n);
      assert forall i :: 0 < i < |members| ==> members[i] == members[1..][i - 1];
      assert forall i :: 0 <= i < |members[1..]| ==> members[1..][i] == members[i + 1];
    }
  }

  lemma {:induction false} KeysWithinAre(items: seq<Value>, k: Text)
    ensures k in KeysWithin(items) <==> exists i :: 0 <= i < |items| && k in AllKeys(items[i])
  {
    if items != [] {
      KeysWithinAre(items[1..], k);
      assert forall i :: 0 < i < |items| ==> items[i] == items[1..][i - 1];
      assert forall i :: 0 <= i < |items[1..]| ==> items[1..][i] == items[i + 1];
    }
  }

  lemma {:induction false} KeysOfMembersAre(members: seq<Pair<Value>>, k: Text)
    ensures k in KeysOfMembers(members) <==>
              exists i :: 0 <= i < |members| && (k == members[i].key || k in AllKeys(members[i].value))
  {
    if members != [] {
      KeysOfMembersAre(members[1..], k);
      assert forall i :: 0 < i < |members| ==> members[i] == members[1..][i - 1];
      assert forall i :: 0 <= i < |members[1..]| ==> members[1..][i] == members[i + 1];
    }
  }

  /** The recursive check for command keys looks at all keys. */
  lemma {:induction false} NoCommandsMeans(v: Value, forbidden: Text -> bool)
    ensures NoCommands(v, forbidden) <==> NamesNoCommand(v, forbidden)
  {
    match v
    case Arr(items) =>
      forall i | 0 <= i < |items| ensures NoCommands(items[i], forbidden) <==> NamesNoCommand(items[i], forbidden) {
        NoCommandsMeans(items[i], forbidden);
      }
      forall k ensures k in AllKeys(v) <==> exists i :: 0 <= i < |items| && k in AllKeys(items[i]) {
        KeysWithinAre(items, k);
      }
    case Obj(members) =>
      forall i | 0 <= i < |members|
        ensures NoCommands(members[i].value, forbidden) <==> NamesNoCommand(members[i].value, forbidden)
      {
        NoCommandsMeans(members[i].value, forbidden);
      }
      forall k
        ensures k in AllKeys(v) <==>
                  exists i :: 0 <= i < |members| && (k == members[i].key || k in AllKeys(members[i].value))
      {
        KeysOfMembersAre(members, k);
      }
    case _ =>
  }

  /** In an acceptable value the bounded containers are those of limited depth without command keys. */
  lemma {:induction false} BoundedMeans(v: Value, depth: nat, outer: nat, forbidden: Text -> bool)
    requires Acceptable(v, outer) && 1 <= depth
    ensures Bounded(v, depth, forbidden) <==>
              (Depth(v) == 0 || Depth(v) + depth <= 17) && NamesNoCommand(v, forbidden)
    decreases v
  {
    match v
    case Arr(items) =>
      forall i | 0 <= i < |items|
        ensures Bounded(items[i], depth + 1, forbidden) <==>
                  (Depth(items[i]) == 0 || Depth(items[i]) + depth + 1 <= 17) && NamesNoCommand(items[i], forbidden)
      {
        BoundedMeans(items[i], depth + 1, outer + 1, forbidden);
      }
      if depth <= 16 {
        DeepestIs(items, 16 - depth);
      }
      forall k ensures k in AllKeys(v) <==> exists i :: 0 <= i < |items| && k in AllKeys(items[i]) {
        KeysWithinAre(items, k);
      }
    case Obj(members) =>
      forall i | 0 <= i < |members|
        ensures Bounded(members[i].value, depth + 1, forbidden) <==>
                  && (Depth(members[i].value) == 0 || Depth(members[i].value) + depth + 1 <= 17)
                  && NamesNoCommand(members[i].value, forbidden)
      {
        BoundedMeans(members[i].value, depth + 1, outer + 1, forbidden);
      }
      if depth <= 16 {
        DeepestMemberIs(members, 16 - depth);
      }
      forall k
        ensures k in AllKeys(v) <==>
                  exists i :: 0 <= i < |members| && (k == members[i].key || k in AllKeys(members[i].value))
      {
        KeysOfMembersAre(members, k);
      }
    case _ =>
  }

  lemma NestedMeans(v: Value, outer: nat, forbidden: Text -> bool)
    requires Acceptable(v, outer)
    ensures BoundedObject(v, forbidden) <==> Meets(v, NestedObject, forbidden)
  {
    BoundedMeans(v, 1, outer, forbidden);
  }

  // ---- characters ----

  lemma CharactersAre(c: nat)
    ensures c in Code(LOWER) <==> 97 <= c <= 122
    ensures c in Code(UPPER) <==> 65 <= c <= 90
    ensures c in Code(DIGITS) <==> 48 <= c <= 57
    ensures c in Code("._:-") <==> c == 46 || c == 95 || c == 58 || c == 45
    ensures c in Code("_") <==> c == 95
  {
    assert forall i :: 0 <= i < 26 ==> Code(LOWER)[i] == 97 + i;
    assert forall i :: 0 <= i < 26 ==> Code(UPPER)[i] == 65 + i;
    assert forall i :: 0 <= i < 10 ==> Code(DIGITS)[i] == 48 + i;
    assert 97 <= c <= 122 ==> Code(LOWER)[c - 97] == c;
    assert 65 <= c <= 90 ==> Code(UPPER)[c - 65] == c;
    assert 48 <= c <= 57 ==> Code(DIGITS)[c - 48] == c;
    assert Code("._:-") == [46, 95, 58, 45];
    assert Code("_") == [95];
  }

  lemma CodeOfSum(s: string, t: string)
    ensures Code(s + t) == Code(s) + Code(t)
  {
  }

  lemma IdentifierMeans(t: Text)
    ensures IdOk(t) <==> IdentifierOk(t)
  {
    hide Code;
    CodeOfSum(LOWER, UPPER);
    CodeOfSum(LOWER + UPPER, DIGITS);
    CodeOfSum(LOWER + UPPER + DIGITS, "._:-");
    forall c: nat
      ensures c in Code(LOWER + UPPER + DIGITS) <==> Letter(c) || Digit(c)
      ensures c in Code(LOWER + UPPER + DIGITS + "._:-") <==>
                Letter(c) || Digit(c) || c == 46 || c == 95 || c == 58 || c == 45
    {
      CharactersAre(c);
    }
  }

  lemma AmountMeans(t: Text)
    ensures BudgetKeyOk(t) <==> AmountName(t)
  {
    hide Code;
    CodeOfSum(LOWER, DIGITS);
    CodeOfSum(LOWER + DIGITS, "_");
    forall c: nat
      ensures c in Code(LOWER) <==> 97 <= c <= 122
      ensures c in Code(LOWER + DIGITS + "_") <==> 97 <= c <= 122 || Digit(c) || c == 95
    {
      CharactersAre(c);
    }
  }

  lemma BudgetMeans(b: Value)
    ensures BudgetOk(b) <==> BudgetFits(b)
  {
    hide BudgetKeyOk, AmountName;
    if b.Obj? {
      forall i | 0 <= i < |b.members| ensures BudgetKeyOk(b.members[i].key) <==> AmountName(b.members[i].key) {
        AmountMeans(b.members[i].key);
      }
    }
  }

  // ---- telling names apart ----

  /** The length of a name and one of its characters, from the front or from the back: enough to tell the
      names of the protocol apart. */
  function Mark(name: Text, at: int): nat {
    var i := if at < 0 then |name| + at else at;
    if 0 <= i < |name| then |name| * 1000 + name[i] else 0
  }

  lemma ControlMarks()
    ensures Mark(Code("request_clarification"), -8) == 21102
    ensures Mark(Code("propose_plan"), -8) == 12111
    ensures Mark(Code("request_budget_extension"), -8) == 24120
    ensures Mark(Code("request_user_confirmation"), -8) == 25105
    ensures Mark(Code("report_blocked"), -8) == 14095
    ensures Mark(Code("stop_with_failure"), -8) == 17095
    ensures Mark(Code("stop_without_safe_action"), -8) == 24101
  {
  }

  lemma ToolMarks()
    ensures Mark(Code("inspect_repository"), -8) == 18112
    ensures Mark(Code("list_files"), -8) == 10115
    ensures Mark(Code("read_file"), -8) == 9101
    ensures Mark(Code("search_text"), -8) == 11114
    ensures Mark(Code("create_file"), -8) == 11097
    ensures Mark(Code("replace_file"), -8) == 12097
    ensures Mark(Code("apply_patch"), -8) == 11108
    ensures Mark(Code("delete_file"), -8) == 11101
    ensures Mark(Code("request_ignored_input"), -8) == 21101
    ensures Mark(Code("run_validation"), -8) == 14108
  {
  }

  lemma GitMarks()
    ensures Mark(Code("git_repo_probe"), -8) == 14112
    ensures Mark(Code("git_repo_root"), -8) == 13101
    ensures Mark(Code("git_status"), -8) == 10116
    ensures Mark(Code("git_diff_worktree"), -8) == 17119
    ensures Mark(Code("git_diff_index"), -8) == 14102
    ensures Mark(Code("git_list_tracked"), -8) == 16095
    ensures Mark(Code("git_list_untracked"), -8) == 18110
    ensures Mark(Code("git_stage_paths"), -8) == 15103
    ensures Mark(Code("git_unstage_paths"), -8) == 17103
  {
  }

  function Number(x: Name): nat {
    match x
    case RequestClarification => 21102
    case ProposePlan => 12111
    case RequestBudgetExtension => 24120
    case RequestUserConfirmation => 25105
    case ReportBlocked => 14095
    case StopWithFailure => 17095
    case StopWithoutSafeAction => 24101
    case InspectRepository => 18112
    case ListFiles => 10115
    case ReadFile => 9101
    case SearchText => 11114
    case CreateFile => 11097
    case ReplaceFile => 12097
    case ApplyPatch => 11108
    case DeleteFile => 11101
    case RequestIgnoredInput => 21101
    case RunValidation => 14108
    case GitRepoProbe => 14112
    case GitRepoRoot => 13101
    case GitStatus => 10116
    case GitDiffWorktree => 17119
    case GitDiffIndex => 14102
    case GitListTracked => 16095
    case GitListUntracked => 18110
    case GitStagePaths => 15103
    case GitUnstagePaths => 17103
  }

  lemma NumberTells(x: Name, y: Name)
    ensures Number(x) == Number(y) ==> x == y
  {
  }

  lemma NameNumber(x: Name)
    ensures Mark(NameText(x), -8) == Number(x)
  {
    hide Code, Mark;
    ControlMarks();
    ToolMarks();
    GitMarks();
  }

  lemma NamesTell(x: Name, y: Name)
    ensures NameText(x) == NameText(y) ==> x == y
  {
    hide Code, Mark, NameText, Number;
    NameNumber(x);
    NameNumber(y);
    NumberTells(x, y);
  }

  lemma ControlTextIs(x: Name)
    ensures NameText(x) == Code("request_clarification") <==> x == RequestClarification
    ensures NameText(x) == Code("propose_plan") <==> x == ProposePlan
    ensures NameText(x) == Code("request_budget_extension") <==> x == RequestBudgetExtension
    ensures NameText(x) == Code("request_user_confirmation") <==> x == RequestUserConfirmation
    ensures NameText(x) == Code("report_blocked") <==> x == ReportBlocked
    ensures NameText(x) == Code("stop_with_failure") <==> x == StopWithFailure
    ensures NameText(x) == Code("stop_without_safe_action") <==> x == StopWithoutSafeAction
  {
    hide Code, NameText;
    NamesAreTheirTexts();
    NamesTell(x, RequestClarification);
    NamesTell(x, ProposePlan);
    NamesTell(x, RequestBudgetExtension);
    NamesTell(x, RequestUserConfirmation);
    NamesTell(x, ReportBlocked);
    NamesTell(x, StopWithFailure);
    NamesTell(x, StopWithoutSafeAction);
  }

  lemma ToolTextIs(x: Name)
    ensures NameText(x) == Code("inspect_repository") <==> x == InspectRepository
    ensures NameText(x) == Code("list_files") <==> x == ListFiles
    ensures NameText(x) == Code("read_file") <==> x == ReadFile
    ensures NameText(x) == Code("search_text") <==> x == SearchText
    ensures NameText(x) == Code("create_file") <==> x == CreateFile
    ensures NameText(x) == Code("replace_file") <==> x == ReplaceFile
    ensures NameText(x) == Code("apply_patch") <==> x == ApplyPatch
    ensures NameText(x) == Code("delete_file") <==> x == DeleteFile
    ensures NameText(x) == Code("request_ignored_input") <==> x == RequestIgnoredInput
    ensures NameText(x) == Code("run_validation") <==> x == RunValidation
  {
    hide Code, NameText;
    NamesAreTheirTexts();
    NamesTell(x, InspectRepository);
    NamesTell(x, ListFiles);
    NamesTell(x, ReadFile);
    NamesTell(x, SearchText);
    NamesTell(x, CreateFile);
    NamesTell(x, ReplaceFile);
    NamesTell(x, ApplyPatch);
    NamesTell(x, DeleteFile);
    NamesTell(x, RequestIgnoredInput);
    NamesTell(x, RunValidation);
  }

  lemma GitTextIs(x: Name)
    ensures NameText(x) == Code("git_repo_probe") <==> x == GitRepoProbe
    ensures NameText(x) == Code("git_repo_root") <==> x == GitRepoRoot
    ensures NameText(x) == Code("git_status") <==> x == GitStatus
    ensures NameText(x) == Code("git_diff_worktree") <==> x == GitDiffWorktree
    ensures NameText(x) == Code("git_diff_index") <==> x == GitDiffIndex
    ensures NameText(x) == Code("git_list_tracked") <==> x == GitListTracked
    ensures NameText(x) == Code("git_list_untracked") <==> x == GitListUntracked
    ensures NameText(x) == Code("git_stage_paths") <==> x == GitStagePaths
    ensures NameText(x) == Code("git_unstage_paths") <==> x == GitUnstagePaths
  {
    hide Code, NameText;
    NamesAreTheirTexts();
    NamesTell(x, GitRepoProbe);
    NamesTell(x, GitRepoRoot);
    NamesTell(x, GitStatus);
    NamesTell(x, GitDiffWorktree);
    NamesTell(x, GitDiffIndex);
    NamesTell(x, GitListTracked);
    NamesTell(x, GitListUntracked);
    NamesTell(x, GitStagePaths);
    NamesTell(x, GitUnstagePaths);
  }

  lemma NamesAreTheirTexts()
    ensures NameText(RequestClarification) == Code("request_clarification")
    ensures NameText(ProposePlan) == Code("propose_plan")
    ensures NameText(RequestBudgetExtension) == Code("request_budget_extension")
    ensures NameText(RequestUserConfirmation) == Code("request_user_confirmation")
    ensures NameText(ReportBlocked) == Code("report_blocked")
    ensures NameText(StopWithFailure) == Code("stop_with_failure")
    ensures NameText(StopWithoutSafeAction) == Code("stop_without_safe_action")
    ensures NameText(InspectRepository) == Code("inspect_repository")
    ensures NameText(ListFiles) == Code("list_files")
    ensures NameText(ReadFile) == Code("read_file")
    ensures NameText(SearchText) == Code("search_text")
    ensures NameText(CreateFile) == Code("create_file")
    ensures NameText(ReplaceFile) == Code("replace_file")
    ensures NameText(ApplyPatch) == Code("apply_patch")
    ensures NameText(DeleteFile) == Code("delete_file")
    ensures NameText(RequestIgnoredInput) == Code("request_ignored_input")
    ensures NameText(RunValidation) == Code("run_validation")
    ensures NameText(GitRepoProbe) == Code("git_repo_probe")
    ensures NameText(GitRepoRoot) == Code("git_repo_root")
    ensures NameText(GitStatus) == Code("git_status")
    ensures NameText(GitDiffWorktree) == Code("git_diff_worktree")
    ensures NameText(GitDiffIndex) == Code("git_diff_index")
    ensures NameText(GitListTracked) == Code("git_list_tracked")
    ensures NameText(GitListUntracked) == Code("git_list_untracked")
    ensures NameText(GitStagePaths) == Code("git_stage_paths")
    ensures NameText(GitUnstagePaths) == Code("git_unstage_paths")
  {
    hide Code;
  }

  lemma FieldTextMarks()
    ensures Mark(Code("question"), 3) == 8115
    ensures Mark(Code("proposal"), 3) == 8112
    ensures Mark(Code("request"), 3) == 7117
    ensures Mark(Code("condition"), 3) == 9100
    ensures Mark(Code("report"), 3) == 6111
    ensures Mark(Code("path"), 3) == 4104
    ensures Mark(Code("paths"), 3) == 5104
    ensures Mark(Code("text"), 3) == 4116
    ensures Mark(Code("expected_digest"), 3) == 15101
    ensures Mark(Code("reason"), 3) == 6115
    ensures Mark(Code("mode"), 3) == 4101
    ensures Mark(Code("phase"), 3) == 5115
    ensures Mark(Code("manifest_version"), 3) == 16105
    ensures Mark(Code("profile"), 3) == 7102
    ensures Mark(Code("operation"), 3) == 9114
    ensures Mark(Code("content"), 3) == 7116
    ensures Mark(Code("limit"), 3) == 5105
    ensures Mark(Code("start_byte"), 3) == 10114
    ensures Mark(Code("max_bytes"), 3) == 9095
    ensures Mark(Code("patch"), 3) == 5099
  {
  }

  lemma FieldTextAre(x: Field)
    ensures FieldText(x) == Code("question") <==> x == Question
    ensures FieldText(x) == Code("proposal") <==> x == Proposal
    ensures FieldText(x) == Code("request") <==> x == Request
    ensures FieldText(x) == Code("condition") <==> x == Condition
    ensures FieldText(x) == Code("report") <==> x == Report
    ensures FieldText(x) == Code("path") <==> x == PathField
    ensures FieldText(x) == Code("paths") <==> x == PathsField
    ensures FieldText(x) == Code("text") <==> x == SearchedText
    ensures FieldText(x) == Code("expected_digest") <==> x == ExpectedDigest
    ensures FieldText(x) == Code("reason") <==> x == Reason
    ensures FieldText(x) == Code("mode") <==> x == Mode
    ensures FieldText(x) == Code("phase") <==> x == PhaseField
    ensures FieldText(x) == Code("manifest_version") <==> x == ManifestVersion
    ensures FieldText(x) == Code("profile") <==> x == Profile
    ensures FieldText(x) == Code("operation") <==> x == Operation
    ensures FieldText(x) == Code("content") <==> x == Content
    ensures FieldText(x) == Code("limit") <==> x == Limit
    ensures FieldText(x) == Code("start_byte") <==> x == StartByte
    ensures FieldText(x) == Code("max_bytes") <==> x == MaxBytes
    ensures FieldText(x) == Code("patch") <==> x == Patch
  {
    hide Code, Mark;
    FieldTextMarks();
    assert Mark(FieldText(x), 3) == match x
      case Question => 8115
      case Proposal => 8112
      case Request => 7117
      case Condition => 9100
      case Report => 6111
      case PathField => 4104
      case PathsField => 5104
      case SearchedText => 4116
      case ExpectedDigest => 15101
      case Reason => 6115
      case Mode => 4101
      case PhaseField => 5115
      case ManifestVersion => 16105
      case Profile => 7102
      case Operation => 9114
      case Content => 7116
      case Limit => 5105
      case StartByte => 10114
      case MaxBytes => 9095
      case Patch => 5099;
  }

  // ---- parameters ----

  lemma WordsAre(v: Value, words: set<string>, texts: set<Text>, forbidden: Text -> bool)
    requires forall word :: word in words ==> Code(word) in texts
    requires forall t :: t in texts ==> exists word :: word in words && t == Code(word)
    ensures OneOf(v, texts) <==> Meets(v, WordOf(words), forbidden)
  {
  }

  lemma WordsMean(v: Value, forbidden: Text -> bool)
    ensures OneOf(v, {Code("read_only_input"), Code("writable_ephemeral")})
            <==> Meets(v, WordOf({"read_only_input", "writable_ephemeral"}), forbidden)
    ensures OneOf(v, {Code("INVESTIGATING"), Code("EXECUTING"), Code("VERIFYING")})
            <==> Meets(v, WordOf({"INVESTIGATING", "EXECUTING", "VERIFYING"}), forbidden)
    ensures OneOf(v, {Code("python312"), Code("nodejs20_npm")})
            <==> Meets(v, WordOf({"python312", "nodejs20_npm"}), forbidden)
  {
    hide Code, OneOf, Meets;
    WordsAre(v, {"read_only_input", "writable_ephemeral"}, {Code("read_only_input"), Code("writable_ephemeral")},
             forbidden);
    WordsAre(v, {"INVESTIGATING", "EXECUTING", "VERIFYING"},
             {Code("INVESTIGATING"), Code("EXECUTING"), Code("VERIFYING")}, forbidden);
    WordsAre(v, {"python312", "nodejs20_npm"}, {Code("python312"), Code("nodejs20_npm")}, forbidden);
  }

  /** What the parser looks at for a parameter of this name. */
  predicate Checked(t: Text, f: Field, v: Value, forbidden: Text -> bool) {
    match f
    case Question | Proposal | Request | Condition | Report => true
    case Content => StringOk(v, 0, MAX_INPUT_BYTES)
    case Limit | MaxBytes => IntegerOk(v, 1)
    case StartByte => IntegerOk(v, 0)
    case PathsField => PathsOk(v, PathsRequired(t))
    case Patch => BoundedObject(v, forbidden)
    case Mode =>
      && PlainString(v)
      && (t == Code("request_ignored_input") ==> OneOf(v, {Code("read_only_input"), Code("writable_ephemeral")}))
    case PhaseField =>
      && PlainString(v)
      && (t == Code("request_ignored_input") ==>
           OneOf(v, {Code("INVESTIGATING"), Code("EXECUTING"), Code("VERIFYING")}))
    case Profile =>
      PlainString(v) && (t == Code("run_validation") ==> OneOf(v, {Code("python312"), Code("nodejs20_npm")}))
    case _ => PlainString(v)
  }

  lemma StringFieldsAre(key: Text)
    ensures key in StringFields() <==>
              || key == Code("path") || key == Code("text") || key == Code("expected_digest") || key == Code("reason")
              || key == Code("mode") || key == Code("phase") || key == Code("manifest_version")
              || key == Code("profile") || key == Code("operation")
  {
    hide Code;
  }

  /** Which of the parser's questions about a name are answered yes for a parameter. */
  lemma FieldKey(f: Field)
    ensures var key := FieldText(f);
            && (key in StringFields() <==>
                 || f.PathField? || f.SearchedText? || f.ExpectedDigest? || f.Reason? || f.Mode? || f.PhaseField?
                 || f.ManifestVersion? || f.Profile? || f.Operation?)
            && (key == Code("content") <==> f.Content?)
            && (key == Code("limit") || key == Code("max_bytes") <==> f.Limit? || f.MaxBytes?)
            && (key == Code("start_byte") <==> f.StartByte?)
            && (key == Code("paths") <==> f.PathsField?)
            && (key == Code("patch") <==> f.Patch?)
            && (key == Code("mode") <==> f.Mode?)
            && (key == Code("phase") <==> f.PhaseField?)
            && (key == Code("profile") <==> f.Profile?)
  {
    hide Code, FieldText, StringFields;
    FieldTextAre(f);
    StringFieldsAre(FieldText(f));
  }

  lemma FieldIsChecked(t: Text, f: Field, v: Value, forbidden: Text -> bool)
    ensures FieldOk(t, FieldText(f), v, forbidden) <==> Checked(t, f, v, forbidden)
  {
    hide Code, FieldText, BoundedObject, OneOf, StringOk, IntegerOk, PathsOk, PathsRequired, StringFields;
    FieldKey(f);
  }

  /** The demand on a parameter, whichever tool has it. */
  function Usual(name: Name, f: Field): Demand {
    match f
    case Content => TextOf(0, 65536)
    case Limit | MaxBytes => NumberFrom(1)
    case StartByte => NumberFrom(0)
    case PathsField =>
      PathsFrom(if name.SearchText? || name.RequestIgnoredInput? || name.GitStagePaths? || name.GitUnstagePaths? then 1 else 0)
    case Patch => NestedObject
    case Mode => WordOf({"read_only_input", "writable_ephemeral"})
    case PhaseField => WordOf({"INVESTIGATING", "EXECUTING", "VERIFYING"})
    case Profile => WordOf({"python312", "nodejs20_npm"})
    case _ => PLAIN
  }

  predicate OnFiles(name: Name) {
    || name.ListFiles? || name.ReadFile? || name.SearchText? || name.CreateFile? || name.ReplaceFile? || name.ApplyPatch?
    || name.DeleteFile?
  }

  lemma UsualOnFiles(name: Name, f: Field)
    requires OnFiles(name) && f in Demands(RuleOf(name))
    ensures Demands(RuleOf(name))[f] == Usual(name, f)
  {
    hide Demands, RuleOf, Usual;
    if name.ListFiles? || name.ReadFile? || name.SearchText? || name.CreateFile? {
      UsualReading(name, f);
    } else {
      UsualChanging(name, f);
    }
  }

  lemma UsualReading(name: Name, f: Field)
    requires (name.ListFiles? || name.ReadFile? || name.SearchText? || name.CreateFile?) && f in Demands(RuleOf(name))
    ensures Demands(RuleOf(name))[f] == Usual(name, f)
  {
  }

  lemma UsualChanging(name: Name, f: Field)
    requires (name.ReplaceFile? || name.ApplyPatch? || name.DeleteFile?) && f in Demands(RuleOf(name))
    ensures Demands(RuleOf(name))[f] == Usual(name, f)
  {
  }

  lemma UsualElsewhere(name: Name, f: Field)
    requires RuleOf(name).category.ToolAction? && !OnFiles(name) && f in Demands(RuleOf(name))
    ensures Demands(RuleOf(name))[f] == Usual(name, f)
  {
  }

  lemma UsualDemand(name: Name, f: Field)
    requires RuleOf(name).category.ToolAction? && f in Demands(RuleOf(name))
    ensures Demands(RuleOf(name))[f] == Usual(name, f)
  {
    hide RuleOf, Usual, Demands;
    if OnFiles(name) {
      UsualOnFiles(name, f);
    } else {
      UsualElsewhere(name, f);
    }
  }

  lemma OwnersOf(name: Name, f: Field)
    requires RuleOf(name).category.ToolAction? && f in Demands(RuleOf(name))
    ensures f.Mode? || f.PhaseField? ==> name.RequestIgnoredInput?
    ensures f.Profile? ==> name.RunValidation?
    ensures !f.Question? && !f.Proposal? && !f.Request? && !f.Condition? && !f.Report?
  {
  }

  predicate Worded(f: Field) {
    f.Mode? || f.PhaseField? || f.Profile?
  }

  lemma WordedMeans(name: Name, f: Field, v: Value, forbidden: Text -> bool)
    requires RuleOf(name).category.ToolAction? && f in Demands(RuleOf(name)) && Worded(f)
    ensures Checked(NameText(name), f, v, forbidden) <==> Meets(v, Usual(name, f), forbidden)
  {
    hide Code, NameText, OneOf, StringOk, TextWithin, RuleOf, Demands;
    OwnersOf(name, f);
    ToolTextIs(name);
    TextMeans(v, 1, 4096);
    WordsMean(v, forbidden);
  }

  lemma UnwordedMeans(name: Name, f: Field, v: Value, outer: nat, forbidden: Text -> bool)
    requires RuleOf(name).category.ToolAction? && f in Demands(RuleOf(name)) && !Worded(f) && Acceptable(v, outer)
    ensures Checked(NameText(name), f, v, forbidden) <==> Meets(v, Usual(name, f), forbidden)
  {
    hide Code, NameText, BoundedObject, OneOf, StringOk, TextWithin, Acceptable, NamesNoCommand, Depth, PathsOk, RuleOf,
      Demands;
    OwnersOf(name, f);
    ToolTextIs(name);
    GitTextIs(name);
    TextMeans(v, 1, 4096);
    TextMeans(v, 0, 65536);
    PathsMean(v, true, forbidden);
    PathsMean(v, false, forbidden);
    NestedMeans(v, outer, forbidden);
  }

  /** What a tool demands of one of its parameters is what its rule says. */
  lemma FieldMeans(name: Name, f: Field, v: Value, outer: nat, forbidden: Text -> bool)
    requires RuleOf(name).category.ToolAction? && f in Demands(RuleOf(name)) && Acceptable(v, outer)
    ensures FieldOk(NameText(name), FieldText(f), v, forbidden) <==> Meets(v, Demands(RuleOf(name))[f], forbidden)
  {
    hide FieldOk, NameText, FieldText, RuleOf, Demands, Usual, Checked, Meets, Acceptable, Worded;
    FieldIsChecked(NameText(name), f, v, forbidden);
    UsualDemand(name, f);
    if Worded(f) {
      WordedMeans(name, f, v, forbidden);
    } else {
      UnwordedMeans(name, f, v, outer, forbidden);
    }
  }

  lemma PathsMean(v: Value, required: bool, forbidden: Text -> bool)
    ensures PathsOk(v, required) <==> Meets(v, PathsFrom(if required then 1 else 0), forbidden)
  {
    hide StringOk, TextWithin;
    if v.Arr? {
      forall i | 0 <= i < |v.items| ensures StringOk(v.items[i], 1, 4096) <==> TextWithin(v.items[i], 1, 4096) {
        TextMeans(v.items[i], 1, 4096);
      }
    }
  }

  function Texts(fields: set<Field>): set<Text> {
    set f | f in fields :: FieldText(f)
  }

  /** The schema of a tool by its name. */
  function SchemaNamed(name: Name): Option<Schema> {
    var path, paths, digest := FieldText(PathField), FieldText(PathsField), FieldText(ExpectedDigest);
    match name
    case InspectRepository | GitRepoProbe | GitRepoRoot | GitStatus => Some(Schema({}, {}))
    case ListFiles => Some(Schema({path, FieldText(Limit)}, {}))
    case ReadFile => Some(Schema({path, FieldText(StartByte), FieldText(MaxBytes)}, {}))
    case SearchText => Some(Schema({FieldText(SearchedText), paths, FieldText(Limit)}, {}))
    case CreateFile => Some(Schema({path, FieldText(Content)}, {}))
    case ReplaceFile => Some(Schema({path, digest, FieldText(Content)}, {}))
    case ApplyPatch => Some(Schema({path, FieldText(Patch), digest}, {}))
    case DeleteFile => Some(Schema({path, digest, FieldText(Reason)}, {}))
    case RequestIgnoredInput =>
      Some(Schema({paths, FieldText(Mode), FieldText(PhaseField), FieldText(ManifestVersion)}, {}))
    case RunValidation => Some(Schema({FieldText(Profile), FieldText(Operation)}, {}))
    case GitDiffWorktree | GitDiffIndex | GitListTracked | GitListUntracked => Some(Schema({}, {paths}))
    case GitStagePaths | GitUnstagePaths => Some(Schema({paths}, {}))
    case _ => None
  }

  lemma SchemaIsNamed(name: Name)
    ensures SchemaOf(NameText(name)) == SchemaNamed(name)
  {
    hide SchemaOf, SchemaNamed, NameText;
    if OnFiles(name) {
      SchemaOnFiles(name);
    } else {
      SchemaElsewhere(name);
    }
  }

  lemma SchemaOnFiles(name: Name)
    requires OnFiles(name)
    ensures SchemaOf(NameText(name)) == SchemaNamed(name)
  {
    hide Code, NameText, FieldText;
    ToolTextIs(name);
    GitTextIs(name);
    FieldsAreTheirTexts();
  }

  lemma SchemaElsewhere(name: Name)
    requires !OnFiles(name)
    ensures SchemaOf(NameText(name)) == SchemaNamed(name)
  {
    hide Code, NameText, FieldText;
    ToolTextIs(name);
    GitTextIs(name);
    FieldsAreTheirTexts();
  }

  lemma SchemaIsRuled(name: Name)
    ensures SchemaNamed(name).Some? <==> RuleOf(name).category.ToolAction?
    ensures SchemaNamed(name).Some? ==>
              && SchemaNamed(name).value.required == Texts(RuleOf(name).required.Keys)
              && SchemaNamed(name).value.optional == Texts(RuleOf(name).optional.Keys)
  {
    hide FieldText;
  }

  /** The schema of a tool is that of its rule. */
  lemma SchemaMeans(name: Name)
    ensures SchemaOf(NameText(name)).Some? <==> RuleOf(name).category.ToolAction?
    ensures SchemaOf(NameText(name)).Some? ==>
              && SchemaOf(NameText(name)).value.required == Texts(RuleOf(name).required.Keys)
              && SchemaOf(NameText(name)).value.optional == Texts(RuleOf(name).optional.Keys)
  {
    hide SchemaOf, RuleOf, SchemaNamed, Texts;
    SchemaIsNamed(name);
    SchemaIsRuled(name);
  }

  lemma FieldsAreTheirTexts()
    ensures FieldText(Question) == Code("question")
    ensures FieldText(Proposal) == Code("proposal")
    ensures FieldText(Request) == Code("request")
    ensures FieldText(Condition) == Code("condition")
    ensures FieldText(Report) == Code("report")
    ensures FieldText(PathField) == Code("path")
    ensures FieldText(PathsField) == Code("paths")
    ensures FieldText(SearchedText) == Code("text")
    ensures FieldText(ExpectedDigest) == Code("expected_digest")
    ensures FieldText(Reason) == Code("reason")
    ensures FieldText(Mode) == Code("mode")
    ensures FieldText(PhaseField) == Code("phase")
    ensures FieldText(ManifestVersion) == Code("manifest_version")
    ensures FieldText(Profile) == Code("profile")
    ensures FieldText(Operation) == Code("operation")
    ensures FieldText(Content) == Code("content")
    ensures FieldText(Limit) == Code("limit")
    ensures FieldText(StartByte) == Code("start_byte")
    ensures FieldText(MaxBytes) == Code("max_bytes")
    ensures FieldText(Patch) == Code("patch")
  {
    hide Code;
  }

  /** The single parameter of a control action is that of its rule. */
  lemma ControlMeans(name: Name)
    ensures ControlField(NameText(name)).Some? <==> RuleOf(name).category.ControlAction?
    ensures ControlField(NameText(name)).Some? ==>
              && Texts(RuleOf(name).required.Keys) == {ControlField(NameText(name)).value}
              && RuleOf(name).optional == map[]
  {
    hide Code, NameText, FieldText;
    ControlTextIs(name);
    FieldsAreTheirTexts();
  }

  /** Only the actions of the table have a schema or a control parameter. */
  lemma NoOtherNames(t: Text)
    ensures SchemaOf(t).Some? || ControlField(t).Some? ==> exists name :: t == NameText(name)
  {
    hide Code;
    NamesAreTheirTexts();
  }

  // ---- whole parameter objects ----

  lemma MemberMeans(name: Name, m: Pair<Value>, outer: nat, forbidden: Text -> bool)
    requires RuleOf(name).category.ToolAction? && Acceptable(m.value, outer)
    ensures Allowed(m, RuleOf(name), forbidden) <==>
              m.key in Texts(Demands(RuleOf(name)).Keys) && FieldOk(NameText(name), m.key, m.value, forbidden)
  {
    hide FieldOk, RuleOf, NameText, FieldText, Meets, Acceptable;
    forall f | f in Demands(RuleOf(name))
      ensures FieldOk(NameText(name), FieldText(f), m.value, forbidden) <==> Meets(m.value, Demands(RuleOf(name))[f], forbidden)
    {
      FieldMeans(name, f, m.value, outer, forbidden);
    }
  }

  lemma FieldsMean(t: Text, members: seq<Pair<Value>>, forbidden: Text -> bool)
    requires DistinctKeys(members)
    ensures FieldsOk(t, members, forbidden) <==>
              forall i :: 0 <= i < |members| ==> FieldOk(t, members[i].key, members[i].value, forbidden)
  {
    hide FieldOk, Find;
    forall key ensures Find(members, key).Some? <==> key in Keys(members) {
      FindAt(members, key);
    }
    forall i | 0 <= i < |members| ensures Find(members, members[i].key) == Some(members[i].value) {
      FindAt(members, members[i].key);
    }
    if FieldsOk(t, members, forbidden) {
      forall i | 0 <= i < |members| ensures FieldOk(t, members[i].key, members[i].value, forbidden) {
        assert members[i].key in Keys(members);
      }
    }
  }

  lemma DemandsCover(rule: Rule)
    ensures Texts(Demands(rule).Keys) == Texts(rule.required.Keys) + Texts(rule.optional.Keys)
  {
    hide FieldText;
    assert Demands(rule).Keys == rule.required.Keys + rule.optional.Keys;
  }

  lemma WordIsPlain(word: string)
    requires 1 <= |word| <= 100 && forall i :: 0 <= i < |word| ==> 'a' <= word[i] <= 'z'
    ensures PlainString(Str(Code(word)))
  {
    EncodeAscii(Code(word));
  }

  lemma OneWord(v: Value, texts: set<Text>)
    requires forall t :: t in texts ==> PlainString(Str(t))
    ensures OneOf(v, texts) <==> exists t :: t in texts && v == Str(t)
  {
    if OneOf(v, texts) {
      assert v == Str(v.text);
    }
  }

  lemma OperationsMean(v: Value)
    ensures OneOf(v, {Code("pytest"), Code("ruff")}) <==> v == Str(Code("pytest")) || v == Str(Code("ruff"))
    ensures OneOf(v, {Code("test"), Code("lint"), Code("build"), Code("typecheck")})
            <==> || v == Str(Code("test")) || v == Str(Code("lint")) || v == Str(Code("build"))
                 || v == Str(Code("typecheck"))
    ensures !OneOf(v, {})
  {
    hide Code, PlainString;
    WordIsPlain("pytest");
    WordIsPlain("ruff");
    WordIsPlain("test");
    WordIsPlain("lint");
    WordIsPlain("build");
    WordIsPlain("typecheck");
    OneWord(v, {Code("pytest"), Code("ruff")});
    OneWord(v, {Code("test"), Code("lint"), Code("build"), Code("typecheck")});
    OneWord(v, {});
  }

  lemma SuitsMeans(name: Name, p: Value)
    requires p.Obj?
    ensures OperationOk(NameText(name), p.members) <==> Suits(name, p)
  {
    hide Code, NameText, OneOf, Find;
    ToolTextIs(name);
    var profile, operation := Find(p.members, Code("profile")), Find(p.members, Code("operation"));
    if operation.Some? {
      OperationsMean(operation.value);
    }
    assert Str(Code("python312")) != Str(Code("nodejs20_npm")) by {
      assert |Code("python312")| != |Code("nodejs20_npm")|;
    }
  }

  /** The parameters of a tool are accepted exactly if they follow its rule. */
  lemma ToolMeans(name: Name, p: Value, forbidden: Text -> bool)
    requires RuleOf(name).category.ToolAction? && Acceptable(p, 2)
    ensures SchemaOf(NameText(name)).Some?
    ensures ToolOk(NameText(name), p, forbidden) <==> Follows(p, RuleOf(name), forbidden) && Suits(name, p)
  {
    hide FieldOk, FieldsOk, RuleOf, NameText, FieldText, SchemaOf, OperationOk, Suits, Allowed, NamesNoCommand, NoCommands, Find,
      Demands;
    SchemaMeans(name);
    if p.Obj? {
      DemandsCover(RuleOf(name));
      NoCommandsMeans(p, forbidden);
      SuitsMeans(name, p);
      FieldsMean(NameText(name), p.members, forbidden);
      forall i | 0 <= i < |p.members|
        ensures Allowed(p.members[i], RuleOf(name), forbidden) <==>
                  && p.members[i].key in Texts(RuleOf(name).required.Keys) + Texts(RuleOf(name).optional.Keys)
                  && FieldOk(NameText(name), p.members[i].key, p.members[i].value, forbidden)
      {
        MemberMeans(name, p.members[i], 3, forbidden);
      }
    }
  }

  lemma ControlRule(name: Name) returns (f: Field, d: Demand)
    requires RuleOf(name).category.ControlAction?
    ensures RuleOf(name) == Control(f, d) && Demands(RuleOf(name)) == map[f := d]
    ensures ControlField(NameText(name)) == Some(FieldText(f))
    ensures d == if NameText(name) == Code("request_clarification") then PLAIN else NestedObject
    ensures !name.RunValidation?
  {
    hide Code, NameText, FieldText;
    ControlTextIs(name);
    FieldsAreTheirTexts();
    match name {
      case RequestClarification => f, d := Question, PLAIN;
      case ProposePlan => f, d := Proposal, NestedObject;
      case RequestBudgetExtension => f, d := Request, NestedObject;
      case RequestUserConfirmation => f, d := Condition, NestedObject;
      case _ => f, d := Report, NestedObject;
    }
  }

  lemma SingleKey(members: seq<Pair<Value>>, key: Text)
    requires key in Keys(members)
    ensures Keys(members) == {key} <==> forall j :: 0 <= j < |members| ==> members[j].key == key
  {
    if forall j :: 0 <= j < |members| ==> members[j].key == key {
      assert forall k :: k in Keys(members) ==> k == key;
    }
    if Keys(members) == {key} {
      assert forall j :: 0 <= j < |members| ==> members[j].key in Keys(members);
    }
  }

  /** The parameters of a control action are accepted exactly if they follow its rule. */
  lemma ControlsMean(name: Name, p: Value, forbidden: Text -> bool)
    requires RuleOf(name).category.ControlAction? && Acceptable(p, 2)
    ensures ControlField(NameText(name)).Some?
    ensures ControlOk(NameText(name), p, forbidden) <==>
              Follows(p, RuleOf(name), forbidden) && (p.Obj? ==> Suits(name, p))
  {
    hide RuleOf, NameText, FieldText, Code, Bounded, Find, TextWithin, StringOk, Depth, NamesNoCommand, ControlField;
    var f, d := ControlRule(name);
    if p.Obj? {
      FindAt(p.members, FieldText(f));
      forall i | 0 <= i < |p.members|
        ensures Allowed(p.members[i], RuleOf(name), forbidden) <==>
                  p.members[i].key == FieldText(f) && Meets(p.members[i].value, d, forbidden)
      {
        assert f in Demands(RuleOf(name));
      }
      if FieldText(f) in Keys(p.members) {
        var i :| 0 <= i < |p.members| && p.members[i].key == FieldText(f);
        TextMeans(p.members[i].value, 1, 4096);
        NestedMeans(p.members[i].value, 3, forbidden);
        SingleKey(p.members, FieldText(f));
        assert forall j :: 0 <= j < |p.members| && p.members[j].key == FieldText(f) ==> j == i;
      }
    }
  }

  // ---- whole actions ----

  /** The action that a request asks for. */
  function ActionOf(id: Text, name: Name, p: Value, b: Value): Action {
    var category := RuleOf(name).category;
    Action(category, id, NameText(name), Freeze(p), Freeze(b), Code(ResultOf(category)))
  }

  /** The parser's checks of the parameters decide whether they follow the rule. */
  lemma ParametersMean(name: Name, p: Value, forbidden: Text -> bool)
    requires Acceptable(p, 2)
    ensures ControlField(NameText(name)).Some? <==> RuleOf(name).category.ControlAction?
    ensures (if ControlField(NameText(name)).Some? then ControlOk(NameText(name), p, forbidden)
             else SchemaOf(NameText(name)).Some? && ToolOk(NameText(name), p, forbidden))
            <==> Fitting(name, p, forbidden)
  {
    hide Follows, Suits, NameText, RuleOf, Code, ToolOk, ControlOk, Acceptable, ControlField, SchemaOf;
    ControlMeans(name);
    if Follows(p, RuleOf(name), forbidden) {
      FollowsObject(p, RuleOf(name), forbidden);
    }
    if RuleOf(name).category.ControlAction? {
      ControlsMean(name, p, forbidden);
    } else {
      ToolMeans(name, p, forbidden);
    }
  }

  /** Given its five fields, an action is built exactly if they are as the protocol wants them. */
  lemma BuildMeans(id: Text, name: Name, p: Value, b: Value, e: Value, forbidden: Text -> bool)
    requires Acceptable(p, 2)
    ensures Build(Str(id), Str(NameText(name)), p, b, e, forbidden)
            == if && IdentifierOk(id) && e == Str(Code(ResultOf(RuleOf(name).category)))
                  && Fitting(name, p, forbidden) && BudgetFits(b)
               then Some(ActionOf(id, name, p, b)) else None
  {
    hide IdOk, IdentifierOk, BudgetOk, BudgetFits, Fitting, NameText, RuleOf, Code, ToolOk, ControlOk, Acceptable, Freeze,
      ControlField, SchemaOf;
    IdentifierMeans(id);
    BudgetMeans(b);
    ParametersMean(name, p, forbidden);
  }

  lemma FiveFields(raw: Value, id: Value, t: Value, p: Value, b: Value, e: Value)
    requires raw.Obj? && Acceptable(raw, 1)
    ensures multiset(raw.members) == multiset(Dict(id, t, p, b, e).members) <==>
              && Keys(raw.members) == TopLevel()
              && Find(raw.members, Code("action_id")) == Some(id) && Find(raw.members, Code("action_type")) == Some(t)
              && Find(raw.members, Code("parameters")) == Some(p) && Find(raw.members, Code("budget_impact")) == Some(b)
              && Find(raw.members, Code("expected_result_type")) == Some(e)
  {
    hide Find, Code, Dict, TopLevel;
    var dict := Dict(id, t, p, b, e);
    DictFields(id, t, p, b, e);
    DictIsObject(id, t, p, b, e);
    if multiset(raw.members) == multiset(dict.members) {
      forall k ensures Find(raw.members, k) == Find(dict.members, k) && (k in Keys(raw.members) <==> k in Keys(dict.members)) {
        PermutedFind(raw.members, dict.members, k);
      }
      assert Keys(raw.members) == Keys(dict.members);
    }
    if && Keys(raw.members) == TopLevel()
       && Find(raw.members, Code("action_id")) == Some(id) && Find(raw.members, Code("action_type")) == Some(t)
       && Find(raw.members, Code("parameters")) == Some(p) && Find(raw.members, Code("budget_impact")) == Some(b)
       && Find(raw.members, Code("expected_result_type")) == Some(e) {
      RawIsDict(raw, id, t, p, b, e);
    }
  }

  lemma ParametersAcceptable(raw: Value, id: Value, t: Value, p: Value, b: Value, e: Value)
    requires raw.Obj? && Acceptable(raw, 1) && multiset(raw.members) == multiset(Dict(id, t, p, b, e).members)
    ensures Acceptable(p, 2)
  {
    hide Code;
    var member := Dict(id, t, p, b, e).members[2];
    assert member in multiset(Dict(id, t, p, b, e).members);
    assert member in multiset(raw.members);
    var i :| 0 <= i < |raw.members| && raw.members[i] == member;
  }

  /** Whatever the protocol allows is accepted, as the action asked for. */
  lemma AllowedIsAccepted(raw: Value, id: Text, name: Name, p: Value, b: Value, forbidden: Text -> bool)
    requires Asks(raw, id, name, p, b, forbidden)
    ensures Parse(raw, forbidden) == Some(ActionOf(id, name, p, b))
  {
    hide Acceptable, Code, NameText, RuleOf, Build, Find, IdentifierOk, Fitting, BudgetFits, Cost, ResultOf, ActionOf,
      TopLevel, Keys;
    var t, e := Str(NameText(name)), Str(Code(ResultOf(RuleOf(name).category)));
    assert multiset(raw.members) == multiset(Dict(Str(id), t, p, b, e).members);
    FiveFields(raw, Str(id), t, p, b, e);
    ParametersAcceptable(raw, Str(id), t, p, b, e);
    BuildMeans(id, name, p, b, e, forbidden);
  }

  lemma FollowsObject(p: Value, rule: Rule, forbidden: Text -> bool)
    requires Follows(p, rule, forbidden)
    ensures p.Obj?
  {
  }

  /** And nothing else is accepted: any parsed action was asked for as the protocol wants it. */
  lemma AcceptedIsAllowed(raw: Value, forbidden: Text -> bool) returns (id: Text, name: Name, p: Value, b: Value)
    requires Parse(raw, forbidden).Some?
    ensures Asks(raw, id, name, p, b, forbidden)
    ensures Parse(raw, forbidden) == Some(ActionOf(id, name, p, b))
  {
    hide Acceptable, Code, NameText, RuleOf, Find, IdentifierOk, Fitting, BudgetFits, Cost, ResultOf, ActionOf,
      TopLevel, Keys, Parse, Build;
    var rawId, t, parameters, budget, e := ParseOf(raw, forbidden);
    p, b := parameters, budget;
    NormalMeans(raw);
    FiveFields(raw, rawId, t, p, b, e);
    ParametersAcceptable(raw, rawId, t, p, b, e);
    BuiltTypes(rawId, t, p, b, e, forbidden);
    NoOtherNames(t.text);
    id := rawId.text;
    name :| t.text == NameText(name);
    BuildMeans(id, name, p, b, e, forbidden);
  }

  lemma NormalMeans(raw: Value)
    ensures Normal(raw) <==> raw.Obj? && Acceptable(raw, 1) && Cost(raw) <= 65536
  {
    hide Cost, Acceptable;
  }

  lemma BuiltTypes(id: Value, t: Value, p: Value, b: Value, e: Value, forbidden: Text -> bool)
    requires Build(id, t, p, b, e, forbidden).Some?
    ensures id.Str? && t.Str? && (SchemaOf(t.text).Some? || ControlField(t.text).Some?)
  {
    hide SchemaOf, ControlField, ToolOk, ControlOk, Code;
  }

  /** What an accepted action says about itself: the keys of its parameters lie between what its type
      requires and what it allows, and its class and result are those of its type. */
  lemma AcceptedKeys(raw: Value, forbidden: Text -> bool) returns (name: Name)
    requires Parse(raw, forbidden).Some?
    ensures var a, rule := Parse(raw, forbidden).value, RuleOf(name);
            && a.actionType == NameText(name) && a.category == rule.category
            && a.expected == Code(ResultOf(rule.category))
            && Thaw(a.parameters).Obj?
            && Texts(rule.required.Keys) <= Keys(Thaw(a.parameters).members) <= Texts(Demands(rule).Keys)
  {
    hide Parse, Acceptable, NameText, FieldText, RuleOf, Suits, BudgetFits, Freeze, Thaw, Meets, Code, Cost, IdentifierOk, Canon;
    var id, p, b;
    id, name, p, b := AcceptedIsAllowed(raw, forbidden);
    ThawFreeze(p);
    CanonShape(p);
    KeysCanon(p);
  }

  /** No accepted change of an existing file goes without the digest it expects there. */
  lemma ChangesNameTheirDigest(raw: Value, forbidden: Text -> bool)
    requires Parse(raw, forbidden).Some?
    requires Parse(raw, forbidden).value.actionType in {Code("replace_file"), Code("apply_patch"), Code("delete_file")}
    ensures Thaw(Parse(raw, forbidden).value.parameters).Obj?
    ensures Code("expected_digest") in Keys(Thaw(Parse(raw, forbidden).value.parameters).members)
  {
    hide Parse, NameText, FieldText, Thaw, Code;
    var name := AcceptedKeys(raw, forbidden);
    ToolTextIs(name);
    FieldsAreTheirTexts();
    assert ExpectedDigest in RuleOf(name).required;
  }
}
