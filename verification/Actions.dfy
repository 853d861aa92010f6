/** Parsing a structured action from an untrusted value, and giving it back. */
module Actions {
  import opened Wrappers
  import opened Utf8
  import opened Json
  import opened Normalization
  import opened FrozenJson

  datatype Class = ControlAction | ToolAction

  datatype Action = Action(
    category: Class,
    id: Text,
    actionType: Text,
    parameters: Frozen,
    budget: Frozen,
    expected: Text)

  const MAX_CONTAINER_DEPTH := 16
  const MAX_INTEGER := 0x7FFF_FFFF_FFFF_FFFF

  // ---- fields of an object ----

  function Find<T>(s: seq<Pair<T>>, key: Text): Option<T> {
    if s == [] then None else if s[0].key == key then Some(s[0].value) else Find(s[1..], key)
  }

  function Keys<T>(s: seq<Pair<T>>): set<Text> {
    set i | 0 <= i < |s| :: s[i].key
  }

  lemma {:induction false} FindAt<T>(s: seq<Pair<T>>, key: Text)
    requires DistinctKeys(s)
    ensures Find(s, key).Some? <==> key in Keys(s)
    ensures forall i :: 0 <= i < |s| && s[i].key == key ==> Find(s, key) == Some(s[i].value)
  {
    if s != [] {
      FindAt(s[1..], key);
      if key in Keys(s) {
        var i :| 0 <= i < |s| && s[i].key == key;
        assert i > 0 ==> s[1..][i - 1].key == key;
      }
      if key in Keys(s[1..]) {
        var i :| 0 <= i < |s[1..]| && s[1..][i].key == key;
        assert s[i + 1].key == key;
      }
      forall i | 0 <= i < |s| && s[i].key == key ensures Find(s, key) == Some(s[i].value) {
        if i > 0 {
          assert s[1..][i - 1] == s[i];
        }
      }
    }
  }

  // ---- leaves ----

  predicate StringOk(v: Value, minimum: nat, maximum: nat) {
    v.Str? && TextOk(v.text) && minimum <= |EncodeText(v.text)| <= maximum
  }

  predicate PlainString(v: Value) {
    StringOk(v, 1, 4096)
  }

  predicate IntegerOk(v: Value, minimum: int) {
    v.Int? && minimum <= v.number <= MAX_INTEGER
  }

  predicate OneOf(v: Value, allowed: set<Text>) {
    PlainString(v) && v.text in allowed
  }

  predicate PathsOk(v: Value, required: bool) {
    && v.Arr? && (required ==> v.items != []) && |v.items| <= MAX_ARRAY_ITEMS
    && forall i :: 0 <= i < |v.items| ==> PlainString(v.items[i])
  }

  // ---- containers; `forbidden` tells the keys that name a command ----

  predicate NoCommands(v: Value, forbidden: Text -> bool) {
    match v
    case Arr(items) => forall i :: 0 <= i < |items| ==> NoCommands(items[i], forbidden)
    case Obj(members) =>
      forall i :: 0 <= i < |members| ==> !forbidden(members[i].key) && NoCommands(members[i].value, forbidden)
    case _ => true
  }

  predicate Bounded(v: Value, depth: nat, forbidden: Text -> bool)
    decreases v
  {
    match v
    case Arr(items) =>
      && depth <= MAX_CONTAINER_DEPTH && |items| <= MAX_ARRAY_ITEMS
      && forall i :: 0 <= i < |items| ==> Bounded(items[i], depth + 1, forbidden)
    case Obj(members) =>
      && depth <= MAX_CONTAINER_DEPTH && |members| <= MAX_CONTAINER_KEYS
      && forall i :: 0 <= i < |members| ==> !forbidden(members[i].key) && Bounded(members[i].value, depth + 1, forbidden)
    case _ => true
  }

  predicate BoundedObject(v: Value, forbidden: Text -> bool) {
    v.Obj? && v.members != [] && Bounded(v, 1, forbidden)
  }

  // ---- identifiers ----

  predicate Letter(c: nat) {
    65 <= c <= 90 || 97 <= c <= 122
  }

  predicate Digit(c: nat) {
    48 <= c <= 57
  }

  predicate IdOk(t: Text) {
    && 1 <= |t| <= 128 && (Letter(t[0]) || Digit(t[0]))
    && forall i :: 1 <= i < |t| ==> Letter(t[i]) || Digit(t[i]) || t[i] == 46 || t[i] == 95 || t[i] == 58 || t[i] == 45
  }

  predicate BudgetKeyOk(t: Text) {
    && 1 <= |t| <= 64 && 97 <= t[0] <= 122
    && forall i :: 1 <= i < |t| ==> 97 <= t[i] <= 122 || Digit(t[i]) || t[i] == 95
  }

  predicate BudgetOk(v: Value) {
    && v.Obj? && 1 <= |v.members| <= 16
    && (forall i :: 0 <= i < |v.members| ==> BudgetKeyOk(v.members[i].key) && IntegerOk(v.members[i].value, 0))
    && exists i :: 0 <= i < |v.members| && v.members[i].value.Int? && v.members[i].value.number > 0
  }

  // ---- the two kinds of actions ----

  /** The single parameter of a control action. */
  function ControlField(t: Text): Option<Text> {
    if t == Code("request_clarification") then Some(Code("question"))
    else if t == Code("propose_plan") then Some(Code("proposal"))
    else if t == Code("request_budget_extension") then Some(Code("request"))
    else if t == Code("request_user_confirmation") then Some(Code("condition"))
    else if t == Code("report_blocked") || t == Code("stop_with_failure") || t == Code("stop_without_safe_action") then
      Some(Code("report"))
    else None
  }

  predicate ControlOk(t: Text, v: Value, forbidden: Text -> bool)
    requires ControlField(t).Some?
  {
    && v.Obj? && DistinctKeys(v.members)
    && Keys(v.members) == {ControlField(t).value}
    && var argument := Find(v.members, ControlField(t).value);
    && argument.Some?
    && (if t == Code("request_clarification") then PlainString(argument.value) else BoundedObject(argument.value, forbidden))
  }

  datatype Schema = Schema(required: set<Text>, optional: set<Text>)

  function SchemaOf(t: Text): Option<Schema> {
    var path, paths, digest := Code("path"), Code("paths"), Code("expected_digest");
    if t == Code("inspect_repository") || t == Code("git_repo_probe") || t == Code("git_repo_root") || t == Code("git_status") then
      Some(Schema({}, {}))
    else if t == Code("list_files") then Some(Schema({path, Code("limit")}, {}))
    else if t == Code("read_file") then Some(Schema({path, Code("start_byte"), Code("max_bytes")}, {}))
    else if t == Code("search_text") then Some(Schema({Code("text"), paths, Code("limit")}, {}))
    else if t == Code("create_file") then Some(Schema({path, Code("content")}, {}))
    else if t == Code("replace_file") then Some(Schema({path, digest, Code("content")}, {}))
    else if t == Code("apply_patch") then Some(Schema({path, Code("patch"), digest}, {}))
    else if t == Code("delete_file") then Some(Schema({path, digest, Code("reason")}, {}))
    else if t == Code("request_ignored_input") then
      Some(Schema({paths, Code("mode"), Code("phase"), Code("manifest_version")}, {}))
    else if t == Code("run_validation") then Some(Schema({Code("profile"), Code("operation")}, {}))
    else if t == Code("git_diff_worktree") || t == Code("git_diff_index") || t == Code("git_list_tracked")
            || t == Code("git_list_untracked") then
      Some(Schema({}, {paths}))
    else if t == Code("git_stage_paths") || t == Code("git_unstage_paths") then Some(Schema({paths}, {}))
    else None
  }

  function StringFields(): seq<Text> {
    [Code("path"), Code("text"), Code("expected_digest"), Code("reason"), Code("mode"), Code("phase"),
     Code("manifest_version"), Code("profile"), Code("operation")]
  }

  predicate PathsRequired(t: Text) {
    t == Code("search_text") || t == Code("request_ignored_input") || t == Code("git_stage_paths") || t == Code("git_unstage_paths")
  }

  function OperationsOf(profile: Value): set<Text> {
    if profile == Str(Code("python312")) then {Code("pytest"), Code("ruff")}
    else if profile == Str(Code("nodejs20_npm")) then {Code("test"), Code("lint"), Code("build"), Code("typecheck")}
    else {}
  }

  /** What a tool demands of the parameter with this name. */
  predicate FieldOk(t: Text, key: Text, v: Value, forbidden: Text -> bool) {
    && (key in StringFields() ==> PlainString(v))
    && (key == Code("content") ==> StringOk(v, 0, MAX_INPUT_BYTES))
    && (key == Code("limit") || key == Code("max_bytes") ==> IntegerOk(v, 1))
    && (key == Code("start_byte") ==> IntegerOk(v, 0))
    && (key == Code("paths") ==> PathsOk(v, PathsRequired(t)))
    && (key == Code("patch") ==> BoundedObject(v, forbidden))
    && (t == Code("request_ignored_input") && key == Code("mode") ==>
         OneOf(v, {Code("read_only_input"), Code("writable_ephemeral")}))
    && (t == Code("request_ignored_input") && key == Code("phase") ==>
         OneOf(v, {Code("INVESTIGATING"), Code("EXECUTING"), Code("VERIFYING")}))
    && (t == Code("run_validation") && key == Code("profile") ==> OneOf(v, {Code("python312"), Code("nodejs20_npm")}))
  }

  predicate FieldsOk(t: Text, members: seq<Pair<Value>>, forbidden: Text -> bool) {
    forall key :: key in Keys(members) ==>
      Find(members, key).Some? && FieldOk(t, key, Find(members, key).value, forbidden)
  }

  /** A validation runs an operation of its profile. */
  predicate OperationOk(t: Text, members: seq<Pair<Value>>) {
    t == Code("run_validation") ==>
      var profile, operation := Find(members, Code("profile")), Find(members, Code("operation"));
      profile.Some? && operation.Some? && OneOf(operation.value, OperationsOf(profile.value))
  }

  predicate ToolOk(t: Text, v: Value, forbidden: Text -> bool)
    requires SchemaOf(t).Some?
  {
    var schema := SchemaOf(t).value;
    && v.Obj? && DistinctKeys(v.members)
    && schema.required <= Keys(v.members) <= schema.required + schema.optional
    && NoCommands(v, forbidden)
    && FieldsOk(t, v.members, forbidden)
    && OperationOk(t, v.members)
  }

  // ---- the parser ----

  function TopLevel(): set<Text> {
    {Code("action_id"), Code("action_type"), Code("parameters"), Code("budget_impact"), Code("expected_result_type")}
  }

  predicate Normal(raw: Value) {
    Acceptable(raw, 1) && Cost(raw) <= MAX_INPUT_BYTES && raw.Obj?
  }

  /** Checks the five fields of an action and freezes it. */
  function Build(id: Value, t: Value, parameters: Value, budget: Value, expected: Value,
                 forbidden: Text -> bool): Option<Action> {
    if !(id.Str? && IdOk(id.text)) || !t.Str? then None
    else
      var kind := ControlField(t.text);
      var category := if kind.Some? then ControlAction else ToolAction;
      var result := if kind.Some? then Code("control_result") else Code("tool_result");
      var ok := if kind.Some? then ControlOk(t.text, parameters, forbidden)
                else SchemaOf(t.text).Some? && ToolOk(t.text, parameters, forbidden);
      if !ok || expected != Str(result) || !BudgetOk(budget) then None
      else Some(Action(category, id.text, t.text, Freeze(parameters), Freeze(budget), result))
  }

  function Parse(raw: Value, forbidden: Text -> bool): Option<Action> {
    if !Normal(raw) || Keys(raw.members) != TopLevel() then None
    else
      var id, t := Find(raw.members, Code("action_id")), Find(raw.members, Code("action_type"));
      var parameters, budget := Find(raw.members, Code("parameters")), Find(raw.members, Code("budget_impact"));
      var expected := Find(raw.members, Code("expected_result_type"));
      if id.None? || t.None? || parameters.None? || budget.None? || expected.None? then None
      else Build(id.value, t.value, parameters.value, budget.value, expected.value, forbidden)
  }

  method ParseAction(raw: Value, forbidden: Text -> bool) returns (r: Option<Action>)
    ensures r == Parse(raw, forbidden)
  {
    hide Acceptable, Build, Cost;
    var normalized, bytes := Normalize(raw);
    if normalized.None? {
      return None;
    }
    return Parse(normalized.value, forbidden);
  }

  function Dict(id: Value, t: Value, parameters: Value, budget: Value, expected: Value): Value {
    Obj([
      Pair(Code("action_id"), id),
      Pair(Code("action_type"), t),
      Pair(Code("parameters"), parameters),
      Pair(Code("budget_impact"), budget),
      Pair(Code("expected_result_type"), expected)])
  }

  function ToDict(a: Action): Value {
    Dict(Str(a.id), Str(a.actionType), Thaw(a.parameters), Thaw(a.budget), Str(a.expected))
  }
}
