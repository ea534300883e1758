/**
 * The tool registry of app/tools.py and the way the engine calls a tool.
 *
 * A tool is one of the Python functions that app/tools.py defines. The engine
 * calls it with the state entries whose keys are among the function's
 * `__code__.co_varnames`: its parameter names AND the names of its local
 * variables. Python then rejects a keyword that is only a local variable
 * ("unexpected keyword argument") and a parameter that is not supplied
 * ("missing argument"); a tool whose argument has the wrong type raises too.
 */
module ToolRegistry {
  import opened Wrappers
  import opened Models
  import Tools

  /** The functions defined in app/tools.py that a node can name. */
  datatype Tool =
    | ExtractFunctions | CheckComplexity | DetectIssues | SuggestImprovements
    | SplitText | GenerateSummaries | MergeSummaries | RefineSummary
    | ProfileData | IdentifyAnomalies | GenerateRules | ApplyRules
    | StartNode | MiddleNode | EndNode
  {
    /** The function's Python name. */
    function Name(): string
    {
      match this
      case ExtractFunctions => "extract_functions"
      case CheckComplexity => "check_complexity"
      case DetectIssues => "detect_issues"
      case SuggestImprovements => "suggest_improvements"
      case SplitText => "split_text"
      case GenerateSummaries => "generate_summaries"
      case MergeSummaries => "merge_summaries"
      case RefineSummary => "refine_summary"
      case ProfileData => "profile_data"
      case IdentifyAnomalies => "identify_anomalies"
      case GenerateRules => "generate_rules"
      case ApplyRules => "apply_rules"
      case StartNode => "start_node"
      case MiddleNode => "middle_node"
      case EndNode => "end_node"
    }

    /** The parameter names; none has a default value. */
    function Params(): set<string>
    {
      match this
      case ExtractFunctions => {"code"}
      case CheckComplexity => {"code"}
      case DetectIssues => {"code"}
      case SuggestImprovements => {"code"}
      case SplitText => {"text"}
      case GenerateSummaries => {"chunks"}
      case MergeSummaries => {"summaries"}
      case RefineSummary => {"merged_summary"}
      case ProfileData => {"data"}
      case IdentifyAnomalies => {"data"}
      case GenerateRules => {"data"}
      case ApplyRules => {"data", "rules"}
      case StartNode => {}
      case MiddleNode => {}
      case EndNode => {}
    }

    /** `__code__.co_varnames`: the parameters followed by the body's local variables. */
    function VarNames(): (names: set<string>)
      ensures Params() <= names
    {
      match this
      case ExtractFunctions => {"code", "functions"}
      case CheckComplexity => {"code", "lines", "complexity"}
      case DetectIssues => {"code", "issues"}
      case SuggestImprovements => {"code", "suggestions", "quality_score"}
      case SplitText => {"text", "chunks"}
      case GenerateSummaries => {"chunks", "summaries"}
      case MergeSummaries => {"summaries", "merged"}
      case RefineSummary => {"merged_summary", "refined"}
      case ProfileData => {"data", "num_records", "columns"}
      case IdentifyAnomalies => {"data", "anomalies"}
      case GenerateRules => {"data", "rules"}
      case ApplyRules => {"data", "rules", "cleaned_data"}
      case StartNode => {}
      case MiddleNode => {}
      case EndNode => {}
    }

    /** The keys of the dict the function returns. */
    function Outputs(): set<string>
    {
      match this
      case ExtractFunctions => {"functions"}
      case CheckComplexity => {"complexity"}
      case DetectIssues => {"issues"}
      case SuggestImprovements => {"suggestions", "quality_score"}
      case SplitText => {"chunks"}
      case GenerateSummaries => {"summaries"}
      case MergeSummaries => {"merged_summary"}
      case RefineSummary => {"refined_summary"}
      case ProfileData => {"num_records", "columns"}
      case IdentifyAnomalies => {"anomalies"}
      case GenerateRules => {"rules"}
      case ApplyRules => {"cleaned_data"}
      case StartNode => {"message"}
      case MiddleNode => {"message"}
      case EndNode => {"message"}
    }
  }

  /** Why a tool call raises. */
  datatype CallError =
    | UnexpectedKeyword(names: set<string>)
    | MissingArgument(names: set<string>)
    | WrongType(param: string)

  /** The values of a list that are all strings, or None. */
  function AsStrings(xs: seq<Value>): (r: Option<seq<string>>)
    ensures r.Some? ==> |r.value| == |xs| && forall i :: 0 <= i < |xs| ==> xs[i] == Str(r.value[i])
    ensures r.None? ==> exists i :: 0 <= i < |xs| && !xs[i].Str?
  {
    if forall i | 0 <= i < |xs| :: xs[i].Str? then Some(seq(|xs|, i requires 0 <= i < |xs| => xs[i].s))
    else None
  }

  /** A list of strings reads back as those strings. */
  lemma AsStringsStrs(xs: seq<string>)
    ensures AsStrings(Tools.Strs(xs)) == Some(xs)
  {
    var ys := Tools.Strs(xs);
    assert forall i | 0 <= i < |ys| :: ys[i].Str?;
    var r := AsStrings(ys);
    assert |r.value| == |xs| && forall i :: 0 <= i < |xs| ==> r.value[i] == xs[i];
    assert r.value == xs;
  }

  /** The body of a tool, given exactly its parameters. */
  function Apply(t: Tool, args: StateData): (r: Result<StateData, CallError>)
    requires args.Keys == t.Params()
    ensures r.Ok? ==> r.value.Keys == t.Outputs()
  {
    match t
    case ExtractFunctions =>
      if args["code"].Str? then Ok(map["functions" := Int(Tools.FunctionCount(args["code"].s))])
      else Err(WrongType("code"))
    case CheckComplexity =>
      if args["code"].Str? then Ok(map["complexity" := Int(Tools.Complexity(args["code"].s))])
      else Err(WrongType("code"))
    case DetectIssues =>
      if args["code"].Str? then Ok(map["issues" := Int(Tools.IssueCount(args["code"].s))])
      else Err(WrongType("code"))
    case SuggestImprovements =>
      if args["code"].Str? then
        var code := args["code"].s;
        Ok(map["suggestions" := List(Tools.Strs(Tools.Suggestions(code))),
               "quality_score" := Int(Tools.QualityScore(code))])
      else Err(WrongType("code"))
    case SplitText =>
      if args["text"].Str? then Ok(map["chunks" := List(Tools.Strs(Tools.Chunks(args["text"].s)))])
      else Err(WrongType("text"))
    case GenerateSummaries =>
      var n := Len(args["chunks"]);
      if n.Some? then Ok(map["summaries" := List(Tools.Strs(Tools.Summaries(n.value)))])
      else Err(WrongType("chunks"))
    case MergeSummaries =>
      var items := Iterate(args["summaries"]);
      if items.Some? && AsStrings(items.value).Some? then
        Ok(map["merged_summary" := Str(Tools.MergedSummary(AsStrings(items.value).value))])
      else Err(WrongType("summaries"))
    case RefineSummary =>
      (match args["merged_summary"]
       case Str(s) => Ok(map["refined_summary" := Str(Tools.Refined(s))])
       case List(xs) => Ok(map["refined_summary" := List(Tools.Refined(xs))])
       case _ => Err(WrongType("merged_summary")))
    case ProfileData =>
      (match args["data"]
       case List(records) =>
         if records == [] then Ok(map["num_records" := Int(0), "columns" := List([])])
         else if records[0].Dict? then
           Ok(map["num_records" := Int(|records|), "columns" := List(Tools.Columns(records[0].entries))])
         else Err(WrongType("data"))
       case _ => Err(WrongType("data")))
    case IdentifyAnomalies =>
      (match args["data"]
       case List(records) =>
         if Tools.AllDicts(records) then Ok(map["anomalies" := Int(Tools.AnomalyCount(records))])
         else Err(WrongType("data"))
       case _ => Err(WrongType("data")))
    case GenerateRules => Ok(map["rules" := List([Str(Tools.StringLengthRule)])])
    case ApplyRules => Ok(map["cleaned_data" := args["data"]])
    case StartNode => Ok(map["message" := Str("Starting workflow")])
    case MiddleNode => Ok(map["message" := Str("In the middle")])
    case EndNode => Ok(map["message" := Str("Ending workflow")])
  }

  /**
   * profile_data on a list of records: it succeeds exactly when the list is
   * empty or starts with a dict; it counts the records, and its columns are
   * what iterating the first record yields, so a string is a column exactly
   * when it is a key of that record. An empty list gives 0 and no columns.
   */
  lemma ProfileDataProfiles(records: seq<Value>)
    ensures Apply(ProfileData, map["data" := List(records)]).Ok? <==> records == [] || records[0].Dict?
    ensures records == [] ==>
              Apply(ProfileData, map["data" := List(records)]) == Ok(map["num_records" := Int(0), "columns" := List([])])
    ensures records != [] && records[0].Dict? ==>
              var out := Apply(ProfileData, map["data" := List(records)]).value;
              && out.Keys == {"num_records", "columns"}
              && out["num_records"] == Int(|records|)
              && out["columns"].List?
              && Iterate(records[0]) == Some(out["columns"].items)
              && forall c :: Str(c) in out["columns"].items <==>
                               exists i | 0 <= i < |records[0].entries| :: records[0].entries[i].0 == c
  {
    if records != [] && records[0].Dict? {
      Tools.ColumnsAreKeys(records[0].entries);
    }
  }

  /**
   * `tool(**{k: v for k, v in state.items() if k in tool.__code__.co_varnames})`.
   * `InvokeChecksArguments` states what it promises.
   */
  function Invoke(t: Tool, state: StateData): Result<StateData, CallError>
  {
    var passed := state.Keys * t.VarNames();
    if passed - t.Params() != {} then Err(UnexpectedKeyword(passed - t.Params()))
    else if t.Params() - passed != {} then Err(MissingArgument(t.Params() - passed))
    else Apply(t, map k | k in t.Params() :: state[k])
  }

  /**
   * A call succeeds only when the state holds every parameter and no other
   * variable name, and then returns the tool's output keys; a state entry
   * named after a local variable makes it raise "unexpected keyword".
   */
  lemma InvokeChecksArguments(t: Tool, state: StateData)
    ensures Invoke(t, state).Ok? ==> state.Keys * t.VarNames() == t.Params()
    ensures Invoke(t, state).Ok? ==> Invoke(t, state).value.Keys == t.Outputs()
    ensures state.Keys * (t.VarNames() - t.Params()) != {} ==>
              Invoke(t, state).Err? && Invoke(t, state).error.UnexpectedKeyword?
    ensures t.Params() - state.Keys != {} ==> Invoke(t, state).Err?
  {
  }

  /**
   * A call on a state that holds every parameter and none of the tool's
   * other variable names runs the tool's body on exactly its parameters.
   */
  lemma InvokeWithParams(t: Tool, state: StateData)
    requires t.Params() <= state.Keys
    requires forall k :: k in t.VarNames() && k !in t.Params() ==> k !in state
    ensures Invoke(t, state) == Apply(t, map k | k in t.Params() :: state[k])
  {
    assert state.Keys * t.VarNames() == t.Params();
  }

  /** A call sees only the state entries named by the tool's variable names. */
  lemma InvokeSeesOnlyVarNames(t: Tool, s1: StateData, s2: StateData)
    requires forall k :: k in t.VarNames() ==> (k in s1 <==> k in s2)
    requires forall k :: k in t.VarNames() && k in s1 ==> s1[k] == s2[k]
    ensures Invoke(t, s1) == Invoke(t, s2)
  {
    assert s1.Keys * t.VarNames() == s2.Keys * t.VarNames();
    var a1 := map k | k in t.Params() && k in s1 :: s1[k];
    var a2 := map k | k in t.Params() && k in s2 :: s2[k];
    assert a1 == a2;
  }

  /** The registrations made when app/tools.py is imported. */
  function Builtins(): map<string, Tool>
  {
    map[
      "extract_functions" := ExtractFunctions,
      "check_complexity" := CheckComplexity,
      "detect_issues" := DetectIssues,
      "suggest_improvements" := SuggestImprovements,
      "split_text" := SplitText,
      "generate_summaries" := GenerateSummaries,
      "merge_summaries" := MergeSummaries,
      "refine_summary" := RefineSummary,
      "profile_data" := ProfileData,
      "identify_anomalies" := IdentifyAnomalies,
      "generate_rules" := GenerateRules,
      "apply_rules" := ApplyRules
    ]
  }

  /**
   * Every built-in tool is registered under its own Python name, and the
   * registered tools are exactly those other than start_node, middle_node and end_node.
   */
  lemma BuiltinsByName()
    ensures forall name :: name in Builtins() ==> Builtins()[name].Name() == name
    ensures forall t: Tool :: t.Name() in Builtins() <==> !(t.StartNode? || t.MiddleNode? || t.EndNode?)
  {
  }

  /** The name-to-function dictionary `tool_registry`. */
  class Registry {
    var tools: map<string, Tool>

    constructor ()
      ensures tools == map[]
    {
      tools := map[];
    }

    /** register_tool: store or overwrite the function under `name`. */
    method Register(name: string, t: Tool)
      modifies this
      ensures tools == old(tools)[name := t]
    {
      tools := tools[name := t];
    }

    /** get_tool: the function registered under `name`, or None. */
    function Get(name: string): (r: Option<Tool>)
      reads this
      ensures r.Some? <==> name in tools
      ensures r.Some? ==> r.value == tools[name]
    {
      if name in tools then Some(tools[name]) else None
    }

    /** The twelve `register_tool` calls at the end of app/tools.py, in order. */
    method RegisterBuiltins()
      modifies this
      ensures tools == old(tools)
                          ["extract_functions" := ExtractFunctions]
                          ["check_complexity" := CheckComplexity]
                          ["detect_issues" := DetectIssues]
                          ["suggest_improvements" := SuggestImprovements]
                          ["split_text" := SplitText]
                          ["generate_summaries" := GenerateSummaries]
                          ["merge_summaries" := MergeSummaries]
                          ["refine_summary" := RefineSummary]
                          ["profile_data" := ProfileData]
                          ["identify_anomalies" := IdentifyAnomalies]
                          ["generate_rules" := GenerateRules]
                          ["apply_rules" := ApplyRules]
      ensures old(tools) == map[] ==> tools == Builtins()
    {
      Register("extract_functions", ExtractFunctions);
      Register("check_complexity", CheckComplexity);
      Register("detect_issues", DetectIssues);
      Register("suggest_improvements", SuggestImprovements);
      Register("split_text", SplitText);
      Register("generate_summaries", GenerateSummaries);
      Register("merge_summaries", MergeSummaries);
      Register("refine_summary", RefineSummary);
      Register("profile_data", ProfileData);
      Register("identify_anomalies", IdentifyAnomalies);
      Register("generate_rules", GenerateRules);
      Register("apply_rules", ApplyRules);
    }
  }
}
