/**
 * What the engine does with the four example workflows of app/workflows.py
 * when the tools are those registered by app/tools.py (`Builtins()`).
 */
module WorkflowRuns {
  import opened Wrappers
  import opened Models
  import opened ToolRegistry
  import opened Engine
  import opened Workflows

  // ---------------------------------------------------------------------------
  // The registrations each workflow relies on
  // ---------------------------------------------------------------------------

  predicate RegisteredAs(tools: map<string, Tool>, name: string, t: Tool)
  {
    name in tools && tools[name] == t
  }

  /** None of the simple workflow's functions is registered. */
  predicate SimpleUnregistered(tools: map<string, Tool>)
  {
    "start_node" !in tools && "middle_node" !in tools && "end_node" !in tools
  }

  /** app/tools.py's registry leaves the simple workflow's functions unregistered. */
  lemma BuiltinsLeaveSimpleUnregistered()
    ensures SimpleUnregistered(Builtins())
  {
    BuiltinsByName();
    assert StartNode.Name() !in Builtins() && MiddleNode.Name() !in Builtins() && EndNode.Name() !in Builtins();
  }

  // ---------------------------------------------------------------------------
  // One step of a run
  // ---------------------------------------------------------------------------

  /**
   * A function node whose registered tool returns `out`: the step logs `out`
   * and the run goes on from `next` in the merged state.
   */
  lemma CallStep(call: ToolCall, tools: map<string, Tool>, g: Graph, data: StateData, cur: string, t: Tool,
                 out: StateData, next: Option<string>, fuel: nat)
    requires cur in g.nodes && cur != "" && fuel > 0
    requires g.nodes[cur].nodeType == "function" && g.nodes[cur].functionName == Some(t.Name()) && t.Name() != ""
    requires RegisteredAs(tools, t.Name(), t)
    requires call(t, data) == Ok(out)
    requires NextNode(g, g.nodes[cur], data + out) == next
    ensures Exec(call, tools, g, data, Some(cur), fuel)
            == Prepend([Step(cur, out)], Exec(call, tools, g, data + out, next, fuel - 1))
  {
    ExecUnfold(call, tools, g, data, cur, fuel);
  }

  /** A node that calls no tool logs `{}` and leaves the state as it is. */
  lemma SilentStep(call: ToolCall, tools: map<string, Tool>, g: Graph, data: StateData, cur: string,
                   next: Option<string>, fuel: nat)
    requires cur in g.nodes && cur != "" && fuel > 0
    requires !CallsTool(tools, g.nodes[cur])
    requires NextNode(g, g.nodes[cur], data) == next
    ensures Exec(call, tools, g, data, Some(cur), fuel)
            == Prepend([Step(cur, map[])], Exec(call, tools, g, data, next, fuel - 1))
  {
    assert data + map[] == data;
    ExecUnfold(call, tools, g, data, cur, fuel);
  }

  /**
   * A tool with the single parameter `p`, called on a state that holds `p`
   * and none of the tool's local variable names, returns what its body
   * returns for that one argument.
   */
  lemma InvokeOnParam(t: Tool, data: StateData, p: string, out: StateData)
    requires t.Params() == {p} && p in data
    requires forall k :: k in t.VarNames() && k != p ==> k !in data
    requires Apply(t, map[p := data[p]]) == Ok(out)
    ensures Invoke(t, data) == Ok(out)
  {
    InvokeWithParams(t, data);
    assert (map k | k in t.Params() :: data[k]) == map[p := data[p]];
  }

  // ---------------------------------------------------------------------------
  // Code review
  // ---------------------------------------------------------------------------

  /** The four tools of the code-review workflow, registered under their own names. */
  predicate CodeReviewRegistered(tools: map<string, Tool>)
  {
    && RegisteredAs(tools, "extract_functions", ExtractFunctions)
    && RegisteredAs(tools, "check_complexity", CheckComplexity)
    && RegisteredAs(tools, "detect_issues", DetectIssues)
    && RegisteredAs(tools, "suggest_improvements", SuggestImprovements)
  }

  lemma BuiltinsRegisterCodeReview()
    ensures CodeReviewRegistered(Builtins())
  {
  }

  /** What the k-th analysis step (1 to 4) returns for `code`. */
  function ReviewOutput(code: string, k: nat): StateData
  {
    if k == 1 then map["functions" := Int(Tools.FunctionCount(code))]
    else if k == 2 then map["complexity" := Int(Tools.Complexity(code))]
    else if k == 3 then map["issues" := Int(Tools.IssueCount(code))]
    else map["suggestions" := List(Tools.Strs(Tools.Suggestions(code))),
             "quality_score" := Int(Tools.QualityScore(code))]
  }

  /** The state after the first k analysis steps, from a state holding only `code`. */
  function ReviewState(code: string, k: nat): StateData
  {
    var d0 := map["code" := Str(code)];
    var d1 := d0["functions" := Int(Tools.FunctionCount(code))];
    var d2 := d1["complexity" := Int(Tools.Complexity(code))];
    var d3 := d2["issues" := Int(Tools.IssueCount(code))];
    var d4 := d3["suggestions" := List(Tools.Strs(Tools.Suggestions(code)))]["quality_score" := Int(Tools.QualityScore(code))];
    if k == 0 then d0 else if k == 1 then d1 else if k == 2 then d2 else if k == 3 then d3 else d4
  }

  /** Each analysis step merges its output into the state before it. */
  lemma ReviewStateMerges(code: string, k: nat)
    requires 1 <= k <= 4
    ensures ReviewState(code, k - 1) + ReviewOutput(code, k) == ReviewState(code, k)
  {
  }

  /** The tool calls of the four analysis steps return what app/tools.py computes. */
  predicate ReviewCalls(call: ToolCall, code: string)
  {
    && call(ExtractFunctions, ReviewState(code, 0)) == Ok(ReviewOutput(code, 1))
    && call(CheckComplexity, ReviewState(code, 1)) == Ok(ReviewOutput(code, 2))
    && call(DetectIssues, ReviewState(code, 2)) == Ok(ReviewOutput(code, 3))
    && call(SuggestImprovements, ReviewState(code, 3)) == Ok(ReviewOutput(code, 4))
  }

  /** Each analysis tool finds `code` and none of its local variable names in the state it is called on. */
  lemma InvokeReviews(code: string)
    ensures ReviewCalls(Invoke, code)
  {
    InvokeReview(code, 1);
    InvokeReview(code, 2);
    InvokeReview(code, 3);
    InvokeReview(code, 4);
  }

  /** The tool of the k-th analysis step. */
  function ReviewTool(k: nat): Tool
  {
    if k == 1 then ExtractFunctions else if k == 2 then CheckComplexity
    else if k == 3 then DetectIssues else SuggestImprovements
  }

  lemma InvokeReview(code: string, k: nat)
    requires 1 <= k <= 4
    ensures Invoke(ReviewTool(k), ReviewState(code, k - 1)) == Ok(ReviewOutput(code, k))
  {
    var t, data := ReviewTool(k), ReviewState(code, k - 1);
    InvokeOnParam(t, data, "code", ReviewOutput(code, k));
  }

  /** The log of a code review from a state holding only `code`. */
  function ReviewLog(code: string): seq<Step>
  {
    [Step("extract", ReviewOutput(code, 1)), Step("check_complexity", ReviewOutput(code, 2)),
     Step("detect_issues", ReviewOutput(code, 3)), Step("suggest_improvements", ReviewOutput(code, 4)),
     Step("loop_condition", map[])]
  }

  /**
   * Starting from a state holding only the string `code`, the code-review
   * workflow runs its four analysis tools and the loop condition once, then
   * leaves for "end": the quality score is 9 or 10, so the guard `< 5` of the
   * back edge is false and the guard `>= 5` is true.
   */
  lemma CodeReviewRun(tools: map<string, Tool>, id: string, code: string, fuel: nat)
    requires CodeReviewRegistered(tools)
    requires fuel >= 5
    ensures var t := Exec(Invoke, tools, CodeReview().ToGraph(id), map["code" := Str(code)], Some("extract"), fuel);
            && t.halt == Finished && t.current == Some(End) && t.steps == ReviewLog(code)
            && t.data == ReviewState(code, 4)
            && t.data["quality_score"] == Int(Tools.QualityScore(code))
  {
    InvokeReviews(code);
    ReviewFrom(Invoke, tools, id, code, 1, fuel);
  }

  /**
   * From the k-th step on, a run whose tool calls compute what app/tools.py
   * computes logs the rest of `ReviewLog` and ends at "end".
   */
  lemma {:induction false} ReviewFrom(call: ToolCall, tools: map<string, Tool>, id: string, code: string, k: nat, fuel: nat)
    requires CodeReviewRegistered(tools) && ReviewCalls(call, code)
    requires 1 <= k <= 5 && fuel >= 6 - k
    ensures Exec(call, tools, CodeReview().ToGraph(id), ReviewState(code, k - 1), Some(ReviewNode(k)), fuel)
            == Trace(Finished, ReviewState(code, 4), Some(End), ReviewLog(code)[k - 1..])
    decreases 5 - k
  {
    if k == 5 {
      ReviewExit(call, tools, id, code, fuel);
    } else {
      ReviewStep(call, tools, id, code, k, fuel);
      ReviewFrom(call, tools, id, code, k + 1, fuel - 1);
      ReviewLogFrom(code, k);
    }
  }

  lemma ReviewLogFrom(code: string, k: nat)
    requires 1 <= k <= 4
    ensures ReviewLog(code)[k - 1..] == [Step(ReviewNode(k), ReviewOutput(code, k))] + ReviewLog(code)[k..]
  {
  }

  /** The node the k-th step of the code review runs. */
  function ReviewNode(k: nat): string
  {
    if k == 1 then "extract" else if k == 2 then "check_complexity"
    else if k == 3 then "detect_issues" else if k == 4 then "suggest_improvements" else "loop_condition"
  }

  /** The k-th analysis step (1 to 4) logs its tool's output and moves on along the plain edge. */
  lemma ReviewStep(call: ToolCall, tools: map<string, Tool>, id: string, code: string, k: nat, fuel: nat)
    requires CodeReviewRegistered(tools) && ReviewCalls(call, code)
    requires 1 <= k <= 4 && fuel > 0
    ensures var g := CodeReview().ToGraph(id);
            Exec(call, tools, g, ReviewState(code, k - 1), Some(ReviewNode(k)), fuel)
            == Prepend([Step(ReviewNode(k), ReviewOutput(code, k))],
                       Exec(call, tools, g, ReviewState(code, k), Some(ReviewNode(k + 1)), fuel - 1))
  {
    var g := CodeReview().ToGraph(id);
    var d := ReviewState(code, k);
    ReviewStateMerges(code, k);
    assert Wins(g.edges, ReviewNode(k), d, k - 1);
    NextNodeIsWinner(g, g.nodes[ReviewNode(k)], d, k - 1);
    CallStep(call, tools, g, ReviewState(code, k - 1), ReviewNode(k), ReviewTool(k), ReviewOutput(code, k), Some(ReviewNode(k + 1)), fuel);
  }

  /** The loop condition sends a score of at least 5 to "end", which is not a node. */
  lemma ReviewExit(call: ToolCall, tools: map<string, Tool>, id: string, code: string, fuel: nat)
    requires fuel > 0
    ensures Exec(call, tools, CodeReview().ToGraph(id), ReviewState(code, 4), Some(ReviewNode(5)), fuel)
            == Trace(Finished, ReviewState(code, 4), Some(End), [Step("loop_condition", map[])])
  {
    var g := CodeReview().ToGraph(id);
    var d := ReviewState(code, 4);
    assert d["quality_score"] == Int(Tools.QualityScore(code));
    assert !Taken(g.edges[4], d);
    assert Wins(g.edges, "loop_condition", d, 5);
    NextNodeIsWinner(g, g.nodes["loop_condition"], d, 5);
    SilentStep(call, tools, g, d, "loop_condition", Some(End), fuel);
  }

  // ---------------------------------------------------------------------------
  // Summarization and refinement
  // ---------------------------------------------------------------------------

  /** The four tools of the summarization workflow, registered under their own names. */
  predicate SummarizationRegistered(tools: map<string, Tool>)
  {
    && RegisteredAs(tools, "split_text", SplitText)
    && RegisteredAs(tools, "generate_summaries", GenerateSummaries)
    && RegisteredAs(tools, "merge_summaries", MergeSummaries)
    && RegisteredAs(tools, "refine_summary", RefineSummary)
  }

  lemma BuiltinsRegisterSummarization()
    ensures SummarizationRegistered(Builtins())
  {
  }

  /** The values the summarization computes from its input text. */
  datatype Summarized = Summarized(text: string, chunks: seq<string>, summaries: seq<string>, merged: string)

  /** What split_text, generate_summaries and merge_summaries make of `text`. */
  function Summarize(text: string): (v: Summarized)
    ensures v.text == text && Tools.Concat(v.chunks) == text
    ensures |v.summaries| == |v.chunks|
    ensures |v.merged| < Tools.RefineLimit <==> |text| <= Tools.LongCode
  {
    var chunks := Tools.Chunks(text);
    var summaries := Tools.Summaries(|chunks|);
    Tools.ChunksConcat(text);
    Tools.MergedSummaryFits(|chunks|);
    Summarized(text, chunks, summaries, Tools.MergedSummary(summaries))
  }

  /** What the k-th step (1 to 4) of the summarization returns. */
  function SumOutput(v: Summarized, k: nat): StateData
  {
    if k == 1 then map["chunks" := List(Tools.Strs(v.chunks))]
    else if k == 2 then map["summaries" := List(Tools.Strs(v.summaries))]
    else if k == 3 then map["merged_summary" := Str(v.merged)]
    else map["refined_summary" := Str(Tools.Refined(v.merged))]
  }

  /** The state after the first k steps, from a state holding only the text. */
  function SumState(v: Summarized, k: nat): StateData
  {
    var d0 := map["text" := Str(v.text)];
    var d1 := d0["chunks" := List(Tools.Strs(v.chunks))];
    var d2 := d1["summaries" := List(Tools.Strs(v.summaries))];
    var d3 := d2["merged_summary" := Str(v.merged)];
    var d4 := d3["refined_summary" := Str(Tools.Refined(v.merged))];
    if k == 0 then d0 else if k == 1 then d1 else if k == 2 then d2 else if k == 3 then d3 else d4
  }

  /** Each step merges its output into the state before it; refining again changes nothing. */
  lemma SumStateMerges(v: Summarized, k: nat)
    requires 1 <= k <= 4
    ensures SumState(v, k - 1) + SumOutput(v, k) == SumState(v, k)
    ensures SumState(v, 4) + SumOutput(v, 4) == SumState(v, 4)
  {
  }

  /** The node the k-th step of the summarization runs. */
  function SumNode(k: nat): string
  {
    if k == 1 then "split_text" else if k == 2 then "generate_summaries"
    else if k == 3 then "merge_summaries" else if k == 4 then "refine_summary" else "check_length"
  }

  /** The tool of the k-th step. */
  function SumTool(k: nat): Tool
  {
    if k == 1 then SplitText else if k == 2 then GenerateSummaries
    else if k == 3 then MergeSummaries else RefineSummary
  }

  /** The parameter of the k-th step's tool. */
  function SumParam(k: nat): string
  {
    if k == 1 then "text" else if k == 2 then "chunks" else if k == 3 then "summaries" else "merged_summary"
  }

  /**
   * The tool calls of the four steps return what app/tools.py computes, and
   * so does refine_summary when it runs again on the state after the fourth step.
   */
  predicate SumCalls(call: ToolCall, v: Summarized)
  {
    && call(SplitText, SumState(v, 0)) == Ok(SumOutput(v, 1))
    && call(GenerateSummaries, SumState(v, 1)) == Ok(SumOutput(v, 2))
    && call(MergeSummaries, SumState(v, 2)) == Ok(SumOutput(v, 3))
    && call(RefineSummary, SumState(v, 3)) == Ok(SumOutput(v, 4))
    && call(RefineSummary, SumState(v, 4)) == Ok(SumOutput(v, 4))
  }

  /**
   * Each tool finds its one parameter and none of its local variable names;
   * in particular "refined" is never a key of the state, so refine_summary
   * can run again.
   */
  lemma InvokeSums(text: string)
    ensures SumCalls(Invoke, Summarize(text))
  {
    InvokeSum(text, 1, 0);
    InvokeSum(text, 2, 1);
    InvokeSum(text, 3, 2);
    InvokeSum(text, 4, 3);
    InvokeSum(text, 4, 4);
  }

  lemma InvokeSum(text: string, k: nat, before: nat)
    requires 1 <= k <= 4 && (before == k - 1 || k == before == 4)
    ensures Invoke(SumTool(k), SumState(Summarize(text), before)) == Ok(SumOutput(Summarize(text), k))
  {
    var v := Summarize(text);
    var t, data, p := SumTool(k), SumState(v, before), SumParam(k);
    if k == 3 {
      AsStringsStrs(v.summaries);
    }
    InvokeOnParam(t, data, p, SumOutput(v, k));
  }

  /** The k-th step (1 to 4) logs its tool's output and moves on along the plain edge. */
  lemma SumStep(call: ToolCall, tools: map<string, Tool>, id: string, v: Summarized, k: nat, fuel: nat)
    requires SummarizationRegistered(tools) && SumCalls(call, v)
    requires 1 <= k <= 4 && fuel > 0
    ensures var g := Summarization().ToGraph(id);
            Exec(call, tools, g, SumState(v, k - 1), Some(SumNode(k)), fuel)
            == Prepend([Step(SumNode(k), SumOutput(v, k))],
                       Exec(call, tools, g, SumState(v, k), Some(SumNode(k + 1)), fuel - 1))
  {
    var g := Summarization().ToGraph(id);
    var d := SumState(v, k);
    SumStateMerges(v, k);
    assert Wins(g.edges, SumNode(k), d, k - 1);
    NextNodeIsWinner(g, g.nodes[SumNode(k)], d, k - 1);
    CallStep(call, tools, g, SumState(v, k - 1), SumNode(k), SumTool(k), SumOutput(v, k), Some(SumNode(k + 1)), fuel);
  }

  /** The log of the four tool steps and the first visit of the condition node. */
  function SumLog(v: Summarized): seq<Step>
  {
    [Step("split_text", SumOutput(v, 1)), Step("generate_summaries", SumOutput(v, 2)),
     Step("merge_summaries", SumOutput(v, 3)), Step("refine_summary", SumOutput(v, 4)),
     Step("check_length", map[])]
  }

  /** The states before and after each of the four tool steps. */
  function SumStates(v: Summarized): (r: seq<StateData>)
    ensures |r| == 5 && forall j :: 0 <= j < 5 ==> r[j] == SumState(v, j)
  {
    seq(5, j requires 0 <= j < 5 => SumState(v, j))
  }

  /** The four tool steps of the log. */
  function SumSteps(v: Summarized): (r: seq<Step>)
    ensures |r| == 4 && forall j :: 0 <= j < 4 ==> r[j] == Step(SumNode(j + 1), SumOutput(v, j + 1))
  {
    seq(4, j requires 0 <= j < 4 => Step(SumNode(j + 1), SumOutput(v, j + 1)))
  }

  lemma SumLogSplits(v: Summarized)
    ensures SumLog(v)[..4] == SumSteps(v)
  {
  }

  /** The four tool steps form a chain that ends at the condition node. */
  lemma SumAlong(call: ToolCall, tools: map<string, Tool>, id: string, v: Summarized)
    requires SummarizationRegistered(tools) && SumCalls(call, v)
    ensures Along(call, tools, Summarization().ToGraph(id), SumStates(v), SumSteps(v), Some("check_length"))
  {
    var g := Summarization().ToGraph(id);
    var states, steps := SumStates(v), SumSteps(v);
    forall j, f: nat | 0 <= j < 4 && f > 0
      ensures StepAt(call, tools, g, states, steps, Some("check_length"), j, f)
    {
      SumStep(call, tools, id, v, j + 1, f);
      assert NodeAfter(steps, Some("check_length"), j) == Some(SumNode(j + 2));
    }
  }

  /** The run reaches the condition node in the state after the fourth step, having logged the four tool steps. */
  lemma SumFrom(call: ToolCall, tools: map<string, Tool>, id: string, v: Summarized, fuel: nat)
    requires SummarizationRegistered(tools) && SumCalls(call, v) && fuel >= 4
    ensures var g := Summarization().ToGraph(id);
            Exec(call, tools, g, SumState(v, 0), Some("split_text"), fuel)
            == Prepend(SumLog(v)[..4], Exec(call, tools, g, SumState(v, 4), Some("check_length"), fuel - 4))
  {
    SumAlong(call, tools, id, v);
    ExecAlong(call, tools, Summarization().ToGraph(id), SumStates(v), SumSteps(v), Some("check_length"), fuel);
    SumLogSplits(v);
  }

  /** A refined summary shorter than 200 characters leaves the loop for "end". */
  lemma SumExit(call: ToolCall, tools: map<string, Tool>, id: string, v: Summarized, fuel: nat)
    requires |v.merged| < Tools.RefineLimit && fuel > 0
    ensures Exec(call, tools, Summarization().ToGraph(id), SumState(v, 4), Some("check_length"), fuel)
            == Trace(Finished, SumState(v, 4), Some(End), [Step("check_length", map[])])
  {
    var g := Summarization().ToGraph(id);
    var d := SumState(v, 4);
    assert d["refined_summary"] == Str(Tools.Refined(v.merged));
    assert !Taken(g.edges[4], d);
    assert Wins(g.edges, "check_length", d, 5);
    NextNodeIsWinner(g, g.nodes["check_length"], d, 5);
    SilentStep(call, tools, g, d, "check_length", Some(End), fuel);
  }

  /**
   * Once the refined summary has 200 characters, check_length sends the run
   * back to refine_summary, which rewrites the same value: the run goes
   * round until its budget is spent, and the state no longer changes.
   */
  lemma {:induction false} SumLoop(call: ToolCall, tools: map<string, Tool>, id: string, v: Summarized, atCheck: bool, fuel: nat)
    requires SummarizationRegistered(tools) && SumCalls(call, v)
    requires |v.merged| >= Tools.RefineLimit
    ensures var t := Exec(call, tools, Summarization().ToGraph(id), SumState(v, 4),
                          Some(if atCheck then "check_length" else "refine_summary"), fuel);
            t.halt == OutOfFuel && t.data == SumState(v, 4) && |t.steps| == fuel
    decreases fuel
  {
    if fuel > 0 {
      if atCheck {
        SumBackEdge(call, tools, id, v, fuel);
      } else {
        SumRefineAgain(call, tools, id, v, fuel);
      }
      SumLoop(call, tools, id, v, !atCheck, fuel - 1);
    }
  }

  /** A refined summary of 200 characters sends check_length back to refine_summary. */
  lemma SumBackEdge(call: ToolCall, tools: map<string, Tool>, id: string, v: Summarized, fuel: nat)
    requires |v.merged| >= Tools.RefineLimit && fuel > 0
    ensures var g := Summarization().ToGraph(id);
            Exec(call, tools, g, SumState(v, 4), Some("check_length"), fuel)
            == Prepend([Step("check_length", map[])], Exec(call, tools, g, SumState(v, 4), Some("refine_summary"), fuel - 1))
  {
    var g := Summarization().ToGraph(id);
    var d := SumState(v, 4);
    assert d["refined_summary"] == Str(Tools.Refined(v.merged));
    assert Wins(g.edges, "check_length", d, 4);
    NextNodeIsWinner(g, g.nodes["check_length"], d, 4);
    SilentStep(call, tools, g, d, "check_length", Some("refine_summary"), fuel);
  }

  /** Refining the same merged summary again leaves the state as it is. */
  lemma SumRefineAgain(call: ToolCall, tools: map<string, Tool>, id: string, v: Summarized, fuel: nat)
    requires SummarizationRegistered(tools) && SumCalls(call, v) && fuel > 0
    ensures var g := Summarization().ToGraph(id);
            Exec(call, tools, g, SumState(v, 4), Some("refine_summary"), fuel)
            == Prepend([Step("refine_summary", SumOutput(v, 4))], Exec(call, tools, g, SumState(v, 4), Some("check_length"), fuel - 1))
  {
    var g := Summarization().ToGraph(id);
    var d := SumState(v, 4);
    SumStateMerges(v, 4);
    assert Wins(g.edges, "refine_summary", d, 3);
    NextNodeIsWinner(g, g.nodes["refine_summary"], d, 3);
    CallStep(call, tools, g, d, "refine_summary", RefineSummary, SumOutput(v, 4), Some("check_length"), fuel);
  }

  /**
   * A text of at most 1000 characters has at most ten chunks, so its merged
   * summaries have fewer than 200 characters: the run logs the four tool
   * steps and one visit of check_length, then leaves for "end".
   */
  lemma SummarizationExits(tools: map<string, Tool>, id: string, text: string, fuel: nat)
    requires SummarizationRegistered(tools)
    requires |text| <= Tools.LongCode && fuel >= 5
    ensures var t := Exec(Invoke, tools, Summarization().ToGraph(id), map["text" := Str(text)], Some("split_text"), fuel);
            && t.halt == Finished && t.current == Some(End) && t.steps == SumLog(Summarize(text))
            && t.data == SumState(Summarize(text), 4)
  {
    var v := Summarize(text);
    Tools.MergedSummaryFits(|v.chunks|);
    InvokeSums(text);
    SumRunExits(Invoke, tools, id, v, fuel);
  }

  lemma SumRunExits(call: ToolCall, tools: map<string, Tool>, id: string, v: Summarized, fuel: nat)
    requires SummarizationRegistered(tools) && SumCalls(call, v)
    requires |v.merged| < Tools.RefineLimit && fuel >= 5
    ensures var t := Exec(call, tools, Summarization().ToGraph(id), SumState(v, 0), Some("split_text"), fuel);
            && t.halt == Finished && t.current == Some(End) && t.steps == SumLog(v) && t.data == SumState(v, 4)
  {
    SumFrom(call, tools, id, v, fuel);
    SumExit(call, tools, id, v, fuel - 4);
    assert SumLog(v)[..4] + [Step("check_length", map[])] == SumLog(v);
  }

  /**
   * A text of more than 1000 characters has at least eleven chunks, so its
   * merged summaries have at least 200 characters and the refinement loop
   * never exits: whatever the budget, the run spends all of it.
   */
  lemma SummarizationLoops(tools: map<string, Tool>, id: string, text: string, fuel: nat)
    requires SummarizationRegistered(tools)
    requires |text| > Tools.LongCode
    ensures var t := Exec(Invoke, tools, Summarization().ToGraph(id), map["text" := Str(text)], Some("split_text"), fuel);
            && t.halt == OutOfFuel && |t.steps| == fuel
            && (fuel >= 4 ==> t.data == SumState(Summarize(text), 4) && t.steps[..4] == SumLog(Summarize(text))[..4])
  {
    var v := Summarize(text);
    Tools.MergedSummaryFits(|v.chunks|);
    InvokeSums(text);
    SumRunLoops(Invoke, tools, id, v, fuel);
  }

  lemma SumRunLoops(call: ToolCall, tools: map<string, Tool>, id: string, v: Summarized, fuel: nat)
    requires SummarizationRegistered(tools) && SumCalls(call, v)
    requires |v.merged| >= Tools.RefineLimit
    ensures var t := Exec(call, tools, Summarization().ToGraph(id), SumState(v, 0), Some("split_text"), fuel);
            && t.halt == OutOfFuel && |t.steps| == fuel
            && (fuel >= 4 ==> t.data == SumState(v, 4) && t.steps[..4] == SumLog(v)[..4])
  {
    if fuel >= 4 {
      SumFrom(call, tools, id, v, fuel);
      SumLoop(call, tools, id, v, true, fuel - 4);
    } else {
      SumRunLoopsEarly(call, tools, id, v, fuel);
    }
  }

  /** A budget too small to reach the loop is spent too, since a larger one is. */
  lemma SumRunLoopsEarly(call: ToolCall, tools: map<string, Tool>, id: string, v: Summarized, fuel: nat)
    requires SummarizationRegistered(tools) && SumCalls(call, v)
    requires |v.merged| >= Tools.RefineLimit && fuel < 4
    ensures var t := Exec(call, tools, Summarization().ToGraph(id), SumState(v, 0), Some("split_text"), fuel);
            t.halt == OutOfFuel && |t.steps| == fuel
  {
    var g := Summarization().ToGraph(id);
    var d0 := SumState(v, 0);
    SumFrom(call, tools, id, v, fuel + 4);
    SumLoop(call, tools, id, v, true, fuel);
    OutOfFuelBelow(call, tools, g, d0, Some("split_text"), fuel, fuel + 4);
  }

  // ---------------------------------------------------------------------------
  // Data quality
  // ---------------------------------------------------------------------------

  /** The four tools of the data-quality workflow, registered under their own names. */
  predicate DataQualityRegistered(tools: map<string, Tool>)
  {
    && RegisteredAs(tools, "profile_data", ProfileData)
    && RegisteredAs(tools, "identify_anomalies", IdentifyAnomalies)
    && RegisteredAs(tools, "generate_rules", GenerateRules)
    && RegisteredAs(tools, "apply_rules", ApplyRules)
  }

  lemma BuiltinsRegisterDataQuality()
    ensures DataQualityRegistered(Builtins())
  {
  }

  /** The values the data-quality tools compute from a list of records. */
  datatype Audited = Audited(records: seq<Value>, numRecords: int, columns: seq<Value>, anomalies: int)

  /** What profile_data and identify_anomalies make of a list of dict records. */
  function Audit(records: seq<Value>): (v: Audited)
    requires Tools.AllDicts(records)
    ensures v.records == records && v.numRecords == |records| && v.anomalies == Tools.AnomalyCount(records)
    ensures records == [] ==> v.columns == []
    ensures records != [] ==>
              && Iterate(records[0]) == Some(v.columns)
              && forall c :: Str(c) in v.columns <==>
                               exists i | 0 <= i < |records[0].entries| :: records[0].entries[i].0 == c
  {
    if records == [] then Audited(records, 0, [], 0)
    else
      Tools.ColumnsAreKeys(records[0].entries);
      Audited(records, |records|, Tools.Columns(records[0].entries), Tools.AnomalyCount(records))
  }

  /** What the k-th step (1 to 4) of the data-quality workflow returns. */
  function AuditOutput(v: Audited, k: nat): StateData
  {
    if k == 1 then map["num_records" := Int(v.numRecords), "columns" := List(v.columns)]
    else if k == 2 then map["anomalies" := Int(v.anomalies)]
    else if k == 3 then map["rules" := List([Str(Tools.StringLengthRule)])]
    else map["cleaned_data" := List(v.records)]
  }

  /** The state after the first k steps, from a state holding only the records. */
  function AuditState(v: Audited, k: nat): StateData
  {
    var d0 := map["data" := List(v.records)];
    var d1 := d0["num_records" := Int(v.numRecords)]["columns" := List(v.columns)];
    var d2 := d1["anomalies" := Int(v.anomalies)];
    var d3 := d2["rules" := List([Str(Tools.StringLengthRule)])];
    var d4 := d3["cleaned_data" := List(v.records)];
    if k == 0 then d0 else if k == 1 then d1 else if k == 2 then d2 else if k == 3 then d3 else d4
  }

  lemma AuditStateMerges(v: Audited, k: nat)
    requires 1 <= k <= 4
    ensures AuditState(v, k - 1) + AuditOutput(v, k) == AuditState(v, k)
  {
  }

  /** The node the k-th step of the data-quality workflow runs. */
  function AuditNode(k: nat): string
  {
    if k == 1 then "profile_data" else if k == 2 then "identify_anomalies"
    else if k == 3 then "generate_rules" else if k == 4 then "apply_rules" else "check_anomalies"
  }

  /** The tool of the k-th step. */
  function AuditTool(k: nat): Tool
  {
    if k == 1 then ProfileData else if k == 2 then IdentifyAnomalies
    else if k == 3 then GenerateRules else ApplyRules
  }

  /** The error identify_anomalies raises once "anomalies" is a key of the state. */
  const AnomaliesPassed := UnexpectedKeyword({"anomalies"})

  /**
   * The tool calls of the four steps return what app/tools.py computes, and
   * a second call of identify_anomalies raises because the state now holds
   * its local variable name "anomalies".
   */
  predicate AuditCalls(call: ToolCall, v: Audited)
  {
    && call(ProfileData, AuditState(v, 0)) == Ok(AuditOutput(v, 1))
    && call(IdentifyAnomalies, AuditState(v, 1)) == Ok(AuditOutput(v, 2))
    && call(GenerateRules, AuditState(v, 2)) == Ok(AuditOutput(v, 3))
    && call(ApplyRules, AuditState(v, 3)) == Ok(AuditOutput(v, 4))
    && call(IdentifyAnomalies, AuditState(v, 4)) == Err(AnomaliesPassed)
  }

  lemma InvokeAudits(records: seq<Value>)
    requires Tools.AllDicts(records)
    ensures AuditCalls(Invoke, Audit(records))
  {
    InvokeAudit(records, 1);
    InvokeAudit(records, 2);
    InvokeAudit(records, 3);
    InvokeAudit(records, 4);
    InvokeAuditAgain(Audit(records));
  }

  lemma InvokeAuditAgain(v: Audited)
    ensures Invoke(IdentifyAnomalies, AuditState(v, 4)) == Err(AnomaliesPassed)
  {
    var d4 := AuditState(v, 4);
    assert d4.Keys * IdentifyAnomalies.VarNames() - IdentifyAnomalies.Params() == {"anomalies"};
  }

  lemma InvokeAudit(records: seq<Value>, k: nat)
    requires Tools.AllDicts(records) && 1 <= k <= 4
    ensures Invoke(AuditTool(k), AuditState(Audit(records), k - 1)) == Ok(AuditOutput(Audit(records), k))
  {
    var v := Audit(records);
    var data := AuditState(v, k - 1);
    if k < 4 {
      InvokeOnParam(AuditTool(k), data, "data", AuditOutput(v, k));
    } else {
      InvokeWithParams(ApplyRules, data);
    }
  }

  /** The k-th step (1 to 4) logs its tool's output and moves on along the plain edge. */
  lemma AuditStep(call: ToolCall, tools: map<string, Tool>, id: string, v: Audited, k: nat, fuel: nat)
    requires DataQualityRegistered(tools) && AuditCalls(call, v)
    requires 1 <= k <= 4 && fuel > 0
    ensures var g := DataQuality().ToGraph(id);
            Exec(call, tools, g, AuditState(v, k - 1), Some(AuditNode(k)), fuel)
            == Prepend([Step(AuditNode(k), AuditOutput(v, k))],
                       Exec(call, tools, g, AuditState(v, k), Some(AuditNode(k + 1)), fuel - 1))
  {
    var g := DataQuality().ToGraph(id);
    var d := AuditState(v, k);
    AuditStateMerges(v, k);
    assert Wins(g.edges, AuditNode(k), d, k - 1);
    NextNodeIsWinner(g, g.nodes[AuditNode(k)], d, k - 1);
    CallStep(call, tools, g, AuditState(v, k - 1), AuditNode(k), AuditTool(k), AuditOutput(v, k), Some(AuditNode(k + 1)), fuel);
  }

  /** The log of the four tool steps and the first visit of the condition node. */
  function AuditLog(v: Audited): seq<Step>
  {
    [Step("profile_data", AuditOutput(v, 1)), Step("identify_anomalies", AuditOutput(v, 2)),
     Step("generate_rules", AuditOutput(v, 3)), Step("apply_rules", AuditOutput(v, 4)),
     Step("check_anomalies", map[])]
  }

  /** The states before and after each of the four tool steps. */
  function AuditStates(v: Audited): (r: seq<StateData>)
    ensures |r| == 5 && forall j :: 0 <= j < 5 ==> r[j] == AuditState(v, j)
  {
    seq(5, j requires 0 <= j < 5 => AuditState(v, j))
  }

  /** The four tool steps of the log. */
  function AuditSteps(v: Audited): (r: seq<Step>)
    ensures |r| == 4 && forall j :: 0 <= j < 4 ==> r[j] == Step(AuditNode(j + 1), AuditOutput(v, j + 1))
  {
    seq(4, j requires 0 <= j < 4 => Step(AuditNode(j + 1), AuditOutput(v, j + 1)))
  }

  lemma AuditLogSplits(v: Audited)
    ensures AuditLog(v)[..4] == AuditSteps(v)
  {
  }

  /** The four tool steps form a chain that ends at the condition node. */
  lemma AuditAlong(call: ToolCall, tools: map<string, Tool>, id: string, v: Audited)
    requires DataQualityRegistered(tools) && AuditCalls(call, v)
    ensures Along(call, tools, DataQuality().ToGraph(id), AuditStates(v), AuditSteps(v), Some("check_anomalies"))
  {
    var g := DataQuality().ToGraph(id);
    var states, steps := AuditStates(v), AuditSteps(v);
    forall j, f: nat | 0 <= j < 4 && f > 0
      ensures StepAt(call, tools, g, states, steps, Some("check_anomalies"), j, f)
    {
      AuditStep(call, tools, id, v, j + 1, f);
      assert NodeAfter(steps, Some("check_anomalies"), j) == Some(AuditNode(j + 2));
    }
  }

  /** The run reaches the condition node in the state after the fourth step, having logged the four tool steps. */
  lemma AuditFrom(call: ToolCall, tools: map<string, Tool>, id: string, v: Audited, fuel: nat)
    requires DataQualityRegistered(tools) && AuditCalls(call, v) && fuel >= 4
    ensures var g := DataQuality().ToGraph(id);
            Exec(call, tools, g, AuditState(v, 0), Some("profile_data"), fuel)
            == Prepend(AuditLog(v)[..4], Exec(call, tools, g, AuditState(v, 4), Some("check_anomalies"), fuel - 4))
  {
    AuditAlong(call, tools, id, v);
    ExecAlong(call, tools, DataQuality().ToGraph(id), AuditStates(v), AuditSteps(v), Some("check_anomalies"), fuel);
    AuditLogSplits(v);
  }

  /** At most five anomalies send check_anomalies to "end". */
  lemma AuditExit(call: ToolCall, tools: map<string, Tool>, id: string, v: Audited, fuel: nat)
    requires v.anomalies <= 5 && fuel > 0
    ensures Exec(call, tools, DataQuality().ToGraph(id), AuditState(v, 4), Some("check_anomalies"), fuel)
            == Trace(Finished, AuditState(v, 4), Some(End), [Step("check_anomalies", map[])])
  {
    var g := DataQuality().ToGraph(id);
    var d := AuditState(v, 4);
    assert d["anomalies"] == Int(v.anomalies);
    assert !Taken(g.edges[4], d);
    assert Wins(g.edges, "check_anomalies", d, 5);
    NextNodeIsWinner(g, g.nodes["check_anomalies"], d, 5);
    SilentStep(call, tools, g, d, "check_anomalies", Some(End), fuel);
  }

  /**
   * More than five anomalies send check_anomalies back to identify_anomalies,
   * whose call now raises before logging anything.
   */
  lemma AuditRevisit(call: ToolCall, tools: map<string, Tool>, id: string, v: Audited, fuel: nat)
    requires DataQualityRegistered(tools) && AuditCalls(call, v)
    requires v.anomalies > 5 && fuel > 1
    ensures Exec(call, tools, DataQuality().ToGraph(id), AuditState(v, 4), Some("check_anomalies"), fuel)
            == Trace(ToolRaised(AnomaliesPassed), AuditState(v, 4), Some("identify_anomalies"), [Step("check_anomalies", map[])])
  {
    var g := DataQuality().ToGraph(id);
    var d := AuditState(v, 4);
    assert d["anomalies"] == Int(v.anomalies);
    assert Wins(g.edges, "check_anomalies", d, 4);
    NextNodeIsWinner(g, g.nodes["check_anomalies"], d, 4);
    SilentStep(call, tools, g, d, "check_anomalies", Some("identify_anomalies"), fuel);
    assert ExecuteNode(call, tools, g.nodes["identify_anomalies"], d) == Err(AnomaliesPassed);
  }

  /**
   * From a state holding only a list of dict records with at most five
   * anomalous ones, the data-quality workflow runs its four tools and the
   * condition once, then leaves for "end".
   */
  lemma DataQualityExits(tools: map<string, Tool>, id: string, records: seq<Value>, fuel: nat)
    requires DataQualityRegistered(tools) && Tools.AllDicts(records)
    requires Tools.AnomalyCount(records) <= 5 && fuel >= 5
    ensures var t := Exec(Invoke, tools, DataQuality().ToGraph(id), map["data" := List(records)], Some("profile_data"), fuel);
            && t.halt == Finished && t.current == Some(End) && t.steps == AuditLog(Audit(records))
            && t.data == AuditState(Audit(records), 4)
  {
    InvokeAudits(records);
    AuditRunExits(Invoke, tools, id, Audit(records), fuel);
  }

  lemma AuditRunExits(call: ToolCall, tools: map<string, Tool>, id: string, v: Audited, fuel: nat)
    requires DataQualityRegistered(tools) && AuditCalls(call, v)
    requires v.anomalies <= 5 && fuel >= 5
    ensures var t := Exec(call, tools, DataQuality().ToGraph(id), AuditState(v, 0), Some("profile_data"), fuel);
            && t.halt == Finished && t.current == Some(End) && t.steps == AuditLog(v) && t.data == AuditState(v, 4)
  {
    AuditFrom(call, tools, id, v, fuel);
    AuditExit(call, tools, id, v, fuel - 4);
    assert AuditLog(v)[..4] + [Step("check_anomalies", map[])] == AuditLog(v);
  }

  /**
   * With more than five anomalous records the loop goes back to
   * identify_anomalies, and that second call raises "unexpected keyword
   * argument 'anomalies'": the name is a local variable of the tool, so the
   * engine passes the state's "anomalies" entry to it. The run stops after
   * five logged steps.
   */
  lemma DataQualityRaises(tools: map<string, Tool>, id: string, records: seq<Value>, fuel: nat)
    requires DataQualityRegistered(tools) && Tools.AllDicts(records)
    requires Tools.AnomalyCount(records) > 5 && fuel >= 6
    ensures var t := Exec(Invoke, tools, DataQuality().ToGraph(id), map["data" := List(records)], Some("profile_data"), fuel);
            && t.halt == ToolRaised(UnexpectedKeyword({"anomalies"})) && t.current == Some("identify_anomalies")
            && t.steps == AuditLog(Audit(records)) && t.data == AuditState(Audit(records), 4)
  {
    InvokeAudits(records);
    AuditRunRaises(Invoke, tools, id, Audit(records), fuel);
  }

  lemma AuditRunRaises(call: ToolCall, tools: map<string, Tool>, id: string, v: Audited, fuel: nat)
    requires DataQualityRegistered(tools) && AuditCalls(call, v)
    requires v.anomalies > 5 && fuel >= 6
    ensures var t := Exec(call, tools, DataQuality().ToGraph(id), AuditState(v, 0), Some("profile_data"), fuel);
            && t.halt == ToolRaised(AnomaliesPassed) && t.current == Some("identify_anomalies")
            && t.steps == AuditLog(v) && t.data == AuditState(v, 4)
  {
    AuditFrom(call, tools, id, v, fuel);
    AuditRevisit(call, tools, id, v, fuel - 4);
    assert AuditLog(v)[..4] + [Step("check_anomalies", map[])] == AuditLog(v);
  }

  // ---------------------------------------------------------------------------
  // The simple chain
  // ---------------------------------------------------------------------------

  /**
   * With start_node, middle_node and end_node unregistered (as they are in
   * app/tools.py, `BuiltinsLeaveSimpleUnregistered`), the chain
   * start -> middle -> end logs three empty results and leaves the state as
   * it was; the run ends because "end" has no outgoing edge.
   */
  lemma SimpleRun(call: ToolCall, tools: map<string, Tool>, id: string, data: StateData, fuel: nat)
    requires SimpleUnregistered(tools)
    requires fuel >= 3
    ensures var t := Exec(call, tools, Simple().ToGraph(id), data, Some(Simple().startNode), fuel);
            && t.halt == Finished && t.data == data && t.current == None
            && t.steps == [Step("start", map[]), Step("middle", map[]), Step("end", map[])]
  {
    var g := Simple().ToGraph(id);
    assert data + map[] == data;
    assert Wins(g.edges, "start", data, 0);
    NextNodeIsWinner(g, g.nodes["start"], data, 0);
    assert Wins(g.edges, "middle", data, 1);
    NextNodeIsWinner(g, g.nodes["middle"], data, 1);
    NoNextNode(g, g.nodes["end"], data);
    ExecUnfold(call, tools, g, data, "start", fuel);
    ExecUnfold(call, tools, g, data, "middle", fuel - 1);
    ExecUnfold(call, tools, g, data, "end", fuel - 2);
  }
}
