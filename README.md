# Workflow-graph engine, modelled in Dafny

This project models the core of a small workflow-graph executor:

- `WorkflowEngine` (app/engine.py) stores graphs and runs them. A run starts at the graph's start node. For each node it executes the node, shallow-merges the node's output dict into the run's state, logs a `{node, result}` step, and moves to the first edge, in list order, that leaves the node and may be taken. It stops when the current node is unset, empty or not a node of the graph.
- The tool registry and the leaf tools of app/tools.py.
- The four example graphs of app/workflows.py.
- The records of app/models.py.

The modules are:

- `Wrappers`: Option and Result.
- `Models`: the node, edge and graph records and the values a state holds. `State` and `ExecutionLog` are classes, since the engine changes them in place.
- `PyStr`: the Python string built-ins the tools use. These are `in`, `str.count`, `str.split`, `str.join`, `str(int)` and slicing.
- `Tools`: the leaf computations. `detect_issues` and `suggest_improvements` build their result step by step. They are modelled twice: as functions, which `ToolRegistry.Apply` uses, and as methods in the source's step-by-step form. The methods are used by nothing else; they exist to show that form proved equal to the functions.
- `ToolRegistry`: the tool functions, with their parameter names and `co_varnames`, and the keyword-filtered call the engine makes. It also holds the mutable `Registry`.
- `Engine`:
  - edge conditions;
  - next-node choice;
  - node execution;
  - `Exec`, a function specifying the run loop;
  - `RunLoop`, the `while` loop over a live `State`, proved equal to `Exec`;
  - the `WorkflowEngine` class.
- `Workflows`: the four graph constructors.
- `WorkflowRuns`: what the engine does with each example graph and the registered tools.

`Exec` is stated for any tool-calling function. The engine uses `ToolRegistry.Invoke` as that function. The run has no bound in the source, so `Exec` and `RunLoop` take a step budget. A run that would execute more nodes than its budget stops with `OutOfFuel`, and `RunGraph` reports that as `OutOfSteps`.

Some behaviour of the source that the model makes explicit:

- The engine passes a tool every state entry whose key is among the function's `__code__.co_varnames`, and that set includes local variable names. In the data-quality workflow, a state with more than five anomalous records sends the run back to `identify_anomalies`. The state now holds `anomalies`, which is a local variable of that function. The second call therefore raises "unexpected keyword argument", and the exception escapes `run_graph` (`WorkflowRuns.DataQualityRaises`).
- In the summarization workflow, a text of more than 1000 characters gives at least eleven chunks. The merged summaries are then at least 200 characters long, and `refine_summary` keeps rewriting the same 200 characters. The refinement loop never exits (`WorkflowRuns.SummarizationLoops`). A text of at most 1000 characters leaves after one check (`WorkflowRuns.SummarizationExits`).
- From a state holding only a string `code`, the code-review loop exits after five steps, because the quality score is 9 or 10 (`WorkflowRuns.CodeReviewRun`). Other initial states can raise at the first node through the keyword-filtered call. A state without `code` raises a missing-argument error. A state that already holds `functions`, a local of `extract_functions`, raises "unexpected keyword". The model states no lemma about those runs.

## Model

| member | source | states |
|---|---|---|
| Models.State.constructor | app/models.py:21-24 | a live state holds the given data, current node (optional) and run id |
| Models.ExecutionLog.constructor | app/models.py:26-28 | a log holds its run id and steps |
| Models.Len | app/engine.py:68 | Python `len` is defined exactly on strings, lists and dicts |
| Models.Iterate | app/tools.py:57 | iterating a value yields as many items as its `len` |
| PyStr.Contains | app/tools.py:30 | `sub in s`: some position of `s` starts an occurrence of `sub`; `StrCountPositiveIffContains` ties it to `str.count` |
| PyStr.StrCount | app/tools.py:18 | non-overlapping occurrences of a non-empty substring fit in the string |
| PyStr.StrCountPositiveIffContains | app/tools.py:18 | `s.count(sub) > 0` exactly when `sub in s` |
| PyStr.SplitOn | app/tools.py:23 | `s.split(c)` has at least one piece |
| PyStr.SplitOnCount | app/tools.py:23 | `s.split(c)` has one piece more than `c` occurs in `s` |
| PyStr.SplitOnPiecesFree | app/tools.py:23 | no piece of `s.split(c)` contains `c` |
| PyStr.JoinSplitOn | app/tools.py:23 | joining the pieces of `s.split(c)` with `c` gives back `s` |
| PyStr.SplitOnJoin | app/tools.py:57 | splitting a join of separator-free strings gives back the strings |
| PyStr.JoinWith | app/tools.py:57 | `sep.join(xs)`; `JoinWithLength`, `JoinSplitOn` and `SplitOnJoin` state its length and that `split` inverts it |
| PyStr.JoinWithPieceAt | app/tools.py:57 | piece `i` of `sep.join(xs)` starts after the pieces before it and one separator for each, and a separator follows every piece but the last |
| PyStr.JoinWithLength | app/tools.py:57 | a join's length is the pieces' total length plus one separator between each pair |
| PyStr.NatToString | app/tools.py:52 | `str(n)` is never empty |
| PyStr.NatToStringRoundTrip | app/tools.py:52 | `str(n)` is all digits and reads back as `n` |
| PyStr.NatToStringShort | app/tools.py:52 | numbers below 10 have one digit and below 100 at most two |
| PyStr.Take | app/tools.py:62 | `s[:n]` is a prefix of `s` of length `min(len(s), n)` |
| Tools.FunctionCount | app/tools.py:15-19 | the count of "def" is positive exactly when the code contains "def", and three times it fits in the code |
| Tools.Complexity | app/tools.py:21-25 | complexity is `min((newlines + 1) // 10, 10)`, within 0..10 |
| Tools.IssueCount | app/tools.py:27-34 | issues are within 0..2: 0 exactly when there is no "TODO" and the code has at most 1000 characters; 2 exactly when both hold |
| Tools.DetectIssues | app/tools.py:27-34 | the counter updates return `{"issues": IssueCount(code)}`. `ToolRegistry.Apply` uses `IssueCount`; this method only shows the source's step-by-step form proved against it |
| Tools.Suggestions | app/tools.py:36-40 | at most one suggestion, present exactly when the code contains "print(", and it is the logging advice |
| Tools.QualityScore | app/tools.py:42 | the score is 9 or 10, and 9 exactly when the code contains "print(" |
| Tools.SuggestImprovements | app/tools.py:36-43 | the appending method returns the suggestions and the score `10 - len(suggestions)`. `ToolRegistry.Apply` uses `Suggestions` and `QualityScore`; this method only shows the source's step-by-step form proved against them |
| Tools.Chunks | app/tools.py:45-48 | the number of chunks is the text length divided by 100, rounded up |
| Tools.ChunksConcat | app/tools.py:47 | concatenating the chunks gives back the text |
| Tools.ChunkSizes | app/tools.py:47 | every chunk but the last has 100 characters; every chunk has 1 to 100 |
| Tools.ChunkAt | app/tools.py:47 | chunk `i` is `text[100*i : 100*i+100]` |
| Tools.Summaries | app/tools.py:50-53 | one summary per chunk |
| Tools.SummaryNumbers | app/tools.py:52 | summary `i` is "Summary of chunk " followed by the digits of `i + 1` |
| Tools.MergedSummary | app/tools.py:55-58 | the merged text is the summaries' total length plus one space between each pair |
| Tools.MergedPieceAt | app/tools.py:57 | summary `i` sits in the merged text after the summaries before it plus one space each, and a space follows every summary but the last |
| Tools.MergedSummarySplits | app/tools.py:57 | splitting the merged text on spaces gives back space-free summaries. The summaries `generate_summaries` produces contain spaces ("Summary of chunk 1"), so this round trip does not apply to the workflow's own data |
| Tools.MergedSummaryFits | app/tools.py:50-62 | the merged summaries of `n` chunks are shorter than 200 characters exactly when `n <= 10` |
| Tools.Refined | app/tools.py:60-63 | the refined summary is the prefix of length `min(len, 200)` |
| Tools.RefinedIdempotent | app/tools.py:62 | refining a refined summary changes nothing |
| Tools.AnomalyCount | app/tools.py:71-74 | the anomaly count is at most the number of records, and 0 exactly when no record has a string longer than 50 |
| Tools.AnomalyCountAppend | app/tools.py:73 | the anomaly count of two record lists adds up |
| ToolRegistry.Tool.VarNames | app/engine.py:56 | a function's `co_varnames` contain its parameters |
| ToolRegistry.AsStrings | app/tools.py:57 | a list reads as strings exactly when every item is a string, and then item by item |
| ToolRegistry.AsStringsStrs | app/tools.py:55-58 | a list of strings reads back as those strings |
| ToolRegistry.Apply | app/tools.py:15-93 | a tool body given exactly its parameters returns a dict with exactly its output keys |
| Tools.ColumnsAreKeys | app/tools.py:68 | `list(d.keys())` is what iterating the record yields, and a string is a column exactly when it is a key of the record |
| ToolRegistry.ProfileDataProfiles | app/tools.py:65-69 | `profile_data` succeeds exactly on an empty list or one starting with a dict; `num_records` is the number of records; the columns are what iterating the first record yields, so a string is a column exactly when it is a key of that record; an empty list gives 0 and no columns |
| ToolRegistry.Invoke | app/engine.py:56 | the keyword-filtered call; what it promises is stated by `InvokeChecksArguments`, `InvokeWithParams` and `InvokeSeesOnlyVarNames` |
| ToolRegistry.InvokeChecksArguments | app/engine.py:56 | a keyword-filtered call succeeds only when the state holds every parameter and no other `co_varnames` name, and then returns the output keys; a local-variable key raises "unexpected keyword"; a missing parameter raises |
| ToolRegistry.InvokeWithParams | app/engine.py:56 | on a state holding every parameter and no local-variable name, the call runs the body on exactly the parameters |
| ToolRegistry.InvokeSeesOnlyVarNames | app/engine.py:56 | two states that agree on the `co_varnames` keys give the same call result |
| ToolRegistry.BuiltinsByName | app/tools.py:96-108 | each registered tool is under its own name, and exactly the twelve tools other than start/middle/end_node are registered |
| ToolRegistry.Builtins | app/tools.py:96-108 | the registry as the twelve registrations leave it; `BuiltinsByName` and `Registry.RegisterBuiltins` state it |
| ToolRegistry.Registry.constructor | app/tools.py:4 | the registry starts empty |
| ToolRegistry.Registry.Register | app/tools.py:6-8 | `register_tool` stores or overwrites one name and leaves the others |
| ToolRegistry.Registry.Get | app/tools.py:10-12 | `get_tool` returns the function registered under the name, or None exactly when there is none |
| ToolRegistry.Registry.RegisterBuiltins | app/tools.py:96-108 | the twelve registrations in order; from an empty registry they give `Builtins()` |
| Engine.Negate | app/workflows.py:18-19 | the negated operator holds exactly when the original does not |
| Engine.Lookup | app/engine.py:68 | `state.get(key, default)` inside a condition; `EvalCond` and the scenario lemmas use it |
| Engine.EvalCond | app/engine.py:66-71 | an empty or unparsable condition never evaluates to a value (it is either unconditional or raises) |
| Engine.EvalCondDefault | app/engine.py:68 | a key absent from the state reads as the condition's default |
| Engine.EvalCondRaises | app/engine.py:67-71 | an ordering comparison raises exactly when the value is not a number, `==` and `!=` never raise, and a `len` comparison raises exactly when the value has no length |
| Engine.EvalCondCompares | app/engine.py:68 | a comparison that does not raise compares the number or the length with the integer; a non-number is unequal to every integer |
| Engine.NegatedGuardsComplement | app/engine.py:67-71 | guards with negated operators raise together, and otherwise exactly one holds |
| Engine.Taken | app/engine.py:66-73 | an edge with no condition or an empty one is taken; otherwise it is taken exactly when its condition evaluates to true, and a raising condition is not taken; `NegatedGuardsComplement` and `FirstMatchWins` use it |
| Engine.FirstMatch | app/engine.py:63-74 | the scan over the edges in list order; `FirstMatchWins` proves it returns the target of the first edge leaving the node that is taken, and None when there is none |
| Engine.NextNode | app/engine.py:63-74 | `_get_next_node`; `NextNodeIsEdgeTarget`, `NextNodeIsWinner` and `NoNextNode` state what it returns |
| Engine.FirstMatchWins | app/engine.py:63-74 | the scan finds a target exactly when some edge is the first one leaving the node that may be taken, and then it is that edge's target |
| Engine.NextNodeIsEdgeTarget | app/engine.py:64-73 | a next node is the target of an edge leaving the node's id |
| Engine.NextNodeIsWinner | app/engine.py:63-73 | the first edge that may be taken decides the next node |
| Engine.NoNextNode | app/engine.py:74 | the next node is None exactly when no edge leaving the node may be taken |
| Engine.ExecuteNode | app/engine.py:51-61 | a function node naming a registered tool returns the tool call's result; every other node returns `{}` |
| Engine.ConditionTextIgnored | app/engine.py:58-60 | a node's condition text does not affect its output |
| Engine.Active | app/engine.py:32-35 | the loop goes on exactly when the current node is set, non-empty and a node of the graph; `ExecHalts` states that runs stop only there |
| Engine.Exec | app/engine.py:32-44 | the run loop as a function of the initial data, start node and step budget; `ExecUnfold`, `ExecHalts`, `ExecMergesLog`, `ExecStepResults`, `ExecStepsChained`, `ExecEnds` and `ExecFuelIrrelevant` state its properties, and `RunLoop` is proved equal to it |
| Engine.ExecUnfold | app/engine.py:32-44 | one pass of the loop logs the node's output and goes on from the next node in the merged state |
| Engine.MergeIsShallow | app/engine.py:39 | the merge overwrites the output's keys and keeps every other key |
| Engine.ExecHalts | app/engine.py:32-35 | a run finishes exactly when the current node is unset, empty or unknown; a raising tool leaves its node current; the log never exceeds the budget; every logged node is a node |
| Engine.StartOutsideGraph | app/engine.py:32-35 | a start node outside the graph gives an empty log and the initial state |
| Engine.ExecMergesLog | app/engine.py:39-40 | the final state is the initial state with every logged result merged in, in order |
| Engine.ExecEnds | app/engine.py:32-44 | the log starts at the start node, and the node current at the end is the one chosen after the last logged node |
| Engine.ExecStepResults | app/engine.py:38-40 | each logged result is the output of the logged node on the state merged so far |
| Engine.ExecStepsChained | app/engine.py:43-44 | each logged node after the first is the node chosen after the one before it |
| Engine.ExecAlong | app/engine.py:32-44 | a run that takes a chain of single steps logs the whole chain, in order, and goes on from the chain's end |
| Engine.OutOfFuelBelow | app/engine.py:32 | a run that spends its budget also spends every smaller budget, logging one step per unit |
| Engine.ExecFuelIrrelevant | app/engine.py:32 | a run that stopped within its budget is the same run under any larger budget |
| Engine.AcyclicRunStops | app/engine.py:32-44 | a run of a graph whose edges decrease a ranking stops within a budget above the start's rank |
| Engine.Report | app/engine.py:47 | a finished run reports its final state and log; a raising tool reports the error |
| Engine.FreshId | app/engine.py:15 | a new id differs from every id in use |
| Engine.RunLoop | app/engine.py:30-44 | the while loop leaves the live state, the current node and the log as `Exec` describes |
| Engine.WorkflowEngine.constructor | app/engine.py:9-12 | an engine starts with no graphs, runs or logs |
| Engine.WorkflowEngine.CreateGraph | app/engine.py:14-18 | the graph is stored unchecked under a new id; other graphs, runs and logs are unchanged |
| Engine.WorkflowEngine.GetRunState | app/engine.py:76-80 | the live data of a known run, and None exactly for an unknown id |
| Engine.WorkflowEngine.NewRun | app/engine.py:25-28 | a new run id, with a fresh state (a copy of the initial data, at the start node) and an empty log registered under it |
| Engine.WorkflowEngine.RunGraph | app/engine.py:20-48 | an unknown graph raises "not found" with no run or log created; otherwise the outcome, the live state and the stored log are those of `Exec`, and the steps are stored only when the loop ends normally |
| Workflows.CodeReview | app/workflows.py:5-21 | the code-review graph; `CodeReviewShape` states its shape |
| Workflows.Summarization | app/workflows.py:24-40 | the summarization graph; `SummarizationShape` states its shape |
| Workflows.DataQuality | app/workflows.py:43-59 | the data-quality graph; `DataQualityShape` states its shape |
| Workflows.Simple | app/workflows.py:61-71 | the three-node chain; `SimpleShape` states its shape |
| Workflows.ExactlyOneGuardTaken | app/workflows.py:18-19 | of two complementary guards whose condition evaluates, exactly one edge is taken |
| Workflows.CodeReviewShape | app/workflows.py:5-21 | every node's id is its key, start and edge sources are nodes, targets are nodes or "end", and the two guards are complementary, back to "extract" or to "end" |
| Workflows.SummarizationShape | app/workflows.py:24-40 | the same shape, with the guards leading back to "refine_summary" or to "end" |
| Workflows.DataQualityShape | app/workflows.py:43-59 | the same shape, with the guards leading back to "identify_anomalies" or to "end" |
| Workflows.SimpleShape | app/workflows.py:61-71 | the chain is closed, starts at "start", has a node named "end", and no edge is guarded |
| WorkflowRuns.BuiltinsLeaveSimpleUnregistered | app/tools.py:86-108 | start_node, middle_node and end_node are not registered |
| WorkflowRuns.BuiltinsRegisterCodeReview | app/tools.py:97-100 | the code-review tools are registered under their names |
| WorkflowRuns.BuiltinsRegisterSummarization | app/tools.py:101-104 | the summarization tools are registered under their names |
| WorkflowRuns.BuiltinsRegisterDataQuality | app/tools.py:105-108 | the data-quality tools are registered under their names |
| WorkflowRuns.CallStep | app/engine.py:38-44 | a function node whose tool returns `out` logs `out` and goes on in the merged state |
| WorkflowRuns.SilentStep | app/engine.py:58-61 | a node that calls no tool logs `{}` and leaves the state as it is |
| WorkflowRuns.InvokeOnParam | app/engine.py:56 | a one-parameter tool on a state without its local names runs its body on that one argument |
| WorkflowRuns.InvokeReviews | app/tools.py:15-43 | each code-review tool, called on the state the run reaches, returns what its body computes |
| WorkflowRuns.ReviewStep | app/workflows.py:14-17 | each analysis step logs its output and follows the plain edge |
| WorkflowRuns.ReviewExit | app/workflows.py:18-19 | a quality score of at least 5 sends the loop condition to "end", which stops the run |
| WorkflowRuns.CodeReviewRun | app/workflows.py:5-21 | from a state holding only `code`, the run logs exactly five steps and finishes at "end" with quality score 9 or 10 |
| WorkflowRuns.Summarize | app/tools.py:45-58 | the chunks concatenate back to the text, there is one summary per chunk, and the merged summary is shorter than 200 characters exactly when the text has at most 1000 |
| WorkflowRuns.InvokeSums | app/tools.py:45-63 | each summarization tool, on the state the run reaches, returns what its body computes, and refine_summary does so again on the final state |
| WorkflowRuns.SumStep | app/workflows.py:33-36 | each summarization step logs its output and follows the plain edge |
| WorkflowRuns.SumExit | app/workflows.py:38 | a refined summary shorter than 200 sends check_length to "end" |
| WorkflowRuns.SumBackEdge | app/workflows.py:37 | a refined summary of 200 characters sends check_length back to refine_summary |
| WorkflowRuns.SumRefineAgain | app/tools.py:60-63 | refining again rewrites the same summary and leaves the state unchanged |
| WorkflowRuns.SumLoop | app/workflows.py:36-38 | once in the loop, the run spends any budget and the state no longer changes |
| WorkflowRuns.SummarizationExits | app/workflows.py:24-40 | a text of at most 1000 characters gives a five-step run that finishes at "end" |
| WorkflowRuns.SummarizationLoops | app/workflows.py:24-40 | a text of more than 1000 characters never finishes: every budget is spent, after the four tool steps |
| WorkflowRuns.Audit | app/tools.py:65-74 | the record count is the number of records, the columns are the first record's keys (none for an empty list), and the anomaly count is `AnomalyCount` |
| WorkflowRuns.InvokeAudits | app/tools.py:65-84 | each data-quality tool, on the state the run reaches, returns what its body computes, and a second identify_anomalies call raises |
| WorkflowRuns.InvokeAuditAgain | app/engine.py:56 | once "anomalies" is in the state, identify_anomalies raises "unexpected keyword" |
| WorkflowRuns.AuditStep | app/workflows.py:52-55 | each data-quality step logs its output and follows the plain edge |
| WorkflowRuns.AuditExit | app/workflows.py:57 | at most five anomalies send check_anomalies to "end" |
| WorkflowRuns.AuditRevisit | app/workflows.py:56 | more than five anomalies send check_anomalies back to identify_anomalies, which raises |
| WorkflowRuns.DataQualityExits | app/workflows.py:43-59 | records with at most five anomalies give a five-step run that finishes at "end" |
| WorkflowRuns.DataQualityRaises | app/workflows.py:43-59 | records with more than five anomalies make the run raise on the second identify_anomalies, after five steps |
| WorkflowRuns.SimpleRun | app/workflows.py:61-71 | with unregistered tools, the chain logs three empty results, keeps the state and stops at the node "end" |

## Left out

- app/main.py, the HTTP layer, is not part of this model. It only routes requests to the engine and preloads the example graphs.
- `async`/`await`: nothing in the engine suspends, so runs are modelled as sequential.
- Python `eval` of edge conditions is replaced by a small condition datatype. It covers the empty string, `state.get(k, d) <op> n` and `len(state.get(k, d)) <op> n`. Any other text is `Unparsable` and is modelled as raising, so the edge is not taken.
- `__code__.co_varnames` is given per tool as an explicit set: the parameters plus the body's local names. Comprehension variables are left out, as in Python before 3.12, where comprehensions have their own scope.
- `uuid.uuid4()` is replaced by `FreshId`, which returns any id not yet in use.
- RunGraph: the source loop has no bound. The model takes a step budget, and a run that exhausts it ends with `OutOfSteps`, which the source does not have.
- Python's dynamic typing is not modelled. A tool argument of the wrong type raises `WrongType`, and duck typing (for example `count` on a list) is not followed. Numbers are integers, and floats are not modelled.
- Dict key order is not modelled for the state: `StateData` is a map. Record dicts keep their order as a sequence of pairs.
- Models.Value: a `Dict` value is a sequence of pairs and may repeat a key, which a Python dict cannot. Nothing requires distinct keys, so `Len`, `Iterate`, profile_data's columns and `Tools.IsAnomalous`/`Tools.AnomalyCount` see every pair, repeated keys included. Python's `record.values()` would see only the last value under a key. Only values with distinct keys stand for Python dicts.
- Engine.RunGraph: a raised tool exception is reported as a `ToolFailed` outcome carrying the run id, not as an exception. The run and log entries are still left behind, as in the source.
- Engine.WorkflowEngine.NewRun: the initial state is a value, so the caller's mapping cannot be changed by the run. The source's shallow `copy()` gives this only at top level, so nested lists and dicts shared with the caller are not modelled.
- ToolRegistry.Invoke has no contract of its own. What it promises is stated by `InvokeChecksArguments`, `InvokeWithParams` and `InvokeSeesOnlyVarNames`.
- WorkflowRuns scenario lemmas: each one takes any tools map that registers the workflow's tools under their names. Separate lemmas prove that the built-in registry does so.
- WorkflowRuns.SumLoop states the halt reason, the final data and the log length, but not the content of each repeated log entry.
- WorkflowRuns.SummarizationLoops states the first four logged steps and the log length, but not the content of the repeated check_length/refine_summary entries.
