/**
 * The four example graphs of app/workflows.py, as the values their
 * constructors return: a node map, an ordered edge list and a start node.
 * The guards of the edges are written in the restricted condition form of
 * `Models.Cond`; the `condition` text of a condition node is kept verbatim,
 * since the engine never evaluates it.
 */
module Workflows {
  import opened Wrappers
  import opened Models
  import Engine

  /** The dict `{"nodes": ..., "edges": ..., "start_node": ...}` a constructor returns. */
  datatype WorkflowDef = WorkflowDef(nodes: map<string, Node>, edges: seq<Edge>, startNode: string)
  {
    /** The graph `create_graph` stores for this definition under `id`. */
    function ToGraph(id: string): Graph
    {
      Graph(id, nodes, edges, startNode)
    }
  }

  /** The target name the three looping workflows use to leave the graph; it is not a node. */
  const End: string := "end"

  /** A function node whose id is its key. */
  function FunctionNode(id: string, tool: string): Node
  {
    Node(id, "function", Some(tool), None)
  }

  /** A condition node carrying its (never evaluated) condition text. */
  function ConditionNode(id: string, text: string): Node
  {
    Node(id, "condition", None, Some(text))
  }

  function Plain(from: string, to: string): Edge
  {
    Edge(from, to, None)
  }

  function Guarded(from: string, to: string, c: Cond): Edge
  {
    Edge(from, to, Some(c))
  }

  /**
   * The shape every example shares: each node's id is its key, the start
   * node is a node, every edge leaves a node, and every edge enters a node
   * or the name "end".
   */
  predicate Closed(w: WorkflowDef)
  {
    && (forall k :: k in w.nodes ==> w.nodes[k].id == k)
    && w.startNode in w.nodes
    && (forall i :: 0 <= i < |w.edges| ==> w.edges[i].fromNode in w.nodes)
    && (forall i :: 0 <= i < |w.edges| ==> w.edges[i].toNode in w.nodes || w.edges[i].toNode == End)
  }

  /**
   * Edges `i` and `j` leave the same node with guards that compare the same
   * operand with the same bound by negated operators.
   */
  predicate ComplementaryGuards(w: WorkflowDef, i: nat, j: nat)
  {
    && i < |w.edges| && j < |w.edges|
    && w.edges[i].fromNode == w.edges[j].fromNode
    && w.edges[i].condition.Some? && w.edges[i].condition.value.Compare?
    && w.edges[j].condition.Some? && w.edges[j].condition.value.Compare?
    && var c, d := w.edges[i].condition.value, w.edges[j].condition.value;
       c.lhs == d.lhs && c.rhs == d.rhs && d.op == Engine.Negate(c.op)
  }

  /** For complementary guards, exactly one edge is taken unless both conditions raise. */
  lemma ExactlyOneGuardTaken(w: WorkflowDef, i: nat, j: nat, data: StateData)
    requires ComplementaryGuards(w, i, j)
    requires Engine.EvalCond(w.edges[i].condition.value, data).Some?
    ensures Engine.Taken(w.edges[i], data) != Engine.Taken(w.edges[j], data)
  {
    var c := w.edges[i].condition.value;
    Engine.NegatedGuardsComplement(c.lhs, c.op, c.rhs, data);
  }

  // ---------------------------------------------------------------------------
  // Option A: code review
  // ---------------------------------------------------------------------------

  /** `state.get('quality_score', 0) <op> 5`. */
  function QualityGuard(op: CmpOp): Cond
  {
    Compare(Get("quality_score", Int(0)), op, 5)
  }

  /** create_code_review_workflow. */
  function CodeReview(): WorkflowDef
  {
    WorkflowDef(
      map[
        "extract" := FunctionNode("extract", "extract_functions"),
        "check_complexity" := FunctionNode("check_complexity", "check_complexity"),
        "detect_issues" := FunctionNode("detect_issues", "detect_issues"),
        "suggest_improvements" := FunctionNode("suggest_improvements", "suggest_improvements"),
        "loop_condition" := ConditionNode("loop_condition", "state.get('quality_score', 0) < 5")
      ],
      [
        Plain("extract", "check_complexity"),
        Plain("check_complexity", "detect_issues"),
        Plain("detect_issues", "suggest_improvements"),
        Plain("suggest_improvements", "loop_condition"),
        Guarded("loop_condition", "extract", QualityGuard(Lt)),
        Guarded("loop_condition", End, QualityGuard(Ge))
      ],
      "extract")
  }

  /**
   * create_code_review_workflow is closed, starts at "extract", and its
   * condition node leaves by complementary guards, back to "extract" or to "end".
   */
  lemma CodeReviewShape()
    ensures var w := CodeReview(); Closed(w)
    ensures var w := CodeReview(); w.startNode == "extract" && End !in w.nodes && |w.edges| == 6
    ensures var w := CodeReview(); ComplementaryGuards(w, 4, 5)
    ensures var w := CodeReview(); w.edges[4].toNode == "extract" && w.edges[5].toNode == End
  {
  }

  // ---------------------------------------------------------------------------
  // Option B: summarization and refinement
  // ---------------------------------------------------------------------------

  /** `len(state.get('refined_summary', '')) <op> 200`. */
  function LengthGuard(op: CmpOp): Cond
  {
    Compare(LenOf("refined_summary", Str("")), op, 200)
  }

  /** create_summarization_workflow. */
  function Summarization(): WorkflowDef
  {
    WorkflowDef(
      map[
        "split_text" := FunctionNode("split_text", "split_text"),
        "generate_summaries" := FunctionNode("generate_summaries", "generate_summaries"),
        "merge_summaries" := FunctionNode("merge_summaries", "merge_summaries"),
        "refine_summary" := FunctionNode("refine_summary", "refine_summary"),
        "check_length" := ConditionNode("check_length", "len(state.get('refined_summary', '')) >= 200")
      ],
      [
        Plain("split_text", "generate_summaries"),
        Plain("generate_summaries", "merge_summaries"),
        Plain("merge_summaries", "refine_summary"),
        Plain("refine_summary", "check_length"),
        Guarded("check_length", "refine_summary", LengthGuard(Ge)),
        Guarded("check_length", End, LengthGuard(Lt))
      ],
      "split_text")
  }

  /**
   * create_summarization_workflow is closed, starts at "split_text", and its
   * condition node leaves by complementary guards, back to "refine_summary" or to "end".
   */
  lemma SummarizationShape()
    ensures var w := Summarization(); Closed(w)
    ensures var w := Summarization(); w.startNode == "split_text" && End !in w.nodes && |w.edges| == 6
    ensures var w := Summarization(); ComplementaryGuards(w, 4, 5)
    ensures var w := Summarization(); w.edges[4].toNode == "refine_summary" && w.edges[5].toNode == End
  {
  }

  // ---------------------------------------------------------------------------
  // Option C: data quality
  // ---------------------------------------------------------------------------

  /** `state.get('anomalies', 0) <op> 5`. */
  function AnomalyGuard(op: CmpOp): Cond
  {
    Compare(Get("anomalies", Int(0)), op, 5)
  }

  /** create_data_quality_workflow. */
  function DataQuality(): WorkflowDef
  {
    WorkflowDef(
      map[
        "profile_data" := FunctionNode("profile_data", "profile_data"),
        "identify_anomalies" := FunctionNode("identify_anomalies", "identify_anomalies"),
        "generate_rules" := FunctionNode("generate_rules", "generate_rules"),
        "apply_rules" := FunctionNode("apply_rules", "apply_rules"),
        "check_anomalies" := ConditionNode("check_anomalies", "state.get('anomalies', 0) > 5")
      ],
      [
        Plain("profile_data", "identify_anomalies"),
        Plain("identify_anomalies", "generate_rules"),
        Plain("generate_rules", "apply_rules"),
        Plain("apply_rules", "check_anomalies"),
        Guarded("check_anomalies", "identify_anomalies", AnomalyGuard(Gt)),
        Guarded("check_anomalies", End, AnomalyGuard(Le))
      ],
      "profile_data")
  }

  /**
   * create_data_quality_workflow is closed, starts at "profile_data", and its
   * condition node leaves by complementary guards, back to "identify_anomalies" or to "end".
   */
  lemma DataQualityShape()
    ensures var w := DataQuality(); Closed(w)
    ensures var w := DataQuality(); w.startNode == "profile_data" && End !in w.nodes && |w.edges| == 6
    ensures var w := DataQuality(); ComplementaryGuards(w, 4, 5)
    ensures var w := DataQuality(); w.edges[4].toNode == "identify_anomalies" && w.edges[5].toNode == End
  {
  }

  // ---------------------------------------------------------------------------
  // The simple chain
  // ---------------------------------------------------------------------------

  /** create_simple_workflow: start -> middle -> end, with no guard; here "end" is a node. */
  function Simple(): WorkflowDef
  {
    WorkflowDef(
      map[
        "start" := FunctionNode("start", "start_node"),
        "middle" := FunctionNode("middle", "middle_node"),
        "end" := FunctionNode("end", "end_node")
      ],
      [
        Plain("start", "middle"),
        Plain("middle", "end")
      ],
      "start")
  }

  /**
   * create_simple_workflow is closed, starts at "start", has a node named
   * "end", and none of its edges is guarded.
   */
  lemma SimpleShape()
    ensures var w := Simple(); Closed(w)
    ensures var w := Simple(); w.startNode == "start" && End in w.nodes
    ensures var w := Simple(); forall i :: 0 <= i < |w.edges| ==> w.edges[i].condition.None?
  {
  }
}
