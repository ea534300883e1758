/**
 * The records of the workflow engine (app/models.py) and the values that a
 * run's state holds.
 *
 * Node, Edge and Graph are never changed after they are built, so they are
 * datatypes. State and ExecutionLog are changed in place by the engine (the
 * run loop updates `data` and `current_node`, and the log's `steps` is
 * assigned at the end of a run), so they are classes.
 */
module Models {
  import opened Wrappers

  /** The JSON-like values a state may hold. A dict keeps its insertion order. */
  datatype Value =
    | Null
    | Bool(b: bool)
    | Int(i: int)
    | Str(s: string)
    | List(items: seq<Value>)
    | Dict(entries: seq<(string, Value)>)

  /** The key-value part of a run's state (`State.data`). */
  type StateData = map<string, Value>

  /** Python's `len(v)`: defined on strings, lists and dicts; None means it raises. */
  function Len(v: Value): (r: Option<nat>)
    ensures r.Some? <==> (v.Str? || v.List? || v.Dict?)
  {
    match v
    case Str(s) => Some(|s|)
    case List(xs) => Some(|xs|)
    case Dict(es) => Some(|es|)
    case _ => None
  }

  /** The integer a value stands for in a comparison: a bool is 0 or 1 in Python. */
  function AsNumber(v: Value): Option<int>
  {
    match v
    case Int(i) => Some(i)
    case Bool(b) => Some(if b then 1 else 0)
    case _ => None
  }

  /** What `for x in v` yields: characters of a string, items of a list, keys of a dict. */
  function Iterate(v: Value): (r: Option<seq<Value>>)
    ensures r.Some? ==> Len(v) == Some(|r.value|)
  {
    match v
    case Str(s) => Some(seq(|s|, i requires 0 <= i < |s| => Str([s[i]])))
    case List(xs) => Some(xs)
    case Dict(es) => Some(seq(|es|, i requires 0 <= i < |es| => Str(es[i].0)))
    case _ => None
  }

  /** Comparison operators allowed in an edge condition. */
  datatype CmpOp = Lt | Le | Gt | Ge | Eq | Ne

  /**
   * The left side of a comparison: `state.get(key, default)` or
   * `len(state.get(key, default))`.
   */
  datatype Operand =
    | Get(key: string, default: Value)
    | LenOf(key: string, default: Value)

  /**
   * The condition text of an edge. `Blank` is the empty string (falsy, so the
   * edge is unconditional); `Compare` is `<operand> <op> <integer>`; `Unparsable`
   * is any other text, whose evaluation raises.
   */
  datatype Cond =
    | Blank
    | Compare(lhs: Operand, op: CmpOp, rhs: int)
    | Unparsable

  /**
   * A node. `nodeType` is an unrestricted string ("function" and "condition"
   * are the ones the engine recognises); `functionName` and `condition` are
   * absent unless given.
   */
  datatype Node = Node(id: string, nodeType: string, functionName: Option<string>, condition: Option<string>)

  /** An edge; an absent condition makes it unconditional. */
  datatype Edge = Edge(fromNode: string, toNode: string, condition: Option<Cond>)

  /** A graph: nodes by key, edges in the order that decides which one is taken. */
  datatype Graph = Graph(id: string, nodes: map<string, Node>, edges: seq<Edge>, startNode: string)

  /** One entry `{node, result}` of an execution log. */
  datatype Step = Step(node: string, result: StateData)

  /** The live state of a run. `currentNode` is absent when the run has no next node. */
  class State {
    var data: StateData
    var currentNode: Option<string>
    const runId: string

    constructor (data: StateData, currentNode: Option<string>, runId: string)
      ensures this.data == data && this.currentNode == currentNode && this.runId == runId
    {
      this.data := data;
      this.currentNode := currentNode;
      this.runId := runId;
    }
  }

  /** The steps recorded for a run. */
  class ExecutionLog {
    const runId: string
    var steps: seq<Step>

    constructor (runId: string, steps: seq<Step>)
      ensures this.runId == runId && this.steps == steps
    {
      this.runId := runId;
      this.steps := steps;
    }
  }
}
