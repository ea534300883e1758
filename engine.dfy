/**
 * The workflow engine of app/engine.py.
 *
 * The run loop is specified by the function `Exec`, which walks the graph one
 * node at a time; `WorkflowEngine.RunGraph` is the loop itself, over a live
 * `State` object, proved to produce what `Exec` describes. The source's loop
 * has no bound, so both take a step budget `fuel`: a run that would execute
 * more than `fuel` nodes stops with `OutOfFuel`.
 */
module Engine {
  import opened Wrappers
  import opened Models
  import opened ToolRegistry

  // ---------------------------------------------------------------------------
  // Edge conditions (the `eval` of a condition string against the state)
  // ---------------------------------------------------------------------------

  /** `state.get(key, default)`. */
  function Lookup(data: StateData, key: string, default: Value): Value
  {
    if key in data then data[key] else default
  }

  /** `a <op> b` on integers. */
  function Holds(op: CmpOp, a: int, b: int): bool
  {
    match op
    case Lt => a < b
    case Le => a <= b
    case Gt => a > b
    case Ge => a >= b
    case Eq => a == b
    case Ne => a != b
  }

  /** The operator whose comparison is the negation of `op`'s. */
  function Negate(op: CmpOp): (r: CmpOp)
    ensures forall a: int, b: int :: Holds(r, a, b) == !Holds(op, a, b)
  {
    match op
    case Lt => Ge
    case Ge => Lt
    case Le => Gt
    case Gt => Le
    case Eq => Ne
    case Ne => Eq
  }

  /**
   * The value of a condition in a state; None when evaluating it raises. An
   * ordering comparison of a value that is not a number raises, while `==`
   * and `!=` compare it as unequal to every integer; `len` of a value that has
   * no length raises.
   */
  function EvalCond(c: Cond, data: StateData): (r: Option<bool>)
    ensures c.Blank? || c.Unparsable? ==> r.None?
  {
    match c
    case Blank => None
    case Unparsable => None
    case Compare(Get(key, default), op, n) =>
      var v := Lookup(data, key, default);
      if AsNumber(v).Some? then Some(Holds(op, AsNumber(v).value, n))
      else if op == Eq then Some(false)
      else if op == Ne then Some(true)
      else None
    case Compare(LenOf(key, default), op, n) =>
      var len := Len(Lookup(data, key, default));
      if len.Some? then Some(Holds(op, len.value, n)) else None
  }

  /** A key absent from the state reads as the condition's default. */
  lemma EvalCondDefault(lhs: Operand, op: CmpOp, n: int, data: StateData)
    requires lhs.key !in data
    ensures EvalCond(Compare(lhs, op, n), data) == EvalCond(Compare(lhs, op, n), data[lhs.key := lhs.default])
  {
  }

  /**
   * A comparison raises exactly when it orders a value that is not a number,
   * or takes `len` of a value that has no length; `==` and `!=` never raise.
   */
  lemma EvalCondRaises(lhs: Operand, op: CmpOp, n: int, data: StateData)
    ensures lhs.Get? ==>
              (EvalCond(Compare(lhs, op, n), data).None? <==>
                 AsNumber(Lookup(data, lhs.key, lhs.default)).None? && op != Eq && op != Ne)
    ensures lhs.LenOf? ==>
              (EvalCond(Compare(lhs, op, n), data).None? <==> Len(Lookup(data, lhs.key, lhs.default)).None?)
  {
  }

  /**
   * A comparison that does not raise compares the number (or the length) with
   * the integer; a value that is not a number is unequal to every integer.
   */
  lemma EvalCondCompares(lhs: Operand, op: CmpOp, n: int, data: StateData)
    ensures lhs.Get? && AsNumber(Lookup(data, lhs.key, lhs.default)).Some? ==>
              EvalCond(Compare(lhs, op, n), data) == Some(Holds(op, AsNumber(Lookup(data, lhs.key, lhs.default)).value, n))
    ensures lhs.Get? && AsNumber(Lookup(data, lhs.key, lhs.default)).None? && (op == Eq || op == Ne) ==>
              EvalCond(Compare(lhs, op, n), data) == Some(op == Ne)
    ensures lhs.LenOf? && Len(Lookup(data, lhs.key, lhs.default)).Some? ==>
              EvalCond(Compare(lhs, op, n), data) == Some(Holds(op, Len(Lookup(data, lhs.key, lhs.default)).value, n))
  {
  }

  /**
   * Guards with negated operators are complementary: they raise together, and
   * otherwise exactly one of them holds.
   */
  lemma NegatedGuardsComplement(lhs: Operand, op: CmpOp, n: int, data: StateData)
    ensures EvalCond(Compare(lhs, op, n), data).None? <==> EvalCond(Compare(lhs, Negate(op), n), data).None?
    ensures EvalCond(Compare(lhs, op, n), data).Some? ==>
              EvalCond(Compare(lhs, Negate(op), n), data).value == !EvalCond(Compare(lhs, op, n), data).value
  {
  }

  /**
   * Whether an edge may be taken: an absent or empty condition always, a
   * condition only when it evaluates to true (one that raises does not).
   */
  predicate Taken(e: Edge, data: StateData)
  {
    match e.condition
    case None => true
    case Some(Blank) => true
    case Some(c) => EvalCond(c, data) == Some(true)
  }

  // ---------------------------------------------------------------------------
  // _get_next_node
  // ---------------------------------------------------------------------------

  /** An edge that leaves `from` and may be taken. */
  predicate Candidate(e: Edge, from: string, data: StateData)
  {
    e.fromNode == from && Taken(e, data)
  }

  /** Edge `i` is the first candidate in the list. */
  ghost predicate Wins(edges: seq<Edge>, from: string, data: StateData, i: int)
  {
    && 0 <= i < |edges|
    && Candidate(edges[i], from, data)
    && forall j :: 0 <= j < i ==> !Candidate(edges[j], from, data)
  }

  /** The target of the first edge in list order that leaves `from` and may be taken. */
  function FirstMatch(edges: seq<Edge>, from: string, data: StateData): Option<string>
  {
    if edges == [] then None
    else if Candidate(edges[0], from, data) then Some(edges[0].toNode)
    else FirstMatch(edges[1..], from, data)
  }

  /**
   * `FirstMatch` finds a target exactly when some edge wins, and then it is
   * the winning edge's target.
   */
  lemma {:induction false} FirstMatchWins(edges: seq<Edge>, from: string, data: StateData)
    ensures FirstMatch(edges, from, data).Some? <==> exists i :: Wins(edges, from, data, i)
    ensures forall i :: Wins(edges, from, data, i) ==> FirstMatch(edges, from, data) == Some(edges[i].toNode)
  {
    if edges == [] {
    } else if Candidate(edges[0], from, data) {
      assert Wins(edges, from, data, 0);
      assert forall i :: Wins(edges, from, data, i) ==> i == 0;
    } else {
      FirstMatchWins(edges[1..], from, data);
      assert forall i :: 1 <= i < |edges| ==> edges[i] == edges[1..][i - 1];
      assert forall i :: Wins(edges, from, data, i) ==> i >= 1 && Wins(edges[1..], from, data, i - 1);
      assert forall i :: Wins(edges[1..], from, data, i) ==> Wins(edges, from, data, i + 1);
    }
  }

  /** The next node after `node`: edges are matched on the node's own `id`. */
  function NextNode(g: Graph, node: Node, data: StateData): Option<string>
  {
    FirstMatch(g.edges, node.id, data)
  }

  /** A next node is the target of some edge that leaves the node's id. */
  lemma NextNodeIsEdgeTarget(g: Graph, node: Node, data: StateData)
    ensures NextNode(g, node, data).Some? ==>
              exists i :: 0 <= i < |g.edges| && g.edges[i].fromNode == node.id
                          && g.edges[i].toNode == NextNode(g, node, data).value
  {
    FirstMatchWins(g.edges, node.id, data);
    if NextNode(g, node, data).Some? {
      var i :| Wins(g.edges, node.id, data, i);
      assert g.edges[i].fromNode == node.id;
    }
  }

  /** The winning edge decides the next node. */
  lemma NextNodeIsWinner(g: Graph, node: Node, data: StateData, i: int)
    requires Wins(g.edges, node.id, data, i)
    ensures NextNode(g, node, data) == Some(g.edges[i].toNode)
  {
    FirstMatchWins(g.edges, node.id, data);
  }

  /** There is no next node exactly when no edge leaving the node's id may be taken. */
  lemma NoNextNode(g: Graph, node: Node, data: StateData)
    ensures NextNode(g, node, data).None? <==> forall i :: 0 <= i < |g.edges| ==> !Candidate(g.edges[i], node.id, data)
  {
    FirstMatchWins(g.edges, node.id, data);
    if exists k :: 0 <= k < |g.edges| && Candidate(g.edges[k], node.id, data) {
      var k :| 0 <= k < |g.edges| && Candidate(g.edges[k], node.id, data);
      FirstCandidateWins(g.edges, node.id, data, k);
    }
  }

  /** If edge `k` is a candidate, some edge (the first candidate) wins. */
  lemma {:induction false} FirstCandidateWins(edges: seq<Edge>, from: string, data: StateData, k: int)
    requires 0 <= k < |edges| && Candidate(edges[k], from, data)
    ensures exists i :: Wins(edges, from, data, i)
    decreases k
  {
    if forall j :: 0 <= j < k ==> !Candidate(edges[j], from, data) {
      assert Wins(edges, from, data, k);
    } else {
      var j :| 0 <= j < k && Candidate(edges[j], from, data);
      FirstCandidateWins(edges, from, data, j);
    }
  }

  // ---------------------------------------------------------------------------
  // _execute_node
  // ---------------------------------------------------------------------------

  /**
   * How a registered tool runs on a state: `ToolRegistry.Invoke` in the engine.
   * The run loop is stated for any such function.
   */
  type ToolCall = (Tool, StateData) -> Result<StateData, CallError>

  /** The node is a function node that names a registered tool. */
  predicate CallsTool(tools: map<string, Tool>, node: Node)
  {
    node.nodeType == "function" && node.functionName.Some? && node.functionName.value != ""
    && node.functionName.value in tools
  }

  /**
   * The output of a node: the named tool's result for a function node whose
   * tool is registered; an empty output for every other node.
   */
  function ExecuteNode(call: ToolCall, tools: map<string, Tool>, node: Node, data: StateData): (r: Result<StateData, CallError>)
    ensures !CallsTool(tools, node) ==> r == Ok(map[])
    ensures CallsTool(tools, node) ==> r == call(tools[node.functionName.value], data)
  {
    if node.nodeType == "function" && node.functionName.Some? && node.functionName.value != "" then
      if node.functionName.value in tools then call(tools[node.functionName.value], data)
      else Ok(map[])
    else if node.nodeType == "condition" then Ok(map[])
    else Ok(map[])
  }

  /** A node's `condition` text plays no part in what the node produces. */
  lemma ConditionTextIgnored(call: ToolCall, tools: map<string, Tool>, node: Node, text: Option<string>, data: StateData)
    ensures ExecuteNode(call, tools, node.(condition := text), data) == ExecuteNode(call, tools, node, data)
  {
  }

  // ---------------------------------------------------------------------------
  // The run loop as a function
  // ---------------------------------------------------------------------------

  /** The loop goes on while the current node is set, non-empty and a key of the graph's nodes. */
  predicate Active(g: Graph, current: Option<string>)
  {
    current.Some? && current.value != "" && current.value in g.nodes
  }

  /** Why a run stopped. */
  datatype Halt = Finished | ToolRaised(error: CallError) | OutOfFuel

  /** Where a run stopped: final data and current node, and the steps it logged. */
  datatype Trace = Trace(halt: Halt, data: StateData, current: Option<string>, steps: seq<Step>)

  function Prepend(steps: seq<Step>, t: Trace): Trace
  {
    t.(steps := steps + t.steps)
  }

  /** Logging `a` before a run that logged `b` first is logging `a + b` first. */
  lemma PrependPrepend(a: seq<Step>, b: seq<Step>, t: Trace)
    ensures Prepend(a, Prepend(b, t)) == Prepend(a + b, t)
  {
    assert a + (b + t.steps) == (a + b) + t.steps;
  }

  /** A step before a run that logs `log` first logs `[s] + log` first. */
  lemma PrependChain(a: Trace, s: Step, b: Trace, log: seq<Step>, rest: Trace)
    requires a == Prepend([s], b) && b == Prepend(log, rest)
    ensures a == Prepend([s] + log, rest)
  {
    PrependPrepend([s], log, rest);
  }

  /** Prepending a log to a run that stops at once. */
  lemma PrependStopped(log: seq<Step>, halt: Halt, data: StateData, current: Option<string>)
    ensures Prepend(log, Trace(halt, data, current, [])) == Trace(halt, data, current, log)
  {
    assert log + [] == log;
  }

  /** The run from `current` in state `data`, executing at most `fuel` nodes. */
  function Exec(call: ToolCall, tools: map<string, Tool>, g: Graph, data: StateData, current: Option<string>, fuel: nat): Trace
    decreases fuel
  {
    if !Active(g, current) then Trace(Finished, data, current, [])
    else if fuel == 0 then Trace(OutOfFuel, data, current, [])
    else
      var node := g.nodes[current.value];
      match ExecuteNode(call, tools, node, data)
      case Err(e) => Trace(ToolRaised(e), data, current, [])
      case Ok(out) =>
        var next := data + out;
        Prepend([Step(current.value, out)], Exec(call, tools, g, next, NextNode(g, node, next), fuel - 1))
  }

  /** One step of a run that goes on. */
  lemma ExecUnfold(call: ToolCall, tools: map<string, Tool>, g: Graph, data: StateData, current: string, fuel: nat)
    requires Active(g, Some(current)) && fuel > 0
    requires ExecuteNode(call, tools, g.nodes[current], data).Ok?
    ensures var out := ExecuteNode(call, tools, g.nodes[current], data).value;
            Exec(call, tools, g, data, Some(current), fuel)
            == Prepend([Step(current, out)], Exec(call, tools, g, data + out, NextNode(g, g.nodes[current], data + out), fuel - 1))
  {
  }

  /** The node a run moves to after step `j` of `steps`; after the last one, `last`. */
  function NodeAfter(steps: seq<Step>, last: Option<string>, j: int): Option<string>
    requires 0 <= j < |steps|
  {
    if j + 1 < |steps| then Some(steps[j + 1].node) else last
  }

  /**
   * With budget `f`, step `j` of `steps` runs from `states[j]`, logs itself
   * and moves on to `states[j + 1]` at the next step's node.
   */
  ghost predicate StepAt(call: ToolCall, tools: map<string, Tool>, g: Graph, states: seq<StateData>, steps: seq<Step>,
                         last: Option<string>, j: int, f: nat)
    requires |states| == |steps| + 1 && 0 <= j < |steps| && f > 0
  {
    Exec(call, tools, g, states[j], Some(steps[j].node), f)
    == Prepend([steps[j]], Exec(call, tools, g, states[j + 1], NodeAfter(steps, last, j), f - 1))
  }

  /** Every step of `steps` is taken as `StepAt` says, whatever the budget. */
  ghost predicate Along(call: ToolCall, tools: map<string, Tool>, g: Graph, states: seq<StateData>, steps: seq<Step>, last: Option<string>)
  {
    && |states| == |steps| + 1
    && forall j, f: nat :: 0 <= j < |steps| && f > 0 ==> StepAt(call, tools, g, states, steps, last, j, f)
  }

  /** A run along a chain of steps logs the whole chain and goes on from its end. */
  lemma {:induction false} ExecAlong(call: ToolCall, tools: map<string, Tool>, g: Graph, states: seq<StateData>, steps: seq<Step>,
                                     last: Option<string>, fuel: nat)
    requires |steps| >= 1 && Along(call, tools, g, states, steps, last) && fuel >= |steps|
    ensures Exec(call, tools, g, states[0], Some(steps[0].node), fuel)
            == Prepend(steps, Exec(call, tools, g, states[|steps|], last, fuel - |steps|))
    decreases |steps|
  {
    var rest := Exec(call, tools, g, states[|steps|], last, fuel - |steps|);
    assert StepAt(call, tools, g, states, steps, last, 0, fuel);
    if |steps| == 1 {
      assert [steps[0]] == steps;
    } else {
      AlongSuffix(call, tools, g, states, steps, last);
      ExecAlong(call, tools, g, states[1..], steps[1..], last, fuel - 1);
      assert states[1..][0] == states[1] && steps[1..][0].node == steps[1].node;
      assert states[1..][|steps[1..]|] == states[|steps|];
      PrependPrepend([steps[0]], steps[1..], rest);
      assert [steps[0]] + steps[1..] == steps;
    }
  }

  lemma AlongSuffix(call: ToolCall, tools: map<string, Tool>, g: Graph, states: seq<StateData>, steps: seq<Step>, last: Option<string>)
    requires |steps| >= 2 && Along(call, tools, g, states, steps, last)
    ensures Along(call, tools, g, states[1..], steps[1..], last)
  {
    var states', steps' := states[1..], steps[1..];
    forall j, f: nat | 0 <= j < |steps'| && f > 0
      ensures StepAt(call, tools, g, states', steps', last, j, f)
    {
      assert StepAt(call, tools, g, states, steps, last, j + 1, f);
      assert states'[j] == states[j + 1] && states'[j + 1] == states[j + 2] && steps'[j] == steps[j + 1];
      assert NodeAfter(steps', last, j) == NodeAfter(steps, last, j + 1);
    }
  }

  /** The state after merging, in order, the result of every step into `data`. */
  function MergeAll(data: StateData, steps: seq<Step>): StateData
    decreases |steps|
  {
    if steps == [] then data else MergeAll(data + steps[0].result, steps[1..])
  }

  lemma MergeAllCons(data: StateData, s: Step, rest: seq<Step>)
    ensures MergeAll(data, [s] + rest) == MergeAll(data + s.result, rest)
  {
    assert ([s] + rest)[0] == s && ([s] + rest)[1..] == rest;
  }

  /**
   * A step overwrites the keys of its output and leaves every other key as it
   * was (`dict.update`).
   */
  lemma MergeIsShallow(data: StateData, out: StateData)
    ensures (data + out).Keys == data.Keys + out.Keys
    ensures forall k :: k in out ==> (data + out)[k] == out[k]
    ensures forall k :: k in data && k !in out ==> (data + out)[k] == data[k]
  {
  }

  /**
   * How a run stops: it finishes exactly when the current node is unset,
   * empty or unknown; a raising tool leaves the failing node current; it never
   * logs more steps than its budget, and every logged node is a node of the graph.
   */
  lemma {:induction false} ExecHalts(call: ToolCall, tools: map<string, Tool>, g: Graph, data: StateData, current: Option<string>, fuel: nat)
    ensures var t := Exec(call, tools, g, data, current, fuel);
            && |t.steps| <= fuel
            && (t.halt == Finished <==> !Active(g, t.current))
            && (t.halt == OutOfFuel ==> |t.steps| == fuel)
            && (t.halt.ToolRaised? ==>
                  ExecuteNode(call, tools, g.nodes[t.current.value], t.data) == Err(t.halt.error))
            && forall i :: 0 <= i < |t.steps| ==> t.steps[i].node in g.nodes && t.steps[i].node != ""
    decreases fuel
  {
    if Active(g, current) && fuel > 0 {
      var node := g.nodes[current.value];
      if ExecuteNode(call, tools, node, data).Ok? {
        var next := data + ExecuteNode(call, tools, node, data).value;
        ExecHalts(call, tools, g, next, NextNode(g, node, next), fuel - 1);
      }
    }
  }

  /** A run whose start node is not a node of the graph logs nothing and leaves the state as it was. */
  lemma StartOutsideGraph(call: ToolCall, tools: map<string, Tool>, g: Graph, data: StateData, fuel: nat)
    requires g.startNode !in g.nodes
    ensures Exec(call, tools, g, data, Some(g.startNode), fuel) == Trace(Finished, data, Some(g.startNode), [])
  {
  }

  /** Merging a prefix of a log that starts with `s`. */
  lemma MergePrefix(data: StateData, s: Step, rest: seq<Step>, i: nat)
    requires 0 < i <= |rest| + 1
    ensures MergeAll(data, ([s] + rest)[..i]) == MergeAll(data + s.result, rest[..i - 1])
  {
    assert ([s] + rest)[..i] == [s] + rest[..i - 1];
    MergeAllCons(data, s, rest[..i - 1]);
  }

  /** The final state is the initial state with the result of every logged step merged in, in order. */
  lemma {:induction false} ExecMergesLog(call: ToolCall, tools: map<string, Tool>, g: Graph, data: StateData, current: Option<string>, fuel: nat)
    ensures Exec(call, tools, g, data, current, fuel).data == MergeAll(data, Exec(call, tools, g, data, current, fuel).steps)
    decreases fuel
  {
    if Active(g, current) && fuel > 0 && ExecuteNode(call, tools, g.nodes[current.value], data).Ok? {
      var node := g.nodes[current.value];
      var out := ExecuteNode(call, tools, node, data).value;
      var t' := Exec(call, tools, g, data + out, NextNode(g, node, data + out), fuel - 1);
      ExecUnfold(call, tools, g, data, current.value, fuel);
      ExecMergesLog(call, tools, g, data + out, NextNode(g, node, data + out), fuel - 1);
      MergeAllCons(data, Step(current.value, out), t'.steps);
    }
  }

  /**
   * A run's log starts at the node it starts from, and the node current when
   * it stops is the one chosen after the last logged node (or the start node
   * when nothing was logged).
   */
  lemma {:induction false} ExecEnds(call: ToolCall, tools: map<string, Tool>, g: Graph, data: StateData, current: Option<string>, fuel: nat)
    ensures var t := Exec(call, tools, g, data, current, fuel);
            && (t.steps == [] ==> t.current == current && t.data == data)
            && (t.steps != [] ==> current == Some(t.steps[0].node))
            && (t.steps != [] ==>
                  t.steps[|t.steps| - 1].node in g.nodes
                  && t.current == NextNode(g, g.nodes[t.steps[|t.steps| - 1].node], t.data))
    decreases fuel
  {
    if Active(g, current) && fuel > 0 && ExecuteNode(call, tools, g.nodes[current.value], data).Ok? {
      var node := g.nodes[current.value];
      var out := ExecuteNode(call, tools, node, data).value;
      ExecUnfold(call, tools, g, data, current.value, fuel);
      ExecEnds(call, tools, g, data + out, NextNode(g, node, data + out), fuel - 1);
    }
  }

  /** Each logged result is what the logged node produces on the state merged so far. */
  lemma {:induction false} ExecStepResults(call: ToolCall, tools: map<string, Tool>, g: Graph, data: StateData, current: Option<string>, fuel: nat)
    ensures var t := Exec(call, tools, g, data, current, fuel);
            forall i :: 0 <= i < |t.steps| ==>
              t.steps[i].node in g.nodes &&
              ExecuteNode(call, tools, g.nodes[t.steps[i].node], MergeAll(data, t.steps[..i])) == Ok(t.steps[i].result)
    decreases fuel
  {
    var t := Exec(call, tools, g, data, current, fuel);
    if Active(g, current) && fuel > 0 && ExecuteNode(call, tools, g.nodes[current.value], data).Ok? {
      var node := g.nodes[current.value];
      var out := ExecuteNode(call, tools, node, data).value;
      var s0 := Step(current.value, out);
      var t' := Exec(call, tools, g, data + out, NextNode(g, node, data + out), fuel - 1);
      ExecUnfold(call, tools, g, data, current.value, fuel);
      ExecStepResults(call, tools, g, data + out, NextNode(g, node, data + out), fuel - 1);
      assert t.steps == [s0] + t'.steps;
      forall i | 0 <= i < |t.steps|
        ensures t.steps[i].node in g.nodes
        ensures ExecuteNode(call, tools, g.nodes[t.steps[i].node], MergeAll(data, t.steps[..i])) == Ok(t.steps[i].result)
      {
        if i == 0 {
          assert t.steps[..0] == [];
        } else {
          MergePrefix(data, s0, t'.steps, i);
          assert t.steps[i] == t'.steps[i - 1];
        }
      }
    }
  }

  /** Step `i` of a log is the node chosen after step `i - 1`, on the state merged up to step `i`. */
  ghost predicate Chained(g: Graph, data: StateData, steps: seq<Step>, i: int)
  {
    0 < i < |steps| && steps[i - 1].node in g.nodes
    && Some(steps[i].node) == NextNode(g, g.nodes[steps[i - 1].node], MergeAll(data, steps[..i]))
  }

  /** Prepending a step whose chosen successor is the first step keeps a log chained. */
  lemma ChainedCons(g: Graph, data: StateData, s: Step, rest: seq<Step>)
    requires s.node in g.nodes
    requires rest != [] ==> Some(rest[0].node) == NextNode(g, g.nodes[s.node], data + s.result)
    requires forall i :: 0 < i < |rest| ==> Chained(g, data + s.result, rest, i)
    ensures forall i :: 0 < i < |[s] + rest| ==> Chained(g, data, [s] + rest, i)
  {
    var steps := [s] + rest;
    forall i | 0 < i < |steps|
      ensures Chained(g, data, steps, i)
    {
      MergePrefix(data, s, rest, i);
      if i == 1 {
        assert rest[..0] == [];
      } else {
        assert Chained(g, data + s.result, rest, i - 1);
      }
    }
  }

  /** Each logged node after the first is the node chosen after the one before it. */
  lemma {:induction false} ExecStepsChained(call: ToolCall, tools: map<string, Tool>, g: Graph, data: StateData, current: Option<string>, fuel: nat)
    ensures var t := Exec(call, tools, g, data, current, fuel);
            forall i :: 0 < i < |t.steps| ==> Chained(g, data, t.steps, i)
    decreases fuel
  {
    if Active(g, current) && fuel > 0 && ExecuteNode(call, tools, g.nodes[current.value], data).Ok? {
      var node := g.nodes[current.value];
      var out := ExecuteNode(call, tools, node, data).value;
      var next := NextNode(g, node, data + out);
      ExecUnfold(call, tools, g, data, current.value, fuel);
      ExecStepsChained(call, tools, g, data + out, next, fuel - 1);
      ExecEnds(call, tools, g, data + out, next, fuel - 1);
      ChainedCons(g, data, Step(current.value, out), Exec(call, tools, g, data + out, next, fuel - 1).steps);
    }
  }

  /** Once a run stops for a reason other than its budget, a larger budget changes nothing. */
  lemma {:induction false} ExecFuelIrrelevant(call: ToolCall, tools: map<string, Tool>, g: Graph, data: StateData, current: Option<string>, fuel: nat, more: nat)
    requires fuel <= more
    requires Exec(call, tools, g, data, current, fuel).halt != OutOfFuel
    ensures Exec(call, tools, g, data, current, more) == Exec(call, tools, g, data, current, fuel)
    decreases fuel
  {
    if Active(g, current) && fuel > 0 {
      var node := g.nodes[current.value];
      if ExecuteNode(call, tools, node, data).Ok? {
        var next := data + ExecuteNode(call, tools, node, data).value;
        ExecFuelIrrelevant(call, tools, g, next, NextNode(g, node, next), fuel - 1, more - 1);
      }
    }
  }

  /** A run that spends a budget also spends every smaller one. */
  lemma OutOfFuelBelow(call: ToolCall, tools: map<string, Tool>, g: Graph, data: StateData, current: Option<string>, fuel: nat, more: nat)
    requires fuel <= more
    requires Exec(call, tools, g, data, current, more).halt == OutOfFuel
    ensures Exec(call, tools, g, data, current, fuel).halt == OutOfFuel
    ensures |Exec(call, tools, g, data, current, fuel).steps| == fuel
  {
    if Exec(call, tools, g, data, current, fuel).halt != OutOfFuel {
      ExecFuelIrrelevant(call, tools, g, data, current, fuel, more);
    }
    ExecHalts(call, tools, g, data, current, fuel);
  }

  /**
   * A ranking of the nodes that every edge leaving a node (matched on the
   * node's id) strictly decreases: the graph has no cycle.
   */
  ghost predicate Ranked(g: Graph, rank: map<string, nat>)
  {
    && g.nodes.Keys <= rank.Keys
    && forall k, i :: k in g.nodes && 0 <= i < |g.edges| && g.edges[i].fromNode == g.nodes[k].id
                      && g.edges[i].toNode in g.nodes
                      ==> rank[g.edges[i].toNode] < rank[k]
  }

  /** A run of an acyclic graph stops before a budget larger than the start node's rank runs out. */
  lemma {:induction false} AcyclicRunStops(call: ToolCall, tools: map<string, Tool>, g: Graph, rank: map<string, nat>, data: StateData, current: Option<string>, fuel: nat)
    requires Ranked(g, rank)
    requires Active(g, current) ==> rank[current.value] < fuel
    ensures Exec(call, tools, g, data, current, fuel).halt != OutOfFuel
    decreases fuel
  {
    if Active(g, current) {
      var node := g.nodes[current.value];
      if ExecuteNode(call, tools, node, data).Ok? {
        var next := data + ExecuteNode(call, tools, node, data).value;
        var nextNode := NextNode(g, node, next);
        NextNodeIsEdgeTarget(g, node, next);
        AcyclicRunStops(call, tools, g, rank, next, nextNode, fuel - 1);
      }
    }
  }

  // ---------------------------------------------------------------------------
  // The engine object
  // ---------------------------------------------------------------------------

  /** What `run_graph` gives its caller: a result, or the exception it raises. */
  datatype RunOutcome =
    | Completed(runId: string, finalState: StateData, executionLog: seq<Step>)
    | GraphNotFound
    | ToolFailed(runId: string, error: CallError)
    | OutOfSteps(runId: string)

  /** What run_graph reports for a run that stopped as `t` describes. */
  function Report(runId: string, t: Trace): (r: RunOutcome)
    ensures !r.GraphNotFound? && r.runId == runId
    ensures r.Completed? <==> t.halt == Finished
    ensures r.Completed? ==> r.finalState == t.data && r.executionLog == t.steps
    ensures r.ToolFailed? <==> t.halt.ToolRaised?
    ensures r.ToolFailed? ==> r.error == t.halt.error
  {
    match t.halt
    case Finished => Completed(runId, t.data, t.steps)
    case ToolRaised(e) => ToolFailed(runId, e)
    case OutOfFuel => OutOfSteps(runId)
  }

  /**
   * The steps a run's log holds once the run stops: all of them when the loop
   * ended, none when it raised (they are assigned only after the loop).
   */
  function StoredSteps(t: Trace): seq<Step>
  {
    if t.halt == Finished then t.steps else []
  }

  /** A new id (a `uuid4()` in the source): any string not already in use. */
  method FreshId(used: set<string>) returns (id: string)
    ensures id !in used
  {
    id := "id";
    var rest := used;
    while rest != {}
      invariant rest <= used
      invariant forall s :: s in used - rest ==> |s| < |id|
      decreases |rest|
    {
      var s :| s in rest;
      if |s| >= |id| {
        id := s + "-";
      }
      rest := rest - {s};
    }
  }

  /**
   * The `while` loop of run_graph over a live state: execute the current node,
   * merge its output into the state, log the step, move to the next node.
   * The steps are returned to be stored only when the loop ends normally.
   */
  method RunLoop(call: ToolCall, tools: map<string, Tool>, graph: Graph, state: State, fuel: nat) returns (halt: Halt, executionLog: seq<Step>)
    modifies state
    ensures var t := Exec(call, tools, graph, old(state.data), old(state.currentNode), fuel);
            && halt == t.halt && state.data == t.data && state.currentNode == t.current
            && executionLog == t.steps
  {
    executionLog := [];
    var budget := fuel;
    ghost var whole := Exec(call, tools, graph, state.data, state.currentNode, fuel);
    while state.currentNode.Some? && state.currentNode.value != ""
      invariant whole == Prepend(executionLog, Exec(call, tools, graph, state.data, state.currentNode, budget))
      decreases budget
    {
      var current := state.currentNode.value;
      if current !in graph.nodes {
        break;
      }
      if budget == 0 {
        PrependStopped(executionLog, OutOfFuel, state.data, state.currentNode);
        return OutOfFuel, executionLog;
      }
      var node := graph.nodes[current];
      var result := ExecuteNode(call, tools, node, state.data);
      if result.Err? {
        PrependStopped(executionLog, ToolRaised(result.error), state.data, state.currentNode);
        assert whole == Trace(ToolRaised(result.error), state.data, state.currentNode, executionLog);
        return ToolRaised(result.error), executionLog;
      }
      ExecUnfold(call, tools, graph, state.data, current, budget);
      PrependPrepend(executionLog, [Step(current, result.value)],
                     Exec(call, tools, graph, state.data + result.value, NextNode(graph, node, state.data + result.value), budget - 1));
      state.data := state.data + result.value;
      executionLog := executionLog + [Step(current, result.value)];
      state.currentNode := NextNode(graph, node, state.data);
      budget := budget - 1;
    }
    PrependStopped(executionLog, Finished, state.data, state.currentNode);
    halt := Finished;
  }

  class WorkflowEngine {
    var graphs: map<string, Graph>
    var runs: map<string, State>
    var logs: map<string, ExecutionLog>
    /** The module-level tool registry the engine looks tools up in. */
    const registry: Registry

    /** Every graph, run and log is stored under its own id; runs and logs have the same ids. */
    ghost predicate Valid()
      reads this
    {
      && runs.Keys == logs.Keys
      && (forall id :: id in graphs ==> graphs[id].id == id)
      && (forall id :: id in runs ==> runs[id].runId == id)
      && (forall id :: id in logs ==> logs[id].runId == id)
    }

    constructor (registry: Registry)
      ensures Valid()
      ensures graphs == map[] && runs == map[] && logs == map[] && this.registry == registry
    {
      graphs := map[];
      runs := map[];
      logs := map[];
      this.registry := registry;
    }

    /** create_graph: store the graph, unchecked, under a new id. */
    method CreateGraph(nodes: map<string, Node>, edges: seq<Edge>, startNode: string) returns (graphId: string)
      requires Valid()
      modifies this
      ensures Valid()
      ensures graphId !in old(graphs)
      ensures graphs == old(graphs)[graphId := Graph(graphId, nodes, edges, startNode)]
      ensures runs == old(runs) && logs == old(logs)
    {
      graphId := FreshId(graphs.Keys);
      graphs := graphs[graphId := Graph(graphId, nodes, edges, startNode)];
    }

    /** get_run_state: the live data of a run, or None for an unknown id. */
    function GetRunState(runId: string): (r: Option<StateData>)
      reads this, runs.Values
      ensures r.None? <==> runId !in runs
      ensures r.Some? ==> r.value == runs[runId].data
    {
      if runId in runs then Some(runs[runId].data) else None
    }

    /**
     * Start a run of `graph`: a new run id, a live state holding a copy of the
     * initial data at the start node, and an empty log, both registered under the id.
     */
    method NewRun(graph: Graph, initialState: StateData) returns (runId: string, state: State, log: ExecutionLog)
      requires Valid()
      modifies this
      ensures Valid()
      ensures graphs == old(graphs)
      ensures runId !in old(runs)
      ensures fresh(state) && fresh(log)
      ensures runs == old(runs)[runId := state] && logs == old(logs)[runId := log]
      ensures state.data == initialState && state.currentNode == Some(graph.startNode) && log.steps == []
    {
      runId := FreshId(runs.Keys);
      state := new State(initialState, Some(graph.startNode), runId);
      log := new ExecutionLog(runId, []);
      runs := runs[runId := state];
      logs := logs[runId := log];
    }

    /**
     * run_graph: run the graph from its start node on a copy of the initial
     * state, registering the live state and an empty log under a new run id
     * first, and the steps once the loop ends.
     */
    method RunGraph(graphId: string, initialState: StateData, fuel: nat) returns (r: RunOutcome)
      requires Valid()
      modifies this
      ensures Valid()
      ensures graphs == old(graphs)
      ensures graphId !in graphs ==> r == GraphNotFound && runs == old(runs) && logs == old(logs)
      ensures graphId in graphs ==>
                && !r.GraphNotFound?
                && r.runId !in old(runs)
                && r.runId in runs && fresh(runs[r.runId]) && fresh(logs[r.runId])
                && runs == old(runs)[r.runId := runs[r.runId]] && logs == old(logs)[r.runId := logs[r.runId]]
      ensures unchanged(old(runs.Values), old(logs.Values))
      ensures graphId in graphs ==>
                var g := graphs[graphId];
                var t := Exec(Invoke, registry.tools, g, initialState, Some(g.startNode), fuel);
                && r == Report(r.runId, t)
                && GetRunState(r.runId) == Some(t.data)
                && runs[r.runId].currentNode == t.current
                && logs[r.runId].steps == StoredSteps(t)
    {
      if graphId !in graphs {
        return GraphNotFound;
      }
      var graph := graphs[graphId];
      var runId, state, log := NewRun(graph, initialState);

      var halt, executionLog := RunLoop(Invoke, registry.tools, graph, state, fuel);
      if halt == Finished {
        log.steps := executionLog;
      }
      r := Report(runId, Trace(halt, state.data, state.currentNode, executionLog));
    }
  }
}
