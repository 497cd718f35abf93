/**
  The workflow graph of the question-answering agent, as an explicit
  finite-state machine: the nodes wired by `build_agent`, the router that
  decides where the evaluator goes next, and the runs the graph can take
  from START to END.
 */
module Agent {
  import opened Wrappers
  import opened JsonValue

  datatype Node = Start | Planner | Executor | Evaluator | Synthesizer | End

  /** The agent state as the router sees it: a dictionary from field names to values. */
  type AgentState = map<string, Value>

  const DecisionKey := "evaluator_decision"
  const DefaultDecision := "continue"
  const ReplanDecision := "replan"

  /** The two keys of the conditional-edge map registered for the evaluator. */
  const PlannerRoute := "planner"
  const SynthesizerRoute := "synthesizer"

  /**
    `route_after_evaluator`: a missing decision defaults to "continue";
    only the exact string "replan" loops back to the planner.
   */
  function RouteAfterEvaluator(state: AgentState): (route: string)
    ensures route == PlannerRoute || route == SynthesizerRoute
    ensures route == PlannerRoute <==> DecisionKey in state && state[DecisionKey] == Str(ReplanDecision)
    ensures DecisionKey !in state ==> route == SynthesizerRoute
  {
    var decision := if DecisionKey in state then state[DecisionKey] else Str(DefaultDecision);
    if decision == Str(ReplanDecision) then PlannerRoute else SynthesizerRoute
  }

  /** The path map given to `add_conditional_edges` for the evaluator. */
  const ConditionalPaths: map<string, Node> := map[PlannerRoute := Planner, SynthesizerRoute := Synthesizer]

  /** The unconditional edges added with `add_edge`, from source to target. */
  const FixedEdges: map<Node, Node> :=
    map[Start := Planner, Planner := Executor, Executor := Evaluator, Synthesizer := End]

  /** The successors of a node in the graph as `build_agent` wires it. */
  function Successors(n: Node): (succ: set<Node>)
    ensures Start !in succ
    ensures End in succ <==> n == Synthesizer
    ensures Planner in succ <==> n == Start || n == Evaluator
  {
    assert ConditionalPaths[PlannerRoute] == Planner;
    (if n in FixedEdges then {FixedEdges[n]} else {})
    + (if n == Evaluator then ConditionalPaths.Values else {})
  }

  /**
    Whether the router sends the evaluator back to the planner: the router's
    test on the state itself, so that `Step` and `Trace` need not compare
    route strings (which makes their proofs far costlier).
    `StepFollowsRouter` ties the two together.
   */
  predicate Replans(state: AgentState)
  {
    DecisionKey in state && state[DecisionKey] == Str(ReplanDecision)
  }

  /**
    The transition function: the node the graph moves to from `n`, where
    `state` is the agent state at that moment (only the evaluator reads it).
   */
  function Step(n: Node, state: AgentState): (next: Node)
    requires n != End
    ensures next != Start
    ensures next == Planner <==> n == Start || (n == Evaluator && Replans(state))
    ensures next == Synthesizer <==> n == Evaluator && !Replans(state)
  {
    match n
    case Start => Planner
    case Planner => Executor
    case Executor => Evaluator
    case Evaluator => if Replans(state) then Planner else Synthesizer
    case Synthesizer => End
  }

  /** From the evaluator, the transition function goes where the router's key leads in the conditional-edge map. */
  lemma StepFollowsRouter(state: AgentState)
    ensures RouteAfterEvaluator(state) in ConditionalPaths
    ensures Step(Evaluator, state) == ConditionalPaths[RouteAfterEvaluator(state)]
  {
  }

  /** The transition function only follows edges wired by `build_agent`. */
  lemma StepIsWired(n: Node, state: AgentState)
    requires n != End
    ensures Step(n, state) in Successors(n)
  {
    SuccessorsByNode(n);
  }

  /** The edge relation node by node, as the transition function reads it. */
  predicate Edge(a: Node, b: Node)
  {
    match a
    case Start => b == Planner
    case Planner => b == Executor
    case Executor => b == Evaluator
    case Evaluator => b == Planner || b == Synthesizer
    case Synthesizer => b == End
    case End => false
  }

  /** The edges wired by `build_agent`, node by node. */
  lemma SuccessorsByNode(n: Node)
    ensures Successors(n) == match n
      case Start => {Planner}
      case Planner => {Executor}
      case Executor => {Evaluator}
      case Evaluator => {Planner, Synthesizer}
      case Synthesizer => {End}
      case End => {}
  {
    assert ConditionalPaths.Values == {Planner, Synthesizer} by {
      assert ConditionalPaths[PlannerRoute] == Planner;
      assert ConditionalPaths[SynthesizerRoute] == Synthesizer;
    }
  }

  /** The edges wired by `build_agent` are exactly the edge relation. */
  lemma WiredEdges(a: Node, b: Node)
    ensures b in Successors(a) <==> Edge(a, b)
  {
    SuccessorsByNode(a);
  }

  /** The evaluator is the only node with more than one successor; END has none. */
  lemma OnlyEvaluatorBranches(n: Node)
    ensures |Successors(n)| > 1 <==> n == Evaluator
    ensures Successors(n) == {} <==> n == End
  {
    SuccessorsByNode(n);
  }

  /** Every edge of the graph is taken by the transition function for some state, and only edges are. */
  lemma StepTakesExactlyTheEdges(n: Node, m: Node)
    ensures Edge(n, m) <==> n != End && exists state :: Step(n, state) == m
  {
    if n != End {
      var replan: AgentState := map[DecisionKey := Str(ReplanDecision)];
      var empty: AgentState := map[];
      assert Step(n, empty) == m || Step(n, replan) == m <== Edge(n, m);
      forall state | Step(n, state) == m ensures Edge(n, m) {
      }
    }
  }

  // ---------------------------------------------------------------------
  // Runs

  /** Every consecutive pair of `p` is an edge of the graph. */
  predicate IsPath(p: seq<Node>)
  {
    |p| <= 1 || (Edge(p[0], p[1]) && IsPath(p[1..]))
  }

  /** A complete run: from START to END along the graph's edges. */
  predicate IsRun(p: seq<Node>)
  {
    |p| >= 2 && p[0] == Start && p[|p| - 1] == End && IsPath(p)
  }

  /** One planner, executor, evaluator cycle. */
  const Cycle: seq<Node> := [Planner, Executor, Evaluator]

  /** `k` planner, executor, evaluator cycles. */
  function Cycles(k: nat): (p: seq<Node>)
    ensures |p| == 3 * k
  {
    if k == 0 then [] else Cycle + Cycles(k - 1)
  }

  /** The number of visits of `x` in `p`. */
  function Count(p: seq<Node>, x: Node): nat
  {
    if p == [] then 0 else (if p[0] == x then 1 else 0) + Count(p[1..], x)
  }

  lemma {:induction false} CountAppend(p: seq<Node>, q: seq<Node>, x: Node)
    ensures Count(p + q, x) == Count(p, x) + Count(q, x)
  {
    if p != [] {
      assert (p + q)[0] == p[0];
      assert (p + q)[1..] == p[1..] + q;
      CountAppend(p[1..], q, x);
    } else {
      assert p + q == q;
    }
  }

  /** Visits in one cycle, in the final synthesizer step and in START. */
  lemma CountSmall(x: Node)
    ensures Count(Cycle, x) == if x in {Planner, Executor, Evaluator} then 1 else 0
    ensures Count([Synthesizer, End], x) == if x in {Synthesizer, End} then 1 else 0
    ensures Count([Start], x) == if x == Start then 1 else 0
  {
  }

  lemma {:induction false} CountCycles(k: nat, x: Node)
    ensures Count(Cycles(k), x) == if x in {Planner, Executor, Evaluator} then k else 0
  {
    if k > 0 {
      CountCycles(k - 1, x);
      CountAppend(Cycle, Cycles(k - 1), x);
      CountSmall(x);
    }
  }

  /** Visits in `[Start] + Cycles(k) + [Synthesizer, End]`. */
  lemma CountRun(k: nat, x: Node)
    ensures Count([Start] + Cycles(k) + [Synthesizer, End], x) ==
      if x in {Planner, Executor, Evaluator} then k else 1
  {
    CountAppend([Start], Cycles(k), x);
    CountAppend([Start] + Cycles(k), [Synthesizer, End], x);
    CountCycles(k, x);
    CountSmall(x);
  }

  /** Nothing follows END on a path. */
  lemma EndIsLast(q: seq<Node>)
    requires |q| >= 1 && q[0] == End && IsPath(q)
    ensures q == [End]
  {
  }

  /** A path from the planner to END is some cycles followed by one synthesizer visit. */
  lemma {:induction false} ShapeFromPlanner(q: seq<Node>) returns (k: nat)
    requires |q| >= 1 && q[0] == Planner && q[|q| - 1] == End && IsPath(q)
    ensures k >= 1 && q == Cycles(k) + [Synthesizer, End]
    decreases |q|
  {
    assert |q| >= 2 && q[1] == Executor && IsPath(q[1..]);
    assert |q| >= 3 && q[2] == Evaluator && IsPath(q[2..]) by { assert q[1..][1..] == q[2..]; }
    assert |q| >= 4 && Edge(Evaluator, q[3]) && IsPath(q[3..]) by { assert q[2..][1..] == q[3..]; }
    if q[3] == Planner {
      var k' := ShapeFromPlanner(q[3..]);
      k := k' + 1;
      calc {
        q;
        q[..3] + q[3..];
        Cycle + (Cycles(k') + [Synthesizer, End]);
      }
    } else {
      assert q[3..][1..] == q[4..];
      assert |q| >= 5 && q[4] == End && IsPath(q[4..]);
      EndIsLast(q[4..]);
      k := 1;
      assert q == [Planner, Executor, Evaluator, Synthesizer, End];
    }
  }

  /** Every complete run is one or more cycles followed by exactly one synthesizer visit. */
  lemma RunShape(p: seq<Node>) returns (k: nat)
    requires IsRun(p)
    ensures k >= 1 && p == [Start] + Cycles(k) + [Synthesizer, End]
  {
    k := ShapeFromPlanner(p[1..]);
    assert p == [p[0]] + p[1..];
  }

  lemma {:induction false} CyclesThenSynthesizerIsPath(k: nat)
    ensures IsPath(Cycles(k) + [Synthesizer, End])
    ensures (Cycles(k) + [Synthesizer, End])[0] == if k == 0 then Synthesizer else Planner
  {
    var q := Cycles(k) + [Synthesizer, End];
    if k == 0 {
      assert q == [Synthesizer, End];
      assert q[1..] == [End];
    } else {
      CyclesThenSynthesizerIsPath(k - 1);
      var rest := Cycles(k - 1) + [Synthesizer, End];
      assert q == Cycle + rest;
      assert q[1..][1..][1..] == rest;
      assert IsPath(q[1..][1..]);
      assert IsPath(q[1..]);
    }
  }

  /** Conversely, every such sequence is a complete run. */
  lemma CyclesFormRuns(k: nat)
    requires k >= 1
    ensures IsRun([Start] + Cycles(k) + [Synthesizer, End])
  {
    CyclesThenSynthesizerIsPath(k);
    var q := Cycles(k) + [Synthesizer, End];
    assert [Start] + Cycles(k) + [Synthesizer, End] == [Start] + q;
    assert ([Start] + q)[1..] == q;
  }

  /** In every complete run the planner, executor and evaluator are visited equally often, the synthesizer once. */
  lemma RunVisits(p: seq<Node>)
    requires IsRun(p)
    ensures Count(p, Planner) == Count(p, Executor) == Count(p, Evaluator) >= 1
    ensures Count(p, Synthesizer) == 1 && Count(p, Start) == 1 && Count(p, End) == 1
  {
    var k := RunShape(p);
    CountRun(k, Planner);
    CountRun(k, Executor);
    CountRun(k, Evaluator);
    CountRun(k, Synthesizer);
    CountRun(k, Start);
    CountRun(k, End);
  }

  // ---------------------------------------------------------------------
  // Driving the graph with the evaluator's decisions

  /** How far `n` is from the next evaluator visit or from END. */
  function Rank(n: Node): nat
  {
    match n
    case Start => 3
    case Planner => 2
    case Executor => 1
    case Evaluator => 0
    case Synthesizer => 1
    case End => 0
  }

  /** `n` followed by a walk, when there is one. */
  function Prepend(n: Node, walk: Option<seq<Node>>): Option<seq<Node>>
  {
    match walk
    case None => None
    case Some(rest) => Some([n] + rest)
  }

  /**
    The walk the graph takes from `n` when `states[i]` is the agent state the
    evaluator leaves after its `i`-th remaining visit. `None` when the
    evaluator is reached with no state left, that is, the run has not ended
    after `|states|` cycles.
   */
  function Trace(n: Node, states: seq<AgentState>): (walk: Option<seq<Node>>)
    ensures walk.Some? ==> |walk.value| >= 1 && walk.value[0] == n && walk.value[|walk.value| - 1] == End
    decreases |states|, Rank(n)
  {
    if n == End then Some([End])
    else if n == Evaluator then
      if states == [] then None else Prepend(n, Trace(Step(n, states[0]), states[1..]))
    else Prepend(n, Trace(Step(n, map[]), states))
  }

  /** The index of the first evaluator state that does not replan. */
  function FirstFinish(states: seq<AgentState>): (r: Option<nat>)
    ensures r.Some? ==> r.value < |states| && !Replans(states[r.value])
    ensures r.Some? ==> forall i :: 0 <= i < r.value ==> Replans(states[i])
    ensures r.None? ==> forall i :: 0 <= i < |states| ==> Replans(states[i])
  {
    if states == [] then None
    else if !Replans(states[0]) then Some(0)
    else match FirstFinish(states[1..])
      case None => None
      case Some(i) => Some(i + 1)
  }

  /** The walk from the planner given the evaluator's states. */
  function PlannedWalk(states: seq<AgentState>): Option<seq<Node>>
  {
    match FirstFinish(states)
    case None => None
    case Some(i) => Some(Cycles(i + 1) + [Synthesizer, End])
  }

  /** A planner, executor, evaluator cycle in front of a walk. */
  lemma PrependCycle(walk: Option<seq<Node>>)
    ensures Prepend(Planner, Prepend(Executor, Prepend(Evaluator, walk))) ==
      match walk
      case None => None
      case Some(rest) => Some(Cycle + rest)
  {
    match walk
    case None =>
    case Some(rest) =>
      assert [Planner] + ([Executor] + ([Evaluator] + rest)) == Cycle + rest;
  }

  /** One cycle from the planner, then wherever the evaluator's first state leads. */
  lemma TraceCycle(states: seq<AgentState>)
    ensures states == [] ==> Trace(Planner, states) == None
    ensures states != [] ==>
      Trace(Planner, states) ==
        match Trace(Step(Evaluator, states[0]), states[1..])
        case None => None
        case Some(rest) => Some(Cycle + rest)
  {
    assert Trace(Planner, states) == Prepend(Planner, Trace(Executor, states));
    assert Trace(Executor, states) == Prepend(Executor, Trace(Evaluator, states));
    if states != [] {
      assert Trace(Evaluator, states) == Prepend(Evaluator, Trace(Step(Evaluator, states[0]), states[1..]));
      PrependCycle(Trace(Step(Evaluator, states[0]), states[1..]));
    }
  }

  lemma {:induction false} TraceFromPlanner(states: seq<AgentState>)
    ensures Trace(Planner, states) == PlannedWalk(states)
  {
    TraceCycle(states);
    if states != [] {
      var s0, tail := states[0], states[1..];
      if !Replans(s0) {
        assert Trace(Synthesizer, tail) == Prepend(Synthesizer, Some([End]));
        assert [Synthesizer] + [End] == [Synthesizer, End];
        assert FirstFinish(states) == Some(0);
        assert Cycles(1) == Cycle by { assert Cycle + [] == Cycle; }
      } else {
        TraceFromPlanner(tail);
        match FirstFinish(tail)
        case None =>
        case Some(i) =>
          assert FirstFinish(states) == Some(i + 1);
          assert Cycles(i + 2) + [Synthesizer, End] == Cycle + (Cycles(i + 1) + [Synthesizer, End]);
      }
    }
  }

  /**
    Driving the graph from START: the run ends exactly when some evaluator
    state does not replan, and then it makes one cycle per state up to and
    including the first such state.
   */
  lemma TraceFromStart(states: seq<AgentState>)
    ensures FirstFinish(states).None? ==> Trace(Start, states).None?
    ensures FirstFinish(states).Some? ==>
      Trace(Start, states) == Some([Start] + Cycles(FirstFinish(states).value + 1) + [Synthesizer, End])
  {
    assert Trace(Start, states) == Prepend(Start, Trace(Planner, states));
    TraceFromPlanner(states);
    match FirstFinish(states)
    case None =>
    case Some(i) =>
      assert [Start] + (Cycles(i + 1) + [Synthesizer, End]) == [Start] + Cycles(i + 1) + [Synthesizer, End];
  }

  /** Every walk the driver completes is a complete run of the graph. */
  lemma TraceIsRun(states: seq<AgentState>)
    requires Trace(Start, states).Some?
    ensures IsRun(Trace(Start, states).value)
  {
    TraceFromStart(states);
    CyclesFormRuns(FirstFinish(states).value + 1);
  }

  /** The router alone bounds nothing: an evaluator that always replans never lets the run end. */
  lemma AlwaysReplanNeverEnds(states: seq<AgentState>)
    requires forall i :: 0 <= i < |states| ==> Replans(states[i])
    ensures Trace(Start, states) == None
  {
    TraceFromStart(states);
  }

  /**
    The evaluator assumption the iteration bound rests on: from cycle
    `maxIterations` on (the `i`-th state follows cycle `i + 1`), the
    evaluator does not replan. The router does not check this itself.
   */
  predicate EvaluatorRespectsBound(states: seq<AgentState>, maxIterations: nat)
  {
    maxIterations <= |states|
    && forall i :: 0 <= i < |states| && maxIterations <= i + 1 ==> !Replans(states[i])
  }

  /** Under that assumption a run ends after between 1 and `maxIterations` cycles. */
  lemma BoundedUnderEvaluatorAssumption(states: seq<AgentState>, maxIterations: nat)
    requires maxIterations >= 1
    requires EvaluatorRespectsBound(states, maxIterations)
    ensures Trace(Start, states).Some?
    ensures IsRun(Trace(Start, states).value)
    ensures 1 <= Count(Trace(Start, states).value, Planner) <= maxIterations
  {
    TraceFromStart(states);
    assert !Replans(states[maxIterations - 1]);
    var i := FirstFinish(states).value;
    assert i < maxIterations;
    CyclesFormRuns(i + 1);
    CountRun(i + 1, Planner);
  }

  /** The first non-replanning state is the one all earlier states replan before. */
  lemma FirstFinishAt(states: seq<AgentState>, j: nat)
    requires j < |states| && !Replans(states[j])
    requires forall i :: 0 <= i < j ==> Replans(states[i])
    ensures FirstFinish(states) == Some(j)
  {
  }

  /**
    A run whose first non-replanning evaluator state is the `j`-th makes
    exactly `j + 1` cycles; with `FirstFinishAt`, an evaluator that replans
    until the budget is spent gives exactly `maxIterations` cycles.
   */
  lemma CyclesOfFinish(states: seq<AgentState>, j: nat)
    requires FirstFinish(states) == Some(j)
    ensures Trace(Start, states) == Some([Start] + Cycles(j + 1) + [Synthesizer, End])
    ensures Count(Trace(Start, states).value, Planner) == j + 1
  {
    TraceFromStart(states);
    CountRun(j + 1, Planner);
  }

  /** An evaluator that replans until the budget is spent gives exactly `maxIterations` cycles, then the synthesizer. */
  lemma ReplanUntilBudget(states: seq<AgentState>, maxIterations: nat)
    requires 1 <= maxIterations <= |states|
    requires forall i :: 0 <= i < maxIterations - 1 ==> Replans(states[i])
    requires !Replans(states[maxIterations - 1])
    ensures Trace(Start, states) == Some([Start] + Cycles(maxIterations) + [Synthesizer, End])
  {
    FirstFinishAt(states, maxIterations - 1);
    CyclesOfFinish(states, maxIterations - 1);
  }
}
