# Agentic NL2SQL RAG engine: workflow routing, synthesizer prompt and tool adapters in Dafny

This project models four parts of the engine that answers questions about a movie dataset:

- **The workflow graph** (`code/core/agent.py`). `route_after_evaluator` reads the agent state's
  `evaluator_decision`, with `"continue"` as the default. Only the exact string `"replan"` sends the
  run back to the planner. `build_agent` wires START → planner → executor → evaluator, one
  conditional edge from the evaluator (to the planner or the synthesizer) and synthesizer → END.
  Module `Agent` models:
  - the router;
  - the wired edges;
  - a transition function `Step`;
  - complete runs as node sequences;
  - `Trace`, the walk the graph takes when it is given the states the evaluator leaves after each
    cycle.
- **The synthesizer prompt** (`code/prompts/synthesizer_prompts.py`). Module `SynthesizerPrompts`
  models:
  - the three input checks, each with its `ValueError`;
  - the serialization failure, turned into a `RuntimeError`;
  - the cut of the serialized tool results to 3000 characters followed by `"..."`;
  - the sources line, either `", ".join(sources)` or `"Aucune"`;
  - the fixed French prompt text around these pieces.
- **The SQL adapter** (`code/tools/sql_tool.py`). Module `SqlTool` models how
  `execute_sql_async` turns the backend's JSON reply, or an exception, into
  `{results, error, row_count}`.
- **The semantic-search adapter** (`code/tools/semantic_tool.py`). Module `SemanticTool` models how
  `execute_semantic_async` turns the reply into `{results, error}`, with five results by default.

Module `JsonValue` is a small model of parsed JSON and Python values, and of a call that returns a
value or raises (`Outcome`). `Wrappers` holds `Option` and `Result`.

Python values reach the model as `JsonValue.Value`. A dictionary is a `map`. `json.dumps` is an
input of the prompt builder (`Dump`: the text or the failure reason). The backend's `invoke` and
`json.loads` are function parameters of the adapters.

The repository's own checks expect the loop to stop after `max_iterations` cycles:
`test_checkpoint5.py:52-54` and `:103-105` assert that at most two iterations ran, and its checklist
(`test_checkpoint5.py:121-125`) lists "Max iterations enforced (stops at 2)" and "No infinite
loops". `code/core/agent.py:14-21` does not enforce this: the router looks only at
`evaluator_decision`. The model follows the code:
- `Agent.AlwaysReplanNeverEnds` shows that an evaluator that always replans never lets a run reach
  END. The library's recursion limit, which is not modelled, would abort such a run with an error.
- `Agent.BoundedUnderEvaluatorAssumption` proves the bound only under the assumption
  (`EvaluatorRespectsBound`) that the evaluator stops replanning once the budget is spent. The
  evaluator node is not part of this model.

The docstring of `build_synthesizer_prompt` names `ValueError` and `RuntimeError` only. In the code,
`", ".join(sources)` runs outside the `try`, so a source that is not a string raises a `TypeError`.
The model follows the code.

## Model

| member | source | states |
|---|---|---|
| Agent.RouteAfterEvaluator | code/core/agent.py:14-21 | The route is "planner" or "synthesizer". It is "planner" exactly when `evaluator_decision` is present and equals the string "replan". A missing key routes to "synthesizer". |
| Agent.Successors | code/core/agent.py:36-51 | The successors of a node as `build_agent` wires them. No edge leads back to START. END is reached only from the synthesizer. The planner is reached only from START and the evaluator. The full sets, node by node, are in `SuccessorsByNode`. |
| Agent.Step | code/core/agent.py:18-51 | The transition from a node given the agent state. It never returns to START. It goes to the planner exactly from START or from an evaluator whose state replans. It goes to the synthesizer exactly from an evaluator whose state does not replan. `StepIsWired`, `StepFollowsRouter` and `StepTakesExactlyTheEdges` relate it to the wiring and the router. |
| Agent.StepFollowsRouter | code/core/agent.py:42-49 | From the evaluator, the transition goes to the node that the router's key names in the conditional path map. The key is always one of the map's keys. |
| Agent.StepIsWired | code/core/agent.py:36-51 | Every transition follows an edge that `build_agent` wires. |
| Agent.SuccessorsByNode | code/core/agent.py:36-51 | The successors of each node, listed node by node. |
| Agent.WiredEdges | code/core/agent.py:36-51 | The wired edges are exactly the edge relation the runs use, in both directions. |
| Agent.OnlyEvaluatorBranches | code/core/agent.py:41-49 | The evaluator is the only node with more than one successor. END is the only node with none. |
| Agent.StepTakesExactlyTheEdges | code/core/agent.py:36-51 | An edge a→b exists if and only if some agent state makes the transition from a go to b. |
| Agent.ShapeFromPlanner | code/core/agent.py:38-51 | A path from the planner to END is k ≥ 1 planner/executor/evaluator cycles followed by the synthesizer and END. |
| Agent.RunShape | code/core/agent.py:36-51 | Every complete run from START to END is START, then k ≥ 1 cycles, then the synthesizer, then END. |
| Agent.CyclesFormRuns | code/core/agent.py:36-51 | Conversely, START, k ≥ 1 cycles, the synthesizer and END always form a complete run. |
| Agent.RunVisits | code/core/agent.py:36-51 | In every complete run the planner, executor and evaluator are visited equally often, at least once each. The synthesizer, START and END are visited exactly once. |
| Agent.FirstFinish | code/core/agent.py:16-21 | Returns the index of the first evaluator state that does not replan, with every earlier state replanning. Returns nothing when every state replans. |
| Agent.Trace | code/core/agent.py:36-51 | The walk the graph takes from a node, given the evaluator's states. A completed walk starts at that node and ends at END. Its exact shape is in `TraceFromStart` and `TraceIsRun`. |
| Agent.TraceFromStart | code/core/agent.py:36-51 | Driven by the evaluator's states, the run ends exactly when some state does not replan. It then makes one cycle per state, up to and including the first such state. |
| Agent.TraceIsRun | code/core/agent.py:36-51 | Every walk the driver completes is a complete run of the graph. |
| Agent.AlwaysReplanNeverEnds | code/core/agent.py:18-19 | If every evaluator state says "replan", the run never reaches END. The router imposes no bound of its own; the library's recursion limit, not modelled, would abort such a run with an error. |
| Agent.BoundedUnderEvaluatorAssumption | code/core/agent.py:41-49 | Suppose the evaluator stops replanning once `max_iterations` cycles are done. Then the run ends, is a complete run, and makes between 1 and `max_iterations` cycles. |
| Agent.CyclesOfFinish | code/core/agent.py:41-51 | If the first non-replanning state is the j-th, the run is exactly j+1 cycles and then the synthesizer. |
| Agent.ReplanUntilBudget | code/core/agent.py:41-51 | An evaluator that replans until the budget is spent gives exactly `max_iterations` cycles and then the synthesizer. |
| SynthesizerPrompts.DisplayText | code/prompts/synthesizer_prompts.py:44-48 | Text that fits in 3000 characters is shown unchanged. Longer text is cut to its first 3000 characters, followed by "...". The shown text never exceeds 3003 characters and always starts with the kept prefix. |
| SynthesizerPrompts.DisplayTextAgreement | code/prompts/synthesizer_prompts.py:44-48 | Two serializations are shown alike exactly when both fit and are equal, or both are too long and share their first 3000 characters. |
| SynthesizerPrompts.Join | code/prompts/synthesizer_prompts.py:57 | `sep.join(parts)`. No parts give the empty text. Otherwise the text starts with the first part. Where every other part and separator sit is in `JoinPartAt`, `JoinSeparatorAfter` and `JoinLength`. |
| SynthesizerPrompts.JoinPartAt | code/prompts/synthesizer_prompts.py:57 | Each source sits at its offset in the joined text. |
| SynthesizerPrompts.JoinSeparatorAfter | code/prompts/synthesizer_prompts.py:57 | Every source but the last is followed by the separator. |
| SynthesizerPrompts.JoinLength | code/prompts/synthesizer_prompts.py:57 | The last source ends the joined text. |
| SynthesizerPrompts.JoinAppend | code/prompts/synthesizer_prompts.py:57 | Joining a concatenation equals joining each part and putting the separator between them. |
| JsonValue.TypeName | code/prompts/synthesizer_prompts.py:57 | The type name that the join's TypeError reports. It is "str", "list" or "dict" exactly for a string, a list or a dictionary. |
| SynthesizerPrompts.SourcesLine | code/prompts/synthesizer_prompts.py:57 | No sources give "Aucune". Sources that are all strings give their ", "-join. Otherwise the result is a TypeError naming the first item that is not a string and its type. |
| SynthesizerPrompts.SourcesLineLists | code/prompts/synthesizer_prompts.py:57 | Each source text appears in the line at its position in the list. |
| SynthesizerPrompts.NoSourcesIsAmbiguous | code/prompts/synthesizer_prompts.py:57 | A single source named "Aucune" gives the same line as no source at all. |
| SynthesizerPrompts.BuildSynthesizerPrompt | code/prompts/synthesizer_prompts.py:30-105 | The checks run in order: question, then tool results, then sources. Each failed check gives its own ValueError message. A failed serialization gives a RuntimeError with the prefix. A non-string source gives a TypeError. Otherwise the result is the prompt built from the question, the shown tool results and the sources line. Each outcome holds exactly when its condition does. |
| SynthesizerPrompts.Prompt | code/prompts/synthesizer_prompts.py:50-103 | The f-string. Its length is the sum of the fixed pieces, the question, the shown results and the sources line. Where each piece sits is in `PromptLayout`. |
| SynthesizerPrompts.PromptLayout | code/prompts/synthesizer_prompts.py:50-103 | The question appears verbatim between double quotes after the preamble. Next come the shown tool results, then the sources label and line, then the fixed instructions, each at its computed position. |
| SqlTool.AsDict | code/tools/sql_tool.py:49-53 | The returned dictionary has exactly the keys results, error and row_count. |
| SqlTool.InvokeArgs | code/tools/sql_tool.py:37-44 | The backend receives exactly query, db_name and state_catalog. |
| SqlTool.Normalize | code/tools/sql_tool.py:49-53 | A list passes through with its length as row count. A dict with "error" gives no results and that error. Any other dict or scalar passes through with no error and row count 0. |
| SqlTool.Failed | code/tools/sql_tool.py:54-59 | An exception gives no results, row count 0 and "SQL execution failed: " followed by the message. |
| SqlTool.ExecuteSql | code/tools/sql_tool.py:26-59 | An exception from the call or from the parse gives the failure record. Otherwise the result is the normalised reply. The adapter never raises. |
| SqlTool.ExecuteSqlRowCount | code/tools/sql_tool.py:49-59 | The row count is the length of the results when they are a list, and 0 otherwise. It is non-zero only for a non-empty list. |
| SqlTool.NullErrorLooksLikeEmptyResult | code/tools/sql_tool.py:50-52 | A reply `{"error": null}` is indistinguishable from an empty list. |
| SemanticTool.AsDict | code/tools/semantic_tool.py:45-58 | The returned dictionary has exactly the keys results and error. The results are always a list. |
| SemanticTool.InvokeArgs | code/tools/semantic_tool.py:34-40 | The backend receives exactly query and n_results. |
| SemanticTool.Normalize | code/tools/semantic_tool.py:45-54 | A dict with "error" gives no results and that error. A list gives its items and no error. Anything else gives no results and no error. |
| SemanticTool.Failed | code/tools/semantic_tool.py:55-59 | An exception gives no results and "Semantic search failed: " followed by the message. |
| SemanticTool.ExecuteSemantic | code/tools/semantic_tool.py:26-59 | An exception from the call or from the parse gives the failure record. Otherwise the result is the normalised reply. The adapter never raises. `n_results` defaults to 5. |
| SemanticTool.DefaultAsksForFive | code/tools/semantic_tool.py:26 | A call without `n_results` is the call with `n_results` 5: the backend is asked for five documents. |
| SemanticTool.AdaptersCompared | code/tools/semantic_tool.py:45-58 | On the same reply both adapters report the same error. They give the same results exactly when the reply is a list or a dict with "error". On an exception both give no results. |

## Left out

- LangGraph itself is not modelled: `StateGraph`, `compile`, the `MemorySaver` checkpointer and
  the streamlit resource cache. The graph is modelled as its edges plus a transition function over
  the agent state.
- LangGraph's recursion limit is not modelled. `app.ainvoke` is called without a `recursion_limit`
  (`test_checkpoint5.py:38`, `:89`), so the library default of 25 steps applies: a run that keeps
  replanning ends with `GraphRecursionError` rather than looping for ever. `Trace` instead returns
  `None` when the evaluator's states run out before a non-replanning one.
- The planner, executor, evaluator and synthesizer node bodies are not part of this model. The
  states the evaluator leaves are an input sequence, so the iteration bound is proved only under
  the stated evaluator assumption.
- `asyncio.to_thread`, the `importlib` loading of `tools.py` and the backends it provides are
  not modelled. The backend call and `json.loads` are parameters that return a value or raise.
  Which exception class is raised is not modelled, only its message.
- `json.dumps` with `indent=2, default=str` is not modelled: its output text or failure reason is
  an input. Only the TypeError and ValueError it catches are modelled. Other exceptions are not.
- Floats are kept as reals, with no IEEE behaviour. Dictionary key order is not kept: dictionaries
  are maps.
- Python `len` and Dafny `|s|` both count Unicode code points. Python strings may also hold lone
  surrogates, which Dafny strings cannot; such text is not modelled.
- The fixed instruction text of the prompt is kept verbatim, split into lines that are joined with
  a line break.
- `SynthesizerPrompts.SourcesLine`: Python's exact TypeError wording depends on the interpreter.
  The model's message follows CPython 3 (`sequence item N: expected str instance, T found`).
- The streamlit application and `test_checkpoint5.py` are callers and are not modelled.
