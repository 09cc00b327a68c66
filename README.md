# WorldQuant alpha-mining graph: tool gateway, store and round topology

This project models three parts of an agent that mines alpha expressions on the
WorldQuant platform.

- **The tool gateway** (`MCPClient`, module `Gateway` in `gateway.dfy`). It finds
  platform functions by name in the module `worldquant_platform_functions`. Before a
  call it adds a default `timeout` argument when the function takes one and the
  caller gave none.
  - `run_tool`, `wq_create_simulation` and `wq_get_result` are retried by tenacity:
    up to 5 attempts, exponential waits clamped to [1, 30] seconds, any `Exception`
    retried, and the last one re-raised.
  - Submission and query responses are checked for shape.
  - The rate-limit wrappers grant when no limiter tool exists. When one
    exists, the call to it cannot bind its arguments (see Findings), so
    acquiring is always refused and the limiter is never asked.
  - `store_put` and `store_get` use the first tool present in a fixed list of
    fallbacks.
- **The persistent store** (`SQLiteStore`, class `Storage.Store` in `storage.dfy`). It
  has two append-only tables: state snapshots and the leaderboard of scored
  candidates. It answers two queries: the latest snapshot and the top-k entries by
  score.
- **The round topology and the stub oracle** (module `Graph` in `graph.dfy`).
  - `build_graph` wires planner → author → risk → submit → poll → analyze → decide.
    From decide there is one conditional edge: back to author, or to END when the
    state's `stop` flag is set.
  - `DummyLLM.generate` returns the reply of the first rule whose marker the prompt
    contains. It tries `EXPR:`, then either settings wording, then `SCORE:`, and
    returns `""` when none matches. The order of the rules decides, not where a
    marker sits in the prompt.

`values.dfy` (module `Values`) holds the Python values that cross the tool
boundary, the `dict.get` lookup and Python's truth test.

The platform module is a registry: a map from tool names to a descriptor. A
descriptor says whether the tool is callable and whether its signature has a
`timeout` parameter. What a platform function does is opaque: it is given as an
outcome per attempt, either a returned value or a raised error.

- **One attempt.** It is a pure function. It returns the call made, if any, and the
  outcome.
- **Retry.** It is a method with a loop over attempts. It is proved against the
  predicate `Retried`, which fixes:
  - the number of tries;
  - the returned or re-raised outcome;
  - the exact sequence of tool invocations;
  - the sequence of pauses.
- **Store.** The tables are sequences of rows. The methods append to them. The
  two queries are loops proved against declarative specifications:
  - the latest snapshot is the row with the greatest timestamp, with no tie-break;
  - top-k is the ordered selection of SQLite's `ORDER BY score DESC LIMIT k`, with
    the order among equal scores left open.
- **Graph.** Built step by step on a `StateGraph` object. Its successor relation is
  proved to be the transition function `Next`.
  - Runs of the graph are sequences of stages. Every run is a prefix of the planner
    followed by whole rounds. A run that reaches END is planner plus whole rounds stopped at the
    last decide, and conversely.
  - The oracle's reply identifies exactly which rule fired.

These points follow the code where its docstrings and names suggest otherwise:

- **Missing tool.** A missing tool raises `AttributeError`, and that is retried like
  any other exception. So a missing tool costs five attempts before the error
  surfaces, with no platform call made.
- **Keyword binding.** Python binds keyword arguments before a body runs.
  - `_call_tool(self, name, **kwargs)` and `run_tool(self, name, **kwargs)` cannot take a
    keyword `name`. In `run_tool` that `TypeError` is raised inside the retry, so it
    costs five attempts with no call.
  - `call_platform(self, tool_name, **kwargs)` cannot take `self` or `tool_name`. It is
    not retried, so it fails at once.
  - tenacity enters every decorated method through `Retrying.__call__(self, fn, *args,
    **kwargs)`, so a keyword `self` or `fn` to `run_tool` fails before the first try.
- **Pauses.** tenacity checks its stop condition before it sleeps, so five failed
  attempts pause four times: 1, 2, 4 and 8 seconds.
- **Storage fallbacks.** The first *present* tool alone decides the outcome. A
  failing tool gives `False` or `None`; later alternatives are not tried.
- **Rate-limit tuples.** The acquire name tuple holds the same name twice, and so
  does the release tuple. Each chain therefore has a single candidate.
- **Latest snapshot.** It is chosen by the second-resolution timestamp, not by
  insertion order. Snapshots written in the same second may come back in any
  order, and so may leaderboard rows with equal scores.

## Model

| member | source | states |
|---|---|---|
| `Gateway.InjectTimeout` | src/mcp_client.py:47-50 | every caller argument is passed unchanged, including a caller's own `timeout`. The key set grows by exactly `timeout` when the tool takes one, and otherwise stays the same. An added timeout is the client's default |
| `Gateway.Invoke` | src/mcp_client.py:36-57 | once the arguments are bound, a call is made iff the name is present in the registry and callable. An absent name raises `AttributeError` with the not-found message and invokes nothing. A present one invokes that tool with the timeout-completed arguments and yields its outcome unchanged |
| `Gateway.CallTool` | src/mcp_client.py:39-57 | a keyword `self` or `name` raises `TypeError` and invokes nothing. Otherwise the not-found check and the single invocation happen as in `Invoke`. A call is made iff the keywords bind and the tool is present |
| `Gateway.FixedKeywordsBind` | src/mcp_client.py:89-179 | the keywords of the submission and query calls (lines 89, 110) and of the storage calls (lines 147, 158, 171, 179) always bind, so for them `_call_tool` behaves exactly as `Invoke` |
| `Gateway.DefaultClientTimeout` | src/mcp_client.py:31-50 | a client with the defaults sends `timeout=30` to a present tool that takes a timeout, when the caller gave none |
| `Gateway.DefaultClientPolls` | src/mcp_client.py:31-34 | in every registry, a client with the defaults polls exactly `get_submission_check`, and reaches the platform iff that tool is present |
| `Gateway.CreateSimulationAttempt` | src/mcp_client.py:80-94 | one attempt returns iff `create_simulation` is present and answers a dict holding `location`, and then returns that response unchanged. Another answer raises `RuntimeError`. A platform error passes through. A missing tool raises `AttributeError` with no call. `meta=None` is sent as `{}` |
| `Gateway.GetResultAttempt` | src/mcp_client.py:102-114 | one attempt calls exactly the configured query tool, and only with `location`. It returns iff that tool is present and answers a dict, and returns the answer unchanged. A non-dict raises `RuntimeError`; a missing tool raises `AttributeError` with no call |
| `Gateway.BackoffBoundedAndNondecreasing` | src/mcp_client.py:17-19 | every pause of the exponential schedule lies in [1, 30], and the pauses never decrease |
| `Gateway.FailedCallPauses` | src/mcp_client.py:59-64 | the four pauses between five failed attempts are 1, 2, 4 and 8 seconds |
| `Gateway.LateWaitsAreCapped` | src/mcp_client.py:60 | from the sixth attempt on, the pause is the 30-second cap |
| `Gateway.Retry` | src/mcp_client.py:59-64 | at most 5 tries, and stops at the first success. Every earlier try raised. The result is exactly the last try's outcome, so a failure is re-raised unchanged and only after 5 tries. The calls made are those of the tries, in order. The pauses are the backoff schedule, one between consecutive tries |
| `Gateway.RetriedFirstSuccess` | src/mcp_client.py:59-64 | if try k < 5 is the first success, the retried call makes k+1 tries and returns that try's value. It pauses k times, each pause in [1, 30], non-decreasing |
| `Gateway.RetriedAllFail` | src/mcp_client.py:59-64 | if all five tries fail, the fifth failure is re-raised after pauses of 1, 2, 4 and 8 |
| `Gateway.RunToolAttempt` | src/mcp_client.py:65-71 | one try: a keyword `self` or `name` raises `TypeError` with no call. Otherwise a missing tool raises the not-found `AttributeError` with no call, and a present tool is called once with the timeout-completed arguments and its outcome passed on |
| `Gateway.RunTool` | src/mcp_client.py:59-71 | a retried generic call. A keyword `self` or `fn` fails at once with `TypeError`, after no tries. A keyword `name` is tried 5 times, invokes nothing and raises `TypeError`. A missing tool is tried 5 times, invokes nothing and raises the not-found `AttributeError`. A present tool returns the first success, and every try calls that tool with the same arguments |
| `Gateway.CallPlatform` | src/mcp_client.py:187-192 | a keyword `self` or `tool_name` fails at once with `TypeError`, after no tries and no call. Anything else behaves exactly as `run_tool` with the same name and keywords |
| `Gateway.CreateSimulation` | src/mcp_client.py:74-94 | a retried submission. A returned value is the attempt's response, a dict with `location`. A missing tool means 5 tries with no call, then `AttributeError`. Otherwise every try calls `create_simulation(settings, regular, meta or {})` |
| `Gateway.GetResult` | src/mcp_client.py:96-114 | a retried query. A returned value is the attempt's dict response. A missing query tool means 5 tries with no call. Otherwise every try calls the query tool with `location` |
| `Gateway.FirstPresent` | src/mcp_client.py:119-120 | the index chosen from a name tuple is the first name present in the registry. There is none iff no name in the tuple is present |
| `Gateway.SelectTool` | src/mcp_client.py:155-156 | the loop over a fallback tuple, with its early return, picks the first present name |
| `Gateway.DuplicatedNameTuple` | src/mcp_client.py:119-134 | the two-element tuples of the rate-limit wrappers each hold one name. A tool is found iff that name is present, and it is always the first entry |
| `Gateway.LimiterNeverConsulted` | src/mcp_client.py:122 | the limiter call of both rate-limit wrappers raises `TypeError` for the keyword `name`, whatever the limiter would answer, and reaches no tool |
| `Gateway.RateLimitAcquire` | src/mcp_client.py:117-131 | as written: the limiter is never asked, and the result is `True` iff no acquire tool exists. With a limiter, the caught `TypeError` makes it `False`. `permits` defaults to 1 |
| `Gateway.RateLimitAcquireFixed` | src/mcp_client.py:117-131 | as intended: called with `name` and `permits` iff the acquire tool exists, and `True` with no call otherwise. A raise gives `False`; a dict answer gives `bool(resp.get("ok", True))`; any other answer gives `bool(resp)` |
| `Gateway.RateLimitRelease` | src/mcp_client.py:133-142 | as written: never raises, and the limiter is never asked |
| `Gateway.RateLimitReleaseFixed` | src/mcp_client.py:133-142 | as intended: calls the release tool, with `name` and `permits`, iff it is present. No outcome of that call escapes |
| `Gateway.StorePut` | src/mcp_client.py:144-166 | only the first present tool of `store_put`, `save_simulation_data`, `manage_config` is called, once, with `key` and `value`. With none present the result is `False`. A raise gives `False` with no fall-through. A dict answer gives `bool(resp.get("ok", True))`; any other answer gives `True` |
| `Gateway.StoreGet` | src/mcp_client.py:168-184 | only the first present tool of `store_get`, `get_platform_setting_options`, `get_user_profile` is called, once, with `key`. With none present, or when the tool raises, the result is `None`; otherwise it is the answer unchanged |
| `Storage.CreateIsIdempotent` | src/storage.py:13-19 | creating the tables again keeps the rows of tables that already exist |
| `Storage.LaterSnapshotWins` | src/storage.py:27-30 | a snapshot stamped later than all others is the one recovery reads back |
| `Storage.TopTwoOfThree` | src/storage.py:40 | over entries scored 5, 9 and 3, the top two are the 9-point entry and then the 5-point one |
| `Storage.Store.constructor` | src/storage.py:7-19 | opening a file keeps the rows of the tables present in it, and a missing table starts empty |
| `Storage.Store.Init` | src/storage.py:11-19 | re-running table creation on an open store leaves both tables unchanged |
| `Storage.Store.SaveSnapshot` | src/storage.py:21-25 | appends exactly one snapshot row `(ts, round_idx, state)`. All earlier rows and the leaderboard are unchanged |
| `Storage.Store.LoadLatestSnapshot` | src/storage.py:27-30 | `{}` when there is no snapshot. Otherwise the state of a row whose timestamp no other row exceeds, with ties left open |
| `Storage.Store.AddLeaderboard` | src/storage.py:32-36 | appends exactly one leaderboard row, whose comment defaults to `""`. Earlier rows and the snapshots are unchanged |
| `Storage.Store.TopK` | src/storage.py:38-41 | returns `min(k, n)` rows, or all n when k is negative, with a default k of 5. Each row is a distinct stored entry projected to `expr`, `settings`, `score` and `ts`, without its comment. The rows are in non-increasing score order, and no entry left out scores higher than a returned row |
| `Graph.Next` | src/graph.py:39-46 | each stage before decide leads to the next stage of the chain, and decide follows the conditional edge. Planner is never a successor |
| `Graph.StateGraph.constructor` | src/graph.py:21 | a new graph has no nodes, edges or conditional edges |
| `Graph.StateGraph.AddNode` | src/graph.py:31-37 | registers one node and nothing else |
| `Graph.StateGraph.AddEdge` | src/graph.py:40-45 | appends one plain edge and nothing else |
| `Graph.StateGraph.AddConditionalEdges` | src/graph.py:46 | attaches the router, tabulated on the `stop` flag, to its source stage, and nothing else |
| `Graph.BuildGraph` | src/graph.py:31-46 | the built graph has the seven stage nodes in order. From every stage, under either flag value, its only successor is the one `Next` gives |
| `Graph.BuiltSuccessors` | src/graph.py:40-46 | the six plain edges and the one conditional edge give every stage exactly the successor `Next` gives |
| `Graph.RunFollowsRounds` | src/graph.py:40-46 | in every run, the stage after i steps is planner at step 0 and then the six-stage round, repeated |
| `Graph.PlannerOnlyFirst` | src/graph.py:40-46 | planner is visited only at the start of a run |
| `Graph.AuthorOpensRound` | src/graph.py:40-46 | every visit to author is followed by risk, submit, poll, analyze and decide, in that order, as far as the run goes |
| `Graph.FinishedRunIsWholeRounds` | src/graph.py:40-46 | a run that reaches END is planner and at least one whole round. It stopped at its last decide and continued at every earlier one |
| `Graph.WholeRoundsFinish` | src/graph.py:40-46 | planner and n ≥ 1 whole rounds, continuing at every decide but the last, is a run that reaches END |
| `Graph.ReplyIdentifiesRule` | src/graph.py:10-18 | each of the four replies is given exactly when its rule is the first to match. The rules are tried in order: `EXPR:`, either settings wording, then `SCORE:`. The empty reply means that no rule matched |
| `Graph.ExpressionRuleComesFirst` | src/graph.py:12-13 | a prompt containing `EXPR:` anywhere gets the expression reply, whatever else it contains |
| `Graph.SettingsRuleInBothLanguages` | src/graph.py:14-15 | either settings wording, English or Chinese, gets the settings reply when `EXPR:` is absent |

## Left out

- `src/run.py`: the process driver is not part of this model. It prints, writes tracebacks and makes a best-effort snapshot of the initial state on failure; all of that is I/O.
- `src/prompts.py`: it holds only prompt text. The oracle's markers are modelled as constants.
- `extract.py`: it reflects over a Python module with `inspect`, and nothing of that can be stated without the module.
- The platform functions and the LLM: they are opaque. A tool's behaviour is an outcome given per attempt, and its signature is reduced to whether it has a `timeout` parameter.
- A caller-supplied `timeout` to a tool that has neither a `timeout` parameter nor `**kwargs` makes Python raise `TypeError`. That error is part of the tool's opaque outcome.
- Gateway.RunTool: when the keywords repeat several positional parameters, Python names the first one in the caller's keyword order. `Dict` keeps no order, so the model's message names the first in declaration order.
- `_call_tool` adds `timeout` to `kwargs` in place. The model adds it as a functional update, which is equivalent: `**kwargs` is a fresh dictionary on every call.
- Real time: sleeping, logging and the elapsed-time measurement are not modelled. Pauses are returned as a sequence of seconds rather than slept.
- The exception hierarchy is not modelled. Retry and the wrappers' `except` clauses cover every subclass of `Exception`, so errors are kept as four message-carrying kinds.
- Exceptions outside `Exception`, such as `KeyboardInterrupt` or `SystemExit`, are not modelled. tenacity does not retry them, and the wrappers do not catch them.
- tenacity's internals are assumed to be those of tenacity 8: `wait_exponential` (multiplier 1, min 1, max 30), `stop_after_attempt` checked before the pause, and entry through `Retrying.__call__(self, fn, *args, **kwargs)`.
- SQLite and JSON are not modelled: the connection, commits, `json.dumps`/`json.loads` and the database file. Rows hold the dictionaries themselves, which takes JSON serialisation as lossless. The file's contents at open time are parameters of the constructor.
- `time.time()`: timestamps are parameters of `SaveSnapshot` and `AddLeaderboard`.
- Storage.Store.AddLeaderboard: scores are integers, not floating-point numbers, and the value type has no floats. Only the order of scores matters to the queries.
- `store_put` checks `store_put` first and then loops over the two alternatives. The model treats this as one first-present selection over the three names, which decides the same way.
- `build_graph` never declares an entry point, and compiling such a graph is langgraph's concern. The model takes planner as where runs start, as the topology comment on `src/graph.py:39` draws it.
- `inspect.signature` (line 48) can itself raise for a callable without a signature, before any call is made. The `Tool` descriptor only records whether a `timeout` parameter exists, so the model cannot express that failure.
- langgraph is not modelled: graph compilation, its validation, the `MemorySaver` checkpointer and the node functions (`planner_node` … `decide_node`, how each updates the state and sets `stop`). The graph is modelled through its nodes, edges and conditional edge. Runs take the `stop` flags as given.

## Findings

| source | as written | input that shows it | evidently intended | confidence | as-written member | corrected member |
|---|---|---|---|---|---|---|
| src/mcp_client.py:122 | `rate_limit_acquire` passes the limiter name as the keyword `name` to `_call_tool`, whose own positional parameter is also `name` (line 39). The `TypeError` is caught at lines 126-128, so the answer is `False` | a registry with a callable `acquire_rate_limit` that would answer `{"ok": True}` | the limiter is asked with `name` and `permits`, and its answer decides | high; not executed | `Gateway.RateLimitAcquire`, `Gateway.LimiterNeverConsulted` | `Gateway.RateLimitAcquireFixed` |
| src/mcp_client.py:137 | `rate_limit_release` makes the same call. The `TypeError` is caught at lines 139-141, so the limiter is never released | a registry with a callable `release_rate_limit` | the release tool is called once with `name` and `permits` | high; not executed | `Gateway.RateLimitRelease`, `Gateway.LimiterNeverConsulted` | `Gateway.RateLimitReleaseFixed` |

Each corrected member reads `_call_tool`'s own parameters as bound by position only. That is `Invoke`, the body of `_call_tool` after binding. `Gateway.FixedKeywordsBind` shows that every other caller already behaves as `Invoke`.
