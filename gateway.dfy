/** The tool gateway of the agent (`MCPClient`): late binding of platform tool
    names, default-timeout injection, the bounded exponential-backoff retry
    around tool runs, submissions and result queries, the shape checks on
    their responses, and the best-effort rate-limit and key/value wrappers
    with their ordered fallback names.

    The platform module is an explicit registry from attribute names to what
    reflection can tell about them, and what a platform function does when it
    runs is an opaque `Outcome` supplied by the caller (one per attempt for
    the retried operations). */
module Gateway {
  import opened Values

  // ---------------------------------------------------------------------------
  // Constants of the retry policy and of the client's defaults
  // ---------------------------------------------------------------------------

  const RetryAttempts: nat := 5
  const RetryWaitMultiplier: nat := 1
  const RetryWaitMin: nat := 1
  const RetryWaitMax: nat := 30

  const DefaultTimeout: int := 30
  const DefaultQueryTool: string := "get_submission_check"
  const CreateTool: string := "create_simulation"

  /** The name tuples the best-effort wrappers walk through, in order. The
      rate-limit tuples name the same tool twice, as `mcp_client.py` does. */
  const AcquireTools: seq<string> := ["acquire_rate_limit", "acquire_rate_limit"]
  const ReleaseTools: seq<string> := ["release_rate_limit", "release_rate_limit"]
  const StorePutTools: seq<string> := ["store_put", "save_simulation_data", "manage_config"]
  const StoreGetTools: seq<string> := ["store_get", "get_platform_setting_options", "get_user_profile"]

  // ---------------------------------------------------------------------------
  // Data model
  // ---------------------------------------------------------------------------

  /** What `hasattr`, `callable` and `inspect.signature` reveal about one
      attribute of the platform module. */
  datatype Tool = Tool(callable: bool, acceptsTimeout: bool)

  /** The platform module: attribute name to attribute. */
  type Registry = map<string, Tool>

  /** The exceptions the gateway raises or passes on. All of them are
      subclasses of Python's `Exception`, so the retry policy retries all. */
  datatype Error =
    | AttributeError(message: string)
    | RuntimeError(message: string)
    | TypeError(message: string)      // arguments that cannot be bound to a callee
    | PlatformError(message: string)  // whatever a platform function raised

  /** How one run of a platform function ended. */
  datatype Outcome = Returned(value: Value) | Raised(error: Error)

  /** One invocation of a platform function, with the keyword arguments it got. */
  datatype Call = Call(tool: string, kwargs: Dict)

  /** One try of an operation: the invocation that reached the platform, if
      any, and how the try ended. */
  datatype Step = Step(call: Option<Call>, result: Outcome)

  /** The client's two settings, fixed at construction. */
  datatype Client = Client(defaultTimeout: int, queryTool: string)

  /** `MCPClient()` with its default arguments. */
  function DefaultClient(): Client {
    Client(DefaultTimeout, DefaultQueryTool)
  }

  // ---------------------------------------------------------------------------
  // Binding keyword arguments
  // ---------------------------------------------------------------------------

  /** Python's binding rule for `f(a, b, **kwargs)`: a keyword that names one of
      the parameters `f` already receives by position is a `TypeError`.
      `params` lists those parameters in declaration order; the result is the
      first of them that the keywords repeat. */
  function Clash(params: seq<string>, kwargs: Dict): (p: Option<string>)
    ensures p.Some? ==> p.value in params && p.value in kwargs
    ensures p.None? <==> forall i :: 0 <= i < |params| ==> params[i] !in kwargs
  {
    if params == [] then None
    else if params[0] in kwargs then Some(params[0])
    else Clash(params[1..], kwargs)
  }

  function MultipleValuesMessage(callee: string, param: string): string {
    callee + "() got multiple values for argument '" + param + "'"
  }

  /** The parameters bound by position ahead of `**kwargs`. */
  const CallToolParams: seq<string> := ["self", "name"]        // `_call_tool(self, name, **kwargs)`
  const RunToolParams: seq<string> := ["self", "name"]         // `run_tool(self, name, **kwargs)`
  const CallPlatformParams: seq<string> := ["self", "tool_name"]  // `call_platform(self, tool_name, **kwargs)`
  /** tenacity's `Retrying.__call__(self, fn, *args, **kwargs)`, through which
      every decorated method is entered. */
  const RetryWrapperParams: seq<string> := ["self", "fn"]

  // ---------------------------------------------------------------------------
  // Resolving and invoking one tool
  // ---------------------------------------------------------------------------

  /** `_has_tool`: the module has an attribute of that name and it is callable. */
  predicate HasTool(reg: Registry, name: string) {
    name in reg && reg[name].callable
  }

  function NotFoundMessage(name: string): string {
    "Platform tool '" + name + "' not found in worldquant_platform_functions"
  }

  /** The keyword arguments `_call_tool` passes on: the caller's, plus
      `timeout` set to the default when the tool declares that parameter and
      the caller gave none. */
  function InjectTimeout(tool: Tool, kwargs: Dict, default: int): (sent: Dict)
    ensures forall k :: k in kwargs ==> k in sent && sent[k] == kwargs[k]
    ensures sent.Keys == if tool.acceptsTimeout then kwargs.Keys + {"timeout"} else kwargs.Keys
    ensures "timeout" !in kwargs && "timeout" in sent ==> sent["timeout"] == Int(default)
  {
    if tool.acceptsTimeout && "timeout" !in kwargs then kwargs["timeout" := Int(default)] else kwargs
  }

  /** The body of `_call_tool` once its arguments are bound: a name that does
      not resolve raises before anything is invoked; otherwise the tool runs
      once, with the timeout injected, and its own outcome is the outcome of
      the call. */
  function Invoke(c: Client, reg: Registry, name: string, kwargs: Dict, resp: Outcome): (s: Step)
    ensures s.call.Some? <==> HasTool(reg, name)
    ensures !HasTool(reg, name) ==> s.result == Raised(AttributeError(NotFoundMessage(name)))
    ensures HasTool(reg, name) ==>
      s.call == Some(Call(name, InjectTimeout(reg[name], kwargs, c.defaultTimeout))) && s.result == resp
  {
    if !HasTool(reg, name) then
      Step(None, Raised(AttributeError(NotFoundMessage(name))))
    else
      Step(Some(Call(name, InjectTimeout(reg[name], kwargs, c.defaultTimeout))), resp)
  }

  /** `_call_tool(name, **kwargs)`: keywords `self` or `name` cannot be bound
      and raise `TypeError` before the body runs; otherwise `Invoke`. */
  function CallTool(c: Client, reg: Registry, name: string, kwargs: Dict, resp: Outcome): (s: Step)
    ensures s.call.Some? <==> Clash(CallToolParams, kwargs).None? && HasTool(reg, name)
    ensures Clash(CallToolParams, kwargs).Some? ==>
      s.result == Raised(TypeError(MultipleValuesMessage("MCPClient._call_tool", Clash(CallToolParams, kwargs).value)))
    ensures Clash(CallToolParams, kwargs).None? && !HasTool(reg, name) ==>
      s.result == Raised(AttributeError(NotFoundMessage(name)))
    ensures Clash(CallToolParams, kwargs).None? && HasTool(reg, name) ==>
      s.call == Some(Call(name, InjectTimeout(reg[name], kwargs, c.defaultTimeout))) && s.result == resp
  {
    match Clash(CallToolParams, kwargs)
    case Some(p) => Step(None, Raised(TypeError(MultipleValuesMessage("MCPClient._call_tool", p))))
    case None => Invoke(c, reg, name, kwargs, resp)
  }

  /** Every other caller of `_call_tool` passes fixed keywords that bind, so
      for them the call is exactly `Invoke`. */
  lemma FixedKeywordsBind(c: Client, reg: Registry, tool: string, settings: Dict, regular: string,
                          meta: Option<Dict>, location: string, key: string, value: Dict, resp: Outcome)
    ensures CallTool(c, reg, tool, SubmissionArgs(settings, regular, meta), resp)
         == Invoke(c, reg, tool, SubmissionArgs(settings, regular, meta), resp)
    ensures CallTool(c, reg, tool, map["location" := Str(location)], resp)
         == Invoke(c, reg, tool, map["location" := Str(location)], resp)
    ensures CallTool(c, reg, tool, PutArgs(key, value), resp) == Invoke(c, reg, tool, PutArgs(key, value), resp)
    ensures CallTool(c, reg, tool, map["key" := Str(key)], resp) == Invoke(c, reg, tool, map["key" := Str(key)], resp)
  {
  }

  /** A client built with the defaults sends `timeout=30` to a tool that takes
      one when the caller gave none. */
  lemma DefaultClientTimeout(reg: Registry, name: string, kwargs: Dict, resp: Outcome)
    requires HasTool(reg, name) && reg[name].acceptsTimeout && "timeout" !in kwargs
    requires Clash(CallToolParams, kwargs).None?
    ensures CallTool(DefaultClient(), reg, name, kwargs, resp).call == Some(Call(name, kwargs["timeout" := Int(30)]))
  {
  }

  /** A client built with the defaults polls `get_submission_check`, and
      reaches the platform exactly when that tool exists. */
  lemma DefaultClientPolls(reg: Registry, location: string, resp: Outcome)
    ensures GetResultAttempt(DefaultClient(), reg, location, resp).call.Some? <==> HasTool(reg, "get_submission_check")
    ensures GetResultAttempt(DefaultClient(), reg, location, resp).call.Some? ==>
      GetResultAttempt(DefaultClient(), reg, location, resp).call.value.tool == "get_submission_check"
  {
  }

  // ---------------------------------------------------------------------------
  // Single attempts of the three retried operations
  // ---------------------------------------------------------------------------

  /** `meta or {}` for a parameter typed `Optional[Dict]`. */
  function MetaOrEmpty(meta: Option<Dict>): Dict {
    if meta.Some? then meta.value else map[]
  }

  function SubmissionArgs(settings: Dict, regular: string, meta: Option<Dict>): Dict {
    map["settings" := Dict(settings), "regular" := Str(regular), "meta" := Dict(MetaOrEmpty(meta))]
  }

  const MissingCreateMessage: string := "Platform does not implement 'create_simulation'"
  const BadSubmissionMessage: string := "create_simulation must return dict containing 'location'"

  /** One try of `wq_create_simulation`. */
  function CreateSimulationAttempt(c: Client, reg: Registry, settings: Dict, regular: string,
                                   meta: Option<Dict>, resp: Outcome): (s: Step)
    ensures s.call.Some? <==> HasTool(reg, CreateTool)
    ensures s.call.Some? ==>
      && s.call.value.tool == CreateTool
      && s.call.value.kwargs == InjectTimeout(reg[CreateTool], SubmissionArgs(settings, regular, meta), c.defaultTimeout)
    ensures !HasTool(reg, CreateTool) ==> s.result == Raised(AttributeError(MissingCreateMessage))
    ensures s.result.Returned? <==>
      HasTool(reg, CreateTool) && resp.Returned? && IsDictWith(resp.value, "location")
    ensures s.result.Returned? ==> s.result == resp
    ensures HasTool(reg, CreateTool) && resp.Raised? ==> s.result == resp
    ensures HasTool(reg, CreateTool) && resp.Returned? && !IsDictWith(resp.value, "location") ==>
      s.result == Raised(RuntimeError(BadSubmissionMessage))
  {
    if !HasTool(reg, CreateTool) then
      Step(None, Raised(AttributeError(MissingCreateMessage)))
    else
      var step := CallTool(c, reg, CreateTool, SubmissionArgs(settings, regular, meta), resp);
      if step.result.Returned? && !IsDictWith(step.result.value, "location") then
        Step(step.call, Raised(RuntimeError(BadSubmissionMessage)))
      else
        step
  }

  function MissingQueryMessage(tool: string): string {
    "Platform does not implement query tool '" + tool + "'"
  }

  function BadResultMessage(tool: string): string {
    "Query tool " + tool + " returned invalid response"
  }

  /** One try of `wq_get_result`: only the configured query tool is asked,
      with the location as its one argument of the caller's. */
  function GetResultAttempt(c: Client, reg: Registry, location: string, resp: Outcome): (s: Step)
    ensures s.call.Some? <==> HasTool(reg, c.queryTool)
    ensures s.call.Some? ==>
      s.call.value == Call(c.queryTool, InjectTimeout(reg[c.queryTool], map["location" := Str(location)], c.defaultTimeout))
    ensures !HasTool(reg, c.queryTool) ==> s.result == Raised(AttributeError(MissingQueryMessage(c.queryTool)))
    ensures s.result.Returned? <==> HasTool(reg, c.queryTool) && resp.Returned? && resp.value.Dict?
    ensures s.result.Returned? ==> s.result == resp
    ensures HasTool(reg, c.queryTool) && resp.Raised? ==> s.result == resp
    ensures HasTool(reg, c.queryTool) && resp.Returned? && !resp.value.Dict? ==>
      s.result == Raised(RuntimeError(BadResultMessage(c.queryTool)))
  {
    if !HasTool(reg, c.queryTool) then
      Step(None, Raised(AttributeError(MissingQueryMessage(c.queryTool))))
    else
      var step := CallTool(c, reg, c.queryTool, map["location" := Str(location)], resp);
      if step.result.Returned? && !step.result.value.Dict? then
        Step(step.call, Raised(RuntimeError(BadResultMessage(c.queryTool))))
      else
        step
  }

  /** One try of `run_tool` inside the retry wrapper: `run_tool`'s own
      parameters are bound first, then `_call_tool` runs. */
  function RunToolAttempt(c: Client, reg: Registry, name: string, kwargs: Dict, resp: Outcome): (s: Step)
    ensures s.call.Some? <==> Clash(RunToolParams, kwargs).None? && HasTool(reg, name)
    ensures Clash(RunToolParams, kwargs).Some? ==>
      s.result == Raised(TypeError(MultipleValuesMessage("MCPClient.run_tool", Clash(RunToolParams, kwargs).value)))
    ensures Clash(RunToolParams, kwargs).None? && !HasTool(reg, name) ==>
      s.result == Raised(AttributeError(NotFoundMessage(name)))
    ensures Clash(RunToolParams, kwargs).None? && HasTool(reg, name) ==>
      s.call == Some(Call(name, InjectTimeout(reg[name], kwargs, c.defaultTimeout))) && s.result == resp
  {
    match Clash(RunToolParams, kwargs)
    case Some(p) => Step(None, Raised(TypeError(MultipleValuesMessage("MCPClient.run_tool", p))))
    case None => CallTool(c, reg, name, kwargs, resp)
  }

  /** The tries of the three retried operations, indexed from 0; `respond(i)`
      is what the platform function does on the i-th try. */
  function RunToolAttempts(c: Client, reg: Registry, name: string, kwargs: Dict,
                           respond: nat -> Outcome): nat -> Step
  {
    (i: nat) => RunToolAttempt(c, reg, name, kwargs, respond(i))
  }

  function CreateSimulationAttempts(c: Client, reg: Registry, settings: Dict, regular: string,
                                    meta: Option<Dict>, respond: nat -> Outcome): nat -> Step
  {
    (i: nat) => CreateSimulationAttempt(c, reg, settings, regular, meta, respond(i))
  }

  function GetResultAttempts(c: Client, reg: Registry, location: string,
                             respond: nat -> Outcome): nat -> Step
  {
    (i: nat) => GetResultAttempt(c, reg, location, respond(i))
  }

  // ---------------------------------------------------------------------------
  // The retry policy
  // ---------------------------------------------------------------------------

  function Pow2(e: nat): (p: nat)
    ensures p >= 1
  {
    if e == 0 then 1 else 2 * Pow2(e - 1)
  }

  lemma {:induction false} Pow2Monotone(a: nat, b: nat)
    requires a <= b
    ensures Pow2(a) <= Pow2(b)
  {
    if a < b {
      Pow2Monotone(a, b - 1);
    }
  }

  /** `wait_exponential(multiplier=1, min=1, max=30)`: the pause after the
      failed attempt with the given (1-based) number. */
  function Wait(attemptNumber: nat): int
    requires attemptNumber >= 1
  {
    var raw := RetryWaitMultiplier * Pow2(attemptNumber - 1);
    if raw < RetryWaitMin then RetryWaitMin
    else if raw > RetryWaitMax then RetryWaitMax
    else raw
  }

  /** The pauses taken after the first n failed attempts. */
  function Backoff(n: nat): (ws: seq<int>)
    ensures |ws| == n
  {
    if n == 0 then [] else Backoff(n - 1) + [Wait(n)]
  }

  lemma {:induction false} BackoffAt(n: nat, i: nat)
    requires i < n
    ensures Backoff(n)[i] == Wait(i + 1)
  {
    if i < n - 1 {
      BackoffAt(n - 1, i);
    }
  }

  /** Every pause lies in [1, 30] and the pauses never shrink. */
  lemma BackoffBoundedAndNondecreasing(n: nat)
    ensures forall i :: 0 <= i < n ==> RetryWaitMin <= Backoff(n)[i] <= RetryWaitMax
    ensures forall i, j :: 0 <= i <= j < n ==> Backoff(n)[i] <= Backoff(n)[j]
  {
    forall i, j | 0 <= i <= j < n
      ensures RetryWaitMin <= Backoff(n)[i] <= RetryWaitMax
      ensures Backoff(n)[i] <= Backoff(n)[j]
    {
      BackoffAt(n, i);
      BackoffAt(n, j);
      Pow2Monotone(i, j);
    }
  }

  /** A call that fails five times pauses four times, for 1, 2, 4 and 8 units:
      the stop condition is checked before the fifth pause. */
  lemma FailedCallPauses()
    ensures Backoff(RetryAttempts - 1) == [1, 2, 4, 8]
  {
    assert Pow2(3) == 8;
  }

  /** Long runs of failures pause for the cap. */
  lemma LateWaitsAreCapped(attemptNumber: nat)
    requires attemptNumber >= 6
    ensures Wait(attemptNumber) == RetryWaitMax
  {
    Pow2Monotone(5, attemptNumber - 1);
  }

  function CallOf(s: Step): seq<Call> {
    if s.call.Some? then [s.call.value] else []
  }

  /** The invocations the first n tries made, in order. */
  function Invoked(attempt: nat -> Step, n: nat): seq<Call> {
    if n == 0 then [] else Invoked(attempt, n - 1) + CallOf(attempt(n - 1))
  }

  /** When every try sends the same request, n tries send it n times. */
  lemma {:induction false} InvokedUniform(attempt: nat -> Step, n: nat, c: Call)
    requires forall i :: 0 <= i < n ==> attempt(i).call == Some(c)
    ensures |Invoked(attempt, n)| == n
    ensures forall k :: 0 <= k < n ==> Invoked(attempt, n)[k] == c
  {
    if n > 0 {
      InvokedUniform(attempt, n - 1, c);
    }
  }

  /** When no try reaches the platform, nothing is invoked. */
  lemma {:induction false} InvokedNothing(attempt: nat -> Step, n: nat)
    requires forall i :: 0 <= i < n ==> attempt(i).call.None?
    ensures Invoked(attempt, n) == []
  {
    if n > 0 {
      InvokedNothing(attempt, n - 1);
    }
  }

  /** The contract of the tenacity decorator on one operation whose i-th try
      is `attempt(i)`: at most five tries; the first success is returned; if
      every try fails the fifth failure is raised as it is; between tries the
      pauses of `Backoff`. */
  ghost predicate Retried(attempt: nat -> Step, r: Outcome, tries: nat, calls: seq<Call>, waits: seq<int>) {
    && 1 <= tries <= RetryAttempts
    && (forall i :: 0 <= i < tries - 1 ==> attempt(i).result.Raised?)
    && r == attempt(tries - 1).result
    && (r.Raised? ==> tries == RetryAttempts)
    && calls == Invoked(attempt, tries)
    && waits == Backoff(tries - 1)
  }

  /** If the first k tries fail and try k (k < 5) succeeds, the call makes
      k + 1 tries and returns that success; the pauses grow and stay in [1, 30]. */
  lemma RetriedFirstSuccess(attempt: nat -> Step, r: Outcome, tries: nat, calls: seq<Call>, waits: seq<int>, k: nat)
    requires Retried(attempt, r, tries, calls, waits)
    requires k < RetryAttempts
    requires forall i :: 0 <= i < k ==> attempt(i).result.Raised?
    requires attempt(k).result.Returned?
    ensures tries == k + 1 && r == attempt(k).result
    ensures |waits| == k
    ensures forall i :: 0 <= i < k ==> RetryWaitMin <= waits[i] <= RetryWaitMax
    ensures forall i, j :: 0 <= i <= j < k ==> waits[i] <= waits[j]
  {
    BackoffBoundedAndNondecreasing(k);
  }

  /** If all five tries fail, the fifth failure is what the caller sees,
      after pauses of 1, 2, 4 and 8. */
  lemma RetriedAllFail(attempt: nat -> Step, r: Outcome, tries: nat, calls: seq<Call>, waits: seq<int>)
    requires Retried(attempt, r, tries, calls, waits)
    requires forall i :: 0 <= i < RetryAttempts ==> attempt(i).result.Raised?
    ensures tries == RetryAttempts
    ensures r == attempt(RetryAttempts - 1).result && r.Raised?
    ensures waits == [1, 2, 4, 8]
  {
    FailedCallPauses();
  }

  /** The retry loop: every `Exception` is retried, so only success or the
      attempt budget ends it. */
  method Retry(attempt: nat -> Step) returns (r: Outcome, tries: nat, calls: seq<Call>, waits: seq<int>)
    ensures 1 <= tries <= RetryAttempts
    ensures forall i :: 0 <= i < tries - 1 ==> attempt(i).result.Raised?
    ensures r == attempt(tries - 1).result
    ensures r.Raised? ==> tries == RetryAttempts
    ensures calls == Invoked(attempt, tries)
    ensures waits == Backoff(tries - 1)
  {
    var step := attempt(0);
    tries := 1;
    calls := CallOf(step);
    waits := [];
    while step.result.Raised? && tries < RetryAttempts
      invariant 1 <= tries <= RetryAttempts
      invariant step == attempt(tries - 1)
      invariant forall i :: 0 <= i < tries - 1 ==> attempt(i).result.Raised?
      invariant calls == Invoked(attempt, tries)
      invariant waits == Backoff(tries - 1)
    {
      waits := waits + [Wait(tries)];
      step := attempt(tries);
      tries := tries + 1;
      calls := calls + CallOf(step);
    }
    r := step.result;
  }

  /** What the decorated `run_tool(name, **kwargs)` does. A keyword that the
      retry wrapper itself takes fails at once, before any try. Otherwise the
      retry policy runs the tries: a keyword `name` fails every try without a
      call, a missing tool fails every try without a call, and a present tool
      is called with the same arguments on every try until one succeeds. */
  ghost predicate RanTool(c: Client, reg: Registry, name: string, kwargs: Dict, respond: nat -> Outcome,
                          r: Outcome, tries: nat, calls: seq<Call>, waits: seq<int>)
  {
    var wrapper := Clash(RetryWrapperParams, kwargs);
    var own := Clash(RunToolParams, kwargs);
    && (wrapper.Some? ==>
          && r == Raised(TypeError(MultipleValuesMessage("Retrying.__call__", wrapper.value)))
          && tries == 0 && calls == [] && waits == [])
    && (wrapper.None? ==> Retried(RunToolAttempts(c, reg, name, kwargs, respond), r, tries, calls, waits))
    && (wrapper.None? && own.Some? ==>
          && tries == RetryAttempts && calls == []
          && r == Raised(TypeError(MultipleValuesMessage("MCPClient.run_tool", own.value))))
    && (wrapper.None? && own.None? && !HasTool(reg, name) ==>
          tries == RetryAttempts && calls == [] && r == Raised(AttributeError(NotFoundMessage(name))))
    && (wrapper.None? && own.None? && HasTool(reg, name) ==>
          && r == respond(tries - 1) && |calls| == tries
          && forall k :: 0 <= k < tries ==> calls[k] == Call(name, InjectTimeout(reg[name], kwargs, c.defaultTimeout)))
  }

  /** `run_tool`. */
  method RunTool(c: Client, reg: Registry, name: string, kwargs: Dict, respond: nat -> Outcome)
    returns (r: Outcome, tries: nat, calls: seq<Call>, waits: seq<int>)
    ensures RanTool(c, reg, name, kwargs, respond, r, tries, calls, waits)
  {
    var wrapper := Clash(RetryWrapperParams, kwargs);
    if wrapper.Some? {
      return Raised(TypeError(MultipleValuesMessage("Retrying.__call__", wrapper.value))), 0, [], [];
    }
    var attempt := RunToolAttempts(c, reg, name, kwargs, respond);
    assert forall i: nat :: attempt(i) == RunToolAttempt(c, reg, name, kwargs, respond(i));
    r, tries, calls, waits := Retry(attempt);
    if Clash(RunToolParams, kwargs).None? && HasTool(reg, name) {
      InvokedUniform(attempt, tries, Call(name, InjectTimeout(reg[name], kwargs, c.defaultTimeout)));
    } else {
      InvokedNothing(attempt, tries);
    }
  }

  /** `call_platform(tool_name, **kwargs)`: not retried itself; keywords
      `self` or `tool_name` fail at once, anything else is `run_tool`. */
  method CallPlatform(c: Client, reg: Registry, toolName: string, kwargs: Dict, respond: nat -> Outcome)
    returns (r: Outcome, tries: nat, calls: seq<Call>, waits: seq<int>)
    ensures Clash(CallPlatformParams, kwargs).Some? ==>
      && r == Raised(TypeError(MultipleValuesMessage("MCPClient.call_platform", Clash(CallPlatformParams, kwargs).value)))
      && tries == 0 && calls == [] && waits == []
    ensures Clash(CallPlatformParams, kwargs).None? ==>
      RanTool(c, reg, toolName, kwargs, respond, r, tries, calls, waits)
  {
    var clash := Clash(CallPlatformParams, kwargs);
    if clash.Some? {
      return Raised(TypeError(MultipleValuesMessage("MCPClient.call_platform", clash.value))), 0, [], [];
    }
    r, tries, calls, waits := RunTool(c, reg, toolName, kwargs, respond);
  }

  /** `wq_create_simulation`. */
  method CreateSimulation(c: Client, reg: Registry, settings: Dict, regular: string, meta: Option<Dict> := None,
                          respond: nat -> Outcome)
    returns (r: Outcome, tries: nat, calls: seq<Call>, waits: seq<int>)
    ensures Retried(CreateSimulationAttempts(c, reg, settings, regular, meta, respond), r, tries, calls, waits)
    ensures r.Returned? ==> IsDictWith(r.value, "location") && r == respond(tries - 1)
    ensures r.Raised? ==> tries == RetryAttempts
    ensures !HasTool(reg, CreateTool) ==>
      tries == RetryAttempts && calls == [] && r == Raised(AttributeError(MissingCreateMessage))
    ensures HasTool(reg, CreateTool) ==>
      |calls| == tries &&
      forall k :: 0 <= k < tries ==>
        calls[k] == Call(CreateTool, InjectTimeout(reg[CreateTool], SubmissionArgs(settings, regular, meta), c.defaultTimeout))
  {
    var attempt := CreateSimulationAttempts(c, reg, settings, regular, meta, respond);
    assert forall i: nat :: attempt(i) == CreateSimulationAttempt(c, reg, settings, regular, meta, respond(i));
    r, tries, calls, waits := Retry(attempt);
    if HasTool(reg, CreateTool) {
      InvokedUniform(attempt, tries,
        Call(CreateTool, InjectTimeout(reg[CreateTool], SubmissionArgs(settings, regular, meta), c.defaultTimeout)));
    } else {
      InvokedNothing(attempt, tries);
    }
  }

  /** `wq_get_result`. */
  method GetResult(c: Client, reg: Registry, location: string, respond: nat -> Outcome)
    returns (r: Outcome, tries: nat, calls: seq<Call>, waits: seq<int>)
    ensures Retried(GetResultAttempts(c, reg, location, respond), r, tries, calls, waits)
    ensures r.Returned? ==> r.value.Dict? && r == respond(tries - 1)
    ensures !HasTool(reg, c.queryTool) ==>
      tries == RetryAttempts && calls == [] && r == Raised(AttributeError(MissingQueryMessage(c.queryTool)))
    ensures HasTool(reg, c.queryTool) ==>
      |calls| == tries &&
      forall k :: 0 <= k < tries ==>
        calls[k] == Call(c.queryTool, InjectTimeout(reg[c.queryTool], map["location" := Str(location)], c.defaultTimeout))
  {
    var attempt := GetResultAttempts(c, reg, location, respond);
    assert forall i: nat :: attempt(i) == GetResultAttempt(c, reg, location, respond(i));
    r, tries, calls, waits := Retry(attempt);
    if HasTool(reg, c.queryTool) {
      InvokedUniform(attempt, tries,
        Call(c.queryTool, InjectTimeout(reg[c.queryTool], map["location" := Str(location)], c.defaultTimeout)));
    } else {
      InvokedNothing(attempt, tries);
    }
  }

  // ---------------------------------------------------------------------------
  // Best-effort wrappers: rate limiting and key/value storage
  // ---------------------------------------------------------------------------

  /** The position of the first name in `names` that resolves, if any. */
  function FirstPresent(reg: Registry, names: seq<string>): (r: Option<nat>)
    ensures r.Some? ==> r.value < |names| && HasTool(reg, names[r.value])
    ensures r.Some? ==> forall j :: 0 <= j < r.value ==> !HasTool(reg, names[j])
    ensures r.None? <==> forall j :: 0 <= j < |names| ==> !HasTool(reg, names[j])
  {
    if names == [] then None
    else if HasTool(reg, names[0]) then Some(0)
    else
      match FirstPresent(reg, names[1..])
      case None => None
      case Some(k) => Some(k + 1)
  }

  /** The loop with early return that each wrapper runs over its name tuple. */
  method SelectTool(reg: Registry, names: seq<string>) returns (chosen: Option<nat>)
    ensures chosen == FirstPresent(reg, names)
  {
    var i := 0;
    while i < |names|
      invariant 0 <= i <= |names|
      invariant forall j :: 0 <= j < i ==> !HasTool(reg, names[j])
    {
      if HasTool(reg, names[i]) {
        return Some(i);
      }
      i := i + 1;
    }
    return None;
  }

  /** Both rate-limit tuples repeat one name, so the loop over them asks
      exactly whether that one tool exists. */
  lemma DuplicatedNameTuple(reg: Registry)
    ensures FirstPresent(reg, AcquireTools).Some? <==> HasTool(reg, "acquire_rate_limit")
    ensures FirstPresent(reg, ReleaseTools).Some? <==> HasTool(reg, "release_rate_limit")
    ensures FirstPresent(reg, AcquireTools).Some? ==> FirstPresent(reg, AcquireTools) == Some(0)
    ensures FirstPresent(reg, ReleaseTools).Some? ==> FirstPresent(reg, ReleaseTools) == Some(0)
  {
  }

  function PermitArgs(name: string, permits: int): Dict {
    map["name" := Str(name), "permits" := Int(permits)]
  }

  /** How the acquire wrapper reads the limiter: a raise is a refusal, a dict
      answers by its `ok` entry (true when absent), anything else by its truth
      value. */
  predicate Granted(result: Outcome) {
    match result
    case Raised(_) => false
    case Returned(v) => if v.Dict? then Truthy(Get(v.entries, "ok", Bool(true))) else Truthy(v)
  }

  /** Both rate-limit wrappers pass the limiter's `name` as a keyword to
      `_call_tool`, whose own second parameter is `name`: whatever the limiter
      would answer, the call raises `TypeError` and reaches no tool. */
  lemma LimiterNeverConsulted(c: Client, reg: Registry, tool: string, name: string, permits: int, resp: Outcome)
    ensures CallTool(c, reg, tool, PermitArgs(name, permits), resp)
         == Step(None, Raised(TypeError(MultipleValuesMessage("MCPClient._call_tool", "name"))))
  {
    var args := PermitArgs(name, permits);
    assert "self" !in args && "name" in args;
    assert CallToolParams[1..] == ["name"];
    assert Clash(CallToolParams, args) == Some("name");
  }

  /** `rate_limit_acquire` as written: with no limiter it grants; with one,
      the `TypeError` of the call is caught and the answer is a refusal. The
      limiter is never asked. */
  method RateLimitAcquire(c: Client, reg: Registry, name: string, permits: int := 1, resp: Outcome)
    returns (granted: bool, call: Option<Call>)
    ensures call.None?
    ensures granted <==> !HasTool(reg, "acquire_rate_limit")
  {
    DuplicatedNameTuple(reg);
    var chosen := SelectTool(reg, AcquireTools);
    if chosen.None? {
      return true, None;
    }
    LimiterNeverConsulted(c, reg, AcquireTools[chosen.value], name, permits, resp);
    var step := CallTool(c, reg, AcquireTools[chosen.value], PermitArgs(name, permits), resp);
    call := step.call;
    granted := Granted(step.result);
  }

  /** `rate_limit_acquire` as evidently meant, with `_call_tool`'s own
      parameters bound by position only, so the limiter receives `name`:
      `resp` is what the limiter does when it is asked. */
  method RateLimitAcquireFixed(c: Client, reg: Registry, name: string, permits: int := 1, resp: Outcome)
    returns (granted: bool, call: Option<Call>)
    ensures call.Some? <==> HasTool(reg, "acquire_rate_limit")
    ensures !HasTool(reg, "acquire_rate_limit") ==> granted
    ensures call.Some? ==>
      call.value == Call("acquire_rate_limit", InjectTimeout(reg["acquire_rate_limit"], PermitArgs(name, permits), c.defaultTimeout))
    ensures call.Some? && resp.Raised? ==> !granted
    ensures call.Some? && resp.Returned? && resp.value.Dict? ==>
      granted == Truthy(Get(resp.value.entries, "ok", Bool(true)))
    ensures call.Some? && resp.Returned? && !resp.value.Dict? ==> granted == Truthy(resp.value)
  {
    DuplicatedNameTuple(reg);
    var chosen := SelectTool(reg, AcquireTools);
    if chosen.None? {
      return true, None;
    }
    var step := Invoke(c, reg, AcquireTools[chosen.value], PermitArgs(name, permits), resp);
    call := step.call;
    granted := Granted(step.result);
  }

  /** `rate_limit_release` as written: it never raises, and, as with acquire,
      the limiter is never asked. */
  method RateLimitRelease(c: Client, reg: Registry, name: string, permits: int := 1, resp: Outcome)
    returns (call: Option<Call>)
    ensures call.None?
  {
    DuplicatedNameTuple(reg);
    var chosen := SelectTool(reg, ReleaseTools);
    if chosen.None? {
      return None;
    }
    LimiterNeverConsulted(c, reg, ReleaseTools[chosen.value], name, permits, resp);
    var step := CallTool(c, reg, ReleaseTools[chosen.value], PermitArgs(name, permits), resp);
    call := step.call;
  }

  /** `rate_limit_release` as evidently meant: the limiter is asked once if it
      exists, whatever it then does, and nothing else happens. */
  method RateLimitReleaseFixed(c: Client, reg: Registry, name: string, permits: int := 1, resp: Outcome)
    returns (call: Option<Call>)
    ensures call.Some? <==> HasTool(reg, "release_rate_limit")
    ensures call.Some? ==>
      call.value == Call("release_rate_limit", InjectTimeout(reg["release_rate_limit"], PermitArgs(name, permits), c.defaultTimeout))
  {
    DuplicatedNameTuple(reg);
    var chosen := SelectTool(reg, ReleaseTools);
    if chosen.None? {
      return None;
    }
    var step := Invoke(c, reg, ReleaseTools[chosen.value], PermitArgs(name, permits), resp);
    call := step.call;
  }

  function PutArgs(key: string, value: Dict): Dict {
    map["key" := Str(key), "value" := Dict(value)]
  }

  /** `store_put`: the first present tool of `StorePutTools` alone decides;
      a failure there is `false`, not a fall-through to the next name. */
  method StorePut(c: Client, reg: Registry, key: string, value: Dict, resp: Outcome)
    returns (ok: bool, call: Option<Call>)
    ensures FirstPresent(reg, StorePutTools).None? ==> !ok && call.None?
    ensures FirstPresent(reg, StorePutTools).Some? ==>
      var tool := StorePutTools[FirstPresent(reg, StorePutTools).value];
      call == Some(Call(tool, InjectTimeout(reg[tool], PutArgs(key, value), c.defaultTimeout)))
    ensures call.Some? && resp.Raised? ==> !ok
    ensures call.Some? && resp.Returned? && resp.value.Dict? ==>
      ok == Truthy(Get(resp.value.entries, "ok", Bool(true)))
    ensures call.Some? && resp.Returned? && !resp.value.Dict? ==> ok
  {
    var chosen := SelectTool(reg, StorePutTools);
    if chosen.None? {
      return false, None;
    }
    var step := CallTool(c, reg, StorePutTools[chosen.value], PutArgs(key, value), resp);
    call := step.call;
    match step.result
    case Raised(_) =>
      ok := false;
    case Returned(v) =>
      ok := if v.Dict? then Truthy(Get(v.entries, "ok", Bool(true))) else true;
  }

  /** `store_get`: as `store_put` over `StoreGetTools`; `Null` stands for
      Python's `None` when no tool exists or the chosen one raises. */
  method StoreGet(c: Client, reg: Registry, key: string, resp: Outcome)
    returns (v: Value, call: Option<Call>)
    ensures FirstPresent(reg, StoreGetTools).None? ==> v == Null && call.None?
    ensures FirstPresent(reg, StoreGetTools).Some? ==>
      var tool := StoreGetTools[FirstPresent(reg, StoreGetTools).value];
      call == Some(Call(tool, InjectTimeout(reg[tool], map["key" := Str(key)], c.defaultTimeout)))
    ensures call.Some? && resp.Raised? ==> v == Null
    ensures call.Some? && resp.Returned? ==> v == resp.value
  {
    var chosen := SelectTool(reg, StoreGetTools);
    if chosen.None? {
      return Null, None;
    }
    var step := CallTool(c, reg, StoreGetTools[chosen.value], map["key" := Str(key)], resp);
    call := step.call;
    v := if step.result.Returned? then step.result.value else Null;
  }
}
