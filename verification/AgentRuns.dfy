/**
 * The bounded loop of an agent run: whatever the model answers, a tool call passes the allowlist, the
 * permission check and the autonomy gate, in that order, before anything happens
 * (internal/agents/runner.go, internal/agents/gate.go).
 */
module AgentRuns {
  import opened Prelude

  const MODE_ASSIST := 1
  const MODE_QUEUE_WRITES := 2
  const MODE_AUTONOMOUS := 3

  const DEFAULT_MAX_ITERATIONS := 8
  const DEFAULT_MAX_TOKENS := 100000

  datatype Effect = Read | Reversible | External | Irreversible | Unclassified

  datatype Gated = Exec | Approval

  /** Unknown effects and unknown modes end in approval. */
  function Gate(effect: Effect, mode: int): Gated {
    match effect
    case Read => Exec
    case Reversible => if mode == MODE_ASSIST || mode == MODE_AUTONOMOUS then Exec else Approval
    case External => if mode == MODE_AUTONOMOUS then Exec else Approval
    case Irreversible => if mode == MODE_AUTONOMOUS then Exec else Approval
    case Unclassified => Approval
  }

  datatype Tool = Tool(name: string, effect: Effect, permission: string)

  datatype Agent = Agent(enabled: bool, mode: int, allowed: seq<string>, budget: int)

  datatype Response = Response(tokens: nat, cost: int, toolUse: bool, calls: seq<string>)

  /** How a request to the provider fails: past the wall clock, or in any other way. */
  datatype Trouble = Late | Broken

  type Provider = nat -> Result<Response, Trouble>

  /** What the outside answers: the provider by iteration, the rest by the running number of the tool call. */
  datatype Outside = Outside(
    complete: Provider,
    holds: (nat, string) -> Option<bool>,
    queues: nat -> bool)

  /** What came of a tool call. */
  datatype Event =
    | Refused(n: nat, name: string)
    | Queued(n: nat, name: string)
    | Unqueued(n: nat, name: string)
    | Ran(n: nat, name: string)

  datatype Status = Succeeded | AwaitingApproval | Failed

  /** Why a run failed. */
  datatype Reason =
    | Fine
    | Disabled
    | NoBudgetFigure
    | OverBudget
    | NoProvider
    | OutOfIterations
    | TimedOut
    | ProviderError
    | OverTokens
    | OverBudgetMidRun

  datatype Report = Report(status: Status, reason: Reason, requests: nat, tokens: nat, cost: int, log: seq<Event>)

  /** The tools of one run: what its agent may use, and where names lead. */
  datatype Tools = Tools(allow: set<string>, found: map<string, Tool>, registry: map<string, Tool>)

  /** Tools found for this run take precedence over the registry. */
  function Resolve(tools: Tools, name: string): Option<Tool> {
    if name in tools.found then Some(tools.found[name])
    else if name in tools.registry then Some(tools.registry[name])
    else None
  }

  /** Provider-side tools never enter the allow set. */
  predicate ServerSide(name: string) { name == "web_fetch" || name == "web_search" }

  ghost predicate Allowed(agent: Agent, registry: map<string, Tool>, found: seq<Tool>, name: string) {
    || (name in agent.allowed && name in registry && name != "web_fetch" && name != "web_search")
    || (exists i :: 0 <= i < |found| && found[i].name == name)
  }

  /** The tool of this name that was found last. */
  ghost predicate LastFound(found: seq<Tool>, name: string, tool: Tool) {
    exists i :: 0 <= i < |found| && found[i] == tool && tool.name == name
                && forall j :: i < j < |found| ==> found[j].name != name
  }

  ghost predicate NoneFound(found: seq<Tool>, name: string) { forall i :: 0 <= i < |found| ==> found[i].name != name }

  /** Where a name leads in one run: to what was found for it, or else to the registry. */
  ghost predicate Leads(registry: map<string, Tool>, found: seq<Tool>, name: string, tool: Tool) {
    || LastFound(found, name, tool)
    || (NoneFound(found, name) && name in registry && registry[name] == tool)
  }

  /** The run's own table: for each name the tool found last. */
  ghost predicate Tabled(names: map<string, Tool>, found: seq<Tool>) {
    forall name :: if name in names then LastFound(found, name, names[name]) else NoneFound(found, name)
  }

  lemma TableGrows(names: map<string, Tool>, found: seq<Tool>, tool: Tool)
    requires Tabled(names, found)
    ensures Tabled(names[tool.name := tool], found + [tool])
  {
    var longer := found + [tool];
    forall name
      ensures name == tool.name ==> LastFound(longer, name, tool)
      ensures name != tool.name && name in names ==> LastFound(longer, name, names[name])
      ensures name != tool.name && name !in names ==> NoneFound(longer, name)
    {
      if name == tool.name {
        assert longer[|found|] == tool;
      } else if name in names {
        var i :| 0 <= i < |found| && found[i] == names[name] && names[name].name == name
                 && forall j :: i < j < |found| ==> found[j].name != name;
        assert longer[i] == names[name];
      }
    }
  }

  lemma OneLast(found: seq<Tool>, name: string, a: Tool, b: Tool)
    requires LastFound(found, name, a) && (LastFound(found, name, b) || NoneFound(found, name))
    ensures LastFound(found, name, b) && a == b
  {
  }

  /** With such a table, resolving a name gives exactly the tool it leads to. */
  lemma ResolvesAsLed(tools: Tools, registry: map<string, Tool>, found: seq<Tool>, name: string, tool: Tool)
    requires tools.registry == registry && Tabled(tools.found, found)
    ensures Resolve(tools, name) == Some(tool) <==> Leads(registry, found, name, tool)
  {
    if name in tools.found && Leads(registry, found, name, tool) {
      OneLast(found, name, tools.found[name], tool);
    }
  }

  method Offer(agent: Agent, registry: map<string, Tool>, found: seq<Tool>) returns (tools: Tools)
    ensures forall name :: name in tools.allow <==> Allowed(agent, registry, found, name)
    ensures forall name, tool :: Resolve(tools, name) == Some(tool) <==> Leads(registry, found, name, tool)
  {
    var allow: set<string> := {};
    for i := 0 to |agent.allowed|
      invariant forall name :: name in allow <==> name in agent.allowed[..i] && !ServerSide(name) && name in registry
    {
      var name := agent.allowed[i];
      if !ServerSide(name) && name in registry {
        allow := allow + {name};
      }
    }
    assert agent.allowed[..|agent.allowed|] == agent.allowed;
    ghost var own := allow;
    var names: map<string, Tool> := map[];
    for i := 0 to |found|
      invariant forall name :: name in allow <==> name in own || (exists j :: 0 <= j < i && found[j].name == name)
      invariant Tabled(names, found[..i])
    {
      TableGrows(names, found[..i], found[i]);
      assert found[..i + 1] == found[..i] + [found[i]];
      allow := allow + {found[i].name};
      names := names[found[i].name := found[i]];
    }
    assert found[..|found|] == found;
    tools := Tools(allow, names, registry);
    forall name, tool
      ensures Resolve(tools, name) == Some(tool) <==> Leads(registry, found, name, tool)
    {
      ResolvesAsLed(tools, registry, found, name, tool);
    }
  }

  /** Allowlist and permission. */
  predicate Admitted(tools: Tools, outside: Outside, n: nat, name: string) {
    && name in tools.allow
    && Resolve(tools, name).Some?
    && var tool := Resolve(tools, name).value;
       tool.permission == "" || outside.holds(n, tool.permission) == Some(true)
  }

  /** An event that the gate order allows: nothing runs or is queued unless admitted, and the gate says which. */
  ghost predicate Proper(tools: Tools, mode: int, outside: Outside, e: Event) {
    match e
    case Refused(n, name) => !Admitted(tools, outside, n, name)
    case Queued(n, name) =>
      && Admitted(tools, outside, n, name) && Gate(Resolve(tools, name).value.effect, mode) == Approval
      && outside.queues(n)
    case Unqueued(n, name) =>
      && Admitted(tools, outside, n, name) && Gate(Resolve(tools, name).value.effect, mode) == Approval
      && !outside.queues(n)
    case Ran(n, name) =>
      Admitted(tools, outside, n, name) && Gate(Resolve(tools, name).value.effect, mode) == Exec
  }

  method ExecTool(tools: Tools, mode: int, outside: Outside, n: nat, name: string) returns (e: Event)
    ensures Proper(tools, mode, outside, e) && e.n == n && e.name == name
  {
    var tool := Resolve(tools, name);
    if tool.None? || name !in tools.allow { return Refused(n, name); }
    if tool.value.permission != "" {
      var has := outside.holds(n, tool.value.permission);
      if has != Some(true) { return Refused(n, name); }
    }
    if Gate(tool.value.effect, mode) == Approval {
      return if outside.queues(n) then Queued(n, name) else Unqueued(n, name);
    }
    return Ran(n, name);
  }

  ghost predicate AnyQueued(log: seq<Event>) { exists i :: 0 <= i < |log| && log[i].Queued? }

  /** What a log says about the run that produced it: proper events, numbered in order. */
  ghost predicate ProperLog(tools: Tools, mode: int, outside: Outside, log: seq<Event>) {
    forall i :: 0 <= i < |log| ==> Proper(tools, mode, outside, log[i]) && log[i].n == i
  }

  /** The tool calls of one response, in order. */
  method ExecCalls(tools: Tools, mode: int, outside: Outside, calls: seq<string>, before: seq<Event>, wasProposed: bool)
    returns (log: seq<Event>, proposed: bool)
    requires ProperLog(tools, mode, outside, before) && wasProposed == AnyQueued(before)
    ensures ProperLog(tools, mode, outside, log) && proposed == AnyQueued(log)
    ensures before <= log && |log| == |before| + |calls|
    ensures forall i :: 0 <= i < |calls| ==> log[|before| + i].name == calls[i]
  {
    log, proposed := before, wasProposed;
    for i := 0 to |calls|
      invariant ProperLog(tools, mode, outside, log) && proposed == AnyQueued(log)
      invariant before <= log && |log| == |before| + i
      invariant forall j :: 0 <= j < i ==> log[|before| + j].name == calls[j]
    {
      var e := ExecTool(tools, mode, outside, |log|, calls[i]);
      ghost var was := log;
      log := log + [e];
      proposed := proposed || e.Queued?;
      assert AnyQueued(was) ==> AnyQueued(log) by {
        if AnyQueued(was) {
          var k :| 0 <= k < |was| && was[k].Queued?;
          assert log[k] == was[k];
        }
      }
      assert log[|was|] == e;
    }
  }

  function Defaulted(n: int, standard: nat): (r: nat)
    ensures r == n || (n <= 0 && r == standard)
    ensures standard > 0 ==> r > 0
  {
    if n <= 0 then standard else n
  }

  /** What the first `k` responses ask for and cost. */
  function Asked(complete: Provider, k: nat): seq<string> {
    if k == 0 then [] else Asked(complete, k - 1) + (match complete(k - 1) case Ok(r) => r.calls case Err(_) => [])
  }

  function Tokens(complete: Provider, k: nat): nat {
    if k == 0 then 0 else Tokens(complete, k - 1) + (match complete(k - 1) case Ok(r) => r.tokens case Err(_) => 0)
  }

  function Cost(complete: Provider, k: nat): int {
    if k == 0 then 0 else Cost(complete, k - 1) + (match complete(k - 1) case Ok(r) => r.cost case Err(_) => 0)
  }

  function Names(log: seq<Event>): seq<string> { seq(|log|, i requires 0 <= i < |log| => log[i].name) }

  /** Month-to-date plus this run stays below the cap, if there is one. */
  predicate WithinBudget(agent: Agent, monthToDate: int, cost: int) {
    agent.budget <= 0 || monthToDate + cost < agent.budget
  }

  /** The month-to-date figure is looked up only for agents with a budget; None is a failed lookup. */
  function Spent(agent: Agent, monthToDate: Option<int>): int {
    if agent.budget > 0 && monthToDate.Some? then monthToDate.value else 0
  }

  /** The run may begin: enabled, within budget, and with a provider. */
  predicate MayBegin(agent: Agent, provider: bool, monthToDate: Option<int>) {
    agent.enabled && provider && (agent.budget > 0 ==> monthToDate.Some? && monthToDate.value < agent.budget)
  }

  /** What runs without asking, by autonomy mode; reads always do, and unclassified effects never. */
  function Inline(mode: int): set<Effect> {
    if mode == MODE_AUTONOMOUS then {Read, Reversible, External, Irreversible}
    else if mode == MODE_ASSIST then {Read, Reversible}
    else {Read}
  }

  /** The agent may use the tool its call names: offered to it, and its permission held. */
  ghost predicate Entitled(agent: Agent, registry: map<string, Tool>, found: seq<Tool>, outside: Outside,
                           n: nat, name: string, tool: Tool)
  {
    && Allowed(agent, registry, found, name) && Leads(registry, found, name, tool)
    && (tool.permission == "" || outside.holds(n, tool.permission) == Some(true))
  }

  /** What must become of the call with this number: refused, run, or put up for approval. */
  ghost predicate Fated(agent: Agent, registry: map<string, Tool>, found: seq<Tool>, outside: Outside, n: nat,
                        e: Event)
  {
    || (e == Refused(n, e.name) && forall tool :: !Entitled(agent, registry, found, outside, n, e.name, tool))
    || (exists tool ::
          && Entitled(agent, registry, found, outside, n, e.name, tool)
          && e == if tool.effect in Inline(agent.mode) then Ran(n, e.name)
                  else if outside.queues(n) then Queued(n, e.name) else Unqueued(n, e.name))
  }

  /** A proper event of a run is the one its call must have. */
  lemma ProperIsFated(agent: Agent, registry: map<string, Tool>, found: seq<Tool>, tools: Tools, outside: Outside,
                      e: Event)
    requires forall name :: name in tools.allow <==> Allowed(agent, registry, found, name)
    requires forall name, tool :: Resolve(tools, name) == Some(tool) <==> Leads(registry, found, name, tool)
    requires Proper(tools, agent.mode, outside, e)
    ensures Fated(agent, registry, found, outside, e.n, e)
  {
    if Resolve(tools, e.name).Some? {
      var tool := Resolve(tools, e.name).value;
      assert Leads(registry, found, e.name, tool);
      assert Admitted(tools, outside, e.n, e.name) <==> Entitled(agent, registry, found, outside, e.n, e.name, tool);
    }
    if e.Refused? {
      forall tool
        ensures !Entitled(agent, registry, found, outside, e.n, e.name, tool)
      {
        assert Leads(registry, found, e.name, tool) ==> Resolve(tools, e.name) == Some(tool);
      }
    }
  }

  /** The totals after this response are within the token cap and the budget. */
  ghost predicate Affordable(agent: Agent, spent: int, cap: nat, outside: Outside, k: nat) {
    Tokens(outside.complete, k + 1) <= cap && WithinBudget(agent, spent, Cost(outside.complete, k + 1))
  }

  /** The conversation goes on after this response: the model wants tools and nothing stops it. */
  ghost predicate GoesOn(agent: Agent, spent: int, cap: nat, outside: Outside, k: nat) {
    && outside.complete(k).Ok? && Affordable(agent, spent, cap, outside, k)
    && (outside.complete(k).value.toolUse || outside.complete(k).value.calls != [])
  }

  /** The conversation ends with this response, for this reason. */
  ghost predicate EndsWith(agent: Agent, spent: int, cap: nat, outside: Outside, k: nat, reason: Reason) {
    match outside.complete(k)
    case Err(trouble) => reason == if trouble == Late then TimedOut else ProviderError
    case Ok(r) =>
      if Tokens(outside.complete, k + 1) > cap then reason == OverTokens
      else if !Affordable(agent, spent, cap, outside, k) then reason == OverBudgetMidRun
      else reason == Fine && !r.toolUse && r.calls == []
  }

  /**
   * How a run that began ends: every response but the last led on; the last one ended it, or led on too
   * and the iterations were used up. What the responses that led on asked for was done, and nothing else.
   */
  ghost predicate RanItsCourse(agent: Agent, spent: int, iterations: nat, cap: nat, outside: Outside, r: Report) {
    && 0 < r.requests <= iterations
    && (forall k :: 0 <= k < r.requests - 1 ==> GoesOn(agent, spent, cap, outside, k))
    && (if r.reason == OutOfIterations then
          r.requests == iterations && GoesOn(agent, spent, cap, outside, r.requests - 1)
        else EndsWith(agent, spent, cap, outside, r.requests - 1, r.reason))
    && Names(r.log) == Asked(outside.complete, if r.reason == OutOfIterations then r.requests else r.requests - 1)
    && r.tokens == Tokens(outside.complete, r.requests) && r.cost == Cost(outside.complete, r.requests)
    && r.status == (if r.reason != Fine then Failed else if AnyQueued(r.log) then AwaitingApproval else Succeeded)
  }

  /** Each reason given is one that applies. */
  ghost predicate Because(agent: Agent, provider: bool, monthToDate: Option<int>, iterations: nat, cap: nat,
                          outside: Outside, r: Report)
  {
    match r.reason
    case Fine => r.status != Failed
    case Disabled => !agent.enabled
    case NoBudgetFigure => agent.budget > 0 && monthToDate.None?
    case OverBudget => agent.budget > 0 && monthToDate.Some? && monthToDate.value >= agent.budget
    case NoProvider => !provider
    case OutOfIterations => r.requests == iterations
    case TimedOut => r.requests > 0 && outside.complete(r.requests - 1) == Err(Late)
    case ProviderError => r.requests > 0 && outside.complete(r.requests - 1) == Err(Broken)
    case OverTokens => r.tokens > cap
    case OverBudgetMidRun => !WithinBudget(agent, Spent(agent, monthToDate), r.cost)
  }

  /** The log and the totals are those of the responses: one proper event per call asked for, in order. */
  ghost predicate Recounts(tools: Tools, mode: int, outside: Outside, r: Report) {
    && ProperLog(tools, mode, outside, r.log)
    && r.tokens == Tokens(outside.complete, r.requests) && r.cost == Cost(outside.complete, r.requests)
    && Names(r.log) <= Asked(outside.complete, r.requests)
    && (r.status != Failed ==> Names(r.log) == Asked(outside.complete, r.requests))
    && (r.status == Succeeded ==> !AnyQueued(r.log))
    && (r.status == AwaitingApproval ==> AnyQueued(r.log))
  }

  /** The loop, once the run may begin. */
  method Converse(agent: Agent, tools: Tools, iterations: nat, cap: nat, provider: bool, monthToDate: Option<int>,
                  outside: Outside)
    returns (report: Report)
    requires iterations > 0
    ensures Recounts(tools, agent.mode, outside, report)
    ensures RanItsCourse(agent, Spent(agent, monthToDate), iterations, cap, outside, report)
    ensures report.status != Failed ==>
              report.tokens <= cap && WithinBudget(agent, Spent(agent, monthToDate), report.cost)
    ensures report.status == Failed <==> report.reason != Fine
    ensures Because(agent, provider, monthToDate, iterations, cap, outside, report)
  {
    var log: seq<Event>, proposed := [], false;
    var tokens: nat, cost: int, requests: nat := 0, 0, 0;
    while true
      invariant requests <= iterations
      invariant tokens == Tokens(outside.complete, requests) && cost == Cost(outside.complete, requests)
      invariant Names(log) == Asked(outside.complete, requests)
      invariant ProperLog(tools, agent.mode, outside, log) && proposed == AnyQueued(log)
      invariant forall k :: 0 <= k < requests ==> GoesOn(agent, Spent(agent, monthToDate), cap, outside, k)
      decreases iterations - requests
    {
      if requests >= iterations {
        return Report(Failed, OutOfIterations, requests, tokens, cost, log);
      }
      var resp := outside.complete(requests);
      requests := requests + 1;
      if resp.Err? {
        return Report(Failed, if resp.error == Late then TimedOut else ProviderError, requests, tokens, cost, log);
      }
      tokens, cost := tokens + resp.value.tokens, cost + resp.value.cost;
      if tokens > cap {
        return Report(Failed, OverTokens, requests, tokens, cost, log);
      }
      if agent.budget > 0 && Spent(agent, monthToDate) + cost >= agent.budget {
        return Report(Failed, OverBudgetMidRun, requests, tokens, cost, log);
      }
      if !resp.value.toolUse && resp.value.calls == [] {
        return Report(if proposed then AwaitingApproval else Succeeded, Fine, requests, tokens, cost, log);
      }
      ghost var before := log;
      log, proposed := ExecCalls(tools, agent.mode, outside, resp.value.calls, log, proposed);
      assert Names(log) == Names(before) + resp.value.calls;
    }
  }

  /**
   * The run: it ends within its iterations whatever the model answers; every call asked for becomes one
   * event, in order (the last response of a failed run is not acted on); each call is refused, run or
   * put up for approval as agent, tools and permissions demand; the run ends with the first response
   * that ends it and not before; it succeeds only if nothing was queued and awaits approval only if
   * something was; a run that did not fail stayed within its token cap and the monthly budget; and one
   * that failed says why.
   */
  method Execute(agent: Agent, registry: map<string, Tool>, found: seq<Tool>, maxIterations: int, maxTokens: int,
                 provider: bool, monthToDate: Option<int>, outside: Outside)
    returns (report: Report, ghost tools: Tools)
    ensures forall name :: name in tools.allow <==> Allowed(agent, registry, found, name)
    ensures Recounts(tools, agent.mode, outside, report)
    ensures report.requests <= Defaulted(maxIterations, DEFAULT_MAX_ITERATIONS)
    ensures report.status != Failed ==>
              && report.tokens <= Defaulted(maxTokens, DEFAULT_MAX_TOKENS)
              && WithinBudget(agent, Spent(agent, monthToDate), report.cost)
    ensures report.status == Failed <==> report.reason != Fine
    ensures Because(agent, provider, monthToDate, Defaulted(maxIterations, DEFAULT_MAX_ITERATIONS),
                    Defaulted(maxTokens, DEFAULT_MAX_TOKENS), outside, report)
    ensures MayBegin(agent, provider, monthToDate) <==> report.requests > 0
    ensures report.requests > 0 ==>
              RanItsCourse(agent, Spent(agent, monthToDate), Defaulted(maxIterations, DEFAULT_MAX_ITERATIONS),
                           Defaulted(maxTokens, DEFAULT_MAX_TOKENS), outside, report)
    ensures report.status != Failed && agent.budget > 0 ==>
              monthToDate.Some? && monthToDate.value + report.cost < agent.budget
    ensures report.reason == OverBudgetMidRun ==>
              agent.budget > 0 && monthToDate.Some? && monthToDate.value + report.cost >= agent.budget
    ensures forall n :: 0 <= n < |report.log| ==> Fated(agent, registry, found, outside, n, report.log[n])
  {
    var offered := Offer(agent, registry, found);
    tools := offered;
    if !agent.enabled { return Report(Failed, Disabled, 0, 0, 0, []), tools; }
    if agent.budget > 0 {
      if monthToDate.None? { return Report(Failed, NoBudgetFigure, 0, 0, 0, []), tools; }
      if monthToDate.value >= agent.budget { return Report(Failed, OverBudget, 0, 0, 0, []), tools; }
    }
    if !provider { return Report(Failed, NoProvider, 0, 0, 0, []), tools; }
    report := Converse(agent, offered, Defaulted(maxIterations, DEFAULT_MAX_ITERATIONS),
                       Defaulted(maxTokens, DEFAULT_MAX_TOKENS), provider, monthToDate, outside);
    forall n | 0 <= n < |report.log|
      ensures Fated(agent, registry, found, outside, n, report.log[n])
    {
      ProperIsFated(agent, registry, found, tools, outside, report.log[n]);
    }
  }

  /** Outside autonomous mode nothing external or irreversible runs, whatever is in the log of a run. */
  lemma NothingExternalRunsInline(tools: Tools, mode: int, outside: Outside, log: seq<Event>, i: nat)
    requires ProperLog(tools, mode, outside, log) && i < |log| && log[i].Ran?
    ensures Resolve(tools, log[i].name).Some?
    ensures mode != MODE_AUTONOMOUS ==> Resolve(tools, log[i].name).value.effect in {Read, Reversible}
    ensures mode == MODE_QUEUE_WRITES ==> Resolve(tools, log[i].name).value.effect == Read
  {
    assert Proper(tools, mode, outside, log[i]);
  }
}
