/**
 * Token accounting of the debate generator: global counters plus one bucket
 * per agent, bumped by every model call whose response reports usage.
 */
module Usage {
  import opened Wrappers

  /** The usage block of one response. */
  datatype UsageReport = UsageReport(promptTokens: nat, completionTokens: nat, totalTokens: nat)

  /** One entry of `by_agent`; the source keeps no per-agent total. */
  datatype AgentStats = AgentStats(promptTokens: nat, completionTokens: nat, calls: nat)

  /** The `token_usage` dictionary as a value. */
  datatype UsageTotals = UsageTotals(
    totalPromptTokens: nat,
    totalCompletionTokens: nat,
    totalTokens: nat,
    apiCalls: nat,
    byAgent: map<string, AgentStats>)

  /** One model call as the accounting sees it: the agent that made it and
      the usage its response carried, if any. */
  datatype AgentCall = AgentCall(agent: string, usage: Option<UsageReport>)

  const OutlineAgent: string := "outline_generator"
  const AffirmativeAgent: string := "affirmative_writer"
  const NegativeAgent: string := "negative_critic"
  const JudgeAgent: string := "judge_editor"

  /** The agents that have a bucket, in the order the dictionary lists them. */
  const Agents: seq<string> := [OutlineAgent, AffirmativeAgent, NegativeAgent, JudgeAgent]

  /** The dictionary as the generator's constructor creates it. */
  function Initial(): (r: UsageTotals)
    ensures r.totalPromptTokens == 0 && r.totalCompletionTokens == 0 && r.totalTokens == 0 && r.apiCalls == 0
    ensures forall a :: a in r.byAgent <==> a in Agents
    ensures forall a :: a in r.byAgent ==> r.byAgent[a] == AgentStats(0, 0, 0)
  {
    UsageTotals(0, 0, 0, 0, map a | a in Agents :: AgentStats(0, 0, 0))
  }

  function Bump(s: AgentStats, u: UsageReport): AgentStats {
    AgentStats(s.promptTokens + u.promptTokens, s.completionTokens + u.completionTokens, s.calls + 1)
  }

  /** Every counter of `t` is at least the corresponding counter of `before`. */
  ghost predicate Dominates(t: UsageTotals, before: UsageTotals) {
    && t.totalPromptTokens >= before.totalPromptTokens
    && t.totalCompletionTokens >= before.totalCompletionTokens
    && t.totalTokens >= before.totalTokens
    && t.apiCalls >= before.apiCalls
    && t.byAgent.Keys == before.byAgent.Keys
    && forall a :: a in t.byAgent ==>
         && t.byAgent[a].promptTokens >= before.byAgent[a].promptTokens
         && t.byAgent[a].completionTokens >= before.byAgent[a].completionTokens
         && t.byAgent[a].calls >= before.byAgent[a].calls
  }

  /** The effect of one call on the counters: nothing without usage; with
      usage, the global counters and, for a known agent, its bucket. */
  function AddCall(t: UsageTotals, agent: string, usage: Option<UsageReport>): (r: UsageTotals)
    ensures usage.None? ==> r == t
    ensures Dominates(r, t)
    ensures forall a :: a in t.byAgent && (a != agent || usage.None?) ==> r.byAgent[a] == t.byAgent[a]
  {
    match usage
    case None => t
    case Some(u) =>
      var byAgent := if agent in t.byAgent then t.byAgent[agent := Bump(t.byAgent[agent], u)] else t.byAgent;
      UsageTotals(t.totalPromptTokens + u.promptTokens,
                  t.totalCompletionTokens + u.completionTokens,
                  t.totalTokens + u.totalTokens,
                  t.apiCalls + 1,
                  byAgent)
  }

  /** The effect of a sequence of calls, made in order. */
  function AddCalls(t: UsageTotals, calls: seq<AgentCall>): UsageTotals
    decreases |calls|
  {
    if calls == [] then t else AddCalls(AddCall(t, calls[0].agent, calls[0].usage), calls[1..])
  }

  /** The number of calls whose response carried usage. */
  function Reported(calls: seq<AgentCall>): nat
    decreases |calls|
  {
    if calls == [] then 0 else (if calls[0].usage.Some? then 1 else 0) + Reported(calls[1..])
  }

  /** The sum of the total token counts those calls reported. */
  function ReportedTokens(calls: seq<AgentCall>): nat
    decreases |calls|
  {
    if calls == [] then 0
    else (if calls[0].usage.Some? then calls[0].usage.value.totalTokens else 0) + ReportedTokens(calls[1..])
  }

  /** The sum of the prompt token counts those calls reported. */
  function ReportedPrompt(calls: seq<AgentCall>): nat
    decreases |calls|
  {
    if calls == [] then 0
    else (if calls[0].usage.Some? then calls[0].usage.value.promptTokens else 0) + ReportedPrompt(calls[1..])
  }

  /** The sum of the completion token counts those calls reported. */
  function ReportedCompletion(calls: seq<AgentCall>): nat
    decreases |calls|
  {
    if calls == [] then 0
    else (if calls[0].usage.Some? then calls[0].usage.value.completionTokens else 0) + ReportedCompletion(calls[1..])
  }

  /** What the calls of `agent` that reported usage add up to: their prompt
      tokens, their completion tokens and how many there are. */
  function AgentReported(calls: seq<AgentCall>, agent: string): AgentStats
    decreases |calls|
  {
    if calls == [] then AgentStats(0, 0, 0)
    else
      var rest := AgentReported(calls[1..], agent);
      if calls[0].agent == agent && calls[0].usage.Some? then Bump(rest, calls[0].usage.value) else rest
  }

  function Plus(s: AgentStats, d: AgentStats): AgentStats {
    AgentStats(s.promptTokens + d.promptTokens, s.completionTokens + d.completionTokens, s.calls + d.calls)
  }

  lemma {:induction false} AddCallsAppend(t: UsageTotals, a: seq<AgentCall>, b: seq<AgentCall>)
    ensures AddCalls(t, a + b) == AddCalls(AddCalls(t, a), b)
    decreases |a|
  {
    if a == [] {
      assert a + b == b;
    } else {
      assert (a + b)[1..] == a[1..] + b;
      AddCallsAppend(AddCall(t, a[0].agent, a[0].usage), a[1..], b);
    }
  }

  lemma AddCallsSnoc(t: UsageTotals, calls: seq<AgentCall>, c: AgentCall)
    ensures AddCalls(t, calls + [c]) == AddCall(AddCalls(t, calls), c.agent, c.usage)
  {
    AddCallsAppend(t, calls, [c]);
    var t' := AddCalls(t, calls);
    assert AddCalls(AddCall(t', c.agent, c.usage), []) == AddCall(t', c.agent, c.usage);
  }

  /** `api_calls` counts exactly the calls that reported usage, and the
      three global token counters add up exactly the counts they reported. */
  lemma {:induction false} AddCallsCounts(t: UsageTotals, calls: seq<AgentCall>)
    ensures AddCalls(t, calls).apiCalls == t.apiCalls + Reported(calls)
    ensures AddCalls(t, calls).totalPromptTokens == t.totalPromptTokens + ReportedPrompt(calls)
    ensures AddCalls(t, calls).totalCompletionTokens == t.totalCompletionTokens + ReportedCompletion(calls)
    ensures AddCalls(t, calls).totalTokens == t.totalTokens + ReportedTokens(calls)
    decreases |calls|
  {
    if calls != [] {
      AddCallsCounts(AddCall(t, calls[0].agent, calls[0].usage), calls[1..]);
    }
  }

  /** Each bucket grows by exactly what its own agent's calls reported: the
      calls of other agents and the calls without usage leave it alone. */
  lemma {:induction false} AddCallsByAgent(t: UsageTotals, calls: seq<AgentCall>, agent: string)
    requires agent in t.byAgent
    ensures agent in AddCalls(t, calls).byAgent
    ensures AddCalls(t, calls).byAgent[agent] == Plus(t.byAgent[agent], AgentReported(calls, agent))
    decreases |calls|
  {
    if calls != [] {
      var t' := AddCall(t, calls[0].agent, calls[0].usage);
      AddCallsByAgent(t', calls[1..], agent);
    }
  }

  /** Counters only grow. */
  lemma {:induction false} AddCallsMonotone(t: UsageTotals, calls: seq<AgentCall>)
    ensures Dominates(AddCalls(t, calls), t)
    decreases |calls|
  {
    if calls != [] {
      var t' := AddCall(t, calls[0].agent, calls[0].usage);
      AddCallsMonotone(t', calls[1..]);
    }
  }

  /** The three per-agent counters. */
  datatype Counter = PromptTokens | CompletionTokens | Calls

  function Count(s: AgentStats, c: Counter): nat {
    match c
    case PromptTokens => s.promptTokens
    case CompletionTokens => s.completionTokens
    case Calls => s.calls
  }

  /** The sum of one counter over the buckets of `agents`. */
  function SumOver(m: map<string, AgentStats>, agents: seq<string>, c: Counter): nat
    requires forall k :: 0 <= k < |agents| ==> agents[k] in m
    decreases |agents|
  {
    if agents == [] then 0 else Count(m[agents[0]], c) + SumOver(m, agents[1..], c)
  }

  predicate Distinct(agents: seq<string>) {
    forall i, j :: 0 <= i < j < |agents| ==> agents[i] != agents[j]
  }

  /** The global counters agree with the buckets: the per-agent prompt tokens,
      completion tokens and calls add up to `total_prompt_tokens`,
      `total_completion_tokens` and `api_calls`. */
  ghost predicate Balanced(t: UsageTotals) {
    && (forall a :: a in t.byAgent <==> a in Agents)
    && t.totalPromptTokens == SumOver(t.byAgent, Agents, PromptTokens)
    && t.totalCompletionTokens == SumOver(t.byAgent, Agents, CompletionTokens)
    && t.apiCalls == SumOver(t.byAgent, Agents, Calls)
  }

  lemma {:induction false} SumOverZero(m: map<string, AgentStats>, agents: seq<string>, c: Counter)
    requires forall k :: 0 <= k < |agents| ==> agents[k] in m && m[agents[k]] == AgentStats(0, 0, 0)
    ensures SumOver(m, agents, c) == 0
    decreases |agents|
  {
    if agents != [] {
      SumOverZero(m, agents[1..], c);
    }
  }

  /** The freshly created dictionary is balanced. */
  lemma InitialBalanced()
    ensures Balanced(Initial())
  {
    var m := Initial().byAgent;
    SumOverZero(m, Agents, PromptTokens);
    SumOverZero(m, Agents, CompletionTokens);
    SumOverZero(m, Agents, Calls);
  }

  /** Replacing the bucket of one listed agent changes the sum by the change
      in that bucket alone. */
  lemma {:induction false} SumOverUpdate(m: map<string, AgentStats>, agents: seq<string>, a: string, s: AgentStats, c: Counter)
    requires forall k :: 0 <= k < |agents| ==> agents[k] in m
    requires Distinct(agents) && a in agents
    ensures SumOver(m[a := s], agents, c) + Count(m[a], c) == SumOver(m, agents, c) + Count(s, c)
    decreases |agents|
  {
    if agents[0] == a {
      assert a !in agents[1..];
      SumOverUnaffected(m, agents[1..], a, s, c);
    } else {
      SumOverUpdate(m, agents[1..], a, s, c);
    }
  }

  lemma {:induction false} SumOverUnaffected(m: map<string, AgentStats>, agents: seq<string>, a: string, s: AgentStats, c: Counter)
    requires forall k :: 0 <= k < |agents| ==> agents[k] in m
    requires a !in agents
    ensures SumOver(m[a := s], agents, c) == SumOver(m, agents, c)
    decreases |agents|
  {
    if agents != [] {
      SumOverUnaffected(m, agents[1..], a, s, c);
    }
  }

  /** One call keeps the counters balanced exactly when it reports no usage
      or is made by one of the four known agents: a call with usage under any
      other name bumps `api_calls` and no bucket. */
  lemma AddCallBalanced(t: UsageTotals, agent: string, usage: Option<UsageReport>)
    requires Balanced(t)
    ensures Balanced(AddCall(t, agent, usage)) <==> (usage.None? || agent in Agents)
  {
    if usage.Some? && agent in Agents {
      var u := usage.value;
      var s := Bump(t.byAgent[agent], u);
      assert Distinct(Agents);
      SumOverUpdate(t.byAgent, Agents, agent, s, PromptTokens);
      SumOverUpdate(t.byAgent, Agents, agent, s, CompletionTokens);
      SumOverUpdate(t.byAgent, Agents, agent, s, Calls);
    }
  }

  /** Every call in `calls` is made by one of the four known agents. */
  predicate KnownAgents(calls: seq<AgentCall>) {
    forall k :: 0 <= k < |calls| ==> calls[k].agent in Agents
  }

  lemma KnownAgentsAppend(a: seq<AgentCall>, b: seq<AgentCall>)
    requires KnownAgents(a) && KnownAgents(b)
    ensures KnownAgents(a + b)
  {
    forall k | 0 <= k < |a + b|
      ensures (a + b)[k].agent in Agents
    {
      if k >= |a| {
        assert (a + b)[k] == b[k - |a|];
      }
    }
  }

  /** Any sequence of calls made by the known agents keeps the counters
      balanced; in particular the per-agent calls always add up to `api_calls`. */
  lemma {:induction false} AddCallsBalanced(t: UsageTotals, calls: seq<AgentCall>)
    requires Balanced(t)
    requires KnownAgents(calls)
    ensures Balanced(AddCalls(t, calls))
    decreases |calls|
  {
    if calls != [] {
      AddCallBalanced(t, calls[0].agent, calls[0].usage);
      AddCallsBalanced(AddCall(t, calls[0].agent, calls[0].usage), calls[1..]);
    }
  }

  /** The `token_usage` dictionary of the generator, updated in place. */
  class TokenUsage {
    var totalPromptTokens: nat
    var totalCompletionTokens: nat
    var totalTokens: nat
    var apiCalls: nat
    var byAgent: map<string, AgentStats>

    function Snapshot(): UsageTotals
      reads this
    {
      UsageTotals(totalPromptTokens, totalCompletionTokens, totalTokens, apiCalls, byAgent)
    }

    constructor ()
      ensures Snapshot() == Initial()
    {
      totalPromptTokens, totalCompletionTokens, totalTokens, apiCalls := 0, 0, 0, 0;
      byAgent := map a | a in Agents :: AgentStats(0, 0, 0);
    }

    /** The usage tracking of one model call. */
    method Record(agent: string, usage: Option<UsageReport>)
      modifies this
      ensures Snapshot() == AddCall(old(Snapshot()), agent, usage)
    {
      if usage.Some? {
        var u := usage.value;
        totalPromptTokens := totalPromptTokens + u.promptTokens;
        totalCompletionTokens := totalCompletionTokens + u.completionTokens;
        totalTokens := totalTokens + u.totalTokens;
        apiCalls := apiCalls + 1;
        if agent in byAgent {
          byAgent := byAgent[agent := Bump(byAgent[agent], u)];
        }
      }
    }
  }
}
