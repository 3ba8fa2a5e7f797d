/** Invoking one agent, and delegating a task to a subordinate with retries
    (src/core/agent_invoker.py). */
module AgentInvocation {
  import opened Prelude
  import AgentLoop
  import Hooks

  /** AgentTier: 0 human, 1 executive, 2 department lead, 3 worker. */
  type Tier = t: int | 0 <= t <= 3

  datatype AgentStatus = Idle | Running | Completed | Failed | BlockedStatus | TimedOut

  datatype AgentConfig = AgentConfig(agentId: string, department: string, tier: Tier, allowedTools: seq<string>,
                                     subagents: set<string>, model: string, maxTurns: int, timeoutSeconds: real)

  datatype AgentResult = AgentResult(agentId: string, sessionId: string, status: AgentStatus, circuitBroken: bool)

  const NO_SESSION := "none"

  function BuildContext(c: AgentConfig, sessionId: string): Hooks.Context {
    Hooks.Context(c.agentId, if c.tier <= 2 then "orchestrator" else "doer", c.department, c.tier, sessionId,
                  c.allowedTools, c.model)
  }

  // ---- The delegation chain ---------------------------------------------------

  /** Whether `parent` may hand work to `target`: never upward, and only to a
      listed subagent when the parent lists any. */
  predicate MayDelegate(configs: map<string, AgentConfig>, parent: Option<Hooks.Context>, target: string) {
    target in configs ==>
      && (if parent.Some? then parent.value.tier else 0) <= configs[target].tier
      && (parent.Some? && parent.value.agentId in configs && configs[parent.value.agentId].subagents != {} ==>
            target in configs[parent.value.agentId].subagents)
  }

  /** Contexts, each built for an agent its predecessor was allowed to delegate to. */
  ghost predicate Chain(configs: map<string, AgentConfig>, cs: seq<Hooks.Context>) {
    |cs| <= 1 ||
    var parent, child := cs[|cs| - 2], cs[|cs| - 1];
    && Chain(configs, cs[..|cs| - 1])
    && child.agentId in configs
    && child == BuildContext(configs[child.agentId], child.sessionId)
    && MayDelegate(configs, Some(parent), child.agentId)
  }

  /** Authority only narrows along a chain, and a doer is never followed by an
      orchestrator. */
  lemma {:induction false} TiersNeverDecrease(configs: map<string, AgentConfig>, cs: seq<Hooks.Context>, i: nat, j: nat)
    requires Chain(configs, cs) && i <= j < |cs|
    ensures cs[i].tier <= cs[j].tier
    ensures i < j && cs[i].tier > 2 ==> cs[j].agentType == "doer"
  {
    if i < j {
      if j == |cs| - 1 {
        TiersNeverDecrease(configs, cs[..|cs| - 1], i, j - 1);
      } else {
        TiersNeverDecrease(configs, cs[..|cs| - 1], i, j);
      }
    }
  }

  /** Every context behind the first acts under its own configuration: nothing of
      its parent's authority is handed down. */
  lemma {:induction false} OwnAuthority(configs: map<string, AgentConfig>, cs: seq<Hooks.Context>, j: nat)
    requires Chain(configs, cs) && 0 < j < |cs|
    ensures cs[j].agentId in configs
    ensures var c := configs[cs[j].agentId];
            && cs[j].tier == c.tier && cs[j].agentType == (if c.tier <= 2 then "orchestrator" else "doer")
            && cs[j].allowedTools == c.allowedTools && cs[j].department == c.department && cs[j].model == c.model
  {
    if j < |cs| - 1 {
      OwnAuthority(configs, cs[..|cs| - 1], j);
    }
  }

  // ---- The registry of sessions -------------------------------------------------

  /** What the registry shows after the sessions of `results` have ended. */
  function Registered(sessions: map<string, AgentStatus>, results: seq<AgentResult>): map<string, AgentStatus> {
    if |results| == 0 then sessions
    else
      var before, r := Registered(sessions, results[..|results| - 1]), results[|results| - 1];
      if r.sessionId == NO_SESSION then before else before[r.sessionId := r.status]
  }

  /** With distinct session ids, every session that was opened ends with the
      status its invocation returned. */
  lemma {:induction false} SessionsEndAsReturned(sessions: map<string, AgentStatus>, results: seq<AgentResult>, i: nat)
    requires i < |results| && results[i].sessionId != NO_SESSION
    requires forall a, b :: 0 <= a < b < |results| && results[a].sessionId == results[b].sessionId ==>
               results[a].sessionId == NO_SESSION
    ensures results[i].sessionId in Registered(sessions, results)
    ensures Registered(sessions, results)[results[i].sessionId] == results[i].status
  {
    if i < |results| - 1 {
      SessionsEndAsReturned(sessions, results[..|results| - 1], i);
    }
  }

  /** The status an invocation must report for each way its run can end. */
  function StatusFor(exit: AgentLoop.Exit): AgentStatus {
    match exit
    case Timeout => TimedOut
    case LlmFailed => Failed
    case Done => Completed
    case TurnsExhausted => Completed
    case Crash(timeout) => if timeout then TimedOut else Failed
  }

  function EventFor(exit: AgentLoop.Exit): string {
    match exit
    case Crash(timeout) => if timeout then "agent_timeout" else "agent_error"
    case _ => "agent_complete"
  }

  /** A run that ends on its clock or is cut short by it has timed out, one that
      ends by itself or uses up its turns is complete, and only a crash is
      audited as anything but complete. */
  lemma ExitReported(exit: AgentLoop.Exit)
    ensures StatusFor(exit) in {Completed, Failed, TimedOut}
    ensures StatusFor(exit) == TimedOut <==> exit.Timeout? || (exit.Crash? && exit.timeout)
    ensures StatusFor(exit) == Completed <==> exit.Done? || exit.TurnsExhausted?
    ensures EventFor(exit) == if !exit.Crash? then "agent_complete" else if exit.timeout then "agent_timeout" else "agent_error"
  {
  }

  /** The prompt of the next attempt; the error text is left out. */
  function WithRetryContext(prompt: string): string {
    prompt + "\n\n--- RETRY CONTEXT ---\nPrevious attempt failed.\nAdjust your approach and try again."
  }

  /** Task metadata travels with every attempt and is updated in place. */
  class TaskMetadata {
    var maxAttempts: int
    var attemptCount: int
    var circuitBroken: bool
    var needsAttention: bool

    constructor (maxAttempts: int := 3)
      ensures this.maxAttempts == maxAttempts && attemptCount == 0 && !circuitBroken && !needsAttention
    {
      this.maxAttempts, attemptCount, circuitBroken, needsAttention := maxAttempts, 0, false, false;
    }
  }

  class AgentInvoker {
    var configs: map<string, AgentConfig>
    var sessions: map<string, AgentStatus>
    const client: AgentLoop.ClaudeClient?
    const audit: Hooks.AuditLogger
    /** _build_prompt: the prompt with the attempt number and limit in it. */
    const render: (string, int, int) -> string

    constructor (client: AgentLoop.ClaudeClient?, audit: Hooks.AuditLogger, render: (string, int, int) -> string)
      ensures this.client == client && this.audit == audit && this.render == render
      ensures configs == map[] && sessions == map[]
    {
      this.client, this.audit, this.render := client, audit, render;
      configs, sessions := map[], map[];
    }

    method Register(config: AgentConfig)
      modifies this`configs
      ensures configs == old(configs)[config.agentId := config]
    {
      configs := configs[config.agentId := config];
    }

    /** Model attempts so far; zero without a client. */
    ghost function Attempts(): nat
      reads this, client
    {
      if client == null then 0 else client.attempts
    }

    /** The most attempts one invocation of `agentId` can make. */
    ghost function AttemptLimit(agentId: string): nat
      reads this`configs
    {
      if client == null || agentId !in configs then 0
      else Max0(configs[agentId].maxTurns) * Max0(client.maxRetries)
    }

    /** _execute_agent: the loop, or a simulated success without a client. */
    method ExecuteAgent(config: AgentConfig, prompt: string)
      returns (status: AgentStatus, event: string, ghost exit: Option<AgentLoop.Exit>)
      modifies client
      ensures status in {Completed, Failed, TimedOut} && event in {"agent_complete", "agent_timeout", "agent_error"}
      ensures client == null <==> exit.None?
      ensures client == null ==> status == Completed && event == "agent_complete"
      ensures client != null ==> status == StatusFor(exit.value) && event == EventFor(exit.value)
      ensures client != null ==>
                old(client.attempts) <= client.attempts
                <= old(client.attempts) + Max0(config.maxTurns) * Max0(client.maxRetries)
      // how it ends is what the environment calls for
      ensures client != null ==>
                var s := AgentLoop.Settings(client.hasHooks, client.hasExecutor, client.maxRetries,
                                            client.world.clock(old(client.readings)), config.timeoutSeconds);
                var c := old(client.Here()).(readings := old(client.readings) + 1);
                exit.value == AgentLoop.Ending(client.world, s, c, config.maxTurns)
    {
      hide AgentLoop.InRun, AgentLoop.Dangles, AgentLoop.WellFormed, AgentLoop.Recorded, AgentLoop.Replies,
        AgentLoop.Ending, AgentLoop.Final;
      status, event, exit := Completed, "agent_complete", None;
      if client != null {
        var ended, result, _, _, _, _, _ := client.RunSync(prompt, config.maxTurns, config.timeoutSeconds, true);
        exit := Some(ended);
        match result {
          case Some(r) =>
            status := match r.status
              case Completed => Completed
              case Failed => Failed
              case TimedOut => TimedOut;
          case None =>
            if ended.timeout {
              status, event := TimedOut, "agent_timeout";
            } else {
              status, event := Failed, "agent_error";
            }
        }
      }
    }

    /** One invocation.  `usageAllowed` is the verdict of the usage enforcer, and
        `sessionId` the fresh id the invocation opens. */
    method Invoke(agentId: string, prompt: string, meta: TaskMetadata, sessionId: string, usageAllowed: bool)
      returns (result: AgentResult, ghost exit: Option<AgentLoop.Exit>)
      requires sessionId != NO_SESSION
      modifies this`sessions, audit, client
      ensures result.agentId == agentId && !result.circuitBroken
      // an unknown agent or an exhausted plan opens no session and calls no model
      ensures agentId !in configs || !usageAllowed ==>
                && result.status == Failed && result.sessionId == NO_SESSION
                && audit.buffer == old(audit.buffer) && Attempts() == old(Attempts())
      ensures agentId in configs && usageAllowed ==>
                && result.sessionId == sessionId
                && result.status in {Completed, Failed, TimedOut}
                && |audit.buffer| == |old(audit.buffer)| + 2 && audit.buffer[..|old(audit.buffer)|] == old(audit.buffer)
                && audit.buffer[|old(audit.buffer)|].event == "agent_start"
                && (forall n :: |old(audit.buffer)| <= n < |audit.buffer| ==>
                      && audit.buffer[n].ctx.sessionId == sessionId && audit.buffer[n].ctx.agentId == configs[agentId].agentId
                      && audit.buffer[n].ctx.tier == configs[agentId].tier)
                && (client == null ==> result.status == Completed && audit.buffer[|old(audit.buffer)| + 1].event == "agent_complete")
                && (client != null ==>
                      && exit.Some? && result.status == StatusFor(exit.value)
                      && audit.buffer[|old(audit.buffer)| + 1].event == EventFor(exit.value))
      ensures sessions == Registered(old(sessions), [result])
      ensures old(Attempts()) <= Attempts() <= old(Attempts()) + AttemptLimit(agentId)
    {
      if agentId !in configs || !usageAllowed {
        result, exit := AgentResult(agentId, NO_SESSION, Failed, false), None;
        RegisteredOne(sessions, result);
        return;
      }
      var config := configs[agentId];
      var context := BuildContext(config, sessionId);
      sessions := sessions[sessionId := Running];
      audit.Log(context, "agent_start", "", "started");
      var status, event;
      status, event, exit := ExecuteAgent(config, render(prompt, meta.attemptCount + 1, meta.maxAttempts));
      audit.Log(context, event, "", "");
      sessions := sessions[sessionId := status];
      result := AgentResult(agentId, sessionId, status, false);
      RegisteredOne(old(sessions), result);
    }

    /** The attempts of a delegation: up to `limit`, until one completes. */
    method TryRepeatedly(target: string, task: string, meta: TaskMetadata, limit: int,
                         sessionIds: nat -> string, usage: nat -> bool)
      returns (outcome: Option<AgentResult>, ghost invoked: seq<AgentResult>)
      requires forall n :: sessionIds(n) != NO_SESSION
      requires meta.maxAttempts == limit
      modifies this`sessions, audit, meta`attemptCount, client
      ensures |invoked| <= Max0(limit)
      ensures if |invoked| == 0 then outcome == None else outcome == Some(invoked[|invoked| - 1])
      ensures limit <= 0 <==> |invoked| == 0
      ensures outcome.Some? ==> !outcome.value.circuitBroken
      ensures |invoked| > 0 ==> meta.attemptCount == |invoked| - 1
      ensures forall i :: 0 <= i < |invoked| && target in configs && usage(i) ==> invoked[i].sessionId == sessionIds(i)
      ensures forall i :: 0 <= i < |invoked| - 1 ==> invoked[i].status != Completed
      ensures outcome.Some? && outcome.value.status != Completed ==> |invoked| == limit
      ensures sessions == Registered(old(sessions), invoked)
      ensures old(Attempts()) <= Attempts() <= old(Attempts()) + |invoked| * AttemptLimit(target)
    {
      hide AttemptLimit, Attempts, Registered, BuildContext, WithRetryContext, StatusFor, EventFor, Max0;
      invoked := [];
      NothingRegistered(sessions);
      MaxPositive(limit);
      var prompt, attempt := task, 0;
      ghost var each := AttemptLimit(target);
      outcome := None;
      while attempt < limit
        invariant 0 <= attempt <= Max0(limit) && |invoked| == attempt
        invariant forall i :: 0 <= i < |invoked| ==> invoked[i].status != Completed
        invariant if attempt == 0 then outcome == None else outcome == Some(invoked[attempt - 1])
        invariant outcome.Some? ==> !outcome.value.circuitBroken
        invariant attempt > 0 ==> meta.attemptCount == attempt - 1
        invariant forall i :: 0 <= i < attempt && target in configs && usage(i) ==> invoked[i].sessionId == sessionIds(i)
        invariant sessions == Registered(old(sessions), invoked)
        invariant old(Attempts()) <= Attempts() <= old(Attempts()) + attempt * each
      {
        meta.attemptCount := attempt;
        var result, _ := Invoke(target, prompt, meta, sessionIds(attempt), usage(attempt));
        RegisteredMore(old(sessions), invoked, result);
        OneMore(attempt, limit, each);
        invoked := invoked + [result];
        outcome := Some(result);
        if result.status == Completed {
          return;
        }
        if attempt < limit - 1 {
          prompt := WithRetryContext(prompt);
        }
        attempt := attempt + 1;
      }
    }

    /** delegate_to_subagent.  `invoked` lists the invocations made; with no attempt
        allowed the function has no result to return and raises. */
    method DelegateToSubagent(parent: Option<Hooks.Context>, target: string, task: string, meta: TaskMetadata,
                              sessionIds: nat -> string, usage: nat -> bool)
      returns (outcome: Option<AgentResult>, ghost invoked: seq<AgentResult>)
      requires forall n :: sessionIds(n) != NO_SESSION
      modifies this`sessions, audit, meta, client
      // refused before anything is invoked
      ensures MayDelegate(configs, parent, target) <==>
                || target !in configs
                || (&& (parent.Some? ==> parent.value.tier <= configs[target].tier)
                    && (parent.Some? && parent.value.agentId in configs
                        && configs[parent.value.agentId].subagents != {} ==>
                          target in configs[parent.value.agentId].subagents))
      ensures !MayDelegate(configs, parent, target) ==>
                && outcome == Some(AgentResult(target, NO_SESSION, Failed, false)) && invoked == []
                && meta.circuitBroken == old(meta.circuitBroken) && meta.needsAttention == old(meta.needsAttention)
      ensures MayDelegate(configs, parent, target) ==>
                && |invoked| <= Max0(old(meta.maxAttempts))
                && (old(meta.maxAttempts) <= 0 <==> outcome.None?)
                && (outcome.Some? ==>
                      && |invoked| > 0
                      && outcome.value == invoked[|invoked| - 1].(circuitBroken := outcome.value.circuitBroken)
                      // it stops at the first success, and breaks the circuit after the last failure
                      && (forall i :: 0 <= i < |invoked| - 1 ==> invoked[i].status != Completed)
                      && (outcome.value.status != Completed ==> |invoked| == old(meta.maxAttempts))
                      && outcome.value.circuitBroken == (outcome.value.status != Completed)
                      && (outcome.value.circuitBroken ==> meta.circuitBroken && meta.needsAttention))
      ensures sessions == Registered(old(sessions), invoked)
      ensures old(Attempts()) <= Attempts()
      ensures Attempts() <= old(Attempts()) + Max0(old(meta.maxAttempts)) * AttemptLimit(target)
    {
      hide AttemptLimit, Attempts, Registered, BuildContext, WithRetryContext, StatusFor, EventFor, Max0;
      invoked := [];
      NothingRegistered(sessions);
      MaxTimes(meta.maxAttempts, 0, AttemptLimit(target));
      var parentTier := if parent.Some? then parent.value.tier else 0;
      if target in configs && configs[target].tier < parentTier {
        return Some(AgentResult(target, NO_SESSION, Failed, false)), [];
      }
      if parent.Some? && target in configs && parent.value.agentId in configs
         && configs[parent.value.agentId].subagents != {} && target !in configs[parent.value.agentId].subagents
      {
        return Some(AgentResult(target, NO_SESSION, Failed, false)), [];
      }
      outcome, invoked := TryRepeatedly(target, task, meta, meta.maxAttempts, sessionIds, usage);
      MaxTimes(meta.maxAttempts, |invoked|, AttemptLimit(target));
      if outcome.Some? && outcome.value.status == Completed {
        return;
      }
      meta.circuitBroken, meta.needsAttention := true, true;
      if outcome.Some? {
        outcome := Some(outcome.value.(circuitBroken := true));
      }
    }
  }

  lemma NothingRegistered(sessions: map<string, AgentStatus>)
    ensures Registered(sessions, []) == sessions
  {
  }

  lemma RegisteredOne(sessions: map<string, AgentStatus>, r: AgentResult)
    ensures Registered(sessions, [r]) == if r.sessionId == NO_SESSION then sessions else sessions[r.sessionId := r.status]
  {
    assert [r][..0] == [];
  }

  lemma RegisteredMore(sessions: map<string, AgentStatus>, results: seq<AgentResult>, r: AgentResult)
    ensures Registered(sessions, results + [r]) == Registered(Registered(sessions, results), [r])
  {
    assert (results + [r])[..|results|] == results;
    RegisteredOne(Registered(sessions, results), r);
  }

  lemma MaxPositive(n: int)
    ensures Max0(n) == if n < 0 then 0 else n
  {
  }

  lemma MaxTimes(limit: int, n: nat, each: nat)
    ensures n <= Max0(limit) ==> n * each <= Max0(limit) * each
    ensures 0 <= Max0(limit) * each
  {
  }

  lemma OneMore(attempt: nat, limit: int, each: nat)
    requires attempt < limit
    ensures (attempt + 1) * each == attempt * each + each
    ensures (attempt + 1) * each <= Max0(limit) * each
  {
  }
}
