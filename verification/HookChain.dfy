/** The governance hook chain (src/core/hooks.py): authorization, compliance,
    audit log and the pre/post pipeline over the ledger and the rate limiter. */
module Hooks {
  import opened Prelude
  import opened ToolPatterns
  import CostTracking
  import RateLimiting

  datatype Decision = Allow | Block | AskHuman

  datatype Context = Context(agentId: string, agentType: string, department: string, tier: int,
                             sessionId: string, allowedTools: seq<string>, model: string)

  /** A tool's keyword arguments; an absent input and an empty one are both falsy. */
  type ToolInput = map<string, string>

  /** re.search, uninterpreted: (pattern, text). */
  type Regex = (string, string) -> bool

  const BLOCKED_BASH: seq<string> := [
    @"rm\s+-rf\s+/", @"rm\s+-rf\s+\.", @"DROP\s+TABLE", @"DROP\s+DATABASE", @"TRUNCATE\s+TABLE",
    @"curl\s+.*\|\s*sh", @"curl\s+.*\|\s*bash", @"wget\s+.*\|\s*sh", @"mkfs\.", @"dd\s+if=",
    @":(){ :\|:& };:", @"chmod\s+-R\s+777\s+/", @">\s*/dev/sd", @"shutdown", @"reboot", @"init\s+0"
  ]

  const COMPLIANCE_BLOCKLIST: seq<string> := [
    @"(?i)guarantee[sd]?\s+(return|profit|result)",
    @"(?i)we\s+(?:will|shall)\s+never\s+(?:fail|lose|miss)",
    @"(?i)(?:password|secret|api[_-]?key|token)\s*[:=]\s*\S+",
    @"(?i)social\s*security\s*(?:number)?",
    @"(?i)credit\s*card\s*(?:number)?"
  ]

  const MAILERS: set<string> := {
    "send_gmail_message", "send_message",
    "mcp__google-workspace__send_gmail_message", "mcp__google-workspace__send_message"
  }

  predicate AnyMatch(search: Regex, patterns: seq<string>, text: string) {
    exists i :: 0 <= i < |patterns| && search(patterns[i], text)
  }

  method SearchAny(search: Regex, patterns: seq<string>, text: string) returns (found: bool)
    ensures found <==> AnyMatch(search, patterns, text)
  {
    for i := 0 to |patterns|
      invariant forall j :: 0 <= j < i ==> !search(patterns[j], text)
    {
      if search(patterns[i], text) {
        return true;
      }
    }
    return false;
  }

  /** tool_name.split("__")[-1]: what follows the last separator, scanning left to right. */
  function BaseTool(name: string): (base: string)
    ensures |base| <= |name| && name[|name| - |base|..] == base
  {
    BaseFrom(name, 0, 0)
  }

  function BaseFrom(name: string, start: nat, i: nat): (base: string)
    requires start <= i <= |name|
    ensures |base| <= |name| - start && name[|name| - |base|..] == base
    decreases |name| - i
  {
    if i + 1 >= |name| then name[start..]
    else if name[i] == '_' && name[i + 1] == '_' then BaseFrom(name, i + 2, i + 2)
    else BaseFrom(name, start, i + 1)
  }

  /** Two underscores somewhere in the name. */
  predicate HasSeparator(name: string) {
    exists i :: 0 <= i < |name| - 1 && name[i] == '_' && name[i + 1] == '_'
  }

  lemma {:induction false} BaseFromPlain(name: string, start: nat, i: nat)
    requires start <= i <= |name| && forall j :: i <= j < |name| - 1 ==> !(name[j] == '_' && name[j + 1] == '_')
    ensures BaseFrom(name, start, i) == name[start..]
    decreases |name| - i
  {
    if i + 1 < |name| {
      BaseFromPlain(name, start, i + 1);
    }
  }

  /** A name without a separator is its own base. */
  lemma PlainIsBase(name: string)
    requires !HasSeparator(name)
    ensures BaseTool(name) == name
  {
    BaseFromPlain(name, 0, 0);
  }

  lemma NoneBehind(name: string, n: nat)
    requires n <= |name| && !HasSeparator(name[n..])
    ensures forall j :: n <= j < |name| - 1 ==> !(name[j] == '_' && name[j + 1] == '_')
  {
    forall j | n <= j < |name| - 1 ensures !(name[j] == '_' && name[j + 1] == '_') {
      assert name[j] == name[n..][j - n] && name[j + 1] == name[n..][j + 1 - n];
    }
  }

  lemma BaseFromStep(name: string, start: nat, i: nat)
    requires start <= i && i + 1 < |name|
    ensures BaseFrom(name, start, i) ==
            if name[i] == '_' && name[i + 1] == '_' then BaseFrom(name, i + 2, i + 2) else BaseFrom(name, start, i + 1)
  {
  }

  lemma {:induction false} BaseFromLast(name: string, start: nat, i: nat, at: nat)
    requires start <= i <= at && at + 1 < |name| && name[at] == '_' && name[at + 1] == '_'
    requires at == 0 || i == at || name[at - 1] != '_'
    requires !HasSeparator(name[at + 2..])
    ensures BaseFrom(name, start, i) == name[at + 2..]
    decreases at - i
  {
    hide HasSeparator, BaseFrom;
    BaseFromStep(name, start, i);
    if i == at {
      NoneBehind(name, at + 2);
      BaseFromPlain(name, at + 2, at + 2);
    } else if name[i] == '_' && name[i + 1] == '_' {
      BaseFromLast(name, i + 2, i + 2, at);
    } else {
      BaseFromLast(name, start, i + 1, at);
    }
  }

  /** Whatever the namespaces in front, the base is what stands behind the last
      separator. */
  lemma BaseBehindSeparator(front: string, base: string)
    requires !HasSeparator(base) && (front == "" || front[|front| - 1] != '_')
    ensures BaseTool(front + "__" + base) == base
  {
    var name := front + "__" + base;
    assert name[|front| + 2..] == base;
    BaseFromLast(name, 0, 0, |front|);
  }

  /** The tool `base`, with or without namespaces in front of it. */
  ghost predicate Names(tool: string, base: string) {
    || tool == base
    || (|tool| >= |base| + 2 && tool[|tool| - |base|..] == base
        && tool[|tool| - |base| - 1] == '_' && tool[|tool| - |base| - 2] == '_'
        && (|tool| == |base| + 2 || tool[|tool| - |base| - 3] != '_'))
  }

  lemma NamesBase(tool: string, base: string)
    requires Names(tool, base) && !HasSeparator(base)
    ensures BaseTool(tool) == base
  {
    if tool == base {
      PlainIsBase(tool);
    } else {
      var front := tool[..|tool| - |base| - 2];
      assert tool == front + "__" + base;
      BaseBehindSeparator(front, base);
    }
  }

  lemma {:induction false} SensitiveNames()
    ensures !HasSeparator("transfer_drive_ownership") && !HasSeparator("create_event")
    ensures "transfer_drive_ownership" != "create_event"
  {
    assert "transfer_drive_ownership"[0] == 't' && "create_event"[0] == 'c';
  }

  lemma NotBash(tool: string)
    ensures Names(tool, "transfer_drive_ownership") || Names(tool, "create_event") ==> tool != "Bash"
  {
    assert |"transfer_drive_ownership"| == 24 && |"create_event"| == 12;
  }

  /** str.split(",") makes one more piece than there are commas. */
  function CommaPieces(s: string): (n: nat)
    ensures n >= 1
  {
    if s == "" then 1 else CommaPieces(s[1..]) + (if s[0] == ',' then 1 else 0)
  }

  /** One piece more than there are commas. */
  lemma {:induction false} PiecesAndCommas(s: string)
    ensures CommaPieces(s) == multiset(s)[','] + 1
  {
    if s != "" {
      assert s == [s[0]] + s[1..];
      PiecesAndCommas(s[1..]);
    }
  }

  // ---- What each check is meant to decide -----------------------------------

  predicate Unauthorized(ctx: Context, tool: string) {
    !Listed(tool, ctx.allowedTools)
  }

  predicate DangerousCommand(search: Regex, tool: string, input: ToolInput) {
    tool == "Bash" && input != map[] && AnyMatch(search, BLOCKED_BASH, Lookup(input, "command", ""))
  }

  predicate AboveTier(ctx: Context, tool: string) {
    || (BaseTool(tool) == "create_event" && ctx.tier > 2)
    || (tool == "Agent" && ctx.tier >= 3)
  }

  predicate NeedsHuman(tool: string) {
    BaseTool(tool) == "transfer_drive_ownership"
  }

  predicate BannedContent(search: Regex, input: ToolInput) {
    AnyMatch(search, COMPLIANCE_BLOCKLIST, Lookup(input, "body", Lookup(input, "text", "")))
  }

  predicate MassMail(input: ToolInput) {
    CommaPieces(Lookup(input, "to", "")) > 50
  }

  /** What the two sensitive names come to, under whatever namespaces. */
  lemma SensitiveTools(ctx: Context, tool: string)
    ensures Names(tool, "transfer_drive_ownership") ==> NeedsHuman(tool) && !AboveTier(ctx, tool) && tool != "Bash"
    ensures Names(tool, "create_event") ==> !NeedsHuman(tool) && (AboveTier(ctx, tool) <==> ctx.tier > 2) && tool != "Bash"
  {
    hide Names, BaseTool;
    SensitiveNames();
    NotBash(tool);
    NotAgent(tool);
    if Names(tool, "transfer_drive_ownership") {
      NamesBase(tool, "transfer_drive_ownership");
    }
    if Names(tool, "create_event") {
      NamesBase(tool, "create_event");
    }
  }

  lemma OrdinaryTools(tool: string)
    ensures !HasSeparator(tool) ==> BaseTool(tool) == tool
    ensures BaseTool("Agent") == "Agent" && "Agent" != "Bash"
    ensures "Agent" != "create_event" && "Agent" != "transfer_drive_ownership"
  {
    hide BaseTool;
    if !HasSeparator(tool) {
      PlainIsBase(tool);
    }
    assert !HasSeparator("Agent");
    PlainIsBase("Agent");
    assert |"Agent"| == 5 && |"create_event"| == 12 && |"transfer_drive_ownership"| == 24;
  }

  lemma NotAgent(tool: string)
    ensures Names(tool, "transfer_drive_ownership") || Names(tool, "create_event") ==> tool != "Agent"
  {
    assert |"transfer_drive_ownership"| == 24 && |"create_event"| == 12;
  }

  class AuthChecker {
    const search: Regex

    constructor (search: Regex)
      ensures this.search == search
    {
      this.search := search;
    }

    method Check(ctx: Context, tool: string, input: ToolInput) returns (d: Decision)
      ensures d.Allow? <==>
        !Unauthorized(ctx, tool) && !DangerousCommand(search, tool, input) && !NeedsHuman(tool) && !AboveTier(ctx, tool)
      ensures d.AskHuman? <==>
        NeedsHuman(tool) && !Unauthorized(ctx, tool) && !DangerousCommand(search, tool, input)
      // in particular, for a listed tool under whatever namespaces
      ensures Listed(tool, ctx.allowedTools) && Names(tool, "transfer_drive_ownership") ==> d == AskHuman
      ensures Listed(tool, ctx.allowedTools) && Names(tool, "create_event") ==> d == if ctx.tier > 2 then Block else Allow
      ensures Listed(tool, ctx.allowedTools) && tool == "Agent" ==> d == if ctx.tier >= 3 then Block else Allow
      ensures Listed(tool, ctx.allowedTools) && !HasSeparator(tool) ==>
                tool in {"Bash", "Agent", "create_event", "transfer_drive_ownership"} || d == Allow
    {
      SensitiveTools(ctx, tool);
      OrdinaryTools(tool);
      var permitted := PermissionScan(tool, ctx.allowedTools);
      if !permitted {
        return Block;
      }
      if tool == "Bash" && input != map[] {
        var dangerous := SearchAny(search, BLOCKED_BASH, Lookup(input, "command", ""));
        if dangerous {
          return Block;
        }
      }
      var base := BaseTool(tool);
      if base == "transfer_drive_ownership" {
        return AskHuman;
      }
      if base == "create_event" && ctx.tier > 2 {
        return Block;
      }
      if tool == "Agent" && ctx.tier >= 3 {
        return Block;
      }
      return Allow;
    }
  }

  class ComplianceChecker {
    const search: Regex

    constructor (search: Regex)
      ensures this.search == search
    {
      this.search := search;
    }

    method CheckEmail(to: string, body: string) returns (d: Decision)
      ensures d.Block? <==> AnyMatch(search, COMPLIANCE_BLOCKLIST, body)
      ensures d.AskHuman? <==> !AnyMatch(search, COMPLIANCE_BLOCKLIST, body) && CommaPieces(to) > 50
    {
      var banned := SearchAny(search, COMPLIANCE_BLOCKLIST, body);
      if banned {
        return Block;
      }
      return if CommaPieces(to) > 50 then AskHuman else Allow;
    }
  }

  datatype AuditEntry = AuditEntry(ctx: Context, event: string, tool: string, decision: string)

  class AuditLogger {
    var buffer: seq<AuditEntry>

    constructor ()
      ensures buffer == []
    {
      buffer := [];
    }

    method Log(ctx: Context, event: string, tool: string, decision: string)
      modifies this
      ensures buffer == old(buffer) + [AuditEntry(ctx, event, tool, decision)]
    {
      buffer := buffer + [AuditEntry(ctx, event, tool, decision)];
    }
  }

  datatype Approval = Approval(agent: string, department: string, title: string, tier: int)

  /** The human-in-the-loop gateway: it names its requests as it sees fit. */
  class ApprovalGateway {
    const idOf: nat -> string
    var requests: seq<Approval>

    constructor (idOf: nat -> string)
      ensures requests == [] && this.idOf == idOf
    {
      this.idOf, requests := idOf, [];
    }

    method RequestApproval(a: Approval) returns (id: string)
      modifies this
      ensures requests == old(requests) + [a] && id == idOf(|old(requests)|)
    {
      id := idOf(|requests|);
      requests := requests + [a];
    }
  }

  function ApprovalFor(ctx: Context, tool: string): Approval {
    Approval(ctx.agentId, ctx.department, "Tool approval: " + tool, ctx.tier)
  }

  /** The decision auth and compliance call for once budget and rate have passed. */
  function Judgement(search: Regex, ctx: Context, tool: string, input: ToolInput): Decision {
    if Unauthorized(ctx, tool) || DangerousCommand(search, tool, input) then Block
    else if NeedsHuman(tool) then AskHuman
    else if AboveTier(ctx, tool) then Block
    else if input == map[] || tool !in MAILERS then Allow
    else if BannedContent(search, input) then Block
    else if MassMail(input) then AskHuman
    else Allow
  }

  /** Exactly when a call that fits budget and rate goes ahead, and when a human
      is asked: authorization speaks first, and mails are checked after it. */
  lemma JudgementExactly(search: Regex, ctx: Context, tool: string, input: ToolInput)
    ensures var authorized := Listed(tool, ctx.allowedTools) && !(tool == "Bash" && input != map[] &&
                                AnyMatch(search, BLOCKED_BASH, if "command" in input then input["command"] else ""));
            var mails := input != map[] && tool in {"send_gmail_message", "send_message",
                           "mcp__google-workspace__send_gmail_message", "mcp__google-workspace__send_message"};
            var text := if "body" in input then input["body"] else if "text" in input then input["text"] else "";
            var commas := if "to" in input then multiset(input["to"])[','] else 0;
            && (Judgement(search, ctx, tool, input) == Allow <==>
                  authorized && !NeedsHuman(tool) && !AboveTier(ctx, tool)
                  && (mails ==> !AnyMatch(search, COMPLIANCE_BLOCKLIST, text) && commas < 50))
            && (Judgement(search, ctx, tool, input) == AskHuman <==>
                  authorized && (NeedsHuman(tool) || (!AboveTier(ctx, tool) && mails
                    && !AnyMatch(search, COMPLIANCE_BLOCKLIST, text) && commas >= 50)))
  {
    hide AnyMatch, BaseTool, CommaPieces, NeedsHuman, AboveTier;
    PiecesAndCommas(Lookup(input, "to", ""));
    assert multiset("")[','] == 0;
  }

  /** The two sensitive tools under whatever namespaces. */
  lemma JudgementOfSensitive(search: Regex, ctx: Context, tool: string, input: ToolInput)
    requires Listed(tool, ctx.allowedTools)
    ensures Names(tool, "transfer_drive_ownership") ==> Judgement(search, ctx, tool, input) == AskHuman
    ensures Names(tool, "create_event") && ctx.tier > 2 ==> Judgement(search, ctx, tool, input) == Block
  {
    hide Names, NeedsHuman, AboveTier, AnyMatch, CommaPieces;
    SensitiveTools(ctx, tool);
  }

  /** What the audit log says of a decision, and what a human is asked. */
  lemma TextsOf(ctx: Context, tool: string)
    ensures AuditLabel(Allow) == "allowed" && AuditLabel(Block) == "block" && AuditLabel(AskHuman) == "ask_human"
    ensures ApprovalFor(ctx, tool).title == "Tool approval: " + tool && ApprovalFor(ctx, tool).agent == ctx.agentId
    ensures ApprovalFor(ctx, tool).department == ctx.department && ApprovalFor(ctx, tool).tier == ctx.tier
  {
  }

  class HookChain {
    const audit: AuditLogger
    const rateLimiter: RateLimiting.RateLimiter
    const auth: AuthChecker
    const cost: CostTracking.CostTracker
    const compliance: ComplianceChecker
    const hitl: ApprovalGateway?
    /** Hook calls made so far. */
    ghost var calls: nat

    ghost predicate Valid()
      reads this, audit, rateLimiter, cost
    {
      && rateLimiter.Valid()
      && cost.Valid()
      && CostTracking.NothingReleased(cost.log)
      && |audit.buffer| == calls
    }

    constructor (search: Regex, limit: real, price: CostTracking.Pricing,
                 maxSession: int, maxMinute: int, hitl: ApprovalGateway?)
      ensures Valid() && this.hitl == hitl && calls == 0
      ensures fresh(audit) && fresh(rateLimiter) && fresh(cost)
      ensures auth.search == compliance.search == search
      ensures cost.perSessionLimit == limit && cost.price == price
      ensures rateLimiter.maxPerSession == maxSession && rateLimiter.maxPerMinute == maxMinute
    {
      audit := new AuditLogger();
      rateLimiter := new RateLimiting.RateLimiter(maxSession, maxMinute);
      auth := new AuthChecker(search);
      cost := new CostTracking.CostTracker(limit, price);
      compliance := new ComplianceChecker(search);
      this.hitl := hitl;
      calls := 0;
    }

    /** The chain never gives a reservation back, so in any run the ledger of a
        session counts each budget pass at the estimate on top of what it has
        spent: it never understates spending, and the passes it grants are at
        most the limit divided by the estimate. */
    lemma ChainBudget(session: string, estimate: real)
      requires Valid() && CostTracking.FixedEstimate(cost.log, session, estimate)
      ensures var passes := CostTracking.Passes(cost.log, session);
              && CostTracking.Balance(cost.log, session) == passes as real * estimate
                                                            + CostTracking.Spent(cost.log, session)
              && (estimate >= 0.0 ==> CostTracking.Balance(cost.log, session) >= CostTracking.Spent(cost.log, session))
              && (passes > 0 ==> passes as real * estimate <= cost.perSessionLimit)
    {
      hide RateLimiting.Faithful, CostTracking.Balance, CostTracking.Passes, CostTracking.Spent,
        CostTracking.FixedEstimate, CostTracking.CostsAgree, CostTracking.TokensAgree, CostTracking.DailyAgrees,
        CostTracking.WellGranted, CostTracking.NonNegativeAmounts, CostTracking.NothingReleased;
      CostTracking.PassBudget(cost.log, cost.perSessionLimit, session, estimate);
    }

    /** Turns a request for a human into an approval request, or into a block
        when no gateway is configured. */
    method CreateApprovalFromHook(ctx: Context, tool: string) returns (d: Decision, requestId: Option<string>)
      modifies hitl
      ensures hitl == null ==> d == Block && requestId == None
      ensures hitl != null ==>
                && d == AskHuman
                && requestId == Some(hitl.idOf(|old(hitl.requests)|))
                && hitl.requests == old(hitl.requests) + [ApprovalFor(ctx, tool)]
    {
      if hitl == null {
        return Block, None;
      }
      var id := hitl.RequestApproval(ApprovalFor(ctx, tool));
      return AskHuman, Some(id);
    }

    method PreToolUse(ctx: Context, tool: string, input: ToolInput, sweepAt: real, now: real)
      returns (d: Decision, requestId: Option<string>)
      requires Valid() && rateLimiter.clock <= sweepAt <= now
      requires auth.search == compliance.search
      modifies this, audit, rateLimiter, cost, hitl
      ensures Valid() && calls == old(calls) + 1
      // exactly one audit entry, about this call
      ensures |audit.buffer| == |old(audit.buffer)| + 1 && audit.buffer[..|old(audit.buffer)|] == old(audit.buffer)
      // the budget is asked first, and keeps the reservation whatever happens next
      ensures var estimate := cost.price(ctx.model, 10000, 10000);
              var fits := CostTracking.Balance(old(cost.log), ctx.sessionId) + estimate <= cost.perSessionLimit;
              && cost.log == old(cost.log) + [if fits then CostTracking.Reserved(ctx.sessionId, estimate)
                                              else CostTracking.Refused(ctx.sessionId, estimate)]
              && (!fits ==>
                    && d == Block && rateLimiter.history == old(rateLimiter.history)
                    && audit.buffer[|old(audit.buffer)|] == AuditEntry(ctx, "pre_tool_use", tool, "blocked"))
              // then the rate limiter, then authorization and compliance
              && (fits ==>
                    && |rateLimiter.history| == |old(rateLimiter.history)| + 1
                    && rateLimiter.history[..|old(rateLimiter.history)|] == old(rateLimiter.history)
                    && var call := rateLimiter.history[|old(rateLimiter.history)|];
                    && call.Call? && call == RateLimiting.Call(ctx.sessionId, ctx.agentId, now, call.verdict)
                    && audit.buffer[|old(audit.buffer)|] == AuditEntry(ctx, "pre_tool_use", tool,
                         if !call.verdict.Allowed? then "blocked"
                         else AuditLabel(Judgement(auth.search, ctx, tool, input)))
                    && d == (if !call.verdict.Allowed? then Block
                             else match Judgement(auth.search, ctx, tool, input)
                               case AskHuman => if hitl == null then Block else AskHuman
                               case other => other))
      // what passes budget and rate and needs a human is never allowed, under whatever namespaces it goes
      ensures |rateLimiter.history| > |old(rateLimiter.history)| ==>
                var call := rateLimiter.history[|old(rateLimiter.history)|];
                call.Call? && call.verdict.Allowed? && Listed(tool, ctx.allowedTools) ==>
                  && (Names(tool, "transfer_drive_ownership") ==> d == if hitl == null then Block else AskHuman)
                  && (Names(tool, "create_event") && ctx.tier > 2 ==> d == Block)
      // a human is asked exactly when an approval request was filed
      ensures d.AskHuman? <==> requestId.Some?
      ensures hitl != null ==>
                if d.AskHuman?
                then requestId == Some(hitl.idOf(|old(hitl.requests)|))
                     && hitl.requests == old(hitl.requests) + [ApprovalFor(ctx, tool)]
                else hitl.requests == old(hitl.requests)
    {
      hide RateLimiting.Faithful, CostTracking.Agrees, CostTracking.Balance, BaseTool, AnyMatch, CommaPieces, Names,
        Judgement, Listed;
      calls := calls + 1;
      var granted := cost.PreCheck(ctx.sessionId, ctx.model);
      if !granted {
        audit.Log(ctx, "pre_tool_use", tool, "blocked");
        return Block, None;
      }
      var verdict := rateLimiter.Check(ctx.sessionId, ctx.agentId, sweepAt, now);
      if verdict != RateLimiting.Allowed {
        audit.Log(ctx, "pre_tool_use", tool, "blocked");
        return Block, None;
      }
      d, requestId := AuthorizeAndComply(ctx, tool, input);
    }

    /** Authorization, then compliance for the tools that mail people. */
    method AuthorizeAndComply(ctx: Context, tool: string, input: ToolInput)
      returns (d: Decision, requestId: Option<string>)
      requires auth.search == compliance.search
      modifies audit, hitl
      ensures audit.buffer == old(audit.buffer)
                + [AuditEntry(ctx, "pre_tool_use", tool, AuditLabel(Judgement(auth.search, ctx, tool, input)))]
      ensures d == match Judgement(auth.search, ctx, tool, input)
                case AskHuman => if hitl == null then Block else AskHuman
                case other => other
      // a listed tool that needs a human is never allowed, under whatever namespaces it goes
      ensures Listed(tool, ctx.allowedTools) && Names(tool, "transfer_drive_ownership") ==>
                d == if hitl == null then Block else AskHuman
      ensures Listed(tool, ctx.allowedTools) && Names(tool, "create_event") && ctx.tier > 2 ==> d == Block
      ensures d.AskHuman? <==> requestId.Some?
      ensures hitl != null ==>
                if d.AskHuman?
                then requestId == Some(hitl.idOf(|old(hitl.requests)|))
                     && hitl.requests == old(hitl.requests) + [ApprovalFor(ctx, tool)]
                else hitl.requests == old(hitl.requests)
    {
      hide Names;
      if Listed(tool, ctx.allowedTools) {
        JudgementOfSensitive(auth.search, ctx, tool, input);
      }
      var result := auth.Check(ctx, tool, input);
      if result != Allow {
        audit.Log(ctx, "pre_tool_use", tool, AuditLabel(result));
        if result == AskHuman {
          d, requestId := CreateApprovalFromHook(ctx, tool);
          return;
        }
        return result, None;
      }
      if input != map[] && tool in MAILERS {
        var body := Lookup(input, "body", Lookup(input, "text", ""));
        var to := Lookup(input, "to", "");
        result := compliance.CheckEmail(to, body);
        if result != Allow {
          audit.Log(ctx, "pre_tool_use", tool, AuditLabel(result));
          if result == AskHuman {
            d, requestId := CreateApprovalFromHook(ctx, tool);
            return;
          }
          return result, None;
        }
      }
      audit.Log(ctx, "pre_tool_use", tool, "allowed");
      return Allow, None;
    }

    method PostToolUse(ctx: Context, tool: string, input: int, output: int, today: int)
      returns (d: Decision, sessionCost: real)
      requires Valid() && (cost.resetDay.Some? ==> cost.resetDay.value <= today)
      modifies this, audit, cost
      ensures Valid() && calls == old(calls) + 1
      ensures audit.buffer == old(audit.buffer)
                + [AuditEntry(ctx, "post_tool_use", tool, if d.Allow? then "completed" else "budget_exceeded")]
      ensures cost.log == old(cost.log) + [CostTracking.Settled(ctx.sessionId, None, 0.0,
                            cost.price(ctx.model, input, output), input, output, today)]
      ensures sessionCost == CostTracking.Balance(cost.log, ctx.sessionId)
      ensures d == if sessionCost <= cost.perSessionLimit then Allow else Block
    {
      hide RateLimiting.Faithful, CostTracking.Agrees, CostTracking.Balance;
      calls := calls + 1;
      var within, total, _, _ := cost.Track(ctx.sessionId, ctx.model, input, output, 0.0, today);
      sessionCost := total;
      if !within {
        audit.Log(ctx, "post_tool_use", tool, "budget_exceeded");
        return Block, sessionCost;
      }
      audit.Log(ctx, "post_tool_use", tool, "completed");
      return Allow, sessionCost;
    }
  }

  function AuditLabel(d: Decision): string {
    match d
    case Allow => "allowed"
    case Block => "block"
    case AskHuman => "ask_human"
  }
}
