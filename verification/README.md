# ForgeOS governance and interaction runtime, verified

A Dafny model of the stateful protocols of the runtime: the governance hook
chain, the agentic loop and delegation, the agent-to-human (A2H) gateway and
its store, tenant binding on pooled connections, authentication tokens and
failure blocking, the migration runner, chat event streams and the schedule
parser.  `dafny verify dfyconfig.toml` checks everything.

## How it is modelled

Objects that the code updates in place are classes with the same fields.  Each
keeps a ghost history of what has happened to it, and `Valid()` says what its
fields owe that history.  A method's contract appends to the history and
states the reply; the whole-run theorems are then lemmas about every history a
valid object can have.  Where several callers, runners or requests interleave,
the history is any interleaving of their atomic steps.

- `SlidingWindow`, `RateLimiter` (module `RateLimiting`), `CostTracker`
  (`CostTracking`), `ToolPatterns`, `HookChain` (`Hooks`): `src/core/hooks.py`.
- `RedisGlob`, `RedisRateLimiter` (`RedisRateLimiting`):
  `src/core/redis_rate_limiter.py`, and the patterns of Redis's KEYS command.
- `AgentLoop`, `AgentInvoker` (`AgentInvocation`): `src/core/claude_client.py`
  and `src/core/agent_invoker.py`.
- `A2hStore`, `A2hGateway`: `a2h/a2h`.
- `Tenancy`: `forgeos_web/db`, `forgeos_web/authn/authentication.py`,
  `src/core/database.py`.
- `AuthFailures`, `Base64Url`, `SessionToken`: `src/api/auth.py`.
- `Migrations`, `ChatEvents`, `Cron`: `src/core/migrations.py`,
  `src/dashboard/chat_events.py`, `forgeos_web/scheduling.py`.
- `Prelude`, `Decimal`: shared vocabulary and decimal numerals.

Clocks never go backwards.  Money and instants are `real`.  Price lists, regular
expressions, HMAC, JSON and number parsing are uninterpreted functions; prices
are not negative and JSON has an inverse.  Lookups made under one lock, in one
script or between two awaits are atomic steps; where an operation reads the clock
twice, the model has two instants in order, and a listing has one for each
request.  The language model, the tools, the clock and the hooks that the agentic
loop talks to are oracles: functions from "the n-th time it is asked" to what it
answers.

## What the code does not do

Points where the code does less than its documentation or its name suggests.
Each is a lemma; where the question has an exact answer the lemma is an
if-and-only-if.

- `reset_session` of the Redis limiter matches a key pattern without the
  "session:" part.  An id without wildcards and colons resets every session if it
  is "session", every agent if it is "agent", and nothing otherwise
  (`ResetDeletesExactly`); a session's own counter is reached only for ids that
  are the word "session", repeated (`ResetReachesOwnCounter`).  Wildcards in the id
  are not quoted: "*" resets everybody (`StarResetsAll`).
- The Redis limiter keeps its per-minute limit in the sixty seconds from an
  instant exactly when they begin with a minute, or nothing is admitted at all
  (`LimitHoldsExactly`); in all other spans twice the limit is attained
  (`DoubleBurst`).  The in-memory limiter keeps it everywhere (`MinuteBound`).
- "Ten failures, then blocked" is the bound exactly when attempts of an address do
  not overlap (`TenExactly`).  With `c` overlapping attempts it is `9 + c`, which
  is attained for every `c` (`FailureBound`, `BoundAttained`).
- `HookChain` never gives a reservation back: a session's ledger is passes
  times estimate plus spending, and passes are bounded by limit / estimate
  (`ChainBudget`).
- A stored session is finalized exactly when some turn of its run is reached and
  finds the time over, gets no answer from the model, or gets a final reply
  (`ClosedExactly` with `RunSync`).  A run that uses up its turns returns
  "completed", yet its session stays "running"; so does that of a run in which a
  tool's exception passes through, and its transcript ends in a reply whose
  calls are not answered (`Dangles`).  The first happens in every run with a model
  that always calls tools, and whenever no turn is allowed (`BusyExhausts`,
  `ExhaustedExactly`); `NotFinalizedExamples` gives an environment for each.
- `delegate_to_subagent` with no attempt allowed has nothing to return and raises
  (`DelegateToSubagent`: no outcome exactly when the limit is at most zero).
- Cancelling is the one store operation that ignores the deadline.  A lazy store
  can be told from an eager one exactly when somebody cancels an overdue request
  (`LazyRefinesEager`).
- `_parse_pid` splits at the first slash, so it inverts a participant's address
  exactly when the namespace has none (`ParseOfPid`).  Lookup survives that
  (`RegisteredIsReached`); rerouting does not: the request is addressed to
  somebody other than the participant it was routed to exactly when it was
  rerouted into another namespace (`AddressedToChosen`, `MisaddressedExample`).
- A delegation rule's name pattern is a prefix, starred or not
  (`PatternIsPrefix`).
- The middleware sets the tenant outside the view's transaction, where it has
  no lasting effect: a request nobody authenticates sees no rows, whatever tenant
  its header names (`AnonymousSeesNothing`).  `tenant_context` outside a
  transaction, and any code after a nested `tenant_context` in the same
  transaction, sees no rows either, although the former is what its
  documentation recommends it for (`LiveAfter`, `QuerySees`).
- `db.tenant()` sees its tenant's rows up to its own first commit, and then
  nothing (`TenantBlockSees`).
- If the statement that sets the tenant raises on the way into the middleware or
  `tenant_context`, or the one that clears it raises on the way out, the context
  variable keeps the wrong tenant (`FailedEntryLeaks`, `VariableRestored`).
  Nobody else's steps put it right.  Isolation survives this, because rows are
  only visible where setting and variable agree.
- `agent_result_to_chat_events` takes a missing result for a failed one and then
  reads its error: it raises, while its resume counterpart answers with an error
  event (`AgentResultToChatEvents`, `RunOutcomeToChatEvents`).
- Five words are not a crontab when they read as an interval
  (`CrontabParses`).

## Model

| member | source | states |
|---|---|---|
| SlidingWindow.TrimThenTrim | src/core/hooks.py:193-199 | trimming a window early and again later leaves what one trim of the untrimmed record would |
| SlidingWindow.WindowCovers | src/core/hooks.py:193-199 | while the window reaches back past an instant, it holds every entry made since then |
| SlidingWindow.RecentExactly | src/core/hooks.py:193-199 | trimming keeps each instant as often as it was entered if it is younger than the window, and drops it otherwise |
| SlidingWindow.SameAfterRecord | src/core/hooks.py:193-199 | a trimmed and an untrimmed record that no later reader can tell apart stay so when a call is recorded in both |
| RateLimiting.RenderInjective | src/core/hooks.py:174-175 | session and agent keys never coincide, whatever the ids |
| RateLimiting.SweepIsInvisible | src/core/hooks.py:230-241 | dropping idle agents changes neither any later window nor any session counter |
| RateLimiting.CheckIsFaithful | src/core/hooks.py:173-206 | a check that counts and records as the code does decides as the full history of calls, rejected ones included, would |
| RateLimiting.MinuteBound | src/core/hooks.py:192-206 | at most `max_per_minute` calls of an agent are allowed in any half-open minute of any run between two resets of that agent, sweeps included |
| RateLimiting.SessionBound | src/core/hooks.py:182-190 | a session is never allowed more than `max_per_session` calls between resets, however long the run |
| RateLimiting.CapStaysTripped | src/core/hooks.py:182-190 | once a session has hit its cap, each later call of it is rejected until a reset |
| RateLimiting.PoppedExactly | src/core/hooks.py:208-228 | a reset leaves every key but the prefixed one it builds and the one spelled like the bare id |
| RateLimiting.RateLimiter.CleanupStaleAgents | src/core/hooks.py:230-241 | keeps exactly the agents whose last call is at most an hour ago, with their counters, and the limiter faithful to its history |
| RateLimiting.RateLimiter.Check | src/core/hooks.py:173-206 | counts the call after the sweep it may run, rejects it on the counter or else on the window, and the window is the last sixty seconds of all recorded calls |
| RateLimiting.RateLimiter.ResetSession | src/core/hooks.py:208-218 | pops the session's counter, the window filed under the same id as an agent's, and any key spelled like the bare id |
| RateLimiting.RateLimiter.ResetAgent | src/core/hooks.py:220-228 | pops the agent's counter and window and any key spelled like the bare id, nothing else |
| CostTracking.LedgerBounded | src/core/hooks.py:370-463 | for any interleaving of reserve and settle steps the ledger passes the limit by no more than the overshoot of actual costs |
| CostTracking.WithinLimitWithoutOvershoot | src/core/hooks.py:370-463 | without overshoot the ledger stays within the limit |
| CostTracking.LedgerIsOutstandingPlusSpent | src/core/hooks.py:370-463 | the ledger equals the outstanding reservations plus the settled actual costs when callers give back what they reserved |
| CostTracking.LedgerCoversSpending | src/core/hooks.py:370-463 | such a ledger never understates what was spent |
| CostTracking.LedgerIsPassesPlusSpent | src/core/hooks.py:370-463 | when nothing is given back the ledger is passes times estimate plus spending |
| CostTracking.PassesBounded | src/core/hooks.py:370-463 | then passes times estimate plus tracked cost is within the limit at each pass, and passes are at most limit / estimate |
| CostTracking.DailyAfter | src/core/hooks.py:434-443 | the daily counter is the tokens of the current day of the whole history, across day changes |
| CostTracking.CostTracker.PreCheck | src/core/hooks.py:370-408 | grants and reserves exactly when the reserve fits under the limit, otherwise changes nothing |
| CostTracking.CostTracker.Track | src/core/hooks.py:410-463 | replaces a reservation by the actual cost; cost and token replies are sums over the history |
| ToolPatterns.ToolMatches | src/core/agent_invoker.py:386-394 | true exactly when some entry is the tool's name or a starred prefix of it |
| ToolPatterns.CoversExactly | src/core/agent_invoker.py:386-394 | a starred entry covers exactly the names that begin with the text before its star, any other entry only itself |
| ToolPatterns.PermissionScan | src/core/hooks.py:291-306 | the membership test and the scan of the hook decide the same relation |
| Hooks.AuthChecker.Check | src/core/hooks.py:285-342 | exactly when a tool is allowed, blocked, or needs a human; for a listed tool under whatever namespaces, transfer_drive_ownership needs a human and create_event is blocked above tier 2 |
| Hooks.PlainIsBase | src/core/hooks.py:320 | a name without a double underscore is its own base |
| Hooks.BaseBehindSeparator | src/core/hooks.py:320 | whatever namespaces stand in front, the base is what stands behind the last double underscore |
| Hooks.ComplianceChecker.CheckEmail | src/core/hooks.py:529-545 | exactly when a mail is blocked or needs a human |
| Hooks.PiecesAndCommas | src/core/hooks.py:529-545 | recipients are one more than the commas between them |
| Hooks.JudgementExactly | src/core/hooks.py:704-744 | exactly when a call that fits budget and rate is allowed and exactly when a human is asked, from the allowed list, the patterns, the tool and the fields of its input |
| Hooks.HookChain.CreateApprovalFromHook | src/core/hooks.py:639-682 | a human is asked through a filed request, or the call is blocked without a gateway |
| Hooks.HookChain.AuthorizeAndComply | src/core/hooks.py:704-744 | auth before compliance, one audit entry with the decision, a request filed exactly when a human is asked; a listed transfer_drive_ownership is never allowed, under whatever namespaces |
| Hooks.HookChain.PreToolUse | src/core/hooks.py:684-744 | budget, rate, auth, compliance in this order, each step asked only after the ones before it passed; one audit entry; ASK_HUMAN exactly with a request id; past budget and rate a listed transfer_drive_ownership is never allowed, under whatever namespaces |
| Hooks.HookChain.PostToolUse | src/core/hooks.py:746-773 | settles the actual cost without giving a reservation back, one audit entry, blocks exactly over the limit |
| Hooks.HookChain.ChainBudget | src/core/hooks.py:684-773 | in any run of the chain a session's ledger counts every pass and all spending, and passes are bounded by limit / estimate |
| RedisRateLimiting.RenderInjective | src/core/redis_rate_limiter.py:89-91 | sessions, agents and minutes never share a key |
| RedisRateLimiting.ResetReadsPattern | src/core/redis_rate_limiter.py:115-124 | which keys a reset deletes for any id: those the id, read as a glob pattern, matches behind the prefix |
| RedisRateLimiting.ResetDeletesExactly | src/core/redis_rate_limiter.py:115-124 | exactly which keys a reset deletes for an id without wildcards and colons |
| RedisRateLimiting.StarResetsAll | src/core/redis_rate_limiter.py:115-124 | resetting "*" deletes every counter of every session and agent |
| RedisRateLimiting.ResetReachesOwnCounter | src/core/redis_rate_limiter.py:115-124 | exactly for which ids without wildcards `reset_session` deletes that session's own counter |
| RedisRateLimiting.BucketBound | src/core/redis_rate_limiter.py:64-113 | at most `max_minute` calls of an agent are admitted in a minute bucket |
| RedisRateLimiting.MinuteSpanBound | src/core/redis_rate_limiter.py:64-113 | at most twice that in any sixty seconds |
| RedisRateLimiting.DoubleBurst | src/core/redis_rate_limiter.py:64-113 | twice the limit is attained for every limit in every span that does not begin with a minute |
| RedisRateLimiting.LimitHoldsExactly | src/core/redis_rate_limiter.py:64-113 | the per-minute limit itself holds of a sixty-second span in every run exactly when the span begins with a minute or nothing is admitted at all |
| RedisRateLimiting.SessionSpanBound | src/core/redis_rate_limiter.py:64-113 | at most `2 * max_session - 1` calls of a session are admitted in any 7200 seconds |
| RedisRateLimiting.DoubleLife | src/core/redis_rate_limiter.py:64-113 | that bound is attained for every limit |
| RedisRateLimiting.CheckAgrees | src/core/redis_rate_limiter.py:64-79 | counters that expire agree with the counts of the whole history: a bucket's key cannot lapse inside its bucket |
| RedisRateLimiting.RedisRateLimiter.Check | src/core/redis_rate_limiter.py:64-113 | the script's increments and expiries decide as the history does; without a connection all is admitted and nothing changes |
| AuthFailures.FailureBound | src/api/auth.py:86-118 | an address records at most 9 + c failures in any half-open minute with c overlapping attempts, ten with one |
| AuthFailures.BlockHolds | src/api/auth.py:94-118 | after the failure that fills the window only attempts then under way can add failures for 300 seconds |
| AuthFailures.BlockSilences | src/api/auth.py:94-118 | with one attempt at a time, none is recorded for 300 seconds |
| AuthFailures.AddressesIndependent | src/api/auth.py:91-118 | what an address is allowed depends on its own events alone |
| AuthFailures.BoundAttained | src/api/auth.py:86-118 | with c overlapping attempts 9 + c failures in one minute are possible, for every c |
| AuthFailures.TenExactly | src/api/auth.py:86-118 | ten failures a minute is the bound of every run exactly when attempts of an address do not overlap |
| AuthFailures.FailedAgrees | src/api/auth.py:107-118 | trimming before counting the tenth failure sees what the untrimmed record sees |
| AuthFailures.FailureLimiter.CheckAuthRateLimit | src/api/auth.py:94-104 | allows exactly when no block of the address runs; dropping an expired block is invisible |
| AuthFailures.FailureLimiter.RecordAuthFailure | src/api/auth.py:107-118 | records the failure and blocks for 300 seconds exactly when nine others of the last sixty seconds stand in the window, leaving every other address alone |
| AuthFailures.FailureLimiter.Authenticate | src/api/auth.py:357-388 | a blocked address tries nothing; a bearer token decides if there is one, otherwise an API key; exactly the presented and rejected credentials are recorded as failures |
| Base64Url.StripThenPad | src/api/auth.py:242-280 | recomputing the padding from the stripped text's length restores the encoding (sections 3.2 and 5 of RFC 4648) |
| Base64Url.AlphabetExactly | src/api/auth.py:242-280 | the letters are those of table 2 of RFC 4648, and reading accepts the last two of table 1 as well |
| Base64Url.EncodedAt | src/api/auth.py:249-251 | every place of the encoding: the letter of its six bits, or padding up to a multiple of four (section 4 of RFC 4648) |
| Base64Url.GroupsExactly | src/api/auth.py:249-251 | each four letters spell the number their three bytes do, missing bytes counting as zero |
| Base64Url.DecodeEncode | src/api/auth.py:242-280 | decoding inverts encoding for every length (section 5 of RFC 4648) |
| Base64Url.NoiseIgnored | src/api/auth.py:271 | a character outside both alphabets changes nothing wherever it stands |
| Base64Url.PaddedDecodes | src/api/auth.py:242-280 | stripping, padding and decoding gives back every payload |
| SessionToken.MintedParts | src/api/auth.py:242-256 | a minted token is the version, the claims with the whole second the lifetime ends in, and the keyed hash of both, for every user and lifetime |
| SessionToken.TruncateExactly | src/api/auth.py:272 | which instants a truncated clock reads as not later than a whole second |
| SessionToken.VerifyInvertsMint | src/api/auth.py:242-280 | on real instants: verification returns the minted user exactly while the whole second of the clock has not passed that of the minting plus the lifetime, so at any instant within the lifetime and at none a second after it |
| SessionToken.VerifyExactly | src/api/auth.py:258-280 | the accepted strings are exactly the signed three-part texts whose payload is ASCII, decodes, names that user (absent fields empty, an absent role "viewer"), and whose second has not passed |
| AgentLoop.BackoffTotal | src/core/claude_client.py:173-202 | k backoffs sleep 2^k - 1 seconds up to five, and 30 more for each after |
| AgentLoop.ClosedExactly | src/core/claude_client.py:244-291 | a run ends in one of the exits that finalize the session exactly when some turn is reached and is late, gets no answer, or gets a final reply |
| AgentLoop.ExhaustedExactly | src/core/claude_client.py:244-368 | a run uses up its turns exactly when every one of them goes on |
| AgentLoop.BusyExhausts | src/core/claude_client.py:361-368 | with a model that always calls tools that return in time, every run uses up its turns, so no session is finalized |
| AgentLoop.NotFinalizedExamples | src/core/claude_client.py:296-368 | an environment whose run exhausts its turns, and one whose first turn crashes |
| AgentLoop.CrashStays | src/core/claude_client.py:296-340 | the first call let through that raises decides, whatever calls follow |
| AgentLoop.AnswersAnswer | src/core/claude_client.py:297-342 | the answers to a reply's calls carry their ids in their order, one each |
| AgentLoop.TranscriptExactly | src/core/claude_client.py:293-342 | message by message: a prompt, then replies and answers in turn, each with one result per call under its id |
| AgentLoop.LetThroughComposes | src/core/claude_client.py:297-342 | the executor log of two batches is that of their concatenation under the same rulings |
| AgentLoop.AnswersCompose | src/core/claude_client.py:297-342 | likewise for the answers |
| AgentLoop.CallsAreRuled | src/core/claude_client.py:297-342 | the k-th call is answered "blocked" exactly when it was denied and "awaiting" exactly when it was deferred, with the reason given; every other stands in the executor log behind those permitted before it and is answered with what that execution returned; nothing else is executed |
| AgentLoop.RunIsRuled | src/core/claude_client.py:297-342 | the same of all calls of a whole transcript |
| AgentLoop.CrashIsRuled | src/core/claude_client.py:296-340 | the same up to the call a crash happened in, which was permitted |
| AgentLoop.TotalsCompose | src/core/claude_client.py:272-278 | totals are sums over the replies and the returned text is the last that is not empty |
| AgentLoop.ClaudeClient.ExecuteTool | src/core/claude_client.py:325-334 | one execution, reported to the post-hook when it returns |
| AgentLoop.TurnKeepsInRun | src/core/claude_client.py:293-342 | a turn keeps the transcript alternating, each call answered once in order, and the executor and post-hook logs equal to the calls neither denied nor deferred |
| AgentLoop.ClaudeClient.CallLlmWithRetry | src/core/claude_client.py:158-202 | attempts, outcome and backoffs are what the model's answers call for: a reply or a fatal error ends the call at once, only transient errors are tried again |
| AgentLoop.ClaudeClient.ProcessToolCalls | src/core/claude_client.py:296-340 | each call of a reply gets what its own ruling and its own execution say: no denied or deferred call is executed, every other is, in order; a crash exactly at the first call let through that raises |
| AgentLoop.ClaudeClient.ToolTurn | src/core/claude_client.py:293-342 | the reply and its answers join the transcript together, or the reply alone exactly when a call raises |
| AgentLoop.ClaudeClient.AfterReply | src/core/claude_client.py:275-359 | a reply that came ends the run exactly when it is final; otherwise its calls are made and the turn is checkpointed or crashes |
| AgentLoop.ClaudeClient.Checkpoint | src/core/claude_client.py:344-359 | the row stored at the end of a turn is a front part of the transcript with the sums so far |
| AgentLoop.ClaudeClient.OneTurn | src/core/claude_client.py:244-359 | one iteration of the loop goes on or stops as the environment calls for, and what holds between turns holds after it |
| AgentLoop.ClaudeClient.TakeTurns | src/core/claude_client.py:244-359 | the loop ends as the specification of the whole run says, at the first turn that stops it |
| AgentLoop.ClaudeClient.Finish | src/core/claude_client.py:246-291 | returned totals on every exit; the session is finalized exactly on three of them |
| AgentLoop.ClaudeClient.RunSync | src/core/claude_client.py:213-384 | the exit as a function of environment, turn limit and timeout; no reply before the last was final and no execution before the last raised; what was denied or deferred is answered so and never executed, everything else is executed in order, answered with its own result and reported; turn and attempt bounds, transcript shape, returned status and totals, checkpoints that are fronts of the transcript, and the last stored row finalized exactly on the closed exits |
| AgentInvocation.TiersNeverDecrease | src/core/agent_invoker.py:439-461 | tiers never decrease along a delegation chain, and a doer is never followed by an orchestrator |
| AgentInvocation.OwnAuthority | src/core/agent_invoker.py:182-192 | every context behind the first has the tier, type, tools and model of its own configuration, whatever its parent's |
| AgentInvocation.SessionsEndAsReturned | src/core/agent_invoker.py:194-301 | every registered session ends with the status its invocation returned |
| AgentInvocation.ExitReported | src/core/agent_invoker.py:244-301 | which exits are timed out, completed and failed, and which event each is audited as |
| AgentInvocation.AgentInvoker.ExecuteAgent | src/core/agent_invoker.py:303-364 | how each exit of the loop becomes a status and an audit event, with the exit determined by the environment; attempts bounded by turns times retries |
| AgentInvocation.AgentInvoker.Invoke | src/core/agent_invoker.py:194-301 | an unknown agent or an exhausted plan opens no session; otherwise two audit entries and a session that ends as returned |
| AgentInvocation.AgentInvoker.TryRepeatedly | src/core/agent_invoker.py:465-489 | attempts stop at the first success or at the limit, each under the next fresh session id, and the metadata counts them |
| AgentInvocation.AgentInvoker.DelegateToSubagent | src/core/agent_invoker.py:428-496 | refusals invoke nothing; at most max_attempts x max_turns x max_retries model attempts; the circuit breaks exactly after the last failure; no outcome exactly without attempts |
| A2hStore.RunKeepsWellFormed | a2h/a2h/store.py:35-94 | in every run a response exists exactly for answered and auto-delegated requests and a waiter is signalled exactly for answered and cancelled ones |
| A2hStore.TerminalAbsorbs | a2h/a2h/store.py:35-83 | answered, expired, cancelled and auto-delegated requests never change again |
| A2hStore.NoMoreAfterTerminal | a2h/a2h/store.py:60-73 | no response to such a request is accepted |
| A2hStore.AnsweredOnce | a2h/a2h/store.py:60-73 | at most one response per request is ever accepted |
| A2hStore.AnswerStays | a2h/a2h/store.py:60-73 | an accepted answer is the answer for good |
| A2hStore.WaitReturnsFinal | a2h/a2h/store.py:85-94 | a wait that does not time out returns an answered or cancelled request |
| A2hStore.StepRefinesEager | a2h/a2h/store.py:39-83 | one lazy step replies and leaves the store as an eager one would, unless it cancels an overdue request; then the replies differ |
| A2hStore.LazyRefinesEager | a2h/a2h/store.py:39-83 | over whole runs lazy and eager expiry give the same replies exactly when nobody cancels an overdue request |
| A2hStore.ListLeavesNoneOverdue | a2h/a2h/store.py:45-58 | after a listing no request that was overdue when it began is left pending |
| A2hStore.ListIsExact | a2h/a2h/store.py:45-58 | a listing holds exactly the requests that were listable when looked at, each once |
| A2hStore.ListedExactly | a2h/a2h/store.py:45-58 | a request is listed exactly when it is pending, its deadline had not passed when it was looked at, and "namespace/name" is the address asked for, if any |
| A2hStore.ListingRuns | a2h/a2h/store.py:45-58 | a listing is a run of lookups in insertion order, each at its own instant: it leaves each request as a lookup would and replies with the live ones |
| A2hStore.InMemoryStore.Save | a2h/a2h/store.py:35-37 | files the interaction with a fresh event |
| A2hStore.InMemoryStore.Get | a2h/a2h/store.py:39-43 | expires the request if overdue and nothing else |
| A2hStore.InMemoryStore.ListPending | a2h/a2h/store.py:45-58 | of the interactions themselves: exactly the pending, live ones of the address asked for are returned, each once and in insertion order, and exactly the overdue ones are expired; each is looked at at its own instant |
| A2hStore.InMemoryStore.Respond | a2h/a2h/store.py:60-73 | answers exactly a pending request whose deadline has not passed, signals its waiter, expires an overdue one and changes no other |
| A2hStore.InMemoryStore.Cancel | a2h/a2h/store.py:75-83 | cancels exactly a pending request and signals its waiter |
| A2hStore.InMemoryStore.WaitEnds | a2h/a2h/store.py:85-94 | the end of a wait is a lookup |
| A2hGateway.ParseOfPid | a2h/a2h/gateway.py:291-296 | parsing inverts an address exactly when its namespace has no slash |
| A2hGateway.ParseThenPid | a2h/a2h/gateway.py:291-296 | the parsed parts always spell the same address again |
| A2hGateway.RegisteredIsReached | a2h/a2h/gateway.py:62-76 | a registered participant is found under its own address, however it is split |
| A2hGateway.PatternIsPrefix | a2h/a2h/models.py:349-352 | a rule that fits a sender fits every longer name |
| A2hGateway.CheckAllExactly | a2h/a2h/models.py:355-364 | the conditions pass exactly when all are met, and raise exactly when one raises after those before it are met |
| A2hGateway.RaisesExactly | a2h/a2h/models.py:355-364 | a condition raises exactly on the first bound it comes to that cannot be compared |
| A2hGateway.ValuesExactly | a2h/a2h/models.py:355-364 | how flags, numbers and texts compare: a flag equals its number, a text only itself |
| A2hGateway.StripsStars | a2h/a2h/models.py:349-352 | all the stars a pattern ends in go, and nothing else |
| A2hGateway.MatchesExactly | a2h/a2h/models.py:346-365 | a rule matches exactly when namespace, name prefix and type fit, where given, and every condition is met |
| A2hGateway.RuleMatches | a2h/a2h/models.py:346-365 | the filters and the condition loop decide that, in order |
| A2hGateway.FirstRule | a2h/a2h/gateway.py:168-174 | the rule picked is the first that matches, all before it not matching |
| A2hGateway.PickUnique | a2h/a2h/gateway.py:168-174 | that determines the outcome |
| A2hGateway.RouteExactly | a2h/a2h/models.py:87-104 | routing reaches the target, or, when its state neither accepts nor queues, the stand-in it names ("delegate" for its own) if that one is registered and accepts; nobody else |
| A2hGateway.LandsOnRefuser | a2h/a2h/gateway.py:143-151 | exactly when a request lands on somebody who neither takes nor queues it: the target's state says so, and the stand-in it names is missing or does not take requests |
| A2hGateway.AddressedToChosen | a2h/a2h/gateway.py:130-151 | exactly when the recorded address is that of the participant whose rules were applied |
| A2hGateway.MisaddressedExample | a2h/a2h/gateway.py:143-151 | a directory in which it is not |
| A2hGateway.AskedUnique | a2h/a2h/gateway.py:96-182 | the specification of `ask` has one outcome |
| A2hGateway.AskedExactly | a2h/a2h/gateway.py:96-182 | when a request is made, refused or finds nobody, and for a made one: its addressee, the first fitting rule of that participant with what its response keeps, and its deadline |
| A2hGateway.MadeIsAdmissible | a2h/a2h/gateway.py:153-176 | every request `ask` files is one the store's lifecycle theorems cover |
| A2hGateway.RecordedExactly | a2h/a2h/gateway.py:217-244 | a submission is recorded exactly when the request is pending and not overdue at the instant it is recorded |
| A2hGateway.Gateway.Register | a2h/a2h/gateway.py:62-67 | participants are filed under their own addresses |
| A2hGateway.Gateway.ChooseTarget | a2h/a2h/gateway.py:143-151 | one-hop rerouting: the stand-in named by the state's rule, "delegate" standing for the target's own, exactly when the target neither takes nor queues and the stand-in is registered and takes requests |
| A2hGateway.Gateway.Deliver | a2h/a2h/gateway.py:153-182 | the picked rule's response or a pending request is filed; only the latter is handed to the channels |
| A2hGateway.Gateway.Ask | a2h/a2h/gateway.py:96-182 | the request filed is addressed to the participant its target's state names, answered by that participant's first fitting rule or left pending, and due as given or by the service level; unknown targets and errors leave store and channels untouched |
| A2hGateway.Gateway.Respond | a2h/a2h/gateway.py:217-244 | recorded exactly when the request is pending and its deadline has not passed at the second instant, keeping the known fields of the data; which outcome is reported otherwise |
| A2hGateway.Gateway.Cancel | a2h/a2h/gateway.py:248-253 | the store's cancellation, with the lifecycle invariant kept |
| Tenancy.RunKeepsBound | forgeos_web/db/rls.py:35-80 | over every interleaving of requests, Celery tasks, nested blocks and raw pool blocks: idle connections carry no tenant, one in a transaction none or its context's, a lent one none or its block's |
| Tenancy.QuerySees | forgeos_web/db/base.py:26-31 | a query, scoped or not, sees exactly its context's tenant's rows, or nothing |
| Tenancy.Isolation | forgeos_web/db/base.py:26-31 | no query in any reachable state returns another tenant's row |
| Tenancy.LiveAfter | forgeos_web/db/rls.py:55-69 | exactly which steps leave the context's tenant visible on its connection |
| Tenancy.OthersLeaveLive | forgeos_web/db/rls.py:21-46 | no step of another context changes that |
| Tenancy.AnonymousSeesNothing | forgeos_web/db/middleware.py:34-42 | a request nobody authenticates sees no rows, whatever tenant it names |
| Tenancy.TenantBlockSees | src/core/database.py:117-133 | a raw tenant block sees its tenant's rows up to its first commit and nothing after |
| Tenancy.OpenIsolation | src/core/database.py:117-148 | no raw block in any reachable state sees a row of another tenant, and one of admin sees none |
| Tenancy.LentKept | src/core/database.py:117-148 | nobody else's steps touch a lent connection |
| Tenancy.VariableRestored | forgeos_web/db/middleware.py:34-42 | a request, task or block gives the variable back exactly when clearing the setting does not raise, although authentication drops its token inside |
| Tenancy.FailedEntryLeaks | forgeos_web/db/rls.py:63-64 | a failed entry leaves the new tenant in the variable whatever others do, restored only if it was the old one, and no rows are seen through it |
| Tenancy.ResolveTenant | forgeos_web/db/middleware.py:19-27 | principal before user before header before "default", never empty |
| Tenancy.SettingTouchesOne | forgeos_web/db/rls.py:35-52 | setting a context's tenant changes no other connection, no context, and nothing any other context sees |
| Tenancy.BindThenReset | forgeos_web/db/rls.py:72-80 | binding the variable and resetting it with the token is the identity |
| Tenancy.Runtime.EnterRequest | forgeos_web/db/middleware.py:34-37 | binding, then setting; keeps the invariant even when setting raises |
| Tenancy.Runtime.EnterBlock | forgeos_web/db/rls.py:55-66 | likewise for `tenant_context` |
| Tenancy.Runtime.LeaveFinally | forgeos_web/db/rls.py:67-69 | clearing, then restoring; the variable stays when clearing raises |
| Tenancy.Runtime.Authenticate | forgeos_web/authn/authentication.py:53-56 | rebinds variable and setting and drops the token |
| Tenancy.Runtime.Prerun | forgeos_web/db/celery_tenancy.py:36-40 | binds the variable for a Celery task |
| Tenancy.Runtime.RunTask | forgeos_web/db/celery_tenancy.py:54-58 | opens a transaction and sets in it the tenant the Celery task was called with; setting and variable then agree |
| Tenancy.TaskAgrees | forgeos_web/db/celery_tenancy.py:36-58 | from the signal to the body the variable is the tenant the Celery task was called with |
| Tenancy.Runtime.Postrun | forgeos_web/db/celery_tenancy.py:42-46 | restores the variable |
| Tenancy.Runtime.Commit | forgeos_web/db/rls.py:27-46 | the end of a transaction ends its setting and frees the connection |
| Tenancy.Runtime.Open | src/core/database.py:117-148 | lends a connection with the tenant set, or none for admin |
| Tenancy.Runtime.CommitOpen | src/core/database.py:185-186 | a commit inside the block clears the setting |
| Migrations.ExactlyOnce | src/core/migrations.py:28-34 | with any number of runners, crashes and failures each file's effect is committed at most once, exactly when its version is recorded |
| Migrations.InOrder | src/core/migrations.py:57-113 | effects are committed in file order with none left out in between |
| Migrations.ResumedIsUninterrupted | src/core/migrations.py:77-113 | once any run has ended well the database is as one uninterrupted run leaves it |
| Migrations.RunAfterRun | src/core/migrations.py:95-107 | a run begun after that applies nothing, and neither does anybody else meanwhile |
| Migrations.RunAfterSuccess | src/core/migrations.py:99-113 | applied and skipped add up to the total |
| Migrations.CommitKeepsProgress | src/core/migrations.py:57-67 | committing a file extends the applied front part of the pending files by that file |
| Migrations.Connection.ApplyMigration | src/core/migrations.py:57-74 | effect and version are committed together or not at all |
| Migrations.Connection.RunMigrations | src/core/migrations.py:77-113 | counts, log and versions after success; after a failure exactly the pending files before the failing one are applied |
| ChatEvents.AcceptedPairsUp | src/dashboard/chat_events.py:8-17 | in an accepted stream each call is followed at once by its own result and no result stands alone |
| ChatEvents.ConversationAccepted | src/dashboard/chat_events.py:45-120 | a first stream and any number of resumed ones are accepted one after the other, with one done event each |
| ChatEvents.AgentStreamAccepted | src/dashboard/chat_events.py:45-79 | a first stream is accepted and ends in its only done event |
| ChatEvents.OutcomeStreamAccepted | src/dashboard/chat_events.py:82-120 | so is a resumed one, a missing outcome included |
| ChatEvents.AgentStreamShows | src/dashboard/chat_events.py:58-67 | exactly the executed calls appear as calls and exactly the gated ones of a paused run as cards |
| ChatEvents.OutcomeStreamShows | src/dashboard/chat_events.py:94-108 | likewise on resuming; a run awaiting its remaining approvals emits no cards |
| ChatEvents.AgentStreamExactly | src/dashboard/chat_events.py:25-79 | a first stream event by event: names, inputs and results of each call, then the cards of a paused run field by field, the error of a failed one, or the output, then the done event |
| ChatEvents.OutcomeStreamExactly | src/dashboard/chat_events.py:82-120 | a resumed stream likewise, and the two events of a missing run |
| ChatEvents.AgentResultToChatEvents | src/dashboard/chat_events.py:45-79 | the events in order; without a result it raises |
| ChatEvents.RunOutcomeToChatEvents | src/dashboard/chat_events.py:82-120 | the events in order, an error stream for a missing outcome |
| Cron.EveryParses | forgeos_web/scheduling.py:38-52 | every positive count prints with every unit to a text that parses to just that interval |
| Cron.CrontabParses | forgeos_web/scheduling.py:54-60 | five lower-case words joined by blanks parse to those fields exactly unless they read as an interval |
| Cron.ParsesExactly | forgeos_web/scheduling.py:38-63 | the three readings of lower-case words in order: an interval in the unit of its second word, five fields, or once an hour |
| Cron.BlankIsHourly | forgeos_web/scheduling.py:36-63 | a text of nothing but white space runs once an hour |
| Cron.CountExactly | forgeos_web/scheduling.py:42-46 | a count is read in base ten, with a sign, and zeros in front do not matter |
| Cron.UnderscoreIgnored | forgeos_web/scheduling.py:44 | an underscore between digit groups changes nothing |
| Cron.NoCount | forgeos_web/scheduling.py:44-46 | any other character behind the first makes a word no count |
| Cron.UnitsStripped | forgeos_web/scheduling.py:42 | all the unit letters a word ends in go |
| Cron.AlwaysUsable | forgeos_web/scheduling.py:36-63 | every interval has a positive count and every crontab five words |
| Cron.PaddingIgnored | forgeos_web/scheduling.py:36 | white space around any text makes no difference |
| Cron.CaseIgnored | forgeos_web/scheduling.py:36 | nor does the case of any text |
| Cron.SplitJoin | forgeos_web/scheduling.py:54 | splitting inverts joining |

## Left out

- RateLimiting.RateLimiter.Check: the class takes no lock; each check is one step, so lost updates between threads are not modelled.
- RedisRateLimiting.ResetDeletesExactly: key prefixes with wildcards of their own; the default prefix has none.
- RateLimiting.SessionBound: for calls without a session the counter is per agent and the sweep may drop it, so only named sessions are bounded.
- RedisRateLimiting.RedisRateLimiter.Check: a script error, which the code lets through, and resets during a run are not modelled; the reset pattern is treated apart.
- Hooks.HookChain.PreToolUse: the texts of reasons, Slack messages, and exceptions inside a hook.
- Hooks.AuthChecker.Check: entries of the sensitive-tool table that only ask for an audit, and what regular expressions match.
- AgentLoop.ClaudeClient.RunSync: the loop reads an `action` of the hook's result while the hook chain returns a `decision`; the loop's hook is an oracle of its own. JSON texts of results, the fields of a checkpoint that name the last calls, and times of day are left out.
- AgentInvocation.AgentInvoker.DelegateToSubagent: the wording of the retry prompt beyond its head, and how prompts and tool lists are rendered.
- A2hGateway.Gateway.Ask: options, question and escalation are carried along unread, and the caller's context dictionary is copied instead of shared; fresh ids are assumed. `float()` of a context value is uninterpreted, without NaN.
- A2hStore.InMemoryStore.WaitEnds: a wait is its end; how long it took is the caller's choice of instant.
- Tenancy.RunKeepsBound: savepoints, aborted transactions and Celery tasks run eagerly inside a request's transaction; backends other than Postgres, where nothing is set.
- Tenancy.Isolation: rows with an empty tenant column, which the documentation rules out.
- Migrations.ExactlyOnce: files with transaction control of their own, and runners with different sets of files. The uniqueness of a version is the table's primary key.
- ChatEvents.AgentResultToChatEvents: the title and risk of a card, which are constant text around the tool's name.
- Cron.AlwaysUsable: letters, digits and blanks beyond ASCII.
- SessionToken.VerifyInvertsMint: HMAC is a function of the text, so nothing is said about forging; `json` has an inverse on claims.
- Firebase tokens, passwords and API key storage: uninterpreted credentials.
- Audit database writer and flush, Slack notifier, notification delivery and participant cards: input and output.
- `delegate_parallel`, escalation chains and `priority_max`: gathering, never promoted, never read.
