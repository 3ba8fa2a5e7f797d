/** The agentic loop (src/core/claude_client.py): turns of one model reply and
    the tool calls in it, with retries, governance and checkpoints. */
module AgentLoop {
  import opened Prelude

  datatype ToolCall = ToolCall(id: string, name: string, input: string)

  datatype Response = Response(text: string, calls: seq<ToolCall>, endTurn: bool, inputTokens: int, outputTokens: int)

  datatype LlmOutcome = Reply(response: Response) | Transient(error: string) | Fatal(error: string)

  /** What the pre-hook says of one call; any other action lets it through. */
  datatype Ruling = Proceed | Deny(reason: string) | Defer(reason: string, approvalId: Option<string>)

  datatype ToolOutcome = Output(json: string) | Raised(timeout: bool, error: string)

  datatype Answer = Blocked(reason: string) | Awaiting(reason: string, approvalId: Option<string>) | Result(json: string)

  datatype ToolResult = ToolResult(callId: string, answer: Answer, isError: bool)

  datatype Message = Prompt(text: string) | Assistant(response: Response) | Results(results: seq<ToolResult>)

  /** The environment: what the n-th clock reading, model attempt, hook ruling
      and tool execution return, and what tokens cost. */
  datatype World = World(clock: nat -> real, llm: nat -> LlmOutcome, rule: nat -> Ruling, run: nat -> ToolOutcome,
                         price: (int, int) -> real)

  datatype Status = Completed | Failed | TimedOut

  /** How a run ended; a crash is an exception of the executor passing through. */
  datatype Exit = Timeout | LlmFailed | Done | TurnsExhausted | Crash(timeout: bool)

  datatype RunResult = RunResult(status: Status, text: string, toolCalls: nat, input: int, output: int, cost: real)

  datatype SessionStatus = Running | Ended(status: Status)

  datatype Session = Session(status: SessionStatus, messages: seq<Message>, turns: nat, toolCalls: nat,
                             input: int, output: int, cost: real)

  const NO_EXECUTOR := "{\"success\": false, \"error\": \"No tool executor configured\"}"
  const EXHAUSTED := "[Agent reached max turns without final response]"

  // ---- The transcript ---------------------------------------------------------

  /** Each call of the reply is answered once, by its own id, in order. */
  predicate Answers(calls: seq<ToolCall>, results: seq<ToolResult>) {
    |results| == |calls| && forall j :: 0 <= j < |calls| ==> results[j].callId == calls[j].id
  }

  /** A prompt, then alternately a reply and the answers to its calls. */
  ghost predicate WellFormed(ms: seq<Message>, turns: nat) {
    if turns == 0 then |ms| == 1 && ms[0].Prompt?
    else
      && |ms| == 1 + 2 * turns
      && WellFormed(ms[..|ms| - 2], turns - 1)
      && ms[|ms| - 2].Assistant? && ms[|ms| - 1].Results?
      && Answers(ms[|ms| - 2].response.calls, ms[|ms| - 1].results)
  }

  function CallsIn(ms: seq<Message>): seq<ToolCall> {
    if |ms| == 0 then []
    else CallsIn(ms[..|ms| - 1]) + (if ms[|ms| - 1].Assistant? then ms[|ms| - 1].response.calls else [])
  }

  function ResultsIn(ms: seq<Message>): seq<ToolResult> {
    if |ms| == 0 then []
    else ResultsIn(ms[..|ms| - 1]) + (if ms[|ms| - 1].Results? then ms[|ms| - 1].results else [])
  }

  function RepliesIn(ms: seq<Message>): seq<Response> {
    if |ms| == 0 then []
    else RepliesIn(ms[..|ms| - 1]) + (if ms[|ms| - 1].Assistant? then [ms[|ms| - 1].response] else [])
  }

  /** A well-formed transcript, message by message. */
  lemma {:induction false} TranscriptExactly(ms: seq<Message>, turns: nat, t: nat)
    requires WellFormed(ms, turns) && t < turns
    ensures |ms| == 1 + 2 * turns && ms[0].Prompt? && ms[1 + 2 * t].Assistant? && ms[2 + 2 * t].Results?
    ensures var calls, results := ms[1 + 2 * t].response.calls, ms[2 + 2 * t].results;
            |results| == |calls| && forall j :: 0 <= j < |calls| ==> results[j].callId == calls[j].id
  {
    if turns == 1 {
      assert WellFormed(ms[..|ms| - 2], 0);
    } else {
      TranscriptExactly(ms[..|ms| - 2], turns - 1, if t < turns - 1 then t else 0);
    }
  }

  /** What one more message adds to the calls, answers and replies of a transcript. */
  lemma OneMessage(ms: seq<Message>, m: Message)
    ensures CallsIn(ms + [m]) == CallsIn(ms) + (if m.Assistant? then m.response.calls else [])
    ensures ResultsIn(ms + [m]) == ResultsIn(ms) + (if m.Results? then m.results else [])
    ensures RepliesIn(ms + [m]) == RepliesIn(ms) + (if m.Assistant? then [m.response] else [])
    ensures CallsIn([]) == [] && ResultsIn([]) == [] && RepliesIn([]) == []
  {
    assert (ms + [m])[..|ms|] == ms;
  }

  // ---- Governance ---------------------------------------------------------------

  /** The ruling on the k-th call since the hooks had ruled `base` times. */
  function RulingAt(w: World, governed: bool, base: nat, k: nat): Ruling {
    if governed then w.rule(base + k) else Proceed
  }

  /** The calls the pre-hook neither denied nor deferred, in order. */
  function LetThrough(w: World, governed: bool, base: nat, calls: seq<ToolCall>): (s: seq<ToolCall>)
    ensures |s| <= |calls|
  {
    if |calls| == 0 then []
    else
      var rest := LetThrough(w, governed, base, calls[..|calls| - 1]);
      if RulingAt(w, governed, base, |calls| - 1).Proceed? then rest + [calls[|calls| - 1]] else rest
  }

  /** The answer each call must get: the block, the pending approval, or the
      output of its own execution. */
  function AnswersFor(w: World, governed: bool, base: nat, hasExecutor: bool, ran: nat, calls: seq<ToolCall>): (rs: seq<ToolResult>)
    ensures |rs| == |calls|
  {
    if |calls| == 0 then []
    else
      var init, call := calls[..|calls| - 1], calls[|calls| - 1];
      AnswersFor(w, governed, base, hasExecutor, ran, init) + [
        match RulingAt(w, governed, base, |calls| - 1)
        case Deny(reason) => ToolResult(call.id, Blocked(reason), true)
        case Defer(reason, id) => ToolResult(call.id, Awaiting(reason, id), true)
        case Proceed =>
          ToolResult(call.id, Result(OutputAt(w, hasExecutor, ran + |LetThrough(w, governed, base, init)|)), false)
      ]
  }

  function OutputAt(w: World, hasExecutor: bool, n: nat): string {
    if !hasExecutor then NO_EXECUTOR
    else match w.run(n)
      case Output(json) => json
      case Raised(_, error) => error
  }

  lemma {:induction false} AnswersAnswer(w: World, governed: bool, base: nat, hasExecutor: bool, ran: nat, calls: seq<ToolCall>)
    ensures Answers(calls, AnswersFor(w, governed, base, hasExecutor, ran, calls))
  {
    if |calls| > 0 {
      AnswersAnswer(w, governed, base, hasExecutor, ran, calls[..|calls| - 1]);
    }
  }

  lemma NoCalls(w: World, governed: bool, base: nat, hasExecutor: bool, ran: nat)
    ensures LetThrough(w, governed, base, []) == [] && AnswersFor(w, governed, base, hasExecutor, ran, []) == []
  {
  }

  /** The answer to one more call. */
  function NextAnswer(w: World, governed: bool, base: nat, hasExecutor: bool, ran: nat, calls: seq<ToolCall>,
                      call: ToolCall): ToolResult
  {
    match RulingAt(w, governed, base, |calls|)
    case Deny(reason) => ToolResult(call.id, Blocked(reason), true)
    case Defer(reason, id) => ToolResult(call.id, Awaiting(reason, id), true)
    case Proceed =>
      ToolResult(call.id, Result(OutputAt(w, hasExecutor, ran + |LetThrough(w, governed, base, calls)|)), false)
  }

  lemma OneMoreCall(w: World, governed: bool, base: nat, hasExecutor: bool, ran: nat, calls: seq<ToolCall>, call: ToolCall)
    ensures LetThrough(w, governed, base, calls + [call]) == LetThrough(w, governed, base, calls)
              + (if RulingAt(w, governed, base, |calls|).Proceed? then [call] else [])
    ensures AnswersFor(w, governed, base, hasExecutor, ran, calls + [call])
         == AnswersFor(w, governed, base, hasExecutor, ran, calls)
            + [NextAnswer(w, governed, base, hasExecutor, ran, calls, call)]
  {
    assert (calls + [call])[..|calls|] == calls;
  }

  /** Executions from `from` up to `upto` all returned. */
  ghost predicate RanWell(w: World, from: nat, upto: nat) {
    forall n :: from <= n < upto ==> w.run(n).Output?
  }

  // ---- Which call gets what, in terms of the rulings and executions alone ----------------

  /** The k-th call is ungoverned or its own ruling lets it through. */
  predicate Permits(w: World, governed: bool, base: nat, k: nat) {
    !governed || w.rule(base + k).Proceed?
  }

  function PermittedBefore(w: World, governed: bool, base: nat, k: nat): nat {
    if k == 0 then 0
    else PermittedBefore(w, governed, base, k - 1) + (if Permits(w, governed, base, k - 1) then 1 else 0)
  }

  /** The `n`-th call made is the k-th of `calls`, which is permitted and has `n`
      permitted calls before it. */
  ghost predicate MadeIs(w: World, governed: bool, base: nat, calls: seq<ToolCall>, made: seq<ToolCall>, n: nat, k: nat) {
    n < |made| && k < |calls| && Permits(w, governed, base, k) && PermittedBefore(w, governed, base, k) == n
    && made[n] == calls[k]
  }

  ghost predicate WasPermitted(w: World, governed: bool, base: nat, calls: seq<ToolCall>, made: seq<ToolCall>, n: nat) {
    exists k: nat :: MadeIs(w, governed, base, calls, made, n, k)
  }

  ghost predicate WasMade(w: World, governed: bool, base: nat, calls: seq<ToolCall>, made: seq<ToolCall>, k: nat) {
    MadeIs(w, governed, base, calls, made, PermittedBefore(w, governed, base, k), k)
  }

  /** Every permitted call stands among those made, at the place given by the
      permitted calls before it; and nothing else was made. */
  ghost predicate MadeAsRuled(w: World, governed: bool, base: nat, calls: seq<ToolCall>, made: seq<ToolCall>) {
    && |made| == PermittedBefore(w, governed, base, |calls|)
    && (forall k: nat :: k < |calls| && Permits(w, governed, base, k) ==>
          WasMade(w, governed, base, calls, made, k))
    && (forall n: nat :: n < |made| ==> WasPermitted(w, governed, base, calls, made, n))
  }

  /** A denied call is answered with its reason, a deferred one with its approval,
      and a permitted one with what its own execution returned. */
  ghost predicate AnswerAsRuled(w: World, governed: bool, base: nat, hasExecutor: bool, ran: nat,
                                call: ToolCall, result: ToolResult, k: nat)
  {
    && result.callId == call.id
    && (result.answer.Blocked? <==> governed && w.rule(base + k).Deny?)
    && (result.answer.Awaiting? <==> governed && w.rule(base + k).Defer?)
    && (result.isError <==> governed && !w.rule(base + k).Proceed?)
    && match result.answer
       case Blocked(reason) => w.rule(base + k) == Deny(reason)
       case Awaiting(reason, id) => w.rule(base + k) == Defer(reason, id)
       case Result(json) =>
         if hasExecutor then w.run(ran + PermittedBefore(w, governed, base, k)) == Output(json)
         else json == "{\"success\": false, \"error\": \"No tool executor configured\"}"
  }

  ghost predicate AnsweredAsRuled(w: World, governed: bool, base: nat, hasExecutor: bool, ran: nat,
                                  calls: seq<ToolCall>, results: seq<ToolResult>)
  {
    && |results| == |calls|
    && forall k :: 0 <= k < |calls| ==> AnswerAsRuled(w, governed, base, hasExecutor, ran, calls[k], results[k], k)
  }

  lemma {:induction false} MadeCount(w: World, governed: bool, base: nat, calls: seq<ToolCall>)
    ensures |LetThrough(w, governed, base, calls)| == PermittedBefore(w, governed, base, |calls|)
  {
    if |calls| > 0 {
      MadeCount(w, governed, base, calls[..|calls| - 1]);
    }
  }

  lemma {:induction false} MadeAt(w: World, governed: bool, base: nat, calls: seq<ToolCall>, k: nat)
    requires k < |calls| && Permits(w, governed, base, k)
    ensures PermittedBefore(w, governed, base, k) < |LetThrough(w, governed, base, calls)|
    ensures LetThrough(w, governed, base, calls)[PermittedBefore(w, governed, base, k)] == calls[k]
  {
    var init := calls[..|calls| - 1];
    if k < |calls| - 1 {
      MadeAt(w, governed, base, init, k);
    } else {
      MadeCount(w, governed, base, init);
    }
  }

  lemma {:induction false} MadeFor(w: World, governed: bool, base: nat, calls: seq<ToolCall>, n: nat) returns (k: nat)
    requires n < |LetThrough(w, governed, base, calls)|
    ensures k < |calls| && Permits(w, governed, base, k) && PermittedBefore(w, governed, base, k) == n
    ensures LetThrough(w, governed, base, calls)[n] == calls[k]
  {
    var init := calls[..|calls| - 1];
    if n < |LetThrough(w, governed, base, init)| {
      k := MadeFor(w, governed, base, init, n);
    } else {
      k := |calls| - 1;
      MadeCount(w, governed, base, init);
    }
  }

  lemma LetThroughIsRuled(w: World, governed: bool, base: nat, calls: seq<ToolCall>)
    ensures MadeAsRuled(w, governed, base, calls, LetThrough(w, governed, base, calls))
  {
    hide LetThrough, PermittedBefore, Permits;
    var made := LetThrough(w, governed, base, calls);
    MadeCount(w, governed, base, calls);
    forall k: nat | k < |calls| && Permits(w, governed, base, k)
      ensures WasMade(w, governed, base, calls, made, k)
    {
      MadeAt(w, governed, base, calls, k);
    }
    forall n: nat | n < |made| ensures WasPermitted(w, governed, base, calls, made, n) {
      var k := MadeFor(w, governed, base, calls, n);
      assert MadeIs(w, governed, base, calls, made, n, k);
    }
  }

  lemma NextAnswerIsRuled(w: World, governed: bool, base: nat, hasExecutor: bool, ran: nat, calls: seq<ToolCall>, call: ToolCall)
    requires hasExecutor && Permits(w, governed, base, |calls|) ==>
               w.run(ran + PermittedBefore(w, governed, base, |calls|)).Output?
    ensures AnswerAsRuled(w, governed, base, hasExecutor, ran, call,
                          NextAnswer(w, governed, base, hasExecutor, ran, calls, call), |calls|)
  {
    MadeCount(w, governed, base, calls);
    hide LetThrough, PermittedBefore;
  }

  lemma {:induction false} AnswerIsRuled(w: World, governed: bool, base: nat, hasExecutor: bool, ran: nat,
                                         calls: seq<ToolCall>, k: nat)
    requires hasExecutor ==> RanWell(w, ran, ran + |LetThrough(w, governed, base, calls)|)
    requires k < |calls|
    ensures AnswerAsRuled(w, governed, base, hasExecutor, ran, calls[k],
                          AnswersFor(w, governed, base, hasExecutor, ran, calls)[k], k)
  {
    hide LetThrough, AnswersFor, PermittedBefore, AnswerAsRuled, NextAnswer, Permits;
    var init, last := calls[..|calls| - 1], |calls| - 1;
    assert calls == init + [calls[last]];
    OneMoreCall(w, governed, base, hasExecutor, ran, init, calls[last]);
    if k < last {
      AnswerIsRuled(w, governed, base, hasExecutor, ran, init, k);
      assert init[k] == calls[k];
    } else {
      if hasExecutor && Permits(w, governed, base, last) {
        MadeAt(w, governed, base, calls, last);
      }
      NextAnswerIsRuled(w, governed, base, hasExecutor, ran, init, calls[last]);
    }
  }

  /** What the rulings let through and how the calls are answered, both as ruled. */
  lemma CallsAreRuled(w: World, governed: bool, base: nat, hasExecutor: bool, ran: nat, calls: seq<ToolCall>)
    requires hasExecutor ==> RanWell(w, ran, ran + |LetThrough(w, governed, base, calls)|)
    ensures AnsweredAsRuled(w, governed, base, hasExecutor, ran, calls,
                            AnswersFor(w, governed, base, hasExecutor, ran, calls))
    ensures MadeAsRuled(w, governed, base, calls, LetThrough(w, governed, base, calls))
  {
    hide LetThrough, AnswersFor, AnswerAsRuled, MadeAsRuled, RanWell;
    LetThroughIsRuled(w, governed, base, calls);
    forall k | 0 <= k < |calls|
      ensures AnswerAsRuled(w, governed, base, hasExecutor, ran, calls[k],
                            AnswersFor(w, governed, base, hasExecutor, ran, calls)[k], k)
    {
      AnswerIsRuled(w, governed, base, hasExecutor, ran, calls, k);
    }
  }

  lemma Associates<T>(a: seq<T>, b: seq<T>, c: seq<T>)
    ensures (a + b) + c == a + (b + c)
  {
  }

  function After(governed: bool, base: nat, calls: seq<ToolCall>): nat {
    if governed then base + |calls| else base
  }

  /** Ruling on two batches one after the other is ruling on them together. */
  lemma {:induction false} LetThroughComposes(w: World, governed: bool, base: nat, a: seq<ToolCall>, b: seq<ToolCall>)
    ensures LetThrough(w, governed, base, a + b)
         == LetThrough(w, governed, base, a) + LetThrough(w, governed, After(governed, base, a), b)
  {
    hide LetThrough;
    if |b| == 0 {
      assert a + b == a && b == [];
      NoCalls(w, governed, After(governed, base, a), false, 0);
    } else {
      var init, call := b[..|b| - 1], b[|b| - 1];
      LetThroughComposes(w, governed, base, a, init);
      assert a + b == (a + init) + [call] && b == init + [call];
      OneMoreCall(w, governed, base, false, 0, a + init, call);
      OneMoreCall(w, governed, After(governed, base, a), false, 0, init, call);
      assert RulingAt(w, governed, base, |a + init|) == RulingAt(w, governed, After(governed, base, a), |init|);
      Associates(LetThrough(w, governed, base, a), LetThrough(w, governed, After(governed, base, a), init),
                 if RulingAt(w, governed, base, |a + init|).Proceed? then [call] else []);
    }
  }

  lemma {:induction false} AnswersCompose(w: World, governed: bool, base: nat, hasExecutor: bool, ran: nat,
                                          a: seq<ToolCall>, b: seq<ToolCall>)
    ensures AnswersFor(w, governed, base, hasExecutor, ran, a + b)
         == AnswersFor(w, governed, base, hasExecutor, ran, a)
            + AnswersFor(w, governed, After(governed, base, a), hasExecutor, ran + |LetThrough(w, governed, base, a)|, b)
  {
    var next, ranNext := After(governed, base, a), ran + |LetThrough(w, governed, base, a)|;
    hide LetThrough, AnswersFor;
    if |b| == 0 {
      assert a + b == a && b == [];
      NoCalls(w, governed, next, hasExecutor, ranNext);
    } else {
      var init, call := b[..|b| - 1], b[|b| - 1];
      AnswersCompose(w, governed, base, hasExecutor, ran, a, init);
      LetThroughComposes(w, governed, base, a, init);
      assert a + b == (a + init) + [call] && b == init + [call];
      OneMoreCall(w, governed, base, hasExecutor, ran, a + init, call);
      OneMoreCall(w, governed, next, hasExecutor, ranNext, init, call);
      assert RulingAt(w, governed, base, |a + init|) == RulingAt(w, governed, next, |init|);
      Associates(AnswersFor(w, governed, base, hasExecutor, ran, a), AnswersFor(w, governed, next, hasExecutor, ranNext, init),
                 [NextAnswer(w, governed, base, hasExecutor, ran, a + init, call)]);
    }
  }

  // ---- Replies and tokens -----------------------------------------------------------

  /** The replies among attempts from `from` up to `upto`. */
  function Replies(w: World, from: nat, upto: nat): (rs: seq<Response>)
    requires from <= upto
    decreases upto - from
  {
    if from == upto then []
    else Replies(w, from, upto - 1) + (match w.llm(upto - 1) case Reply(r) => [r] case _ => [])
  }

  function InputTotal(rs: seq<Response>): int {
    if |rs| == 0 then 0 else InputTotal(rs[..|rs| - 1]) + rs[|rs| - 1].inputTokens
  }

  function OutputTotal(rs: seq<Response>): int {
    if |rs| == 0 then 0 else OutputTotal(rs[..|rs| - 1]) + rs[|rs| - 1].outputTokens
  }

  function LastText(rs: seq<Response>): string {
    if |rs| == 0 then ""
    else if rs[|rs| - 1].text != "" then rs[|rs| - 1].text
    else LastText(rs[..|rs| - 1])
  }

  /** The totals are sums, and the last text is the last that is not empty. */
  lemma {:induction false} TotalsCompose(a: seq<Response>, b: seq<Response>)
    ensures InputTotal(a + b) == InputTotal(a) + InputTotal(b) && OutputTotal(a + b) == OutputTotal(a) + OutputTotal(b)
    ensures LastText(a + b) == if LastText(b) != "" then LastText(b) else LastText(a)
    ensures |b| == 1 ==> InputTotal(b) == b[0].inputTokens && OutputTotal(b) == b[0].outputTokens && LastText(b) == b[0].text
  {
    if |b| == 0 {
      assert a + b == a;
    } else {
      assert (a + b)[..|a + b| - 1] == a + b[..|b| - 1];
      TotalsCompose(a, b[..|b| - 1]);
    }
  }

  /** A run of attempts that all failed transiently, then perhaps one more. */
  lemma {:induction false} NoReplies(w: World, from: nat, mid: nat, upto: nat)
    requires from <= mid <= upto
    requires forall n :: mid <= n < upto ==> !w.llm(n).Reply?
    ensures Replies(w, from, upto) == Replies(w, from, mid)
    decreases upto
  {
    if mid < upto {
      NoReplies(w, from, mid, upto - 1);
    }
  }

  // ---- Backoff ------------------------------------------------------------------------

  function Pow2(n: nat): (p: nat)
    ensures p >= 1
  {
    if n == 0 then 1 else 2 * Pow2(n - 1)
  }

  /** min(1.0 * 2 ** attempt, 30.0). */
  function Delay(attempt: nat): nat {
    if Pow2(attempt) < 30 then Pow2(attempt) else 30
  }

  function Backoffs(k: nat): (ds: seq<nat>)
    ensures |ds| == k
  {
    if k == 0 then [] else Backoffs(k - 1) + [Delay(k - 1)]
  }

  function Total(ds: seq<nat>): nat {
    if |ds| == 0 then 0 else Total(ds[..|ds| - 1]) + ds[|ds| - 1]
  }

  lemma SmallPowers()
    ensures Pow2(0) == 1 && Pow2(1) == 2 && Pow2(2) == 4 && Pow2(3) == 8 && Pow2(4) == 16 && Pow2(5) == 32
  {
  }

  lemma {:induction false} LargePowers(n: nat)
    requires n >= 5
    ensures Pow2(n) >= 32
  {
    if n == 5 {
      SmallPowers();
    } else {
      LargePowers(n - 1);
    }
  }

  /** k consecutive backoffs sleep 2^k - 1 seconds, and 30 more for each after the fifth. */
  lemma {:induction false} BackoffTotal(k: nat)
    ensures Total(Backoffs(k)) == if k <= 5 then Pow2(k) - 1 else 31 + 30 * (k - 5)
  {
    if k > 0 {
      BackoffTotal(k - 1);
      assert Backoffs(k)[..k - 1] == Backoffs(k - 1);
      assert Total(Backoffs(k)) == Total(Backoffs(k - 1)) + Delay(k - 1);
      hide Total, Backoffs;
      SmallPowers();
      if k > 5 {
        LargePowers(k - 1);
      }
    }
  }

  // ---- When a run ends, and how ---------------------------------------------------------

  /** A reply that ends the run. */
  predicate Final(r: Response) {
    r.endTurn || r.calls == []
  }

  /** What asking the model at `from` comes to with `left` attempts, and where it
      leaves off: transient errors are tried again, a fatal one is not. */
  function AskModel(w: World, from: nat, left: nat): (Option<Response>, nat)
    decreases left
  {
    if left == 0 then (None, from)
    else match w.llm(from)
      case Reply(r) => (Some(r), from + 1)
      case Fatal(_) => (None, from + 1)
      case Transient(_) => AskModel(w, from + 1, left - 1)
  }

  /** The first call that is let through and raises. */
  function CrashIn(w: World, governed: bool, base: nat, hasExecutor: bool, ran: nat, calls: seq<ToolCall>): (k: Option<nat>)
    ensures k.Some? ==> k.value < |calls|
  {
    if |calls| == 0 then None
    else
      var init, last := calls[..|calls| - 1], |calls| - 1;
      var before := CrashIn(w, governed, base, hasExecutor, ran, init);
      if before.Some? then before
      else if hasExecutor && RulingAt(w, governed, base, last).Proceed?
              && w.run(ran + |LetThrough(w, governed, base, init)|).Raised? then Some(last)
      else None
  }

  lemma NoCrashYet(w: World, governed: bool, base: nat, hasExecutor: bool, ran: nat)
    ensures CrashIn(w, governed, base, hasExecutor, ran, []) == None
  {
  }

  lemma CrashInMore(w: World, governed: bool, base: nat, hasExecutor: bool, ran: nat, calls: seq<ToolCall>, call: ToolCall)
    ensures var before := CrashIn(w, governed, base, hasExecutor, ran, calls);
            CrashIn(w, governed, base, hasExecutor, ran, calls + [call]) ==
              if before.Some? then before
              else if hasExecutor && RulingAt(w, governed, base, |calls|).Proceed?
                      && w.run(ran + |LetThrough(w, governed, base, calls)|).Raised? then Some(|calls|)
              else None
  {
    assert (calls + [call])[..|calls|] == calls;
  }

  /** A crash stays where it is, whatever calls follow. */
  lemma {:induction false} CrashStays(w: World, governed: bool, base: nat, hasExecutor: bool, ran: nat,
                                      calls: seq<ToolCall>, n: nat)
    requires n <= |calls| && CrashIn(w, governed, base, hasExecutor, ran, calls[..n]).Some?
    ensures CrashIn(w, governed, base, hasExecutor, ran, calls) == CrashIn(w, governed, base, hasExecutor, ran, calls[..n])
  {
    if n == |calls| {
      assert calls[..n] == calls;
    } else {
      var init := calls[..|calls| - 1];
      assert init[..n] == calls[..n] && calls == init + [calls[|calls| - 1]];
      CrashStays(w, governed, base, hasExecutor, ran, init, n);
      CrashInMore(w, governed, base, hasExecutor, ran, init, calls[|calls| - 1]);
    }
  }

  /** Where the environment stands. */
  datatype Cursor = Cursor(readings: nat, attempts: nat, rulings: nat, ran: nat)

  /** What a run is given. */
  datatype Settings = Settings(governed: bool, hasExecutor: bool, maxRetries: int, start: real, timeout: real)

  datatype TurnEnd = Stops(exit: Exit) | Goes(next: Cursor)

  predicate Late(w: World, s: Settings, c: Cursor) {
    w.clock(c.readings) - s.start > s.timeout
  }

  /** What a turn comes to once the model has answered. */
  function TurnAfter(w: World, governed: bool, hasExecutor: bool, rulings: nat, ran: nat, r: Response,
                     readings: nat, attempts: nat): TurnEnd
  {
    if Final(r) then Stops(Done)
    else
      match CrashIn(w, governed, rulings, hasExecutor, ran, r.calls)
      case Some(k) =>
        var raised := w.run(ran + |LetThrough(w, governed, rulings, r.calls[..k])|);
        Stops(Crash(raised.Raised? && raised.timeout))
      case None =>
        Goes(Cursor(readings, attempts, After(governed, rulings, r.calls),
                    ran + |LetThrough(w, governed, rulings, r.calls)|))
  }

  /** One turn of the loop as the environment decides it. */
  function NextTurn(w: World, s: Settings, c: Cursor): TurnEnd {
    if Late(w, s, c) then Stops(Timeout)
    else
      match AskModel(w, c.attempts, Max0(s.maxRetries))
      case (None, _) => Stops(LlmFailed)
      case (Some(r), attempts) =>
        TurnAfter(w, s.governed, s.hasExecutor, c.rulings, c.ran, r, c.readings + 1, attempts)
  }

  /** How a run with `left` turns ends. */
  function Ending(w: World, s: Settings, c: Cursor, left: int): (e: Exit)
    decreases left
  {
    if left <= 0 then TurnsExhausted
    else match NextTurn(w, s, c)
      case Stops(e) => e
      case Goes(d) => Ending(w, s, d, left - 1)
  }

  /** Where the environment stands after `k` turns that all went on. */
  function Reached(w: World, s: Settings, c: Cursor, k: nat): Option<Cursor>
    decreases k
  {
    if k == 0 then Some(c)
    else match NextTurn(w, s, c)
      case Stops(_) => None
      case Goes(d) => Reached(w, s, d, k - 1)
  }

  /** The clock is late, the model does not answer, or it gives its final reply. */
  predicate Closes(w: World, s: Settings, c: Cursor) {
    Late(w, s, c) ||
    match AskModel(w, c.attempts, Max0(s.maxRetries)).0
    case None => true
    case Some(r) => Final(r)
  }

  predicate Closed(e: Exit) {
    e.Timeout? || e.LlmFailed? || e.Done?
  }

  lemma ClosesExactly(w: World, s: Settings, c: Cursor)
    ensures Closes(w, s, c) <==> NextTurn(w, s, c).Stops? && Closed(NextTurn(w, s, c).exit)
    ensures NextTurn(w, s, c).Stops? ==> NextTurn(w, s, c).exit != TurnsExhausted
  {
    hide CrashIn, LetThrough, AskModel;
  }

  predicate ClosesAt(w: World, s: Settings, c: Cursor, k: nat) {
    Reached(w, s, c, k).Some? && Closes(w, s, Reached(w, s, c, k).value)
  }

  lemma {:induction false} ClosedAt(w: World, s: Settings, c: Cursor, left: int, k: nat)
    requires k < left && ClosesAt(w, s, c, k)
    ensures Closed(Ending(w, s, c, left))
    decreases k
  {
    hide NextTurn, Closes;
    ClosesExactly(w, s, c);
    ReachedNext(w, s, c);
    if k > 0 {
      ClosedAt(w, s, NextTurn(w, s, c).next, left - 1, k - 1);
    }
  }

  lemma {:induction false} ClosedSomewhere(w: World, s: Settings, c: Cursor, left: int) returns (k: nat)
    requires Closed(Ending(w, s, c, left))
    ensures k < left && ClosesAt(w, s, c, k)
    decreases left
  {
    hide NextTurn, Closes;
    ClosesExactly(w, s, c);
    ReachedNext(w, s, c);
    if NextTurn(w, s, c).Goes? {
      var j := ClosedSomewhere(w, s, NextTurn(w, s, c).next, left - 1);
      k := j + 1;
    } else {
      k := 0;
    }
  }

  /** A run ends closed, and its stored session is finalized, exactly when one of
      its turns is reached and closes it. */
  lemma ClosedExactly(w: World, s: Settings, c: Cursor, left: int)
    ensures Closed(Ending(w, s, c, left)) <==> exists k: nat :: k < left && ClosesAt(w, s, c, k)
  {
    hide Closes, Ending;
    if Closed(Ending(w, s, c, left)) {
      var k := ClosedSomewhere(w, s, c, left);
    }
    if k: nat :| k < left && ClosesAt(w, s, c, k) {
      ClosedAt(w, s, c, left, k);
    }
  }

  lemma ReachedNext(w: World, s: Settings, c: Cursor)
    ensures Reached(w, s, c, 0) == Some(c)
    ensures NextTurn(w, s, c).Goes? ==> forall k: nat :: Reached(w, s, c, k + 1) == Reached(w, s, NextTurn(w, s, c).next, k)
    ensures NextTurn(w, s, c).Stops? ==> forall k: nat :: k > 0 ==> Reached(w, s, c, k) == None
  {
    hide NextTurn;
  }

  /** It uses up its turns exactly when every one of them goes on. */
  lemma {:induction false} ExhaustedExactly(w: World, s: Settings, c: Cursor, left: int)
    ensures Ending(w, s, c, left) == TurnsExhausted <==> Reached(w, s, c, Max0(left)).Some?
    decreases left
  {
    hide NextTurn;
    if left > 0 {
      ClosesExactly(w, s, c);
      if NextTurn(w, s, c).Goes? {
        ExhaustedExactly(w, s, NextTurn(w, s, c).next, left - 1);
      }
    }
  }

  /** An environment that is never late, and whose model always answers with calls
      of tools that never raise. */
  ghost predicate Busy(w: World, s: Settings) {
    && s.maxRetries > 0
    && (forall n :: w.clock(n) - s.start <= s.timeout)
    && (forall n :: w.llm(n).Reply? && !Final(w.llm(n).response))
    && (forall n :: w.run(n).Output?)
  }

  lemma {:induction false} NoCrashWhenBusy(w: World, governed: bool, base: nat, hasExecutor: bool, ran: nat, calls: seq<ToolCall>)
    requires forall n :: w.run(n).Output?
    ensures CrashIn(w, governed, base, hasExecutor, ran, calls) == None
  {
    if |calls| > 0 {
      NoCrashWhenBusy(w, governed, base, hasExecutor, ran, calls[..|calls| - 1]);
    }
  }

  /** Such a run always uses up its turns, so its session is never finalized. */
  lemma {:induction false} BusyExhausts(w: World, s: Settings, c: Cursor, left: int)
    requires Busy(w, s)
    ensures Ending(w, s, c, left) == TurnsExhausted
    decreases left
  {
    if left > 0 {
      var r := w.llm(c.attempts).response;
      assert AskModel(w, c.attempts, Max0(s.maxRetries)) == (Some(r), c.attempts + 1);
      NoCrashWhenBusy(w, s.governed, c.rulings, s.hasExecutor, c.ran, r.calls);
      assert NextTurn(w, s, c).Goes?;
      BusyExhausts(w, s, NextTurn(w, s, c).next, left - 1);
    }
  }

  /** The model asks for the same tool over and over, and each run of it ends in
      `outcome`. */
  function Insistent(outcome: ToolOutcome): World {
    World(_ => 0.0, _ => Reply(Response("", [ToolCall("id", "tool", "")], false, 1, 1)), _ => Proceed, _ => outcome,
          (_, _) => 0.0)
  }

  /** For instance: with tools that return the turns run out, and with one that
      raises the first turn crashes; neither run is finalized. */
  lemma NotFinalizedExamples(c: Cursor, left: int)
    requires left > 0
    ensures var s := Settings(true, true, 3, 0.0, 60.0);
            && Ending(Insistent(Output("")), s, c, left) == TurnsExhausted
            && Ending(Insistent(Raised(true, "")), s, c, left) == Crash(true)
  {
    var s, call := Settings(true, true, 3, 0.0, 60.0), ToolCall("id", "tool", "");
    BusyExhausts(Insistent(Output("")), s, c, left);
    var w := Insistent(Raised(true, ""));
    assert AskModel(w, c.attempts, 3) == (Some(Response("", [call], false, 1, 1)), c.attempts + 1);
    NoCalls(w, true, c.rulings, true, c.ran);
    assert [] + [call] == [call];
    CrashInMore(w, true, c.rulings, true, c.ran, [], call);
    assert [call][..0] == [];
  }

  // ---- Checkpoints -----------------------------------------------------------------------

  /** A checkpoint is the run's own past: its messages are the transcript after
      so many turns, and its counters are the sums over those turns. */
  ghost predicate CheckpointAt(s: Session, turns: nat, ms: seq<Message>, replies: seq<Response>, price: (int, int) -> real) {
    && s.status.Running? && s.turns == turns
    && 1 + 2 * turns <= |ms| && turns <= |replies|
    && s.messages == ms[..1 + 2 * turns]
    && s.toolCalls == |CallsIn(s.messages)|
    && s.input == InputTotal(replies[..turns])
    && s.output == OutputTotal(replies[..turns])
    && (turns > 0 ==> s.cost == price(s.input, s.output))
  }

  lemma CheckpointStays(s: Session, turns: nat, ms: seq<Message>, replies: seq<Response>, price: (int, int) -> real,
                        ms': seq<Message>, replies': seq<Response>)
    requires CheckpointAt(s, turns, ms, replies, price) && ms <= ms' && replies <= replies'
    ensures CheckpointAt(s, turns, ms', replies', price)
  {
    assert ms'[..1 + 2 * turns] == ms[..1 + 2 * turns];
    assert replies'[..turns] == replies[..turns];
  }

  /** The rows a run adds to the store: the initial one, one per turn, and, when
      the run is finalized, one more that carries the returned result. */
  ghost predicate Recorded(rows: seq<Session>, ms: seq<Message>, replies: seq<Response>,
                           price: (int, int) -> real, turns: nat, final: Option<RunResult>)
  {
    && |rows| == turns + 1 + (if final.Some? then 1 else 0)
    && (forall t :: 0 <= t <= turns ==> CheckpointAt(rows[t], t, ms, replies, price))
    && (final.Some? ==>
          var r := final.value;
          1 + 2 * turns <= |ms| &&
          rows[turns + 1] == Session(Ended(r.status), ms[..1 + 2 * turns], turns, r.toolCalls, r.input, r.output, r.cost))
  }

  lemma RecordedStays(rows: seq<Session>, ms: seq<Message>, replies: seq<Response>, price: (int, int) -> real,
                      turns: nat, ms': seq<Message>, replies': seq<Response>)
    requires Recorded(rows, ms, replies, price, turns, None) && ms <= ms' && replies <= replies'
    ensures Recorded(rows, ms', replies', price, turns, None)
  {
    forall t | 0 <= t <= turns ensures CheckpointAt(rows[t], t, ms', replies', price) {
      CheckpointStays(rows[t], t, ms, replies, price, ms', replies');
    }
  }

  lemma RecordTurn(rows: seq<Session>, ms: seq<Message>, replies: seq<Response>, price: (int, int) -> real,
                   turns: nat, ms': seq<Message>, replies': seq<Response>, row: Session)
    requires Recorded(rows, ms, replies, price, turns, None) && ms <= ms' && replies <= replies'
    requires |ms'| == 3 + 2 * turns && |replies'| == turns + 1
    requires row == Session(Running, ms', turns + 1, |CallsIn(ms')|, InputTotal(replies'), OutputTotal(replies'),
                            price(InputTotal(replies'), OutputTotal(replies')))
    ensures Recorded(rows + [row], ms', replies', price, turns + 1, None)
  {
    RecordedStays(rows, ms, replies, price, turns, ms', replies');
    assert ms'[..|ms'|] == ms' && replies'[..|replies'|] == replies';
    forall t | 0 <= t <= turns + 1 ensures CheckpointAt((rows + [row])[t], t, ms', replies', price) {
      if t <= turns {
        assert CheckpointAt(rows[t], t, ms', replies', price);
      }
    }
  }

  lemma RecordStart(row: Session, prompt: string, price: (int, int) -> real)
    requires row == Session(Running, [Prompt(prompt)], 0, 0, 0, 0, 0.0)
    ensures Recorded([row], [Prompt(prompt)], [], price, 0, None)
  {
    assert [Prompt(prompt)][..1] == [Prompt(prompt)] && [Prompt(prompt)][..0] == [];
    assert CallsIn([Prompt(prompt)]) == [];
    assert CheckpointAt(row, 0, [Prompt(prompt)], [], price);
  }

  /** The last checkpoint still holds the session's messages when it is finalized. */
  lemma RecordEnd(rows: seq<Session>, ms: seq<Message>, replies: seq<Response>, price: (int, int) -> real,
                  turns: nat, r: RunResult, row: Session)
    requires Recorded(rows, ms, replies, price, turns, None)
    requires row == Session(Ended(r.status), rows[turns].messages, turns, r.toolCalls, r.input, r.output, r.cost)
    ensures Recorded(rows + [row], ms, replies, price, turns, Some(r))
  {
    assert CheckpointAt(rows[turns], turns, ms, replies, price);
    forall t | 0 <= t <= turns ensures CheckpointAt((rows + [row])[t], t, ms, replies, price) {
      assert CheckpointAt(rows[t], t, ms, replies, price);
    }
  }

  lemma LastRow(rows: seq<Session>, ms: seq<Message>, replies: seq<Response>, price: (int, int) -> real, turns: nat)
    requires Recorded(rows, ms, replies, price, turns, None)
    ensures |rows| == turns + 1 && rows[turns].turns == turns && rows[turns].messages == ms[..1 + 2 * turns]
    ensures rows[turns].status.Running?
  {
    assert CheckpointAt(rows[turns], turns, ms, replies, price);
  }

  /** Between two turns: the transcript so far, what was answered, executed and
      reported, all follow from the calls in it and the rulings on them. */
  ghost predicate InRun(w: World, governed: bool, hasExecutor: bool,
                        rulings0: nat, executed0: seq<ToolCall>, posted0: seq<ToolCall>,
                        ms: seq<Message>, turns: nat, replies: seq<Response>,
                        executed: seq<ToolCall>, posted: seq<ToolCall>, rulings: nat)
  {
    var calls := CallsIn(ms);
    && WellFormed(ms, turns)
    && replies == RepliesIn(ms) && |replies| == turns
    && ResultsIn(ms) == AnswersFor(w, governed, rulings0, hasExecutor, |executed0|, calls)
    && executed == executed0 + LetThrough(w, governed, rulings0, calls)
    && posted == posted0 + (if governed then LetThrough(w, governed, rulings0, calls) else [])
    && rulings == After(governed, rulings0, calls)
    && (hasExecutor ==> RanWell(w, |executed0|, |executed|))
  }

  /** After a crash the last reply has no answers: its calls before `k` were
      treated as the rulings say, the k-th was handed to the executor and never
      reported.  It raised, and none before it did. */
  ghost predicate Dangles(w: World, governed: bool, rulings0: nat, executed0: seq<ToolCall>, posted0: seq<ToolCall>,
                          ms: seq<Message>, k: nat, executed: seq<ToolCall>, posted: seq<ToolCall>)
  {
    && |ms| > 0 && ms[|ms| - 1].Assistant? && k < |ms[|ms| - 1].response.calls|
    && var last := ms[|ms| - 1].response.calls;
    && var before := CallsIn(ms[..|ms| - 1]) + last[..k];
    && executed == executed0 + LetThrough(w, governed, rulings0, before) + [last[k]]
    && posted == posted0 + (if governed then LetThrough(w, governed, rulings0, before) else [])
    && RanWell(w, |executed0|, |executed| - 1) && w.run(|executed| - 1).Raised?
    && Permits(w, governed, rulings0, |before|)
    && ResultsIn(ms) == AnswersFor(w, governed, rulings0, true, |executed0|, CallsIn(ms[..|ms| - 1]))
  }

  function StatusOf(exit: Exit): Status {
    match exit
    case Timeout => TimedOut
    case LlmFailed => Failed
    case _ => Completed
  }

  /** What is returned accounts for every reply received, the one that ended the
      run included, and for every call in the transcript. */
  ghost predicate Reports(w: World, exit: Exit, r: RunResult, ms: seq<Message>, replies: seq<Response>) {
    && r.status == StatusOf(exit)
    && r.input == InputTotal(replies) && r.output == OutputTotal(replies)
    && r.cost == w.price(InputTotal(replies), OutputTotal(replies))
    && r.toolCalls == |CallsIn(ms)|
    && r.text == (if exit.TurnsExhausted? && LastText(replies) == "" then EXHAUSTED else LastText(replies))
  }

  lemma MessagesAppend(ms: seq<Message>, r: Response, results: seq<ToolResult>)
    ensures var after := ms + [Assistant(r), Results(results)];
            && after[..|after| - 1] == ms + [Assistant(r)] && after[..|after| - 2] == ms
            && CallsIn(ms + [Assistant(r)]) == CallsIn(ms) + r.calls && CallsIn(after) == CallsIn(ms) + r.calls
            && ResultsIn(after) == ResultsIn(ms) + results
            && RepliesIn(after) == RepliesIn(ms) + [r]
  {
    var after := ms + [Assistant(r), Results(results)];
    assert after[..|after| - 1] == ms + [Assistant(r)];
    assert (ms + [Assistant(r)])[..|ms|] == ms;
  }

  lemma TurnKeepsInRun(w: World, governed: bool, hasExecutor: bool,
                       rulings0: nat, executed0: seq<ToolCall>, posted0: seq<ToolCall>,
                       ms: seq<Message>, turns: nat, replies: seq<Response>,
                       executed: seq<ToolCall>, posted: seq<ToolCall>, rulings: nat,
                       r: Response, results: seq<ToolResult>)
    requires InRun(w, governed, hasExecutor, rulings0, executed0, posted0, ms, turns, replies, executed, posted, rulings)
    requires results == AnswersFor(w, governed, rulings, hasExecutor, |executed|, r.calls)
    requires hasExecutor ==> RanWell(w, |executed|, |executed| + |LetThrough(w, governed, rulings, r.calls)|)
    ensures InRun(w, governed, hasExecutor, rulings0, executed0, posted0,
                  ms + [Assistant(r), Results(results)], turns + 1, replies + [r],
                  executed + LetThrough(w, governed, rulings, r.calls),
                  posted + (if governed then LetThrough(w, governed, rulings, r.calls) else []),
                  After(governed, rulings, r.calls))
  {
    hide LetThrough, AnswersFor;
    var calls := CallsIn(ms);
    MessagesAppend(ms, r, results);
    LetThroughComposes(w, governed, rulings0, calls, r.calls);
    AnswersCompose(w, governed, rulings0, hasExecutor, |executed0|, calls, r.calls);
    AnswersAnswer(w, governed, rulings, hasExecutor, |executed|, r.calls);
    hide CallsIn, ResultsIn, RepliesIn;
    var through := LetThrough(w, governed, rulings, r.calls);
    Associates(executed0, LetThrough(w, governed, rulings0, calls), through);
    Associates(posted0, LetThrough(w, governed, rulings0, calls), through);
  }

  /** A call crashed: what was executed and reported before it is still what the
      rulings let through. */
  lemma CrashedTurn(w: World, governed: bool, hasExecutor: bool,
                    rulings0: nat, executed0: seq<ToolCall>, posted0: seq<ToolCall>,
                    ms: seq<Message>, turns: nat, replies: seq<Response>,
                    executed: seq<ToolCall>, posted: seq<ToolCall>, rulings: nat, r: Response, k: nat,
                    executed': seq<ToolCall>, posted': seq<ToolCall>)
    requires InRun(w, governed, hasExecutor, rulings0, executed0, posted0, ms, turns, replies, executed, posted, rulings)
    requires hasExecutor && k < |r.calls| && Permits(w, governed, rulings, k)
    requires var through := LetThrough(w, governed, rulings, r.calls[..k]);
             && executed' == executed + through + [r.calls[k]]
             && posted' == posted + (if governed then through else [])
             && RanWell(w, |executed|, |executed| + |through|) && w.run(|executed| + |through|).Raised?
    ensures |executed'| > |executed0|
    ensures Dangles(w, governed, rulings0, executed0, posted0, ms + [Assistant(r)], k, executed', posted')
  {
    hide LetThrough, CallsIn, AnswersFor, WellFormed, ResultsIn, RepliesIn;
    var calls := r.calls[..k];
    LetThroughComposes(w, governed, rulings0, CallsIn(ms), calls);
    var before, through := LetThrough(w, governed, rulings0, CallsIn(ms)), LetThrough(w, governed, rulings, calls);
    Associates(executed0, before, through);
    Associates(posted0, before, through);
    assert (ms + [Assistant(r)])[..|ms|] == ms;
    NoResultsIn(ms, r);
  }

  lemma NoResultsIn(ms: seq<Message>, r: Response)
    ensures ResultsIn(ms + [Assistant(r)]) == ResultsIn(ms)
  {
    assert (ms + [Assistant(r)])[..|ms|] == ms;
  }

  /** Between turns, and on every exit but a crash: the whole run is as ruled. */
  lemma RunIsRuled(w: World, governed: bool, hasExecutor: bool,
                   rulings0: nat, executed0: seq<ToolCall>, posted0: seq<ToolCall>,
                   ms: seq<Message>, turns: nat, replies: seq<Response>,
                   executed: seq<ToolCall>, posted: seq<ToolCall>, rulings: nat)
    requires InRun(w, governed, hasExecutor, rulings0, executed0, posted0, ms, turns, replies, executed, posted, rulings)
    ensures executed0 <= executed && posted == posted0 + (if governed then executed[|executed0|..] else [])
    ensures rulings == rulings0 + (if governed then |CallsIn(ms)| else 0)
    ensures MadeAsRuled(w, governed, rulings0, CallsIn(ms), executed[|executed0|..])
    ensures AnsweredAsRuled(w, governed, rulings0, hasExecutor, |executed0|, CallsIn(ms), ResultsIn(ms))
  {
    hide LetThrough, AnswersFor, MadeAsRuled, AnsweredAsRuled, CallsIn, ResultsIn, RepliesIn, WellFormed, RanWell;
    CallsAreRuled(w, governed, rulings0, hasExecutor, |executed0|, CallsIn(ms));
    assert executed[|executed0|..] == LetThrough(w, governed, rulings0, CallsIn(ms));
  }

  /** After a crash: every call up to the one that raised is as ruled. */
  lemma CrashIsRuled(w: World, governed: bool, rulings0: nat, executed0: seq<ToolCall>, posted0: seq<ToolCall>,
                     ms: seq<Message>, k: nat, executed: seq<ToolCall>, posted: seq<ToolCall>)
    requires Dangles(w, governed, rulings0, executed0, posted0, ms, k, executed, posted)
    ensures |ms| > 0 && ms[|ms| - 1].Assistant? && k < |ms[|ms| - 1].response.calls|
    ensures executed0 <= executed && |executed| > |executed0|
    ensures var last, front := ms[|ms| - 1].response.calls, CallsIn(ms[..|ms| - 1]);
            var made := executed[|executed0|..|executed| - 1];
            && executed[|executed| - 1] == last[k] && Permits(w, governed, rulings0, |front| + k)
            && posted == posted0 + (if governed then made else [])
            && MadeAsRuled(w, governed, rulings0, front + last[..k], made)
            && AnsweredAsRuled(w, governed, rulings0, true, |executed0|, front, ResultsIn(ms))
  {
    hide LetThrough, AnswersFor, MadeAsRuled, AnsweredAsRuled, CallsIn, ResultsIn, PermittedBefore, Permits;
    var last, front := ms[|ms| - 1].response.calls, CallsIn(ms[..|ms| - 1]);
    var made := executed[|executed0|..|executed| - 1];
    assert made == LetThrough(w, governed, rulings0, front + last[..k]);
    CallsAreRuled(w, governed, rulings0, true, |executed0|, front + last[..k]);
    LetThroughComposes(w, governed, rulings0, front, last[..k]);
    CallsAreRuled(w, governed, rulings0, true, |executed0|, front);
  }

  lemma RunStarts(w: World, governed: bool, hasExecutor: bool, rulings: nat, executed: seq<ToolCall>, posted: seq<ToolCall>,
                  prompt: string)
    ensures InRun(w, governed, hasExecutor, rulings, executed, posted, [Prompt(prompt)], 0, [], executed, posted, rulings)
  {
    assert [Prompt(prompt)][..0] == [];
    assert executed + [] == executed && posted + [] == posted;
  }

  /** The locals of the loop. */
  datatype Progress = Progress(input: int, output: int, toolCalls: nat, text: string, session: Session)

  /** The counters and the store keep up with every reply received so far. */
  ghost predicate Tally(w: World, hasStore: bool, attempts0: nat, attempts: nat, stored0: seq<Session>, stored: seq<Session>,
                        p: Progress, ms: seq<Message>, turns: nat, replies: seq<Response>, rows: seq<Session>)
  {
    && attempts0 <= attempts && replies == Replies(w, attempts0, attempts)
    && p.input == InputTotal(replies) && p.output == OutputTotal(replies) && p.text == LastText(replies)
    && stored == stored0 + rows
    && (if hasStore
        then Recorded(rows, ms, replies, w.price, turns, None) && |rows| == turns + 1 && p.session == rows[turns]
        else rows == [])
  }

  lemma TallyStart(w: World, hasStore: bool, attempts: nat, stored0: seq<Session>, p: Progress, prompt: string,
                   rows: seq<Session>)
    requires p == Progress(0, 0, 0, "", Session(Running, [Prompt(prompt)], 0, 0, 0, 0, 0.0))
    requires rows == if hasStore then [p.session] else []
    ensures Tally(w, hasStore, attempts, attempts, stored0, stored0 + rows, p, [Prompt(prompt)], 0, [], rows)
  {
    RecordStart(p.session, prompt, w.price);
  }

  /** An attempt series without a reply changes nothing that is counted. */
  lemma TallyNoReply(w: World, hasStore: bool, attempts0: nat, attempts: nat, stored0: seq<Session>, stored: seq<Session>,
                     p: Progress, ms: seq<Message>, turns: nat, replies: seq<Response>, rows: seq<Session>, attempts': nat)
    requires Tally(w, hasStore, attempts0, attempts, stored0, stored, p, ms, turns, replies, rows)
    requires attempts <= attempts' && forall n :: attempts <= n < attempts' ==> !w.llm(n).Reply?
    ensures Tally(w, hasStore, attempts0, attempts', stored0, stored, p, ms, turns, replies, rows)
  {
    NoReplies(w, attempts0, attempts, attempts');
  }

  lemma TallyReply(w: World, hasStore: bool, attempts0: nat, attempts: nat, stored0: seq<Session>, stored: seq<Session>,
                   p: Progress, ms: seq<Message>, turns: nat, replies: seq<Response>, rows: seq<Session>,
                   attempts': nat, r: Response, p': Progress)
    requires Tally(w, hasStore, attempts0, attempts, stored0, stored, p, ms, turns, replies, rows)
    requires attempts < attempts' && w.llm(attempts' - 1) == Reply(r)
    requires forall n :: attempts <= n < attempts' - 1 ==> !w.llm(n).Reply?
    requires p' == p.(input := p.input + r.inputTokens, output := p.output + r.outputTokens,
                      text := if r.text != "" then r.text else p.text)
    ensures Tally(w, hasStore, attempts0, attempts', stored0, stored, p', ms, turns, replies + [r], rows)
  {
    NoReplies(w, attempts0, attempts, attempts' - 1);
    TotalsAppend(replies, r);
    if hasStore {
      RecordedStays(rows, ms, replies, w.price, turns, ms, replies + [r]);
    }
  }

  /** More messages: the rows stored so far remain the run's past. */
  lemma TallyMessages(w: World, hasStore: bool, attempts0: nat, attempts: nat, stored0: seq<Session>, stored: seq<Session>,
                      p: Progress, ms: seq<Message>, turns: nat, replies: seq<Response>, rows: seq<Session>,
                      ms': seq<Message>)
    requires Tally(w, hasStore, attempts0, attempts, stored0, stored, p, ms, turns, replies, rows) && ms <= ms'
    ensures Tally(w, hasStore, attempts0, attempts, stored0, stored, p, ms', turns, replies, rows)
  {
    if hasStore {
      RecordedStays(rows, ms, replies, w.price, turns, ms', replies);
    }
  }

  function NextCheckpoint(s: Session, ms: seq<Message>, p: Progress, w: World): Session {
    s.(messages := ms, turns := s.turns + 1, toolCalls := p.toolCalls, input := p.input, output := p.output,
       cost := w.price(p.input, p.output))
  }

  /** The checkpoint after a turn. */
  lemma TallyCheckpoint(w: World, hasStore: bool, attempts0: nat, attempts: nat, stored0: seq<Session>, stored: seq<Session>,
                        p: Progress, ms: seq<Message>, turns: nat, replies: seq<Response>, rows: seq<Session>)
    requires Tally(w, hasStore, attempts0, attempts, stored0, stored, p, ms, turns, replies, rows)
    requires |ms| == 3 + 2 * turns && |replies| == turns + 1 && p.toolCalls == |CallsIn(ms)|
    ensures var row := NextCheckpoint(p.session, ms, p, w);
            var more := if hasStore then [row] else [];
            Tally(w, hasStore, attempts0, attempts, stored0, stored + more,
                  if hasStore then p.(session := row) else p, ms, turns + 1, replies, rows + more)
  {
    if hasStore {
      LastRow(rows, ms, replies, w.price, turns);
      RecordTurn(rows, ms, replies, w.price, turns, ms, replies, NextCheckpoint(p.session, ms, p, w));
    } else {
      assert stored + [] == stored;
    }
  }

  class ClaudeClient {
    const world: World
    const hasExecutor: bool
    const hasHooks: bool
    const hasStore: bool
    const maxRetries: int
    // how far the environment has been consumed
    var readings: nat
    var attempts: nat
    var rulings: nat
    // what the client did
    var slept: seq<nat>
    var executed: seq<ToolCall>
    var posted: seq<ToolCall>
    var stored: seq<Session>

    constructor (world: World, hasExecutor: bool, hasHooks: bool, hasStore: bool, maxRetries: int := 3)
      ensures this.world == world && this.hasExecutor == hasExecutor && this.hasHooks == hasHooks
      ensures this.hasStore == hasStore && this.maxRetries == maxRetries
      ensures attempts == rulings == readings == 0
      ensures slept == [] && executed == posted == [] && stored == []
    {
      this.world, this.hasExecutor, this.hasHooks := world, hasExecutor, hasHooks;
      this.hasStore, this.maxRetries := hasStore, maxRetries;
      readings, attempts, rulings := 0, 0, 0;
      slept, executed, posted, stored := [], [], [], [];
    }

    ghost function Now(): Books
      reads this
    {
      Books(attempts, rulings, executed, posted, stored)
    }

    ghost function Here(): Cursor
      reads this
    {
      Cursor(readings, attempts, rulings, |executed|)
    }

    /** Retries transient errors with backoff; the first reply or fatal error
        ends the call. */
    method CallLlmWithRetry() returns (outcome: Option<Response>)
      modifies this`attempts, this`slept
      ensures old(attempts) <= attempts <= old(attempts) + Max0(maxRetries)
      ensures outcome.Some? ==>
                && attempts > old(attempts) && world.llm(attempts - 1) == Reply(outcome.value)
                && forall n :: old(attempts) <= n < attempts - 1 ==> world.llm(n).Transient?
      // it fails at a fatal error at once, or when every attempt was used up on transient ones
      ensures outcome.None? ==>
                && (forall n :: old(attempts) <= n < attempts - 1 ==> world.llm(n).Transient?)
                && ((attempts > old(attempts) && world.llm(attempts - 1).Fatal?)
                    || (attempts == old(attempts) + Max0(maxRetries)
                        && (attempts > old(attempts) ==> world.llm(attempts - 1).Transient?)))
      ensures (outcome, attempts) == AskModel(world, old(attempts), Max0(maxRetries))
      ensures slept == old(slept) + Backoffs(Max0(attempts - old(attempts) - 1))
    {
      var attempt := 0;
      while attempt < maxRetries
        invariant 0 <= attempt <= Max0(maxRetries)
        invariant attempts == old(attempts) + attempt
        invariant forall n :: old(attempts) <= n < attempts ==> world.llm(n).Transient?
        invariant AskModel(world, old(attempts), Max0(maxRetries)) == AskModel(world, attempts, Max0(maxRetries) - attempt)
        invariant slept == old(slept) + Backoffs(if attempt < maxRetries then attempt else Max0(attempt - 1))
      {
        var answer := world.llm(attempts);
        attempts := attempts + 1;
        match answer {
          case Reply(r) => return Some(r);
          case Fatal(_) => return None;
          case Transient(_) =>
            if attempt < maxRetries - 1 {
              slept := slept + [Delay(attempt)];
            }
        }
        attempt := attempt + 1;
      }
      return None;
    }

    /** _execute_tool and the post-hook: what the executor returns or raises, or a
        fixed answer without one; the post-hook hears of what returned. */
    method ExecuteTool(call: ToolCall, governed: bool) returns (outcome: ToolOutcome)
      modifies this`executed, this`posted
      ensures executed == old(executed) + [call]
      ensures outcome == if hasExecutor then world.run(|old(executed)|) else Output(NO_EXECUTOR)
      ensures posted == old(posted) + (if governed && outcome.Output? then [call] else [])
    {
      outcome := Output(NO_EXECUTOR);
      if hasExecutor {
        outcome := world.run(|executed|);
      }
      executed := executed + [call];
      if governed && outcome.Output? {
        posted := posted + [call];
      }
    }

    /** The inner loop: rules on, executes and answers the calls of one reply. */
    method ProcessToolCalls(calls: seq<ToolCall>, governed: bool)
      returns (results: seq<ToolResult>, crash: Option<bool>, ghost done: nat, ghost made: seq<ToolCall>)
      modifies this`rulings, this`executed, this`posted
      ensures done <= |calls| && (crash.None? <==> done == |calls|)
      ensures rulings == (if governed then old(rulings) + done + (if crash.Some? then 1 else 0) else old(rulings))
      // the calls before `done` were ruled on, executed and answered
      ensures results == AnswersFor(world, governed, old(rulings), hasExecutor, |old(executed)|, calls[..done])
      ensures posted == old(posted)
                        + (if governed then LetThrough(world, governed, old(rulings), calls[..done]) else [])
      ensures executed == old(executed) + LetThrough(world, governed, old(rulings), calls[..done])
                          + (if crash.Some? then [calls[done]] else [])
      ensures crash.Some? ==>
                && hasExecutor
                && var n := |old(executed)| + |LetThrough(world, governed, old(rulings), calls[..done])|;
                && world.run(n).Raised? && crash == Some(world.run(n).timeout)
      // the first call let through that raises crashes the run, and nothing else does
      ensures CrashIn(world, governed, old(rulings), hasExecutor, |old(executed)|, calls)
              == if crash.Some? then Some(done) else None
      ensures hasExecutor ==> RanWell(world, |old(executed)|, if crash.Some? then |executed| - 1 else |executed|)
      // each call before `done` gets what its own ruling and its own execution say
      ensures AnsweredAsRuled(world, governed, old(rulings), hasExecutor, |old(executed)|, calls[..done], results)
      ensures executed == old(executed) + made + (if crash.Some? then [calls[done]] else [])
      ensures MadeAsRuled(world, governed, old(rulings), calls[..done], made)
      ensures crash.Some? ==> Permits(world, governed, old(rulings), done)
    {
      hide LetThrough, AnswersFor, CrashIn, MadeAsRuled, AnsweredAsRuled, PermittedBefore;
      results, crash, done, made := [], None, 0, [];
      var i := 0;
      NoCalls(world, governed, rulings, hasExecutor, |executed|);
      NoCrashYet(world, governed, rulings, hasExecutor, |executed|);
      while i < |calls|
        invariant 0 <= i <= |calls| && done == i
        invariant rulings == (if governed then old(rulings) + i else old(rulings))
        invariant results == AnswersFor(world, governed, old(rulings), hasExecutor, |old(executed)|, calls[..i])
        invariant executed == old(executed) + LetThrough(world, governed, old(rulings), calls[..i])
        invariant posted == old(posted)
                            + (if governed then LetThrough(world, governed, old(rulings), calls[..i]) else [])
        invariant CrashIn(world, governed, old(rulings), hasExecutor, |old(executed)|, calls[..i]) == None
        invariant hasExecutor ==> RanWell(world, |old(executed)|, |executed|)
      {
        var call := calls[i];
        assert calls[..i + 1] == calls[..i] + [call];
        OneMoreCall(world, governed, old(rulings), hasExecutor, |old(executed)|, calls[..i], call);
        CrashInMore(world, governed, old(rulings), hasExecutor, |old(executed)|, calls[..i], call);
        var ruling := Proceed;
        if governed {
          ruling := world.rule(rulings);
          rulings := rulings + 1;
        }
        assert ruling == RulingAt(world, governed, old(rulings), i);
        match ruling {
          case Deny(reason) =>
            results := results + [ToolResult(call.id, Blocked(reason), true)];
          case Defer(reason, id) =>
            results := results + [ToolResult(call.id, Awaiting(reason, id), true)];
          case Proceed =>
            var outcome := ExecuteTool(call, governed);
            match outcome {
              case Raised(timedOut, _) =>
                CrashStays(world, governed, old(rulings), hasExecutor, |old(executed)|, calls, i + 1);
                crash := Some(timedOut);
                made := LetThrough(world, governed, old(rulings), calls[..i]);
                CallsAreRuled(world, governed, old(rulings), hasExecutor, |old(executed)|, calls[..i]);
                return;
              case Output(json) =>
                results := results + [ToolResult(call.id, Result(json), false)];
            }
        }
        i := i + 1;
        done := i;
      }
      assert calls[..|calls|] == calls;
      made := LetThrough(world, governed, old(rulings), calls);
      CallsAreRuled(world, governed, old(rulings), hasExecutor, |old(executed)|, calls);
    }

    /** What follows a reply that came: it ends the run, or its calls are made and
        the turn is checkpointed. */
    method AfterReply(messages: seq<Message>, p: Progress, response: Response, governed: bool,
                      ghost s0: Books, ghost turns: nat, ghost replies: seq<Response>, ghost rows: seq<Session>)
      returns (stop: Option<Exit>, messages': seq<Message>, p': Progress, ghost dangling: nat, ghost rows': seq<Session>)
      requires Tally(world, hasStore, s0.attempts, attempts, s0.stored, stored, p, messages, turns, replies + [response], rows)
      requires InRun(world, governed, hasExecutor, s0.rulings, s0.executed, s0.posted, messages, turns, replies,
                     executed, posted, rulings)
      requires p.toolCalls == |CallsIn(messages)|
      modifies this`rulings, this`executed, this`posted, this`stored
      ensures messages <= messages'
      ensures stop.None? ==>
                && !Final(response)
                && Between(world, governed, hasExecutor, hasStore, s0, Now(), p', messages', turns + 1, replies + [response], rows')
      ensures stop.Some? ==>
                (stop.value.Done? || stop.value.Crash?) &&
                Stopped(world, governed, hasExecutor, hasStore, s0, Now(), stop.value, p', messages', turns,
                        replies + [response], dangling, rows')
      ensures TurnAfter(world, governed, hasExecutor, old(rulings), |old(executed)|, response, readings, attempts)
              == if stop.Some? then Stops(stop.value) else Goes(Here())
    {
      hide Tally, InRun, CallsIn, WellFormed, Dangles, LetThrough, TurnAfter, Final, Between, Stopped;
      stop, messages', p', dangling, rows' := None, messages, p, 0, rows;
      InRunShape(world, governed, hasExecutor, s0.rulings, s0.executed, s0.posted, messages, turns, replies,
                 executed, posted, rulings);
      ghost var replies' := replies + [response];
      assert replies'[..turns] == replies;
      FinalTurn(world, governed, hasExecutor, rulings, |executed|, response, readings, attempts);
      if response.endTurn || response.calls == [] {
        stop := Some(Done);
        StoppedWhen(world, governed, hasExecutor, hasStore, s0, Now(), Done, p, messages, turns, replies', 0, rows);
        return;
      }
      var crash;
      messages', crash, dangling := ToolTurn(messages, response, governed, turns, replies, s0.rulings, s0.executed, s0.posted);
      TallyMessages(world, hasStore, s0.attempts, attempts, s0.stored, stored, p, messages, turns, replies', rows, messages');
      if crash.Some? {
        assert messages'[..|messages'| - 1] == messages;
        stop := Some(Crash(crash.value));
        StoppedWhen(world, governed, hasExecutor, hasStore, s0, Now(), stop.value, p, messages', turns, replies', dangling, rows);
        return;
      }
      InRunShape(world, governed, hasExecutor, s0.rulings, s0.executed, s0.posted, messages', turns + 1, replies',
                 executed, posted, rulings);
      p', rows' := Checkpoint(p.(toolCalls := p.toolCalls + |response.calls|), messages', p.toolCalls,
                              s0, turns, replies', rows);
      BetweenWhen(world, governed, hasExecutor, hasStore, s0, Now(), p', messages', turns + 1, replies', rows');
    }

    /** One turn of the loop.  It stops the run on a timeout, when the model does
        not answer, on a final reply, or on a crash. */
    method OneTurn(messages: seq<Message>, p: Progress, startTime: real, timeoutSeconds: real, governed: bool,
                   ghost s0: Books, ghost turns: nat, ghost replies: seq<Response>, ghost rows: seq<Session>)
      returns (stop: Option<Exit>, messages': seq<Message>, p': Progress, ghost replies': seq<Response>,
               ghost dangling: nat, ghost rows': seq<Session>)
      requires Between(world, governed, hasExecutor, hasStore, s0, Now(), p, messages, turns, replies, rows)
      modifies this`readings, this`attempts, this`rulings, this`slept, this`executed, this`posted, this`stored
      ensures old(attempts) <= attempts <= old(attempts) + Max0(maxRetries) && readings == old(readings) + 1
      ensures messages <= messages' && |replies| == turns <= |replies'| && replies'[..turns] == replies
      ensures stop.None? ==>
                && |replies'| == turns + 1 && !Final(replies'[turns])
                && Between(world, governed, hasExecutor, hasStore, s0, Now(), p', messages', turns + 1, replies', rows')
      ensures stop.Some? ==>
                Stopped(world, governed, hasExecutor, hasStore, s0, Now(), stop.value, p', messages', turns, replies',
                        dangling, rows')
      ensures stop == Some(Timeout) <==> world.clock(old(readings)) - startTime > timeoutSeconds
      ensures stop == Some(LlmFailed) ==> maxRetries <= 0 || (attempts > 0 && !world.llm(attempts - 1).Reply?)
      // what the environment calls for
      ensures NextTurn(world, Settings(governed, hasExecutor, maxRetries, startTime, timeoutSeconds), old(Here()))
              == if stop.Some? then Stops(stop.value) else Goes(Here())
    {
      hide Tally, InRun, CallsIn, AskModel, TurnAfter, Final, Between, Stopped, Backoffs, NextTurn;
      stop, messages', p', replies', dangling, rows' := None, messages, p, replies, 0, rows;
      BetweenMeans(world, governed, hasExecutor, hasStore, s0, Now(), p, messages, turns, replies, rows);
      ghost var c, s := Here(), Settings(governed, hasExecutor, maxRetries, startTime, timeoutSeconds);
      assert replies[..turns] == replies;
      var now := world.clock(readings);
      readings := readings + 1;
      if now - startTime > timeoutSeconds {
        stop := Some(Timeout);
        NextIsTimeout(world, s, c);
        StoppedWhen(world, governed, hasExecutor, hasStore, s0, Now(), Timeout, p, messages, turns, replies, 0, rows);
        return;
      }
      var answer := CallLlmWithRetry();
      NextIsAnswered(world, s, c, answer, attempts);
      if answer.None? {
        TallyNoReply(world, hasStore, s0.attempts, old(attempts), s0.stored, stored, p, messages, turns, replies, rows, attempts);
        stop := Some(LlmFailed);
        StoppedWhen(world, governed, hasExecutor, hasStore, s0, Now(), LlmFailed, p, messages, turns, replies, 0, rows);
        return;
      }
      var response := answer.value;
      p' := p.(input := p.input + response.inputTokens, output := p.output + response.outputTokens,
               text := if response.text != "" then response.text else p.text);
      replies' := replies + [response];
      TallyReply(world, hasStore, s0.attempts, old(attempts), s0.stored, stored, p, messages, turns, replies, rows,
                 attempts, response, p');
      stop, messages', p', dangling, rows' := AfterReply(messages, p', response, governed, s0, turns, replies, rows);
    }

    /** The end of a turn: the session row is brought up to date and stored. */
    method Checkpoint(p: Progress, messages: seq<Message>, ghost was: nat, ghost s0: Books, ghost turns: nat,
                      ghost replies: seq<Response>, ghost rows: seq<Session>)
      returns (p': Progress, ghost rows': seq<Session>)
      requires Tally(world, hasStore, s0.attempts, attempts, s0.stored, stored, p.(toolCalls := was), messages, turns,
                     replies, rows)
      requires |messages| == 3 + 2 * turns && |replies| == turns + 1 && p.toolCalls == |CallsIn(messages)|
      modifies this`stored
      ensures Tally(world, hasStore, s0.attempts, attempts, s0.stored, stored, p', messages, turns + 1, replies, rows')
      ensures p' == (if hasStore then p.(session := NextCheckpoint(p.session, messages, p, world)) else p)
    {
      hide Tally, CallsIn;
      p', rows' := p, rows;
      TallyToolCalls(world, hasStore, s0.attempts, attempts, s0.stored, stored, p, messages, turns, replies, rows, was);
      TallyCheckpoint(world, hasStore, s0.attempts, attempts, s0.stored, stored, p, messages, turns, replies, rows);
      if hasStore {
        p' := p.(session := NextCheckpoint(p.session, messages, p, world));
        stored := stored + [p'.session];
        rows' := rows + [p'.session];
      } else {
        assert stored + [] == stored && rows + [] == rows;
      }
    }

    /** _run_sync.  The transcript and the replies received are exposed for the
        contract; `dangling` is the call a crash happened in. */
    method RunSync(prompt: string, maxTurns: int, timeoutSeconds: real, hasContext: bool)
      returns (exit: Exit, result: Option<RunResult>, ghost ms: seq<Message>, ghost turns: nat,
               ghost replies: seq<Response>, ghost dangling: nat, ghost rows: seq<Session>)
      modifies this`readings, this`attempts, this`rulings, this`slept, this`executed, this`posted, this`stored
      // bounds
      ensures old(attempts) <= attempts <= old(attempts) + Max0(maxTurns) * Max0(maxRetries)
      ensures turns <= Max0(maxTurns) && (exit.TurnsExhausted? ==> turns == Max0(maxTurns))
      // the clock is read once at the start and once a turn
      ensures readings == old(readings) + 1 + turns + (if exit.TurnsExhausted? then 0 else 1)
      ensures forall k :: old(readings) < k < readings ==>
                (world.clock(k) - world.clock(old(readings)) > timeoutSeconds <==> exit.Timeout? && k == readings - 1)
      ensures exit.LlmFailed? ==> maxRetries <= 0 || (attempts > 0 && !world.llm(attempts - 1).Reply?)
      // every reply received is accounted for, on every exit
      ensures replies == Replies(world, old(attempts), attempts)
      ensures |replies| == turns + (if exit.Done? || exit.Crash? then 1 else 0)
      ensures exit.Crash? <==> result.None?
      ensures result.Some? ==> Reports(world, exit, result.value, ms, replies)
      ensures result.Some? ==>
                && result.value.status == (if exit.Timeout? then TimedOut else if exit.LlmFailed? then Failed else Completed)
                && result.value.input == InputTotal(replies) && result.value.output == OutputTotal(replies)
                && result.value.toolCalls == |CallsIn(ms)|
      // how it ends is what the environment calls for: the run stops at the first final reply, and at
      // the first execution that raises
      ensures var s := Settings(hasHooks && hasContext, hasExecutor, maxRetries, world.clock(old(readings)), timeoutSeconds);
              exit == Ending(world, s, old(Here()).(readings := old(readings) + 1), maxTurns)
      ensures forall k :: 0 <= k < turns ==> !replies[k].endTurn && replies[k].calls != []
      ensures |replies| == turns + 1 ==> (exit.Done? <==> replies[turns].endTurn || replies[turns].calls == [])
      ensures exit.Crash? <==> hasExecutor && |executed| > |old(executed)| && world.run(|executed| - 1).Raised?
      ensures exit.Crash? ==> exit.timeout == world.run(|executed| - 1).timeout
      // the transcript
      ensures |ms| > 0 && ms[0] == Prompt(prompt)
      ensures !exit.Crash? ==>
                InRun(world, hasHooks && hasContext, hasExecutor, old(rulings), old(executed), old(posted),
                      ms, turns, replies[..turns], executed, posted, rulings)
      ensures exit.Crash? ==>
                && |ms| > 0 && WellFormed(ms[..|ms| - 1], turns)
                && Dangles(world, hasHooks && hasContext, old(rulings), old(executed), old(posted), ms, dangling,
                           executed, posted)
      // what was denied is answered so and never executed, and likewise what was deferred; every other call was
      // executed, in order, answered with what its execution returned, and reported to the post-hook
      ensures old(executed) <= executed
      ensures !exit.Crash? ==>
                var governed, made := hasHooks && hasContext, executed[|old(executed)|..];
                && MadeAsRuled(world, governed, old(rulings), CallsIn(ms), made)
                && AnsweredAsRuled(world, governed, old(rulings), hasExecutor, |old(executed)|, CallsIn(ms), ResultsIn(ms))
                && posted == old(posted) + (if governed then made else [])
                && rulings == old(rulings) + (if governed then |CallsIn(ms)| else 0)
      ensures exit.Crash? ==>
                && ms[|ms| - 1].Assistant? && dangling < |ms[|ms| - 1].response.calls| && |executed| > |old(executed)|
                && var governed, made := hasHooks && hasContext, executed[|old(executed)|..|executed| - 1];
                   var last, front := ms[|ms| - 1].response.calls, CallsIn(ms[..|ms| - 1]);
                && executed[|executed| - 1] == last[dangling] && Permits(world, governed, old(rulings), |front| + dangling)
                && MadeAsRuled(world, governed, old(rulings), front + last[..dangling], made)
                && AnsweredAsRuled(world, governed, old(rulings), hasExecutor, |old(executed)|, front, ResultsIn(ms))
                && posted == old(posted) + (if governed then made else [])
      // the session store
      ensures stored == old(stored) + rows && (!hasStore ==> rows == [])
      ensures hasStore ==> Recorded(rows, ms, replies, world.price, turns, FinalRow(exit, result))
      ensures hasStore ==> |rows| > 0 && (rows[|rows| - 1].status.Ended? <==> exit.Timeout? || exit.LlmFailed? || exit.Done?)
      ensures hasStore && rows[|rows| - 1].status.Ended? ==> rows[|rows| - 1].status == Ended(result.value.status)
    {
      hide Tally, InRun, CallsIn, WellFormed, Dangles, Recorded, Reports, Replies, InputTotal, OutputTotal, LastText,
        NextTurn, Ending, Final, Between, Stopped, OnTime, NoneFinal, MadeAsRuled, AnsweredAsRuled, Permits, ResultsIn;
      var governed := hasHooks && hasContext;
      var messages := [Prompt(prompt)];
      var startTime := world.clock(readings);
      readings := readings + 1;
      var p := Progress(0, 0, 0, "", Session(Running, messages, 0, 0, 0, 0, 0.0));
      ghost var s0 := Now();
      var s := Settings(governed, hasExecutor, maxRetries, startTime, timeoutSeconds);
      rows := if hasStore then [p.session] else [];
      if hasStore {
        stored := stored + [p.session];
      }
      assert stored == s0.stored + rows;
      BetweenAtStart(world, governed, hasExecutor, hasStore, s0, Now(), p, prompt, rows);
      exit, messages, p, turns, replies, dangling, rows := TakeTurns(messages, p, maxTurns, s, s0, rows);
      ms := messages;
      RunFacts(world, governed, hasExecutor, hasStore, s0, Now(), exit, p, ms, turns, replies, dangling, rows);
      OnTimeMeans(world, s, old(readings) + 1, readings, exit, replies, turns);
      if exit.Crash? {
        CrashIsRuled(world, governed, s0.rulings, s0.executed, s0.posted, ms, dangling, executed, posted);
      } else {
        RunIsRuled(world, governed, hasExecutor, s0.rulings, s0.executed, s0.posted, ms, turns, replies[..turns],
                   executed, posted, rulings);
      }
      result := Finish(exit, p, ms, turns, replies, rows);
      if !exit.TurnsExhausted? && !exit.Crash? && hasStore {
        rows := rows + [stored[|stored| - 1]];
      }
    }

    /** The loop over turns. */
    method TakeTurns(messages: seq<Message>, p: Progress, maxTurns: int, s: Settings, ghost s0: Books,
                     ghost rows: seq<Session>)
      returns (exit: Exit, messages': seq<Message>, p': Progress, ghost turns: nat, ghost replies: seq<Response>,
               ghost dangling: nat, ghost rows': seq<Session>)
      requires s.hasExecutor == hasExecutor && s.maxRetries == maxRetries && |messages| > 0 && s0.attempts == attempts
      requires Between(world, s.governed, hasExecutor, hasStore, s0, Now(), p, messages, 0, [], rows)
      modifies this`readings, this`attempts, this`rulings, this`slept, this`executed, this`posted, this`stored
      ensures messages <= messages'
      ensures s0.attempts <= attempts <= s0.attempts + Max0(maxTurns) * Max0(maxRetries)
      ensures turns <= Max0(maxTurns) && (exit.TurnsExhausted? ==> turns == Max0(maxTurns))
      ensures readings == old(readings) + turns + (if exit.TurnsExhausted? then 0 else 1)
      ensures OnTime(world, s, old(readings), readings, exit)
      ensures exit.LlmFailed? ==> maxRetries <= 0 || (attempts > 0 && !world.llm(attempts - 1).Reply?)
      ensures NoneFinal(replies, turns)
      ensures exit == Ending(world, s, old(Here()), maxTurns)
      ensures exit.TurnsExhausted? ==>
                Between(world, s.governed, hasExecutor, hasStore, s0, Now(), p', messages', turns, replies, rows')
      ensures !exit.TurnsExhausted? ==>
                Stopped(world, s.governed, hasExecutor, hasStore, s0, Now(), exit, p', messages', turns, replies, dangling,
                        rows')
    {
      hide NextTurn, Ending, Final, Between, Stopped, OnTime, NoneFinal;
      messages', p', turns, replies, dangling, rows', exit := messages, p, 0, [], 0, rows, TurnsExhausted;
      NothingYet(world, s, readings);
      ghost var here0 := Here();
      var turn := 0;
      while turn < maxTurns && exit.TurnsExhausted?
        invariant 0 <= turn <= Max0(maxTurns) && messages <= messages'
        invariant readings == old(readings) + turn
        invariant turns == (if exit.TurnsExhausted? then turn else turn - 1)
        invariant s0.attempts <= attempts <= s0.attempts + turn * Max0(maxRetries)
        invariant NoneFinal(replies, turns)
        invariant OnTime(world, s, old(readings), readings, exit)
        invariant exit.LlmFailed? ==> maxRetries <= 0 || (attempts > 0 && !world.llm(attempts - 1).Reply?)
        invariant exit.TurnsExhausted? ==>
                    && Between(world, s.governed, hasExecutor, hasStore, s0, Now(), p', messages', turns, replies, rows')
                    && Ending(world, s, Here(), maxTurns - turn) == Ending(world, s, here0, maxTurns)
        invariant !exit.TurnsExhausted? ==>
                    && Stopped(world, s.governed, hasExecutor, hasStore, s0, Now(), exit, p', messages', turns, replies,
                               dangling, rows')
                    && exit == Ending(world, s, here0, maxTurns)
        decreases maxTurns - turn
      {
        MulSuccessor(turn, maxTurns, maxRetries);
        EndingNext(world, s, Here(), maxTurns - turn);
        ghost var replies1 := replies;
        var stop;
        stop, messages', p', replies, dangling, rows' :=
          OneTurn(messages', p', s.start, s.timeout, s.governed, s0, turns, replies, rows');
        turn := turn + 1;
        match stop {
          case Some(e) =>
            StoppedNotExhausted(world, s.governed, hasExecutor, hasStore, s0, Now(), e, p', messages', turns, replies,
                                dangling, rows');
            exit := e;
          case None => turns := turns + 1;
        }
        NoneFinalMore(replies1, replies, turns);
        OneMoreReading(world, s, old(readings), readings - 1, exit);
      }
      MulMonotone(turn, Max0(maxTurns), Max0(maxRetries));
      EndingAtZero(world, s, Here(), maxTurns - turn);
    }

    /** The return of each exit: the session is finalized on all but two. */
    method Finish(exit: Exit, p: Progress, ghost ms: seq<Message>, ghost turns: nat, ghost replies: seq<Response>,
                  ghost rows: seq<Session>) returns (result: Option<RunResult>)
      requires p.input == InputTotal(replies) && p.output == OutputTotal(replies) && p.text == LastText(replies)
      requires !exit.Crash? ==> p.toolCalls == |CallsIn(ms)|
      requires hasStore ==>
                 && Recorded(rows, ms, replies, world.price, turns, None)
                 && |rows| == turns + 1 && p.session == rows[turns] && p.session.turns == turns
      modifies this`stored
      ensures exit.Crash? <==> result.None?
      ensures result.Some? ==> Reports(world, exit, result.value, ms, replies)
      ensures result.Some? ==>
                && result.value.status == (if exit.Timeout? then TimedOut else if exit.LlmFailed? then Failed else Completed)
                && result.value.input == InputTotal(replies) && result.value.output == OutputTotal(replies)
                && result.value.toolCalls == |CallsIn(ms)|
      ensures hasStore && Closed(exit) ==> |stored| > 0 && stored[|stored| - 1].status == Ended(result.value.status)
      ensures !(Closed(exit) && hasStore) ==> stored == old(stored)
      ensures Closed(exit) && hasStore ==>
                && |stored| == |old(stored)| + 1 && stored[..|old(stored)|] == old(stored)
      ensures hasStore ==>
                var added := if Closed(exit) then [stored[|stored| - 1]] else [];
                && Recorded(rows + added, ms, replies, world.price, turns, FinalRow(exit, result))
                && ((rows + added)[|rows + added| - 1].status.Ended? <==> Closed(exit))
    {
      hide Recorded, CallsIn, InputTotal, OutputTotal, LastText;
      assert rows + [] == rows;
      if exit.Crash? {
        result := None;
      } else {
        var r := Report(exit, p.text, p.toolCalls, p.input, p.output, ms, replies);
        result := Some(r);
        if !exit.TurnsExhausted? && hasStore {
          var final := FinalizedSession(p.session, r);
          RecordEnd(rows, ms, replies, world.price, turns, r, final);
          LastRow(rows, ms, replies, world.price, turns);
          stored := stored + [final];
        }
      }
      if hasStore {
        RowsEnd(rows + if Closed(exit) then [stored[|stored| - 1]] else [], ms, replies, world.price, turns, exit, result);
      }
    }

    /** The dictionary returned on an exit. */
    method Report(exit: Exit, text: string, toolCalls: nat, input: int, output: int,
                  ghost ms: seq<Message>, ghost replies: seq<Response>) returns (r: RunResult)
      requires !exit.Crash? && toolCalls == |CallsIn(ms)| && text == LastText(replies)
      requires input == InputTotal(replies) && output == OutputTotal(replies)
      ensures Reports(world, exit, r, ms, replies) && r.status == StatusOf(exit)
    {
      var shown := if exit.TurnsExhausted? && text == "" then EXHAUSTED else text;
      r := RunResult(StatusOf(exit), shown, toolCalls, input, output, world.price(input, output));
    }

    /** The tail of a turn: the reply joins the transcript, its calls are
        processed, and their answers follow it. */
    method ToolTurn(messages: seq<Message>, response: Response, governed: bool, ghost turns: nat, ghost replies: seq<Response>,
                    ghost rulings0: nat, ghost executed0: seq<ToolCall>, ghost posted0: seq<ToolCall>)
      returns (messages': seq<Message>, crash: Option<bool>, ghost dangling: nat)
      requires InRun(world, governed, hasExecutor, rulings0, executed0, posted0, messages, turns, replies,
                     executed, posted, rulings)
      modifies this`rulings, this`executed, this`posted
      ensures messages <= messages'
      ensures crash.None? ==>
                && InRun(world, governed, hasExecutor, rulings0, executed0, posted0, messages', turns + 1,
                         replies + [response], executed, posted, rulings)
                && CallsIn(messages') == CallsIn(messages) + response.calls
      ensures crash.Some? ==>
                && messages' == messages + [Assistant(response)] && dangling < |response.calls|
                && Dangles(world, governed, rulings0, executed0, posted0, messages', dangling, executed, posted)
      ensures crash.Some? ==> hasExecutor && |executed| > |executed0| && world.run(|executed| - 1).Raised?
                              && crash == Some(world.run(|executed| - 1).timeout)
      ensures TurnAfter(world, governed, hasExecutor, old(rulings), |old(executed)|, response, readings, attempts)
              == if Final(response) then Stops(Done)
                 else if crash.Some? then Stops(Crash(crash.value))
                 else Goes(Here())
    {
      hide InRun, LetThrough, AnswersFor, CallsIn, CrashIn, RanWell, Dangles, TurnAfter, Final, MadeAsRuled, AnsweredAsRuled;
      ghost var executed1, posted1, rulings1 := executed, posted, rulings;
      messages' := messages + [Assistant(response)];
      var results;
      ghost var made;
      results, crash, dangling, made := ProcessToolCalls(response.calls, governed);
      if crash.Some? {
        CrashedTurn(world, governed, hasExecutor, rulings0, executed0, posted0, messages, turns, replies,
                    executed1, posted1, rulings1, response, dangling, executed, posted);
        AfterCalls(world, governed, hasExecutor, rulings1, |executed1|, response, readings, attempts, dangling);
        return;
      }
      AfterCalls(world, governed, hasExecutor, rulings1, |executed1|, response, readings, attempts, 0);
      assert response.calls[..dangling] == response.calls;
      assert executed == executed1 + LetThrough(world, governed, rulings1, response.calls);
      MessagesAppend(messages, response, results);
      TurnKeepsInRun(world, governed, hasExecutor, rulings0, executed0, posted0, messages, turns, replies,
                     executed1, posted1, rulings1, response, results);
      messages' := messages' + [Results(results)];
      assert messages' == messages + [Assistant(response), Results(results)];
    }
  }

  lemma AfterCalls(w: World, governed: bool, hasExecutor: bool, rulings: nat, ran: nat, r: Response,
                   readings: nat, attempts: nat, k: nat)
    ensures Final(r) ==> TurnAfter(w, governed, hasExecutor, rulings, ran, r, readings, attempts) == Stops(Done)
    ensures !Final(r) && CrashIn(w, governed, rulings, hasExecutor, ran, r.calls) == None ==>
              TurnAfter(w, governed, hasExecutor, rulings, ran, r, readings, attempts)
              == Goes(Cursor(readings, attempts, After(governed, rulings, r.calls),
                             ran + |LetThrough(w, governed, rulings, r.calls)|))
    ensures !Final(r) && CrashIn(w, governed, rulings, hasExecutor, ran, r.calls) == Some(k) ==>
              && k < |r.calls|
              && var raised := w.run(ran + |LetThrough(w, governed, rulings, r.calls[..k])|);
                 raised.Raised? ==>
                   TurnAfter(w, governed, hasExecutor, rulings, ran, r, readings, attempts) == Stops(Crash(raised.timeout))
  {
    hide CrashIn, LetThrough;
  }

  lemma FinalTurn(w: World, governed: bool, hasExecutor: bool, rulings: nat, ran: nat, r: Response,
                  readings: nat, attempts: nat)
    ensures Final(r) <==> r.endTurn || r.calls == []
    ensures Final(r) ==> TurnAfter(w, governed, hasExecutor, rulings, ran, r, readings, attempts) == Stops(Done)
  {
  }

  /** What _finalize_session stores. */
  function FinalizedSession(session: Session, r: RunResult): Session {
    session.(status := Ended(r.status), input := r.input, output := r.output, cost := r.cost, toolCalls := r.toolCalls)
  }

  /** A run is finalized on three of its exits: when the turns are exhausted, or
      an exception passes through, the stored session stays "running". */
  function FinalRow(exit: Exit, result: Option<RunResult>): Option<RunResult> {
    match exit
    case TurnsExhausted => None
    case Crash(_) => None
    case _ => result
  }

  ghost predicate NoneFinal(replies: seq<Response>, turns: nat) {
    turns <= |replies| && forall k :: 0 <= k < turns ==> !Final(replies[k])
  }

  lemma NoneFinalMore(before: seq<Response>, replies: seq<Response>, turns: nat)
    requires NoneFinal(before, |before|) && turns <= |replies| && |before| <= turns <= |before| + 1
    requires replies[..|before|] == before
    requires turns == |before| + 1 ==> !Final(replies[|before|])
    ensures NoneFinal(replies, turns)
  {
    forall k | 0 <= k < turns ensures !Final(replies[k]) {
      if k < |before| {
        assert replies[k] == replies[..|before|][k];
      }
    }
  }

  /** Of the readings taken since the start, only the one that timed out was late. */
  ghost predicate OnTime(w: World, s: Settings, from: nat, upto: nat, exit: Exit) {
    forall k :: from <= k < upto ==> (w.clock(k) - s.start > s.timeout <==> exit.Timeout? && k == upto - 1)
  }

  lemma NothingYet(w: World, s: Settings, from: nat)
    ensures OnTime(w, s, from, from, TurnsExhausted) && NoneFinal([], 0)
  {
  }

  lemma OneMoreReading(w: World, s: Settings, from: nat, upto: nat, exit: Exit)
    requires OnTime(w, s, from, upto, TurnsExhausted)
    requires w.clock(upto) - s.start > s.timeout <==> exit.Timeout?
    ensures OnTime(w, s, from, upto + 1, exit)
  {
  }

  lemma OnTimeMeans(w: World, s: Settings, from: nat, upto: nat, exit: Exit, replies: seq<Response>, turns: nat)
    requires OnTime(w, s, from, upto, exit) && NoneFinal(replies, turns)
    ensures forall k :: from <= k < upto ==> (w.clock(k) - s.start > s.timeout <==> exit.Timeout? && k == upto - 1)
    ensures turns <= |replies| && forall k :: 0 <= k < turns ==> !replies[k].endTurn && replies[k].calls != []
    ensures |replies| == turns + 1 ==> (Final(replies[turns]) <==> replies[turns].endTurn || replies[turns].calls == [])
  {
  }

  lemma EndingNext(w: World, s: Settings, c: Cursor, left: int)
    requires left > 0
    ensures Ending(w, s, c, left) == match NextTurn(w, s, c) case Stops(e) => e case Goes(d) => Ending(w, s, d, left - 1)
  {
  }

  lemma EndingAtZero(w: World, s: Settings, c: Cursor, left: int)
    ensures left <= 0 ==> Ending(w, s, c, left) == TurnsExhausted
  {
  }

  lemma NextIsTimeout(w: World, s: Settings, c: Cursor)
    requires w.clock(c.readings) - s.start > s.timeout
    ensures NextTurn(w, s, c) == Stops(Timeout)
  {
  }

  lemma NextIsAnswered(w: World, s: Settings, c: Cursor, answer: Option<Response>, attempts: nat)
    requires w.clock(c.readings) - s.start <= s.timeout
    requires (answer, attempts) == AskModel(w, c.attempts, Max0(s.maxRetries))
    ensures NextTurn(w, s, c) ==
              if answer.None? then Stops(LlmFailed)
              else TurnAfter(w, s.governed, s.hasExecutor, c.rulings, c.ran, answer.value, c.readings + 1, attempts)
  {
    hide TurnAfter, AskModel;
  }

  // ---- Between turns, and at the end -------------------------------------------------------

  /** What a run has spent, made and stored. */
  datatype Books = Books(attempts: nat, rulings: nat, executed: seq<ToolCall>, posted: seq<ToolCall>, stored: seq<Session>)

  ghost predicate Between(w: World, governed: bool, hasExecutor: bool, hasStore: bool, s0: Books, s1: Books, p: Progress,
                          ms: seq<Message>, turns: nat, replies: seq<Response>, rows: seq<Session>)
  {
    && Tally(w, hasStore, s0.attempts, s1.attempts, s0.stored, s1.stored, p, ms, turns, replies, rows)
    && InRun(w, governed, hasExecutor, s0.rulings, s0.executed, s0.posted, ms, turns, replies,
             s1.executed, s1.posted, s1.rulings)
    && p.toolCalls == |CallsIn(ms)|
  }

  ghost predicate Stopped(w: World, governed: bool, hasExecutor: bool, hasStore: bool, s0: Books, s1: Books, exit: Exit,
                          p: Progress, ms: seq<Message>, turns: nat, replies: seq<Response>, dangling: nat, rows: seq<Session>)
  {
    && exit != TurnsExhausted
    && |replies| == turns + (if exit.Done? || exit.Crash? then 1 else 0)
    && Tally(w, hasStore, s0.attempts, s1.attempts, s0.stored, s1.stored, p, ms, turns, replies, rows)
    && (|replies| == turns + 1 ==> (exit.Done? <==> Final(replies[turns])))
    && (!exit.Crash? ==>
          && InRun(w, governed, hasExecutor, s0.rulings, s0.executed, s0.posted, ms, turns, replies[..turns],
                   s1.executed, s1.posted, s1.rulings)
          && p.toolCalls == |CallsIn(ms)|)
    && (exit.Crash? ==>
          && hasExecutor && |s1.executed| > |s0.executed| && |ms| > 0 && WellFormed(ms[..|ms| - 1], turns)
          && Dangles(w, governed, s0.rulings, s0.executed, s0.posted, ms, dangling, s1.executed, s1.posted)
          && w.run(|s1.executed| - 1).Raised? && exit.timeout == w.run(|s1.executed| - 1).timeout)
  }

  lemma BetweenWhen(w: World, governed: bool, hasExecutor: bool, hasStore: bool, s0: Books, s1: Books, p: Progress,
                    ms: seq<Message>, turns: nat, replies: seq<Response>, rows: seq<Session>)
    requires Tally(w, hasStore, s0.attempts, s1.attempts, s0.stored, s1.stored, p, ms, turns, replies, rows)
    requires InRun(w, governed, hasExecutor, s0.rulings, s0.executed, s0.posted, ms, turns, replies,
                   s1.executed, s1.posted, s1.rulings)
    requires p.toolCalls == |CallsIn(ms)|
    ensures Between(w, governed, hasExecutor, hasStore, s0, s1, p, ms, turns, replies, rows)
  {
    hide Tally, InRun, CallsIn;
  }

  lemma BetweenMeans(w: World, governed: bool, hasExecutor: bool, hasStore: bool, s0: Books, s1: Books, p: Progress,
                     ms: seq<Message>, turns: nat, replies: seq<Response>, rows: seq<Session>)
    requires Between(w, governed, hasExecutor, hasStore, s0, s1, p, ms, turns, replies, rows)
    ensures Tally(w, hasStore, s0.attempts, s1.attempts, s0.stored, s1.stored, p, ms, turns, replies, rows)
    ensures InRun(w, governed, hasExecutor, s0.rulings, s0.executed, s0.posted, ms, turns, replies,
                  s1.executed, s1.posted, s1.rulings)
    ensures p.toolCalls == |CallsIn(ms)| && |replies| == turns
  {
    InRunShape(w, governed, hasExecutor, s0.rulings, s0.executed, s0.posted, ms, turns, replies,
               s1.executed, s1.posted, s1.rulings);
  }

  lemma BetweenAtStart(w: World, governed: bool, hasExecutor: bool, hasStore: bool, s0: Books, s1: Books, p: Progress,
                       prompt: string, rows: seq<Session>)
    requires p == Progress(0, 0, 0, "", Session(Running, [Prompt(prompt)], 0, 0, 0, 0, 0.0))
    requires rows == if hasStore then [p.session] else []
    requires s1 == s0.(stored := s0.stored + rows)
    ensures Between(w, governed, hasExecutor, hasStore, s0, s1, p, [Prompt(prompt)], 0, [], rows)
  {
    hide Tally, InRun;
    RunStarts(w, governed, hasExecutor, s0.rulings, s0.executed, s0.posted, prompt);
    TallyStart(w, hasStore, s0.attempts, s0.stored, p, prompt, rows);
    NoCallsIn(prompt);
  }

  lemma StoppedWhen(w: World, governed: bool, hasExecutor: bool, hasStore: bool, s0: Books, s1: Books, exit: Exit,
                    p: Progress, ms: seq<Message>, turns: nat, replies: seq<Response>, dangling: nat, rows: seq<Session>)
    requires exit != TurnsExhausted && |replies| == turns + (if exit.Done? || exit.Crash? then 1 else 0)
    requires Tally(w, hasStore, s0.attempts, s1.attempts, s0.stored, s1.stored, p, ms, turns, replies, rows)
    requires |replies| == turns + 1 ==> (exit.Done? <==> Final(replies[turns]))
    requires !exit.Crash? ==>
               && InRun(w, governed, hasExecutor, s0.rulings, s0.executed, s0.posted, ms, turns, replies[..turns],
                        s1.executed, s1.posted, s1.rulings)
               && p.toolCalls == |CallsIn(ms)|
    requires exit.Crash? ==>
               && hasExecutor && |s1.executed| > |s0.executed| && |ms| > 0 && WellFormed(ms[..|ms| - 1], turns)
               && Dangles(w, governed, s0.rulings, s0.executed, s0.posted, ms, dangling, s1.executed, s1.posted)
               && w.run(|s1.executed| - 1).Raised? && exit.timeout == w.run(|s1.executed| - 1).timeout
    ensures Stopped(w, governed, hasExecutor, hasStore, s0, s1, exit, p, ms, turns, replies, dangling, rows)
  {
    hide Tally, InRun, CallsIn, WellFormed, Dangles, Final;
  }

  lemma StoppedNotExhausted(w: World, governed: bool, hasExecutor: bool, hasStore: bool, s0: Books, s1: Books, exit: Exit,
                            p: Progress, ms: seq<Message>, turns: nat, replies: seq<Response>, dangling: nat,
                            rows: seq<Session>)
    requires Stopped(w, governed, hasExecutor, hasStore, s0, s1, exit, p, ms, turns, replies, dangling, rows)
    ensures exit != TurnsExhausted
  {
  }

  /** All that a run leaves behind, on every exit. */
  lemma RunFacts(w: World, governed: bool, hasExecutor: bool, hasStore: bool, s0: Books, s1: Books, exit: Exit,
                 p: Progress, ms: seq<Message>, turns: nat, replies: seq<Response>, dangling: nat, rows: seq<Session>)
    requires exit.TurnsExhausted? ==> Between(w, governed, hasExecutor, hasStore, s0, s1, p, ms, turns, replies, rows)
    requires !exit.TurnsExhausted? ==>
               Stopped(w, governed, hasExecutor, hasStore, s0, s1, exit, p, ms, turns, replies, dangling, rows)
    ensures s0.attempts <= s1.attempts && replies == Replies(w, s0.attempts, s1.attempts)
    ensures p.input == InputTotal(replies) && p.output == OutputTotal(replies) && p.text == LastText(replies)
    ensures s1.stored == s0.stored + rows && (!hasStore ==> rows == [])
    ensures hasStore ==>
              && Recorded(rows, ms, replies, w.price, turns, None)
              && |rows| == turns + 1 && p.session == rows[turns] && p.session.turns == turns
    ensures |replies| == turns + (if exit.Done? || exit.Crash? then 1 else 0)
    ensures |replies| == turns + 1 ==> (exit.Done? <==> Final(replies[turns]))
    ensures !exit.Crash? ==>
              && InRun(w, governed, hasExecutor, s0.rulings, s0.executed, s0.posted, ms, turns, replies[..turns],
                       s1.executed, s1.posted, s1.rulings)
              && p.toolCalls == |CallsIn(ms)|
    ensures exit.Crash? ==>
              && |ms| > 0 && WellFormed(ms[..|ms| - 1], turns)
              && Dangles(w, governed, s0.rulings, s0.executed, s0.posted, ms, dangling, s1.executed, s1.posted)
              && exit.timeout == w.run(|s1.executed| - 1).timeout
    ensures exit.Crash? <==> hasExecutor && |s1.executed| > |s0.executed| && w.run(|s1.executed| - 1).Raised?
  {
    hide CallsIn, WellFormed, Dangles, Final, Recorded, Replies, LetThrough, AnswersFor;
    TallyFacts(w, hasStore, s0.attempts, s1.attempts, s0.stored, s1.stored, p, ms, turns, replies, rows);
    if exit.TurnsExhausted? {
      assert |replies| == turns && replies[..turns] == replies;
    }
  }

  /** The last stored row is final exactly on a closed exit. */
  lemma RowsEnd(rows: seq<Session>, ms: seq<Message>, replies: seq<Response>, price: (int, int) -> real, turns: nat,
                exit: Exit, result: Option<RunResult>)
    requires exit.Crash? <==> result.None?
    requires Recorded(rows, ms, replies, price, turns, FinalRow(exit, result))
    ensures |rows| > 0 && (rows[|rows| - 1].status.Ended? <==> Closed(exit))
  {
    if !Closed(exit) {
      assert CheckpointAt(rows[turns], turns, ms, replies, price);
    }
  }

  lemma NoCallsIn(prompt: string)
    ensures CallsIn([Prompt(prompt)]) == []
  {
  }

  lemma InRunShape(w: World, governed: bool, hasExecutor: bool,
                   rulings0: nat, executed0: seq<ToolCall>, posted0: seq<ToolCall>,
                   ms: seq<Message>, turns: nat, replies: seq<Response>,
                   executed: seq<ToolCall>, posted: seq<ToolCall>, rulings: nat)
    requires InRun(w, governed, hasExecutor, rulings0, executed0, posted0, ms, turns, replies, executed, posted, rulings)
    ensures |ms| == 1 + 2 * turns && |replies| == turns && WellFormed(ms, turns)
  {
  }

  lemma TallyToolCalls(w: World, hasStore: bool, attempts0: nat, attempts: nat, stored0: seq<Session>, stored: seq<Session>,
                       p: Progress, ms: seq<Message>, turns: nat, replies: seq<Response>, rows: seq<Session>, was: nat)
    requires Tally(w, hasStore, attempts0, attempts, stored0, stored, p.(toolCalls := was), ms, turns, replies, rows)
    ensures Tally(w, hasStore, attempts0, attempts, stored0, stored, p, ms, turns, replies, rows)
  {
  }

  lemma TallyFacts(w: World, hasStore: bool, attempts0: nat, attempts: nat, stored0: seq<Session>, stored: seq<Session>,
                   p: Progress, ms: seq<Message>, turns: nat, replies: seq<Response>, rows: seq<Session>)
    requires Tally(w, hasStore, attempts0, attempts, stored0, stored, p, ms, turns, replies, rows)
    ensures attempts0 <= attempts && replies == Replies(w, attempts0, attempts)
    ensures p.input == InputTotal(replies) && p.output == OutputTotal(replies) && p.text == LastText(replies)
    ensures stored == stored0 + rows && (!hasStore ==> rows == [])
    ensures hasStore ==>
              && Recorded(rows, ms, replies, w.price, turns, None)
              && |rows| == turns + 1 && p.session == rows[turns] && p.session.turns == turns
  {
    if hasStore {
      LastRow(rows, ms, replies, w.price, turns);
    }
  }

  lemma MulMonotone(a: nat, b: nat, c: nat)
    requires a <= b
    ensures a * c <= b * c
  {
  }

  lemma MulSuccessor(turn: nat, maxTurns: int, maxRetries: int)
    requires turn < maxTurns
    ensures (turn + 1) * Max0(maxRetries) == turn * Max0(maxRetries) + Max0(maxRetries)
    ensures (turn + 1) * Max0(maxRetries) <= Max0(maxTurns) * Max0(maxRetries)
  {
  }

  lemma TotalsAppend(rs: seq<Response>, r: Response)
    ensures InputTotal(rs + [r]) == InputTotal(rs) + r.inputTokens
    ensures OutputTotal(rs + [r]) == OutputTotal(rs) + r.outputTokens
    ensures LastText(rs + [r]) == if r.text != "" then r.text else LastText(rs)
  {
    assert (rs + [r])[..|rs|] == rs;
  }
}
