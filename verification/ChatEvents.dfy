/** Run results as the event streams the chat reads (src/dashboard/chat_events.py). */
module ChatEvents {
  import opened Prelude

  /** An executed tool call; inputs and results are JSON texts. */
  datatype ToolEvent = ToolEvent(name: Option<string>, input: string, result: string, id: Option<string>, isError: bool)

  /** A gated call in either of its shapes; an absent field is "". */
  datatype PendingCall = PendingCall(tool: string, name: string, args: string, arguments: string,
                                     requestId: string, externalRef: string)

  /** What the engine returns; the status is free text here. */
  datatype AgentResult = AgentResult(status: string, toolEvents: seq<ToolEvent>, pending: seq<PendingCall>,
                                     error: string, output: string, tokens: int)

  datatype RunStatus = Done | Suspended | Failed | MaxTurns | Continue

  datatype RunOutcome = RunOutcome(status: RunStatus, toolEvents: seq<ToolEvent>, pending: seq<PendingCall>,
                                   awaitingRemaining: bool, error: string, output: string, tokens: int)

  datatype Event =
    | ToolCall(name: string, input: string, id: Option<string>)
    | ToolResult(name: string, result: string, id: Option<string>, isError: bool)
    | HitlRequest(requestId: string, tool: string, args: string)
    | Error(error: string)
    | TextDelta(content: string)
    | DoneEvent(tokens: int, text: string, status: Option<string>)

  function Or(a: string, b: string): string {
    if a != "" then a else b
  }

  /** _gated_approval_event: the card for one gated call. */
  function Card(p: PendingCall): Event {
    HitlRequest(Or(p.requestId, p.externalRef), Or(p.tool, Or(p.name, "tool")), Or(p.args, p.arguments))
  }

  function NameOf(t: ToolEvent): string {
    if t.name.Some? then t.name.value else "tool"
  }

  function Call(t: ToolEvent): Event {
    ToolCall(NameOf(t), t.input, t.id)
  }

  function Outcome(t: ToolEvent): Event {
    ToolResult(NameOf(t), t.result, t.id, t.isError)
  }

  function Pairs(ts: seq<ToolEvent>): seq<Event> {
    if |ts| == 0 then [] else Pairs(ts[..|ts| - 1]) + [Call(ts[|ts| - 1]), Outcome(ts[|ts| - 1])]
  }

  function Cards(ps: seq<PendingCall>): seq<Event> {
    if |ps| == 0 then [] else Cards(ps[..|ps| - 1]) + [Card(ps[|ps| - 1])]
  }

  function Text(output: string): seq<Event> {
    if output != "" then [TextDelta(output)] else []
  }

  function Failure(error: string): seq<Event> {
    [Error(Or(error, "Run failed"))]
  }

  /** What stands between the tool events and the last event. */
  function AgentTail(r: AgentResult): seq<Event> {
    if r.status == "paused" then Cards(r.pending)
    else if r.status == "failed" then Failure(r.error)
    else Text(r.output)
  }

  function OutcomeTail(o: RunOutcome): seq<Event> {
    match o.status
    case Suspended => if o.awaitingRemaining then [] else Cards(o.pending)
    case Failed => Failure(o.error)
    case _ => Text(o.output)
  }

  function StatusText(s: RunStatus): string {
    match s
    case Done => "done"
    case Suspended => "suspended"
    case Failed => "failed"
    case MaxTurns => "max_turns"
    case Continue => "continue"
  }

  const NOT_FOUND := [Error("No suspended run found for this approval"), DoneEvent(0, "", None)]

  /** agent_result_to_chat_events.  Without a result it takes the status for
      failed, and then asks the missing result for its error: it raises. */
  method AgentResultToChatEvents(result: Option<AgentResult>) returns (events: Option<seq<Event>>)
    ensures events.None? <==> result.None?
    ensures result.Some? ==>
              events.value == Pairs(result.value.toolEvents) + AgentTail(result.value)
                              + [DoneEvent(result.value.tokens, result.value.output, Some(result.value.status))]
  {
    if result.None? {
      return None;
    }
    var r := result.value;
    var es := [];
    for n := 0 to |r.toolEvents|
      invariant es == Pairs(r.toolEvents[..n])
    {
      assert r.toolEvents[..n + 1][..n] == r.toolEvents[..n];
      es := es + [Call(r.toolEvents[n])];
      es := es + [Outcome(r.toolEvents[n])];
    }
    assert r.toolEvents[..|r.toolEvents|] == r.toolEvents;
    if r.status == "paused" {
      es := AppendCards(es, r.pending);
    } else if r.status == "failed" {
      es := es + Failure(r.error);
    } else if r.output != "" {
      es := es + [TextDelta(r.output)];
    }
    events := Some(es + [DoneEvent(r.tokens, r.output, Some(r.status))]);
  }

  method AppendCards(before: seq<Event>, ps: seq<PendingCall>) returns (events: seq<Event>)
    ensures events == before + Cards(ps)
  {
    events := before;
    for n := 0 to |ps|
      invariant events == before + Cards(ps[..n])
    {
      assert ps[..n + 1][..n] == ps[..n];
      events := events + [Card(ps[n])];
    }
    assert ps[..|ps|] == ps;
  }

  /** run_outcome_to_chat_events. */
  method RunOutcomeToChatEvents(outcome: Option<RunOutcome>) returns (events: seq<Event>)
    ensures events == OutcomeEvents(outcome)
  {
    if outcome.None? {
      return NOT_FOUND;
    }
    var o := outcome.value;
    events := [];
    for n := 0 to |o.toolEvents|
      invariant events == Pairs(o.toolEvents[..n])
    {
      assert o.toolEvents[..n + 1][..n] == o.toolEvents[..n];
      events := events + [Call(o.toolEvents[n])];
      events := events + [Outcome(o.toolEvents[n])];
    }
    assert o.toolEvents[..|o.toolEvents|] == o.toolEvents;
    if o.status.Suspended? && !o.awaitingRemaining {
      events := AppendCards(events, o.pending);
    } else if o.status.Failed? {
      events := events + Failure(o.error);
    } else if !o.status.Suspended? {
      if o.output != "" {
        events := events + [TextDelta(o.output)];
      }
    }
    events := events + [DoneEvent(o.tokens, o.output, Some(StatusText(o.status)))];
  }

  function AgentEvents(r: AgentResult): seq<Event> {
    Pairs(r.toolEvents) + AgentTail(r) + [DoneEvent(r.tokens, r.output, Some(r.status))]
  }

  function OutcomeEvents(outcome: Option<RunOutcome>): seq<Event> {
    match outcome
    case None => NOT_FOUND
    case Some(o) => Pairs(o.toolEvents) + OutcomeTail(o) + [DoneEvent(o.tokens, o.output, Some(StatusText(o.status)))]
  }

  // ---- The automaton ------------------------------------------------------------------

  /** Where a reader of the stream is: before any card or text, waiting for the
      result of a call, among the cards, before the last event, or between
      streams. */
  datatype Reader = Tools | Awaiting(name: string, id: Option<string>) | AmongCards | AtEnd | Between | Rejected

  function Next(s: Reader, e: Event): Reader {
    match s
    case Awaiting(name, id) => if e.ToolResult? && e.name == name && e.id == id then Tools else Rejected
    case AmongCards => if e.HitlRequest? then AmongCards else if e.DoneEvent? then Between else Rejected
    case AtEnd => if e.DoneEvent? then Between else Rejected
    case Rejected => Rejected
    case _ =>
      match e
      case ToolCall(name, _, id) => Awaiting(name, id)
      case HitlRequest(_, _, _) => AmongCards
      case Error(_) => AtEnd
      case TextDelta(_) => AtEnd
      case DoneEvent(_, _, _) => Between
      case ToolResult(_, _, _, _) => Rejected
  }

  function Read(s: Reader, es: seq<Event>): Reader {
    if |es| == 0 then s else Next(Read(s, es[..|es| - 1]), es[|es| - 1])
  }

  predicate Accepted(es: seq<Event>) {
    Read(Between, es) == Between
  }

  lemma {:induction false} ReadOn(s: Reader, a: seq<Event>, b: seq<Event>)
    ensures Read(s, a + b) == Read(Read(s, a), b)
  {
    if |b| == 0 {
      assert a + b == a;
    } else {
      assert (a + b)[..|a + b| - 1] == a + b[..|b| - 1];
      ReadOn(s, a, b[..|b| - 1]);
    }
  }

  /** What acceptance means for calls: each is followed at once by its own
      result, and no result stands alone. */
  lemma {:induction false} AcceptedPairsUp(es: seq<Event>, i: nat)
    requires Read(Between, es) != Rejected && i < |es|
    ensures es[i].ToolResult? ==> i > 0 && es[i - 1].ToolCall? && es[i - 1].name == es[i].name && es[i - 1].id == es[i].id
    ensures es[i].ToolCall? && (i + 1 < |es| || Accepted(es)) ==>
              i + 1 < |es| && es[i + 1].ToolResult? && es[i + 1].name == es[i].name && es[i + 1].id == es[i].id
  {
    var front, last := es[..|es| - 1], |es| - 1;
    AwaitingMeansCall(front);
    if i < last {
      AcceptedPairsUp(front, i);
      if i == last - 1 && es[i].ToolCall? {
        assert Read(Between, front) == Awaiting(es[i].name, es[i].id) by {
          assert front[|front| - 1] == es[i];
          assert Read(Between, front) == Next(Read(Between, front[..|front| - 1]), es[i]);
        }
      }
    }
  }

  lemma AwaitingMeansCall(es: seq<Event>)
    ensures Read(Between, es).Awaiting? ==>
              |es| > 0 && es[|es| - 1].ToolCall?
              && es[|es| - 1].name == Read(Between, es).name && es[|es| - 1].id == Read(Between, es).id
  {
  }

  function DoneCount(es: seq<Event>): nat {
    if |es| == 0 then 0 else DoneCount(es[..|es| - 1]) + (if es[|es| - 1].DoneEvent? then 1 else 0)
  }

  lemma {:induction false} DoneCountAdd(a: seq<Event>, b: seq<Event>)
    ensures DoneCount(a + b) == DoneCount(a) + DoneCount(b)
  {
    if |b| == 0 {
      assert a + b == a;
    } else {
      assert (a + b)[..|a + b| - 1] == a + b[..|b| - 1];
      DoneCountAdd(a, b[..|b| - 1]);
    }
  }

  lemma {:induction false} ReadPairs(s: Reader, ts: seq<ToolEvent>)
    requires s.Tools? || s.Between?
    ensures Read(s, Pairs(ts)) == (if |ts| == 0 then s else Tools) && DoneCount(Pairs(ts)) == 0
  {
    if |ts| > 0 {
      var front, last := Pairs(ts[..|ts| - 1]), ts[|ts| - 1];
      ReadPairs(s, ts[..|ts| - 1]);
      assert Pairs(ts) == (front + [Call(last)]) + [Outcome(last)];
      assert (front + [Call(last)])[..|front|] == front;
      assert Pairs(ts)[..|front| + 1] == front + [Call(last)];
    }
  }

  lemma {:induction false} ReadCards(s: Reader, ps: seq<PendingCall>)
    requires s.Tools? || s.Between?
    ensures Read(s, Cards(ps)) == (if |ps| == 0 then s else AmongCards) && DoneCount(Cards(ps)) == 0
  {
    if |ps| > 0 {
      var front := Cards(ps[..|ps| - 1]);
      ReadCards(s, ps[..|ps| - 1]);
      assert Cards(ps)[..|front|] == front;
    }
  }

  predicate IsTail(tail: seq<Event>, ps: seq<PendingCall>) {
    tail == Cards(ps) || tail == [] || (|tail| == 1 && (tail[0].Error? || tail[0].TextDelta?))
  }

  lemma ReadTail(s: Reader, tail: seq<Event>, ps: seq<PendingCall>)
    requires (s.Tools? || s.Between?) && IsTail(tail, ps)
    ensures Read(s, tail) in {s, AmongCards, AtEnd} && DoneCount(tail) == 0
  {
    ReadCards(s, ps);
    if |tail| == 1 {
      assert tail[..0] == [];
    }
  }

  lemma ReadOne(s: Reader, es: seq<Event>, e: Event)
    ensures Read(s, es + [e]) == Next(Read(s, es), e)
    ensures DoneCount(es + [e]) == DoneCount(es) + (if e.DoneEvent? then 1 else 0)
  {
    assert (es + [e])[..|es|] == es;
  }

  /** A stream is accepted and ends in its only done event. */
  lemma StreamAccepted(ts: seq<ToolEvent>, tail: seq<Event>, ps: seq<PendingCall>, done: Event)
    requires IsTail(tail, ps) && done.DoneEvent?
    ensures Accepted(Pairs(ts) + tail + [done]) && DoneCount(Pairs(ts) + tail + [done]) == 1
  {
    hide IsTail, Pairs, Cards, Read, DoneCount;
    ReadPairs(Between, ts);
    ReadTail(Read(Between, Pairs(ts)), tail, ps);
    ReadOn(Between, Pairs(ts), tail);
    DoneCountAdd(Pairs(ts), tail);
    ReadOne(Between, Pairs(ts) + tail, done);
  }

  lemma AgentStreamAccepted(r: AgentResult)
    ensures Accepted(AgentEvents(r)) && DoneCount(AgentEvents(r)) == 1
    ensures AgentEvents(r)[|AgentEvents(r)| - 1] == DoneEvent(r.tokens, r.output, Some(r.status))
  {
    StreamAccepted(r.toolEvents, AgentTail(r), r.pending, DoneEvent(r.tokens, r.output, Some(r.status)));
  }

  lemma OutcomeStreamAccepted(o: Option<RunOutcome>)
    ensures Accepted(OutcomeEvents(o)) && DoneCount(OutcomeEvents(o)) == 1
    ensures OutcomeEvents(o)[|OutcomeEvents(o)| - 1].DoneEvent?
  {
    if o.Some? {
      StreamAccepted(o.value.toolEvents, OutcomeTail(o.value), o.value.pending, DoneEvent(o.value.tokens, o.value.output, Some(StatusText(o.value.status))));
    } else {
      StreamAccepted([], [NOT_FOUND[0]], [], NOT_FOUND[1]);
      assert Pairs([]) + [NOT_FOUND[0]] + [NOT_FOUND[1]] == NOT_FOUND;
    }
  }

  /** A first stream and any number of resumed ones, one after the other. */
  function Conversation(first: AgentResult, resumes: seq<Option<RunOutcome>>): seq<Event> {
    if |resumes| == 0 then AgentEvents(first)
    else Conversation(first, resumes[..|resumes| - 1]) + OutcomeEvents(resumes[|resumes| - 1])
  }

  /** Every conversation is accepted, with exactly one done event a stream. */
  lemma {:induction false} ConversationAccepted(first: AgentResult, resumes: seq<Option<RunOutcome>>)
    ensures Accepted(Conversation(first, resumes))
    ensures DoneCount(Conversation(first, resumes)) == 1 + |resumes|
  {
    AgentStreamAccepted(first);
    if |resumes| > 0 {
      var front, last := resumes[..|resumes| - 1], resumes[|resumes| - 1];
      ConversationAccepted(first, front);
      OutcomeStreamAccepted(last);
      ReadOn(Between, Conversation(first, front), OutcomeEvents(last));
      DoneCountAdd(Conversation(first, front), OutcomeEvents(last));
    }
  }

  // ---- What is shown of which call ------------------------------------------------------------

  function CallsIn(es: seq<Event>): seq<Event> {
    if |es| == 0 then []
    else
      var rest := CallsIn(es[..|es| - 1]);
      if es[|es| - 1].ToolCall? then rest + [es[|es| - 1]] else rest
  }

  function CardsIn(es: seq<Event>): seq<Event> {
    if |es| == 0 then []
    else
      var rest := CardsIn(es[..|es| - 1]);
      if es[|es| - 1].HitlRequest? then rest + [es[|es| - 1]] else rest
  }

  lemma {:induction false} ShownAdd(a: seq<Event>, b: seq<Event>)
    ensures CallsIn(a + b) == CallsIn(a) + CallsIn(b) && CardsIn(a + b) == CardsIn(a) + CardsIn(b)
  {
    if |b| == 0 {
      assert a + b == a;
    } else {
      assert (a + b)[..|a + b| - 1] == a + b[..|b| - 1];
      ShownAdd(a, b[..|b| - 1]);
    }
  }

  function Calls(ts: seq<ToolEvent>): seq<Event> {
    if |ts| == 0 then [] else Calls(ts[..|ts| - 1]) + [Call(ts[|ts| - 1])]
  }

  lemma {:induction false} ShownInPairs(ts: seq<ToolEvent>)
    ensures CallsIn(Pairs(ts)) == Calls(ts) && CardsIn(Pairs(ts)) == []
  {
    if |ts| > 0 {
      var front, last := Pairs(ts[..|ts| - 1]), ts[|ts| - 1];
      ShownInPairs(ts[..|ts| - 1]);
      assert Pairs(ts) == (front + [Call(last)]) + [Outcome(last)];
      assert (front + [Call(last)])[..|front|] == front;
      assert Pairs(ts)[..|front| + 1] == front + [Call(last)];
    }
  }

  lemma {:induction false} ShownInCards(ps: seq<PendingCall>)
    ensures CallsIn(Cards(ps)) == [] && CardsIn(Cards(ps)) == Cards(ps)
  {
    if |ps| > 0 {
      var front := Cards(ps[..|ps| - 1]);
      ShownInCards(ps[..|ps| - 1]);
      assert Cards(ps)[..|front|] == front;
    }
  }

  lemma ShownInStream(ts: seq<ToolEvent>, tail: seq<Event>, ps: seq<PendingCall>, done: Event)
    requires IsTail(tail, ps) && done.DoneEvent?
    ensures CallsIn(Pairs(ts) + tail + [done]) == Calls(ts)
    ensures CardsIn(Pairs(ts) + tail + [done]) == if tail == Cards(ps) then Cards(ps) else []
  {
    ShownInPairs(ts);
    ShownInCards(ps);
    ShownAdd(Pairs(ts), tail);
    ShownAdd(Pairs(ts) + tail, [done]);
    assert [done][..0] == [];
    assert |tail| == 1 ==> tail[..0] == [];
  }

  /** Exactly the executed calls appear as calls, in order, and exactly the gated
      ones of a paused run as cards. */
  lemma AgentStreamShows(r: AgentResult)
    ensures CallsIn(AgentEvents(r)) == Calls(r.toolEvents)
    ensures CardsIn(AgentEvents(r)) == if r.status == "paused" then Cards(r.pending) else []
  {
    var ps := if r.status == "paused" then r.pending else [];
    ShownInStream(r.toolEvents, AgentTail(r), ps, DoneEvent(r.tokens, r.output, Some(r.status)));
  }

  /** Resuming likewise; a run that waits for the rest of its approvals asks for
      none again. */
  lemma OutcomeStreamShows(o: RunOutcome)
    ensures CallsIn(OutcomeEvents(Some(o))) == Calls(o.toolEvents)
    ensures CardsIn(OutcomeEvents(Some(o))) ==
              if o.status.Suspended? && !o.awaitingRemaining then Cards(o.pending) else []
  {
    var ps := if o.status.Suspended? && !o.awaitingRemaining then o.pending else [];
    ShownInStream(o.toolEvents, OutcomeTail(o), ps, DoneEvent(o.tokens, o.output, Some(StatusText(o.status))));
  }

  // ---- The events themselves ------------------------------------------------------------------

  /** A call and its result stand side by side, with the name they were made
      under, or "tool". */
  ghost predicate ShowsTools(es: seq<Event>, ts: seq<ToolEvent>) {
    forall j :: 0 <= j < |ts| ==>
      var t := ts[j];
      var name := if t.name.Some? then t.name.value else "tool";
      2 * j + 1 < |es| && es[2 * j] == ToolCall(name, t.input, t.id)
      && es[2 * j + 1] == ToolResult(name, t.result, t.id, t.isError)
  }

  /** A card takes each field from the first of its two shapes that has one. */
  predicate ShowsCard(e: Event, p: PendingCall) {
    && e.HitlRequest?
    && e.requestId == (if p.requestId != "" then p.requestId else p.externalRef)
    && e.tool == (if p.tool != "" then p.tool else if p.name != "" then p.name else "tool")
    && e.args == (if p.args != "" then p.args else p.arguments)
  }

  /** Behind the first `n` events stand the cards of `ps` and the last event. */
  ghost predicate EndsInCards(es: seq<Event>, n: nat, ps: seq<PendingCall>, last: Event) {
    && |es| == n + |ps| + 1 && es[n + |ps|] == last
    && forall j :: 0 <= j < |ps| ==> ShowsCard(es[n + j], ps[j])
  }

  ghost predicate EndsInError(es: seq<Event>, n: nat, error: string, last: Event) {
    |es| == n + 2 && es[n] == Error(if error != "" then error else "Run failed") && es[n + 1] == last
  }

  ghost predicate EndsInText(es: seq<Event>, n: nat, output: string, last: Event) {
    if output == "" then |es| == n + 1 && es[n] == last
    else |es| == n + 2 && es[n] == TextDelta(output) && es[n + 1] == last
  }

  lemma {:induction false} PairsShow(ts: seq<ToolEvent>)
    ensures |Pairs(ts)| == 2 * |ts| && ShowsTools(Pairs(ts), ts)
  {
    if |ts| > 0 {
      var front, last := Pairs(ts[..|ts| - 1]), ts[|ts| - 1];
      PairsShow(ts[..|ts| - 1]);
      forall j | 0 <= j < |ts|
        ensures j < |ts| - 1 ==> Pairs(ts)[2 * j] == front[2 * j] && Pairs(ts)[2 * j + 1] == front[2 * j + 1]
      {
      }
    }
  }

  lemma {:induction false} CardsShow(ps: seq<PendingCall>)
    ensures |Cards(ps)| == |ps| && forall j :: 0 <= j < |ps| ==> ShowsCard(Cards(ps)[j], ps[j])
  {
    if |ps| > 0 {
      CardsShow(ps[..|ps| - 1]);
    }
  }

  lemma ToolsInFront(ts: seq<ToolEvent>, rest: seq<Event>)
    ensures ShowsTools(Pairs(ts) + rest, ts)
  {
    hide Pairs;
    PairsShow(ts);
  }

  lemma CardsBehind(front: seq<Event>, ps: seq<PendingCall>, last: Event)
    ensures EndsInCards(front + Cards(ps) + [last], |front|, ps, last)
  {
    hide Cards, ShowsCard;
    CardsShow(ps);
  }

  /** A first stream, event by event: a paused run ends in its cards, a failed one
      in its error, and any other in its output. */
  lemma AgentStreamExactly(r: AgentResult)
    ensures ShowsTools(AgentEvents(r), r.toolEvents)
    ensures var es, n, last := AgentEvents(r), 2 * |r.toolEvents|, DoneEvent(r.tokens, r.output, Some(r.status));
            if r.status == "paused" then EndsInCards(es, n, r.pending, last)
            else if r.status == "failed" then EndsInError(es, n, r.error, last)
            else EndsInText(es, n, r.output, last)
  {
    hide Pairs, Cards, ShowsTools, EndsInCards;
    var last := DoneEvent(r.tokens, r.output, Some(r.status));
    PairsShow(r.toolEvents);
    assert AgentEvents(r) == Pairs(r.toolEvents) + (AgentTail(r) + [last]);
    ToolsInFront(r.toolEvents, AgentTail(r) + [last]);
    CardsBehind(Pairs(r.toolEvents), r.pending, last);
  }

  lemma MissingStream()
    ensures OutcomeEvents(None) == [Error("No suspended run found for this approval"), DoneEvent(0, "", None)]
  {
  }

  /** A resumed stream likewise; a missing run is reported as such. */
  lemma OutcomeStreamExactly(o: RunOutcome)
    ensures OutcomeEvents(None) == [Error("No suspended run found for this approval"), DoneEvent(0, "", None)]
    ensures ShowsTools(OutcomeEvents(Some(o)), o.toolEvents)
    ensures var es, n, last := OutcomeEvents(Some(o)), 2 * |o.toolEvents|, OutcomeEvents(Some(o))[|OutcomeEvents(Some(o))| - 1];
            && last == DoneEvent(o.tokens, o.output, Some(match o.status
                                                          case Done => "done"
                                                          case Suspended => "suspended"
                                                          case Failed => "failed"
                                                          case MaxTurns => "max_turns"
                                                          case Continue => "continue"))
            && match o.status
               case Suspended => EndsInCards(es, n, if o.awaitingRemaining then [] else o.pending, last)
               case Failed => EndsInError(es, n, o.error, last)
               case _ => EndsInText(es, n, o.output, last)
  {
    hide Pairs, ShowsTools, EndsInCards;
    var last := DoneEvent(o.tokens, o.output, Some(StatusText(o.status)));
    MissingStream();
    PairsShow(o.toolEvents);
    assert OutcomeEvents(Some(o)) == Pairs(o.toolEvents) + (OutcomeTail(o) + [last]);
    ToolsInFront(o.toolEvents, OutcomeTail(o) + [last]);
    CardsBehind(Pairs(o.toolEvents), if o.awaitingRemaining then [] else o.pending, last);
    assert Cards([]) == [];
  }
}
