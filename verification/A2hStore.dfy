/** The store of agent-to-human requests (a2h/a2h/store.py) over interactions
    that are updated in place (a2h/a2h/models.py).  Requests expire lazily: only
    when something looks at them. */
module A2hStore {
  import opened Prelude

  datatype Status = Created | Pending | Answered | Expired | Cancelled | Escalated | AutoDelegated

  datatype Value = Number(n: real) | Text(s: string) | Flag(b: bool)

  datatype Response = Response(data: map<string, Value>, channel: string)

  /** What the store's operations read and write of one interaction.  A deadline
      that does not parse is no deadline. */
  datatype Record = Record(status: Status, response: Option<Response>, deadline: Option<real>,
                           toNamespace: string, toName: string, cancelReason: Option<string>)

  predicate Terminal(s: Status) {
    s in {Answered, Expired, Cancelled, AutoDelegated}
  }

  predicate Overdue(r: Record, now: real) {
    r.status.Pending? && r.deadline.Some? && now > r.deadline.value
  }

  function ExpireIf(r: Record, now: real): Record {
    if Overdue(r, now) then r.(status := Expired) else r
  }

  /** The store: interactions in insertion order, and the ids whose waiters have
      been signalled. */
  datatype Store = Store(records: map<string, Record>, order: seq<string>, signalled: set<string>)

  datatype Op =
    | Save(id: string, record: Record)
    | Get(id: string)
    | Scan(id: string, to: string)
    | Respond(id: string, response: Response)
    | Cancel(id: string, reason: string)
    | WaitEnds(id: string, timedOut: bool)

  datatype Reply = Saved | Found(record: Option<Record>) | Listed(ids: seq<string>) | Accepted(ok: bool)

  function Pid(r: Record): string {
    r.toNamespace + "/" + r.toName
  }

  /** A listing takes a pending request that is not overdue at the instant it is
      looked at, and is addressed to `to` unless that is empty. */
  predicate Listable(s: Store, id: string, to: string, now: real) {
    && id in s.records && s.records[id].status.Pending? && !Overdue(s.records[id], now)
    && (to == "" || Pid(s.records[id]) == to)
  }

  function Update(s: Store, id: string, r: Record): Store {
    s.(records := s.records[id := r])
  }

  /** Every overdue request expired at once. */
  function ExpireAll(s: Store, now: real): Store {
    s.(records := map id | id in s.records :: ExpireIf(s.records[id], now))
  }

  /** Looking one request up expires it if it is overdue. */
  function Touch(s: Store, id: string, now: real): Store {
    if id in s.records then Update(s, id, ExpireIf(s.records[id], now)) else s
  }

  /** One operation at `now`. */
  function Step(s: Store, op: Op, now: real): (Store, Reply) {
    match op
    case Save(id, r) =>
      (Store(s.records[id := r], if id in s.records then s.order else s.order + [id], s.signalled - {id}), Saved)
    case Get(id) =>
      var after := Touch(s, id, now);
      (after, Found(if id in after.records then Some(after.records[id]) else None))
    case Scan(id, to) => (Touch(s, id, now), Listed(if Listable(s, id, to, now) then [id] else []))
    case Respond(id, response) =>
      if id !in s.records || !s.records[id].status.Pending? then (s, Accepted(false))
      else if Overdue(s.records[id], now) then (Touch(s, id, now), Accepted(false))
      else
        (Update(s, id, s.records[id].(response := Some(response), status := Answered))
           .(signalled := s.signalled + {id}), Accepted(true))
    case Cancel(id, reason) =>
      if id !in s.records || !s.records[id].status.Pending? then (s, Accepted(false))
      else
        (Update(s, id, s.records[id].(status := Cancelled, cancelReason := Some(reason)))
           .(signalled := s.signalled + {id}), Accepted(true))
    case WaitEnds(id, _) =>
      var after := Touch(s, id, now);
      (after, Found(if id in after.records then Some(after.records[id]) else None))
  }

  // ---- Runs ---------------------------------------------------------------------

  datatype Timed = Timed(op: Op, now: real)

  /** What may happen: ids are fresh, requests are saved as the gateway makes
      them, and a wait ends early only when its event is set. */
  predicate Admissible(s: Store, op: Op) {
    match op
    case Save(id, r) =>
      && id !in s.records
      && ((r.status.Pending? && r.response.None?) || (r.status.AutoDelegated? && r.response.Some?))
    case WaitEnds(id, timedOut) => timedOut || id in s.signalled
    case _ => true
  }

  function Run(s: Store, ops: seq<Timed>): Store
    decreases |ops|
  {
    if |ops| == 0 then s else Run(Step(s, ops[0].op, ops[0].now).0, ops[1..])
  }

  function Replies(s: Store, ops: seq<Timed>): seq<Reply>
    decreases |ops|
  {
    if |ops| == 0 then []
    else
      var (after, reply) := Step(s, ops[0].op, ops[0].now);
      [reply] + Replies(after, ops[1..])
  }

  predicate Legal(s: Store, ops: seq<Timed>, clock: real)
    decreases |ops|
  {
    |ops| == 0 ||
    (clock <= ops[0].now && Admissible(s, ops[0].op)
     && Legal(Step(s, ops[0].op, ops[0].now).0, ops[1..], ops[0].now))
  }

  // ---- Lifecycle --------------------------------------------------------------------

  ghost predicate RecordOk(s: Store, id: string)
    requires id in s.records
  {
    var r := s.records[id];
    && (r.response.Some? <==> r.status.Answered? || r.status.AutoDelegated?)
    && (id in s.signalled <==> r.status.Answered? || r.status.Cancelled?)
    && r.status in {Pending, Answered, Expired, Cancelled, AutoDelegated}
  }

  ghost predicate WellFormed(s: Store) {
    && (forall id :: id in s.records ==> RecordOk(s, id))
    && (forall id :: id in s.signalled ==> id in s.records)
    && (forall id :: id in s.records <==> id in s.order)
  }

  const EMPTY := Store(map[], [], {})

  lemma StepKeepsWellFormed(s: Store, op: Op, now: real)
    requires WellFormed(s) && Admissible(s, op)
    ensures WellFormed(Step(s, op, now).0)
  {
    var after := Step(s, op, now).0;
    forall id | id in after.records ensures RecordOk(after, id) {
      assert id in s.records ==> RecordOk(s, id);
    }
  }

  /** In every run a response exists exactly for answered and auto-delegated
      requests, and a waiter has been signalled exactly for answered and
      cancelled ones. */
  lemma {:induction false} RunKeepsWellFormed(s: Store, ops: seq<Timed>, clock: real)
    requires WellFormed(s) && Legal(s, ops, clock)
    ensures WellFormed(Run(s, ops))
    decreases |ops|
  {
    if |ops| > 0 {
      StepKeepsWellFormed(s, ops[0].op, ops[0].now);
      RunKeepsWellFormed(Step(s, ops[0].op, ops[0].now).0, ops[1..], ops[0].now);
    }
  }

  /** A request that has been answered, has expired, was cancelled or was
      delegated never changes again. */
  lemma {:induction false} TerminalAbsorbs(s: Store, ops: seq<Timed>, clock: real, id: string)
    requires Legal(s, ops, clock) && id in s.records && Terminal(s.records[id].status)
    ensures id in Run(s, ops).records && Run(s, ops).records[id] == s.records[id]
    decreases |ops|
  {
    if |ops| > 0 {
      TerminalAbsorbs(Step(s, ops[0].op, ops[0].now).0, ops[1..], ops[0].now, id);
    }
  }

  /** How many responses to `id` the run accepts. */
  function AcceptedResponses(s: Store, ops: seq<Timed>, id: string): (n: nat)
    decreases |ops|
  {
    if |ops| == 0 then 0
    else
      var (after, reply) := Step(s, ops[0].op, ops[0].now);
      (if ops[0].op.Respond? && ops[0].op.id == id && reply == Accepted(true) then 1 else 0)
      + AcceptedResponses(after, ops[1..], id)
  }

  lemma {:induction false} NoMoreAfterTerminal(s: Store, ops: seq<Timed>, clock: real, id: string)
    requires Legal(s, ops, clock) && id in s.records && Terminal(s.records[id].status)
    ensures AcceptedResponses(s, ops, id) == 0
    decreases |ops|
  {
    if |ops| > 0 {
      NoMoreAfterTerminal(Step(s, ops[0].op, ops[0].now).0, ops[1..], ops[0].now, id);
    }
  }

  /** At most one response per request is ever accepted, and then that is the
      answer for good. */
  lemma {:induction false} AnsweredOnce(s: Store, ops: seq<Timed>, clock: real, id: string)
    requires Legal(s, ops, clock)
    ensures AcceptedResponses(s, ops, id) <= 1
    decreases |ops|
  {
    if |ops| > 0 {
      var (after, reply) := Step(s, ops[0].op, ops[0].now);
      if ops[0].op.Respond? && ops[0].op.id == id && reply == Accepted(true) {
        NoMoreAfterTerminal(after, ops[1..], ops[0].now, id);
      } else {
        AnsweredOnce(after, ops[1..], ops[0].now, id);
      }
    }
  }

  lemma {:induction false} AnswerStays(s: Store, ops: seq<Timed>, clock: real, id: string, response: Response)
    requires |ops| > 0 && Legal(s, ops, clock)
    requires ops[0].op == Respond(id, response) && Step(s, ops[0].op, ops[0].now).1 == Accepted(true)
    ensures id in Run(s, ops).records
    ensures Run(s, ops).records[id].status == Answered && Run(s, ops).records[id].response == Some(response)
  {
    TerminalAbsorbs(Step(s, ops[0].op, ops[0].now).0, ops[1..], ops[0].now, id);
  }

  /** A wait that does not time out returns an answered or cancelled request. */
  lemma WaitReturnsFinal(s: Store, id: string, now: real)
    requires WellFormed(s) && Admissible(s, WaitEnds(id, false))
    ensures var reply := Step(s, WaitEnds(id, false), now).1;
            reply.record.Some? && reply.record.value.status in {Answered, Cancelled}
  {
    assert RecordOk(s, id);
  }

  // ---- Lazy and eager expiry ---------------------------------------------------------

  /** A cancellation of a request that is already overdue: the one operation that
      does not look at the deadline. */
  predicate LateCancel(s: Store, op: Op, now: real) {
    op.Cancel? && op.id in s.records && Overdue(s.records[op.id], now)
  }

  lemma ExpireAllTwice(s: Store, earlier: real, later: real)
    requires earlier <= later
    ensures ExpireAll(ExpireAll(s, earlier), later) == ExpireAll(s, later)
  {
  }

  lemma UpdateThenExpire(s: Store, id: string, r: Record, now: real)
    ensures ExpireAll(Update(ExpireAll(s, now), id, r), now) == ExpireAll(Update(s, id, r), now)
  {
    assert ExpireAll(Update(ExpireAll(s, now), id, r), now).records == ExpireAll(Update(s, id, r), now).records;
  }

  lemma TouchThenExpire(s: Store, id: string, now: real)
    ensures Touch(ExpireAll(s, now), id, now) == ExpireAll(s, now)
    ensures ExpireAll(ExpireAll(s, now), now) == ExpireAll(Touch(s, id, now), now) == ExpireAll(s, now)
  {
    ExpireAllTwice(s, now, now);
    assert Touch(ExpireAll(s, now), id, now).records == ExpireAll(s, now).records;
    assert ExpireAll(Touch(s, id, now), now).records == ExpireAll(s, now).records;
  }

  /** One lazy step and the eager step that starts by expiring everything overdue
      reply alike and stay alike, unless the step is a late cancellation; then
      the lazy store accepts what the eager one refuses. */
  lemma StepRefinesEager(s: Store, op: Op, now: real)
    ensures !LateCancel(s, op, now) ==>
              && Step(ExpireAll(s, now), op, now).1 == Step(s, op, now).1
              && ExpireAll(Step(ExpireAll(s, now), op, now).0, now) == ExpireAll(Step(s, op, now).0, now)
    ensures LateCancel(s, op, now) ==>
              Step(s, op, now).1 == Accepted(true) && Step(ExpireAll(s, now), op, now).1 == Accepted(false)
  {
    var eager := ExpireAll(s, now);
    match op
    case Save(id, r) => UpdateThenExpire(s, id, r, now);
    case Scan(id, to) => TouchThenExpire(s, id, now);
    case Get(id) => TouchThenExpire(s, id, now);
    case WaitEnds(id, _) => TouchThenExpire(s, id, now);
    case Respond(id, response) =>
      TouchThenExpire(s, id, now);
      ExpireAllTwice(s, now, now);
      if id in s.records {
        UpdateThenExpire(s, id, s.records[id].(response := Some(response), status := Answered), now);
      }
    case Cancel(id, reason) =>
      ExpireAllTwice(s, now, now);
      if id in s.records {
        UpdateThenExpire(s, id, s.records[id].(status := Cancelled, cancelReason := Some(reason)), now);
      }
  }

  /** The store that expires every overdue request at each instant. */
  function EagerReplies(s: Store, ops: seq<Timed>): seq<Reply>
    decreases |ops|
  {
    if |ops| == 0 then []
    else
      var (after, reply) := Step(ExpireAll(s, ops[0].now), ops[0].op, ops[0].now);
      [reply] + EagerReplies(after, ops[1..])
  }

  function EagerRun(s: Store, ops: seq<Timed>): Store
    decreases |ops|
  {
    if |ops| == 0 then s
    else EagerRun(Step(ExpireAll(s, ops[0].now), ops[0].op, ops[0].now).0, ops[1..])
  }

  predicate SomeLateCancel(s: Store, ops: seq<Timed>)
    decreases |ops|
  {
    |ops| > 0 &&
    (LateCancel(s, ops[0].op, ops[0].now) || SomeLateCancel(Step(s, ops[0].op, ops[0].now).0, ops[1..]))
  }

  function LastTime(ops: seq<Timed>, clock: real): real {
    if |ops| == 0 then clock else ops[|ops| - 1].now
  }

  predicate Monotone(ops: seq<Timed>, clock: real) {
    |ops| == 0 || (clock <= ops[0].now && Monotone(ops[1..], ops[0].now))
  }

  lemma {:induction false} LazyRefinesEagerFrom(lazy: Store, eager: Store, ops: seq<Timed>, clock: real)
    requires ExpireAll(lazy, clock) == ExpireAll(eager, clock) && Monotone(ops, clock)
    ensures Replies(lazy, ops) == EagerReplies(eager, ops) <==> !SomeLateCancel(lazy, ops)
    ensures !SomeLateCancel(lazy, ops) ==>
              ExpireAll(Run(lazy, ops), LastTime(ops, clock)) == ExpireAll(EagerRun(eager, ops), LastTime(ops, clock))
    decreases |ops|
  {
    if |ops| > 0 {
      var op, now := ops[0].op, ops[0].now;
      ExpireAllTwice(lazy, clock, now);
      ExpireAllTwice(eager, clock, now);
      StepRefinesEager(lazy, op, now);
      var (lazyAfter, lazyReply) := Step(lazy, op, now);
      var (eagerAfter, eagerReply) := Step(ExpireAll(eager, now), op, now);
      assert Replies(lazy, ops)[0] == lazyReply && EagerReplies(eager, ops)[0] == eagerReply;
      if !LateCancel(lazy, op, now) {
        LazyRefinesEagerFrom(lazyAfter, eagerAfter, ops[1..], now);
        assert Replies(lazy, ops)[1..] == Replies(lazyAfter, ops[1..]);
        assert EagerReplies(eager, ops)[1..] == EagerReplies(eagerAfter, ops[1..]);
        assert LastTime(ops, clock) == LastTime(ops[1..], now);
      }
    }
  }

  /** In a whole run the lazy store cannot be told from the eager one exactly when
      nobody cancels a request that is already overdue. */
  lemma LazyRefinesEager(s: Store, ops: seq<Timed>, clock: real)
    requires Monotone(ops, clock)
    ensures Replies(s, ops) == EagerReplies(s, ops) <==> !SomeLateCancel(s, ops)
  {
    LazyRefinesEagerFrom(s, s, ops, clock);
  }

  // ---- Listings -----------------------------------------------------------------------

  /** The instant the request at each place of the order is looked at. */
  type Clock = nat -> real

  /** A listing looks at one request after the other. */
  function Listing(ids: seq<string>, to: string, clock: Clock): seq<Timed> {
    if |ids| == 0 then []
    else Listing(ids[..|ids| - 1], to, clock) + [Timed(Scan(ids[|ids| - 1], to), clock(|ids| - 1))]
  }

  /** What it returns, and what it leaves of each request. */
  function Selected(s: Store, ids: seq<string>, to: string, clock: Clock): seq<string> {
    if |ids| == 0 then []
    else
      var rest, last := Selected(s, ids[..|ids| - 1], to, clock), |ids| - 1;
      if Listable(s, ids[last], to, clock(last)) then rest + [ids[last]] else rest
  }

  function Listings(replies: seq<Reply>): seq<string> {
    if |replies| == 0 then []
    else
      var rest, last := Listings(replies[..|replies| - 1]), replies[|replies| - 1];
      if last.Listed? then rest + last.ids else rest
  }

  lemma {:induction false} RunOn(s: Store, ops: seq<Timed>, t: Timed)
    ensures Run(s, ops + [t]) == Step(Run(s, ops), t.op, t.now).0
    ensures Replies(s, ops + [t]) == Replies(s, ops) + [Step(Run(s, ops), t.op, t.now).1]
    decreases |ops|
  {
    hide Step;
    if |ops| == 0 {
      assert ops + [t] == [t] && [t][1..] == [];
      assert Run(Step(s, t.op, t.now).0, []) == Step(s, t.op, t.now).0;
    } else {
      assert (ops + [t])[1..] == ops[1..] + [t];
      RunOn(Step(s, ops[0].op, ops[0].now).0, ops[1..], t);
      var (after, reply) := Step(s, ops[0].op, ops[0].now);
      assert Replies(s, ops + [t]) == [reply] + (Replies(after, ops[1..]) + [Step(Run(s, ops), t.op, t.now).1]);
    }
  }

  ghost predicate NoRepeats(ids: seq<string>) {
    forall i, j :: 0 <= i < j < |ids| ==> ids[i] != ids[j]
  }

  /** Each request of `ids` is as a lookup at its instant leaves it, and nothing
      else is touched. */
  ghost predicate Looked(s: Store, after: Store, ids: seq<string>, clock: Clock) {
    && after.order == s.order && after.signalled == s.signalled && after.records.Keys == s.records.Keys
    && (forall j :: 0 <= j < |ids| && ids[j] in s.records ==>
          after.records[ids[j]] == ExpireIf(s.records[ids[j]], clock(j)))
    && (forall id :: id in s.records && id !in ids ==> after.records[id] == s.records[id])
  }

  lemma LookedNext(s: Store, before: Store, ids: seq<string>, to: string, clock: Clock)
    requires |ids| > 0 && NoRepeats(ids) && Looked(s, before, ids[..|ids| - 1], clock)
    ensures var last := |ids| - 1;
            var (after, reply) := Step(before, Scan(ids[last], to), clock(last));
            Looked(s, after, ids, clock) && reply == Listed(if Listable(s, ids[last], to, clock(last)) then [ids[last]] else [])
  {
    var init, last := ids[..|ids| - 1], |ids| - 1;
    assert ids == init + [ids[last]] && ids[last] !in init;
    assert forall id :: id !in ids ==> id !in init;
    assert forall j :: 0 <= j < last ==> init[j] == ids[j];
  }

  lemma ListingsOn(replies: seq<Reply>, reply: Reply)
    ensures Listings(replies + [reply]) == Listings(replies) + (if reply.Listed? then reply.ids else [])
  {
    assert (replies + [reply])[..|replies|] == replies;
  }

  /** A listing as a run of the store: it replies with the requests that were live
      when they were looked at, leaves each of them as a lookup at that instant
      would, and touches nothing else. */
  lemma {:induction false} ListingRuns(s: Store, ids: seq<string>, to: string, clock: Clock)
    requires NoRepeats(ids)
    ensures Listings(Replies(s, Listing(ids, to, clock))) == Selected(s, ids, to, clock)
    ensures Looked(s, Run(s, Listing(ids, to, clock)), ids, clock)
  {
    if |ids| > 0 {
      hide Step, Run, Replies, Listings, Looked, Listable;
      var init, last := ids[..|ids| - 1], |ids| - 1;
      var t := Timed(Scan(ids[last], to), clock(last));
      ListingRuns(s, init, to, clock);
      var before := Run(s, Listing(init, to, clock));
      RunOn(s, Listing(init, to, clock), t);
      LookedNext(s, before, ids, to, clock);
      ListingsOn(Replies(s, Listing(init, to, clock)), Step(before, t.op, t.now).1);
    }
  }

  /** No request that was overdue when it was looked at is left pending, so none
      that was overdue when the listing began. */
  lemma ListLeavesNoneOverdue(s: Store, to: string, clock: Clock, start: real, id: string)
    requires NoRepeats(s.order) && WellFormed(s) && id in s.records
    requires forall j: nat :: j < |s.order| ==> start <= clock(j)
    ensures var after := Run(s, Listing(s.order, to, clock));
            id in after.records && !Overdue(after.records[id], start)
  {
    ListingRuns(s, s.order, to, clock);
    var j :| 0 <= j < |s.order| && s.order[j] == id;
    assert start <= clock(j);
  }

  /** A listing holds exactly the requests of the addressee that were live when
      they were looked at, each once and in order. */
  lemma {:induction false} ListIsExact(s: Store, ids: seq<string>, to: string, clock: Clock, id: string)
    requires NoRepeats(ids)
    ensures id in Selected(s, ids, to, clock) <==> exists j :: 0 <= j < |ids| && ids[j] == id && Listable(s, id, to, clock(j))
    ensures NoRepeats(Selected(s, ids, to, clock))
  {
    if |ids| > 0 {
      var init, last := ids[..|ids| - 1], |ids| - 1;
      ListIsExact(s, init, to, clock, id);
      ListIsExact(s, init, to, clock, ids[last]);
      assert forall j :: 0 <= j < last ==> init[j] == ids[j];
      assert ids[last] !in Selected(s, init, to, clock);
    }
  }

  /** A request of this status, deadline and addressee belongs in a listing for `to`
      that looks at it at `at`. */
  ghost predicate Due(status: Status, deadline: Option<real>, namespace: string, name: string, to: string, at: real) {
    && status == Pending
    && (deadline.None? || at <= deadline.value)
    && (to == "" || namespace + "/" + name == to)
  }

  /** A listing, request by request. */
  lemma ListedExactly(s: Store, ids: seq<string>, to: string, clock: Clock, j: nat)
    requires NoRepeats(ids) && j < |ids| && ids[j] in s.records
    ensures var r := s.records[ids[j]];
            ids[j] in Selected(s, ids, to, clock) <==> Due(r.status, r.deadline, r.toNamespace, r.toName, to, clock(j))
  {
    hide Selected;
    ListIsExact(s, ids, to, clock, ids[j]);
    assert Listable(s, ids[j], to, clock(j)) <==>
             Due(s.records[ids[j]].status, s.records[ids[j]].deadline, s.records[ids[j]].toNamespace,
                 s.records[ids[j]].toName, to, clock(j));
  }

  // ---- The store in place ------------------------------------------------------------

  class Interaction {
    const id: string
    const fromNamespace: string
    const fromName: string
    const toNamespace: string
    const toName: string
    const responseType: string
    var context: map<string, Value>
    var deadline: Option<real>
    var status: Status
    var response: Option<Response>
    var cancelReason: Option<string>

    constructor (id: string, fromNamespace: string, fromName: string, toNamespace: string, toName: string,
                 responseType: string, context: map<string, Value>, deadline: Option<real>)
      ensures this.id == id && this.fromNamespace == fromNamespace && this.fromName == fromName
      ensures this.toNamespace == toNamespace && this.toName == toName && this.responseType == responseType
      ensures this.context == context && this.deadline == deadline
      ensures status == Created && response == None && cancelReason == None
    {
      this.id, this.fromNamespace, this.fromName := id, fromNamespace, fromName;
      this.toNamespace, this.toName, this.responseType := toNamespace, toName, responseType;
      this.context, this.deadline, status, response, cancelReason := context, deadline, Created, None, None;
    }

    ghost function Rec(): Record
      reads this
    {
      Record(status, response, deadline, toNamespace, toName, cancelReason)
    }

    /** is_expired: strictly past a deadline that parses. */
    predicate IsExpired(now: real)
      reads this`deadline
    {
      deadline.Some? && now > deadline.value
    }
  }

  /** The insertion order lists each id once. */
  ghost predicate OrderOk(order: seq<string>, keys: set<string>) {
    && (forall k :: k in keys <==> k in order)
    && NoRepeats(order)
  }

  lemma OrderAppend(order: seq<string>, keys: set<string>, id: string)
    requires OrderOk(order, keys)
    ensures id !in keys ==> OrderOk(order + [id], keys + {id})
    ensures id in keys ==> keys + {id} == keys
  {
    if id !in keys {
      forall k ensures k in keys + {id} <==> k in order + [id] {
      }
    }
  }

  lemma Distinct(order: seq<string>, keys: set<string>, i: nat, j: nat)
    requires OrderOk(order, keys) && i < |order| && j < |order| && i != j
    ensures order[i] != order[j]
  {
  }

  lemma Members(order: seq<string>, keys: set<string>)
    requires OrderOk(order, keys)
    ensures forall i :: 0 <= i < |order| ==> order[i] in keys
    ensures forall k :: k in keys ==> k in order
  {
  }

  lemma SaveCases(s: Store, id: string, r: Record, now: real)
    ensures var after := Step(s, Save(id, r), now).0;
            && after.records == s.records[id := r] && after.signalled == s.signalled - {id}
            && after.order == (if id in s.records then s.order else s.order + [id])
  {
  }

  /** What each operation does in each of its cases. */
  lemma RespondCases(s: Store, id: string, response: Response, now: real)
    ensures var (after, reply) := Step(s, Respond(id, response), now);
            if id !in s.records || !s.records[id].status.Pending? then after == s && reply == Accepted(false)
            else if Overdue(s.records[id], now)
              then after == Update(s, id, s.records[id].(status := Expired)) && reply == Accepted(false)
            else
              && after.records == s.records[id := s.records[id].(response := Some(response), status := Answered)]
              && after.order == s.order && after.signalled == s.signalled + {id} && reply == Accepted(true)
  {
  }

  lemma CancelCases(s: Store, id: string, reason: string, now: real)
    ensures var (after, reply) := Step(s, Cancel(id, reason), now);
            if id !in s.records || !s.records[id].status.Pending? then after == s && reply == Accepted(false)
            else
              && after.records == s.records[id := s.records[id].(status := Cancelled, cancelReason := Some(reason))]
              && after.order == s.order && after.signalled == s.signalled + {id} && reply == Accepted(true)
  {
  }

  lemma GetCases(s: Store, id: string, now: real)
    ensures var (after, reply) := Step(s, Get(id), now);
            if id !in s.records then after == s && reply == Found(None)
            else after == Update(s, id, ExpireIf(s.records[id], now)) && reply == Found(Some(ExpireIf(s.records[id], now)))
    ensures forall timedOut :: Step(s, WaitEnds(id, timedOut), now) == Step(s, Get(id), now)
  {
  }

  ghost function RecordsOf(interactions: map<string, Interaction>): map<string, Record>
    reads interactions.Values
  {
    map k | k in interactions :: interactions[k].Rec()
  }

  function Signalled(events: map<string, bool>): set<string> {
    set k | k in events && events[k]
  }

  lemma RecordsInsert(interactions: map<string, Interaction>, i: Interaction)
    requires Keyed(interactions)
    ensures Keyed(interactions[i.id := i])
    ensures RecordsOf(interactions[i.id := i]) == RecordsOf(interactions)[i.id := i.Rec()]
    ensures RecordsOf(interactions).Keys == interactions.Keys
  {
  }

  lemma KeysInsert<V>(m: map<string, V>, k: string, v: V)
    ensures m[k := v].Keys == m.Keys + {k}
  {
  }

  lemma SignalledInsert(events: map<string, bool>, id: string)
    ensures Signalled(events[id := false]) == Signalled(events) - {id}
    ensures Signalled(events[id := true]) == Signalled(events) + {id}
  {
  }

  /** Every interaction is filed under its own id, so no two keys share one. */
  ghost predicate Keyed(interactions: map<string, Interaction>) {
    forall k :: k in interactions ==> interactions[k].id == k
  }

  /** A listing that has come to the `n`th interaction has expired the overdue
      ones before it and touched nothing else. */
  ghost predicate Swept(interactions: map<string, Interaction>, order: seq<string>, was: Store, n: nat, clock: Clock)
    reads interactions.Values
  {
    forall j :: 0 <= j < |order| ==>
      && order[j] in interactions && order[j] in was.records
      && interactions[order[j]].Rec() == (if j < n then ExpireIf(was.records[order[j]], clock(j)) else was.records[order[j]])
  }

  lemma SweptNone(interactions: map<string, Interaction>, order: seq<string>, was: Store, clock: Clock)
    requires was.records == RecordsOf(interactions) && OrderOk(order, interactions.Keys)
    ensures Swept(interactions, order, was, 0, clock)
    ensures was.records.Keys == interactions.Keys
  {
  }

  lemma SweptNext(interactions: map<string, Interaction>, order: seq<string>, was: Store, n: nat, clock: Clock)
    requires Swept(interactions, order, was, n, clock) && n < |order|
    ensures order[n] in interactions && order[n] in was.records
    ensures interactions[order[n]].Rec() == was.records[order[n]]
    ensures !Overdue(was.records[order[n]], clock(n)) ==> Swept(interactions, order, was, n + 1, clock)
  {
  }

  lemma SweptAll(interactions: map<string, Interaction>, was: Store, to: string, clock: Clock)
    requires Swept(interactions, was.order, was, |was.order|, clock)
    requires OrderOk(was.order, interactions.Keys) && was.records.Keys == interactions.Keys
    ensures var after := Run(was, Listing(was.order, to, clock));
            && RecordsOf(interactions) == after.records && after.order == was.order && after.signalled == was.signalled
    ensures Listings(Replies(was, Listing(was.order, to, clock))) == Selected(was, was.order, to, clock)
  {
    hide Run, Listing, Replies, Selected;
    ListingRuns(was, was.order, to, clock);
    forall k | k in interactions ensures interactions[k].Rec() == Run(was, Listing(was.order, to, clock)).records[k] {
      var j :| 0 <= j < |was.order| && was.order[j] == k;
    }
  }

  /** The results are interactions before the `n`th of the order, each once and in
      that order. */
  ghost predicate InOrder(interactions: map<string, Interaction>, order: seq<string>, results: seq<Interaction>,
                          ids: seq<string>, places: seq<nat>, n: nat)
  {
    && |results| == |ids| == |places| && n <= |order|
    && (forall a :: 0 <= a < |places| ==>
          && places[a] < n && ids[a] == order[places[a]] && ids[a] in interactions && results[a] == interactions[ids[a]])
    && (forall a, b :: 0 <= a < b < |places| ==> places[a] < places[b])
  }

  lemma InOrderNone(interactions: map<string, Interaction>, order: seq<string>)
    ensures InOrder(interactions, order, [], [], [], 0)
  {
  }

  lemma InOrderStays(interactions: map<string, Interaction>, order: seq<string>, results: seq<Interaction>,
                     ids: seq<string>, places: seq<nat>, n: nat)
    requires InOrder(interactions, order, results, ids, places, n) && n < |order|
    ensures InOrder(interactions, order, results, ids, places, n + 1)
  {
  }

  lemma InOrderNext(interactions: map<string, Interaction>, order: seq<string>, results: seq<Interaction>,
                    ids: seq<string>, places: seq<nat>, n: nat)
    requires InOrder(interactions, order, results, ids, places, n) && n < |order| && order[n] in interactions
    ensures InOrder(interactions, order, results + [interactions[order[n]]], ids + [order[n]], places + [n], n + 1)
  {
  }

  /** What a listing that looked at `i` at `at` did with it: listed if it is due,
      expired if it was overdue. */
  ghost predicate RightlyListed(i: Interaction, was: Status, results: seq<Interaction>, to: string, at: real)
    reads i
  {
    && (i in results <==> Due(was, i.deadline, i.toNamespace, i.toName, to, at))
    && i.status == (if was == Pending && i.deadline.Some? && at > i.deadline.value then Expired else was)
  }

  lemma ListedAt(interactions: map<string, Interaction>, order: seq<string>, results: seq<Interaction>, ids: seq<string>,
                 places: seq<nat>, was: Store, to: string, clock: Clock, j: nat)
    requires Keyed(interactions) && NoRepeats(order) && j < |order|
    requires Swept(interactions, order, was, |order|, clock) && ids == Selected(was, order, to, clock)
    requires InOrder(interactions, order, results, ids, places, |order|)
    ensures order[j] in interactions && order[j] in was.records
    ensures RightlyListed(interactions[order[j]], was.records[order[j]].status, results, to, clock(j))
  {
    hide Selected, Due;
    var i := interactions[order[j]];
    assert i.Rec() == ExpireIf(was.records[order[j]], clock(j));
    ListedExactly(was, order, to, clock, j);
    if i in results {
      var a :| 0 <= a < |results| && results[a] == i;
      assert interactions[ids[a]].id == ids[a] && i.id == order[j];
    }
    if order[j] in ids {
      var a :| 0 <= a < |ids| && ids[a] == order[j];
      assert results[a] == i;
    }
  }

  lemma ListedRightly(interactions: map<string, Interaction>, order: seq<string>, results: seq<Interaction>,
                      ids: seq<string>, places: seq<nat>, was: Store, to: string, clock: Clock)
    requires Keyed(interactions) && OrderOk(order, interactions.Keys)
    requires Swept(interactions, order, was, |order|, clock) && ids == Selected(was, order, to, clock)
    requires InOrder(interactions, order, results, ids, places, |order|)
    ensures forall j: nat :: j < |order| ==>
              && order[j] in interactions && order[j] in was.records
              && RightlyListed(interactions[order[j]], was.records[order[j]].status, results, to, clock(j))
  {
    hide Selected, RightlyListed, Swept, InOrder;
    forall j: nat | j < |order|
      ensures order[j] in interactions && order[j] in was.records
      ensures RightlyListed(interactions[order[j]], was.records[order[j]].status, results, to, clock(j))
    {
      ListedAt(interactions, order, results, ids, places, was, to, clock, j);
    }
  }

  class InMemoryStore {
    var interactions: map<string, Interaction>
    var order: seq<string>
    var events: map<string, bool>

    ghost predicate Valid()
      reads this, interactions.Values
    {
      && Keyed(interactions)
      && events.Keys == interactions.Keys
      && OrderOk(order, interactions.Keys)
    }

    ghost function View(): Store
      reads this, interactions.Values
    {
      Store(RecordsOf(interactions), order, Signalled(events))
    }

    lemma ViewRecords()
      ensures View().records.Keys == interactions.Keys
      ensures forall k :: k in interactions ==> View().records[k] == interactions[k].Rec()
    {
    }

    constructor ()
      ensures Valid() && View() == EMPTY && interactions == map[]
    {
      interactions, order, events := map[], [], map[];
    }

    method Save(i: Interaction)
      requires Valid()
      modifies this
      ensures Valid() && interactions == old(interactions)[i.id := i] && events == old(events)[i.id := false]
      ensures order == old(order) + (if i.id in old(interactions) then [] else [i.id])
      ensures View() == Step(old(View()), Op.Save(i.id, i.Rec()), 0.0).0
    {
      hide OrderOk, Keyed, Step, RecordsOf, Signalled;
      SaveCases(View(), i.id, i.Rec(), 0.0);
      OrderAppend(order, interactions.Keys, i.id);
      RecordsInsert(interactions, i);
      SignalledInsert(events, i.id);
      KeysInsert(interactions, i.id, i);
      KeysInsert(events, i.id, false);
      if i.id !in interactions {
        order := order + [i.id];
      }
      interactions := interactions[i.id := i];
      events := events[i.id := false];
    }

    method Get(id: string, now: real) returns (i: Interaction?)
      requires Valid()
      modifies interactions.Values`status
      ensures Valid()
      ensures i == (if id in interactions then interactions[id] else null)
      ensures id in interactions ==>
                var was := old(interactions[id].status);
                interactions[id].status == if was == Pending && interactions[id].deadline.Some?
                                              && now > interactions[id].deadline.value then Expired else was
      ensures View() == Step(old(View()), Op.Get(id), now).0
      ensures Found(if i == null then None else Some(i.Rec())) == Step(old(View()), Op.Get(id), now).1
    {
      hide OrderOk, Step;
      GetCases(View(), id, now);
      i := if id in interactions then interactions[id] else null;
      if i != null && i.status == Pending && i.IsExpired(now) {
        i.status := Expired;
      }
      if i != null {
        OnlyOneChanged(id);
      }
    }

    /** Interactions are distinct objects, so writing one changes one record. */
    twostate lemma OnlyOneChanged(id: string)
      requires old(Valid()) && interactions == old(interactions) && id in interactions
      requires forall k :: k in interactions && k != id ==> interactions[k].Rec() == old(interactions[k].Rec())
      ensures RecordsOf(interactions) == old(RecordsOf(interactions))[id := interactions[id].Rec()]
    {
    }

    /** `clock` gives the instant each request is looked at, in insertion order;
        `places` says where each result stands in it. */
    method ListPending(to: string, clock: Clock)
      returns (results: seq<Interaction>, ghost ids: seq<string>, ghost places: seq<nat>)
      requires Valid()
      modifies interactions.Values`status
      ensures Valid()
      ensures View() == Run(old(View()), Listing(order, to, clock))
      ensures ids == Selected(old(View()), order, to, clock)
      ensures ids == Listings(Replies(old(View()), Listing(order, to, clock)))
      ensures InOrder(interactions, order, results, ids, places, |order|)
      // request by request: exactly those due when looked at are listed, and only overdue ones change
      ensures forall j: nat :: j < |order| ==>
                && order[j] in interactions
                && RightlyListed(interactions[order[j]], old(interactions[order[j]].status), results, to, clock(j))
    {
      hide OrderOk, Keyed, Pid, Selected, Swept, RecordsOf, Signalled, ExpireIf, Run, Replies, Listing, Listings,
        RightlyListed, InOrder;
      results, ids, places := [], [], [];
      ghost var was := View();
      SelectedNone(was, to, clock);
      Members(order, interactions.Keys);
      SweptNone(interactions, order, was, clock);
      InOrderNone(interactions, order);
      for n := 0 to |order|
        invariant Valid() && Swept(interactions, order, was, n, clock)
        invariant ids == Selected(was, order[..n], to, clock)
        invariant InOrder(interactions, order, results, ids, places, n)
      {
        var i := interactions[order[n]];
        SelectedNext(was, order, n, to, clock);
        SweptNext(interactions, order, was, n, clock);
        InOrderStays(interactions, order, results, ids, places, n);
        if i.status != Pending {
          continue;
        }
        if i.IsExpired(clock(n)) {
          MarkExpired(i, was, n, clock);
          continue;
        }
        if to != "" {
          var pid := i.toNamespace + "/" + i.toName;
          PidIs(was.records[order[n]]);
          if pid != to {
            continue;
          }
        }
        InOrderNext(interactions, order, results, ids, places, n);
        results, ids, places := results + [i], ids + [order[n]], places + [n];
      }
      assert order[..|order|] == order;
      SweptAll(interactions, was, to, clock);
      ListedRightly(interactions, order, results, ids, places, was, to, clock);
      OldStatus(was);
    }

    /** What the view before said of each request's status. */
    twostate lemma OldStatus(was: Store)
      requires was == old(View()) && interactions == old(interactions)
      ensures forall k :: k in interactions ==> k in was.records && was.records[k].status == old(interactions[k].status)
    {
    }

    method MarkExpired(i: Interaction, ghost was: Store, ghost n: nat, ghost clock: Clock)
      requires Valid() && n < |order| && order[n] in interactions && i == interactions[order[n]]
      requires Swept(interactions, order, was, n, clock) && Overdue(i.Rec(), clock(n))
      modifies i`status
      ensures Valid() && i.status == Expired
      ensures Swept(interactions, order, was, n + 1, clock)
    {
      forall j | 0 <= j < |order| && j != n ensures order[j] in interactions && interactions[order[j]] != i {
        Distinct(order, interactions.Keys, j, n);
        Members(order, interactions.Keys);
      }
      i.status := Expired;
    }

    method Respond(id: string, response: Response, now: real) returns (ok: bool)
      requires Valid()
      modifies this`events, interactions.Values
      ensures Valid() && interactions == old(interactions)
      ensures ok <==> id in interactions && old(interactions[id].status) == Pending
                      && (old(interactions[id].deadline).None? || now <= old(interactions[id].deadline).value)
      ensures ok ==> interactions[id].status == Answered && interactions[id].response == Some(response)
                     && id in events && events[id]
      ensures !ok ==> events == old(events) && (id in interactions ==> interactions[id].response == old(interactions[id].response))
      ensures View() == Step(old(View()), Op.Respond(id, response), now).0
      ensures Accepted(ok) == Step(old(View()), Op.Respond(id, response), now).1
    {
      hide OrderOk, Step;
      RespondCases(View(), id, response, now);
      if id !in interactions || interactions[id].status != Pending {
        return false;
      }
      var i := interactions[id];
      if i.IsExpired(now) {
        i.status := Expired;
        OnlyOneChanged(id);
        return false;
      }
      i.response := Some(response);
      i.status := Answered;
      if id in events {
        events := events[id := true];
      }
      OnlyOneChanged(id);
      assert Signalled(events) == old(Signalled(events)) + {id};
      return true;
    }

    method Cancel(id: string, reason: string := "") returns (ok: bool)
      requires Valid()
      modifies this`events, interactions.Values
      ensures Valid() && interactions == old(interactions)
      ensures ok <==> id in interactions && old(interactions[id].status) == Pending
      ensures ok ==> interactions[id].status == Cancelled && interactions[id].cancelReason == Some(reason)
                     && id in events && events[id]
      ensures View() == Step(old(View()), Op.Cancel(id, reason), 0.0).0
      ensures Accepted(ok) == Step(old(View()), Op.Cancel(id, reason), 0.0).1
    {
      hide OrderOk, Step;
      CancelCases(View(), id, reason, 0.0);
      if id !in interactions || interactions[id].status != Pending {
        return false;
      }
      var i := interactions[id];
      i.status := Cancelled;
      i.cancelReason := Some(reason);
      if id in events {
        events := events[id := true];
      }
      OnlyOneChanged(id);
      assert Signalled(events) == old(Signalled(events)) + {id};
      return true;
    }

    /** The end of a wait, at `now`: after the event or the timeout, whichever
        came first, the request is looked up. */
    method WaitEnds(id: string, timedOut: bool, now: real) returns (i: Interaction?)
      requires Valid() && (timedOut || id !in events || events[id])
      modifies interactions.Values`status
      ensures Valid()
      ensures i == (if id in interactions then interactions[id] else null)
      ensures View() == Step(old(View()), Op.WaitEnds(id, timedOut), now).0
      ensures Found(if i == null then None else Some(i.Rec())) == Step(old(View()), Op.WaitEnds(id, timedOut), now).1
    {
      hide OrderOk, Step;
      GetCases(View(), id, now);
      if id !in events {
        return null;
      }
      i := Get(id, now);
    }
  }

  lemma PidIs(r: Record)
    ensures Pid(r) == r.toNamespace + "/" + r.toName
  {
  }

  lemma SelectedNone(s: Store, to: string, clock: Clock)
    ensures Selected(s, [], to, clock) == []
  {
  }

  lemma SelectedNext(s: Store, ids: seq<string>, n: nat, to: string, clock: Clock)
    requires n < |ids|
    ensures Selected(s, ids[..n + 1], to, clock)
         == Selected(s, ids[..n], to, clock) + (if Listable(s, ids[n], to, clock(n)) then [ids[n]] else [])
  {
    assert ids[..n + 1][..n] == ids[..n];
  }
}
