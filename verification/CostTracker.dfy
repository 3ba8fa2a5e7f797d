/** The budget ledger (src/core/hooks.py, CostTracker).  Both operations run
    under one lock, so any number of concurrent callers is a sequence of them. */
module CostTracking {
  import opened Prelude

  type NonNegative = r: real | r >= 0.0 witness 0.0

  /** (model, input tokens, output tokens) to US dollars. */
  type Pricing = (string, int, int) -> NonNegative

  /** One locked step.  `claim` names the position of the reservation a
      settlement gives back; it is None when nothing is given back. */
  datatype Event =
    | Reserved(session: string, amount: real)
    | Refused(session: string, amount: real)
    | Settled(session: string, claim: Option<nat>, released: real, actual: real,
              input: int, output: int, day: int)

  /** The running sum the steps of `session` add up to. */
  function Balance(log: seq<Event>, session: string): (b: real) {
    if |log| == 0 then 0.0
    else Balance(log[..|log| - 1], session) + Delta(log[|log| - 1], session)
  }

  function Delta(e: Event, session: string): real {
    if e.session != session then 0.0
    else match e
      case Reserved(_, amount) => amount
      case Refused(_, _) => 0.0
      case Settled(_, _, released, actual, _, _, _) => actual - released
  }

  /** Actual cost of everything settled for `session`. */
  function Spent(log: seq<Event>, session: string): (b: real) {
    if |log| == 0 then 0.0
    else
      var e := log[|log| - 1];
      Spent(log[..|log| - 1], session) + (if e.Settled? && e.session == session then e.actual else 0.0)
  }

  /** By how much settlements of `session` exceeded what they released. */
  function Overshoot(log: seq<Event>, session: string): (b: real)
    ensures b >= 0.0
  {
    if |log| == 0 then 0.0
    else
      var e := log[|log| - 1];
      Overshoot(log[..|log| - 1], session)
      + (if e.Settled? && e.session == session && e.actual > e.released then e.actual - e.released else 0.0)
  }

  /** Every reservation was granted exactly when it fitted under the limit. */
  ghost predicate WellGranted(log: seq<Event>, limit: real) {
    |log| == 0 ||
    var before, e := log[..|log| - 1], log[|log| - 1];
    && WellGranted(before, limit)
    && (e.Reserved? ==> Balance(before, e.session) + e.amount <= limit)
    && (e.Refused? ==> Balance(before, e.session) + e.amount > limit)
  }

  function Max(a: real, b: real): real {
    if a < b then b else a
  }

  /** Whatever the interleaving, and whatever the callers claim to release, the
      ledger of a session never passes the limit by more than the total by which
      actual costs overshot the amounts released. */
  lemma {:induction false} LedgerBounded(log: seq<Event>, limit: real, session: string)
    requires WellGranted(log, limit)
    ensures Balance(log, session) <= Max(limit, 0.0) + Overshoot(log, session)
  {
    if |log| > 0 {
      LedgerBounded(log[..|log| - 1], limit, session);
    }
  }

  /** No settlement of `session` cost more than it released. */
  predicate NoOvershoot(log: seq<Event>, session: string) {
    forall i :: 0 <= i < |log| && log[i].Settled? && log[i].session == session ==> log[i].actual <= log[i].released
  }

  lemma {:induction false} WithinLimitWithoutOvershoot(log: seq<Event>, limit: real, session: string)
    requires WellGranted(log, limit) && NoOvershoot(log, session)
    ensures Overshoot(log, session) == 0.0
    ensures Balance(log, session) <= Max(limit, 0.0)
  {
    if |log| > 0 {
      var before := log[..|log| - 1];
      assert forall i :: 0 <= i < |before| ==> before[i] == log[i];
      WithinLimitWithoutOvershoot(before, limit, session);
    }
    LedgerBounded(log, limit, session);
  }

  // ---- Reservations of concurrent callers -----------------------------------

  predicate Claims(e: Event, i: nat) {
    e.Settled? && e.claim == Some(i)
  }

  predicate ClaimedIn(log: seq<Event>, i: nat) {
    exists j :: 0 <= j < |log| && Claims(log[j], i)
  }

  /** What a settlement may give back: one granted reservation of its session,
      in full and not given back before, or nothing. */
  ghost predicate HonestSettlement(before: seq<Event>, e: Event)
    requires e.Settled?
  {
    match e.claim
    case None => e.released == 0.0
    case Some(i) => i < |before| && before[i] == Reserved(e.session, e.released) && !ClaimedIn(before, i)
  }

  ghost predicate Disciplined(log: seq<Event>) {
    |log| == 0 ||
    (Disciplined(log[..|log| - 1]) &&
     (log[|log| - 1].Settled? ==> HonestSettlement(log[..|log| - 1], log[|log| - 1])))
  }

  /** Total of the first `n` granted reservations of `session` that nobody has
      given back anywhere in `log`. */
  ghost function Outstanding(log: seq<Event>, n: nat, session: string): (b: real)
    requires n <= |log|
  {
    if n == 0 then 0.0
    else
      var e := log[n - 1];
      Outstanding(log, n - 1, session)
      + (if e.Reserved? && e.session == session && !ClaimedIn(log, n - 1) then e.amount else 0.0)
  }

  /** Appending one event changes the outstanding total of earlier reservations
      only by the one it claims. */
  lemma {:induction false} OutstandingAfter(log: seq<Event>, e: Event, n: nat, session: string)
    requires n <= |log|
    requires e.Settled? ==> HonestSettlement(log, e)
    ensures Outstanding(log + [e], n, session) == Outstanding(log, n, session)
      - (if e.Settled? && e.session == session && e.claim.Some? && e.claim.value < n then e.released else 0.0)
  {
    if n > 0 {
      OutstandingAfter(log, e, n - 1, session);
      var after := log + [e];
      assert ClaimedIn(after, n - 1) <==> ClaimedIn(log, n - 1) || Claims(e, n - 1) by {
        if ClaimedIn(log, n - 1) {
          var j :| 0 <= j < |log| && Claims(log[j], n - 1);
          assert Claims(after[j], n - 1);
        }
        if Claims(e, n - 1) {
          assert Claims(after[|log|], n - 1);
        }
      }
    }
  }

  lemma {:induction false} ClaimsPointBack(log: seq<Event>, i: nat)
    requires Disciplined(log) && |log| <= i + 1
    ensures !ClaimedIn(log, i)
  {
    if |log| > 0 {
      var before := log[..|log| - 1];
      ClaimsPointBack(before, i);
      forall j | 0 <= j < |log| ensures !Claims(log[j], i) {
        if j < |before| {
          assert !Claims(before[j], i);
        }
      }
    }
  }

  /** Conservation: a session's ledger is exactly its outstanding reservations
      plus the actual costs settled, in every interleaving of the callers. */
  lemma {:induction false} LedgerIsOutstandingPlusSpent(log: seq<Event>, session: string)
    requires Disciplined(log)
    ensures Balance(log, session) == Outstanding(log, |log|, session) + Spent(log, session)
  {
    if |log| > 0 {
      var before, e := log[..|log| - 1], log[|log| - 1];
      assert log == before + [e];
      LedgerIsOutstandingPlusSpent(before, session);
      OutstandingAfter(before, e, |before|, session);
      ClaimsPointBack(log, |before|);
    }
  }

  /** Reservations and actual costs both come from the price list, which has no
      negative entry. */
  predicate NonNegativeAmounts(log: seq<Event>) {
    forall i :: 0 <= i < |log| ==> (if log[i].Settled? then log[i].actual else log[i].amount) >= 0.0
  }

  lemma {:induction false} OutstandingNonNegative(log: seq<Event>, n: nat, session: string)
    requires n <= |log| && NonNegativeAmounts(log)
    ensures Outstanding(log, n, session) >= 0.0
  {
    if n > 0 {
      OutstandingNonNegative(log, n - 1, session);
    }
  }

  /** The ledger never understates what was spent. */
  lemma {:induction false} LedgerCoversSpending(log: seq<Event>, session: string)
    requires Disciplined(log) && NonNegativeAmounts(log)
    ensures Spent(log, session) <= Balance(log, session)
  {
    LedgerIsOutstandingPlusSpent(log, session);
    OutstandingNonNegative(log, |log|, session);
  }

  // ---- Callers that never release -------------------------------------------

  /** Every settlement keeps its reservation in place. */
  predicate NothingReleased(log: seq<Event>) {
    forall i :: 0 <= i < |log| && log[i].Settled? ==> log[i].released == 0.0
  }

  /** Budget passes of `session`. */
  function Passes(log: seq<Event>, session: string): (n: nat) {
    if |log| == 0 then 0
    else
      var e := log[|log| - 1];
      Passes(log[..|log| - 1], session) + (if e.Reserved? && e.session == session then 1 else 0)
  }

  /** All passes of `session` reserve the same estimate. */
  predicate FixedEstimate(log: seq<Event>, session: string, estimate: real) {
    forall i :: 0 <= i < |log| && log[i].Reserved? && log[i].session == session ==> log[i].amount == estimate
  }

  function Reservations(n: nat, estimate: real): real {
    n as real * estimate
  }

  lemma OneReservation(n: nat, estimate: real)
    ensures Reservations(0, estimate) == 0.0
    ensures Reservations(n + 1, estimate) == Reservations(n, estimate) + estimate
  {
  }

  lemma {:induction false} LedgerIsReservationsPlusSpent(log: seq<Event>, session: string, estimate: real)
    requires NothingReleased(log) && FixedEstimate(log, session, estimate)
    ensures Balance(log, session) == Reservations(Passes(log, session), estimate) + Spent(log, session)
  {
    hide Reservations;
    OneReservation(0, estimate);
    if |log| > 0 {
      var before := log[..|log| - 1];
      assert forall i :: 0 <= i < |before| ==> before[i] == log[i];
      LedgerIsReservationsPlusSpent(before, session, estimate);
      OneReservation(Passes(before, session), estimate);
    }
  }

  lemma {:induction false} LedgerIsPassesPlusSpent(log: seq<Event>, session: string, estimate: real)
    requires NothingReleased(log) && FixedEstimate(log, session, estimate)
    ensures Balance(log, session) == Passes(log, session) as real * estimate + Spent(log, session)
  {
    hide Balance, Passes, Spent, NothingReleased, FixedEstimate;
    LedgerIsReservationsPlusSpent(log, session, estimate);
  }

  lemma {:induction false} SpentNonNegative(log: seq<Event>, session: string)
    requires NonNegativeAmounts(log)
    ensures Spent(log, session) >= 0.0
  {
    if |log| > 0 {
      var before := log[..|log| - 1];
      assert forall i :: 0 <= i < |before| ==> before[i] == log[i];
      SpentNonNegative(before, session);
    }
  }

  /** When nothing is ever released, passes times estimate plus tracked actual
      cost is within the limit at every pass, so the number of passes is at most
      limit / estimate in the whole run. */
  lemma {:induction false} PassesBounded(log: seq<Event>, limit: real, session: string, estimate: real)
    requires WellGranted(log, limit) && NonNegativeAmounts(log)
    requires NothingReleased(log) && FixedEstimate(log, session, estimate)
    ensures |log| > 0 && log[|log| - 1].Reserved? && log[|log| - 1].session == session ==>
              Passes(log, session) as real * estimate + Spent(log, session) <= limit
    ensures Passes(log, session) > 0 ==> Passes(log, session) as real * estimate <= limit
  {
    if |log| > 0 {
      var before := log[..|log| - 1];
      assert forall i :: 0 <= i < |before| ==> before[i] == log[i];
      PassesBounded(before, limit, session, estimate);
      LedgerIsPassesPlusSpent(log, session, estimate);
      SpentNonNegative(log, session);
    }
  }

  lemma Product(n: nat, estimate: real)
    ensures estimate >= 0.0 ==> n as real * estimate >= 0.0
  {
  }

  /** All of it together: what a ledger says when nothing is ever released. */
  lemma PassBudget(log: seq<Event>, limit: real, session: string, estimate: real)
    requires WellGranted(log, limit) && NonNegativeAmounts(log)
    requires NothingReleased(log) && FixedEstimate(log, session, estimate)
    ensures Balance(log, session) == Passes(log, session) as real * estimate + Spent(log, session)
    ensures estimate >= 0.0 ==> Balance(log, session) >= Spent(log, session)
    ensures Passes(log, session) > 0 ==> Passes(log, session) as real * estimate <= limit
  {
    hide *;
    LedgerIsPassesPlusSpent(log, session, estimate);
    PassesBounded(log, limit, session, estimate);
    Product(Passes(log, session), estimate);
  }

  // ---- Token counters --------------------------------------------------------

  function TokensIn(log: seq<Event>, session: string): int {
    if |log| == 0 then 0
    else
      var e := log[|log| - 1];
      TokensIn(log[..|log| - 1], session) + (if e.Settled? && e.session == session then e.input else 0)
  }

  function TokensOut(log: seq<Event>, session: string): int {
    if |log| == 0 then 0
    else
      var e := log[|log| - 1];
      TokensOut(log[..|log| - 1], session) + (if e.Settled? && e.session == session then e.output else 0)
  }

  /** Tokens settled on `day`, over all sessions. */
  function TokensOn(log: seq<Event>, day: int): int {
    if |log| == 0 then 0
    else
      var e := log[|log| - 1];
      TokensOn(log[..|log| - 1], day) + (if e.Settled? && e.day == day then e.input + e.output else 0)
  }

  /** No settlement is dated after `day`. */
  predicate DatedUpTo(log: seq<Event>, day: int) {
    forall i :: 0 <= i < |log| && log[i].Settled? ==> log[i].day <= day
  }

  lemma {:induction false} NothingYet(log: seq<Event>, day: int)
    requires forall i :: 0 <= i < |log| && log[i].Settled? ==> log[i].day < day
    ensures TokensOn(log, day) == 0
  {
    if |log| > 0 {
      var before := log[..|log| - 1];
      assert forall i :: 0 <= i < |before| ==> before[i] == log[i];
      NothingYet(before, day);
    }
  }

  ghost predicate CostsAgree(costs: map<string, real>, log: seq<Event>) {
    forall s :: Lookup(costs, s, 0.0) == Balance(log, s)
  }

  ghost predicate TokensAgree(tokens: map<string, (int, int)>, log: seq<Event>) {
    forall s :: Lookup(tokens, s, (0, 0)) == (TokensIn(log, s), TokensOut(log, s))
  }

  ghost predicate DailyAgrees(daily: int, resetDay: Option<int>, log: seq<Event>) {
    match resetDay
    case None => daily == 0 && forall i :: 0 <= i < |log| ==> !log[i].Settled?
    case Some(day) => daily == TokensOn(log, day) && DatedUpTo(log, day)
  }

  /** Everything the tracker's fields owe the log of locked steps. */
  ghost predicate Agrees(costs: map<string, real>, tokens: map<string, (int, int)>, daily: int, resetDay: Option<int>,
                         log: seq<Event>, limit: real)
  {
    && CostsAgree(costs, log)
    && TokensAgree(tokens, log)
    && DailyAgrees(daily, resetDay, log)
    && WellGranted(log, limit)
    && NonNegativeAmounts(log)
  }

  lemma FieldsOf(costs: map<string, real>, tokens: map<string, (int, int)>, daily: int, resetDay: Option<int>,
                 log: seq<Event>, limit: real, s: string)
    requires Agrees(costs, tokens, daily, resetDay, log, limit)
    ensures Lookup(costs, s, 0.0) == Balance(log, s)
    ensures Lookup(tokens, s, (0, 0)) == (TokensIn(log, s), TokensOut(log, s))
    ensures resetDay.Some? ==> daily == TokensOn(log, resetDay.value)
  {
  }

  lemma CostsAfter(costs: map<string, real>, log: seq<Event>, e: Event, costs': map<string, real>)
    requires CostsAgree(costs, log)
    requires forall s :: Lookup(costs', s, 0.0) == Lookup(costs, s, 0.0) + Delta(e, s)
    ensures CostsAgree(costs', log + [e])
  {
    assert (log + [e])[..|log|] == log;
    forall s ensures Lookup(costs', s, 0.0) == Balance(log + [e], s) {
      assert Lookup(costs, s, 0.0) == Balance(log, s);
    }
  }

  lemma TokensAfter(tokens: map<string, (int, int)>, log: seq<Event>, e: Event)
    requires TokensAgree(tokens, log)
    ensures !e.Settled? ==> TokensAgree(tokens, log + [e])
    ensures e.Settled? ==>
      var (i, o) := Lookup(tokens, e.session, (0, 0));
      TokensAgree(tokens[e.session := (i + e.input, o + e.output)], log + [e])
  {
    assert (log + [e])[..|log|] == log;
    var (i, o) := Lookup(tokens, e.session, (0, 0));
    forall s ensures Lookup(tokens, s, (0, 0)) == (TokensIn(log, s), TokensOut(log, s)) {
    }
    assert e.Settled? ==> forall s :: Lookup(tokens[e.session := (i + e.input, o + e.output)], s, (0, 0))
                                      == (TokensIn(log + [e], s), TokensOut(log + [e], s));
  }

  /** The daily counter, restarted on the first settlement of a new day, is the
      total of that day as long as the clock does not run backward. */
  lemma DailyAfter(daily: int, resetDay: Option<int>, log: seq<Event>, e: Event)
    requires DailyAgrees(daily, resetDay, log)
    requires e.Settled? && resetDay.Some? ==> resetDay.value <= e.day
    ensures !e.Settled? ==> DailyAgrees(daily, resetDay, log + [e])
    ensures e.Settled? ==>
      DailyAgrees((if resetDay == Some(e.day) then daily else 0) + e.input + e.output, Some(e.day), log + [e])
  {
    assert (log + [e])[..|log|] == log;
    if e.Settled? && resetDay != Some(e.day) {
      NothingYet(log, e.day);
    }
  }

  lemma StepAgrees(costs: map<string, real>, tokens: map<string, (int, int)>, daily: int, resetDay: Option<int>,
                   log: seq<Event>, limit: real, e: Event,
                   costs': map<string, real>, tokens': map<string, (int, int)>, daily': int, resetDay': Option<int>)
    requires Agrees(costs, tokens, daily, resetDay, log, limit)
    requires forall s :: Lookup(costs', s, 0.0) == Lookup(costs, s, 0.0) + Delta(e, s)
    requires if e.Settled?
      then
        var (i, o) := Lookup(tokens, e.session, (0, 0));
        && (resetDay.Some? ==> resetDay.value <= e.day)
        && tokens' == tokens[e.session := (i + e.input, o + e.output)]
        && daily' == (if resetDay == Some(e.day) then daily else 0) + e.input + e.output
        && resetDay' == Some(e.day)
      else
        && tokens' == tokens && daily' == daily && resetDay' == resetDay
        && (e.Reserved? <==> Lookup(costs, e.session, 0.0) + e.amount <= limit)
    requires (if e.Settled? then e.actual else e.amount) >= 0.0
    ensures Agrees(costs', tokens', daily', resetDay', log + [e], limit)
  {
    CostsAfter(costs, log, e, costs');
    TokensAfter(tokens, log, e);
    DailyAfter(daily, resetDay, log, e);
    assert (log + [e])[..|log|] == log;
    assert Lookup(costs, e.session, 0.0) == Balance(log, e.session);
  }

  class CostTracker {
    const perSessionLimit: real
    const price: Pricing
    var costs: map<string, real>
    var tokens: map<string, (int, int)>
    var daily: int
    var resetDay: Option<int>
    ghost var log: seq<Event>

    ghost predicate Valid()
      reads this
    {
      Agrees(costs, tokens, daily, resetDay, log, perSessionLimit)
    }

    constructor (limit: real := 50.0, price: Pricing)
      ensures Valid() && log == [] && perSessionLimit == limit && this.price == price
      ensures costs == map[] && tokens == map[] && daily == 0 && resetDay == None
    {
      this.perSessionLimit, this.price := limit, price;
      costs, tokens, daily, resetDay := map[], map[], 0, None;
      log := [];
    }

    /** Reserve the estimated cost, or refuse. */
    method PreCheck(session: string, model: string, estimatedTokens: int := 10000) returns (granted: bool)
      requires Valid()
      modifies this`costs, this`log
      ensures Valid()
      ensures var estimate := price(model, estimatedTokens, estimatedTokens);
              && (granted <==> Balance(old(log), session) + estimate <= perSessionLimit)
              && log == old(log) + [if granted then Reserved(session, estimate) else Refused(session, estimate)]
              && (granted <==> Lookup(old(costs), session, 0.0) + estimate <= perSessionLimit)
              && costs == if granted then old(costs)[session := Lookup(old(costs), session, 0.0) + estimate] else old(costs)
    {
      hide Agrees;
      var estimate := price(model, estimatedTokens, estimatedTokens);
      var current := Lookup(costs, session, 0.0);
      FieldsOf(costs, tokens, daily, resetDay, log, perSessionLimit, session);
      granted := !(current + estimate > perSessionLimit);
      if granted {
        costs := costs[session := current + estimate];
      }
      ghost var e := if granted then Reserved(session, estimate) else Refused(session, estimate);
      StepAgrees(old(costs), tokens, daily, resetDay, log, perSessionLimit, e, costs, tokens, daily, resetDay);
      log := log + [e];
    }

    /** Replace a reservation by the actual cost and count the tokens.  `claim`
        says which reservation the caller is giving back. */
    method Track(session: string, model: string, input: int, output: int, reserved: real := 0.0, today: int,
                 ghost claim: Option<nat> := None)
      returns (within: bool, sessionCost: real, sessionTokens: (int, int), dailyTokens: int)
      requires Valid() && (resetDay.Some? ==> resetDay.value <= today)
      modifies this`costs, this`tokens, this`daily, this`resetDay, this`log
      ensures Valid() && resetDay == Some(today)
      ensures log == old(log) + [Settled(session, claim, reserved, price(model, input, output), input, output, today)]
      ensures sessionCost == Balance(log, session)
      ensures within <==> sessionCost <= perSessionLimit
      ensures sessionTokens == (TokensIn(log, session), TokensOut(log, session))
      ensures dailyTokens == TokensOn(log, today)
      ensures costs == old(costs)[session := Lookup(old(costs), session, 0.0) - reserved + price(model, input, output)]
      ensures var (i, o) := Lookup(old(tokens), session, (0, 0)); tokens == old(tokens)[session := (i + input, o + output)]
      ensures daily == (if old(resetDay) == Some(today) then old(daily) else 0) + input + output
    {
      hide Agrees, Balance, TokensIn, TokensOut, TokensOn;
      var actual := price(model, input, output);
      var current := Lookup(costs, session, 0.0);
      costs := costs[session := current - reserved + actual];
      var counted := Lookup(tokens, session, (0, 0));
      tokens := tokens[session := (counted.0 + input, counted.1 + output)];
      if resetDay != Some(today) {
        daily := 0;
        resetDay := Some(today);
      }
      daily := daily + input + output;
      ghost var e := Settled(session, claim, reserved, actual, input, output, today);
      StepAgrees(old(costs), old(tokens), old(daily), old(resetDay), log, perSessionLimit, e,
                 costs, tokens, daily, resetDay);
      log := log + [e];
      sessionCost, sessionTokens, dailyTokens := costs[session], tokens[session], daily;
      FieldsOf(costs, tokens, daily, resetDay, log, perSessionLimit, session);
      within := !(sessionCost > perSessionLimit);
    }
  }
}
