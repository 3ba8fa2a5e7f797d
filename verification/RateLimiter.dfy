/** The in-memory rate limiter (src/core/hooks.py, RateLimiter): a per-session
    counter and a 60-second window per agent, with a sweep that drops idle
    agents.  The class is proved against the untrimmed history of every call. */
module RateLimiting {
  import opened Prelude
  import opened SlidingWindow

  const WIDTH := 60.0
  const IDLE := 3600.0

  datatype Verdict = Allowed | SessionBlocked | MinuteBlocked

  datatype Event =
    | Call(session: string, agent: string, at: real, verdict: Verdict)
    | SessionReset(id: string)
    | AgentReset(id: string)

  /** The dictionary keys of the source, which writes them as prefixed strings. */
  datatype Key = Session(id: string) | Agent(id: string)

  function Render(k: Key): string {
    match k
    case Session(id) => "session:" + id
    case Agent(id) => "agent:" + id
  }

  /** Working with tagged keys loses nothing: no two of them share a spelling. */
  lemma RenderInjective(a: Key, b: Key)
    ensures Render(a) == Render(b) <==> a == b
  {
    if Render(a) == Render(b) {
      assert Render(a)[0] == Render(b)[0];
      assert Render(a)[|Render(a)| - |a.id|..] == a.id;
      assert Render(b)[|Render(b)| - |b.id|..] == b.id;
    }
  }

  function CountKey(session: string, agent: string): Key {
    if session != "" then Session(session) else Agent(agent)
  }

  /** The counters and windows a reset pops: the prefixed key it builds, and
      whatever key happens to be spelled exactly like the id it was given. */
  predicate PopsCount(e: Event, key: Key) {
    match e
    case Call(_, _, _, _) => false
    case SessionReset(id) => key == Session(id) || Render(key) == id
    case AgentReset(id) => key == Agent(id) || Render(key) == id
  }

  /** What is left of a dictionary after popping `key` and the spelling `id`. */
  function Popped<V>(m: map<Key, V>, key: Key, id: string): map<Key, V> {
    map k | k in m && k != key && Render(k) != id :: m[k]
  }

  predicate PopsWindow(e: Event, key: Key) {
    !e.Call? && (key == Agent(e.id) || Render(key) == e.id)
  }

  /** Calls counted under `key` since it was last reset, never swept. */
  function CountFor(h: seq<Event>, key: Key): (n: nat) {
    if |h| == 0 then 0
    else
      var before, e := CountFor(h[..|h| - 1], key), h[|h| - 1];
      if PopsCount(e, key) then 0
      else if e.Call? && CountKey(e.session, e.agent) == key then before + 1
      else before
  }

  /** Instants of the calls of `agent` that reached its window since the window
      was last reset, rejected ones included, never trimmed. */
  function Recorded(h: seq<Event>, agent: string): (ts: seq<real>) {
    if |h| == 0 then []
    else
      var before, e := Recorded(h[..|h| - 1], agent), h[|h| - 1];
      if PopsWindow(e, Agent(agent)) then []
      else if e.Call? && e.agent == agent && !e.verdict.SessionBlocked? then before + [e.at]
      else before
  }

  /** The verdict of the last event is the one the full history calls for.  A
      caller without a session shares its counter with the sweep, so for it the
      history only bounds the count from above. */
  ghost predicate Justified(h: seq<Event>, maxSession: int, maxMinute: int)
    requires |h| > 0
  {
    var e := h[|h| - 1];
    e.Call? ==>
      && (e.session != "" ==> (e.verdict.SessionBlocked? <==> CountFor(h, Session(e.session)) > maxSession))
      && (e.verdict.SessionBlocked? ==> CountFor(h, CountKey(e.session, e.agent)) > maxSession)
      && (!e.verdict.SessionBlocked? ==>
            (e.verdict.Allowed? <==> |Recent(Recorded(h, e.agent), e.at, WIDTH)| <= maxMinute))
  }

  ghost predicate WellDecided(h: seq<Event>, maxSession: int, maxMinute: int) {
    |h| == 0 || (WellDecided(h[..|h| - 1], maxSession, maxMinute) && Justified(h, maxSession, maxMinute))
  }

  function CountOf(counts: map<Key, int>, key: Key): int {
    if key in counts then counts[key] else 0
  }

  function WindowOf(windows: map<Key, seq<real>>, key: Key): seq<real> {
    if key in windows then windows[key] else []
  }

  /** A window holds the instants of one agent, the latest last. */
  ghost predicate WindowShape(key: Key, w: seq<real>, clock: real) {
    && key.Agent?
    && |w| > 0 && w[|w| - 1] <= clock
    && forall t :: t in w ==> t <= w[|w| - 1]
  }

  /** The trimmed, swept windows and the untrimmed history give every reader
      from `clock` on the same last sixty seconds. */
  ghost predicate WindowsAgree(windows: map<Key, seq<real>>, h: seq<Event>, clock: real) {
    && (forall k :: k in windows ==> WindowShape(k, windows[k], clock))
    && (forall a :: SameFrom(WindowOf(windows, Agent(a)), Recorded(h, a), clock, WIDTH))
  }

  /** Session counters match the history exactly; the others never exceed it. */
  ghost predicate CountsAgree(counts: map<Key, int>, h: seq<Event>) {
    && (forall k :: CountOf(counts, k) <= CountFor(h, k))
    && (forall s :: CountOf(counts, Session(s)) == CountFor(h, Session(s)))
  }

  /** Calls happen in clock order, none after `clock`. */
  ghost predicate TimesUpTo(h: seq<Event>, clock: real) {
    |h| == 0 ||
    var e := h[|h| - 1];
    if e.Call? then e.at <= clock && TimesUpTo(h[..|h| - 1], e.at) else TimesUpTo(h[..|h| - 1], clock)
  }

  lemma {:induction false} TimesUpToLater(h: seq<Event>, clock: real, later: real)
    requires TimesUpTo(h, clock) && clock <= later
    ensures TimesUpTo(h, later)
  {
    if |h| > 0 && !h[|h| - 1].Call? {
      TimesUpToLater(h[..|h| - 1], clock, later);
    }
  }

  predicate Stale(windows: map<Key, seq<real>>, key: Key, now: real) {
    key in windows && (windows[key] == [] || now - windows[key][|windows[key]| - 1] > IDLE)
  }

  /** Dropping idle agents never changes what a later check sees: their windows
      were already empty, and no session counter is ever dropped. */
  lemma SweepIsInvisible(counts: map<Key, int>, windows: map<Key, seq<real>>, stale: set<Key>,
                         h: seq<Event>, before: real, now: real)
    requires WindowsAgree(windows, h, before) && CountsAgree(counts, h) && before <= now
    requires forall k :: k in stale ==> Stale(windows, k, now)
    ensures WindowsAgree(windows - stale, h, now) && CountsAgree(counts - stale, h)
  {
    forall a ensures SameFrom(WindowOf(windows - stale, Agent(a)), Recorded(h, a), now, WIDTH) {
      var k := Agent(a);
      assert SameFrom(WindowOf(windows, k), Recorded(h, a), before, WIDTH);
      if k in stale {
        forall later | now <= later
          ensures Recent([], later, WIDTH) == Recent(Recorded(h, a), later, WIDTH)
        {
          AllStale(windows[k], later, WIDTH);
        }
      }
    }
    forall s ensures CountOf(counts - stale, Session(s)) == CountFor(h, Session(s)) {
      assert Session(s) !in stale;
      assert CountOf(counts, Session(s)) == CountFor(h, Session(s));
    }
    forall k ensures CountOf(counts - stale, k) <= CountFor(h, k) {
      assert CountOf(counts, k) <= CountFor(h, k);
    }
  }

  lemma CountsAfterCall(counts: map<Key, int>, h: seq<Event>, e: Event)
    requires CountsAgree(counts, h) && e.Call?
    ensures var key := CountKey(e.session, e.agent);
            CountsAgree(counts[key := CountOf(counts, key) + 1], h + [e])
  {
    var key := CountKey(e.session, e.agent);
    var after := counts[key := CountOf(counts, key) + 1];
    assert (h + [e])[..|h|] == h;
    forall k ensures CountOf(after, k) <= CountFor(h + [e], k) {
      assert CountOf(counts, k) <= CountFor(h, k);
    }
    forall s ensures CountOf(after, Session(s)) == CountFor(h + [e], Session(s)) {
      assert CountOf(counts, Session(s)) == CountFor(h, Session(s));
    }
  }

  lemma RecordedAfterCall(h: seq<Event>, e: Event, agent: string)
    requires e.Call?
    ensures Recorded(h + [e], agent) ==
            Recorded(h, agent) + (if agent == e.agent && !e.verdict.SessionBlocked? then [e.at] else [])
  {
    assert (h + [e])[..|h|] == h;
  }

  /** A call the counter rejects leaves every window as it was. */
  lemma WindowsAfterRejection(windows: map<Key, seq<real>>, h: seq<Event>, e: Event, before: real)
    requires WindowsAgree(windows, h, before) && e.Call? && before <= e.at && e.verdict.SessionBlocked?
    ensures WindowsAgree(windows, h + [e], e.at)
  {
    forall a ensures SameFrom(WindowOf(windows, Agent(a)), Recorded(h + [e], a), e.at, WIDTH) {
      RecordedAfterCall(h, e, a);
      assert SameFrom(WindowOf(windows, Agent(a)), Recorded(h, a), before, WIDTH);
    }
  }

  /** Recording a call of one agent leaves the others' windows in agreement. */
  lemma OtherWindowsAfterRecord(windows: map<Key, seq<real>>, h: seq<Event>, e: Event, before: real,
                                w: seq<real>, a: string)
    requires WindowsAgree(windows, h, before) && e.Call? && before <= e.at && a != e.agent
    ensures SameFrom(WindowOf(windows[Agent(e.agent) := w], Agent(a)), Recorded(h + [e], a), e.at, WIDTH)
  {
    RecordedAfterCall(h, e, a);
    assert SameFrom(WindowOf(windows, Agent(a)), Recorded(h, a), before, WIDTH);
    assert Agent(a) != Agent(e.agent);
  }

  /** Appending the call to its agent's window and trimming gives the last sixty
      seconds of the full history, rejected calls included. */
  lemma OwnWindowAfterRecord(windows: map<Key, seq<real>>, h: seq<Event>, e: Event, before: real)
    requires WindowsAgree(windows, h, before) && e.Call? && before <= e.at && !e.verdict.SessionBlocked?
    ensures var trimmed := Recent(WindowOf(windows, Agent(e.agent)) + [e.at], e.at, WIDTH);
            && trimmed == Recent(Recorded(h + [e], e.agent), e.at, WIDTH)
            && SameFrom(trimmed, Recorded(h + [e], e.agent), e.at, WIDTH)
            && WindowShape(Agent(e.agent), trimmed, e.at)
  {
    var w := WindowOf(windows, Agent(e.agent));
    RecordedAfterCall(h, e, e.agent);
    assert SameFrom(w, Recorded(h, e.agent), before, WIDTH);
    SameAfterRecord(w, Recorded(h, e.agent), before, e.at, WIDTH);
    RecentAppend(w, e.at, e.at, WIDTH);
    forall t | t in Recent(w + [e.at], e.at, WIDTH) ensures t <= e.at {
      assert t in w + [e.at];
    }
  }

  lemma WindowsAfterRecord(windows: map<Key, seq<real>>, h: seq<Event>, e: Event, before: real, trimmed: seq<real>)
    requires WindowsAgree(windows, h, before) && e.Call? && before <= e.at && !e.verdict.SessionBlocked?
    requires trimmed == Recent(WindowOf(windows, Agent(e.agent)) + [e.at], e.at, WIDTH)
    ensures trimmed == Recent(Recorded(h + [e], e.agent), e.at, WIDTH)
    ensures WindowsAgree(windows[Agent(e.agent) := trimmed], h + [e], e.at)
  {
    OwnWindowAfterRecord(windows, h, e, before);
    forall a ensures SameFrom(WindowOf(windows[Agent(e.agent) := trimmed], Agent(a)), Recorded(h + [e], a), e.at, WIDTH) {
      if a != e.agent {
        OtherWindowsAfterRecord(windows, h, e, before, trimmed, a);
      }
    }
  }

  lemma AfterReset(counts: map<Key, int>, windows: map<Key, seq<real>>, h: seq<Event>, e: Event, clock: real,
                   counts': map<Key, int>, windows': map<Key, seq<real>>)
    requires WindowsAgree(windows, h, clock) && CountsAgree(counts, h) && !e.Call?
    requires counts' == map k | k in counts && !PopsCount(e, k) :: counts[k]
    requires windows' == map k | k in windows && !PopsWindow(e, k) :: windows[k]
    ensures WindowsAgree(windows', h + [e], clock) && CountsAgree(counts', h + [e])
  {
    assert (h + [e])[..|h|] == h;
    forall a ensures SameFrom(WindowOf(windows', Agent(a)), Recorded(h + [e], a), clock, WIDTH) {
      assert SameFrom(WindowOf(windows, Agent(a)), Recorded(h, a), clock, WIDTH);
    }
    forall k ensures CountOf(counts', k) <= CountFor(h + [e], k) {
      assert CountOf(counts, k) <= CountFor(h, k);
    }
    forall s ensures CountOf(counts', Session(s)) == CountFor(h + [e], Session(s)) {
      assert CountOf(counts, Session(s)) == CountFor(h, Session(s));
    }
  }

  /** Everything a limiter's fields owe its history. */
  ghost predicate Faithful(counts: map<Key, int>, windows: map<Key, seq<real>>, h: seq<Event>, clock: real,
                           maxSession: int, maxMinute: int)
  {
    && WindowsAgree(windows, h, clock)
    && CountsAgree(counts, h)
    && WellDecided(h, maxSession, maxMinute)
    && TimesUpTo(h, clock)
  }

  /** A check that counts the call, and records it unless the counter rejects
      it, decides as the full history does. */
  lemma CheckIsFaithful(counts: map<Key, int>, windows: map<Key, seq<real>>, h: seq<Event>, before: real,
                        maxSession: int, maxMinute: int, e: Event,
                        counts': map<Key, int>, windows': map<Key, seq<real>>)
    requires Faithful(counts, windows, h, before, maxSession, maxMinute)
    requires e.Call? && before <= e.at
    requires counts' == counts[CountKey(e.session, e.agent) := CountOf(counts, CountKey(e.session, e.agent)) + 1]
    requires e.verdict.SessionBlocked? <==> counts'[CountKey(e.session, e.agent)] > maxSession
    requires e.verdict.SessionBlocked? ==> windows' == windows
    requires !e.verdict.SessionBlocked? ==>
      var trimmed := Recent(WindowOf(windows, Agent(e.agent)) + [e.at], e.at, WIDTH);
      && windows' == windows[Agent(e.agent) := trimmed]
      && (e.verdict.Allowed? <==> |trimmed| <= maxMinute)
    ensures Faithful(counts', windows', h + [e], e.at, maxSession, maxMinute)
    ensures !e.verdict.SessionBlocked? ==>
      windows'[Agent(e.agent)] == Recent(Recorded(h + [e], e.agent), e.at, WIDTH)
  {
    CountsAfterCall(counts, h, e);
    if e.verdict.SessionBlocked? {
      WindowsAfterRejection(windows, h, e, before);
    } else {
      WindowsAfterRecord(windows, h, e, before, windows'[Agent(e.agent)]);
    }
    assert Justified(h + [e], maxSession, maxMinute) by {
      var k := CountKey(e.session, e.agent);
      assert CountOf(counts', k) <= CountFor(h + [e], k);
      if e.session != "" {
        assert CountOf(counts', Session(e.session)) == CountFor(h + [e], Session(e.session));
      }
    }
    assert (h + [e])[..|h|] == h;
    TimesUpToLater(h, before, e.at);
  }

  /** What a reset leaves: everything but the prefixed key it builds and the key
      that happens to be spelled like the id. */
  lemma PoppedExactly<V>(m: map<Key, V>, key: Key, id: string)
    ensures forall s :: Session(s) in Popped(m, key, id) <==> Session(s) in m && Session(s) != key && "session:" + s != id
    ensures forall a :: Agent(a) in Popped(m, key, id) <==> Agent(a) in m && Agent(a) != key && "agent:" + a != id
  {
  }

  lemma ResetIsFaithful(counts: map<Key, int>, windows: map<Key, seq<real>>, h: seq<Event>, clock: real,
                        maxSession: int, maxMinute: int, e: Event, key: Key)
    requires Faithful(counts, windows, h, clock, maxSession, maxMinute)
    requires !e.Call? && key == (if e.SessionReset? then Session(e.id) else Agent(e.id))
    ensures Faithful(Popped(counts, key, e.id), Popped(windows, Agent(e.id), e.id), h + [e], clock, maxSession, maxMinute)
  {
    hide WindowsAgree, CountsAgree;
    AfterReset(counts, windows, h, e, clock, Popped(counts, key, e.id), Popped(windows, Agent(e.id), e.id));
    assert (h + [e])[..|h|] == h;
  }

  // ---- Whole-run bounds ---------------------------------------------------

  predicate AllowedCall(e: Event, agent: string, start: real) {
    e.Call? && e.agent == agent && e.verdict.Allowed? && start <= e.at < start + 60.0
  }

  /** Calls of `agent` allowed in [start, start + 60), from position `from` on. */
  function AllowedInSpan(h: seq<Event>, from: nat, agent: string, start: real): (n: nat) {
    if |h| <= from then 0
    else AllowedInSpan(h[..|h| - 1], from, agent, start)
         + (if AllowedCall(h[|h| - 1], agent, start) then 1 else 0)
  }

  lemma {:induction false} AllowedWereRecorded(h: seq<Event>, from: nat, agent: string, start: real)
    requires forall i :: from <= i < |h| ==> !PopsWindow(h[i], Agent(agent))
    ensures AllowedInSpan(h, from, agent, start) <= CountFrom(Recorded(h, agent), start)
  {
    if |h| > from {
      var init, e := h[..|h| - 1], h[|h| - 1];
      AllowedWereRecorded(init, from, agent, start);
      if e.Call? && e.agent == agent && !e.verdict.SessionBlocked? {
        CountFromAppend(Recorded(init, agent), e.at, start);
      }
    }
  }

  /** No half-open minute of any run holds more than `maxMinute` allowed calls of
      one agent, between two resets of that agent. */
  lemma {:induction false} MinuteBound(h: seq<Event>, from: nat, clock: real, maxSession: int, maxMinute: int,
                                       agent: string, start: real)
    requires WellDecided(h, maxSession, maxMinute) && TimesUpTo(h, clock)
    requires forall i :: from <= i < |h| ==> !PopsWindow(h[i], Agent(agent))
    ensures AllowedInSpan(h, from, agent, start) <= Max0(maxMinute)
  {
    hide Recent, Recorded, Justified;
    if |h| > from {
      var e := h[|h| - 1];
      if AllowedCall(e, agent, start) {
        hide AllowedInSpan;
        AllowedWereRecorded(h, from, agent, start);
        WindowCovers(Recorded(h, agent), start, e.at, WIDTH);
        AllowedFits(h, maxSession, maxMinute);
      } else {
        MinuteBound(h[..|h| - 1], from, if e.Call? then e.at else clock, maxSession, maxMinute, agent, start);
      }
    }
  }

  /** An allowed call finds its own window within the limit. */
  lemma AllowedFits(h: seq<Event>, maxSession: int, maxMinute: int)
    requires |h| > 0 && Justified(h, maxSession, maxMinute) && h[|h| - 1].Call? && h[|h| - 1].verdict.Allowed?
    ensures var e := h[|h| - 1]; |Recent(Recorded(h, e.agent), e.at, WIDTH)| <= maxMinute
  {
  }

  function AllowedForSession(h: seq<Event>, from: nat, session: string): (n: nat) {
    if |h| <= from then 0
    else
      var e := h[|h| - 1];
      AllowedForSession(h[..|h| - 1], from, session)
      + (if e.Call? && e.session == session && e.verdict.Allowed? then 1 else 0)
  }

  /** A session is never allowed more than `maxSession` calls between resets,
      however long the run and whatever the sweep dropped. */
  lemma {:induction false} SessionBound(h: seq<Event>, from: nat, maxSession: int, maxMinute: int, session: string)
    requires session != "" && WellDecided(h, maxSession, maxMinute)
    requires forall i :: from <= i < |h| ==> !PopsCount(h[i], Session(session))
    ensures AllowedForSession(h, from, session) <= CountFor(h, Session(session))
    ensures AllowedForSession(h, from, session) <= Max0(maxSession)
  {
    if |h| > from {
      SessionBound(h[..|h| - 1], from, maxSession, maxMinute, session);
    }
  }

  /** Once a session has hit its cap, every later call of it is rejected until a
      reset pops its counter. */
  lemma {:induction false} CapStaysTripped(h: seq<Event>, i: nat, j: nat, maxSession: int, maxMinute: int, session: string)
    requires session != "" && WellDecided(h, maxSession, maxMinute) && i < j < |h|
    requires h[i].Call? && h[i].session == session && h[i].verdict.SessionBlocked?
    requires h[j].Call? && h[j].session == session
    requires forall k :: i < k <= j ==> !PopsCount(h[k], Session(session))
    ensures h[j].verdict.SessionBlocked?
  {
    DecidedAt(h, i, maxSession, maxMinute);
    DecidedAt(h, j, maxSession, maxMinute);
    CountGrows(h[..j + 1], i + 1, Session(session));
    assert h[..j + 1][..i + 1] == h[..i + 1];
  }

  lemma {:induction false} DecidedAt(h: seq<Event>, i: nat, maxSession: int, maxMinute: int)
    requires WellDecided(h, maxSession, maxMinute) && i < |h|
    ensures Justified(h[..i + 1], maxSession, maxMinute)
  {
    if i + 1 < |h| {
      DecidedAt(h[..|h| - 1], i, maxSession, maxMinute);
      assert h[..|h| - 1][..i + 1] == h[..i + 1];
    } else {
      assert h[..i + 1] == h;
    }
  }

  lemma {:induction false} CountGrows(h: seq<Event>, n: nat, key: Key)
    requires n <= |h|
    requires forall k :: n <= k < |h| ==> !PopsCount(h[k], key)
    ensures CountFor(h[..n], key) <= CountFor(h, key)
  {
    if n == |h| {
      assert h[..n] == h;
    } else {
      CountGrows(h[..|h| - 1], n, key);
      assert h[..|h| - 1][..n] == h[..n];
    }
  }

  class RateLimiter {
    const maxPerSession: int
    const maxPerMinute: int
    var counts: map<Key, int>
    var windows: map<Key, seq<real>>
    var checkCount: nat
    ghost var history: seq<Event>
    ghost var clock: real

    ghost predicate Valid()
      reads this
    {
      Faithful(counts, windows, history, clock, maxPerSession, maxPerMinute)
    }

    constructor (maxCallsPerSession: int := 100, maxCallsPerMinute: int := 30)
      ensures Valid() && history == [] && counts == map[] && windows == map[] && checkCount == 0
      ensures maxPerSession == maxCallsPerSession && maxPerMinute == maxCallsPerMinute
    {
      maxPerSession, maxPerMinute := maxCallsPerSession, maxCallsPerMinute;
      counts, windows, checkCount := map[], map[], 0;
      history, clock := [], 0.0;
    }

    predicate SweepDue()
      reads this
    {
      |counts| > 10000 || (checkCount + 1) % 100 == 0
    }

    /** The count a check starts from, after the sweep it may run first. */
    ghost function CountAfterSweep(key: Key, now: real): int
      reads this
    {
      if SweepDue() && Stale(windows, key, now) then 0 else CountOf(counts, key)
    }

    method CleanupStaleAgents(now: real)
      requires Valid() && clock <= now
      modifies this`counts, this`windows, this`clock
      ensures Valid() && clock == now
      ensures windows == map k | k in old(windows) && !Stale(old(windows), k, now) :: old(windows)[k]
      ensures counts == map k | k in old(counts) && !Stale(old(windows), k, now) :: old(counts)[k]
      // a window whose last call is more than an hour ago goes, with the counter of its name
      ensures forall k :: k in windows <==>
                            && k in old(windows) && |old(windows)[k]| > 0
                            && now - old(windows)[k][|old(windows)[k]| - 1] <= 3600.0
      ensures forall k :: k in counts <==> k in old(counts) && (k in old(windows) ==> k in windows)
    {
      var stale := set k | k in windows && Stale(windows, k, now);
      SweepIsInvisible(counts, windows, stale, history, clock, now);
      TimesUpToLater(history, clock, now);
      Drop(stale);
      clock := now;
    }

    method Drop(stale: set<Key>)
      modifies this`counts, this`windows
      ensures windows == old(windows) - stale && counts == old(counts) - stale
    {
      var todo := stale;
      while todo != {}
        invariant todo <= stale
        invariant windows == old(windows) - (stale - todo)
        invariant counts == old(counts) - (stale - todo)
        decreases |todo|
      {
        var key :| key in todo;
        counts := counts - {key};
        windows := windows - {key};
        todo := todo - {key};
      }
    }

    /** One rate-limit check.  `sweepAt` and `now` are the two clock readings the
        check may take, in order. */
    method Check(session: string, agent: string, sweepAt: real, now: real) returns (verdict: Verdict)
      requires Valid() && clock <= sweepAt <= now
      modifies this`counts, this`windows, this`checkCount, this`history, this`clock
      ensures Valid() && clock == now && checkCount == old(checkCount) + 1
      ensures history == old(history) + [Call(session, agent, now, verdict)]
      ensures forall k :: CountOf(counts, k) ==
                          old(CountAfterSweep(k, sweepAt)) + (if k == CountKey(session, agent) then 1 else 0)
      ensures verdict.SessionBlocked? <==>
                CountOf(counts, if session != "" then Session(session) else Agent(agent)) > maxPerSession
      ensures !verdict.SessionBlocked? ==>
                && Agent(agent) in windows
                && windows[Agent(agent)] == Recent(Recorded(history, agent), now, 60.0)
                && (verdict.Allowed? <==> |windows[Agent(agent)]| <= maxPerMinute)
    {
      hide Faithful;
      checkCount := checkCount + 1;
      if |counts| > 10000 || checkCount % 100 == 0 {
        CleanupStaleAgents(sweepAt);
      }
      verdict := CountAndDecide(session, agent, now);
    }

    /** The part of a check that follows the sweep. */
    method CountAndDecide(session: string, agent: string, now: real) returns (verdict: Verdict)
      requires Valid() && clock <= now
      modifies this`counts, this`windows, this`history, this`clock
      ensures Valid() && clock == now
      ensures history == old(history) + [Call(session, agent, now, verdict)]
      ensures var k := CountKey(session, agent); counts == old(counts)[k := CountOf(old(counts), k) + 1]
      ensures verdict.SessionBlocked? <==> counts[CountKey(session, agent)] > maxPerSession
      ensures !verdict.SessionBlocked? ==>
                && Agent(agent) in windows
                && windows[Agent(agent)] == Recent(Recorded(history, agent), now, WIDTH)
                && (verdict.Allowed? <==> |windows[Agent(agent)]| <= maxPerMinute)
    {
      hide Faithful, Recent, Recorded;
      var sessionKey, agentKey := CountKey(session, agent), Agent(agent);
      counts := counts[sessionKey := (if sessionKey in counts then counts[sessionKey] else 0) + 1];
      if counts[sessionKey] > maxPerSession {
        verdict := SessionBlocked;
      } else {
        var window := (if agentKey in windows then windows[agentKey] else []) + [now];
        windows := windows[agentKey := Recent(window, now, WIDTH)];
        verdict := if |windows[agentKey]| > maxPerMinute then MinuteBlocked else Allowed;
      }
      ghost var e := Call(session, agent, now, verdict);
      CheckIsFaithful(old(counts), old(windows), history, clock, maxPerSession, maxPerMinute, e, counts, windows);
      history := history + [e];
      clock := now;
    }

    method ResetSession(id: string)
      requires Valid()
      modifies this`counts, this`windows, this`history
      ensures Valid() && history == old(history) + [SessionReset(id)]
      ensures counts == Popped(old(counts), Session(id), id)
      ensures windows == Popped(old(windows), Agent(id), id)
      ensures forall s :: Session(s) in counts <==> Session(s) in old(counts) && s != id && "session:" + s != id
      ensures forall a :: Agent(a) in counts <==> Agent(a) in old(counts) && "agent:" + a != id
      ensures forall a :: Agent(a) in windows <==> Agent(a) in old(windows) && a != id && "agent:" + a != id
    {
      hide Faithful, Popped;
      PoppedExactly(counts, Session(id), id);
      PoppedExactly(windows, Agent(id), id);
      ResetIsFaithful(counts, windows, history, clock, maxPerSession, maxPerMinute, SessionReset(id), Session(id));
      counts := Popped(counts, Session(id), id);
      windows := Popped(windows, Agent(id), id);
      history := history + [SessionReset(id)];
    }

    method ResetAgent(id: string)
      requires Valid()
      modifies this`counts, this`windows, this`history
      ensures Valid() && history == old(history) + [AgentReset(id)]
      ensures counts == Popped(old(counts), Agent(id), id)
      ensures windows == Popped(old(windows), Agent(id), id)
      ensures forall s :: Session(s) in counts <==> Session(s) in old(counts) && "session:" + s != id
      ensures forall a :: Agent(a) in counts <==> Agent(a) in old(counts) && a != id && "agent:" + a != id
      ensures forall a :: Agent(a) in windows <==> Agent(a) in old(windows) && a != id && "agent:" + a != id
    {
      hide Faithful, Popped;
      PoppedExactly(counts, Agent(id), id);
      PoppedExactly(windows, Agent(id), id);
      ResetIsFaithful(counts, windows, history, clock, maxPerSession, maxPerMinute, AgentReset(id), Agent(id));
      counts := Popped(counts, Agent(id), id);
      windows := Popped(windows, Agent(id), id);
      history := history + [AgentReset(id)];
    }
  }
}
