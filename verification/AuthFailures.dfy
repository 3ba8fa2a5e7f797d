/** Blocking of addresses that keep failing to authenticate (src/api/auth.py):
    a failure window per address, a block when it fills, and the entry point
    that consults the block before an attempt and records a failure after it. */
module AuthFailures {
  import opened Prelude
  import opened SlidingWindow

  const FAIL_WINDOW := 60.0
  const FAIL_MAX := 10
  const BLOCK_DURATION := 300.0

  /** An attempt begins with the block check and, if admitted, later either
      records a failure or ends without one.  Attempts may overlap. */
  datatype Event =
    | Began(ip: string, at: real, admitted: bool)
    | Failed(ip: string, at: real)
    | Ended(ip: string, at: real)

  /** Failures of `ip` since its last block, never trimmed. */
  function Pending(h: seq<Event>, ip: string): (ts: seq<real>) {
    if |h| == 0 then []
    else
      var before, e := Pending(h[..|h| - 1], ip), h[|h| - 1];
      if e.Failed? && e.ip == ip then (if Fills(before, e.at) then [] else before + [e.at]) else before
  }

  /** Whether a failure at `at` on top of `pending` is the tenth of its minute. */
  predicate Fills(pending: seq<real>, at: real) {
    |Recent(pending + [at], at, FAIL_WINDOW)| >= FAIL_MAX
  }

  /** Until when the last block of `ip` runs. */
  function BlockedUntil(h: seq<Event>, ip: string): (until: Option<real>) {
    if |h| == 0 then None
    else
      var e := h[|h| - 1];
      if e.Failed? && e.ip == ip && Fills(Pending(h[..|h| - 1], ip), e.at) then Some(e.at + BLOCK_DURATION)
      else BlockedUntil(h[..|h| - 1], ip)
  }

  predicate BlockedAt(until: Option<real>, now: real) {
    until.Some? && now < until.value
  }

  ghost predicate WellDecided(h: seq<Event>) {
    |h| == 0 ||
    var before, e := h[..|h| - 1], h[|h| - 1];
    && WellDecided(before)
    && (e.Began? ==> (e.admitted <==> !BlockedAt(BlockedUntil(before, e.ip), e.at)))
  }

  ghost predicate Timely(h: seq<Event>, clock: real) {
    |h| == 0 || (h[|h| - 1].at <= clock && Timely(h[..|h| - 1], h[|h| - 1].at))
  }

  /** Admitted attempts of `ip` that have neither failed nor ended. */
  function InFlight(h: seq<Event>, ip: string): int {
    if |h| == 0 then 0
    else
      var before, e := InFlight(h[..|h| - 1], ip), h[|h| - 1];
      if e.ip != ip then before
      else match e
        case Began(_, _, admitted) => if admitted then before + 1 else before
        case Failed(_, _) => before - 1
        case Ended(_, _) => before - 1
  }

  /** Only attempts under way fail or end, and at most `c` of one address overlap. */
  ghost predicate Overlap(h: seq<Event>, ip: string, c: nat) {
    0 <= InFlight(h, ip) <= c && (|h| == 0 || Overlap(h[..|h| - 1], ip, c))
  }

  function FailuresInSpan(h: seq<Event>, ip: string, start: real): (n: nat) {
    if |h| == 0 then 0
    else
      var e := h[|h| - 1];
      FailuresInSpan(h[..|h| - 1], ip, start)
      + (if e.Failed? && e.ip == ip && start <= e.at < start + 60.0 then 1 else 0)
  }

  /** Inside a span, failures either still sit in the window, which holds fewer
      than ten, or the address was blocked in it and only attempts already under
      way can add to them. */
  lemma {:induction false} FailuresSoFar(h: seq<Event>, clock: real, ip: string, start: real, c: nat)
    requires WellDecided(h) && Timely(h, clock) && c >= 1 && Overlap(h, ip, c)
    ensures FailuresInSpan(h, ip, start) <= 9 + c
    ensures |h| > 0 && h[|h| - 1].at < start ==> FailuresInSpan(h, ip, start) == 0
    ensures |h| == 0 || h[|h| - 1].at < start + FAIL_WINDOW ==>
      var until := BlockedUntil(h, ip);
      if until.Some? && until.value >= start + BLOCK_DURATION
      then FailuresInSpan(h, ip, start) + InFlight(h, ip) <= 9 + c
      else FailuresInSpan(h, ip, start) <= 9 && FailuresInSpan(h, ip, start) <= CountFrom(Pending(h, ip), start)
  {
    if |h| > 0 {
      var before, e := h[..|h| - 1], h[|h| - 1];
      FailuresSoFar(before, e.at, ip, start, c);
      if e.Failed? && e.ip == ip && e.at < start + FAIL_WINDOW {
        CountFromAppend(Pending(before, ip), e.at, start);
        WindowCovers(Pending(before, ip) + [e.at], start, e.at, FAIL_WINDOW);
      }
    }
  }

  /** With at most `c` overlapping attempts, an address fails at most 9 + c times
      in any half-open minute; one at a time, at most ten times. */
  lemma {:induction false} FailureBound(h: seq<Event>, clock: real, ip: string, start: real, c: nat)
    requires WellDecided(h) && Timely(h, clock) && c >= 1 && Overlap(h, ip, c)
    ensures FailuresInSpan(h, ip, start) <= 9 + c
    ensures c == 1 ==> FailuresInSpan(h, ip, start) <= 10
  {
    FailuresSoFar(h, clock, ip, start, c);
  }

  // ---- While blocked ----------------------------------------------------------

  /** Failures of `ip` after position `k`, before `until`. */
  function FailuresAfter(h: seq<Event>, k: nat, ip: string, until: real): (n: nat) {
    if |h| <= k then 0
    else
      var e := h[|h| - 1];
      FailuresAfter(h[..|h| - 1], k, ip, until) + (if e.Failed? && e.ip == ip && e.at < until then 1 else 0)
  }

  lemma {:induction false} BlockHolds(h: seq<Event>, clock: real, k: nat, ip: string, c: nat)
    requires WellDecided(h) && Timely(h, clock) && Overlap(h, ip, c)
    requires 0 < k <= |h| && BlockStarts(h[..k], ip)
    ensures InFlight(h[..k], ip) >= 0
    ensures var until := h[k - 1].at + 300.0;
            && FailuresAfter(h, k, ip, until) <= InFlight(h[..k], ip)
            && (h[|h| - 1].at < until ==>
                  && BlockedUntil(h, ip).Some? && BlockedUntil(h, ip).value >= until
                  && FailuresAfter(h, k, ip, until) + InFlight(h, ip) <= InFlight(h[..k], ip))
  {
    if |h| == k {
      assert h[..k] == h;
    } else {
      var before, e := h[..|h| - 1], h[|h| - 1];
      assert before[..k] == h[..k];
      BlockHolds(before, e.at, k, ip, c);
      LaterThan(h, clock, k - 1);
    }
  }

  /** The last event of `h` is the failure that blocks `ip`. */
  predicate BlockStarts(h: seq<Event>, ip: string)
    requires |h| > 0
  {
    h[|h| - 1].Failed? && h[|h| - 1].ip == ip && Fills(Pending(h[..|h| - 1], ip), h[|h| - 1].at)
  }

  lemma {:induction false} LaterThan(h: seq<Event>, clock: real, i: nat)
    requires Timely(h, clock) && i < |h|
    ensures h[i].at <= h[|h| - 1].at <= clock
  {
    if i + 1 < |h| {
      LaterThan(h[..|h| - 1], h[|h| - 1].at, i);
    }
  }

  /** The failure that fills the window stops all others for 300 seconds, except
      the attempts of the same address then under way. */
  lemma {:induction false} BlockSilences(h: seq<Event>, clock: real, k: nat, ip: string)
    requires WellDecided(h) && Timely(h, clock) && Overlap(h, ip, 1)
    requires 0 < k <= |h| && BlockStarts(h[..k], ip)
    ensures FailuresAfter(h, k, ip, h[k - 1].at + 300.0) == 0
  {
    BlockHolds(h, clock, k, ip, 1);
    OverlapAt(h, ip, 1, k - 1);
    assert h[..k][..k - 1] == h[..k - 1];
    assert InFlight(h[..k], ip) == InFlight(h[..k - 1], ip) - 1;
  }

  lemma {:induction false} OverlapAt(h: seq<Event>, ip: string, c: nat, n: nat)
    requires Overlap(h, ip, c) && n <= |h|
    ensures 0 <= InFlight(h[..n], ip) <= c
  {
    if n == |h| {
      assert h[..n] == h;
    } else {
      OverlapAt(h[..|h| - 1], ip, c, n);
      assert h[..|h| - 1][..n] == h[..n];
    }
  }

  // ---- Addresses do not affect one another ------------------------------------

  function Project(h: seq<Event>, ip: string): (p: seq<Event>) {
    if |h| == 0 then []
    else
      var rest := Project(h[..|h| - 1], ip);
      if h[|h| - 1].ip == ip then rest + [h[|h| - 1]] else rest
  }

  /** What an address is allowed depends on its own events alone. */
  lemma {:induction false} AddressesIndependent(h: seq<Event>, ip: string)
    ensures Pending(h, ip) == Pending(Project(h, ip), ip)
    ensures BlockedUntil(h, ip) == BlockedUntil(Project(h, ip), ip)
    ensures InFlight(h, ip) == InFlight(Project(h, ip), ip)
  {
    hide Fills;
    if |h| > 0 {
      AddressesIndependent(h[..|h| - 1], ip);
      var rest := Project(h[..|h| - 1], ip);
      assert (rest + [h[|h| - 1]])[..|rest|] == rest;
    }
  }

  // ---- Overlap matters --------------------------------------------------------

  lemma {:induction false} Appended(h: seq<Event>, e: Event)
    ensures (h + [e])[..|h + [e]| - 1] == h && (h + [e])[|h + [e]| - 1] == e
  {
  }

  /** `k` attempts begun and left under way at instant zero. */
  function Opening(ip: string, k: nat): seq<Event> {
    if k == 0 then [] else Opening(ip, k - 1) + [Began(ip, 0.0, true)]
  }

  /** Then `n` attempts that begin and fail. */
  function Burst(ip: string, k: nat, n: nat): seq<Event> {
    if n == 0 then Opening(ip, k) else Burst(ip, k, n - 1) + [Began(ip, 0.0, true)] + [Failed(ip, 0.0)]
  }

  /** Then `j` of the attempts under way fail. */
  function Drained(h: seq<Event>, ip: string, j: nat): seq<Event> {
    if j == 0 then h else Drained(h, ip, j - 1) + [Failed(ip, 0.0)]
  }

  ghost predicate Possible(h: seq<Event>, ip: string, c: nat) {
    WellDecided(h) && Timely(h, 0.0) && Overlap(h, ip, c)
    && (|h| > 0 ==> h[|h| - 1].at == 0.0)
  }

  lemma BeginNow(h: seq<Event>, ip: string, c: nat)
    requires Possible(h, ip, c) && BlockedUntil(h, ip) == None && InFlight(h, ip) < c
    ensures var after := h + [Began(ip, 0.0, true)];
            && Possible(after, ip, c) && InFlight(after, ip) == InFlight(h, ip) + 1 && BlockedUntil(after, ip) == None
            && Pending(after, ip) == Pending(h, ip) && FailuresInSpan(after, ip, 0.0) == FailuresInSpan(h, ip, 0.0)
  {
    hide Fills;
    Appended(h, Began(ip, 0.0, true));
  }

  lemma FailNow(h: seq<Event>, ip: string, c: nat)
    requires Possible(h, ip, c) && InFlight(h, ip) > 0
    ensures var after := h + [Failed(ip, 0.0)];
            && Possible(after, ip, c) && InFlight(after, ip) == InFlight(h, ip) - 1
            && FailuresInSpan(after, ip, 0.0) == FailuresInSpan(h, ip, 0.0) + 1
  {
    hide Pending, BlockedUntil;
    Appended(h, Failed(ip, 0.0));
  }

  lemma FailUnblocked(h: seq<Event>, ip: string)
    requires BlockedUntil(h, ip) == None && |Pending(h, ip)| < 9
    requires Recent(Pending(h, ip), 0.0, FAIL_WINDOW) == Pending(h, ip)
    ensures var after := h + [Failed(ip, 0.0)];
            && BlockedUntil(after, ip) == None && Pending(after, ip) == Pending(h, ip) + [0.0]
            && Recent(Pending(after, ip), 0.0, FAIL_WINDOW) == Pending(after, ip)
  {
    Appended(h, Failed(ip, 0.0));
    RecentAppend(Pending(h, ip), 0.0, 0.0, FAIL_WINDOW);
  }

  lemma {:induction false} OpeningBuilds(ip: string, k: nat, c: nat)
    requires k <= c
    ensures var h := Opening(ip, k);
            && Possible(h, ip, c) && BlockedUntil(h, ip) == None && InFlight(h, ip) == k
            && FailuresInSpan(h, ip, 0.0) == 0 && Pending(h, ip) == [] && Recent([], 0.0, FAIL_WINDOW) == []
  {
    if k > 0 {
      OpeningBuilds(ip, k - 1, c);
      hide Possible, BlockedUntil, InFlight, FailuresInSpan, Pending;
      BeginNow(Opening(ip, k - 1), ip, c);
    }
  }

  lemma {:induction false} BurstBuilds(ip: string, k: nat, n: nat, c: nat)
    requires n <= 9 && k < c
    ensures var h := Burst(ip, k, n);
            && Possible(h, ip, c) && BlockedUntil(h, ip) == None && InFlight(h, ip) == k
            && FailuresInSpan(h, ip, 0.0) == n
            && |Pending(h, ip)| == n && Recent(Pending(h, ip), 0.0, FAIL_WINDOW) == Pending(h, ip)
  {
    hide Pending, BlockedUntil, Possible, InFlight, FailuresInSpan, Recent;
    if n == 0 {
      OpeningBuilds(ip, k, c);
    } else {
      BurstBuilds(ip, k, n - 1, c);
      var h := Burst(ip, k, n - 1);
      BeginNow(h, ip, c);
      FailNow(h + [Began(ip, 0.0, true)], ip, c);
      FailUnblocked(h + [Began(ip, 0.0, true)], ip);
    }
  }

  lemma {:induction false} Drains(h: seq<Event>, ip: string, c: nat, j: nat)
    requires Possible(h, ip, c) && j <= InFlight(h, ip)
    ensures var after := Drained(h, ip, j);
            && Possible(after, ip, c) && InFlight(after, ip) == InFlight(h, ip) - j
            && FailuresInSpan(after, ip, 0.0) == FailuresInSpan(h, ip, 0.0) + j
  {
    hide Possible, InFlight, FailuresInSpan;
    if j > 0 {
      Drains(h, ip, c, j - 1);
      FailNow(Drained(h, ip, j - 1), ip, c);
    }
  }

  /** The bound is attained for every number of overlapping attempts: those under
      way when the block starts still record their failures. */
  lemma BoundAttained(ip: string, c: nat)
    requires c >= 1
    ensures exists h :: WellDecided(h) && Timely(h, 0.0) && Overlap(h, ip, c) && FailuresInSpan(h, ip, 0.0) == 9 + c
  {
    BurstBuilds(ip, c - 1, 9, c);
    var h := Burst(ip, c - 1, 9);
    BeginNow(h, ip, c);
    Drains(h + [Began(ip, 0.0, true)], ip, c, c);
    var all := Drained(h + [Began(ip, 0.0, true)], ip, c);
    assert Possible(all, ip, c);
  }

  lemma {:induction false} OverlapMore(h: seq<Event>, ip: string, c: nat, d: nat)
    requires Overlap(h, ip, c) && c <= d
    ensures Overlap(h, ip, d)
  {
    if |h| > 0 {
      OverlapMore(h[..|h| - 1], ip, c, d);
    }
  }

  ghost predicate TenAtMost(ip: string, c: nat) {
    forall h, clock, start | WellDecided(h) && Timely(h, clock) && Overlap(h, ip, c) ::
      FailuresInSpan(h, ip, start) <= 10
  }

  /** Ten failures a minute is the bound exactly when attempts of an address do
      not overlap. */
  lemma TenExactly(ip: string, c: nat)
    ensures TenAtMost(ip, c) <==> c <= 1
  {
    if c <= 1 {
      forall h, clock, start | WellDecided(h) && Timely(h, clock) && Overlap(h, ip, c)
        ensures FailuresInSpan(h, ip, start) <= 10
      {
        OverlapMore(h, ip, c, 1);
        FailureBound(h, clock, ip, start, 1);
      }
    } else {
      BoundAttained(ip, c);
      var h :| WellDecided(h) && Timely(h, 0.0) && Overlap(h, ip, c) && FailuresInSpan(h, ip, 0.0) == 9 + c;
      assert !(FailuresInSpan(h, ip, 0.0) <= 10);
    }
  }

  // ---- The limiter ------------------------------------------------------------

  ghost predicate FailuresAgree(failures: map<string, seq<real>>, h: seq<Event>, clock: real) {
    forall ip :: SameFrom(Lookup(failures, ip, []), Pending(h, ip), clock, FAIL_WINDOW)
  }

  function BlockOf(blocks: map<string, real>, ip: string): Option<real> {
    if ip in blocks then Some(blocks[ip]) else None
  }

  /** Expired blocks may be gone from the dictionary; no reader can tell. */
  ghost predicate BlocksAgree(blocks: map<string, real>, h: seq<Event>, clock: real) {
    forall ip, now {:trigger BlockedAt(BlockOf(blocks, ip), now)} ::
      clock <= now ==> (BlockedAt(BlockOf(blocks, ip), now) <==> BlockedAt(BlockedUntil(h, ip), now))
  }

  ghost predicate Agrees(failures: map<string, seq<real>>, blocks: map<string, real>, h: seq<Event>, clock: real) {
    && FailuresAgree(failures, h, clock)
    && BlocksAgree(blocks, h, clock)
    && WellDecided(h)
    && Timely(h, clock)
  }

  lemma {:induction false} TimelyLater(h: seq<Event>, clock: real, later: real)
    requires Timely(h, clock) && clock <= later
    ensures Timely(h, later)
  {
  }

  lemma BeganAgrees(failures: map<string, seq<real>>, blocks: map<string, real>, h: seq<Event>, clock: real, e: Event,
                    blocks': map<string, real>)
    requires Agrees(failures, blocks, h, clock) && clock <= e.at && !e.Failed?
    requires e.Began? ==> (e.admitted <==> !BlockedAt(BlockOf(blocks, e.ip), e.at))
    requires blocks' == blocks || (blocks' == blocks - {e.ip} && !BlockedAt(BlockOf(blocks, e.ip), e.at))
    ensures Agrees(failures, blocks', h + [e], e.at)
  {
    Appended(h, e);
    forall ip ensures SameFrom(Lookup(failures, ip, []), Pending(h + [e], ip), e.at, FAIL_WINDOW) {
      assert SameFrom(Lookup(failures, ip, []), Pending(h, ip), clock, FAIL_WINDOW);
    }
    forall ip, now | e.at <= now
      ensures BlockedAt(BlockOf(blocks', ip), now) <==> BlockedAt(BlockedUntil(h + [e], ip), now)
    {
      assert BlockedAt(BlockOf(blocks, ip), now) <==> BlockedAt(BlockedUntil(h, ip), now);
    }
  }

  lemma FailedWindows(failures: map<string, seq<real>>, h: seq<Event>, clock: real, ip: string, now: real)
    requires FailuresAgree(failures, h, clock) && clock <= now
    ensures var trimmed := Recent(Lookup(failures, ip, []), now, FAIL_WINDOW) + [now];
            var fills := Fills(Pending(h, ip), now);
            && (fills <==> |trimmed| >= FAIL_MAX)
            && FailuresAgree(failures[ip := if fills then [] else trimmed], h + [Failed(ip, now)], now)
  {
    hide SameFrom, Recent;
    var w := Lookup(failures, ip, []);
    Appended(h, Failed(ip, now));
    assert SameFrom(w, Pending(h, ip), clock, FAIL_WINDOW);
    SameAfterRecord(w, Pending(h, ip), clock, now, FAIL_WINDOW);
    RecentAppend(w, now, now, FAIL_WINDOW);
    var fills := Fills(Pending(h, ip), now);
    var after := failures[ip := if fills then [] else Recent(w, now, FAIL_WINDOW) + [now]];
    SameSelf([], now);
    forall other ensures SameFrom(Lookup(after, other, []), Pending(h + [Failed(ip, now)], other), now, FAIL_WINDOW) {
      assert SameFrom(Lookup(failures, other, []), Pending(h, other), clock, FAIL_WINDOW);
      SameLater(Lookup(failures, other, []), Pending(h, other), clock, now);
    }
  }

  lemma SameSelf(a: seq<real>, clock: real)
    ensures SameFrom(a, a, clock, FAIL_WINDOW)
  {
  }

  lemma SameLater(a: seq<real>, b: seq<real>, clock: real, now: real)
    requires SameFrom(a, b, clock, FAIL_WINDOW) && clock <= now
    ensures SameFrom(a, b, now, FAIL_WINDOW)
  {
  }

  lemma FailedBlocks(blocks: map<string, real>, h: seq<Event>, clock: real, ip: string, now: real)
    requires BlocksAgree(blocks, h, clock) && clock <= now
    ensures BlocksAgree(if Fills(Pending(h, ip), now) then blocks[ip := now + BLOCK_DURATION] else blocks,
                        h + [Failed(ip, now)], now)
  {
    hide Fills;
    Appended(h, Failed(ip, now));
    var after := if Fills(Pending(h, ip), now) then blocks[ip := now + BLOCK_DURATION] else blocks;
    forall other, later | now <= later
      ensures BlockedAt(BlockOf(after, other), later) <==> BlockedAt(BlockedUntil(h + [Failed(ip, now)], other), later)
    {
      assert BlockedAt(BlockOf(blocks, other), later) <==> BlockedAt(BlockedUntil(h, other), later);
    }
  }

  /** Trimming before the tenth failure is counted sees what the untrimmed log
      of failures sees. */
  lemma FailedAgrees(failures: map<string, seq<real>>, blocks: map<string, real>, h: seq<Event>, clock: real,
                     ip: string, now: real, fills: bool)
    requires Agrees(failures, blocks, h, clock) && clock <= now
    requires var trimmed := Recent(Lookup(failures, ip, []), now, FAIL_WINDOW) + [now];
             fills <==> |trimmed| >= FAIL_MAX
    ensures var trimmed := Recent(Lookup(failures, ip, []), now, FAIL_WINDOW) + [now];
            && (fills <==> Fills(Pending(h, ip), now))
            && Agrees(failures[ip := if fills then [] else trimmed],
                      if fills then blocks[ip := now + BLOCK_DURATION] else blocks, h + [Failed(ip, now)], now)
  {
    hide FailuresAgree, BlocksAgree, Fills;
    Appended(h, Failed(ip, now));
    TimelyLater(h, clock, now);
    FailedWindows(failures, h, clock, ip, now);
    FailedBlocks(blocks, h, clock, ip, now);
  }

  lemma BlockReading(failures: map<string, seq<real>>, blocks: map<string, real>, h: seq<Event>, clock: real,
                     ip: string, now: real)
    requires Agrees(failures, blocks, h, clock) && clock <= now
    ensures BlockedAt(BlockOf(blocks, ip), now) <==> BlockedAt(BlockedUntil(h, ip), now)
  {
  }

  /** The two headers a request may carry, and the four verifiers they are given
      to; verification itself is not modelled. */
  datatype Headers = Headers(authorization: string, apiKey: string)

  datatype Verifiers = Verifiers(token: string -> bool, jwt: string -> bool, adminKey: string -> bool, tenantKey: string -> bool)

  const BEARER := "Bearer "

  predicate Presents(r: Headers) {
    StartsWith(r.authorization, BEARER) || r.apiKey != ""
  }

  /** A bearer token is what counts if there is one, right or wrong; an API key is
      looked at only without it. */
  predicate Accepts(v: Verifiers, r: Headers) {
    if StartsWith(r.authorization, BEARER)
      then v.token(r.authorization[|BEARER|..]) || v.jwt(r.authorization[|BEARER|..])
      else r.apiKey != "" && (v.adminKey(r.apiKey) || v.tenantKey(r.apiKey))
  }

  class FailureLimiter {
    var failures: map<string, seq<real>>
    var blocks: map<string, real>
    ghost var history: seq<Event>
    ghost var clock: real

    ghost predicate Valid()
      reads this
    {
      Agrees(failures, blocks, history, clock)
    }

    constructor ()
      ensures Valid() && history == [] && failures == map[] && blocks == map[]
    {
      failures, blocks, history, clock := map[], map[], [], 0.0;
    }

    /** _check_auth_rate_limit: True when the address may try. */
    method CheckAuthRateLimit(ip: string, now: real) returns (allowed: bool)
      requires Valid() && clock <= now
      modifies this`blocks, this`history, this`clock
      ensures Valid() && clock == now
      ensures allowed <==> !BlockedAt(BlockedUntil(old(history), ip), now)
      ensures allowed <==> ip !in old(blocks) || old(blocks)[ip] <= now
      ensures blocks == if ip in old(blocks) && old(blocks)[ip] <= now then old(blocks) - {ip} else old(blocks)
      ensures history == old(history) + [Began(ip, now, allowed)]
    {
      hide Agrees, Recent, BlockedUntil;
      BlockReading(failures, blocks, history, clock, ip, now);
      allowed := true;
      if ip in blocks {
        if now < blocks[ip] {
          allowed := false;
        } else {
          blocks := blocks - {ip};
        }
      }
      BeganAgrees(failures, old(blocks), history, clock, Began(ip, now, allowed), blocks);
      history := history + [Began(ip, now, allowed)];
      clock := now;
    }

    /** _record_auth_failure. */
    method RecordAuthFailure(ip: string, now: real) returns (ghost blocked: bool)
      requires Valid() && clock <= now
      modifies this`failures, this`blocks, this`history, this`clock
      ensures Valid() && clock == now && history == old(history) + [Failed(ip, now)]
      ensures blocked <==> Fills(Pending(old(history), ip), now)
      // the tenth failure of the last sixty seconds blocks the address for three hundred
      ensures var earlier := Recent(Lookup(old(failures), ip, []), now, 60.0);
              && (blocked <==> |earlier| >= 9)
              && failures == old(failures)[ip := if blocked then [] else earlier + [now]]
              && blocks == if blocked then old(blocks)[ip := now + 300.0] else old(blocks)
    {
      hide Agrees, Fills;
      failures := failures[ip := Recent(Lookup(failures, ip, []), now, FAIL_WINDOW)];
      failures := failures[ip := failures[ip] + [now]];
      blocked := |failures[ip]| >= FAIL_MAX;
      FailedAgrees(old(failures), blocks, history, clock, ip, now, blocked);
      if |failures[ip]| >= FAIL_MAX {
        blocks := blocks[ip := now + BLOCK_DURATION];
        failures := failures[ip := []];
      }
      history := history + [Failed(ip, now)];
      clock := now;
      assert failures == old(failures)[ip := failures[ip]];
    }

    /** The attempt is over without a recorded failure. */
    ghost method End(ip: string, now: real)
      requires Valid() && clock <= now
      modifies this`history, this`clock
      ensures Valid() && clock == now && history == old(history) + [Ended(ip, now)]
    {
      BeganAgrees(failures, blocks, history, clock, Ended(ip, now), blocks);
      history := history + [Ended(ip, now)];
      clock := now;
    }

    /** authenticate, run alone: a blocked address is turned away before any
        credential is looked at, and only a credential that was presented and
        rejected counts as a failure. */
    method Authenticate(ip: string, r: Headers, v: Verifiers, checkedAt: real, verifiedAt: real) returns (ok: bool)
      requires Valid() && clock <= checkedAt <= verifiedAt
      modifies this
      ensures Valid()
      // a bearer token decides if there is one, and an API key only without it
      ensures ok <==>
                && (ip !in old(blocks) || old(blocks)[ip] <= checkedAt)
                && (if StartsWith(r.authorization, "Bearer ")
                    then v.token(r.authorization[7..]) || v.jwt(r.authorization[7..])
                    else r.apiKey != "" && (v.adminKey(r.apiKey) || v.tenantKey(r.apiKey)))
      ensures var admitted := !BlockedAt(BlockedUntil(old(history), ip), checkedAt);
              && (ok <==> admitted && Accepts(v, r))
              && history == old(history) + [Began(ip, checkedAt, admitted)]
                   + (if !admitted then []
                      else if Presents(r) && !Accepts(v, r) then [Failed(ip, verifiedAt)]
                      else [Ended(ip, verifiedAt)])
    {
      hide Agrees, BlockedUntil, Pending, Fills;
      var allowed := CheckAuthRateLimit(ip, checkedAt);
      if !allowed {
        return false;
      }
      if StartsWith(r.authorization, BEARER) {
        var token := r.authorization[|BEARER|..];
        ok := v.token(token) || v.jwt(token);
        if !ok {
          var _ := RecordAuthFailure(ip, verifiedAt);
          return;
        }
        End(ip, verifiedAt);
        return;
      }
      if r.apiKey != "" {
        ok := v.adminKey(r.apiKey) || v.tenantKey(r.apiKey);
        if !ok {
          var _ := RecordAuthFailure(ip, verifiedAt);
          return;
        }
        End(ip, verifiedAt);
        return;
      }
      End(ip, verifiedAt);
      return false;
    }
  }
}
