/** The Redis fixed-window rate limiter (src/core/redis_rate_limiter.py).  The
    Lua script is one atomic step; keys expire by time to live. */
module RedisRateLimiting {
  import opened Prelude
  import Decimal
  import RedisGlob

  const MINUTE := 60.0
  const MINUTE_TTL := 120.0
  const SESSION_TTL := 7200.0

  datatype Key = SessionTotal(id: string) | AgentTotal(id: string) | AgentMinute(id: string, bucket: nat)

  function Render(prefix: string, k: Key): string {
    match k
    case SessionTotal(id) => prefix + ":session:" + id + ":total"
    case AgentTotal(id) => prefix + ":agent:" + id + ":total"
    case AgentMinute(id, b) => prefix + ":agent:" + id + ":min:" + Decimal.Print(b)
  }

  /** What follows the common prefix. */
  function Tail(k: Key): string {
    match k
    case SessionTotal(id) => ":session:" + id + ":total"
    case AgentTotal(id) => ":agent:" + id + ":total"
    case AgentMinute(id, b) => ":agent:" + id + ":min:" + Decimal.Print(b)
  }

  lemma RenderIsTail(prefix: string, k: Key)
    ensures Render(prefix, k) == prefix + Tail(k)
  {
    match k
    case SessionTotal(id) => assert prefix + ":session:" + id + ":total" == prefix + (":session:" + id + ":total");
    case AgentTotal(id) => assert prefix + ":agent:" + id + ":total" == prefix + (":agent:" + id + ":total");
    case AgentMinute(id, b) =>
      var d := Decimal.Print(b);
      assert prefix + ":agent:" + id + ":min:" + d == prefix + (":agent:" + id + ":min:" + d);
  }

  /** Sessions, agents and minutes never share a Redis key. */
  lemma RenderInjective(prefix: string, a: Key, b: Key)
    requires Render(prefix, a) == Render(prefix, b)
    ensures a == b
  {
    RenderIsTail(prefix, a);
    RenderIsTail(prefix, b);
    var s, t := Tail(a), Tail(b);
    assert s == (prefix + s)[|prefix|..] == (prefix + t)[|prefix|..] == t;
    assert s[1] == t[1] && s[|s| - 1] == t[|t| - 1];
    if a.AgentMinute? && b.AgentMinute? {
      SameMinute(a.id, a.bucket, b.id, b.bucket);
    } else if !a.AgentMinute? && !b.AgentMinute? {
      var n := if a.SessionTotal? then 9 else 7;
      assert a.id == s[n..|s| - 6] && b.id == t[n..|t| - 6];
    }
  }

  lemma SameMinute(id: string, b: nat, id': string, b': nat)
    requires ":agent:" + id + ":min:" + Decimal.Print(b) == ":agent:" + id' + ":min:" + Decimal.Print(b')
    ensures id == id' && b == b'
  {
    var d, d' := Decimal.Print(b), Decimal.Print(b');
    var s := ":agent:" + id + ":min:" + d;
    assert s[|s| - |d| - 1] == ':' && s[|s| - |d'| - 1] == ':';
    assert |d| == |d'| by {
      assert forall i :: |s| - |d| <= i < |s| ==> s[i] == d[i - (|s| - |d|)];
      assert forall i :: |s| - |d'| <= i < |s| ==> s[i] == d'[i - (|s| - |d'|)];
    }
    assert d == s[|s| - |d|..] == d';
    assert id == s[7..|s| - |d| - 5] == id';
    Decimal.ReadPrint(b);
    Decimal.ReadPrint(b');
  }

  /** Whether reset_session deletes a key: its pattern is the prefix, the id it
      was given and a star. */
  predicate ResetDeletes(prefix: string, id: string, k: Key) {
    RedisGlob.Matches(prefix + ":" + id + ":*", Render(prefix, k))
  }

  /** A key without the prefix and the colon behind it. */
  function Rest(k: Key): string {
    Tail(k)[1..]
  }

  /** The prefix plays no part, so long as it holds no wildcard: the id is read
      as a pattern for what follows it. */
  lemma ResetReadsPattern(prefix: string, id: string, k: Key)
    requires RedisGlob.Plain(prefix)
    ensures ResetDeletes(prefix, id, k) <==> RedisGlob.Matches(id + ":*", Rest(k))
  {
    hide Render, Rest, RedisGlob.Matches, RedisGlob.Plain;
    var front := prefix + ":";
    ColonFirst(prefix, k);
    assert prefix + ":" + id + ":*" == front + (id + ":*");
    PlainColon(prefix);
    RedisGlob.PlainFront(front, id + ":*", Render(prefix, k));
  }

  lemma PlainColon(s: string)
    requires RedisGlob.Plain(s)
    ensures RedisGlob.Plain(s + ":")
  {
  }

  lemma ColonFirst(prefix: string, k: Key)
    ensures var front := prefix + ":";
            Render(prefix, k) == front + Rest(k) && front <= Render(prefix, k) && Render(prefix, k)[|front|..] == Rest(k)
  {
    hide Render, Tail;
    RenderIsTail(prefix, k);
    TailColon(k);
    SplitColon(prefix, Tail(k));
  }

  lemma TailColon(k: Key)
    ensures |Tail(k)| > 0 && Tail(k)[0] == ':'
  {
  }

  lemma SplitColon(prefix: string, tail: string)
    requires |tail| > 0 && tail[0] == ':'
    ensures var front := prefix + ":";
            prefix + tail == front + tail[1..] && front <= prefix + tail && (prefix + tail)[|front|..] == tail[1..]
  {
    assert prefix + tail == (prefix + ":") + tail[1..];
  }

  /** An id without wildcards is a prefix. */
  lemma ResetByPrefix(prefix: string, id: string, k: Key)
    requires RedisGlob.Plain(prefix) && RedisGlob.Plain(id)
    ensures ResetDeletes(prefix, id, k) <==> id + ":" <= Rest(k)
  {
    hide Rest, RedisGlob.Matches;
    ResetReadsPattern(prefix, id, k);
    RedisGlob.PlainPrefix(id + ":", Rest(k));
    assert id + ":*" == id + ":" + "*";
  }

  lemma RestByKind(k: Key)
    ensures k.SessionTotal? ==> "session:" <= Rest(k)
    ensures !k.SessionTotal? ==> "agent:" <= Rest(k)
  {
    match k
    case SessionTotal(id) => assert Tail(k)[..9] == ":session:" && Rest(k)[..8] == Tail(k)[1..9];
    case AgentTotal(id) => assert Tail(k)[..7] == ":agent:" && Rest(k)[..6] == Tail(k)[1..7];
    case AgentMinute(id, b) => assert Tail(k)[..7] == ":agent:" && Rest(k)[..6] == Tail(k)[1..7];
  }

  lemma FirstField(word: string, id: string, rest: string)
    requires ':' !in id && ':' !in word && word + ":" <= rest
    ensures id + ":" <= rest <==> id == word
  {
    if id + ":" <= rest {
      assert rest[|id|] == ':' && rest[|word|] == ':';
      assert forall i :: 0 <= i < |id| ==> rest[i] == id[i];
      assert forall i :: 0 <= i < |word| ==> rest[i] == word[i];
      assert |id| == |word|;
      assert id == rest[..|id|] == word;
    }
  }

  /** Which keys a reset deletes when its id holds neither wildcard nor colon:
      every session's counter if the id is "session", every agent's counters if
      it is "agent", and otherwise none, least of all those of its session. */
  lemma ResetDeletesExactly(prefix: string, id: string, k: Key)
    requires RedisGlob.Plain(prefix) && RedisGlob.Plain(id) && ':' !in id
    ensures ResetDeletes(prefix, id, k) <==> if k.SessionTotal? then id == "session" else id == "agent"
  {
    hide ResetDeletes, Rest;
    ResetByPrefix(prefix, id, k);
    RestByKind(k);
    if k.SessionTotal? {
      assert "session:" == "session" + ":";
      FirstField("session", id, Rest(k));
    } else {
      assert "agent:" == "agent" + ":";
      FirstField("agent", id, Rest(k));
    }
  }

  /** A wildcard is not quoted: resetting "*" resets everybody. */
  lemma StarResetsAll(prefix: string, k: Key)
    requires RedisGlob.Plain(prefix)
    ensures ResetDeletes(prefix, "*", k)
  {
    hide ResetDeletes, Rest;
    ResetReadsPattern(prefix, "*", k);
    RestByKind(k);
    var word := if k.SessionTotal? then "session" else "agent";
    assert word + ":" <= Rest(k);
    var behind := Rest(k)[|word|..];
    assert Rest(k) == word + behind && behind[..1] == ":";
    RedisGlob.PlainPrefix(":", behind);
    assert ":" + "*" == ":*" && "*" + ":*" == "*:*";
    RedisGlob.StarOver(":*", word, behind);
  }

  /** "session", "session:session", and so on. */
  predicate OnlyTheWordSession(id: string) {
    id == "session" || (StartsWith(id, "session:") && OnlyTheWordSession(id[8..]))
  }

  lemma PrefixByIndex(p: string, s: string)
    ensures p <= s <==> |p| <= |s| && forall i :: 0 <= i < |p| ==> p[i] == s[i]
  {
    if |p| <= |s| && forall i :: 0 <= i < |p| ==> p[i] == s[i] {
      assert p == s[..|p|];
    }
  }

  lemma {:induction false} OwnPattern(id: string)
    ensures id + ":" <= "session:" + id + ":total" <==> OnlyTheWordSession(id)
    decreases |id|
  {
    var word := "session:";
    var target := word + id + ":total";
    PrefixByIndex(id + ":", target);
    if |id| < 7 {
      assert (id + ":")[|id|] == ':' && target[|id|] == word[|id|] != ':';
    } else if |id| == 7 {
      assert id + ":" <= target <==> id + ":" == word;
      assert id == (id + ":")[..7];
      assert word[..7] == "session";
    } else {
      var rest := id[8..];
      if id + ":" <= target {
        assert id[..8] == word by {
          assert forall i :: 0 <= i < 8 ==> id[i] == (id + ":")[i] == target[i] == word[i];
        }
      }
      if id[..8] == word {
        assert id == word + rest;
        assert target == word + (word + rest + ":total");
        assert id + ":" == word + (rest + ":");
        OwnPattern(rest);
        PrefixByIndex(rest + ":", word + rest + ":total");
        assert id + ":" <= target <==> rest + ":" <= word + rest + ":total" by {
          if id + ":" <= target {
            assert forall i :: 0 <= i < |rest| + 1 ==> (rest + ":")[i] == (id + ":")[i + 8] == target[i + 8];
          }
          if rest + ":" <= word + rest + ":total" {
            assert forall i :: 8 <= i < |id| + 1 ==> (id + ":")[i] == (rest + ":")[i - 8] == target[i];
          }
        }
      }
    }
  }

  /** reset_session is documented to reset the limits of its session.  Its
      pattern leaves out the "session:" part of the key, so an id without
      wildcards reaches that session's counter only when it repeats that word. */
  lemma ResetReachesOwnCounter(prefix: string, id: string)
    requires RedisGlob.Plain(prefix) && RedisGlob.Plain(id)
    ensures ResetDeletes(prefix, id, SessionTotal(id)) <==> OnlyTheWordSession(id)
  {
    hide ResetDeletes;
    ResetByPrefix(prefix, id, SessionTotal(id));
    assert Rest(SessionTotal(id)) == "session:" + id + ":total";
    OwnPattern(id);
  }

  /** int(now // 60). */
  function Bucket(now: real): (b: nat)
    requires now >= 0.0
    ensures b as real * 60.0 <= now < b as real * 60.0 + 60.0
  {
    (now / MINUTE).Floor
  }

  function TotalKey(session: string, agent: string): Key {
    if session != "" then SessionTotal(session) else AgentTotal(agent)
  }

  /** The script's first reply: 0, 1 or 2. */
  datatype Code = Admitted | SessionExceeded | MinuteExceeded

  datatype Attempt = Attempt(session: string, agent: string, at: real, code: Code)

  /** Attempts in one agent's minute that got past the session counter. */
  function BucketCount(h: seq<Attempt>, agent: string, b: nat): (n: nat)
    requires Timely(h)
  {
    if |h| == 0 then 0
    else
      var e := h[|h| - 1];
      BucketCount(h[..|h| - 1], agent, b)
      + (if e.agent == agent && Bucket(e.at) == b && !e.code.SessionExceeded? then 1 else 0)
  }

  /** When the current life of a total key began, and the attempts in it. */
  datatype Life = Unborn | Alive(since: real, count: nat)

  function LifeOf(h: seq<Attempt>, key: Key): Life {
    if |h| == 0 then Unborn
    else
      var before, e := LifeOf(h[..|h| - 1], key), h[|h| - 1];
      if TotalKey(e.session, e.agent) != key then before
      else if before.Unborn? || e.at >= before.since + SESSION_TTL then Alive(e.at, 1)
      else Alive(before.since, before.count + 1)
  }

  ghost predicate Timely(h: seq<Attempt>) {
    |h| == 0 ||
    var e := h[|h| - 1];
    && e.at >= 0.0
    && Timely(h[..|h| - 1])
    && (|h| > 1 ==> h[|h| - 2].at <= e.at)
  }

  /** Each reply is the one the whole history calls for. */
  ghost predicate WellDecided(h: seq<Attempt>, maxSession: int, maxMinute: int)
    requires Timely(h)
  {
    |h| == 0 ||
    var e := h[|h| - 1];
    && WellDecided(h[..|h| - 1], maxSession, maxMinute)
    && var life := LifeOf(h, TotalKey(e.session, e.agent));
    && (e.code.SessionExceeded? <==> life.Alive? && life.count > maxSession)
    && (!e.code.SessionExceeded? ==> (e.code.MinuteExceeded? <==> BucketCount(h, e.agent, Bucket(e.at)) > maxMinute))
  }

  // ---- Whole-run bounds -------------------------------------------------------

  function AdmittedInBucket(h: seq<Attempt>, agent: string, b: nat): (n: nat)
    requires Timely(h)
  {
    if |h| == 0 then 0
    else
      var e := h[|h| - 1];
      AdmittedInBucket(h[..|h| - 1], agent, b)
      + (if e.agent == agent && Bucket(e.at) == b && e.code.Admitted? then 1 else 0)
  }

  lemma {:induction false} BucketBound(h: seq<Attempt>, maxSession: int, maxMinute: int, agent: string, b: nat)
    requires Timely(h) && WellDecided(h, maxSession, maxMinute)
    ensures AdmittedInBucket(h, agent, b) <= BucketCount(h, agent, b)
    ensures AdmittedInBucket(h, agent, b) <= Max0(maxMinute)
  {
    if |h| > 0 {
      BucketBound(h[..|h| - 1], maxSession, maxMinute, agent, b);
    }
  }

  function AdmittedInSpan(h: seq<Attempt>, agent: string, start: real): (n: nat) {
    if |h| == 0 then 0
    else
      var e := h[|h| - 1];
      AdmittedInSpan(h[..|h| - 1], agent, start)
      + (if e.agent == agent && start <= e.at < start + 60.0 && e.code.Admitted? then 1 else 0)
  }

  lemma {:induction false} SpanWithinTwoBuckets(h: seq<Attempt>, agent: string, start: real)
    requires Timely(h) && start >= 0.0
    ensures AdmittedInSpan(h, agent, start)
         <= AdmittedInBucket(h, agent, Bucket(start)) + AdmittedInBucket(h, agent, Bucket(start) + 1)
  {
    if |h| > 0 {
      SpanWithinTwoBuckets(h[..|h| - 1], agent, start);
      var at, b, c := h[|h| - 1].at, Bucket(start), Bucket(h[|h| - 1].at);
      if start <= at < start + MINUTE {
        assert b as real * MINUTE < c as real * MINUTE + MINUTE;
        assert c as real * MINUTE < b as real * MINUTE + 2.0 * MINUTE;
        assert b <= c <= b + 1;
      }
    }
  }

  /** Any sixty seconds admit at most twice the per-minute limit. */
  lemma {:induction false} MinuteSpanBound(h: seq<Attempt>, maxSession: int, maxMinute: int, agent: string, start: real)
    requires Timely(h) && WellDecided(h, maxSession, maxMinute) && start >= 0.0
    ensures AdmittedInSpan(h, agent, start) <= 2 * Max0(maxMinute)
  {
    SpanWithinTwoBuckets(h, agent, start);
    BucketBound(h, maxSession, maxMinute, agent, Bucket(start));
    BucketBound(h, maxSession, maxMinute, agent, Bucket(start) + 1);
  }

  function AdmittedUnder(h: seq<Attempt>, key: Key, start: real): (n: nat) {
    if |h| == 0 then 0
    else
      var e := h[|h| - 1];
      AdmittedUnder(h[..|h| - 1], key, start)
      + (if TotalKey(e.session, e.agent) == key && start <= e.at < start + 7200.0 && e.code.Admitted? then 1 else 0)
  }

  function Min(a: int, b: int): int {
    if a < b then a else b
  }

  // ---- When the limit itself holds ----------------------------------------------

  /** Three instants: one attempt at the first, those up to the `m`th at the
      second, and the others at the third. */
  datatype Instants = Instants(t0: real, t1: real, t2: real, m: nat)
  {
    function At(n: nat): real {
      if n <= 1 then t0 else if n <= m then t1 else t2
    }

    /** In order, on two sides of a minute boundary. */
    predicate Ordered() {
      0.0 <= t0 <= t1 <= t2 && m > 0 && Bucket(t0) < Bucket(t2) && Bucket(t1) < Bucket(t2) && t1 < t0 + SESSION_TTL
    }
  }

  /** A session of its own for every attempt, or one for all. */
  function SessionAt(same: bool, n: nat): (id: string)
    ensures same ==> id == "s"
    ensures !same ==> |id| == n
  {
    if same then "s" else if n == 0 then "" else SessionAt(same, n - 1) + "s"
  }

  /** `n` attempts of one agent, all admitted. */
  function Burst(agent: string, ts: Instants, same: bool, n: nat): (h: seq<Attempt>)
    ensures |h| == n
  {
    if n == 0 then [] else Burst(agent, ts, same, n - 1) + [Attempt(SessionAt(same, n), agent, ts.At(n), Admitted)]
  }

  lemma BurstFront(agent: string, ts: Instants, same: bool, n: nat)
    ensures n == 0 ==> Burst(agent, ts, same, n) == []
    ensures n > 0 ==>
              var h := Burst(agent, ts, same, n);
              && |h| == n && h[..n - 1] == Burst(agent, ts, same, n - 1)
              && h[n - 1] == Attempt(SessionAt(same, n), agent, ts.At(n), Admitted)
  {
  }

  lemma {:induction false} BurstIsTimely(agent: string, ts: Instants, same: bool, n: nat)
    requires ts.Ordered()
    ensures Timely(Burst(agent, ts, same, n))
  {
    hide Burst, SessionAt;
    BurstFront(agent, ts, same, n);
    if n > 0 {
      BurstIsTimely(agent, ts, same, n - 1);
      BurstFront(agent, ts, same, n - 1);
    }
  }

  lemma {:induction false} SharedLife(agent: string, ts: Instants, n: nat)
    requires ts.Ordered()
    ensures LifeOf(Burst(agent, ts, true, n), SessionTotal("s"))
         == if n == 0 then Unborn
            else if n <= ts.m || ts.t2 < ts.t0 + SESSION_TTL then Alive(ts.t0, n)
            else Alive(ts.t2, n - ts.m)
  {
    hide Burst, Bucket, SessionAt;
    BurstFront(agent, ts, true, n);
    if n > 0 {
      SharedLife(agent, ts, n - 1);
    }
  }

  lemma {:induction false} NewSession(agent: string, ts: Instants, n: nat, id: string)
    requires |id| > n
    ensures LifeOf(Burst(agent, ts, false, n), SessionTotal(id)) == Unborn
  {
    hide Burst, SessionAt;
    BurstFront(agent, ts, false, n);
    if n > 0 {
      NewSession(agent, ts, n - 1, id);
    }
  }

  lemma OwnLife(agent: string, ts: Instants, n: nat)
    requires n > 0
    ensures LifeOf(Burst(agent, ts, false, n), SessionTotal(SessionAt(false, n))) == Alive(ts.At(n), 1)
  {
    hide Burst, SessionAt;
    BurstFront(agent, ts, false, n);
    NewSession(agent, ts, n - 1, SessionAt(false, n));
  }

  lemma {:induction false} BurstCounts(agent: string, ts: Instants, same: bool, n: nat, b: nat)
    requires ts.Ordered() && Timely(Burst(agent, ts, same, n))
    ensures BucketCount(Burst(agent, ts, same, n), agent, b) <= if b == Bucket(ts.t2) then Max0(n - ts.m) else Min(n, ts.m)
  {
    hide Burst, Bucket, SessionAt;
    BurstFront(agent, ts, same, n);
    if n > 0 {
      BurstCounts(agent, ts, same, n - 1, b);
    }
  }

  /** `2 * m` attempts on both sides of a minute boundary are all admitted. */
  lemma {:induction false} BurstAdmitted(agent: string, ts: Instants, same: bool, n: nat, maxSession: int, maxMinute: int)
    requires ts.Ordered() && n <= 2 * ts.m && ts.m <= maxMinute
    requires if same then ts.m <= maxSession && ts.t0 + SESSION_TTL <= ts.t2 else 0 < maxSession
    ensures Timely(Burst(agent, ts, same, n)) && WellDecided(Burst(agent, ts, same, n), maxSession, maxMinute)
  {
    hide LifeOf, BucketCount, Bucket, Burst, Timely, SessionAt;
    BurstIsTimely(agent, ts, same, n);
    BurstFront(agent, ts, same, n);
    if n > 0 {
      BurstAdmitted(agent, ts, same, n - 1, maxSession, maxMinute);
      BurstCounts(agent, ts, same, n, Bucket(ts.At(n)));
      if same {
        SharedLife(agent, ts, n);
      } else {
        OwnLife(agent, ts, n);
      }
    }
  }

  lemma {:induction false} BurstInSpan(agent: string, ts: Instants, same: bool, n: nat, start: real)
    requires ts.Ordered() && start <= ts.t0 && ts.t2 < start + MINUTE
    ensures AdmittedInSpan(Burst(agent, ts, same, n), agent, start) == n
  {
    hide Burst, Bucket, SessionAt;
    BurstFront(agent, ts, same, n);
    if n > 0 {
      BurstInSpan(agent, ts, same, n - 1, start);
    }
  }

  lemma {:induction false} BurstUnder(agent: string, ts: Instants, n: nat, start: real)
    requires ts.Ordered() && ts.t0 < start <= ts.t1 && ts.t2 < start + SESSION_TTL
    ensures AdmittedUnder(Burst(agent, ts, true, n), SessionTotal("s"), start) == Max0(n - 1)
  {
    hide Burst, Bucket, SessionAt;
    BurstFront(agent, ts, true, n);
    if n > 0 {
      BurstUnder(agent, ts, n - 1, start);
    }
  }

  lemma {:induction false} NothingAdmitted(h: seq<Attempt>, maxSession: int, maxMinute: int, agent: string, start: real)
    requires Timely(h) && WellDecided(h, maxSession, maxMinute) && maxSession <= 0
    ensures AdmittedInSpan(h, agent, start) == 0
  {
    if |h| > 0 {
      NothingAdmitted(h[..|h| - 1], maxSession, maxMinute, agent, start);
      LifePositive(h, TotalKey(h[|h| - 1].session, h[|h| - 1].agent));
    }
  }

  lemma {:induction false} LifePositive(h: seq<Attempt>, key: Key)
    ensures LifeOf(h, key).Alive? ==> LifeOf(h, key).count > 0
    ensures |h| > 0 && TotalKey(h[|h| - 1].session, h[|h| - 1].agent) == key ==> LifeOf(h, key).Alive?
  {
    if |h| > 0 {
      LifePositive(h[..|h| - 1], key);
    }
  }

  lemma {:induction false} AlignedSpan(h: seq<Attempt>, agent: string, b: nat)
    requires Timely(h)
    ensures AdmittedInSpan(h, agent, b as real * 60.0) == AdmittedInBucket(h, agent, b)
  {
    if |h| > 0 {
      AlignedSpan(h[..|h| - 1], agent, b);
      var at := h[|h| - 1].at;
      assert Bucket(at) == b <==> b as real * MINUTE <= at < b as real * MINUTE + MINUTE by {
        if b as real * MINUTE <= at < b as real * MINUTE + MINUTE {
          assert (b - 1) as real < Bucket(at) as real < (b + 1) as real;
        }
      }
    }
  }

  /** Twice the limit is attained in every span that does not begin with a
      minute. */
  lemma DoubleBurst(agent: string, m: nat, maxSession: int, start: real)
    requires m > 0 && maxSession > 0 && start >= 0.0 && Bucket(start) as real * 60.0 != start
    ensures exists h :: Timely(h) && WellDecided(h, maxSession, m) && AdmittedInSpan(h, agent, start) == 2 * m
  {
    var second := (Bucket(start) + 1) as real * MINUTE;
    assert start < second < start + MINUTE;
    assert Bucket(second) == Bucket(start) + 1;
    var ts := Instants(start, start, second, m);
    BurstAdmitted(agent, ts, false, 2 * m, maxSession, m);
    BurstInSpan(agent, ts, false, 2 * m, start);
  }

  /** The per-minute limit holds of the sixty seconds from `start` in every run
      exactly when they begin with a minute, or when nothing is admitted at all. */
  lemma LimitHoldsExactly(agent: string, maxSession: int, maxMinute: int, start: real)
    requires start >= 0.0
    ensures (forall h :: Timely(h) && WellDecided(h, maxSession, maxMinute) ==>
               AdmittedInSpan(h, agent, start) <= Max0(maxMinute))
       <==> Bucket(start) as real * 60.0 == start || maxSession <= 0 || maxMinute <= 0
  {
    hide WellDecided, AdmittedInSpan, AdmittedInBucket;
    if Bucket(start) as real * MINUTE == start || maxSession <= 0 || maxMinute <= 0 {
      forall h | Timely(h) && WellDecided(h, maxSession, maxMinute)
        ensures AdmittedInSpan(h, agent, start) <= Max0(maxMinute)
      {
        if maxSession <= 0 {
          NothingAdmitted(h, maxSession, maxMinute, agent, start);
        } else if maxMinute <= 0 {
          MinuteSpanBound(h, maxSession, maxMinute, agent, start);
        } else {
          AlignedSpan(h, agent, Bucket(start));
          BucketBound(h, maxSession, maxMinute, agent, Bucket(start));
        }
      }
    } else {
      DoubleBurst(agent, maxMinute, maxSession, start);
    }
  }

  /** What the current life of the key says about a span: a life begun before the
      span is the only one in it so far, one begun inside has at most one before
      it, and one begun after the span admits nothing more into it. */
  lemma {:induction false} LivesInSpan(h: seq<Attempt>, maxSession: int, maxMinute: int, key: Key, start: real)
    requires Timely(h) && WellDecided(h, maxSession, maxMinute)
    ensures |h| > 0 && h[|h| - 1].at < start ==> AdmittedUnder(h, key, start) == 0
    ensures match LifeOf(h, key)
            case Unborn => AdmittedUnder(h, key, start) == 0
            case Alive(since, count) =>
              && |h| > 0 && since <= h[|h| - 1].at
              && count > 0
              && (since < start ==> AdmittedUnder(h, key, start) <= Max0(Min(count, Max0(maxSession)) - 1))
              && (start <= since < start + SESSION_TTL ==>
                    AdmittedUnder(h, key, start) <= Max0(maxSession - 1) + Min(count, Max0(maxSession)))
              && AdmittedUnder(h, key, start) <= Max0(2 * maxSession - 1)
  {
    if |h| > 0 {
      LivesInSpan(h[..|h| - 1], maxSession, maxMinute, key, start);
    }
  }

  /** Any 7200 seconds admit at most one call less than twice the session limit:
      of two lives that reach into them, the earlier began before. */
  lemma {:induction false} SessionSpanBound(h: seq<Attempt>, maxSession: int, maxMinute: int, session: string, start: real)
    requires Timely(h) && WellDecided(h, maxSession, maxMinute) && session != ""
    ensures AdmittedUnder(h, SessionTotal(session), start) <= Max0(2 * maxSession - 1)
  {
    LivesInSpan(h, maxSession, maxMinute, SessionTotal(session), start);
  }

  /** That is attained too: one call begins a life, the rest of it is spent just
      before it lapses, and the next life at once. */
  lemma DoubleLife(agent: string, m: nat, maxMinute: int)
    requires 0 < m <= maxMinute
    ensures exists h :: Timely(h) && WellDecided(h, m, maxMinute) && AdmittedUnder(h, SessionTotal("s"), 1.0) == 2 * m - 1
  {
    var ts := Instants(0.0, 7199.0, 7200.0, m);
    assert Bucket(0.0) == 0 && Bucket(7199.0) == 119 && Bucket(7200.0) == 120;
    BurstAdmitted(agent, ts, true, 2 * m, m, maxMinute);
    BurstUnder(agent, ts, 2 * m, 1.0);
  }

  // ---- The limiter ------------------------------------------------------------

  datatype Entry = Entry(count: int, expiry: Option<real>)

  predicate Live(entries: map<Key, Entry>, k: Key, now: real) {
    k in entries && (entries[k].expiry.None? || now < entries[k].expiry.value)
  }

  ghost predicate TotalsAgree(entries: map<Key, Entry>, h: seq<Attempt>) {
    forall k: Key {:trigger LifeOf(h, k)} :: !k.AgentMinute? ==>
      match LifeOf(h, k)
      case Unborn => k !in entries
      case Alive(since, count) => k in entries && entries[k] == Entry(count, Some(since + SESSION_TTL))
  }

  /** A minute key is created inside its minute, so its 120 seconds outlast it. */
  ghost predicate MinutesAgree(entries: map<Key, Entry>, h: seq<Attempt>)
    requires Timely(h)
  {
    forall a: string, b: nat {:trigger BucketCount(h, a, b)} ::
      var k := AgentMinute(a, b);
      if BucketCount(h, a, b) == 0 then k !in entries
      else
        && k in entries && entries[k].count == BucketCount(h, a, b)
        && entries[k].expiry.Some? && entries[k].expiry.value >= b as real * MINUTE + MINUTE_TTL
  }

  ghost predicate Agrees(entries: map<Key, Entry>, h: seq<Attempt>, maxSession: int, maxMinute: int) {
    && Timely(h)
    && TotalsAgree(entries, h)
    && MinutesAgree(entries, h)
    && WellDecided(h, maxSession, maxMinute)
    && (forall k :: k in entries ==> entries[k].count >= 1)
  }

  lemma CountsPositive(entries: map<Key, Entry>, h: seq<Attempt>, maxSession: int, maxMinute: int)
    requires Agrees(entries, h, maxSession, maxMinute)
    ensures forall k :: k in entries ==> entries[k].count >= 1
  {
  }

  /** INCR, with EXPIRE when the key is new or has lapsed. */
  function Bumped(entries: map<Key, Entry>, k: Key, now: real, ttl: real): (after: map<Key, Entry>)
    ensures k in after
  {
    if Live(entries, k, now) then entries[k := Entry(entries[k].count + 1, entries[k].expiry)]
    else entries[k := Entry(1, Some(now + ttl))]
  }

  lemma TotalsAfter(entries: map<Key, Entry>, h: seq<Attempt>, e: Attempt, entries': map<Key, Entry>)
    requires TotalsAgree(entries, h)
    requires forall k: Key :: !k.AgentMinute? ==>
      var after := Bumped(entries, TotalKey(e.session, e.agent), e.at, SESSION_TTL);
      (k in entries' <==> k in after) && (k in after ==> entries'[k] == after[k])
    ensures TotalsAgree(entries', h + [e])
  {
    assert (h + [e])[..|h|] == h;
    forall k: Key | !k.AgentMinute?
      ensures match LifeOf(h + [e], k)
              case Unborn => k !in entries'
              case Alive(since, count) => k in entries' && entries'[k] == Entry(count, Some(since + SESSION_TTL))
    {
      var life := LifeOf(h, k);
    }
  }

  lemma MinutesAfter(entries: map<Key, Entry>, h: seq<Attempt>, e: Attempt, entries': map<Key, Entry>)
    requires Timely(h + [e]) && Timely(h) && MinutesAgree(entries, h)
    requires forall k: Key :: k.AgentMinute? ==>
      var after := if e.code.SessionExceeded? then entries
                   else Bumped(entries, AgentMinute(e.agent, Bucket(e.at)), e.at, MINUTE_TTL);
      (k in entries' <==> k in after) && (k in after ==> entries'[k] == after[k])
    ensures MinutesAgree(entries', h + [e])
  {
    assert (h + [e])[..|h|] == h;
    forall a: string, b: nat
      ensures var k := AgentMinute(a, b);
              if BucketCount(h + [e], a, b) == 0 then k !in entries'
              else
                && k in entries' && entries'[k].count == BucketCount(h + [e], a, b)
                && entries'[k].expiry.Some? && entries'[k].expiry.value >= b as real * MINUTE + MINUTE_TTL
    {
      var k, n := AgentMinute(a, b), BucketCount(h, a, b);
    }
  }

  /** The script's two counters, bumped in order, reply as the history calls for. */
  lemma CheckAgrees(entries: map<Key, Entry>, h: seq<Attempt>, maxSession: int, maxMinute: int, e: Attempt,
                    mid: map<Key, Entry>, entries': map<Key, Entry>)
    requires Agrees(entries, h, maxSession, maxMinute)
    requires e.at >= 0.0 && (|h| > 0 ==> h[|h| - 1].at <= e.at)
    requires mid == Bumped(entries, TotalKey(e.session, e.agent), e.at, SESSION_TTL)
    requires e.code.SessionExceeded? <==> mid[TotalKey(e.session, e.agent)].count > maxSession
    requires e.code.SessionExceeded? ==> entries' == mid
    requires !e.code.SessionExceeded? ==>
      var k := AgentMinute(e.agent, Bucket(e.at));
      entries' == Bumped(mid, k, e.at, MINUTE_TTL) && (e.code.MinuteExceeded? <==> entries'[k].count > maxMinute)
    ensures Agrees(entries', h + [e], maxSession, maxMinute)
  {
    assert (h + [e])[..|h|] == h;
    TotalsAfter(entries, h, e, entries');
    MinutesAfter(entries, h, e, entries');
    var total := TotalKey(e.session, e.agent);
    assert LifeOf(h + [e], total).Alive?;
    assert BucketCount(h + [e], e.agent, Bucket(e.at)) >= 0;
  }

  class RedisRateLimiter {
    const connected: bool
    const maxPerSession: int
    const maxPerMinute: int
    var entries: map<Key, Entry>
    ghost var history: seq<Attempt>

    ghost predicate Valid()
      reads this
    {
      Agrees(entries, history, maxPerSession, maxPerMinute)
    }

    constructor (connected: bool, maxCallsPerSession: int := 100, maxCallsPerMinute: int := 30)
      ensures Valid() && history == [] && entries == map[]
      ensures this.connected == connected
      ensures maxPerSession == maxCallsPerSession && maxPerMinute == maxCallsPerMinute
    {
      this.connected, entries, history := connected, map[], [];
      maxPerSession, maxPerMinute := maxCallsPerSession, maxCallsPerMinute;
    }

    method Incr(k: Key, now: real) returns (count: int)
      modifies this`entries
      ensures Live(old(entries), k, now) ==>
                count == old(entries)[k].count + 1 && entries == old(entries)[k := Entry(count, old(entries)[k].expiry)]
      ensures !Live(old(entries), k, now) ==> count == 1 && entries == old(entries)[k := Entry(1, None)]
    {
      if Live(entries, k, now) {
        count := entries[k].count + 1;
        entries := entries[k := Entry(count, entries[k].expiry)];
      } else {
        count := 1;
        entries := entries[k := Entry(1, None)];
      }
    }

    method Expire(k: Key, expiry: real)
      requires k in entries
      modifies this`entries
      ensures entries == old(entries)[k := old(entries)[k].(expiry := Some(expiry))]
    {
      entries := entries[k := entries[k].(expiry := Some(expiry))];
    }

    /** The script and its caller.  Without a connection every call is admitted. */
    method Check(session: string, agent: string, now: real) returns (code: Code)
      requires Valid() && now >= 0.0 && (|history| > 0 ==> history[|history| - 1].at <= now)
      modifies this`entries, this`history
      ensures Valid()
      ensures !connected ==> code == Admitted && history == old(history) && entries == old(entries)
      ensures connected ==> history == old(history) + [Attempt(session, agent, now, code)]
    {
      hide Agrees;
      if !connected {
        return Admitted;
      }
      CountsPositive(entries, history, maxPerSession, maxPerMinute);
      var sessionKey, minuteKey := TotalKey(session, agent), AgentMinute(agent, Bucket(now));
      var sCount := Incr(sessionKey, now);
      if sCount == 1 {
        Expire(sessionKey, now + SESSION_TTL);
      }
      ghost var afterSession := entries;
      assert afterSession == Bumped(old(entries), sessionKey, now, SESSION_TTL);
      if sCount > maxPerSession {
        code := SessionExceeded;
      } else {
        var mCount := Incr(minuteKey, now);
        if mCount == 1 {
          Expire(minuteKey, now + MINUTE_TTL);
        }
        assert entries == Bumped(afterSession, minuteKey, now, MINUTE_TTL);
        code := if mCount > maxPerMinute then MinuteExceeded else Admitted;
      }
      CheckAgrees(old(entries), history, maxPerSession, maxPerMinute, Attempt(session, agent, now, code),
                  afterSession, entries);
      history := history + [Attempt(session, agent, now, code)];
    }
  }
}
