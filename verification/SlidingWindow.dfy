/** Time-stamped logs trimmed to a trailing window, shared by the in-memory rate
    limiter and the authentication failure limiter. */
module SlidingWindow {

  /** The entries of `ts` younger than `width` at `now`, in order. */
  function Recent(ts: seq<real>, now: real, width: real): (r: seq<real>)
    ensures |r| <= |ts|
    ensures forall t :: t in r ==> t in ts && now - t < width
  {
    if |ts| == 0 then []
    else
      var older := Recent(ts[..|ts| - 1], now, width);
      if now - ts[|ts| - 1] < width then older + [ts[|ts| - 1]] else older
  }

  /** Each instant is kept as often as it was entered, if it is younger than
      `width`, and otherwise not at all. */
  lemma {:induction false} RecentExactly(ts: seq<real>, now: real, width: real, t: real)
    ensures multiset(Recent(ts, now, width))[t] == if now - t < width then multiset(ts)[t] else 0
  {
    if |ts| > 0 {
      RecentExactly(ts[..|ts| - 1], now, width, t);
      assert ts == ts[..|ts| - 1] + [ts[|ts| - 1]];
    }
  }

  /** How many entries of `ts` are at or after `start`. */
  function CountFrom(ts: seq<real>, start: real): (n: nat)
    ensures n <= |ts|
  {
    if |ts| == 0 then 0
    else CountFrom(ts[..|ts| - 1], start) + (if start <= ts[|ts| - 1] then 1 else 0)
  }

  lemma RecentAppend(ts: seq<real>, t: real, now: real, width: real)
    ensures Recent(ts + [t], now, width) == Recent(ts, now, width) + (if now - t < width then [t] else [])
  {
    assert (ts + [t])[..|ts|] == ts;
  }

  lemma CountFromAppend(ts: seq<real>, t: real, start: real)
    ensures CountFrom(ts + [t], start) == CountFrom(ts, start) + (if start <= t then 1 else 0)
  {
    assert (ts + [t])[..|ts|] == ts;
  }

  /** Trimming early loses nothing a later trim would have kept. */
  lemma {:induction false} TrimThenTrim(ts: seq<real>, earlier: real, later: real, width: real)
    requires earlier <= later
    ensures Recent(Recent(ts, earlier, width), later, width) == Recent(ts, later, width)
  {
    if |ts| > 0 {
      var init, last := ts[..|ts| - 1], ts[|ts| - 1];
      TrimThenTrim(init, earlier, later, width);
      RecentAppend(Recent(init, earlier, width), last, later, width);
    }
  }

  /** A log whose every entry has left the window trims to nothing. */
  lemma {:induction false} AllStale(ts: seq<real>, now: real, width: real)
    requires forall t :: t in ts ==> now - t >= width
    ensures Recent(ts, now, width) == []
  {
    if |ts| > 0 {
      var init := ts[..|ts| - 1];
      forall t | t in init ensures now - t >= width {
        assert t in ts;
      }
      assert ts[|ts| - 1] in ts;
      AllStale(init, now, width);
    }
  }

  /** Every entry at or after `start` is still in the window at `now` when the
      window reaches back past `start`. */
  lemma {:induction false} WindowCovers(ts: seq<real>, start: real, now: real, width: real)
    requires now < start + width
    ensures CountFrom(ts, start) <= |Recent(ts, now, width)|
  {
    if |ts| > 0 {
      WindowCovers(ts[..|ts| - 1], start, now, width);
    }
  }

  /** Two logs no reader at or after `clock` can tell apart. */
  ghost predicate SameFrom(a: seq<real>, b: seq<real>, clock: real, width: real)
  {
    forall now :: clock <= now ==> Recent(a, now, width) == Recent(b, now, width)
  }

  /** Recording the same instant in both logs and trimming one of them keeps
      them indistinguishable. */
  lemma SameAfterRecord(a: seq<real>, b: seq<real>, clock: real, now: real, width: real)
    requires SameFrom(a, b, clock, width) && clock <= now
    ensures SameFrom(Recent(a + [now], now, width), b + [now], now, width)
    ensures width > 0.0 ==> Recent(a + [now], now, width) == Recent(b + [now], now, width)
  {
    forall later | now <= later
      ensures Recent(Recent(a + [now], now, width), later, width) == Recent(b + [now], later, width)
    {
      TrimThenTrim(a + [now], now, later, width);
      RecentAppend(a, now, later, width);
      RecentAppend(b, now, later, width);
    }
    RecentAppend(a, now, now, width);
    RecentAppend(b, now, now, width);
  }
}
