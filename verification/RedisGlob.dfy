/** The glob patterns of Redis's KEYS command: stars, question marks, bracketed
    classes and backslash escapes. */
module RedisGlob {

  /** A class after its opening bracket: whether it lists `c`, and the pattern
      behind it.  A class that is not closed runs to the end. */
  function InClass(p: string, c: char, found: bool): (bool, string)
    ensures |InClass(p, c, found).1| <= |p|
  {
    if p == "" then (found, "")
    else if |p| >= 2 && p[0] == '\\' then InClass(p[2..], c, found || p[1] == c)
    else if p[0] == ']' then (found, p[1..])
    else if |p| >= 3 && p[1] == '-' then
      InClass(p[3..], c, found || p[0] <= c <= p[2] || p[2] <= c <= p[0])
    else InClass(p[1..], c, found || p[0] == c)
  }

  predicate Matches(p: string, s: string)
    decreases |p| + |s|
  {
    if p == "" then s == ""
    else if p[0] == '*' then Matches(p[1..], s) || (s != "" && Matches(p, s[1..]))
    else if s == "" then false
    else if p[0] == '?' then Matches(p[1..], s[1..])
    else if p[0] == '[' then
      var negated := |p| > 1 && p[1] == '^';
      var (found, rest) := InClass(if negated then p[2..] else p[1..], s[0], false);
      found != negated && Matches(rest, s[1..])
    else if p[0] == '\\' && |p| >= 2 then p[1] == s[0] && Matches(p[2..], s[1..])
    else p[0] == s[0] && Matches(p[1..], s[1..])
  }

  predicate Special(c: char) {
    c == '*' || c == '?' || c == '[' || c == '\\'
  }

  /** Matched as it stands. */
  predicate Plain(s: string) {
    forall i :: 0 <= i < |s| ==> !Special(s[i])
  }

  lemma {:induction false} StarMatches(s: string)
    ensures Matches("*", s)
    decreases |s|
  {
    assert "*"[1..] == "";
    if s != "" {
      StarMatches(s[1..]);
    }
  }

  /** Plain text in front of a pattern must stand in front of the string. */
  lemma {:induction false} PlainFront(front: string, p: string, s: string)
    requires Plain(front)
    ensures Matches(front + p, s) <==> front <= s && Matches(p, s[|front|..])
  {
    if front == "" {
      assert front + p == p && s[0..] == s;
    } else {
      assert (front + p)[1..] == front[1..] + p;
      if s != "" {
        PlainFront(front[1..], p, s[1..]);
        if front <= s {
          assert front[1..] <= s[1..] && s[1..][|front| - 1..] == s[|front|..];
        }
        if front[0] == s[0] && front[1..] <= s[1..] {
          assert front == [front[0]] + front[1..] && s == [s[0]] + s[1..];
          assert s[1..][..|front| - 1] == front[1..];
          assert s[..|front|] == front;
        }
      }
    }
  }

  /** Plain text and a star: a prefix. */
  lemma PlainPrefix(front: string, s: string)
    requires Plain(front)
    ensures Matches(front + "*", s) <==> front <= s
  {
    PlainFront(front, "*", s);
    if front <= s {
      StarMatches(s[|front|..]);
    }
  }

  /** A star reaches over anything, up to what matches behind it. */
  lemma {:induction false} StarOver(p: string, skipped: string, s: string)
    requires Matches(p, s)
    ensures Matches("*" + p, skipped + s)
    decreases |skipped|
  {
    assert ("*" + p)[1..] == p;
    if skipped == "" {
      assert skipped + s == s;
    } else {
      assert (skipped + s)[1..] == skipped[1..] + s;
      StarOver(p, skipped[1..], s);
    }
  }
}
