/** Schedule expressions (forgeos_web/scheduling.py): intervals such as
    "every 5m", five-field crontabs, and the hourly fallback. */
module Cron {
  import opened Prelude
  import Decimal

  datatype Period = Seconds | Minutes | Hours

  datatype Schedule =
    | Interval(every: int, period: Period)
    | Crontab(minute: string, hour: string, dayOfMonth: string, monthOfYear: string, dayOfWeek: string)

  // ---- Strings -------------------------------------------------------------------

  /** What strip() and split() take for white space among the ASCII characters. */
  predicate IsSpace(c: char) {
    c == ' ' || 9 <= c as int <= 13 || 28 <= c as int <= 31
  }

  predicate Blank(s: string) {
    forall i :: 0 <= i < |s| ==> IsSpace(s[i])
  }

  /** A word as split() yields it. */
  predicate IsWord(s: string) {
    |s| > 0 && forall i :: 0 <= i < |s| ==> !IsSpace(s[i])
  }

  function LStrip(s: string): string {
    if |s| > 0 && IsSpace(s[0]) then LStrip(s[1..]) else s
  }

  function RStrip(s: string): string {
    if |s| > 0 && IsSpace(s[|s| - 1]) then RStrip(s[..|s| - 1]) else s
  }

  function LowerChar(c: char): char {
    if 'A' <= c <= 'Z' then c - 'A' + 'a' else c
  }

  function Lower(s: string): (r: string)
    ensures |r| == |s| && forall i :: 0 <= i < |s| ==> r[i] == LowerChar(s[i])
  {
    if s == "" then "" else Lower(s[..|s| - 1]) + [LowerChar(s[|s| - 1])]
  }

  function WordLength(s: string): (n: nat)
    ensures n <= |s|
    ensures forall i :: 0 <= i < n ==> !IsSpace(s[i])
    ensures n < |s| ==> IsSpace(s[n])
  {
    if s == "" || IsSpace(s[0]) then 0 else 1 + WordLength(s[1..])
  }

  /** str.split on runs of white space. */
  function Split(s: string): (words: seq<string>)
    ensures forall k :: 0 <= k < |words| ==> IsWord(words[k])
    decreases |s|
  {
    if s == "" then []
    else if IsSpace(s[0]) then Split(s[1..])
    else
      var n := WordLength(s);
      [s[..n]] + Split(s[n..])
  }

  function Join(words: seq<string>): string {
    if |words| == 0 then ""
    else if |words| == 1 then words[0]
    else words[0] + " " + Join(words[1..])
  }

  /** str.rstrip("smh"). */
  function RStripUnits(s: string): string {
    if |s| > 0 && s[|s| - 1] in {'s', 'm', 'h'} then RStripUnits(s[..|s| - 1]) else s
  }

  /** Digits, with single underscores between them. */
  predicate Grouped(s: string) {
    && |s| > 0 && Decimal.IsDigit(s[0]) && Decimal.IsDigit(s[|s| - 1])
    && (forall i :: 0 <= i < |s| ==> Decimal.IsDigit(s[i]) || s[i] == '_')
    && (forall i :: 0 <= i < |s| - 1 ==> Decimal.IsDigit(s[i]) || Decimal.IsDigit(s[i + 1]))
  }

  function Ungrouped(s: string): (r: string)
    requires forall i :: 0 <= i < |s| ==> Decimal.IsDigit(s[i]) || s[i] == '_'
    ensures Decimal.AllDigits(r)
  {
    if s == "" then ""
    else
      var rest := Ungrouped(s[..|s| - 1]);
      if s[|s| - 1] == '_' then rest else rest + [s[|s| - 1]]
  }

  function Magnitude(body: string): Option<int> {
    if Grouped(body) then Some(Decimal.Read(Ungrouped(body))) else None
  }

  /** int(s) on a word: a sign, then grouped digits; None is ValueError. */
  function PyInt(s: string): Option<int> {
    if |s| > 0 && s[0] == '-' then
      var m := Magnitude(s[1..]);
      if m.Some? then Some(-m.value) else None
    else Magnitude(if |s| > 0 && s[0] == '+' then s[1..] else s)
  }

  function PeriodOf(word: string): Period {
    if |word| > 0 && word[|word| - 1] == 's' then Seconds
    else if |word| > 0 && word[|word| - 1] == 'h' then Hours
    else Minutes
  }

  const HOURLY := Interval(1, Hours)

  /** The count an interval's second word gives, 0 when it gives none. */
  function CountOf(word: string): int {
    var n := PyInt(RStripUnits(word));
    if n.Some? then n.value else 0
  }

  function ParseFields(fields: seq<string>): Schedule {
    if |fields| == 5 then Crontab(fields[0], fields[1], fields[2], fields[3], fields[4]) else HOURLY
  }

  function ParseStripped(expr: string): Schedule {
    var words := Split(expr);
    if StartsWith(expr, "every ") && |words| >= 2 && CountOf(words[1]) > 0
      then Interval(CountOf(words[1]), PeriodOf(words[1]))
      else ParseFields(words)
  }

  function ParseCron(expr: string): Schedule {
    ParseStripped(Lower(RStrip(LStrip(expr))))
  }

  // ---- Splitting and joining ---------------------------------------------------------

  lemma {:induction false} WordLengthOf(word: string, rest: string)
    requires forall i :: 0 <= i < |word| ==> !IsSpace(word[i])
    requires rest == "" || IsSpace(rest[0])
    ensures WordLength(word + rest) == |word|
  {
    if word == "" {
      assert word + rest == rest;
    } else {
      assert (word + rest)[1..] == word[1..] + rest;
      WordLengthOf(word[1..], rest);
    }
  }

  lemma SplitWord(word: string, rest: string)
    requires IsWord(word) && (rest == "" || IsSpace(rest[0]))
    ensures Split(word + rest) == [word] + Split(rest)
  {
    WordLengthOf(word, rest);
    assert (word + rest)[..|word|] == word;
    assert (word + rest)[|word|..] == rest;
  }

  ghost predicate AreWords(words: seq<string>) {
    forall k :: 0 <= k < |words| ==> IsWord(words[k])
  }

  /** Splitting gives back the words that were joined. */
  lemma {:induction false} SplitJoin(words: seq<string>)
    requires AreWords(words)
    ensures Split(Join(words)) == words
  {
    if |words| == 1 {
      assert words[0] + "" == words[0];
      SplitWord(words[0], "");
    } else if |words| > 1 {
      var rest := " " + Join(words[1..]);
      assert rest[1..] == Join(words[1..]);
      assert Join(words) == words[0] + rest;
      SplitWord(words[0], rest);
      SplitJoin(words[1..]);
    }
  }

  lemma {:induction false} JoinEnds(words: seq<string>)
    requires AreWords(words) && |words| > 0
    ensures var s := Join(words); |s| > 0 && !IsSpace(s[0]) && !IsSpace(s[|s| - 1])
  {
    if |words| > 1 {
      JoinEnds(words[1..]);
    }
  }

  ghost predicate LowerCase(s: string) {
    forall i :: 0 <= i < |s| ==> LowerChar(s[i]) == s[i]
  }

  lemma {:induction false} JoinLower(words: seq<string>)
    requires forall k :: 0 <= k < |words| ==> LowerCase(words[k])
    ensures LowerCase(Join(words))
  {
    if |words| > 1 {
      JoinLower(words[1..]);
    }
  }

  lemma ParseJoined(words: seq<string>)
    requires AreWords(words) && |words| > 0 && forall k :: 0 <= k < |words| ==> LowerCase(words[k])
    ensures ParseCron(Join(words)) == ParseStripped(Join(words))
    ensures Split(Join(words)) == words
  {
    SplitJoin(words);
    JoinEnds(words);
    JoinLower(words);
    assert Lower(Join(words)) == Join(words);
  }

  // ---- Printing and parsing ------------------------------------------------------------

  function UnitText(p: Period): string {
    match p
    case Seconds => "s"
    case Minutes => "m"
    case Hours => "h"
  }

  lemma {:induction false} UngroupedDigits(s: string)
    requires Decimal.AllDigits(s)
    ensures Ungrouped(s) == s
  {
    if s != "" {
      UngroupedDigits(s[..|s| - 1]);
    }
  }

  lemma IntOfDigits(s: string)
    requires |s| > 0 && Decimal.AllDigits(s)
    ensures PyInt(s) == Some(Decimal.Read(s))
  {
    hide Decimal.Read;
    assert Decimal.IsDigit(s[0]) && Grouped(s);
    UngroupedDigits(s);
  }

  lemma IntOfPrint(n: nat)
    ensures PyInt(Decimal.Print(n)) == Some(n)
  {
    hide PyInt;
    IntOfDigits(Decimal.Print(n));
    Decimal.ReadPrint(n);
  }

  lemma StripUnit(digits: string, p: Period)
    requires |digits| > 0 && Decimal.IsDigit(digits[|digits| - 1])
    ensures RStripUnits(digits + UnitText(p)) == digits && RStripUnits(digits) == digits
    ensures PeriodOf(digits + UnitText(p)) == p && PeriodOf(digits) == Minutes
  {
    var word := digits + UnitText(p);
    assert word[|word| - 1] == UnitText(p)[0] && word[..|word| - 1] == digits;
    StripNone(digits);
  }

  lemma StripNone(digits: string)
    requires |digits| > 0 && Decimal.IsDigit(digits[|digits| - 1])
    ensures RStripUnits(digits) == digits
  {
  }

  lemma PrintedWord(digits: string, p: Period)
    requires |digits| > 0 && Decimal.AllDigits(digits)
    ensures IsWord(digits) && LowerCase(digits)
    ensures IsWord(digits + UnitText(p)) && LowerCase(digits + UnitText(p))
  {
  }

  lemma CountOfPrint(n: nat, p: Period)
    ensures CountOf(Decimal.Print(n) + UnitText(p)) == n && CountOf(Decimal.Print(n)) == n
  {
    hide RStripUnits, PyInt, Decimal.Print;
    StripUnit(Decimal.Print(n), p);
    IntOfPrint(n);
  }

  lemma BeginsWith(first: string, rest: string, word: string)
    requires IsWord(first) && IsWord(word)
    ensures StartsWith(first + (" " + rest), word + " ") <==> first == word
  {
    var s := first + (" " + rest);
    WordLengthOf(first, " " + rest);
    if first == word {
      assert s[..|word| + 1] == word + " ";
    }
    if StartsWith(s, word + " ") {
      assert s[..|word|] == word && s[|word|] == ' ';
      assert s == word + s[|word|..];
      WordLengthOf(word, s[|word|..]);
      assert s[..|first|] == first;
    }
  }

  lemma JoinFront(words: seq<string>)
    requires |words| >= 2
    ensures Join(words) == words[0] + (" " + Join(words[1..]))
  {
    assert words[0] + " " + Join(words[1..]) == words[0] + (" " + Join(words[1..]));
  }

  lemma EveryAndBlank()
    ensures "every" + " " == "every " && IsWord("every") && LowerCase("every")
  {
  }

  lemma BeginsWithEvery(words: seq<string>)
    requires AreWords(words) && |words| >= 2
    ensures StartsWith(Join(words), "every ") <==> words[0] == "every"
  {
    hide Join, IsWord, StartsWith;
    EveryAndBlank();
    JoinFront(words);
    BeginsWith(words[0], Join(words[1..]), "every");
  }

  /** The three readings of lower-case words, in order: an interval wants "every"
      and a positive count, in the unit the second word ends in; otherwise five
      words are a crontab; and everything else runs once an hour. */
  lemma ParsesExactly(words: seq<string>)
    requires AreWords(words) && |words| > 0 && forall k :: 0 <= k < |words| ==> LowerCase(words[k])
    ensures ParseCron(Join(words)) ==
            if |words| >= 2 && words[0] == "every" && CountOf(words[1]) > 0 then
              Interval(CountOf(words[1]),
                       match words[1][|words[1]| - 1]
                       case 's' => Seconds
                       case 'h' => Hours
                       case _ => Minutes)
            else if |words| == 5 then Crontab(words[0], words[1], words[2], words[3], words[4])
            else Interval(1, Hours)
  {
    hide ParseCron, Join, CountOf, LowerCase;
    ParseJoined(words);
    if |words| >= 2 {
      BeginsWithEvery(words);
    }
  }

  /** Every interval prints to a text that parses to it; without a unit the
      count is in minutes. */
  lemma EveryParses(n: nat, p: Period)
    requires n > 0
    ensures ParseCron("every " + (Decimal.Print(n) + UnitText(p))) == Interval(n, p)
    ensures ParseCron("every " + Decimal.Print(n)) == Interval(n, Minutes)
  {
    hide ParseCron, CountOf, PeriodOf, Decimal.Print, IsWord, LowerCase;
    CountOfPrint(n, p);
    StripUnit(Decimal.Print(n), p);
    PrintedWord(Decimal.Print(n), p);
    EveryWord(Decimal.Print(n) + UnitText(p));
    EveryWord(Decimal.Print(n));
  }

  lemma JoinTwo(first: string, second: string)
    ensures Join([first, second]) == first + " " + second
  {
    assert [first, second][1..] == [second];
  }

  lemma EveryWord(word: string)
    requires IsWord(word) && LowerCase(word) && CountOf(word) > 0
    ensures ParseCron("every " + word) == Interval(CountOf(word), PeriodOf(word))
  {
    hide ParseCron, CountOf, LowerCase, Join;
    EveryAndBlank();
    JoinTwo("every", word);
    ParsesExactly(["every", word]);
  }

  /** Five lower-case words joined by blanks parse to just those fields, unless
      they read as an interval: the first is "every" and the second begins with
      a positive count. */
  lemma CrontabParses(fields: seq<string>)
    requires |fields| == 5 && AreWords(fields) && forall k :: 0 <= k < 5 ==> LowerCase(fields[k])
    ensures ParseCron(Join(fields)) == Crontab(fields[0], fields[1], fields[2], fields[3], fields[4]) <==>
              !(fields[0] == "every" && CountOf(fields[1]) > 0)
  {
    ParseJoined(fields);
    BeginsWithEvery(fields);
  }

  /** Whatever the text, an interval has a positive count, and a crontab five
      words: nothing unreadable gets through. */
  lemma AlwaysUsable(expr: string)
    ensures match ParseCron(expr)
            case Interval(n, _) => n > 0
            case Crontab(a, b, c, d, e) => AreWords([a, b, c, d, e])
  {
  }

  lemma {:induction false} LStripBlank(pad: string, s: string)
    requires Blank(pad)
    ensures LStrip(pad + s) == LStrip(s)
  {
    if pad == "" {
      assert pad + s == s;
    } else {
      assert (pad + s)[1..] == pad[1..] + s;
      LStripBlank(pad[1..], s);
    }
  }

  lemma {:induction false} RStripBlank(s: string, pad: string)
    requires Blank(pad)
    ensures RStrip(s + pad) == RStrip(s)
  {
    if pad == "" {
      assert s + pad == s;
    } else {
      assert (s + pad)[..|s + pad| - 1] == s + pad[..|pad| - 1];
      RStripBlank(s, pad[..|pad| - 1]);
    }
  }

  lemma {:induction false} LStripOfBlank(s: string)
    requires Blank(s)
    ensures LStrip(s) == ""
  {
    if s != "" {
      LStripOfBlank(s[1..]);
    }
  }

  lemma {:induction false} LStripInFront(s: string, t: string)
    requires !Blank(s)
    ensures LStrip(s + t) == LStrip(s) + t
  {
    if IsSpace(s[0]) {
      assert (s + t)[1..] == s[1..] + t;
      LStripInFront(s[1..], t);
    }
  }

  /** White space around a text makes no difference. */
  lemma PaddingIgnored(before: string, s: string, after: string)
    requires Blank(before) && Blank(after)
    ensures ParseCron(before + s + after) == ParseCron(s)
  {
    hide ParseStripped, LStrip, RStrip, Blank;
    assert before + s + after == before + (s + after);
    LStripBlank(before, s + after);
    if Blank(s) {
      LStripBlank(s, after);
      LStripOfBlank(s);
      LStripOfBlank(after);
    } else {
      LStripInFront(s, after);
      RStripBlank(LStrip(s), after);
    }
  }

  lemma LowerFront(s: string)
    requires s != ""
    ensures Lower(s)[1..] == Lower(s[1..]) && Lower(s)[0] == LowerChar(s[0])
  {
    hide LowerChar;
    assert |Lower(s)[1..]| == |Lower(s[1..])|;
  }

  lemma {:induction false} LStripLower(s: string)
    ensures LStrip(Lower(s)) == Lower(LStrip(s))
  {
    if s != "" {
      LowerFront(s);
      if IsSpace(s[0]) {
        LStripLower(s[1..]);
      }
    }
  }

  lemma {:induction false} RStripLower(s: string)
    ensures RStrip(Lower(s)) == Lower(RStrip(s))
  {
    if s != "" {
      assert Lower(s)[..|s| - 1] == Lower(s[..|s| - 1]);
      if IsSpace(s[|s| - 1]) {
        RStripLower(s[..|s| - 1]);
      }
    }
  }

  lemma LowerTwice(s: string)
    ensures Lower(Lower(s)) == Lower(s)
  {
    assert |Lower(Lower(s))| == |Lower(s)|;
  }

  /** Nor does case. */
  lemma CaseIgnored(s: string)
    ensures ParseCron(Lower(s)) == ParseCron(s)
  {
    hide ParseStripped, LStrip, RStrip, Lower;
    LStripLower(s);
    RStripLower(LStrip(s));
    LowerTwice(RStrip(LStrip(s)));
  }

  // ---- The parts of the parser ---------------------------------------------------------

  /** A text of nothing but white space, or of none, runs once an hour. */
  lemma BlankIsHourly(s: string)
    requires Blank(s)
    ensures ParseCron(s) == Interval(1, Hours)
  {
    LStripOfBlank(s);
    assert Lower("") == "" && Split("") == [];
  }

  /** The ASCII characters str.isspace accepts. */
  lemma SpaceExactly(c: char)
    ensures IsSpace(c) <==> c in {' ', '\t', '\n', '\r', 11 as char, 12 as char, 28 as char, 29 as char, 30 as char, 31 as char}
  {
  }

  /** All the unit letters at the end of a word go, however many there are. */
  lemma {:induction false} UnitsStripped(digits: string, units: string)
    requires |digits| > 0 && Decimal.IsDigit(digits[|digits| - 1])
    requires forall i :: 0 <= i < |units| ==> units[i] == 's' || units[i] == 'm' || units[i] == 'h'
    ensures RStripUnits(digits + units) == digits
  {
    if units == "" {
      assert digits + units == digits;
    } else {
      assert (digits + units)[..|digits + units| - 1] == digits + units[..|units| - 1];
      UnitsStripped(digits, units[..|units| - 1]);
    }
  }

  /** A sign counts, zeros in front do not, and digits are read in base ten. */
  lemma CountExactly(digits: string, last: char)
    requires Decimal.AllDigits(digits) && Decimal.IsDigit(last)
    ensures var s, n := digits + [last], Decimal.Read(digits) * 10 + (last as int - '0' as int);
            PyInt(s) == PyInt("+" + s) == PyInt("0" + s) == Some(n) && PyInt("-" + s) == Some(-n)
  {
    hide PyInt, Magnitude;
    var s := digits + [last];
    assert s[..|s| - 1] == digits;
    IntOfDigits(s);
    Signed(s);
    ZeroInFront(s);
    IntOfDigits("0" + s);
  }

  lemma Signed(s: string)
    requires |s| > 0 && Decimal.AllDigits(s)
    ensures PyInt("+" + s) == PyInt(s) && PyInt("-" + s) == Some(-PyInt(s).value)
  {
    hide Magnitude;
    assert Decimal.IsDigit(s[0]);
    IntOfDigits(s);
    assert ("+" + s)[1..] == s && ("-" + s)[1..] == s;
  }

  lemma {:induction false} ZeroInFront(s: string)
    requires Decimal.AllDigits(s)
    ensures Decimal.AllDigits("0" + s) && Decimal.Read("0" + s) == Decimal.Read(s)
  {
    if s == "" {
      assert "0" + s == "0" && "0"[..0] == "";
    } else {
      assert ("0" + s)[..|s|] == "0" + s[..|s| - 1];
      ZeroInFront(s[..|s| - 1]);
    }
  }

  lemma {:induction false} UngroupedAdd(a: string, b: string)
    requires forall i :: 0 <= i < |a| ==> Decimal.IsDigit(a[i]) || a[i] == '_'
    requires forall i :: 0 <= i < |b| ==> Decimal.IsDigit(b[i]) || b[i] == '_'
    ensures Ungrouped(a + b) == Ungrouped(a) + Ungrouped(b)
  {
    if b == "" {
      assert a + b == a;
    } else {
      assert (a + b)[..|a + b| - 1] == a + b[..|b| - 1];
      UngroupedAdd(a, b[..|b| - 1]);
    }
  }

  /** An underscore between two digit groups changes nothing. */
  lemma UnderscoreIgnored(a: string, b: string)
    requires Grouped(a) && Grouped(b)
    ensures PyInt(a + "_" + b).Some? && PyInt(a + "_" + b) == PyInt(a + b)
  {
    hide Decimal.Read, Ungrouped;
    assert Grouped(a + b) && Grouped(a + "_" + b) by {
      GroupedJoin(a, b);
    }
    UngroupedAdd(a, b);
    UngroupedAdd(a, "_");
    UngroupedAdd(a + "_", b);
    OneUnderscore();
    assert Ungrouped(a) + "" == Ungrouped(a);
  }

  lemma GroupedJoin(a: string, b: string)
    requires Grouped(a) && Grouped(b)
    ensures Grouped(a + b) && Grouped(a + "_" + b)
  {
  }

  lemma OneUnderscore()
    ensures Ungrouped("_") == ""
  {
    assert "_"[..0] == "";
  }

  /** Any other character behind the first makes a word no count at all. */
  lemma NoCount(s: string, i: nat)
    requires 0 < i < |s| && !Decimal.IsDigit(s[i]) && s[i] != '_'
    ensures PyInt(s).None?
  {
    var body := if s[0] == '-' || s[0] == '+' then s[1..] else s;
    assert body[if |body| == |s| then i else i - 1] == s[i];
  }
}
