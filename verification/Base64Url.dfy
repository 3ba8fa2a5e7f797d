/** URL-safe base64 (sections 3.2 and 5 of RFC 4648): the encoder, and the
    lenient scanner that Python's decoder is. */
module Base64Url {
  import opened Prelude

  type Byte = b: int | 0 <= b < 256 witness 0

  /** The URL-safe alphabet. */
  function Letter(v: int): (c: char)
    requires 0 <= v < 64
    ensures c != '=' && c != '.' && c as int < 128 && Meaning(c) == Some(v)
  {
    if v < 26 then 'A' + v as char
    else if v < 52 then 'a' + (v - 26) as char
    else if v < 62 then '0' + (v - 52) as char
    else if v == 62 then '-' else '_'
  }

  /** The decoder maps '-' and '_' onto the standard alphabet first, so it reads
      both spellings; other characters mean nothing to it. */
  function Meaning(c: char): (v: Option<int>)
    ensures v.Some? ==> 0 <= v.value < 64
  {
    if 'A' <= c <= 'Z' then Some((c - 'A') as int)
    else if 'a' <= c <= 'z' then Some((c - 'a') as int + 26)
    else if '0' <= c <= '9' then Some((c - '0') as int + 52)
    else if c == '-' || c == '+' then Some(62)
    else if c == '_' || c == '/' then Some(63)
    else None
  }

  function Equals(n: nat): (s: string)
    ensures |s| == n && forall i :: 0 <= i < n ==> s[i] == '='
  {
    if n == 0 then "" else Equals(n - 1) + "="
  }

  type Sextet = v: int | 0 <= v < 64 witness 0

  /** Four sextets carry three bytes. */
  function Group(a: Byte, b: Byte, c: Byte): (vs: seq<Sextet>)
    ensures |vs| == 4
  {
    [a / 4, a % 4 * 16 + b / 16, b % 16 * 4 + c / 64, c % 64]
  }

  /** The bits of the input, six at a time, the last group filled up with zeros. */
  function Sextets(bs: seq<Byte>): seq<Sextet> {
    if |bs| == 0 then []
    else if |bs| == 1 then Group(bs[0], 0, 0)[..2]
    else if |bs| == 2 then Group(bs[0], bs[1], 0)[..3]
    else Group(bs[0], bs[1], bs[2]) + Sextets(bs[3..])
  }

  lemma {:induction false} SextetsLength(bs: seq<Byte>)
    ensures |Sextets(bs)| % 4 == if |bs| % 3 == 0 then 0 else |bs| % 3 + 1
  {
    hide Group;
    if |bs| >= 3 {
      SextetsLength(bs[3..]);
      assert |Sextets(bs)| == 4 + |Sextets(bs[3..])|;
    }
  }

  function Letters(vs: seq<Sextet>): (s: string)
    ensures |s| == |vs| && forall i :: 0 <= i < |s| ==> s[i] != '=' && s[i] != '.' && s[i] as int < 128
  {
    if |vs| == 0 then "" else [Letter(vs[0])] + Letters(vs[1..])
  }

  /** The encoded groups without padding. */
  function Body(bs: seq<Byte>): string {
    Letters(Sextets(bs))
  }

  /** base64.urlsafe_b64encode. */
  function Encode(bs: seq<Byte>): string {
    Body(bs) + Equals(if |bs| % 3 == 0 then 0 else 3 - |bs| % 3)
  }

  /** rstrip("="). */
  function Strip(s: string): (t: string)
    ensures t <= s
  {
    if |s| > 0 && s[|s| - 1] == '=' then Strip(s[..|s| - 1]) else s
  }

  /** "=" * (-len(s) % 4). */
  function Padding(s: string): string {
    Equals((4 - |s| % 4) % 4)
  }

  /** base64.urlsafe_b64decode: `quad` letters of the current group read, `left`
      bits left over, `pads` padding characters in a row.  Letters outside the
      alphabet are skipped, and a complete padding ends the input. */
  function Scan(s: string, quad: nat, left: nat, pads: nat): (bs: Option<seq<Byte>>)
    requires quad < 4 && left < (if quad == 1 then 64 else if quad == 2 then 16 else 4)
  {
    if s == "" then (if quad == 0 then Some([]) else None)
    else if s[0] == '=' then
      if quad >= 2 && quad + pads + 1 >= 4 then Some([])
      else Scan(s[1..], quad, left, if quad >= 2 then pads + 1 else pads)
    else match Meaning(s[0])
      case None => Scan(s[1..], quad, left, pads)
      case Some(v) =>
        match quad
        case 0 => Scan(s[1..], 1, v, 0)
        case 1 => Prepend(left * 4 + v / 16, Scan(s[1..], 2, v % 16, 0))
        case 2 => Prepend(left * 16 + v / 4, Scan(s[1..], 3, v % 4, 0))
        case _ => Prepend(left * 64 + v, Scan(s[1..], 0, 0, 0))
  }

  function Prepend(b: Byte, rest: Option<seq<Byte>>): Option<seq<Byte>> {
    match rest
    case None => None
    case Some(bs) => Some([b] + bs)
  }

  predicate Ascii(s: string) {
    forall i :: 0 <= i < |s| ==> s[i] as int < 128
  }

  /** Text beyond ASCII is refused before it is scanned. */
  function Decode(s: string): Option<seq<Byte>> {
    if Ascii(s) then Scan(s, 0, 0, 0) else None
  }

  lemma EncodeAscii(bs: seq<Byte>)
    ensures Ascii(Encode(bs))
  {
    hide Sextets, Letters, Equals;
  }

  lemma {:induction false} StripEquals(body: string, n: nat)
    requires |body| > 0 ==> body[|body| - 1] != '='
    ensures Strip(body + Equals(n)) == body
  {
    if n == 0 {
      assert body + Equals(0) == body;
    } else {
      StripEquals(body, n - 1);
      var s := body + Equals(n);
      assert s[..|s| - 1] == body + Equals(n - 1);
    }
  }

  /** Stripping the padding and recomputing it from the length loses nothing. */
  lemma StripThenPad(bs: seq<Byte>)
    ensures Strip(Encode(bs)) == Body(bs)
    ensures Strip(Encode(bs)) + Padding(Strip(Encode(bs))) == Encode(bs)
  {
    hide Letters, Sextets, Strip, Equals;
    SextetsLength(bs);
    StripEquals(Body(bs), if |bs| % 3 == 0 then 0 else 3 - |bs| % 3);
  }

  lemma ScanLetter(v: Sextet, vs: seq<Sextet>, rest: string, quad: nat, left: nat)
    requires quad < 4 && left < (if quad == 1 then 64 else if quad == 2 then 16 else 4)
    ensures Scan(Letters([v] + vs) + rest, quad, left, 0) ==
            match quad
            case 0 => Scan(Letters(vs) + rest, 1, v, 0)
            case 1 => Prepend(left * 4 + v / 16, Scan(Letters(vs) + rest, 2, v % 16, 0))
            case 2 => Prepend(left * 16 + v / 4, Scan(Letters(vs) + rest, 3, v % 4, 0))
            case _ => Prepend(left * 64 + v, Scan(Letters(vs) + rest, 0, 0, 0))
  {
    hide Letter, Meaning;
    assert ([v] + vs)[1..] == vs;
    assert Letters([v] + vs) + rest == [Letter(v)] + (Letters(vs) + rest);
    assert ([Letter(v)] + (Letters(vs) + rest))[1..] == Letters(vs) + rest;
  }

  lemma Regroup(a: Byte, b: Byte, c: Byte)
    ensures a / 4 * 4 + (a % 4 * 16 + b / 16) / 16 == a
    ensures (a % 4 * 16 + b / 16) % 16 * 16 + (b % 16 * 4 + c / 64) / 4 == b
    ensures (b % 16 * 4 + c / 64) % 4 * 64 + c % 64 == c
  {
  }

  lemma ScanGroup(a: Byte, b: Byte, c: Byte, vs: seq<Sextet>, rest: string)
    ensures Scan(Letters([a / 4, a % 4 * 16 + b / 16, b % 16 * 4 + c / 64, c % 64] + vs) + rest, 0, 0, 0)
         == Prepend(a, Prepend(b, Prepend(c, Scan(Letters(vs) + rest, 0, 0, 0))))
  {
    hide Scan, Letters;
    var v0, v1, v2, v3 := a / 4, a % 4 * 16 + b / 16, b % 16 * 4 + c / 64, c % 64;
    assert [v0, v1, v2, v3] + vs == [v0] + ([v1] + ([v2] + ([v3] + vs)));
    Regroup(a, b, c);
    ScanLetter(v0, [v1] + ([v2] + ([v3] + vs)), rest, 0, 0);
    ScanLetter(v1, [v2] + ([v3] + vs), rest, 1, v0);
    ScanLetter(v2, [v3] + vs, rest, 2, v1 % 16);
    ScanLetter(v3, vs, rest, 3, v2 % 4);
  }

  lemma ScanLastByte(a: Byte)
    ensures Scan(Letters(Sextets([a])) + Equals(2), 0, 0, 0) == Some([a])
  {
    hide Letters, Scan, Equals;
    var v0, v1 := a / 4, a % 4 * 16;
    assert Sextets([a]) == [v0] + ([v1] + []);
    ScanLetter(v0, [v1] + [], Equals(2), 0, 0);
    ScanLetter(v1, [], Equals(2), 1, v0);
    ScanPads(v1 % 16, 0);
    Regroup(a, 0, 0);
    assert [a] + [] == [a];
  }

  lemma ScanLastTwoBytes(a: Byte, b: Byte)
    ensures Scan(Letters(Sextets([a, b])) + Equals(1), 0, 0, 0) == Some([a, b])
  {
    hide Letters, Scan, Equals;
    var v0, v1, v2 := a / 4, a % 4 * 16 + b / 16, b % 16 * 4;
    assert Sextets([a, b]) == [v0] + ([v1] + ([v2] + []));
    Regroup(a, b, 0);
    ScanLetter(v0, [v1] + ([v2] + []), Equals(1), 0, 0);
    ScanLetter(v1, [v2] + [], Equals(1), 1, v0);
    ScanLetter(v2, [], Equals(1), 2, v1 % 16);
    ScanPads(0, v2 % 4);
    assert [a] + ([b] + []) == [a, b];
  }

  /** The padding ends the input. */
  lemma ScanPads(two: nat, three: nat)
    requires two < 16 && three < 4
    ensures Scan(Letters([]) + Equals(2), 2, two, 0) == Some([])
    ensures Scan(Letters([]) + Equals(1), 3, three, 0) == Some([])
  {
    assert Letters([]) + Equals(2) == ['=', '='] && Letters([]) + Equals(1) == ['='];
    assert ['=', '='][1..] == ['='];
    assert Scan(['='], 2, two, 1) == Some([]);
    assert Scan(['=', '='], 2, two, 0) == Some([]);
    assert Scan(['='], 3, three, 0) == Some([]);
  }

  lemma DecodeNothing()
    ensures Scan(Encode([]), 0, 0, 0) == Some([])
  {
    assert Encode([]) == "";
  }

  /** The scanner inverts the encoder on every byte string. */
  lemma DecodeEncode(bs: seq<Byte>)
    ensures Decode(Encode(bs)) == Some(bs)
  {
    EncodeAscii(bs);
    ScanEncode(bs);
  }

  lemma {:induction false} ScanEncode(bs: seq<Byte>)
    ensures Scan(Encode(bs), 0, 0, 0) == Some(bs)
  {
    hide Scan, Letters, Equals;
    if |bs| == 0 {
      DecodeNothing();
    } else if |bs| == 1 {
      assert bs == [bs[0]];
      ScanLastByte(bs[0]);
    } else if |bs| == 2 {
      assert bs == [bs[0], bs[1]];
      ScanLastTwoBytes(bs[0], bs[1]);
    } else {
      ScanEncode(bs[3..]);
      ScanGroup(bs[0], bs[1], bs[2], Sextets(bs[3..]), Equals(if |bs| % 3 == 0 then 0 else 3 - |bs| % 3));
      assert bs == [bs[0]] + ([bs[1]] + ([bs[2]] + bs[3..]));
    }
  }

  /** The letters are those of the URL-safe table (table 2 of RFC 4648), and the
      decoder reads the standard table's last two (table 1) as well. */
  lemma AlphabetExactly(v: int, c: char)
    requires 0 <= v < 64
    ensures v < 26 ==> Letter(v) == "ABCDEFGHIJKLMNOPQRSTUVWXYZ"[v]
    ensures 26 <= v < 52 ==> Letter(v) == "abcdefghijklmnopqrstuvwxyz"[v - 26]
    ensures 52 <= v ==> Letter(v) == "0123456789-_"[v - 52]
    ensures Meaning(c) == Some(v) <==> c == Letter(v) || (c == '+' && v == 62) || (c == '/' && v == 63)
  {
    OnlyLetters(v, c);
  }

  lemma OnlyLetters(v: int, c: char)
    requires 0 <= v < 64
    ensures Meaning(c) == Some(v) <==> c == Letter(v) || (c == '+' && v == 62) || (c == '/' && v == 63)
  {
  }

  /** The encoding spells the sextets and fills the last four up with '='. */
  lemma EncodedAt(bs: seq<Byte>, k: nat)
    requires k < |Encode(bs)|
    ensures |Encode(bs)| == (|bs| + 2) / 3 * 4 && |Sextets(bs)| == (4 * |bs| + 2) / 3
    ensures Encode(bs)[k] == if k < |Sextets(bs)| then Letter(Sextets(bs)[k]) else '='
  {
    hide Letter, Letters, Sextets;
    SextetCount(bs);
    if k < |Sextets(bs)| {
      LettersAt(Sextets(bs), k);
    }
  }

  lemma {:induction false} LettersAt(vs: seq<Sextet>, k: nat)
    requires k < |vs|
    ensures Letters(vs)[k] == Letter(vs[k])
  {
    hide Letter;
    if k > 0 {
      LettersAt(vs[1..], k - 1);
    }
  }

  lemma {:induction false} SextetCount(bs: seq<Byte>)
    ensures |Sextets(bs)| == (4 * |bs| + 2) / 3
  {
    if |bs| >= 3 {
      SextetCount(bs[3..]);
    }
  }

  function OctetAt(bs: seq<Byte>, k: nat): int {
    if k < |bs| then bs[k] else 0
  }

  function SextetAt(vs: seq<Sextet>, k: nat): int {
    if k < |vs| then vs[k] else 0
  }

  /** The number three bytes spell in base 256; a missing byte counts as zero. */
  function Octets(bs: seq<Byte>, i: nat): int {
    (OctetAt(bs, i) * 256 + OctetAt(bs, i + 1)) * 256 + OctetAt(bs, i + 2)
  }

  /** The number four sextets spell in base 64. */
  function Quad(vs: seq<Sextet>, i: nat): int {
    ((SextetAt(vs, i) * 64 + SextetAt(vs, i + 1)) * 64 + SextetAt(vs, i + 2)) * 64 + SextetAt(vs, i + 3)
  }

  lemma OctetsOn(bs: seq<Byte>, i: nat)
    requires |bs| >= 3
    ensures Octets(bs, i + 3) == Octets(bs[3..], i)
  {
  }

  lemma QuadOn(vs: seq<Sextet>, rest: seq<Sextet>, i: nat)
    requires |vs| == 4
    ensures Quad(vs + rest, i + 4) == Quad(rest, i)
  {
  }

  /** Every four sextets spell the number their three bytes do, in the last group
      as if filled up with zeros. */
  lemma {:induction false} GroupsExactly(bs: seq<Byte>, i: nat)
    ensures Quad(Sextets(bs), 4 * i) == Octets(bs, 3 * i)
  {
    hide Octets, Quad, Group;
    if i == 0 {
      FirstGroup(bs);
    } else if |bs| >= 3 {
      GroupsExactly(bs[3..], i - 1);
      OctetsOn(bs, 3 * (i - 1));
      QuadOn(Group(bs[0], bs[1], bs[2]), Sextets(bs[3..]), 4 * (i - 1));
    } else {
      Beyond(bs, i);
    }
  }

  lemma Beyond(bs: seq<Byte>, i: nat)
    requires |bs| < 3 && i > 0
    ensures Quad(Sextets(bs), 4 * i) == 0 == Octets(bs, 3 * i)
  {
  }

  lemma FirstGroup(bs: seq<Byte>)
    ensures Quad(Sextets(bs), 0) == Octets(bs, 0)
  {
    if |bs| >= 3 {
      GroupValue(bs[0], bs[1], bs[2]);
    } else if |bs| == 2 {
      GroupValue(bs[0], bs[1], 0);
    } else if |bs| == 1 {
      GroupValue(bs[0], 0, 0);
    }
  }

  lemma GroupValue(a: Byte, b: Byte, c: Byte)
    ensures Quad(Group(a, b, c), 0) == (a as int * 256 + b as int) * 256 + c as int
  {
  }

  /** A character that means nothing, wherever it stands, changes nothing. */
  lemma NoiseIgnored(s: string, c: char, t: string)
    requires Meaning(c).None? && c != '=' && c as int < 128
    ensures Decode(s + [c] + t) == Decode(s + t)
  {
    SkipNoise(s, c, t, 0, 0, 0);
    assert Ascii(s + [c] + t) <==> Ascii(s + t) by {
      assert forall i :: 0 <= i < |s + t| ==> (s + t)[i] == (s + [c] + t)[if i < |s| then i else i + 1];
      assert forall i :: 0 <= i < |s| + 1 + |t| && i != |s| ==> (s + [c] + t)[i] == (s + t)[if i < |s| then i else i - 1];
    }
  }

  lemma {:induction false} SkipNoise(s: string, c: char, t: string, quad: nat, left: nat, pads: nat)
    requires quad < 4 && left < (if quad == 1 then 64 else if quad == 2 then 16 else 4)
    requires Meaning(c).None? && c != '='
    ensures Scan(s + [c] + t, quad, left, pads) == Scan(s + t, quad, left, pads)
    decreases |s|
  {
    hide Meaning;
    if s == "" {
      assert s + [c] + t == [c] + t && s + t == t;
      assert ([c] + t)[1..] == t;
    } else {
      assert (s + [c] + t)[1..] == s[1..] + [c] + t && (s + t)[1..] == s[1..] + t;
      if s[0] == '=' {
        SkipNoise(s[1..], c, t, quad, left, if quad >= 2 then pads + 1 else pads);
      } else {
        match Meaning(s[0])
        case None => SkipNoise(s[1..], c, t, quad, left, pads);
        case Some(v) =>
          match quad
          case 0 => SkipNoise(s[1..], c, t, 1, v, 0);
          case 1 => SkipNoise(s[1..], c, t, 2, v % 16, 0);
          case 2 => SkipNoise(s[1..], c, t, 3, v % 4, 0);
          case _ => SkipNoise(s[1..], c, t, 0, 0, 0);
      }
    }
  }

  /** The text a token carries decodes, once padded again, to what was encoded. */
  lemma PaddedDecodes(bs: seq<Byte>)
    ensures var text := Strip(Encode(bs)); Decode(text + Padding(text)) == Some(bs)
  {
    hide *;
    StripThenPad(bs);
    DecodeEncode(bs);
  }
}
