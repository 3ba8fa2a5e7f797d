/** Signed session tokens (src/api/auth.py, AuthManager.mint_token and
    verify_token).  JSON and HMAC are uninterpreted. */
module SessionToken {
  import opened Prelude
  import opened Base64Url

  datatype User = User(userId: string, email: string, tenantId: string, role: string, name: string)

  /** A decoded payload: any field may be missing. */
  datatype Claims = Claims(userId: Option<string>, email: Option<string>, tenantId: Option<string>,
                           role: Option<string>, name: Option<string>, exp: Option<int>)

  /** The signing secret with the JSON codec and the keyed hash. */
  datatype Keys = Keys(toJson: Claims -> seq<Byte>, fromJson: seq<Byte> -> Option<Claims>,
                       mac: string -> seq<Byte>)

  ghost predicate JsonInverts(k: Keys) {
    forall c :: k.fromJson(k.toJson(c)) == Some(c)
  }

  /** int(x). */
  function Truncate(t: real): int {
    if t >= 0.0 then t.Floor else -((-t).Floor)
  }

  /** str.split on one character. */
  function Split(s: string, sep: char): (parts: seq<string>)
    ensures |parts| >= 1
    ensures forall i :: 0 <= i < |parts| ==> sep !in parts[i]
  {
    if s == "" then [""]
    else
      var rest := Split(s[1..], sep);
      if s[0] == sep then [""] + rest else [[s[0]] + rest[0]] + rest[1..]
  }

  function Join(parts: seq<string>, sep: char): string
    requires |parts| >= 1
  {
    if |parts| == 1 then parts[0] else parts[0] + [sep] + Join(parts[1..], sep)
  }

  lemma {:induction false} JoinSplit(s: string, sep: char)
    ensures Join(Split(s, sep), sep) == s
  {
    if s != "" {
      JoinSplit(s[1..], sep);
      var rest := Split(s[1..], sep);
      if s[0] == sep {
        assert ([""] + rest)[1..] == rest;
        assert Join(Split(s, sep), sep) == [sep] + s[1..];
      } else {
        var parts := [[s[0]] + rest[0]] + rest[1..];
        assert parts[1..] == rest[1..];
        assert Join(parts, sep) == [s[0]] + Join(rest, sep);
      }
    }
  }

  lemma JoinThree(parts: seq<string>, sep: char)
    requires |parts| == 3
    ensures Join(parts, sep) == parts[0] + [sep] + (parts[1] + [sep] + parts[2])
  {
    assert parts[1..][0] == parts[1] && parts[1..][1..] == [parts[2]];
    assert Join([parts[2]], sep) == parts[2];
    assert Join(parts[1..], sep) == parts[1] + [sep] + Join([parts[2]], sep);
  }

  lemma {:induction false} SplitFirst(head: string, rest: string, sep: char)
    requires sep !in head
    ensures Split(head + [sep] + rest, sep) == [head] + Split(rest, sep)
  {
    var s := head + [sep] + rest;
    if head == "" {
      assert s[1..] == rest;
    } else {
      assert s[1..] == head[1..] + [sep] + rest;
      SplitFirst(head[1..], rest, sep);
      assert head == [head[0]] + head[1..];
    }
  }

  lemma {:induction false} SplitAlone(s: string, sep: char)
    requires sep !in s
    ensures Split(s, sep) == [s]
  {
    if s != "" {
      SplitAlone(s[1..], sep);
      assert s == [s[0]] + s[1..];
    }
  }

  function Signature(k: Keys, signed: string): string {
    Strip(Encode(k.mac(signed)))
  }

  function ClaimsOf(u: User, exp: int): Claims {
    Claims(Some(u.userId), Some(u.email), Some(u.tenantId), Some(u.role), Some(u.name), Some(exp))
  }

  function MintToken(k: Keys, u: User, ttl: int, now: real): string {
    var body := Strip(Encode(k.toJson(ClaimsOf(u, Truncate(now) + ttl))));
    var signed := "v1" + "." + body;
    signed + "." + Signature(k, signed)
  }

  function GetOr<T>(o: Option<T>, missing: T): T {
    match o
    case None => missing
    case Some(v) => v
  }

  /** The user a payload speaks for; without a user id there is none. */
  function UserOf(c: Claims): Option<User> {
    match c.userId
    case None => None
    case Some(id) => Some(User(id, GetOr(c.email, ""), GetOr(c.tenantId, ""), GetOr(c.role, "viewer"), GetOr(c.name, "")))
  }

  function VerifyToken(k: Keys, token: string, now: real): Option<User> {
    var parts := Split(token, '.');
    if |parts| != 3 || parts[0] != "v1" then None
    else
      var signed := parts[0] + "." + parts[1];
      if parts[2] != Signature(k, signed) then None
      else match Decode(parts[1] + Padding(parts[1]))
        case None => None
        case Some(json) =>
          match k.fromJson(json)
          case None => None
          case Some(claims) => if GetOr(claims.exp, 0) < Truncate(now) then None else UserOf(claims)
  }

  lemma ThreeParts(body: string, sig: string)
    requires '.' !in body && '.' !in sig
    ensures Split("v1" + "." + body + "." + sig, '.') == ["v1", body, sig]
  {
    assert "v1" + "." + body + "." + sig == "v1" + ['.'] + (body + ['.'] + sig);
    SplitFirst("v1", body + ['.'] + sig, '.');
    SplitFirst(body, sig, '.');
    SplitAlone(sig, '.');
  }

  /** A minted token has exactly three parts, whatever the user and lifetime: the
      version, the user's claims with the second the lifetime ends in, and the
      keyed hash of both. */
  lemma MintedParts(k: Keys, u: User, ttl: int, now: real)
    ensures var exp := if now >= 0.0 then now.Floor + ttl else ttl - (-now).Floor;
            var body := Strip(Encode(k.toJson(Claims(Some(u.userId), Some(u.email), Some(u.tenantId), Some(u.role),
                                                     Some(u.name), Some(exp)))));
            Split(MintToken(k, u, ttl, now), '.') == ["v1", body, Strip(Encode(k.mac("v1." + body)))]
  {
    hide Split, Strip, Encode;
    MintedSplit(k, u, ttl, now);
  }

  lemma VersionDot(rest: string)
    ensures "v1" + "." + rest == "v1." + rest
  {
    assert "v1" + "." == "v1.";
  }

  lemma MintedSplit(k: Keys, u: User, ttl: int, now: real)
    ensures var body := Strip(Encode(k.toJson(ClaimsOf(u, Truncate(now) + ttl))));
            Split(MintToken(k, u, ttl, now), '.') == ["v1", body, Strip(Encode(k.mac("v1." + body)))]
  {
    hide Split, Strip, Encode;
    var json := k.toJson(ClaimsOf(u, Truncate(now) + ttl));
    StripThenPad(json);
    StripThenPad(k.mac("v1" + "." + Body(json)));
    ThreeParts(Body(json), Signature(k, "v1" + "." + Body(json)));
    VersionDot(Body(json));
  }

  /** The clock has not passed a whole second `e`: the second itself still
      counts, up to the next one, and before the epoch, where truncation rounds
      up, only its first instant does. */
  predicate Unexpired(now: real, e: int) {
    if e >= 0 then now < e as real + 1.0 else now <= e as real
  }

  lemma TruncateExactly(t: real, e: int)
    ensures Truncate(t) <= e <==> Unexpired(t, e)
  {
  }

  /** Verification returns the minted user exactly while the clock has not passed
      the second the lifetime ends in: at any instant before that lifetime is
      over, and at no instant a second or more after. */
  lemma VerifyInvertsMint(k: Keys, u: User, ttl: int, minted: real, now: real)
    requires JsonInverts(k)
    ensures VerifyToken(k, MintToken(k, u, ttl, minted), now)
         == if Unexpired(now, Truncate(minted) + ttl) then Some(u) else None
    ensures minted >= 0.0 && now >= 0.0 ==>
              (VerifyToken(k, MintToken(k, u, ttl, minted), now) == Some(u) <==> now.Floor <= minted.Floor + ttl)
    ensures minted >= 0.0 && 0.0 <= now <= minted + ttl as real ==>
              VerifyToken(k, MintToken(k, u, ttl, minted), now) == Some(u)
    ensures minted >= 0.0 && now >= 0.0 && now >= minted + ttl as real + 1.0 ==>
              VerifyToken(k, MintToken(k, u, ttl, minted), now) == None
  {
    hide Split, Strip, Encode, Decode, Padding, MintToken;
    MintedSplit(k, u, ttl, minted);
    var json := k.toJson(ClaimsOf(u, Truncate(minted) + ttl));
    VersionDot(Strip(Encode(json)));
    PaddedDecodes(json);
    TruncateExactly(now, Truncate(minted) + ttl);
  }

  /** The user a payload names: an absent field reads as "", an absent role as
      "viewer", and an absent user id names nobody. */
  predicate SpeaksFor(c: Claims, u: User) {
    && c.userId == Some(u.userId)
    && u.email == (if c.email.Some? then c.email.value else "")
    && u.tenantId == (if c.tenantId.Some? then c.tenantId.value else "")
    && u.role == (if c.role.Some? then c.role.value else "viewer")
    && u.name == (if c.name.Some? then c.name.value else "")
  }

  /** What a token must be for `u` to be returned: signed text whose payload
      decodes to an unexpired claim of that user. */
  ghost predicate Attests(k: Keys, token: string, body: string, u: User, now: real) {
    && '.' !in body
    && token == "v1." + body + "." + Strip(Encode(k.mac("v1." + body)))
    && Decode(body + Padding(body)).Some?
    && var claims := k.fromJson(Decode(body + Padding(body)).value);
    && claims.Some? && SpeaksFor(claims.value, u)
    && Unexpired(now, if claims.value.exp.Some? then claims.value.exp.value else 0)
  }

  lemma UserOfExactly(c: Claims, u: User)
    ensures UserOf(c) == Some(u) <==> SpeaksFor(c, u)
  {
  }

  /** Every accepted string, minted or not, is such a token, and every such token
      is accepted. */
  lemma VerifyExactly(k: Keys, token: string, u: User, now: real)
    ensures VerifyToken(k, token, now) == Some(u) <==> exists body :: Attests(k, token, body, u, now)
  {
    hide Split, Join, Decode, Strip, Encode, Padding, UserOf, SpeaksFor, Truncate, Unexpired;
    var parts := Split(token, '.');
    if VerifyToken(k, token, now) == Some(u) {
      JoinSplit(token, '.');
      JoinThree(parts, '.');
      assert token == "v1" + "." + parts[1] + "." + parts[2];
      VersionDot(parts[1]);
      var claims := k.fromJson(Decode(parts[1] + Padding(parts[1])).value).value;
      UserOfExactly(claims, u);
      TruncateExactly(now, GetOr(claims.exp, 0));
      assert Attests(k, token, parts[1], u, now);
    }
    if body :| Attests(k, token, body, u, now) {
      VersionDot(body);
      StripThenPad(k.mac("v1." + body));
      ThreeParts(body, Signature(k, "v1" + "." + body));
      var claims := k.fromJson(Decode(body + Padding(body)).value).value;
      UserOfExactly(claims, u);
      TruncateExactly(now, GetOr(claims.exp, 0));
    }
  }
}
