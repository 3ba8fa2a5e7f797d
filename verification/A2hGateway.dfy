/** The gateway agents ask humans through (a2h/a2h/gateway.py): addressing,
    state-aware routing and delegation rules (a2h/a2h/models.py), over the store
    of requests. */
module A2hGateway {
  import opened Prelude
  import opened A2hStore

  // ---- Addresses --------------------------------------------------------------------

  function PidOf(namespace: string, name: string): string {
    namespace + "/" + name
  }

  /** str.split at the first slash. */
  function SplitPid(pid: string): (string, string)
    requires '/' in pid
    decreases |pid|
  {
    if pid[0] == '/' then ("", pid[1..])
    else
      var (namespace, name) := SplitPid(pid[1..]);
      ([pid[0]] + namespace, name)
  }

  /** Without a slash the namespace is "default". */
  function ParsePid(pid: string): (string, string) {
    if '/' in pid then SplitPid(pid) else ("default", pid)
  }

  lemma {:induction false} SplitJoins(pid: string)
    requires '/' in pid
    ensures var (namespace, name) := SplitPid(pid); PidOf(namespace, name) == pid && '/' !in namespace
    decreases |pid|
  {
    if pid[0] != '/' {
      SplitJoins(pid[1..]);
    }
  }

  lemma {:induction false} SplitOfPid(namespace: string, name: string)
    requires '/' !in namespace
    ensures '/' in PidOf(namespace, name) && SplitPid(PidOf(namespace, name)) == (namespace, name)
    decreases |namespace|
  {
    var pid := PidOf(namespace, name);
    assert pid[|namespace|] == '/';
    if |namespace| == 0 {
      assert pid[1..] == name;
    } else {
      SplitOfPid(namespace[1..], name);
      assert pid[1..] == PidOf(namespace[1..], name);
      assert pid[0] == namespace[0];
      assert [namespace[0]] + namespace[1..] == namespace;
    }
  }

  /** Parsing an address gives back its parts exactly when the namespace holds no
      slash. */
  lemma ParseOfPid(namespace: string, name: string)
    ensures ParsePid(PidOf(namespace, name)) == (namespace, name) <==> '/' !in namespace
  {
    assert PidOf(namespace, name)[|namespace|] == '/';
    if '/' !in namespace {
      SplitOfPid(namespace, name);
    } else {
      SplitJoins(PidOf(namespace, name));
    }
  }

  /** However it was split, the parts spell the same address again. */
  lemma ParseThenPid(pid: string)
    ensures var (namespace, name) := ParsePid(pid);
            PidOf(namespace, name) == (if '/' in pid then pid else PidOf("default", pid))
  {
    if '/' in pid {
      SplitJoins(pid);
    }
  }

  // ---- Delegation rules -------------------------------------------------------------

  /** Bounds on one context value. */
  datatype Condition = Condition(lt: Option<Value>, gt: Option<Value>, eq: Option<Value>)

  /** A filter that is empty is not applied. */
  datatype DelegationRule = DelegationRule(
    fromNamespace: string, fromNamePattern: string, responseType: string,
    conditions: seq<(string, Condition)>, autoResponse: map<string, Value>)

  datatype Deadline = NotGiven | Unreadable | At(time: real)

  datatype Request = Request(
    to: string, responseType: string, priority: string, context: map<string, Value>,
    deadline: Deadline, slaHours: real, fromNamespace: string, fromName: string)

  datatype Verdict = Yes | No | Raises

  /** What float() makes of a text. */
  type Parser = string -> Option<real>

  function AsFloat(v: Value, parse: Parser): Option<real> {
    match v
    case Number(n) => Some(n)
    case Flag(b) => Some(if b then 1.0 else 0.0)
    case Text(s) => parse(s)
  }

  /** Equality of values: a flag equals the number it stands for. */
  predicate Same(a: Value, b: Value) {
    if a.Text? || b.Text? then a == b else AsFloat(a, _ => None) == AsFloat(b, _ => None)
  }

  function Compare(a: Option<real>, b: Option<real>, less: bool): Verdict {
    if a.None? || b.None? then Raises
    else if (if less then a.value < b.value else a.value > b.value) then Yes
    else No
  }

  function CheckCondition(key: string, c: Condition, context: map<string, Value>, parse: Parser): Verdict {
    if key !in context then No
    else
      var actual := context[key];
      var low := if c.lt.None? then Yes else Compare(AsFloat(actual, parse), AsFloat(c.lt.value, parse), true);
      if low != Yes then low
      else
        var high := if c.gt.None? then Yes else Compare(AsFloat(actual, parse), AsFloat(c.gt.value, parse), false);
        if high != Yes then high
        else if c.eq.Some? && !Same(actual, c.eq.value) then No
        else Yes
  }

  /** The first condition that does not hold decides. */
  function CheckAll(cs: seq<(string, Condition)>, context: map<string, Value>, parse: Parser): Verdict {
    if |cs| == 0 then Yes
    else
      var rest, last := CheckAll(cs[..|cs| - 1], context, parse), cs[|cs| - 1];
      if rest == Yes then CheckCondition(last.0, last.1, context, parse) else rest
  }

  function RStripStars(s: string): string {
    if |s| > 0 && s[|s| - 1] == '*' then RStripStars(s[..|s| - 1]) else s
  }

  predicate SenderFits(rule: DelegationRule, q: Request) {
    && (rule.fromNamespace == "" || q.fromNamespace == rule.fromNamespace)
    && (rule.fromNamePattern == "" || StartsWith(q.fromName, RStripStars(rule.fromNamePattern)))
    && (rule.responseType == "" || q.responseType == rule.responseType)
  }

  function Matches(rule: DelegationRule, q: Request, parse: Parser): Verdict {
    if SenderFits(rule, q) then CheckAll(rule.conditions, q.context, parse) else No
  }

  function Stars(n: nat): string {
    if n == 0 then "" else Stars(n - 1) + "*"
  }

  /** Stripping takes off exactly the stars a pattern ends in. */
  lemma {:induction false} StripsStars(prefix: string, n: nat)
    requires prefix == "" || prefix[|prefix| - 1] != '*'
    ensures RStripStars(prefix + Stars(n)) == prefix
  {
    if n == 0 {
      assert prefix + Stars(0) == prefix;
    } else {
      assert (prefix + Stars(n))[..|prefix + Stars(n)| - 1] == prefix + Stars(n - 1);
      StripsStars(prefix, n - 1);
    }
  }

  /** What a rule asks of a request, filter by filter; `prefix` and `n` stars make
      up its pattern. */
  lemma MatchesExactly(rule: DelegationRule, q: Request, parse: Parser, prefix: string, n: nat)
    requires rule.fromNamePattern == prefix + Stars(n) && (prefix == "" || prefix[|prefix| - 1] != '*')
    ensures Matches(rule, q, parse) == Yes <==>
              && (rule.fromNamespace == "" || rule.fromNamespace == q.fromNamespace)
              && prefix <= q.fromName
              && (rule.responseType == "" || rule.responseType == q.responseType)
              && forall k :: 0 <= k < |rule.conditions| ==>
                   Within(rule.conditions[k].0, rule.conditions[k].1, q.context, parse)
  {
    hide CheckAll, Within, Stars;
    StripsStars(prefix, n);
    CheckAllExactly(rule.conditions, q.context, parse);
    if rule.fromNamePattern == "" {
      assert prefix == "";
    }
  }

  /** A pattern is a prefix, starred or not: it can never pick out one agent. */
  lemma PatternIsPrefix(rule: DelegationRule, q: Request, suffix: string)
    requires SenderFits(rule, q)
    ensures SenderFits(rule, q.(fromName := q.fromName + suffix))
  {
    var prefix := RStripStars(rule.fromNamePattern);
    if rule.fromNamePattern != "" {
      assert q.fromName == prefix + q.fromName[|prefix|..];
      assert q.fromName + suffix == prefix + (q.fromName[|prefix|..] + suffix);
    }
  }

  /** What one condition asks for: a value is there, it lies strictly inside the
      bounds, and it is the one named. */
  predicate Within(key: string, c: Condition, context: map<string, Value>, parse: Parser) {
    && key in context
    && (c.lt.Some? ==>
          var a, b := AsFloat(context[key], parse), AsFloat(c.lt.value, parse);
          a.Some? && b.Some? && a.value < b.value)
    && (c.gt.Some? ==>
          var a, b := AsFloat(context[key], parse), AsFloat(c.gt.value, parse);
          a.Some? && b.Some? && b.value < a.value)
    && (c.eq.Some? ==> Same(context[key], c.eq.value))
  }

  /** A flag reads as one or zero and equals that number, and a text equals only
      itself, whatever it would parse to. */
  lemma ValuesExactly(n: real, b: bool, c: bool, s: string, v: Value, parse: Parser)
    ensures AsFloat(Number(n), parse) == Some(n) && AsFloat(Text(s), parse) == parse(s)
    ensures AsFloat(Flag(true), parse) == Some(1.0) && AsFloat(Flag(false), parse) == Some(0.0)
    ensures Same(Number(n), Flag(b)) <==> n == if b then 1.0 else 0.0
    ensures Same(Flag(b), Flag(c)) <==> b == c
    ensures Same(Text(s), v) <==> v == Text(s)
    ensures Same(Number(n), v) == Same(v, Number(n)) && (v.Number? ==> (Same(Number(n), v) <==> v.n == n))
  {
  }

  /** A condition raises on the first bound it comes to that cannot be compared. */
  lemma RaisesExactly(key: string, c: Condition, context: map<string, Value>, parse: Parser)
    ensures CheckCondition(key, c, context, parse) == Raises <==>
              key in context &&
              var x := AsFloat(context[key], parse);
              var low := if c.lt.Some? then AsFloat(c.lt.value, parse) else None;
              var high := if c.gt.Some? then AsFloat(c.gt.value, parse) else None;
              || (c.lt.Some? && (x.None? || low.None?))
              || (c.gt.Some? && (c.lt.Some? ==> x.value < low.value) && (x.None? || high.None?))
  {
  }

  /** The conditions all pass exactly when every one is met; the check raises
      exactly when one of them raises and those before it are met. */
  lemma {:induction false} CheckAllExactly(cs: seq<(string, Condition)>, context: map<string, Value>, parse: Parser)
    ensures CheckAll(cs, context, parse) == Yes <==>
              forall k :: 0 <= k < |cs| ==> Within(cs[k].0, cs[k].1, context, parse)
    ensures CheckAll(cs, context, parse) == Raises <==>
              exists k :: 0 <= k < |cs| && CheckCondition(cs[k].0, cs[k].1, context, parse) == Raises
                && forall j :: 0 <= j < k ==> Within(cs[j].0, cs[j].1, context, parse)
  {
    if |cs| > 0 {
      var front, last := cs[..|cs| - 1], |cs| - 1;
      CheckAllExactly(front, context, parse);
      assert Within(cs[last].0, cs[last].1, context, parse) <==>
               CheckCondition(cs[last].0, cs[last].1, context, parse) == Yes;
      assert forall k :: 0 <= k < last ==> front[k] == cs[k];
      assert CheckAll(cs, context, parse) == Yes <==>
               CheckAll(front, context, parse) == Yes && Within(cs[last].0, cs[last].1, context, parse);
      if CheckAll(front, context, parse) == Raises {
        var k :| 0 <= k < last && CheckCondition(front[k].0, front[k].1, context, parse) == Raises
                 && forall j :: 0 <= j < k ==> Within(front[j].0, front[j].1, context, parse);
        assert CheckCondition(cs[k].0, cs[k].1, context, parse) == Raises;
      }
    }
  }

  /** DelegationRule.matches. */
  method RuleMatches(rule: DelegationRule, q: Request, parse: Parser) returns (v: Verdict)
    ensures v == Matches(rule, q, parse)
  {
    hide CheckCondition, RStripStars;
    if rule.fromNamespace != "" && q.fromNamespace != rule.fromNamespace {
      return No;
    }
    if rule.fromNamePattern != "" {
      var pattern := RStripStars(rule.fromNamePattern);
      if !StartsWith(q.fromName, pattern) {
        return No;
      }
    }
    if rule.responseType != "" && q.responseType != rule.responseType {
      return No;
    }
    var cs := rule.conditions;
    assert cs[..|cs|] == cs;
    for k := 0 to |cs|
      invariant CheckAll(cs[..k], q.context, parse) == Yes
    {
      assert cs[..k + 1][..k] == cs[..k];
      var checked := CheckCondition(cs[k].0, cs[k].1, q.context, parse);
      if checked != Yes {
        StaysDecided(cs, k + 1, q.context, parse);
        return checked;
      }
    }
    return Yes;
  }

  lemma {:induction false} StaysDecided(cs: seq<(string, Condition)>, k: nat, context: map<string, Value>, parse: Parser)
    requires k <= |cs| && CheckAll(cs[..k], context, parse) != Yes
    ensures CheckAll(cs, context, parse) == CheckAll(cs[..k], context, parse)
  {
    if k < |cs| {
      assert cs[..|cs| - 1][..k] == cs[..k];
      StaysDecided(cs[..|cs| - 1], k, context, parse);
    } else {
      assert cs[..k] == cs;
    }
  }

  datatype Pick = NoRule | Picked(rule: nat) | PickRaises

  ghost predicate PickIs(rules: seq<DelegationRule>, q: Request, parse: Parser, pick: Pick) {
    match pick
    case NoRule => forall k :: 0 <= k < |rules| ==> Matches(rules[k], q, parse) == No
    case Picked(k) =>
      && k < |rules| && Matches(rules[k], q, parse) == Yes
      && forall j :: 0 <= j < k ==> Matches(rules[j], q, parse) == No
    case PickRaises =>
      exists k :: 0 <= k < |rules| && Matches(rules[k], q, parse) == Raises
        && forall j :: 0 <= j < k ==> Matches(rules[j], q, parse) == No
  }

  /** The rules are tried in order up to the first that matches or raises. */
  method FirstRule(rules: seq<DelegationRule>, q: Request, parse: Parser) returns (pick: Pick)
    ensures PickIs(rules, q, parse, pick)
  {
    hide Matches;
    for k := 0 to |rules|
      invariant forall j :: 0 <= j < k ==> Matches(rules[j], q, parse) == No
    {
      var v := RuleMatches(rules[k], q, parse);
      if v == Yes {
        return Picked(k);
      } else if v == Raises {
        return PickRaises;
      }
    }
    return NoRule;
  }

  /** Only one outcome fits. */
  lemma PickUnique(rules: seq<DelegationRule>, q: Request, parse: Parser, a: Pick, b: Pick)
    requires PickIs(rules, q, parse, a) && PickIs(rules, q, parse, b)
    ensures a == b
  {
    hide Matches;
  }

  // ---- Routing ----------------------------------------------------------------------

  datatype StateRule = StateRule(acceptsRequests: bool, queue: bool, rerouteTo: string)

  /** A participant as the routing properties see one; an absent text is "". */
  datatype Profile = Profile(
    namespace: string, name: string, states: map<string, StateRule>, currentState: string,
    delegate: string, rules: seq<DelegationRule>)

  function Address(p: Profile): string {
    PidOf(p.namespace, p.name)
  }

  predicate AcceptsRequests(p: Profile) {
    if p.currentState in p.states then p.states[p.currentState].acceptsRequests else true
  }

  predicate ShouldQueue(p: Profile) {
    p.currentState in p.states && p.states[p.currentState].queue
  }

  /** "delegate" stands for the participant's own delegate. */
  function RerouteTarget(p: Profile): string {
    if p.currentState !in p.states then ""
    else if p.states[p.currentState].rerouteTo == "delegate" then p.delegate
    else p.states[p.currentState].rerouteTo
  }

  type Directory = map<string, Profile>

  /** Participants are filed under their own addresses. */
  ghost predicate Filed(people: Directory) {
    forall pid :: pid in people ==> Address(people[pid]) == pid
  }

  predicate Reroutes(people: Directory, target: Profile, namespace: string) {
    && !AcceptsRequests(target) && !ShouldQueue(target) && RerouteTarget(target) != ""
    && PidOf(namespace, RerouteTarget(target)) in people
    && AcceptsRequests(people[PidOf(namespace, RerouteTarget(target))])
  }

  /** Who gets a request to `target`, and the name it is addressed to. */
  function Route(people: Directory, target: Profile, namespace: string, name: string): (Profile, string) {
    if Reroutes(people, target, namespace) then
      var rerouted := people[PidOf(namespace, RerouteTarget(target))];
      (rerouted, rerouted.name)
    else (target, name)
  }

  /** Who a request to `target` should reach, spelled out from the rule of the
      target's state: someone else only if it neither accepts nor queues, and the
      stand-in it names ("delegate" standing for the target's own) is registered
      in the namespace and accepts requests. */
  ghost predicate Recipient(people: Directory, target: Profile, namespace: string, name: string,
                            chosen: Profile, toName: string)
  {
    if target.currentState !in target.states then chosen == target && toName == name
    else
      var rule := target.states[target.currentState];
      var standIn := if rule.rerouteTo == "delegate" then target.delegate else rule.rerouteTo;
      var pid := namespace + "/" + standIn;
      if !rule.acceptsRequests && !rule.queue && standIn != "" && pid in people
         && (people[pid].currentState in people[pid].states ==> people[pid].states[people[pid].currentState].acceptsRequests)
        then chosen == people[pid] && toName == people[pid].name
        else chosen == target && toName == name
  }

  /** Routing reaches that participant and nobody else. */
  lemma RouteExactly(people: Directory, target: Profile, namespace: string, name: string, chosen: Profile, toName: string)
    ensures Route(people, target, namespace, name) == (chosen, toName) <==>
              Recipient(people, target, namespace, name, chosen, toName)
  {
  }

  predicate KnownTypes(q: Request) {
    && q.responseType in {"choice", "approval", "text", "number", "confirm", "form"}
    && q.priority in {"critical", "high", "medium", "low"}
  }

  /** Without a deadline the service level gives one. */
  function DeadlineOf(q: Request, now: real): Option<real> {
    match q.deadline
    case NotGiven => Some(now + q.slaHours * 3600.0)
    case Unreadable => None
    case At(t) => Some(t)
  }

  const AUTO := "auto_delegation"

  /** Response.from_dict keeps the fields it knows. */
  function FromDict(data: map<string, Value>, channel: string): Response {
    Response(map k | k in data && k in {"value", "text", "approved", "confirmed", "fields", "metadata"} :: data[k],
             channel)
  }

  datatype Asked = AskRaises | NotFound | Made(record: Record)

  function RecordFor(q: Request, namespace: string, name: string, now: real, rules: seq<DelegationRule>, pick: Pick)
    : Record
    requires pick.Picked? ==> pick.rule < |rules|
  {
    if pick.Picked?
      then Record(AutoDelegated, Some(FromDict(rules[pick.rule].autoResponse, AUTO)), DeadlineOf(q, now),
                  namespace, name, None)
      else Record(Pending, None, DeadlineOf(q, now), namespace, name, None)
  }

  /** What a request made at `now` comes to. */
  ghost predicate AskedIs(people: Directory, q: Request, parse: Parser, now: real, asked: Asked) {
    var (namespace, name) := ParsePid(q.to);
    if !KnownTypes(q) then asked == AskRaises
    else if PidOf(namespace, name) !in people then asked == NotFound
    else
      var (chosen, toName) := Route(people, people[PidOf(namespace, name)], namespace, name);
      exists pick :: PickIs(chosen.rules, q, parse, pick)
        && asked == (if pick.PickRaises? then AskRaises
                     else Made(RecordFor(q, namespace, toName, now, chosen.rules, pick)))
  }

  lemma AskedUnique(people: Directory, q: Request, parse: Parser, now: real, a: Asked, b: Asked)
    requires AskedIs(people, q, parse, now, a) && AskedIs(people, q, parse, now, b)
    ensures a == b
  {
    hide PickIs, Matches;
    var (namespace, name) := ParsePid(q.to);
    if KnownTypes(q) && PidOf(namespace, name) in people {
      var (chosen, toName) := Route(people, people[PidOf(namespace, name)], namespace, name);
      forall x, y | PickIs(chosen.rules, q, parse, x) && PickIs(chosen.rules, q, parse, y) ensures x == y {
        PickUnique(chosen.rules, q, parse, x, y);
      }
    }
  }

  /** A registered participant is found under its own address, even when its
      namespace holds a slash and the address is split elsewhere. */
  lemma RegisteredIsReached(people: Directory, p: Profile)
    ensures var (namespace, name) := ParsePid(Address(p));
            var after := people[Address(p) := p];
            PidOf(namespace, name) in after && after[PidOf(namespace, name)] == p
  {
    assert PidOf(p.namespace, p.name)[|p.namespace|] == '/';
    ParseThenPid(Address(p));
  }

  /** A request is addressed to the participant whose rules were applied to it,
      unless it was rerouted to someone of another namespace: a name with a
      slash reaches into one, and then the address names someone else. */
  lemma AddressedToChosen(people: Directory, to: string)
    requires Filed(people)
    ensures var (namespace, name) := ParsePid(to);
            PidOf(namespace, name) in people ==>
              var target := people[PidOf(namespace, name)];
              var (chosen, toName) := Route(people, target, namespace, name);
              PidOf(namespace, toName) == Address(chosen) <==>
                !(Reroutes(people, target, namespace) && chosen.namespace != namespace)
  {
    var (namespace, name) := ParsePid(to);
    if PidOf(namespace, name) in people {
      var target := people[PidOf(namespace, name)];
      var (chosen, toName) := Route(people, target, namespace, name);
      if chosen.namespace != namespace && PidOf(namespace, toName) == Address(chosen) && toName == chosen.name {
        SameTail(namespace, chosen.namespace, toName);
      }
    }
  }

  lemma SameTail(a: string, b: string, name: string)
    requires PidOf(a, name) == PidOf(b, name)
    ensures a == b
  {
    assert |PidOf(a, name)| == |a| + 1 + |name| && |PidOf(b, name)| == |b| + 1 + |name|;
    assert a == PidOf(a, name)[..|a|] && b == PidOf(b, name)[..|b|];
  }

  /** For instance, a stand-in "b/c" of somebody in "a" may be "c" of "a/b"; the
      request is then addressed to "a/c". */
  lemma MisaddressedExample(states: map<string, StateRule>, away: Profile, standIn: Profile)
    requires states == map["away" := StateRule(false, false, "b/c")]
    requires away == Profile("a", "x", states, "away", "", [])
    requires standIn == Profile("a/b", "c", map[], "", "", [])
    ensures var people := map["a/x" := away, "a/b/c" := standIn];
            && Filed(people)
            && Route(people, people["a/x"], "a", "x") == (standIn, "c")
            && PidOf("a", "c") != Address(standIn)
  {
    assert PidOf("a", "x") == "a/x" && PidOf("a/b", "c") == "a/b/c" && PidOf("a", "b/c") == "a/b/c";
    assert RerouteTarget(away) == "b/c" by { assert "b/c"[0] != "delegate"[0]; }
    assert |PidOf("a", "c")| == 3;
  }

  /** Rerouting is one hop, and only to somebody who takes requests: a request
      lands on someone who neither takes nor queues it exactly when the target's
      state says so and the one stand-in it names is missing or does not take
      requests either. */
  lemma LandsOnRefuser(people: Directory, target: Profile, namespace: string, name: string)
    ensures var chosen := Route(people, target, namespace, name).0;
            (chosen.currentState in chosen.states && !chosen.states[chosen.currentState].acceptsRequests
             && !chosen.states[chosen.currentState].queue) <==>
              target.currentState in target.states &&
              var rule := target.states[target.currentState];
              var standIn := if rule.rerouteTo == "delegate" then target.delegate else rule.rerouteTo;
              var pid := namespace + "/" + standIn;
              && !rule.acceptsRequests && !rule.queue
              && (standIn == "" || pid !in people
                  || (people[pid].currentState in people[pid].states
                      && !people[pid].states[people[pid].currentState].acceptsRequests))
  {
    var (chosen, toName) := Route(people, target, namespace, name);
    RouteExactly(people, target, namespace, name, chosen, toName);
    hide Route, Reroutes, RerouteTarget;
  }

  /** What a response keeps of the data it was made from. */
  ghost predicate Keeps(data: map<string, Value>, kept: map<string, Value>) {
    && (forall k :: k in kept <==> k in data && k in {"value", "text", "approved", "confirmed", "fields", "metadata"})
    && (forall k :: k in kept && k in data ==> kept[k] == data[k])
  }

  lemma FromDictKeeps(data: map<string, Value>, channel: string)
    ensures Keeps(data, FromDict(data, channel).data) && FromDict(data, channel).channel == channel
  {
  }

  /** A request as it is filed, spelled out: whom it is addressed to, the first rule
      of that participant that fits, and when it is due. */
  ghost predicate Fulfils(people: Directory, q: Request, parse: Parser, now: real, r: Record,
                          name: string, chosen: Profile, pick: Pick)
  {
    var pid := r.toNamespace + "/" + name;
    && pid == (if '/' in q.to then q.to else "default/" + q.to)
    && pid in people && Recipient(people, people[pid], r.toNamespace, name, chosen, r.toName)
    && PickIs(chosen.rules, q, parse, pick) && !pick.PickRaises? && r.cancelReason == None
    && (pick.NoRule? ==> r.status == Pending && r.response == None)
    && (pick.Picked? ==>
          && r.status == AutoDelegated && r.response.Some? && r.response.value.channel == "auto_delegation"
          && pick.rule < |chosen.rules| && Keeps(chosen.rules[pick.rule].autoResponse, r.response.value.data))
    && (match q.deadline
        case NotGiven => r.deadline == Some(now + q.slaHours * 60.0 * 60.0)
        case Unreadable => r.deadline == None
        case At(t) => r.deadline == Some(t))
  }

  ghost predicate Known(q: Request) {
    && q.responseType in {"choice", "approval", "text", "number", "confirm", "form"}
    && q.priority in {"critical", "high", "medium", "low"}
  }

  ghost predicate Registered(people: Directory, to: string) {
    (if '/' in to then to else "default/" + to) in people
  }

  lemma SlashJoins(namespace: string, name: string)
    ensures PidOf(namespace, name) == namespace + "/" + name
  {
  }

  lemma DefaultPid(to: string)
    ensures PidOf("default", to) == "default/" + to
  {
    assert "default" + "/" == "default/";
  }

  lemma AddressOf(q: Request)
    ensures var (namespace, name) := ParsePid(q.to);
            namespace + "/" + name == if '/' in q.to then q.to else "default/" + q.to
  {
    var (namespace, name) := ParsePid(q.to);
    ParseThenPid(q.to);
    SlashJoins(namespace, name);
    hide ParsePid, PidOf;
    DefaultPid(q.to);
  }

  lemma PickedFulfils(people: Directory, q: Request, parse: Parser, now: real, namespace: string, name: string,
                      chosen: Profile, toName: string, pick: Pick)
    requires PickIs(chosen.rules, q, parse, pick) && !pick.PickRaises?
    requires namespace + "/" + name == (if '/' in q.to then q.to else "default/" + q.to)
    requires namespace + "/" + name in people
    requires Recipient(people, people[namespace + "/" + name], namespace, name, chosen, toName)
    ensures pick.Picked? ==> pick.rule < |chosen.rules|
    ensures Fulfils(people, q, parse, now, RecordFor(q, namespace, toName, now, chosen.rules, pick), name, chosen, pick)
  {
    hide Recipient, Matches, Keeps, FromDict;
    if pick.Picked? {
      FromDictKeeps(chosen.rules[pick.rule].autoResponse, AUTO);
    }
  }

  /** When a request is made, refused with an error, or finds nobody; and what is
      made of it. */
  lemma AskedExactly(people: Directory, q: Request, parse: Parser, now: real, asked: Asked)
    requires AskedIs(people, q, parse, now, asked)
    ensures asked == NotFound <==> Known(q) && !Registered(people, q.to)
    ensures asked.Made? ==>
              Known(q) && exists name, chosen, pick :: Fulfils(people, q, parse, now, asked.record, name, chosen, pick)
    ensures !Known(q) ==> asked == AskRaises
  {
    hide Route, Recipient, Fulfils, ParsePid, PidOf, FromDict, Matches;
    AddressOf(q);
    var (namespace, name) := ParsePid(q.to);
    SlashJoins(namespace, name);
    if asked.Made? {
      var (chosen, toName) := Route(people, people[PidOf(namespace, name)], namespace, name);
      var pick :| PickIs(chosen.rules, q, parse, pick) && (pick.Picked? ==> pick.rule < |chosen.rules|)
                  && asked == (if pick.PickRaises? then AskRaises
                               else Made(RecordFor(q, namespace, toName, now, chosen.rules, pick)));
      RouteExactly(people, people[PidOf(namespace, name)], namespace, name, chosen, toName);
      PickedFulfils(people, q, parse, now, namespace, name, chosen, toName, pick);
      assert Fulfils(people, q, parse, now, asked.record, name, chosen, pick);
    }
  }

  /** Every request the gateway makes may be saved, and it is auto-delegated,
      with the first fitting rule's response, or left pending. */
  lemma MadeIsAdmissible(people: Directory, q: Request, parse: Parser, now: real, record: Record, s: Store, id: string)
    requires AskedIs(people, q, parse, now, Made(record)) && id !in s.records
    ensures Admissible(s, Save(id, record))
  {
    hide PickIs, Route, KnownTypes;
  }

  // ---- The gateway ------------------------------------------------------------------

  class Participant {
    const namespace: string
    const name: string
    const states: map<string, StateRule>
    const delegate: string
    const rules: seq<DelegationRule>
    var currentState: string

    constructor (namespace: string, name: string, states: map<string, StateRule>, delegate: string,
                 rules: seq<DelegationRule>, currentState: string)
      ensures View() == Profile(namespace, name, states, currentState, delegate, rules)
    {
      this.namespace, this.name, this.states := namespace, name, states;
      this.delegate, this.rules, this.currentState := delegate, rules, currentState;
    }

    function View(): Profile
      reads this
    {
      Profile(namespace, name, states, currentState, delegate, rules)
    }

    method SetState(state: string)
      modifies this
      ensures View() == old(View()).(currentState := state)
    {
      currentState := state;
    }
  }

  ghost function People(participants: map<string, Participant>): Directory
    reads participants.Values
  {
    map pid | pid in participants :: participants[pid].View()
  }

  lemma PeopleAt(participants: map<string, Participant>, pid: string)
    ensures pid in People(participants) <==> pid in participants
    ensures pid in participants ==> People(participants)[pid] == participants[pid].View()
  {
  }

  datatype RespondOutcome = NoSuchRequest | NotPending(status: Status) | NotRecorded | Recorded

  /** A response submitted at `t1` and recorded at `t2`. */
  function Submitted(s: Store, id: string, t1: real, t2: real): RespondOutcome {
    if id !in s.records then NoSuchRequest
    else if !ExpireIf(s.records[id], t1).status.Pending? then NotPending(ExpireIf(s.records[id], t1).status)
    else if Overdue(s.records[id], t2) then NotRecorded
    else Recorded
  }

  /** A submission is recorded exactly when the request is pending and its
      deadline has not passed by the time it is recorded. */
  lemma RecordedExactly(s: Store, id: string, response: Response, t1: real, t2: real)
    requires t1 <= t2
    ensures Submitted(s, id, t1, t2) == Recorded <==>
              id in s.records && s.records[id].status.Pending? && !Overdue(s.records[id], t2)
    ensures Step(Step(s, Get(id), t1).0, Respond(id, response), t2).1 == Accepted(Submitted(s, id, t1, t2) == Recorded)
    ensures !(Submitted(s, id, t1, t2) in {NotRecorded, Recorded}) ==>
              Step(Step(s, Get(id), t1).0, Respond(id, response), t2).0 == Step(s, Get(id), t1).0
  {
  }

  lemma SaveKeepsWellFormed(s: Store, id: string, record: Record)
    requires WellFormed(s) && Admissible(s, Save(id, record))
    ensures WellFormed(Step(s, Save(id, record), 0.0).0)
  {
    StepKeepsWellFormed(s, Save(id, record), 0.0);
  }

  class Gateway {
    const store: InMemoryStore
    const parse: Parser
    var participants: map<string, Participant>
    /** Requests handed to the delivery channels. */
    ghost var delivered: seq<string>

    ghost predicate Valid()
      reads this, store, store.interactions.Values, participants.Values
    {
      && store.Valid() && WellFormed(store.View())
      && Filed(People(participants))
    }

    constructor (parse: Parser)
      ensures Valid() && fresh(store) && store.View() == EMPTY && participants == map[] && delivered == []
      ensures this.parse == parse
    {
      store := new InMemoryStore();
      this.parse, participants, delivered := parse, map[], [];
    }

    method Register(p: Participant) returns (pid: string)
      requires Valid()
      modifies this`participants
      ensures Valid() && pid == Address(p.View())
      ensures participants == old(participants)[pid := p]
    {
      hide InMemoryStore.Valid, InMemoryStore.View, WellFormed;
      pid := p.namespace + "/" + p.name;
      participants := participants[pid := p];
      assert People(participants) == old(People(participants))[pid := p.View()];
    }

    /** State-aware routing, one hop. */
    method ChooseTarget(target: Participant, namespace: string, name: string)
      returns (chosen: Participant, toName: string)
      ensures (chosen.View(), toName) == Route(People(participants), target.View(), namespace, name)
      ensures Recipient(People(participants), target.View(), namespace, name, chosen.View(), toName)
    {
      chosen, toName := target, name;
      if !AcceptsRequests(target.View()) && !ShouldQueue(target.View()) {
        var reroute := RerouteTarget(target.View());
        if reroute != "" {
          var standIn := PidOf(namespace, reroute);
          if standIn in participants && AcceptsRequests(participants[standIn].View()) {
            chosen := participants[standIn];
            toName := chosen.name;
          }
        }
      }
      RouteExactly(People(participants), target.View(), namespace, name, chosen.View(), toName);
    }

    /** Builds the interaction, applies the picked rule, files it and hands it to
        the channels unless it was delegated. */
    method Deliver(q: Request, id: string, now: real, namespace: string, toName: string,
                   rules: seq<DelegationRule>, pick: Pick) returns (i: Interaction)
      requires Valid() && id !in store.interactions && (pick.Picked? ==> pick.rule < |rules|)
      modifies this`delivered, store
      ensures Valid() && fresh(i) && i.id == id
      ensures i.Rec() == RecordFor(q, namespace, toName, now, rules, pick) && i.context == q.context
      ensures store.interactions == old(store.interactions)[id := i]
      ensures store.View() == Step(old(store.View()), Save(id, i.Rec()), 0.0).0
      ensures delivered == old(delivered) + (if i.status.Pending? then [id] else [])
    {
      hide Step, WellFormed, FromDict, Filed, People, DeadlineOf, InMemoryStore.Valid, InMemoryStore.View;
      i := new Interaction(id, q.fromNamespace, q.fromName, namespace, toName, q.responseType,
                           q.context, DeadlineOf(q, now));
      i.status := Pending;
      if pick.Picked? {
        i.response := Some(FromDict(rules[pick.rule].autoResponse, AUTO));
        i.status := AutoDelegated;
      }
      store.ViewRecords();
      SaveKeepsWellFormed(store.View(), id, i.Rec());
      store.Save(i);
      if i.status == Pending {
        delivered := delivered + [id];
      }
    }

    /** Makes, files and hands out one request.  Nobody home gives a cancelled
        interaction that is never filed; an unknown type or priority, or a rule
        that raises, gives none.  Ids are fresh. */
    method Ask(q: Request, id: string, now: real) returns (i: Interaction?)
      requires Valid() && id !in store.interactions
      modifies this`delivered, store
      ensures Valid()
      ensures i != null ==> fresh(i) && i.id == id
      ensures AskedIs(People(participants), q, parse, now, AskedOf(i))
      // spelled out: whom it reaches, under which rule, and by when
      ensures i != null && i.status == Cancelled <==> Known(q) && !Registered(People(participants), q.to)
      ensures i != null ==> Known(q)
      ensures i != null ==>
                i.context == if i.status == Cancelled then q.context["error" := Text(NotFoundText(q.to))] else q.context
      ensures i != null && i.status != Cancelled ==>
                exists name, chosen, pick :: Fulfils(People(participants), q, parse, now, i.Rec(), name, chosen, pick)
      ensures i != null && i.status != Cancelled ==>
                && store.interactions == old(store.interactions)[id := i]
                && store.View() == Step(old(store.View()), Save(id, i.Rec()), 0.0).0
                && delivered == old(delivered) + (if i.status.Pending? then [id] else [])
      ensures i == null || i.status == Cancelled ==>
                && store.interactions == old(store.interactions) && store.View() == old(store.View())
                && delivered == old(delivered)
    {
      hide AskedIs, Filed, Route, KnownTypes, PickIs, Step, WellFormed, ParsePid, RecordFor, FromDict, PidOf, NotFoundText, People,
        Reroutes, Recipient, Fulfils, Known, Registered, Keeps, DeadlineOf, AcceptsRequests, ShouldQueue, RerouteTarget,
        InMemoryStore.Valid, InMemoryStore.View, Gateway.Valid;
      var (namespace, name) := ParsePid(q.to);
      AskedCases(People(participants), q, parse, now, namespace, name);
      if !KnownTypes(q) {
        AskedExactly(People(participants), q, parse, now, AskRaises);
        return null;
      }
      var pid := PidOf(namespace, name);
      PeopleAt(participants, pid);
      if pid !in participants {
        i := new Interaction(id, q.fromNamespace, q.fromName, namespace, name, q.responseType,
                             q.context["error" := Text(NotFoundText(q.to))], DeadlineOf(q.(deadline := NotGiven), now));
        i.status := Cancelled;
        AskedExactly(People(participants), q, parse, now, NotFound);
        return;
      }
      var chosen, toName := ChooseTarget(participants[pid], namespace, name);
      var pick := FirstRule(chosen.rules, q, parse);
      AskedPick(People(participants), q, parse, now, namespace, name, chosen.View(), toName, pick);
      if pick.PickRaises? {
        AskedExactly(People(participants), q, parse, now, AskRaises);
        return null;
      }
      AskedExactly(People(participants), q, parse, now, Made(RecordFor(q, namespace, toName, now, chosen.rules, pick)));
      i := Deliver(q, id, now, namespace, toName, chosen.rules, pick);
    }

    method Get(id: string, now: real) returns (i: Interaction?)
      requires Valid()
      modifies store.interactions.Values`status
      ensures Valid()
      ensures i == (if id in store.interactions then store.interactions[id] else null)
      ensures id in store.interactions ==>
                var was := old(store.interactions[id].status);
                store.interactions[id].status == if was == Pending && store.interactions[id].deadline.Some?
                                                    && now > store.interactions[id].deadline.value then Expired else was
      ensures store.View() == Step(old(store.View()), A2hStore.Get(id), now).0
      ensures Found(if i == null then None else Some(i.Rec())) == Step(old(store.View()), A2hStore.Get(id), now).1
    {
      hide Step, WellFormed, Filed, People, InMemoryStore.Valid, InMemoryStore.View;
      i := store.Get(id, now);
      KeepsWellFormed(old(store.View()), A2hStore.Get(id), now);
    }

    /** Submits a response at `t1`; it is recorded at `t2`. */
    method Respond(id: string, data: map<string, Value>, channel: string, t1: real, t2: real)
      returns (outcome: RespondOutcome)
      requires Valid() && t1 <= t2
      modifies store`events, store.interactions.Values
      ensures Valid()
      // recorded exactly when pending and in time, with what the response keeps of the data
      ensures store.interactions == old(store.interactions)
      ensures outcome == NoSuchRequest <==> id !in store.interactions
      ensures outcome == Recorded <==>
                && id in store.interactions && old(store.interactions[id].status) == Pending
                && (old(store.interactions[id].deadline).None? || t2 <= old(store.interactions[id].deadline).value)
      ensures outcome == Recorded ==>
                && store.interactions[id].status == Answered && store.interactions[id].response.Some?
                && store.interactions[id].response.value.channel == channel
                && Keeps(data, store.interactions[id].response.value.data)
      ensures outcome.NotPending? ==> id in store.interactions && outcome.status == store.interactions[id].status != Pending
      ensures outcome == Submitted(old(store.View()), id, t1, t2)
      ensures store.View() == Step(Step(old(store.View()), A2hStore.Get(id), t1).0,
                                   A2hStore.Respond(id, FromDict(data, channel)), t2).0
    {
      hide Step, WellFormed, FromDict, Filed, People, Keeps, InMemoryStore.Valid, InMemoryStore.View;
      ghost var was := store.View();
      FromDictKeeps(data, channel);
      GetCases(was, id, t1);
      RecordedExactly(was, id, FromDict(data, channel), t1, t2);
      var i := Get(id, t1);
      if i == null {
        return NoSuchRequest;
      }
      if i.status != Pending {
        return NotPending(i.status);
      }
      var ok := store.Respond(id, FromDict(data, channel), t2);
      KeepsWellFormed(Step(was, A2hStore.Get(id), t1).0, A2hStore.Respond(id, FromDict(data, channel)), t2);
      outcome := if ok then Recorded else NotRecorded;
    }

    method Cancel(id: string, reason: string := "") returns (ok: bool)
      requires Valid()
      modifies store`events, store.interactions.Values
      ensures Valid()
      ensures store.View() == Step(old(store.View()), A2hStore.Cancel(id, reason), 0.0).0
      ensures Accepted(ok) == Step(old(store.View()), A2hStore.Cancel(id, reason), 0.0).1
    {
      hide Step, WellFormed, Filed, People, InMemoryStore.Valid, InMemoryStore.View;
      ok := store.Cancel(id, reason);
      KeepsWellFormed(old(store.View()), A2hStore.Cancel(id, reason), 0.0);
    }
  }

  lemma KeepsWellFormed(s: Store, op: Op, now: real)
    requires WellFormed(s) && !op.Save?
    ensures WellFormed(Step(s, op, now).0)
  {
    if op.WaitEnds? {
      StepKeepsWellFormed(s, A2hStore.Get(op.id), now);
    } else {
      StepKeepsWellFormed(s, op, now);
    }
  }

  lemma AskedCases(people: Directory, q: Request, parse: Parser, now: real, namespace: string, name: string)
    requires ParsePid(q.to) == (namespace, name)
    ensures !KnownTypes(q) ==> AskedIs(people, q, parse, now, AskRaises)
    ensures KnownTypes(q) && PidOf(namespace, name) !in people ==> AskedIs(people, q, parse, now, NotFound)
  {
    hide Route, KnownTypes, PickIs, ParsePid;
  }

  lemma AskedPick(people: Directory, q: Request, parse: Parser, now: real, namespace: string, name: string,
                  chosen: Profile, toName: string, pick: Pick)
    requires ParsePid(q.to) == (namespace, name) && KnownTypes(q) && PidOf(namespace, name) in people
    requires Route(people, people[PidOf(namespace, name)], namespace, name) == (chosen, toName)
    requires PickIs(chosen.rules, q, parse, pick)
    ensures pick.PickRaises? ==> AskedIs(people, q, parse, now, AskRaises)
    ensures pick.Picked? ==> pick.rule < |chosen.rules|
    ensures !pick.PickRaises? ==>
              var record := RecordFor(q, namespace, toName, now, chosen.rules, pick);
              AskedIs(people, q, parse, now, Made(record)) && record.status != Cancelled
  {
    hide Route, KnownTypes, ParsePid;
    PickedInRange(chosen.rules, q, parse, pick);
  }

  lemma PickedInRange(rules: seq<DelegationRule>, q: Request, parse: Parser, pick: Pick)
    requires PickIs(rules, q, parse, pick)
    ensures pick.Picked? ==> pick.rule < |rules|
  {
  }

  function NotFoundText(to: string): string {
    "Participant " + to + " not found"
  }

  /** How an outcome of Ask shows in what it returns. */
  ghost function AskedOf(i: Interaction?): Asked
    reads i
  {
    if i == null then AskRaises else if i.status == Cancelled then NotFound else Made(i.Rec())
  }
}
