/** Tenant binding (forgeos_web/db, src/core/database.py): a context variable per
    request or task, and a transaction-local setting on pooled connections that
    the row policies read. */
module Tenancy {
  import opened Prelude

  type Tenant = Option<string>

  /** What the setting is given for a tenant: nothing and the empty tenant alike
      become the empty text, which no row carries. */
  function SettingOf(t: Tenant): string {
    if t.Some? then t.value else ""
  }

  /** What an open request, task or tenant_context block puts back on leaving:
      the token of its own binding. */
  datatype Frame = RequestFrame(token: Tenant) | TaskFrame(token: Tenant) | BlockFrame(token: Tenant)

  /** A logical context: its variable, what is open in it, the pooled connection
      its transaction runs on, and the `tenant_id` argument of a Celery task whose
      signal has bound it and whose body has not begun. */
  datatype Context = Context(tenant: Tenant, frames: seq<Frame>, txn: Option<nat>, called: Option<Tenant>)

  /** Who has a connection: a context's transaction, or a block of the raw pool
      lent for a tenant (`admin` opens one for none). */
  datatype Holder = InTxn(ctx: string) | Lent(tenant: Tenant)

  datatype World = World(contexts: map<string, Context>, settings: map<nat, string>, holders: map<nat, Holder>)

  /** `ok` is false when the statement that sets or clears the connection raises;
      inside a transaction that would abort it, so it happens outside only. */
  datatype Action =
    | EnterRequest(tenant: string, ok: bool)
    | ExitRequest(ok: bool)
    | Authenticate(tenant: string)
    | StartTask(task: Tenant)
    | PlainBody
    | EndTask
    | EnterBlock(block: Tenant, ok: bool)
    | ExitBlock(ok: bool)
    | Begin(conn: nat)
    | BeginTask(conn: nat)
    | Commit
    | Open(conn: nat, lent: Tenant)
    | CommitOpen(conn: nat)
    | Close(conn: nat)

  predicate Idle(w: World, k: nat) {
    k in w.settings && k !in w.holders
  }

  predicate TopIs(c: Context, a: Action) {
    |c.frames| > 0 &&
    match c.frames[|c.frames| - 1]
    case RequestFrame(_) => a.ExitRequest?
    case TaskFrame(_) => a.EndTask?
    case BlockFrame(_) => a.ExitBlock?
  }

  /** Between the signal and the body of a task nothing else of its context runs:
      a tenant task opens its transaction, any other begins its body. */
  predicate Enabled(w: World, id: string, a: Action) {
    id in w.contexts &&
    var c := w.contexts[id];
    match a
    case EnterRequest(_, ok) => c.called.None? && (ok || c.txn.None?)
    case ExitRequest(ok) => c.called.None? && TopIs(c, a) && (ok || c.txn.None?)
    case Authenticate(_) => c.called.None?
    case StartTask(_) => c.called.None? && c.txn.None?
    case PlainBody => c.called.Some?
    case EndTask => TopIs(c, a) && c.txn.None?
    case EnterBlock(_, ok) => c.called.None? && (ok || c.txn.None?)
    case ExitBlock(ok) => c.called.None? && TopIs(c, a) && (ok || c.txn.None?)
    case Begin(k) => c.called.None? && c.txn.None? && Idle(w, k)
    case BeginTask(k) => c.called.Some? && c.txn.None? && Idle(w, k)
    case Commit => c.txn.Some?
    case Open(k, _) => Idle(w, k)
    case CommitOpen(k) => k in w.holders && w.holders[k].Lent?
    case Close(k) => k in w.holders && w.holders[k].Lent?
  }

  function Called(w: World, id: string, called: Option<Tenant>): World
    requires id in w.contexts
  {
    w.(contexts := w.contexts[id := w.contexts[id].(called := called)])
  }

  function Bind(w: World, id: string, t: Tenant): World
    requires id in w.contexts
  {
    w.(contexts := w.contexts[id := w.contexts[id].(tenant := t)])
  }

  /** set_config with is_local: it lasts to the end of the transaction, so
      outside of one it has no effect that anybody could see. */
  function WithSetting(w: World, id: string, t: Tenant): World
    requires id in w.contexts
  {
    match w.contexts[id].txn
    case None => w
    case Some(k) => w.(settings := w.settings[k := SettingOf(t)])
  }

  function Push(w: World, id: string, f: Frame): World
    requires id in w.contexts
  {
    w.(contexts := w.contexts[id := w.contexts[id].(frames := w.contexts[id].frames + [f])])
  }

  function Pop(w: World, id: string): World
    requires id in w.contexts && |w.contexts[id].frames| > 0
  {
    var c := w.contexts[id];
    w.(contexts := w.contexts[id := c.(frames := c.frames[..|c.frames| - 1])])
  }

  /** Leaving a request or block: the setting is cleared, then the variable put
      back; if the clearing raises the variable stays. */
  function Leave(w: World, id: string, ok: bool): World
    requires id in w.contexts && |w.contexts[id].frames| > 0
  {
    var c := w.contexts[id];
    if ok then Pop(Bind(WithSetting(w, id, None), id, c.frames[|c.frames| - 1].token), id)
    else Pop(w, id)
  }

  function Take(w: World, id: string, k: nat): World
    requires id in w.contexts
  {
    w.(contexts := w.contexts[id := w.contexts[id].(txn := Some(k))], holders := w.holders[k := InTxn(id)])
  }

  function Enter(w: World, id: string, t: Tenant, f: Frame, ok: bool): World
    requires id in w.contexts
  {
    if ok then Push(WithSetting(Bind(w, id, t), id, t), id, f) else Bind(w, id, t)
  }

  function Step(w: World, id: string, a: Action): World
    requires Enabled(w, id, a)
  {
    var c := w.contexts[id];
    match a
    case EnterRequest(t, ok) => Enter(w, id, Some(t), RequestFrame(c.tenant), ok)
    case ExitRequest(ok) => Leave(w, id, ok)
    case Authenticate(t) => WithSetting(Bind(w, id, Some(t)), id, Some(t))
    case StartTask(t) => Called(Push(Bind(w, id, t), id, TaskFrame(c.tenant)), id, Some(t))
    case PlainBody => Called(w, id, None)
    case EndTask => Called(Pop(Bind(w, id, c.frames[|c.frames| - 1].token), id), id, None)
    case EnterBlock(t, ok) => Enter(w, id, t, BlockFrame(c.tenant), ok)
    case ExitBlock(ok) => Leave(w, id, ok)
    case Begin(k) => Take(w, id, k)
    case BeginTask(k) => Called(WithSetting(Take(w, id, k), id, c.called.value), id, None)
    case Commit =>
      World(w.contexts[id := c.(txn := None)], w.settings[c.txn.value := ""], w.holders - {c.txn.value})
    case Open(k, t) => w.(settings := w.settings[k := SettingOf(t)], holders := w.holders[k := Lent(t)])
    case CommitOpen(k) => w.(settings := w.settings[k := ""])
    case Close(k) => w.(settings := w.settings[k := ""], holders := w.holders - {k})
  }

  datatype Act = Act(id: string, action: Action)

  predicate Legal(w: World, run: seq<Act>)
    decreases |run|
  {
    |run| == 0 ||
    (Enabled(w, run[0].id, run[0].action) && Legal(Step(w, run[0].id, run[0].action), run[1..]))
  }

  function Run(w: World, run: seq<Act>): World
    requires Legal(w, run)
    decreases |run|
  {
    if |run| == 0 then w else Run(Step(w, run[0].id, run[0].action), run[1..])
  }

  // ---- The binding invariant -----------------------------------------------------------

  /** An idle connection carries no tenant, one in a transaction carries none or
      that of the context's variable, a lent one none or that of its block. */
  ghost predicate Fits(w: World, k: nat)
    requires k in w.settings
  {
    if k !in w.holders then w.settings[k] == ""
    else
      match w.holders[k]
      case InTxn(id) =>
        && id in w.contexts && w.contexts[id].txn == Some(k)
        && w.settings[k] in {"", SettingOf(w.contexts[id].tenant)}
      case Lent(t) => w.settings[k] in {"", SettingOf(t)}
  }

  /** A transaction holds its connection, and the variable a signal has bound is
      the tenant its task was called with. */
  ghost predicate Held(w: World, id: string)
    requires id in w.contexts
  {
    var c := w.contexts[id];
    && (c.txn.Some? ==> c.txn.value in w.settings && c.txn.value in w.holders && w.holders[c.txn.value] == InTxn(id))
    && (c.called.Some? ==> c.txn.None? && c.tenant == c.called.value)
  }

  ghost predicate Bound(w: World) {
    && w.holders.Keys <= w.settings.Keys
    && (forall k :: k in w.settings ==> Fits(w, k))
    && (forall id :: id in w.contexts ==> Held(w, id))
  }

  /** The connection of the context that steps. */
  lemma StepKeepsOwnFit(w: World, id: string, a: Action, k: nat)
    requires Bound(w) && Enabled(w, id, a) && w.contexts[id].txn == Some(k)
    ensures k in w.settings && k in Step(w, id, a).settings && Fits(Step(w, id, a), k)
  {
    assert Held(w, id) && Fits(w, k);
  }

  /** Any other: it stays with its holder, or is taken, lent or given back. */
  lemma StepKeepsOtherFit(w: World, id: string, a: Action, k: nat)
    requires Bound(w) && Enabled(w, id, a) && w.contexts[id].txn != Some(k) && k in w.settings
    ensures k in Step(w, id, a).settings && Fits(Step(w, id, a), k)
  {
    assert Held(w, id) && Fits(w, k);
  }

  lemma StepKeepsFits(w: World, id: string, a: Action, k: nat)
    requires Bound(w) && Enabled(w, id, a) && k in Step(w, id, a).settings
    ensures Fits(Step(w, id, a), k)
  {
    assert Held(w, id);
    assert k in w.settings;
    hide Step, Fits, Held, Bound, Enabled;
    if w.contexts[id].txn == Some(k) {
      StepKeepsOwnFit(w, id, a, k);
    } else {
      StepKeepsOtherFit(w, id, a, k);
    }
  }

  lemma StepKeepsOwnHeld(w: World, id: string, a: Action)
    requires Bound(w) && Enabled(w, id, a)
    ensures id in Step(w, id, a).contexts && Held(Step(w, id, a), id)
  {
    assert Held(w, id);
    if a.Close? {
      assert Some(a.conn) != w.contexts[id].txn;
    }
  }

  lemma StepKeepsOtherHeld(w: World, id: string, a: Action, other: string)
    requires Bound(w) && Enabled(w, id, a) && other in w.contexts && other != id
    ensures other in Step(w, id, a).contexts && Held(Step(w, id, a), other)
  {
    assert Held(w, id) && Held(w, other);
  }

  /** Setting and variable of a task agree. */
  lemma TaskAgrees(w: World, id: string)
    requires Bound(w) && id in w.contexts && w.contexts[id].called.Some?
    ensures w.contexts[id].tenant == w.contexts[id].called.value && w.contexts[id].txn.None?
  {
    assert Held(w, id);
  }

  lemma StepKeepsBound(w: World, id: string, a: Action)
    requires Bound(w) && Enabled(w, id, a)
    ensures Bound(Step(w, id, a))
  {
    var after := Step(w, id, a);
    assert after.holders.Keys <= after.settings.Keys by {
      assert Held(w, id);
    }
    assert after.contexts.Keys == w.contexts.Keys;
    hide Step, Fits, Held;
    forall k | k in after.settings ensures Fits(after, k) {
      StepKeepsFits(w, id, a, k);
    }
    forall other | other in after.contexts ensures Held(after, other) {
      if other == id {
        StepKeepsOwnHeld(w, id, a);
      } else {
        StepKeepsOtherHeld(w, id, a, other);
      }
    }
  }

  /** Over every interleaving, no setting outlives its transaction and none is
      ever another tenant's. */
  lemma {:induction false} RunKeepsBound(w: World, run: seq<Act>)
    requires Bound(w) && Legal(w, run)
    ensures Bound(Run(w, run))
    decreases |run|
  {
    if |run| > 0 {
      StepKeepsBound(w, run[0].id, run[0].action);
      RunKeepsBound(Step(w, run[0].id, run[0].action), run[1..]);
    }
  }

  // ---- What queries see -----------------------------------------------------------------

  datatype Row = Row(tenant: string, body: int)

  /** A tenant column that is never empty. */
  ghost predicate Owned(rows: seq<Row>) {
    forall i :: 0 <= i < |rows| ==> rows[i].tenant != ""
  }

  /** The row policy, and the manager's filter alike. */
  function OfTenant(rows: seq<Row>, tenant: string): seq<Row> {
    if |rows| == 0 then []
    else
      var rest := OfTenant(rows[..|rows| - 1], tenant);
      if rows[|rows| - 1].tenant == tenant then rest + [rows[|rows| - 1]] else rest
  }

  /** The setting a query of this context runs under; one outside a transaction
      gets a connection to itself, with none. */
  function Setting(w: World, id: string): string
    requires id in w.contexts
  {
    var txn := w.contexts[id].txn;
    if txn.Some? && txn.value in w.settings then w.settings[txn.value] else ""
  }

  /** TenantManager.get_queryset under the row policy; unscoped it is the plain
      manager, under the row policy alone. */
  function Query(w: World, id: string, rows: seq<Row>, scoped: bool): seq<Row>
    requires id in w.contexts
  {
    var allowed := OfTenant(rows, Setting(w, id));
    if scoped && w.contexts[id].tenant.Some? then OfTenant(allowed, w.contexts[id].tenant.value) else allowed
  }

  lemma {:induction false} NoneWithoutTenant(rows: seq<Row>)
    requires Owned(rows)
    ensures OfTenant(rows, "") == []
  {
    if |rows| > 0 {
      NoneWithoutTenant(rows[..|rows| - 1]);
    }
  }

  lemma {:induction false} OfTenantTwice(rows: seq<Row>, tenant: string)
    ensures OfTenant(OfTenant(rows, tenant), tenant) == OfTenant(rows, tenant)
  {
    if |rows| > 0 {
      var rest := OfTenant(rows[..|rows| - 1], tenant);
      OfTenantTwice(rows[..|rows| - 1], tenant);
      if rows[|rows| - 1].tenant == tenant {
        assert (rest + [rows[|rows| - 1]])[..|rest|] == rest;
      }
    }
  }

  lemma {:induction false} OfTenantExactly(rows: seq<Row>, tenant: string, row: Row)
    ensures row in OfTenant(rows, tenant) <==> row in rows && row.tenant == tenant
  {
    if |rows| > 0 {
      OfTenantExactly(rows[..|rows| - 1], tenant, row);
      assert rows == rows[..|rows| - 1] + [rows[|rows| - 1]];
    }
  }

  /** The context's tenant is set on the connection its transaction runs on. */
  predicate Live(w: World, id: string) {
    id in w.contexts && w.contexts[id].tenant.Some? && w.contexts[id].tenant.value != ""
    && Setting(w, id) == w.contexts[id].tenant.value
  }

  /** Fail-closed: a query, scoped or not, sees exactly the rows of its context's
      tenant, or nothing when the tenant is not live on the connection. */
  lemma QuerySees(w: World, id: string, rows: seq<Row>, scoped: bool)
    requires Bound(w) && id in w.contexts && Owned(rows)
    ensures Query(w, id, rows, scoped) ==
              if Live(w, id) then OfTenant(rows, w.contexts[id].tenant.value) else []
  {
    assert Held(w, id);
    if w.contexts[id].txn.Some? {
      assert Fits(w, w.contexts[id].txn.value);
    }
    NoneWithoutTenant(rows);
    OfTenantTwice(rows, Setting(w, id));
  }

  /** No row of another tenant, in any state that any interleaving reaches. */
  lemma Isolation(w: World, run: seq<Act>, id: string, rows: seq<Row>, scoped: bool, row: Row)
    requires Bound(w) && Legal(w, run) && id in Run(w, run).contexts && Owned(rows)
    requires row in Query(Run(w, run), id, rows, scoped)
    ensures Run(w, run).contexts[id].tenant == Some(row.tenant) && row in rows
  {
    var after := Run(w, run);
    RunKeepsBound(w, run);
    QuerySees(after, id, rows, scoped);
    if Live(after, id) {
      OfTenantExactly(rows, after.contexts[id].tenant.value, row);
    }
  }

  /** When a step of the context itself leaves its tenant live: authenticating,
      entering a block or starting a task's body inside a transaction does;
      beginning or ending a transaction and leaving a block do not. */
  lemma LiveAfter(w: World, id: string, a: Action)
    requires Bound(w) && Enabled(w, id, a)
    ensures Live(Step(w, id, a), id) <==>
              match a
              case EnterRequest(t, _) => w.contexts[id].txn.Some? && t != ""
              case Authenticate(t) => w.contexts[id].txn.Some? && t != ""
              case EnterBlock(t, _) => w.contexts[id].txn.Some? && SettingOf(t) != ""
              case BeginTask(_) => SettingOf(w.contexts[id].called.value) != ""
              case PlainBody => false
              case Open(_, _) => Live(w, id)
              case CommitOpen(_) => Live(w, id)
              case Close(_) => Live(w, id)
              case _ => false
  {
    assert Held(w, id);
    if a.Begin? {
      assert Fits(w, a.conn);
    }
  }

  lemma OthersLeaveLive(w: World, id: string, a: Action, other: string)
    requires Bound(w) && Enabled(w, id, a) && other in w.contexts && other != id
    ensures other in Step(w, id, a).contexts && Step(w, id, a).contexts[other] == w.contexts[other]
    ensures Setting(Step(w, id, a), other) == Setting(w, other)
    ensures Live(Step(w, id, a), other) == Live(w, other)
  {
    assert Held(w, id) && Held(w, other);
  }

  predicate Binds(a: Action) {
    a.EnterRequest? || a.Authenticate? || a.EnterBlock? || a.BeginTask?
  }

  ghost predicate NeverBinds(run: seq<Act>, id: string) {
    forall i :: 0 <= i < |run| && run[i].id == id ==> !Binds(run[i].action)
  }

  lemma {:induction false} StaysUnbound(w: World, run: seq<Act>, id: string)
    requires Bound(w) && Legal(w, run) && id in w.contexts && !Live(w, id) && NeverBinds(run, id)
    ensures id in Run(w, run).contexts && !Live(Run(w, run), id)
    decreases |run|
  {
    if |run| > 0 {
      var after := Step(w, run[0].id, run[0].action);
      StepKeepsBound(w, run[0].id, run[0].action);
      if run[0].id == id {
        LiveAfter(w, id, run[0].action);
      } else {
        OthersLeaveLive(w, run[0].id, run[0].action, id);
      }
      forall i | 0 <= i < |run| - 1 && run[1..][i].id == id ensures !Binds(run[1..][i].action) {
        assert run[i + 1].id == id;
      }
      StaysUnbound(after, run[1..], id);
    }
  }

  /** The middleware's own setting dies at once, outside the view's transaction:
      a request nobody authenticates sees no rows, whatever tenant it names. */
  lemma AnonymousSeesNothing(w: World, id: string, tenant: string, ok: bool, run: seq<Act>, rows: seq<Row>, scoped: bool)
    requires Bound(w) && Enabled(w, id, EnterRequest(tenant, ok)) && w.contexts[id].txn.None?
    requires var entered := Step(w, id, EnterRequest(tenant, ok)); Legal(entered, run) && NeverBinds(run, id)
    requires Owned(rows)
    ensures var after := Run(Step(w, id, EnterRequest(tenant, ok)), run);
            id in after.contexts && Query(after, id, rows, scoped) == []
  {
    var entered := Step(w, id, EnterRequest(tenant, ok));
    StepKeepsBound(w, id, EnterRequest(tenant, ok));
    LiveAfter(w, id, EnterRequest(tenant, ok));
    StaysUnbound(entered, run, id);
    RunKeepsBound(entered, run);
    QuerySees(Run(entered, run), id, rows, scoped);
  }

  // ---- Raw pool blocks ------------------------------------------------------------------

  /** What a block of the raw pool sees on its connection. */
  function QueryOpen(w: World, k: nat, rows: seq<Row>): seq<Row>
    requires k in w.settings
  {
    OfTenant(rows, w.settings[k])
  }

  /** Nobody else touches a lent connection. */
  predicate Touches(act: Act, k: nat) {
    match act.action
    case Open(j, _) => j == k
    case CommitOpen(j) => j == k
    case Close(j) => j == k
    case _ => false
  }

  lemma {:induction false} LentKept(w: World, run: seq<Act>, k: nat)
    requires Bound(w) && Legal(w, run) && k in w.holders && w.holders[k].Lent?
    requires forall i :: 0 <= i < |run| ==> !Touches(run[i], k)
    ensures var after := Run(w, run);
            k in after.settings && after.settings[k] == w.settings[k] && k in after.holders && after.holders[k] == w.holders[k]
    decreases |run|
  {
    if |run| > 0 {
      assert !Touches(run[0], k);
      assert run[0].id in w.contexts && Held(w, run[0].id);
      StepKeepsBound(w, run[0].id, run[0].action);
      assert forall i :: 0 <= i < |run| - 1 ==> run[1..][i] == run[i + 1];
      LentKept(Step(w, run[0].id, run[0].action), run[1..], k);
    }
  }

  /** db.tenant() sees its tenant's rows, whatever anybody else does, up to its
      first commit; after that the block sees nothing, the binding having been
      local to the transaction that ended. */
  lemma TenantBlockSees(w: World, id: string, k: nat, t: Tenant, before: seq<Act>, after: seq<Act>, rows: seq<Row>)
    requires Bound(w) && Enabled(w, id, Open(k, t)) && Owned(rows)
    requires Legal(Step(w, id, Open(k, t)), before)
    requires forall i :: 0 <= i < |before| ==> !Touches(before[i], k)
    requires var used := Run(Step(w, id, Open(k, t)), before);
             Enabled(used, id, CommitOpen(k)) && Legal(Step(used, id, CommitOpen(k)), after)
    requires forall i :: 0 <= i < |after| ==> !Touches(after[i], k)
    ensures var used := Run(Step(w, id, Open(k, t)), before);
            k in used.settings && QueryOpen(used, k, rows) == OfTenant(rows, SettingOf(t))
    ensures var used := Run(Step(w, id, Open(k, t)), before);
            var later := Run(Step(used, id, CommitOpen(k)), after);
            k in later.settings && QueryOpen(later, k, rows) == []
  {
    var lent := Step(w, id, Open(k, t));
    StepKeepsBound(w, id, Open(k, t));
    LentKept(lent, before, k);
    RunKeepsBound(lent, before);
    var used := Run(lent, before);
    StepKeepsBound(used, id, CommitOpen(k));
    LentKept(Step(used, id, CommitOpen(k)), after, k);
    NoneWithoutTenant(rows);
  }

  /** No raw block ever sees a row of another tenant than its own, and one of
      `admin` sees none. */
  lemma OpenIsolation(w: World, run: seq<Act>, k: nat, rows: seq<Row>, row: Row)
    requires Bound(w) && Legal(w, run) && Owned(rows)
    requires var after := Run(w, run);
             k in after.settings && k in after.holders && after.holders[k].Lent? && row in QueryOpen(after, k, rows)
    ensures Run(w, run).holders[k].tenant == Some(row.tenant) && row in rows
  {
    var after := Run(w, run);
    RunKeepsBound(w, run);
    assert Fits(after, k);
    OfTenantExactly(rows, after.settings[k], row);
  }

  // ---- Putting the variable back -----------------------------------------------------------

  /** Through the whole run the context has at least `depth` frames open. */
  predicate StaysInside(w: World, run: seq<Act>, id: string, depth: nat)
    requires Legal(w, run)
    decreases |run|
  {
    && id in w.contexts && depth <= |w.contexts[id].frames|
    && (|run| == 0 || StaysInside(Step(w, run[0].id, run[0].action), run[1..], id, depth))
  }

  lemma {:induction false} OuterFramesKept(w: World, run: seq<Act>, id: string, depth: nat)
    requires Legal(w, run) && StaysInside(w, run, id, depth)
    ensures id in Run(w, run).contexts
    ensures depth <= |Run(w, run).contexts[id].frames|
    ensures Run(w, run).contexts[id].frames[..depth] == w.contexts[id].frames[..depth]
    decreases |run|
  {
    if |run| > 0 {
      OuterFramesKept(Step(w, run[0].id, run[0].action), run[1..], id, depth);
    }
  }

  predicate Opens(a: Action) {
    (a.EnterRequest? && a.ok) || a.StartTask? || (a.EnterBlock? && a.ok)
  }

  predicate Clears(a: Action) {
    a.EndTask? || (a.ExitRequest? && a.ok) || (a.ExitBlock? && a.ok)
  }

  predicate Closes(a: Action) {
    a.EndTask? || a.ExitRequest? || a.ExitBlock?
  }

  /** A request, task or block gives the context variable back as it found it,
      although authentication rebinds it and drops its token, exactly when
      clearing the setting on the way out does not raise (or the variable had
      the old value anyway). */
  lemma VariableRestored(w: World, id: string, enter: Action, run: seq<Act>, leave: Action)
    requires Enabled(w, id, enter) && Opens(enter) && Legal(Step(w, id, enter), run)
    requires StaysInside(Step(w, id, enter), run, id, |w.contexts[id].frames| + 1)
    requires var inside := Run(Step(w, id, enter), run);
             && Enabled(inside, id, leave) && Closes(leave)
             && |inside.contexts[id].frames| == |w.contexts[id].frames| + 1
    ensures var inside := Run(Step(w, id, enter), run);
            var after := Step(inside, id, leave);
            && id in after.contexts && after.contexts[id].frames == w.contexts[id].frames
            && (after.contexts[id].tenant == w.contexts[id].tenant <==>
                  Clears(leave) || inside.contexts[id].tenant == w.contexts[id].tenant)
  {
    var entered := Step(w, id, enter);
    var depth := |w.contexts[id].frames|;
    OuterFramesKept(entered, run, id, depth + 1);
    var outer := Run(entered, run).contexts[id].frames;
    EnterPushes(w, id, enter);
    assert outer == outer[..depth + 1];
    assert outer == w.contexts[id].frames + [outer[depth]];
    hide Step, Run;
    LeaveRestores(Run(entered, run), id, leave, w.contexts[id].frames);
  }

  lemma EnterPushes(w: World, id: string, enter: Action)
    requires Enabled(w, id, enter) && Opens(enter)
    ensures id in Step(w, id, enter).contexts
    ensures var frames, before := Step(w, id, enter).contexts[id].frames, w.contexts[id];
            && |frames| == |before.frames| + 1 && frames[..|frames| - 1] == before.frames
            && frames[|frames| - 1].token == before.tenant
  {
  }

  lemma LeaveRestores(w: World, id: string, leave: Action, outer: seq<Frame>)
    requires Enabled(w, id, leave) && Closes(leave)
    requires |w.contexts[id].frames| == |outer| + 1 && w.contexts[id].frames[..|outer|] == outer
    ensures id in Step(w, id, leave).contexts
    ensures var after, before := Step(w, id, leave).contexts[id], w.contexts[id];
            && after.frames == outer
            && after.tenant == (if Clears(leave) then before.frames[|outer|].token else before.tenant)
  {
  }

  ghost predicate NotBy(run: seq<Act>, id: string) {
    forall i :: 0 <= i < |run| ==> run[i].id != id
  }

  lemma {:induction false} OthersLeaveContext(w: World, run: seq<Act>, id: string)
    requires Bound(w) && Legal(w, run) && id in w.contexts && NotBy(run, id)
    ensures id in Run(w, run).contexts && Run(w, run).contexts[id] == w.contexts[id]
    decreases |run|
  {
    if |run| > 0 {
      assert run[0].id != id;
      OthersLeaveLive(w, run[0].id, run[0].action, id);
      StepKeepsBound(w, run[0].id, run[0].action);
      assert forall i :: 0 <= i < |run| - 1 ==> run[1..][i] == run[i + 1];
      OthersLeaveContext(Step(w, run[0].id, run[0].action), run[1..], id);
    }
  }

  /** Entering can fail too: the variable is bound before the statement that may
      raise, and outside the protected part.  Nothing anybody else does restores
      it, so it is wrong exactly when the tenant was another one; but no rows are
      seen through it. */
  lemma FailedEntryLeaks(w: World, id: string, enter: Action, run: seq<Act>, rows: seq<Row>, scoped: bool)
    requires Bound(w) && Enabled(w, id, enter) && (enter.EnterRequest? || enter.EnterBlock?) && !enter.ok
    requires Legal(Step(w, id, enter), run) && NotBy(run, id) && Owned(rows)
    ensures var after := Run(Step(w, id, enter), run);
            var entered := if enter.EnterRequest? then Some(enter.tenant) else enter.block;
            && id in after.contexts && after.contexts[id].frames == w.contexts[id].frames
            && (after.contexts[id].tenant == w.contexts[id].tenant <==> entered == w.contexts[id].tenant)
            && Query(after, id, rows, scoped) == []
  {
    var failed := Step(w, id, enter);
    StepKeepsBound(w, id, enter);
    LiveAfter(w, id, enter);
    OthersLeaveContext(failed, run, id);
    RunKeepsBound(failed, run);
    var after := Run(failed, run);
    assert !Live(after, id);
    QuerySees(after, id, rows, scoped);
  }

  /** Binding and resetting with the token binding gave is the identity. */
  lemma BindThenReset(w: World, id: string, t: Tenant)
    requires id in w.contexts
    ensures Bind(Bind(w, id, t), id, w.contexts[id].tenant) == w
  {
    var after := Bind(Bind(w, id, t), id, w.contexts[id].tenant);
    assert after.contexts[id] == w.contexts[id];
    assert after.contexts == w.contexts;
  }

  /** Setting a context's tenant changes no other connection and no context, and
      what any other context's queries see stays the same. */
  lemma SettingTouchesOne(w: World, id: string, t: Tenant, other: string, rows: seq<Row>, scoped: bool)
    requires Bound(w) && id in w.contexts && other in w.contexts && other != id
    ensures var after := WithSetting(w, id, t);
            && after.contexts == w.contexts && after.holders == w.holders && after.settings.Keys == w.settings.Keys
            && (forall k :: k in w.settings && Some(k) != w.contexts[id].txn ==> after.settings[k] == w.settings[k])
            && Query(after, other, rows, scoped) == Query(w, other, rows, scoped)
  {
    assert Held(w, id) && Held(w, other);
  }

  // ---- In place --------------------------------------------------------------------------

  /** resolve_tenant: the principal's tenant, else the header's, else "default". */
  function ResolveTenant(auth: string, user: string, header: string): (t: string)
    ensures t != ""
    ensures t in {auth, user, header, "default"}
    ensures t != auth ==> auth == "" && (t != user ==> user == "" && (t != header ==> header == ""))
  {
    if auth != "" then auth else if user != "" then user else if header != "" then header else "default"
  }

  class Runtime {
    var contexts: map<string, Context>
    var settings: map<nat, string>
    var holders: map<nat, Holder>

    ghost function View(): World
      reads this
    {
      World(contexts, settings, holders)
    }

    ghost predicate Valid()
      reads this
    {
      Bound(View())
    }

    constructor (ids: set<string>, connections: set<nat>)
      ensures Valid()
      ensures contexts == map id | id in ids :: Context(None, [], None, None)
      ensures settings == (map k | k in connections :: "") && holders == map[]
    {
      contexts := map id | id in ids :: Context(None, [], None, None);
      settings := map k | k in connections :: "";
      holders := map[];
    }

    /** rls.set_tenant, on the context's connection; the empty tenant is reset_tenant. */
    method SetTenant(id: string, t: Tenant)
      requires id in contexts
      modifies this`settings
      ensures View() == WithSetting(old(View()), id, t)
    {
      if contexts[id].txn.Some? {
        settings := settings[contexts[id].txn.value := SettingOf(t)];
      }
    }

    /** rls.bind_var. */
    method BindVar(id: string, t: Tenant) returns (token: Tenant)
      requires id in contexts
      modifies this`contexts
      ensures token == old(contexts)[id].tenant && View() == Bind(old(View()), id, t)
    {
      token := contexts[id].tenant;
      contexts := contexts[id := contexts[id].(tenant := t)];
    }

    /** rls.reset_var. */
    method ResetVar(id: string, token: Tenant)
      requires id in contexts
      modifies this`contexts
      ensures View() == Bind(old(View()), id, token)
    {
      contexts := contexts[id := contexts[id].(tenant := token)];
    }

    method PushFrame(id: string, f: Frame)
      requires id in contexts
      modifies this`contexts
      ensures View() == Push(old(View()), id, f)
    {
      contexts := contexts[id := contexts[id].(frames := contexts[id].frames + [f])];
    }

    method PopFrame(id: string) returns (f: Frame)
      requires id in contexts && |contexts[id].frames| > 0
      modifies this`contexts
      ensures View() == Pop(old(View()), id) && f == old(contexts)[id].frames[|old(contexts)[id].frames| - 1]
    {
      var c := contexts[id];
      f := c.frames[|c.frames| - 1];
      contexts := contexts[id := c.(frames := c.frames[..|c.frames| - 1])];
    }

    /** RLSMiddleware up to the view; `ok` is false when set_tenant raises. */
    method EnterRequest(id: string, t: string, ok: bool)
      requires Valid() && Enabled(View(), id, Action.EnterRequest(t, ok))
      modifies this
      ensures Valid() && View() == Step(old(View()), id, Action.EnterRequest(t, ok))
    {
      hide Bound;
      StepKeepsBound(View(), id, Action.EnterRequest(t, ok));
      var token := BindVar(id, Some(t));
      if ok {
        SetTenant(id, Some(t));
        PushFrame(id, RequestFrame(token));
      }
    }

    /** tenant_context up to the block. */
    method EnterBlock(id: string, t: Tenant, ok: bool)
      requires Valid() && Enabled(View(), id, Action.EnterBlock(t, ok))
      modifies this
      ensures Valid() && View() == Step(old(View()), id, Action.EnterBlock(t, ok))
    {
      hide Bound;
      StepKeepsBound(View(), id, Action.EnterBlock(t, ok));
      var token := BindVar(id, t);
      if ok {
        SetTenant(id, t);
        PushFrame(id, BlockFrame(token));
      }
    }

    /** The finally part of RLSMiddleware and of tenant_context: reset_tenant,
        then reset_var; `ok` is false when the first raises. */
    method LeaveFinally(id: string, a: Action)
      requires Valid() && Enabled(View(), id, a) && (a.ExitRequest? || a.ExitBlock?)
      modifies this
      ensures Valid() && View() == Step(old(View()), id, a)
    {
      hide Bound;
      StepKeepsBound(View(), id, a);
      if a.ok {
        SetTenant(id, None);
        var token := contexts[id].frames[|contexts[id].frames| - 1].token;
        ResetVar(id, token);
      }
      var _ := PopFrame(id);
    }

    /** The end of ForgeOSAuthentication.authenticate: the token is dropped. */
    method Authenticate(id: string, t: string)
      requires Valid() && Enabled(View(), id, Action.Authenticate(t))
      modifies this
      ensures Valid() && View() == Step(old(View()), id, Action.Authenticate(t))
    {
      hide Bound;
      StepKeepsBound(View(), id, Action.Authenticate(t));
      var _ := BindVar(id, Some(t));
      SetTenant(id, Some(t));
    }

    /** The prerun signal. */
    method Prerun(id: string, t: Tenant)
      requires Valid() && Enabled(View(), id, StartTask(t))
      modifies this
      ensures Valid() && View() == Step(old(View()), id, StartTask(t))
    {
      hide Bound;
      StepKeepsBound(View(), id, StartTask(t));
      var token := BindVar(id, t);
      PushFrame(id, TaskFrame(token));
      contexts := contexts[id := contexts[id].(called := Some(t))];
    }

    /** The body of a task that is not a TenantTask. */
    method PlainBody(id: string)
      requires Valid() && Enabled(View(), id, Action.PlainBody)
      modifies this
      ensures Valid() && View() == Step(old(View()), id, Action.PlainBody)
    {
      hide Bound;
      StepKeepsBound(View(), id, Action.PlainBody);
      contexts := contexts[id := contexts[id].(called := None)];
    }

    /** The postrun signal. */
    method Postrun(id: string)
      requires Valid() && Enabled(View(), id, EndTask)
      modifies this
      ensures Valid() && View() == Step(old(View()), id, EndTask)
    {
      hide Bound;
      StepKeepsBound(View(), id, EndTask);
      var token := contexts[id].frames[|contexts[id].frames| - 1].token;
      ResetVar(id, token);
      var _ := PopFrame(id);
      contexts := contexts[id := contexts[id].(called := None)];
    }

    /** A transaction takes an idle connection. */
    method Begin(id: string, k: nat)
      requires Valid() && Enabled(View(), id, Action.Begin(k))
      modifies this
      ensures Valid() && View() == Step(old(View()), id, Action.Begin(k))
    {
      hide Bound;
      StepKeepsBound(View(), id, Action.Begin(k));
      contexts := contexts[id := contexts[id].(txn := Some(k))];
      holders := holders[k := InTxn(id)];
    }

    /** TenantTask.__call__ up to the body: a transaction, and in it the tenant the
        task was called with, which is the one its signal bound. */
    method RunTask(id: string, k: nat, tid: Tenant)
      requires Valid() && Enabled(View(), id, BeginTask(k)) && contexts[id].called == Some(tid)
      modifies this
      ensures Valid() && View() == Step(old(View()), id, BeginTask(k))
      ensures contexts[id].tenant == tid && k in settings && settings[k] == SettingOf(tid)
    {
      hide Bound;
      TaskAgrees(View(), id);
      StepKeepsBound(View(), id, BeginTask(k));
      contexts := contexts[id := contexts[id].(txn := Some(k))];
      holders := holders[k := InTxn(id)];
      SetTenant(id, tid);
      contexts := contexts[id := contexts[id].(called := None)];
    }

    /** Commit and rollback alike end the setting. */
    method Commit(id: string)
      requires Valid() && Enabled(View(), id, Action.Commit)
      modifies this
      ensures Valid() && View() == Step(old(View()), id, Action.Commit)
    {
      hide Bound;
      StepKeepsBound(View(), id, Action.Commit);
      var k := contexts[id].txn.value;
      contexts := contexts[id := contexts[id].(txn := None)];
      settings := settings[k := ""];
      holders := holders - {k};
    }

    /** DatabaseClient.tenant, and admin with no tenant. */
    method Open(id: string, k: nat, t: Tenant)
      requires Valid() && Enabled(View(), id, Action.Open(k, t))
      modifies this
      ensures Valid() && View() == Step(old(View()), id, Action.Open(k, t))
    {
      hide Bound;
      StepKeepsBound(View(), id, Action.Open(k, t));
      settings := settings[k := SettingOf(t)];
      holders := holders[k := Lent(t)];
    }

    /** TenantConnection.commit. */
    method CommitOpen(id: string, k: nat)
      requires Valid() && Enabled(View(), id, Action.CommitOpen(k))
      modifies this
      ensures Valid() && View() == Step(old(View()), id, Action.CommitOpen(k))
    {
      hide Bound;
      StepKeepsBound(View(), id, Action.CommitOpen(k));
      settings := settings[k := ""];
    }

    method Close(id: string, k: nat)
      requires Valid() && Enabled(View(), id, Action.Close(k))
      modifies this
      ensures Valid() && View() == Step(old(View()), id, Action.Close(k))
    {
      hide Bound;
      StepKeepsBound(View(), id, Action.Close(k));
      settings := settings[k := ""];
      holders := holders - {k};
    }
  }
}
