/** The migration runner (src/core/migrations.py): any number of runners over one
    database, each applying the files its snapshot does not list, one
    transaction a file. */
module Migrations {
  import opened Prelude

  /** Files are known by their names, which are distinct and sorted. */
  ghost predicate Distinct(files: seq<string>) {
    forall i, j :: 0 <= i < j < |files| ==> files[i] != files[j]
  }

  function Pending(files: seq<string>, versions: set<string>): seq<string> {
    if |files| == 0 then []
    else
      var rest := Pending(files[..|files| - 1], versions);
      if files[|files| - 1] in versions then rest else rest + [files[|files| - 1]]
  }

  function Names(s: seq<string>): set<string> {
    set i | 0 <= i < |s| :: s[i]
  }

  lemma NamesAppend(s: seq<string>, v: string)
    ensures Names(s + [v]) == Names(s) + {v}
  {
    forall x ensures x in Names(s + [v]) <==> x in Names(s) + {v} {
      if x in Names(s) {
        var i :| 0 <= i < |s| && s[i] == x;
        assert (s + [v])[i] == x;
      }
      if x == v {
        assert (s + [v])[|s|] == x;
      }
    }
  }

  // ---- Runners, step by step ----------------------------------------------------------

  datatype Phase = Idle | Ready | Executed | Inserted | Done | Failed

  /** One run: what it read as already applied, the file it has come to, and
      how far it is with that file. */
  datatype Runner = Runner(phase: Phase, snapshot: set<string>, next: nat, applied: nat, skipped: nat)

  /** The committed versions and, in order, the committed effects. */
  datatype World = World(versions: set<string>, log: seq<string>, runners: map<nat, Runner>)

  datatype Action = Snapshot | Skip | Execute | Insert | Commit | Finish | Fail

  /** Another transaction has recorded the file and not yet ended. */
  predicate LockedOut(w: World, id: nat, next: nat) {
    exists other :: other in w.runners && other != id && w.runners[other].phase.Inserted? && w.runners[other].next == next
  }

  /** Recording a version waits for a transaction that has recorded it too, and
      fails once that has committed.  Failing stands for every error and for a
      crash: the transaction is rolled back and the run is over. */
  predicate Enabled(w: World, files: seq<string>, id: nat, a: Action) {
    id in w.runners &&
    var r := w.runners[id];
    match a
    case Snapshot => r.phase in {Idle, Done, Failed}
    case Skip => r.phase.Ready? && r.next < |files| && files[r.next] in r.snapshot
    case Execute => r.phase.Ready? && r.next < |files| && files[r.next] !in r.snapshot
    case Insert =>
      r.phase.Executed? && r.next < |files| && files[r.next] !in w.versions && !LockedOut(w, id, r.next)
    case Commit => r.phase.Inserted? && r.next < |files|
    case Finish => r.phase.Ready? && r.next == |files|
    case Fail => r.phase in {Ready, Executed, Inserted}
  }

  function Put(w: World, id: nat, r: Runner): World {
    w.(runners := w.runners[id := r])
  }

  function Step(w: World, files: seq<string>, id: nat, a: Action): World
    requires Enabled(w, files, id, a)
  {
    var r := w.runners[id];
    match a
    case Snapshot => Put(w, id, Runner(Ready, w.versions, 0, 0, 0))
    case Skip => Put(w, id, r.(next := r.next + 1, skipped := r.skipped + 1))
    case Execute => Put(w, id, r.(phase := Executed))
    case Insert => Put(w, id, r.(phase := Inserted))
    case Commit =>
      Put(w, id, r.(phase := Ready, next := r.next + 1, applied := r.applied + 1))
        .(versions := w.versions + {files[r.next]}, log := w.log + [files[r.next]])
    case Finish => Put(w, id, r.(phase := Done))
    case Fail => Put(w, id, r.(phase := Failed))
  }

  datatype Act = Act(id: nat, action: Action)

  predicate Legal(w: World, files: seq<string>, run: seq<Act>)
    decreases |run|
  {
    |run| == 0 ||
    (Enabled(w, files, run[0].id, run[0].action)
     && Legal(Step(w, files, run[0].id, run[0].action), files, run[1..]))
  }

  function Run(w: World, files: seq<string>, run: seq<Act>): World
    requires Legal(w, files, run)
    decreases |run|
  {
    if |run| == 0 then w else Run(Step(w, files, run[0].id, run[0].action), files, run[1..])
  }

  // ---- The invariant ------------------------------------------------------------------------

  /** A runner's place: everything before it is applied, and its counts add up. */
  ghost predicate RunnerOk(w: World, files: seq<string>, r: Runner) {
    !r.phase.Idle? ==>
      && r.next <= |files| && r.applied + r.skipped == r.next
      && r.snapshot <= w.versions
      && (forall i :: 0 <= i < r.next ==> files[i] in w.versions)
      && (r.applied > 0 ==> exists i :: 0 <= i < |files| && files[i] !in r.snapshot)
      && (r.phase.Inserted? ==> r.next < |files| && files[r.next] !in w.versions)
      && (r.phase.Executed? || r.phase.Inserted? ==> r.next < |files| && files[r.next] !in r.snapshot)
      && (r.phase.Done? ==> r.next == |files|)
  }

  ghost predicate OneInserter(w: World) {
    forall a, b ::
      (a in w.runners && b in w.runners && a != b && w.runners[a].phase.Inserted? && w.runners[b].phase.Inserted?)
      ==> w.runners[a].next != w.runners[b].next
  }

  /** The first file that is not applied; before it all are. */
  ghost predicate AppliedUpTo(files: seq<string>, versions: set<string>, was: set<string>, n: nat) {
    && n <= |files|
    && (forall i :: 0 <= i < n ==> files[i] in versions)
    && (forall i :: n <= i < |files| ==> (files[i] in versions <==> files[i] in was))
  }

  /** Since `was` and `log0`: the effects of a front part of the pending files,
      in order, and their versions, and nothing else. */
  ghost predicate Progress(w: World, files: seq<string>, was: set<string>, log0: seq<string>) {
    exists n: nat :: AppliedUpTo(files, w.versions, was, n)
      && w.log == log0 + Pending(files[..n], was)
      && w.versions == was + Names(Pending(files[..n], was))
  }

  ghost predicate Ok(w: World, files: seq<string>, was: set<string>, log0: seq<string>) {
    && (forall id :: id in w.runners ==> RunnerOk(w, files, w.runners[id]))
    && OneInserter(w)
    && Progress(w, files, was, log0)
  }

  lemma {:induction false} PendingSkips(files: seq<string>, was: set<string>, n: nat, m: nat)
    requires n <= m <= |files| && forall i :: n <= i < m ==> files[i] in was
    ensures Pending(files[..m], was) == Pending(files[..n], was)
    decreases m
  {
    if n < m {
      assert files[..m][..m - 1] == files[..m - 1];
      PendingSkips(files, was, n, m - 1);
    }
  }

  lemma PendingNext(files: seq<string>, was: set<string>, n: nat)
    requires n < |files| && files[n] !in was
    ensures Pending(files[..n + 1], was) == Pending(files[..n], was) + [files[n]]
  {
    assert files[..n + 1][..n] == files[..n];
  }

  lemma CommitKeepsProgress(w: World, files: seq<string>, id: nat, was: set<string>, log0: seq<string>)
    requires Distinct(files) && Progress(w, files, was, log0) && Enabled(w, files, id, Commit)
    requires RunnerOk(w, files, w.runners[id])
    ensures Progress(Step(w, files, id, Commit), files, was, log0)
  {
    var n: nat :| AppliedUpTo(files, w.versions, was, n)
                  && w.log == log0 + Pending(files[..n], was) && w.versions == was + Names(Pending(files[..n], was));
    var after, m := Step(w, files, id, Commit), w.runners[id].next;
    assert n <= m;
    forall i | n <= i < m ensures files[i] in was {
      assert files[i] in w.versions;
    }
    PendingSkips(files, was, n, m);
    PendingNext(files, was, m);
    NamesAppend(Pending(files[..n], was), files[m]);
    assert AppliedUpTo(files, after.versions, was, m + 1);
  }

  lemma StepKeepsOwn(w: World, files: seq<string>, id: nat, a: Action)
    requires Enabled(w, files, id, a) && RunnerOk(w, files, w.runners[id])
    ensures RunnerOk(Step(w, files, id, a), files, Step(w, files, id, a).runners[id])
  {
  }

  lemma StepKeepsOther(w: World, files: seq<string>, id: nat, a: Action, other: nat)
    requires Distinct(files) && Enabled(w, files, id, a) && OneInserter(w)
    requires other in w.runners && other != id && RunnerOk(w, files, w.runners[other])
    ensures other in Step(w, files, id, a).runners
    ensures RunnerOk(Step(w, files, id, a), files, Step(w, files, id, a).runners[other])
  {
  }

  lemma StepKeepsOk(w: World, files: seq<string>, id: nat, a: Action, was: set<string>, log0: seq<string>)
    requires Distinct(files) && Ok(w, files, was, log0) && Enabled(w, files, id, a)
    ensures Ok(Step(w, files, id, a), files, was, log0)
  {
    var after := Step(w, files, id, a);
    forall other | other in after.runners ensures RunnerOk(after, files, after.runners[other]) {
      if other == id {
        StepKeepsOwn(w, files, id, a);
      } else {
        StepKeepsOther(w, files, id, a, other);
      }
    }
    if a.Commit? {
      CommitKeepsProgress(w, files, id, was, log0);
    } else {
      assert Progress(after, files, was, log0);
    }
  }

  lemma {:induction false} RunKeepsOk(w: World, files: seq<string>, run: seq<Act>, was: set<string>, log0: seq<string>)
    requires Distinct(files) && Ok(w, files, was, log0) && Legal(w, files, run)
    ensures Ok(Run(w, files, run), files, was, log0)
    decreases |run|
  {
    if |run| > 0 {
      StepKeepsOk(w, files, run[0].id, run[0].action, was, log0);
      RunKeepsOk(Step(w, files, run[0].id, run[0].action), files, run[1..], was, log0);
    }
  }

  /** Any number of runners that have not begun. */
  ghost predicate Fresh(w: World) {
    forall id :: id in w.runners ==> w.runners[id].phase.Idle?
  }

  lemma FreshIsOk(w: World, files: seq<string>)
    requires Fresh(w)
    ensures Ok(w, files, w.versions, w.log)
  {
    assert files[..0] == [];
    assert Pending([], w.versions) == [] && Names([]) == {};
    assert AppliedUpTo(files, w.versions, w.versions, 0);
    assert w.log == w.log + Pending(files[..0], w.versions);
    assert w.versions == w.versions + Names(Pending(files[..0], w.versions));
  }

  // ---- Exactly once ------------------------------------------------------------------------

  lemma {:induction false} PendingExactly(files: seq<string>, was: set<string>, v: string)
    requires Distinct(files)
    ensures v in Pending(files, was) <==> v in files && v !in was
    ensures Distinct(Pending(files, was))
  {
    if |files| > 0 {
      var front, last := files[..|files| - 1], files[|files| - 1];
      PendingExactly(front, was, v);
      PendingExactly(front, was, last);
      assert files == front + [last];
    }
  }

  /** How often the effect of a file has been committed. */
  function Times(log: seq<string>, v: string): nat {
    if |log| == 0 then 0 else Times(log[..|log| - 1], v) + (if log[|log| - 1] == v then 1 else 0)
  }

  lemma {:induction false} TimesAdd(a: seq<string>, b: seq<string>, v: string)
    ensures Times(a + b, v) == Times(a, v) + Times(b, v)
  {
    if |b| == 0 {
      assert a + b == a;
    } else {
      assert (a + b)[..|a + b| - 1] == a + b[..|b| - 1];
      TimesAdd(a, b[..|b| - 1], v);
    }
  }

  lemma {:induction false} TimesDistinct(s: seq<string>, v: string)
    requires Distinct(s)
    ensures Times(s, v) == if v in s then 1 else 0
  {
    if |s| > 0 {
      TimesDistinct(s[..|s| - 1], v);
      assert s == s[..|s| - 1] + [s[|s| - 1]];
    }
  }

  /** Whatever the runners do, and wherever they fail or crash: since the start
      each file's effect has been committed at most once, exactly when its
      version was recorded, and only if it was not recorded before. */
  lemma ExactlyOnce(w: World, files: seq<string>, run: seq<Act>, v: string)
    requires Distinct(files) && Fresh(w) && Legal(w, files, run)
    ensures var after := Run(w, files, run);
            Times(after.log, v) == Times(w.log, v) + (if v in after.versions && v !in w.versions then 1 else 0)
  {
    var after := Run(w, files, run);
    FreshIsOk(w, files);
    RunKeepsOk(w, files, run, w.versions, w.log);
    var n: nat :| AppliedUpTo(files, after.versions, w.versions, n)
                  && after.log == w.log + Pending(files[..n], w.versions)
                  && after.versions == w.versions + Names(Pending(files[..n], w.versions));
    PendingExactly(files[..n], w.versions, v);
    TimesAdd(w.log, Pending(files[..n], w.versions), v);
    TimesDistinct(Pending(files[..n], w.versions), v);
    assert v in Names(Pending(files[..n], w.versions)) <==> v in Pending(files[..n], w.versions);
  }

  /** Effects are committed in the order of the files, with none left out in
      between. */
  lemma InOrder(w: World, files: seq<string>, run: seq<Act>)
    requires Distinct(files) && Fresh(w) && Legal(w, files, run)
    ensures exists n: nat :: n <= |files| && Run(w, files, run).log == w.log + Pending(files[..n], w.versions)
  {
    FreshIsOk(w, files);
    RunKeepsOk(w, files, run, w.versions, w.log);
    var after := Run(w, files, run);
    var n: nat :| AppliedUpTo(files, after.versions, w.versions, n)
                  && after.log == w.log + Pending(files[..n], w.versions)
                  && after.versions == w.versions + Names(Pending(files[..n], w.versions));
  }

  // ---- Resuming ------------------------------------------------------------------------------

  /** Once any run has come to its end, after whatever failures and crashes of
      whichever runners, the database is as one uninterrupted run leaves it. */
  lemma ResumedIsUninterrupted(w: World, files: seq<string>, run: seq<Act>, id: nat)
    requires Distinct(files) && Fresh(w) && Legal(w, files, run)
    requires id in Run(w, files, run).runners && Run(w, files, run).runners[id].phase.Done?
    ensures var after := Run(w, files, run);
            after.log == w.log + Pending(files, w.versions) && after.versions == w.versions + Names(files)
  {
    var after := Run(w, files, run);
    FreshIsOk(w, files);
    RunKeepsOk(w, files, run, w.versions, w.log);
    var n: nat :| AppliedUpTo(files, after.versions, w.versions, n)
                  && after.log == w.log + Pending(files[..n], w.versions)
                  && after.versions == w.versions + Names(Pending(files[..n], w.versions));
    assert RunnerOk(after, files, after.runners[id]);
    forall i | n <= i < |files| ensures files[i] in w.versions {
      assert files[i] in after.versions;
    }
    PendingSkips(files, w.versions, n, |files|);
    assert files[..|files|] == files;
    AllNames(files, w.versions);
  }

  lemma AllNames(files: seq<string>, was: set<string>)
    requires Distinct(files)
    ensures was + Names(Pending(files, was)) == was + Names(files)
  {
    forall v ensures v in was + Names(Pending(files, was)) <==> v in was + Names(files) {
      PendingExactly(files, was, v);
    }
  }

  /** A run that begins once everything is recorded applies nothing; and
      whenever a run has ended well, applied and skipped add up to the total. */
  lemma RunAfterSuccess(w: World, files: seq<string>, was: set<string>, log0: seq<string>, id: nat)
    requires Ok(w, files, was, log0) && id in w.runners && !w.runners[id].phase.Idle?
    ensures Names(files) <= w.runners[id].snapshot ==>
              w.runners[id].applied == 0 && !w.runners[id].phase.Executed? && !w.runners[id].phase.Inserted?
    ensures w.runners[id].phase.Done? ==> w.runners[id].applied + w.runners[id].skipped == |files|
  {
    assert RunnerOk(w, files, w.runners[id]);
    if Names(files) <= w.runners[id].snapshot {
      forall i | 0 <= i < |files| ensures files[i] in w.runners[id].snapshot {
        assert files[i] in Names(files);
      }
    }
  }

  lemma NothingToCommit(w: World, files: seq<string>, was: set<string>, log0: seq<string>, id: nat, other: nat)
    requires Ok(w, files, was, log0) && id in w.runners && !w.runners[id].phase.Idle?
    requires Names(files) <= w.runners[id].snapshot
    ensures !Enabled(w, files, other, Commit)
  {
    if other in w.runners && w.runners[other].next < |files| {
      assert RunnerOk(w, files, w.runners[other]) && RunnerOk(w, files, w.runners[id]);
      assert files[w.runners[other].next] in Names(files);
    }
  }

  lemma {:induction false} NothingLeft(w: World, files: seq<string>, run: seq<Act>, was: set<string>, log0: seq<string>,
                                       id: nat)
    requires Distinct(files) && Ok(w, files, was, log0) && Legal(w, files, run)
    requires id in w.runners && !w.runners[id].phase.Idle? && Names(files) <= w.runners[id].snapshot
    requires forall i :: 0 <= i < |run| ==> run[i] != Act(id, Snapshot)
    ensures var after := Run(w, files, run);
            && after.log == w.log && after.versions == w.versions
            && id in after.runners && after.runners[id].applied == 0
    decreases |run|
  {
    RunAfterSuccess(w, files, was, log0, id);
    if |run| > 0 {
      var other, a := run[0].id, run[0].action;
      assert run[0] != Act(id, Snapshot);
      NothingToCommit(w, files, was, log0, id, other);
      StepKeepsOk(w, files, other, a, was, log0);
      forall i | 0 <= i < |run| - 1 ensures run[1..][i] != Act(id, Snapshot) {
        assert run[1..][i] == run[i + 1];
      }
      NothingLeft(Step(w, files, other, a), files, run[1..], was, log0, id);
    }
  }

  /** A run begun after any run has ended well applies nothing, and neither does
      anybody else meanwhile. */
  lemma RunAfterRun(w: World, files: seq<string>, run: seq<Act>, done: nat, id: nat, more: seq<Act>)
    requires Distinct(files) && Fresh(w) && Legal(w, files, run)
    requires var between := Run(w, files, run);
             && done in between.runners && between.runners[done].phase.Done?
             && Enabled(between, files, id, Snapshot) && Legal(Step(between, files, id, Snapshot), files, more)
    requires forall i :: 0 <= i < |more| ==> more[i] != Act(id, Snapshot)
    ensures var between := Run(w, files, run);
            var after := Run(Step(between, files, id, Snapshot), files, more);
            && after.log == between.log && after.versions == between.versions
            && id in after.runners && after.runners[id].applied == 0
  {
    FreshIsOk(w, files);
    RunKeepsOk(w, files, run, w.versions, w.log);
    var between := Run(w, files, run);
    assert RunnerOk(between, files, between.runners[done]);
    StepKeepsOk(between, files, id, Snapshot, w.versions, w.log);
    NothingLeft(Step(between, files, id, Snapshot), files, more, w.versions, w.log, id);
  }

  // ---- One run, in place ----------------------------------------------------------------------

  /** Where applying a file may go wrong. */
  datatype Fault = NoFault | InSql | InRecord | InCommit

  datatype Counts = Counts(total: nat, applied: nat, skipped: nat)

  /** The database as one connection sees it: what is committed, and the effect
      and the version its open transaction has added. */
  class Connection {
    var versions: set<string>
    var log: seq<string>
    var effect: Option<string>
    var recorded: Option<string>

    constructor (versions: set<string>, log: seq<string>)
      ensures this.versions == versions && this.log == log && effect == None && recorded == None
    {
      this.versions, this.log, effect, recorded := versions, log, None, None;
    }

    method Commit()
      modifies this
      ensures effect == None && recorded == None
      ensures log == old(log) + (if old(effect).Some? then [old(effect).value] else [])
      ensures versions == old(versions) + (if old(recorded).Some? then {old(recorded).value} else {})
    {
      if effect.Some? {
        log := log + [effect.value];
      }
      if recorded.Some? {
        versions := versions + {recorded.value};
      }
      effect, recorded := None, None;
    }

    method Rollback()
      modifies this`effect, this`recorded
      ensures effect == None && recorded == None
    {
      effect, recorded := None, None;
    }

    /** _apply_migration: both or neither of effect and version. */
    method ApplyMigration(path: string, fault: Fault) returns (ok: bool)
      requires effect == None && recorded == None
      modifies this
      ensures effect == None && recorded == None
      ensures ok <==> fault == NoFault && path !in old(versions)
      ensures log == old(log) + (if ok then [path] else [])
      ensures versions == old(versions) + (if ok then {path} else {})
    {
      if fault == InSql {
        Rollback();
        return false;
      }
      effect := Some(path);
      if fault == InRecord || path in versions {
        Rollback();
        return false;
      }
      recorded := Some(path);
      if fault == InCommit {
        Rollback();
        return false;
      }
      Commit();
      return true;
    }

    /** run_migrations over this connection alone; None when a file fails and the
        exception ends the run.  The files then applied are those pending before
        the one that failed. */
    method RunMigrations(files: seq<string>, connected: bool, faults: string -> Fault) returns (r: Option<Counts>)
      requires Distinct(files) && effect == None && recorded == None
      modifies this
      ensures effect == None && recorded == None
      ensures !connected ==> r == Some(Counts(0, 0, 0)) && log == old(log) && versions == old(versions)
      ensures connected && r.Some? ==>
                && r.value.total == |files| && r.value.applied + r.value.skipped == |files|
                && r.value.applied == |Pending(files, old(versions))|
                && log == old(log) + Pending(files, old(versions))
                && versions == old(versions) + Names(files)
                && (forall v :: v in Pending(files, old(versions)) ==> faults(v) == NoFault)
      ensures r.None? ==>
                exists n: nat :: n < |files| && files[n] !in old(versions) && faults(files[n]) != NoFault
                  && log == old(log) + Pending(files[..n], old(versions))
                  && versions == old(versions) + Names(Pending(files[..n], old(versions)))
                  && forall i :: 0 <= i < n ==> files[i] in versions
    {
      if !connected {
        return Some(Counts(0, 0, 0));
      }
      ghost var was := versions;
      assert Pending([], was) == [] && Names([]) == {};
      if files == [] {
        return Some(Counts(0, 0, 0));
      }
      var already := versions;
      var applied, skipped := 0, 0;
      assert files[..0] == [];
      for n := 0 to |files|
        invariant effect == None && recorded == None
        invariant applied + skipped == n && applied == |Pending(files[..n], was)|
        invariant log == old(log) + Pending(files[..n], was)
        invariant AppliedUpTo(files, versions, was, n)
        invariant versions == was + Names(Pending(files[..n], was))
        invariant forall v :: v in Pending(files[..n], was) ==> faults(v) == NoFault
      {
        if files[n] in already {
          PendingSkips(files, was, n, n + 1);
          skipped := skipped + 1;
          continue;
        }
        PendingNext(files, was, n);
        NamesAppend(Pending(files[..n], was), files[n]);
        var ok := ApplyMigration(files[n], faults(files[n]));
        if !ok {
          return None;
        }
        applied := applied + 1;
      }
      assert files[..|files|] == files;
      AllNames(files, was);
      return Some(Counts(|files|, applied, skipped));
    }
  }
}
