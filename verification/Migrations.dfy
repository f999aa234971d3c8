/** Migrate: applying the SQL files of a directory once each and in order, by any number of runners at once and
    whatever fails. */
module Migrations {
  import opened Wrappers
  import opened Text

  /** An entry of the directory. */
  datatype Entry = Entry(name: string, isDir: bool, body: string)

  predicate IsMigration(e: Entry) {
    !e.isDir && |e.name| >= 4 && e.name[|e.name| - 4..] == ".sql"
  }

  /** Lexicographic order of names. */
  predicate Before(a: string, b: string) {
    if b == "" then false
    else if a == "" then true
    else a[0] < b[0] || (a[0] == b[0] && Before(a[1..], b[1..]))
  }

  /** What ReadDir returns: the entries sorted by name. */
  ghost predicate IsDirectory(d: seq<Entry>) {
    forall i, j :: 0 <= i < j < |d| ==> Before(d[i].name, d[j].name)
  }

  /** A file counts exactly if its name ends in .sql, whatever comes before that and whatever it holds; a directory
      never does. */
  lemma WhatCounts(e: Entry)
    ensures IsMigration(e) <==> !e.isDir && exists stem :: e.name == stem + ".sql"
  {
    if IsMigration(e) {
      assert e.name == e.name[..|e.name| - 4] + ".sql";
    }
    if stem :| e.name == stem + ".sql" {
      assert e.name[|e.name| - 4..] == ".sql";
    }
  }

  /** Names are ordered by their first different character; a name comes before all that continue it. */
  lemma {:induction false} BeforeMeans(a: string, b: string)
    ensures Before(a, b) <==> exists k: nat :: DifferAt(a, b, k)
    decreases |a|
  {
    if a != "" && b != "" && a[0] == b[0] {
      BeforeMeans(a[1..], b[1..]);
      if k: nat :| DifferAt(a[1..], b[1..], k) {
        assert a[..k + 1] == [a[0]] + a[1..][..k] && b[..k + 1] == [b[0]] + b[1..][..k];
        assert DifferAt(a, b, k + 1);
      }
      if k: nat :| DifferAt(a, b, k) {
        assert k > 0;
        assert a[1..][..k - 1] == a[..k][1..] && b[1..][..k - 1] == b[..k][1..];
        assert DifferAt(a[1..], b[1..], k - 1);
      }
    } else if Before(a, b) {
      assert DifferAt(a, b, 0);
    }
  }

  /** The names agree up to k, where the first ends or has the smaller character. */
  ghost predicate DifferAt(a: string, b: string, k: nat) {
    k <= |a| && k < |b| && a[..k] == b[..k] && (k == |a| || a[k] < b[k])
  }

  lemma {:induction false} BeforeIsStrict(a: string)
    ensures !Before(a, a)
    decreases |a|
  {
    if a != "" {
      BeforeIsStrict(a[1..]);
    }
  }

  /** The migrations among the first k entries: their names, and their bodies in order. */
  function Names(d: seq<Entry>, k: nat): set<string>
    requires k <= |d|
  {
    set i | 0 <= i < k && IsMigration(d[i]) :: d[i].name
  }

  function Bodies(d: seq<Entry>, k: nat): seq<string>
    requires k <= |d|
  {
    if k == 0 then [] else Bodies(d, k - 1) + if IsMigration(d[k - 1]) then [d[k - 1].body] else []
  }

  // ---- Runners --------------------------------------------------------------------------------------

  /** Where a runner is: about to look at an entry, having found it missing, in its transaction, with the body
      executed on some schema, with the row of schema_migrations inserted, or at its end. */
  datatype Phase =
    | Checking(i: nat) | Missing(i: nat) | Opened(i: nat) | Executed(i: nat, base: seq<string>)
    | Holding(i: nat, base: seq<string>) | Succeeded | Failed

  /** A commit may take place although the runner is told that it did not. */
  datatype CommitOutcome = Committed | ReplyLost | NotCommitted

  /** What is committed (the rows of schema_migrations, and the bodies whose effects are there, in order), and the
      runners, each with an id of its own. */
  datatype State = State(applied: set<string>, schema: seq<string>, runners: map<nat, Phase>)

  datatype Action =
    | Start(r: nat, ok: bool)
    | Check(r: nat, ok: bool)
    | Open(r: nat, ok: bool)
    | Exec(r: nat, ok: bool)
    | Insert(r: nat, ok: bool)
    | Commit(r: nat, outcome: CommitOutcome)
    | Crash(r: nat)

  function Become(s: State, r: nat, phase: Phase): State {
    s.(runners := s.runners[r := phase])
  }

  /** The row of entry i was inserted in a transaction that has not ended: whoever inserts it too has to wait. */
  predicate Locked(s: State, i: nat) {
    exists r :: r in s.runners && s.runners[r].Holding? && s.runners[r].i == i
  }

  function CheckStep(d: seq<Entry>, s: State, r: nat, i: nat, ok: bool): State {
    if i >= |d| then Become(s, r, Succeeded)
    else if !IsMigration(d[i]) then Become(s, r, Checking(i + 1))
    else if !ok then Become(s, r, Failed)
    else if d[i].name in s.applied then Become(s, r, Checking(i + 1))
    else Become(s, r, Missing(i))
  }

  function CommitStep(d: seq<Entry>, s: State, r: nat, i: nat, outcome: CommitOutcome): State
    requires i < |d|
  {
    if outcome.NotCommitted? then Become(s, r, Failed)
    else Become(s.(applied := s.applied + {d[i].name}, schema := s.schema + [d[i].body]), r,
                if outcome.Committed? then Checking(i + 1) else Failed)
  }

  /** The step of an action; an action that is not possible in a state leaves it as it is. */
  function Next(d: seq<Entry>, s: State, a: Action): State {
    if a.Start? then
      if a.r in s.runners then s else Become(s, a.r, if a.ok then Checking(0) else Failed)
    else if a.r !in s.runners then s
    else
      var phase := s.runners[a.r];
      match a
      case Check(r, ok) => if phase.Checking? then CheckStep(d, s, r, phase.i, ok) else s
      case Open(r, ok) => if phase.Missing? then Become(s, r, if ok then Opened(phase.i) else Failed) else s
      case Exec(r, ok) =>
        if phase.Opened? then Become(s, r, if ok then Executed(phase.i, s.schema) else Failed) else s
      case Insert(r, ok) =>
        if !phase.Executed? || phase.i >= |d| then s
        else if !ok || d[phase.i].name in s.applied then Become(s, r, Failed)
        else if Locked(s, phase.i) then s
        else Become(s, r, Holding(phase.i, phase.base))
      case Commit(r, outcome) =>
        if phase.Holding? && phase.i < |d| then CommitStep(d, s, r, phase.i, outcome) else s
      case _ => if phase.Succeeded? then s else Become(s, a.r, Failed)
  }

  function Run(d: seq<Entry>, s: State, actions: seq<Action>): State {
    if actions == [] then s else Next(d, Run(d, s, actions[..|actions| - 1]), actions[|actions| - 1])
  }

  // ---- The invariant ------------------------------------------------------------------------------------

  /** Exactly the migrations among the first k entries are there. */
  ghost predicate AppliedUpTo(d: seq<Entry>, applied: set<string>, schema: seq<string>, k: nat) {
    k <= |d| && applied == Names(d, k) && schema == Bodies(d, k)
  }

  ghost predicate Prefix(d: seq<Entry>, applied: set<string>, schema: seq<string>) {
    exists k: nat :: AppliedUpTo(d, applied, schema, k)
  }

  /** What a runner knows of the committed state. */
  ghost predicate PhaseFits(d: seq<Entry>, applied: set<string>, schema: seq<string>, phase: Phase) {
    match phase
    case Checking(i) => i <= |d| && Names(d, i) <= applied
    case Missing(i) => i < |d| && IsMigration(d[i]) && Names(d, i) <= applied
    case Opened(i) => i < |d| && IsMigration(d[i]) && Names(d, i) <= applied
    case Executed(i, base) =>
      i < |d| && IsMigration(d[i]) && Names(d, i) <= applied && (d[i].name !in applied ==> base == schema)
    case Holding(i, base) =>
      i < |d| && IsMigration(d[i]) && Names(d, i) <= applied && d[i].name !in applied && base == schema
    case Succeeded => Names(d, |d|) <= applied
    case Failed => true
  }

  ghost predicate Consistent(d: seq<Entry>, s: State) {
    && Prefix(d, s.applied, s.schema)
    && (forall r :: r in s.runners ==> PhaseFits(d, s.applied, s.schema, s.runners[r]))
    && forall r, q :: r in s.runners && q in s.runners && r != q && s.runners[r].Holding? && s.runners[q].Holding?
         ==> s.runners[r].i != s.runners[q].i
  }

  lemma DistinctNames(d: seq<Entry>, i: nat, j: nat)
    requires IsDirectory(d) && i < |d| && j < |d| && d[i].name == d[j].name
    ensures i == j
  {
    BeforeIsStrict(d[i].name);
  }

  lemma NamesGrow(d: seq<Entry>, k: nat)
    requires k < |d|
    ensures Names(d, k + 1) == Names(d, k) + if IsMigration(d[k]) then {d[k].name} else {}
  {
  }

  lemma {:induction false} NothingBetween(d: seq<Entry>, k: nat, i: nat)
    requires IsDirectory(d) && k <= i <= |d| && Names(d, i) <= Names(d, k)
    ensures Names(d, i) == Names(d, k) && Bodies(d, i) == Bodies(d, k)
    decreases i
  {
    if k < i {
      NamesGrow(d, i - 1);
      NothingBetween(d, k, i - 1);
      if IsMigration(d[i - 1]) {
        assert d[i - 1].name in Names(d, k);
        var j :| 0 <= j < k && IsMigration(d[j]) && d[j].name == d[i - 1].name;
        DistinctNames(d, i - 1, j);
      }
    }
  }

  lemma NameIsIn(d: seq<Entry>, i: nat, k: nat)
    requires i < |d| && k <= |d| && IsMigration(d[i])
    ensures i < k ==> d[i].name in Names(d, k)
  {
  }

  /** Where everything before entry i is applied but entry i is not, exactly what is before it is applied. */
  lemma MissingMeans(d: seq<Entry>, applied: set<string>, schema: seq<string>, i: nat)
    requires IsDirectory(d) && Prefix(d, applied, schema)
    requires i < |d| && IsMigration(d[i]) && Names(d, i) <= applied && d[i].name !in applied
    ensures AppliedUpTo(d, applied, schema, i)
  {
    var k: nat :| AppliedUpTo(d, applied, schema, k);
    NameIsIn(d, i, k);
    NothingBetween(d, k, i);
  }

  lemma AllApplied(d: seq<Entry>, applied: set<string>, schema: seq<string>)
    requires IsDirectory(d) && Prefix(d, applied, schema) && Names(d, |d|) <= applied
    ensures AppliedUpTo(d, applied, schema, |d|)
  {
    var k: nat :| AppliedUpTo(d, applied, schema, k);
    NothingBetween(d, k, |d|);
  }

  /** Changing one runner's place keeps everything consistent if the new place fits. */
  lemma BecomeKeeps(d: seq<Entry>, s: State, r: nat, phase: Phase)
    requires Consistent(d, s) && PhaseFits(d, s.applied, s.schema, phase)
    requires phase.Holding? ==> !Locked(s, phase.i)
    ensures Consistent(d, Become(s, r, phase))
  {
    hide PhaseFits, Prefix;
  }

  /** The other runners are none the worse for a commit. */
  lemma CommitFits(d: seq<Entry>, s: State, i: nat, phase: Phase)
    requires IsDirectory(d) && Consistent(d, s) && AppliedUpTo(d, s.applied, s.schema, i)
    requires i < |d| && IsMigration(d[i]) && d[i].name !in s.applied
    requires PhaseFits(d, s.applied, s.schema, phase) && (phase.Holding? ==> phase.i != i)
    ensures PhaseFits(d, s.applied + {d[i].name}, s.schema + [d[i].body], phase)
  {
    if phase.Executed? || phase.Holding? {
      assert phase.i < i ==> d[phase.i].name in Names(d, i);
      assert phase.i > i ==> d[i].name in Names(d, phase.i);
    }
  }

  lemma CommitKeeps(d: seq<Entry>, s: State, r: nat, outcome: CommitOutcome)
    requires IsDirectory(d) && Consistent(d, s) && r in s.runners && s.runners[r].Holding?
    ensures s.runners[r].i < |d| && Consistent(d, CommitStep(d, s, r, s.runners[r].i, outcome))
  {
    var i := s.runners[r].i;
    assert PhaseFits(d, s.applied, s.schema, s.runners[r]);
    MissingMeans(d, s.applied, s.schema, i);
    NamesGrow(d, i);
    var s' := CommitStep(d, s, r, i, outcome);
    if outcome.NotCommitted? {
      BecomeKeeps(d, s, r, Failed);
    } else {
      assert AppliedUpTo(d, s'.applied, s'.schema, i + 1);
      forall q | q in s'.runners ensures PhaseFits(d, s'.applied, s'.schema, s'.runners[q]) {
        if q != r {
          CommitFits(d, s, i, s.runners[q]);
        }
      }
    }
  }

  lemma NextKeepsConsistent(d: seq<Entry>, s: State, a: Action)
    requires IsDirectory(d) && Consistent(d, s)
    ensures Consistent(d, Next(d, s, a))
  {
    if a.r in s.runners {
      var phase := s.runners[a.r];
      assert PhaseFits(d, s.applied, s.schema, phase);
      BecomeKeeps(d, s, a.r, Failed);
      if a.Commit? && phase.Holding? {
        CommitKeeps(d, s, a.r, a.outcome);
      } else if a.Check? && phase.Checking? {
        CheckKeeps(d, s, a.r, a.ok);
      } else if a.Open? && phase.Missing? {
        BecomeKeeps(d, s, a.r, Opened(phase.i));
      } else if a.Exec? && phase.Opened? {
        BecomeKeeps(d, s, a.r, Executed(phase.i, s.schema));
      } else if a.Insert? && phase.Executed? {
        if d[phase.i].name !in s.applied && !Locked(s, phase.i) {
          BecomeKeeps(d, s, a.r, Holding(phase.i, phase.base));
        }
      }
    } else if a.Start? {
      BecomeKeeps(d, s, a.r, if a.ok then Checking(0) else Failed);
    }
    hide Consistent, PhaseFits, CheckStep, CommitStep, Become;
  }

  lemma CheckKeeps(d: seq<Entry>, s: State, r: nat, ok: bool)
    requires Consistent(d, s) && r in s.runners && s.runners[r].Checking?
    ensures Consistent(d, CheckStep(d, s, r, s.runners[r].i, ok))
  {
    var i := s.runners[r].i;
    assert PhaseFits(d, s.applied, s.schema, s.runners[r]);
    if i < |d| {
      NamesGrow(d, i);
    }
    var s' := CheckStep(d, s, r, i, ok);
    BecomeKeeps(d, s, r, s'.runners[r]);
  }

  // ---- Whole runs ------------------------------------------------------------------------------------------

  lemma {:induction false} RunKeepsConsistent(d: seq<Entry>, s: State, actions: seq<Action>)
    requires IsDirectory(d) && Consistent(d, s)
    ensures Consistent(d, Run(d, s, actions))
    decreases |actions|
  {
    if actions != [] {
      hide Consistent, Next;
      RunKeepsConsistent(d, s, actions[..|actions| - 1]);
      NextKeepsConsistent(d, Run(d, s, actions[..|actions| - 1]), actions[|actions| - 1]);
    }
  }

  /** A database that nobody is migrating. */
  function Idle(applied: set<string>, schema: seq<string>): State {
    State(applied, schema, map[])
  }

  /** Exactly once and in order: from a database that has the first of the directory's migrations (none, to begin
      with), every run of any runners, with any failures, leaves the first of them applied, each body once and in
      the order of the names; and as soon as one runner succeeds, all of them. */
  lemma ExactlyOnceInOrder(d: seq<Entry>, applied: set<string>, schema: seq<string>, actions: seq<Action>)
    requires IsDirectory(d) && Prefix(d, applied, schema)
    ensures var s := Run(d, Idle(applied, schema), actions);
      && Prefix(d, s.applied, s.schema)
      && forall r :: r in s.runners && s.runners[r].Succeeded? ==> AppliedUpTo(d, s.applied, s.schema, |d|)
  {
    RunKeepsConsistent(d, Idle(applied, schema), actions);
    var s := Run(d, Idle(applied, schema), actions);
    forall r | r in s.runners && s.runners[r].Succeeded? ensures AppliedUpTo(d, s.applied, s.schema, |d|) {
      SuccessFits(d, s, r);
    }
  }

  /** A body that is committed was executed on exactly the migrations before it. */
  lemma ExecutedOnItsPredecessors(d: seq<Entry>, applied: set<string>, schema: seq<string>, actions: seq<Action>,
                                  r: nat)
    requires IsDirectory(d) && Prefix(d, applied, schema)
    requires r in Run(d, Idle(applied, schema), actions).runners
    requires Run(d, Idle(applied, schema), actions).runners[r].Holding?
    ensures var s := Run(d, Idle(applied, schema), actions);
      var phase := s.runners[r];
      && phase.i < |d| && d[phase.i].name !in s.applied
      && phase.base == s.schema == Bodies(d, phase.i)
  {
    RunKeepsConsistent(d, Idle(applied, schema), actions);
    var s := Run(d, Idle(applied, schema), actions);
    assert PhaseFits(d, s.applied, s.schema, s.runners[r]);
    MissingMeans(d, s.applied, s.schema, s.runners[r].i);
  }

  lemma NextOnlyAdds(d: seq<Entry>, s: State, a: Action)
    ensures s.applied <= Next(d, s, a).applied && s.schema <= Next(d, s, a).schema
  {
  }

  /** Nothing that was applied is ever undone. */
  lemma {:induction false} RunOnlyAdds(d: seq<Entry>, s: State, actions: seq<Action>)
    ensures s.applied <= Run(d, s, actions).applied && s.schema <= Run(d, s, actions).schema
    decreases |actions|
  {
    if actions != [] {
      hide Next;
      RunOnlyAdds(d, s, actions[..|actions| - 1]);
      NextOnlyAdds(d, Run(d, s, actions[..|actions| - 1]), actions[|actions| - 1]);
    }
  }

  /** Once everything is applied, every further run is without effect. */
  lemma ThenNothingChanges(d: seq<Entry>, s: State, actions: seq<Action>)
    requires IsDirectory(d) && Consistent(d, s) && Names(d, |d|) <= s.applied
    ensures Run(d, s, actions).applied == s.applied && Run(d, s, actions).schema == s.schema
  {
    var s' := Run(d, s, actions);
    RunKeepsConsistent(d, s, actions);
    RunOnlyAdds(d, s, actions);
    AllApplied(d, s.applied, s.schema);
    AllApplied(d, s'.applied, s'.schema);
  }

  lemma {:induction false} GrownPart(d: seq<Entry>, more: seq<Entry>, k: nat)
    requires k <= |d|
    ensures Names(d + more, k) == Names(d, k) && Bodies(d + more, k) == Bodies(d, k)
  {
    if k > 0 {
      GrownPart(d, more, k - 1);
      NamesGrow(d, k - 1);
      NamesGrow(d + more, k - 1);
    }
  }

  /** Files that come after all others may be added between runs. */
  lemma GrownDirectory(d: seq<Entry>, more: seq<Entry>, applied: set<string>, schema: seq<string>)
    requires Prefix(d, applied, schema)
    ensures Prefix(d + more, applied, schema)
  {
    var k: nat :| AppliedUpTo(d, applied, schema, k);
    GrownPart(d, more, k);
    assert AppliedUpTo(d + more, applied, schema, k);
  }

  // ---- One runner ----------------------------------------------------------------------------------------

  /** What may fail while one runner is at work, entry by entry. */
  datatype Environment = Environment(
    prepares: bool,
    checks: nat -> bool,
    opens: nat -> bool,
    executes: nat -> bool,
    inserts: nat -> bool,
    commits: nat -> CommitOutcome)

  /** Entry i has to be applied and nothing fails before its commit. */
  predicate ReachesCommit(d: seq<Entry>, env: Environment, applied: set<string>, i: nat)
    requires i < |d|
  {
    IsMigration(d[i]) && env.checks(i) && d[i].name !in applied && env.opens(i) && env.executes(i) && env.inserts(i)
  }

  /** Something fails at entry i: at looking it up, or, where it has to be applied, at applying it. */
  predicate FailsAt(d: seq<Entry>, env: Environment, applied: set<string>, i: nat)
    requires i < |d|
  {
    && IsMigration(d[i])
    && (!env.checks(i)
        || (d[i].name !in applied && !(ReachesCommit(d, env, applied, i) && env.commits(i) == Committed)))
  }

  /** What is applied once the runner has stopped at entry `at`, or at the end. */
  function AppliedWhenStopped(d: seq<Entry>, env: Environment, applied: set<string>, at: nat): set<string>
    requires at <= |d|
  {
    applied + Names(d, at)
      + if at < |d| && ReachesCommit(d, env, applied, at) && env.commits(at) == ReplyLost then {d[at].name} else {}
  }

  lemma OwnNameIsNew(d: seq<Entry>, applied: set<string>, i: nat)
    requires IsDirectory(d) && i < |d|
    ensures d[i].name in applied + Names(d, i) <==> d[i].name in applied
  {
    if d[i].name in Names(d, i) {
      var j :| 0 <= j < i && IsMigration(d[j]) && d[j].name == d[i].name;
      DistinctNames(d, i, j);
    }
  }

  /** The database with one runner. */
  function Lone(applied: set<string>, schema: seq<string>, phase: Phase): State {
    State(applied, schema, map[0 := phase])
  }

  lemma LoneStarts(d: seq<Entry>, applied: set<string>, schema: seq<string>, ok: bool)
    ensures Next(d, Idle(applied, schema), Start(0, ok)) == Lone(applied, schema, if ok then Checking(0) else Failed)
  {
  }

  lemma LoneChecks(d: seq<Entry>, applied: set<string>, schema: seq<string>, i: nat, ok: bool)
    ensures Next(d, Lone(applied, schema, Checking(i)), Check(0, ok))
         == Lone(applied, schema,
                 if i >= |d| then Succeeded
                 else if !IsMigration(d[i]) then Checking(i + 1)
                 else if !ok then Failed
                 else if d[i].name in applied then Checking(i + 1)
                 else Missing(i))
  {
  }

  lemma LoneApplies(d: seq<Entry>, applied: set<string>, schema: seq<string>, i: nat, ok: bool, outcome: CommitOutcome)
    requires i < |d| && d[i].name !in applied
    ensures Next(d, Lone(applied, schema, Missing(i)), Open(0, ok))
         == Lone(applied, schema, if ok then Opened(i) else Failed)
    ensures Next(d, Lone(applied, schema, Opened(i)), Exec(0, ok))
         == Lone(applied, schema, if ok then Executed(i, schema) else Failed)
    ensures Next(d, Lone(applied, schema, Executed(i, schema)), Insert(0, ok))
         == Lone(applied, schema, if ok then Holding(i, schema) else Failed)
    ensures Next(d, Lone(applied, schema, Holding(i, schema)), Commit(0, outcome))
         == if outcome == NotCommitted then Lone(applied, schema, Failed)
            else Lone(applied + {d[i].name}, schema + [d[i].body],
                      if outcome == Committed then Checking(i + 1) else Failed)
  {
  }

  class Database {
    var applied: set<string>
    var schema: seq<string>

    constructor ()
      ensures applied == {} && schema == []
    {
      applied, schema := {}, [];
    }

    /** The program, alone on the database. Its steps are steps of the machine above; it succeeds if, and only if,
        nothing fails that it needs, and otherwise stops at the first entry where something does. */
    method Migrate(d: seq<Entry>, env: Environment) returns (ok: bool, ghost at: nat, ghost steps: seq<Action>)
      requires IsDirectory(d) && Prefix(d, applied, schema)
      modifies this
      ensures Run(d, Idle(old(applied), old(schema)), steps)
           == Lone(applied, schema, if ok then Succeeded else Failed)
      ensures Prefix(d, applied, schema) && (ok ==> AppliedUpTo(d, applied, schema, |d|))
      ensures at <= |d| && forall i: nat :: i < at ==> !FailsAt(d, env, old(applied), i)
      ensures ok <==> env.prepares && at == |d|
      ensures !ok ==> (!env.prepares && at == 0) || (at < |d| && FailsAt(d, env, old(applied), at))
      ensures applied == if env.prepares then AppliedWhenStopped(d, env, old(applied), at) else old(applied)
    {
      hide Consistent, Prefix, AppliedUpTo, PhaseFits, Lone, Next, Run, Names, IsMigration;
      ghost var start := Idle(applied, schema);
      steps, at := [], 0;
      IdleFits(d, applied, schema);
      LoneStarts(d, applied, schema, env.prepares);
      steps := Then(d, start, steps, Start(0, env.prepares));
      if !env.prepares {
        return false, at, steps;
      }
      NoNames(d);
      for i := 0 to |d|
        invariant at == i && forall j: nat :: j < i ==> !FailsAt(d, env, old(applied), j)
        invariant applied == old(applied) + Names(d, i)
        invariant Run(d, start, steps) == Lone(applied, schema, Checking(i))
        invariant Consistent(d, Run(d, start, steps)) && Prefix(d, applied, schema)
      {
        NamesGrow(d, i);
        OwnNameIsNew(d, old(applied), i);
        LoneChecks(d, applied, schema, i, env.checks(i));
        steps := Then(d, start, steps, Check(0, env.checks(i)));
        if !IsMigration(d[i]) {
          at := i + 1;
          continue;
        }
        if !env.checks(i) {
          return false, at, steps;
        }
        if d[i].name in applied {
          at := i + 1;
          continue;
        }
        LoneApplies(d, applied, schema, i, env.opens(i), env.commits(i));
        steps := Then(d, start, steps, Open(0, env.opens(i)));
        if !env.opens(i) {
          return false, at, steps;
        }
        LoneApplies(d, applied, schema, i, env.executes(i), env.commits(i));
        steps := Then(d, start, steps, Exec(0, env.executes(i)));
        if !env.executes(i) {
          return false, at, steps;
        }
        LoneApplies(d, applied, schema, i, env.inserts(i), env.commits(i));
        steps := Then(d, start, steps, Insert(0, env.inserts(i)));
        if !env.inserts(i) {
          return false, at, steps;
        }
        steps := Then(d, start, steps, Commit(0, env.commits(i)));
        if env.commits(i) != NotCommitted {
          applied := applied + {d[i].name};
          schema := schema + [d[i].body];
        }
        LoneParts(applied, schema);
        if env.commits(i) != Committed {
          return false, at, steps;
        }
        at := i + 1;
      }
      LoneChecks(d, applied, schema, |d|, true);
      steps := Then(d, start, steps, Check(0, true));
      ok := true;
      LoneSucceeded(d, applied, schema);
    }
  }

  lemma NoNames(d: seq<Entry>)
    ensures Names(d, 0) == {}
  {
  }

  lemma IdleFits(d: seq<Entry>, applied: set<string>, schema: seq<string>)
    requires Prefix(d, applied, schema)
    ensures Consistent(d, Idle(applied, schema)) && Run(d, Idle(applied, schema), []) == Idle(applied, schema)
  {
  }

  lemma SuccessFits(d: seq<Entry>, s: State, r: nat)
    requires IsDirectory(d) && Consistent(d, s) && r in s.runners && s.runners[r].Succeeded?
    ensures AppliedUpTo(d, s.applied, s.schema, |d|)
  {
    assert PhaseFits(d, s.applied, s.schema, s.runners[r]);
    AllApplied(d, s.applied, s.schema);
  }

  lemma LoneSucceeded(d: seq<Entry>, applied: set<string>, schema: seq<string>)
    requires IsDirectory(d) && Consistent(d, Lone(applied, schema, Succeeded))
    ensures AppliedUpTo(d, applied, schema, |d|)
  {
    SuccessFits(d, Lone(applied, schema, Succeeded), 0);
  }

  lemma LoneParts(applied: set<string>, schema: seq<string>)
    ensures forall phase :: Lone(applied, schema, phase).applied == applied
    ensures forall phase :: Lone(applied, schema, phase).schema == schema
  {
  }

  /** One step more. */
  ghost method Then(d: seq<Entry>, start: State, steps: seq<Action>, a: Action) returns (longer: seq<Action>)
    requires IsDirectory(d) && Consistent(d, Run(d, start, steps))
    ensures longer == steps + [a]
    ensures var s := Run(d, start, longer);
      s == Next(d, Run(d, start, steps), a) && Consistent(d, s) && Prefix(d, s.applied, s.schema)
  {
    longer := steps + [a];
    assert longer[..|steps|] == steps;
    NextKeepsConsistent(d, Run(d, start, steps), a);
    hide Next;
  }
}
