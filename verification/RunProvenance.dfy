/** Provenance: what was sent to core with a version was found with the filters of that version. */
module RunProvenance {
  import opened Wrappers
  import opened Json
  import opened EisConfig
  import opened SearcherConfigs
  import opened Hits
  import opened Profiles
  import opened RunProtocol
  import ProfileLaws

  /** The history has an entry for every version that a row ever had, the last one being its present filters. */
  ghost predicate HistoryFits(history: map<Id, seq<Json>>, t: Table) {
    && ValidTable(t)
    && history.Keys <= t.used
    && (forall id :: id in history ==> history[id] != [])
    && forall id :: id in t.rows ==>
         && id in history
         && |history[id]| == t.rows[id].configVersion
         && history[id][|history[id]| - 1] == t.rows[id].eisConfig
  }

  /** Nothing that was noted is ever changed. */
  ghost predicate Extends(history: map<Id, seq<Json>>, later: map<Id, seq<Json>>) {
    forall id :: id in history ==> id in later && history[id] <= later[id]
  }

  /** `c` is what version v of profile `id` stood for. */
  ghost predicate Denotes(history: map<Id, seq<Json>>, id: Id, v: int, c: SearcherConfig) {
    id in history && 1 <= v <= |history[id]| && Decode(history[id][v - 1]) == Some(c)
  }

  ghost predicate SnapshotFits(history: map<Id, seq<Json>>, p: Profile) {
    Denotes(history, p.id, p.configVersion, p.config)
  }

  ghost predicate BatchFits(history: map<Id, seq<Json>>, b: Batch) {
    exists c :: Denotes(history, b.id, b.version, c) && b.filters == SearcherQuery(c)
  }

  ghost predicate Provenance(s: State) {
    && HistoryFits(s.history, s.table)
    && (forall h :: h in s.requests ==> SnapshotFits(s.history, s.requests[h].profile))
    && (forall r :: r in s.crawls ==> SnapshotFits(s.history, s.crawls[r].profile))
    && (forall i :: 0 <= i < |s.log| ==> BatchFits(s.history, s.log[i]))
  }

  /** What every store operation is to a table. */
  ghost predicate OneStep(t: Table, t': Table) {
    && ValidTable(t') && t.used <= t'.used
    && forall id :: id in t'.rows ==>
         if id in t.rows
         then t'.rows[id].configVersion == t.rows[id].configVersion + ProfileLaws.Rises(t, t', id)
         else id !in t.used && t'.rows[id].configVersion == 1
  }

  lemma ApplyIsOneStep(t: Table, op: ProfileLaws.Op)
    requires ValidTable(t)
    ensures OneStep(t, ProfileLaws.Apply(t, op))
  {
    var t' := ProfileLaws.Apply(t, op);
    hide ProfileLaws.Apply;
    ProfileLaws.ApplyFollows(t, op);
    forall id | id in t'.rows
      ensures id in t.rows ==> t'.rows[id].configVersion == t.rows[id].configVersion + ProfileLaws.Rises(t, t', id)
      ensures id !in t.rows ==> id !in t.used && t'.rows[id].configVersion == 1
    {
      ProfileLaws.ApplyVersions(t, op, id);
    }
  }

  lemma NotedOneFits(history: map<Id, seq<Json>>, t: Table, t': Table, id: Id)
    requires HistoryFits(history, t) && OneStep(t, t')
    requires id in history.Keys + t'.rows.Keys
    ensures var noted := NotedOne(history, t', id);
      && noted != [] && (id in history ==> history[id] <= noted)
      && (id in t'.rows ==> |noted| == t'.rows[id].configVersion && noted[|noted| - 1] == t'.rows[id].eisConfig)
  {
  }

  lemma NotedFits(history: map<Id, seq<Json>>, t: Table, t': Table)
    requires HistoryFits(history, t) && OneStep(t, t')
    ensures HistoryFits(Noted(history, t'), t') && Extends(history, Noted(history, t'))
  {
    forall id | id in history.Keys + t'.rows.Keys
      ensures var noted := NotedOne(history, t', id);
        && noted != [] && (id in history ==> history[id] <= noted)
        && (id in t'.rows ==> |noted| == t'.rows[id].configVersion && noted[|noted| - 1] == t'.rows[id].eisConfig)
    {
      NotedOneFits(history, t, t', id);
    }
    hide NotedOne;
  }

  lemma ExtendsKeepsFacts(s: State, history: map<Id, seq<Json>>)
    requires Provenance(s) && Extends(s.history, history)
    ensures forall h :: h in s.requests ==> SnapshotFits(history, s.requests[h].profile)
    ensures forall r :: r in s.crawls ==> SnapshotFits(history, s.crawls[r].profile)
    ensures forall i :: 0 <= i < |s.log| ==> BatchFits(history, s.log[i])
  {
    forall id, v, c | Denotes(s.history, id, v, c) ensures Denotes(history, id, v, c) {
      assert s.history[id][v - 1] == history[id][v - 1];
    }
  }

  lemma WithTableKeepsProvenance(s: State, op: ProfileLaws.Op)
    requires Provenance(s)
    ensures Provenance(WithTable(s, ProfileLaws.Apply(s.table, op)))
    ensures Extends(s.history, WithTable(s, ProfileLaws.Apply(s.table, op)).history)
  {
    ProvenanceGivesHistory(s);
    ApplyIsOneStep(s.table, op);
    hide ProfileLaws.Apply, HistoryFits, Extends, Noted, SnapshotFits, BatchFits, OneStep;
    NotedFits(s.history, s.table, ProfileLaws.Apply(s.table, op));
    ExtendsKeepsFacts(s, Noted(s.history, ProfileLaws.Apply(s.table, op)));
  }

  lemma ProvenanceGivesHistory(s: State)
    requires Provenance(s)
    ensures HistoryFits(s.history, s.table) && ValidTable(s.table)
  {
  }

  lemma ReadSnapshotFits(s: State, user: UserId, path: PathId)
    requires Provenance(s) && GetSearchProfile(s.table, user, path).Success?
    ensures SnapshotFits(s.history, GetSearchProfile(s.table, user, path).value)
  {
    hide Decode;
  }

  /** The store operation that a step performs, if it performs one. */
  function OpOf(s: State, a: Action): Option<ProfileLaws.Op> {
    match a
    case StoreOp(op) => Some(op)
    case EndUpdate(h, now) =>
      if h in s.updates then Some(ProfileLaws.Update(s.updates[h].user, s.updates[h].path, s.updates[h].amended, now))
      else None
    case TouchRun(h, now) =>
      if h in s.requests && s.requests[h].phase.HasRead?
      then Some(ProfileLaws.Touch(s.requests[h].user, s.requests[h].path, now, now)) else None
    case _ => None
  }

  /** What a store step is, beside the store operation: in memory it only forgets. */
  ghost predicate OnlyForgets(s': State, u: State) {
    && s'.table == u.table && s'.history == u.history
    && s'.log == u.log && s'.crawls == u.crawls && s'.runs == u.runs && s'.usedRuns == u.usedRuns
    && SameProfiles(s'.requests, u.requests)
  }

  lemma TouchForgets(s: State, h: HandlerId, now: int)
    requires h in s.requests
    ensures OnlyForgets(TouchRunStep(s, h, now),
                        WithTable(s, TouchOutcome(s.table, s.requests[h].user, s.requests[h].path, now, now).table))
  {
    hide Noted, TouchOutcome;
  }

  lemma StoreStepForgets(s: State, a: Action)
    requires OpOf(s, a).Some?
    ensures OnlyForgets(Next(s, a), WithTable(s, ProfileLaws.Apply(s.table, OpOf(s, a).value)))
  {
    hide WithTable, GetSearchProfile, Amended, UpdateOutcome, TouchOutcome, OnlyForgets, TouchRunStep;
    if a.TouchRun? {
      TouchForgets(s, a.h, a.now);
    } else {
      WithTableForgets(s, ProfileLaws.Apply(s.table, OpOf(s, a).value), s.updates);
      if a.EndUpdate? {
        WithTableForgets(s, ProfileLaws.Apply(s.table, OpOf(s, a).value), s.updates - {a.h});
      }
    }
  }

  lemma WithTableForgets(s: State, t: Table, updates: map<HandlerId, UpdateRequest>)
    ensures OnlyForgets(WithTable(s, t).(updates := updates), WithTable(s, t))
    ensures WithTable(s, t).(updates := s.updates) == WithTable(s, t)
  {
    hide Noted;
  }

  /** The requests are some of those, up to their phases. */
  ghost predicate SameProfiles(some: map<HandlerId, RunRequest>, those: map<HandlerId, RunRequest>) {
    forall h :: h in some ==> h in those && some[h] == those[h].(phase := some[h].phase)
  }

  lemma NextKeepsProvenance(s: State, a: Action)
    requires Provenance(s)
    ensures Provenance(Next(s, a)) && Extends(s.history, Next(s, a).history)
  {
    var op := OpOf(s, a);
    if op.Some? {
      StoreStepForgets(s, a);
      WithTableKeepsProvenance(s, op.value);
      hide Next, WithTable, OpOf, HistoryFits, SnapshotFits, BatchFits, Extends;
    } else {
      MemoryStepKeepsProvenance(s, a);
      ExtendsItself(s.history);
    }
  }

  /** Forgetting loses no provenance. */
  lemma ForgettingKeepsProvenance(s: State, s': State)
    requires Provenance(s) && MemoryForgets(s', s)
    ensures Provenance(s') && s'.history == s.history
  {
    hide HistoryFits, SnapshotFits, BatchFits;
  }

  lemma BeginRunKeepsProvenance(s: State, h: HandlerId, user: UserId, path: PathId, runId: RunId)
    requires Provenance(s)
    ensures Provenance(BeginRunStep(s, h, user, path, runId))
    ensures BeginRunStep(s, h, user, path, runId).history == s.history
  {
    if GetSearchProfile(s.table, user, path).Success? {
      ReadSnapshotFits(s, user, path);
    }
    hide GetSearchProfile, SnapshotFits, BatchFits, HistoryFits;
  }

  lemma SpawnKeepsProvenance(s: State, h: HandlerId)
    requires Provenance(s) && h in s.requests
    ensures Provenance(SpawnStep(s, h)) && SpawnStep(s, h).history == s.history
  {
    hide SnapshotFits, BatchFits, HistoryFits;
  }

  /** A batch that fits may be logged, and a crawl may note that its sync failed. */
  lemma LoggingKeepsProvenance(s: State, run: RunId, b: Batch, failed: bool)
    requires Provenance(s) && run in s.crawls && BatchFits(s.history, b)
    ensures var s' := s.(log := s.log + [b], crawls := s.crawls[run := CrawlState(s.crawls[run].profile, failed)]);
      Provenance(s') && s'.history == s.history
  {
    hide SnapshotFits, BatchFits, HistoryFits;
  }

  lemma SyncKeepsProvenance(s: State, run: RunId, items: seq<Hit>, accepted: bool)
    requires Provenance(s) && run in s.crawls
    ensures Provenance(SyncStep(s, run, items, accepted)) && SyncStep(s, run, items, accepted).history == s.history
  {
    hide Provenance, SnapshotFits, BatchFits, HistoryFits, SearcherQuery;
    var p := s.crawls[run].profile;
    CrawlBatchFits(s, run, items, accepted);
    LoggingKeepsProvenance(
      s, run, Batch(p.id, p.name, p.configVersion, items, SearcherQuery(p.config), run, accepted), !accepted);
  }

  /** In memory, beside the table, the history and the log, a step only forgets. */
  ghost predicate MemoryForgets(s': State, s: State) {
    && s'.table == s.table && s'.history == s.history && s'.log == s.log
    && SameProfiles(s'.requests, s.requests)
    && forall r :: r in s'.crawls ==> r in s.crawls && s'.crawls[r].profile == s.crawls[r].profile
  }

  lemma PhaseForgets(s: State, h: HandlerId, phase: Phase, runs: map<PathId, RunId>)
    requires h in s.requests
    ensures MemoryForgets(s.(runs := runs, requests := s.requests[h := s.requests[h].(phase := phase)]), s)
    ensures MemoryForgets(s.(requests := s.requests[h := s.requests[h].(phase := phase)]), s)
  {
  }

  lemma ReplyForgets(s: State, h: HandlerId, reply: Reply)
    ensures MemoryForgets(Replied(s, h, reply), s)
  {
  }

  lemma TakeSlotForgets(s: State, h: HandlerId)
    requires h in s.requests
    ensures MemoryForgets(TakeSlotStep(s, h), s)
  {
    var q := s.requests[h];
    PhaseForgets(s, h, HoldsSlot, s.runs[q.path := q.runId]);
    if q.path in s.runs {
      ReplyForgets(s, h, AlreadyRunning(s.runs[q.path]));
    }
    hide MemoryForgets, Replied;
  }

  lemma EndCrawlForgets(s: State, run: RunId)
    requires run in s.crawls
    ensures MemoryForgets(EndCrawlStep(s, run), s)
  {
  }

  lemma NothingForgotten(s: State, updates: map<HandlerId, UpdateRequest>)
    ensures MemoryForgets(s, s)
    ensures MemoryForgets(s.(updates := updates), s)
    ensures MemoryForgets(s.(runs := map[], requests := map[], updates := map[], crawls := map[]), s)
  {
  }

  lemma OtherStepForgets(s: State, a: Action)
    requires OpOf(s, a).None? && !a.BeginRun? && !a.Spawn? && !a.Sync?
    ensures MemoryForgets(Next(s, a), s)
  {
    hide GetSearchProfile, Amended, WithTable, TouchRunStep, TakeSlotStep, EndCrawlStep, Replied, MemoryForgets;
    NothingForgotten(s, s.updates);
    match a
    case BeginUpdate(h, user, path, req) =>
      var got := GetSearchProfile(s.table, user, path);
      if got.Success? && Amended(got.value, req).Some? {
        NothingForgotten(s, s.updates[h := UpdateRequest(user, path, Amended(got.value, req).value)]);
      }
    case EnsureCategory(h, ok) =>
      if h in s.requests {
        PhaseForgets(s, h, HasCategory, s.runs);
        ReplyForgets(s, h, Refused);
      }
    case TakeSlot(h) =>
      if h in s.requests {
        TakeSlotForgets(s, h);
      }
    case EndCrawl(run) =>
      if run in s.crawls {
        EndCrawlForgets(s, run);
      }
    case _ =>
  }

  lemma MemoryStepKeepsProvenance(s: State, a: Action)
    requires Provenance(s) && OpOf(s, a).None?
    ensures Provenance(Next(s, a)) && Next(s, a).history == s.history
  {
    hide Provenance, GetSearchProfile, BeginRunStep, SpawnStep, SyncStep, OpOf;
    match a
    case BeginRun(h, user, path, runId) =>
      BeginRunKeepsProvenance(s, h, user, path, runId);
    case Spawn(h) =>
      if h in s.requests {
        SpawnKeepsProvenance(s, h);
      }
    case Sync(run, items, accepted) =>
      if run in s.crawls {
        SyncKeepsProvenance(s, run, items, accepted);
      }
    case _ =>
      OtherStepForgets(s, a);
      ForgettingKeepsProvenance(s, Next(s, a));
  }

  lemma CrawlBatchFits(s: State, run: RunId, items: seq<Hit>, accepted: bool)
    requires Provenance(s) && run in s.crawls
    ensures var p := s.crawls[run].profile;
      BatchFits(s.history, Batch(p.id, p.name, p.configVersion, items, SearcherQuery(p.config), run, accepted))
  {
    hide HistoryFits, Decode, SearcherQuery;
    assert SnapshotFits(s.history, s.crawls[run].profile);
  }

  lemma {:induction false} RunKeepsProvenance(s: State, actions: seq<Action>)
    requires Provenance(s)
    ensures Provenance(Run(s, actions)) && Extends(s.history, Run(s, actions).history)
    decreases |actions|
  {
    hide Provenance, Next;
    if actions == [] {
      ExtendsItself(s.history);
    } else {
      var before := actions[..|actions| - 1];
      RunKeepsProvenance(s, before);
      NextKeepsProvenance(Run(s, before), actions[|actions| - 1]);
    }
  }

  lemma ExtendsItself(history: map<Id, seq<Json>>)
    ensures Extends(history, history)
  {
  }

  lemma InitProvenance(t: Table)
    requires FirstVersions(t)
    ensures Provenance(Init(t))
  {
  }

  lemma RowIsNoted(s: State, later: map<Id, seq<Json>>, id: Id)
    requires Provenance(s) && Extends(s.history, later) && id in s.table.rows
    ensures var row := s.table.rows[id];
      && id in later && 1 <= row.configVersion <= |later[id]| && later[id][row.configVersion - 1] == row.eisConfig
  {
    hide SnapshotFits, BatchFits;
  }

  /** Whatever filters a row holds at any moment of a run are noted, ever after, under the version that it has
      then. */
  lemma HistoryIsComplete(t: Table, actions: seq<Action>, i: nat, id: Id)
    requires FirstVersions(t) && i <= |actions| && id in Run(Init(t), actions[..i]).table.rows
    ensures var row, history := Run(Init(t), actions[..i]).table.rows[id], Run(Init(t), actions).history;
      id in history && 1 <= row.configVersion <= |history[id]| && history[id][row.configVersion - 1] == row.eisConfig
  {
    hide *;
    InitProvenance(t);
    RunKeepsProvenance(Init(t), actions[..i]);
    RunConcat(Init(t), actions[..i], actions[i..]);
    assert actions[..i] + actions[i..] == actions;
    RunKeepsProvenance(Run(Init(t), actions[..i]), actions[i..]);
    RowIsNoted(Run(Init(t), actions[..i]), Run(Init(t), actions).history, id);
  }

  /** At moment i of a run, the row of `id` had version v and these filters. */
  ghost predicate Held(t: Table, actions: seq<Action>, i: nat, id: Id, v: int, filters: Json)
    requires i <= |actions|
  {
    var rows := Run(Init(t), actions[..i]).table.rows;
    id in rows && rows[id].configVersion == v && rows[id].eisConfig == filters
  }

  /** So it was at some moment of the run. */
  ghost predicate WasHeld(t: Table, actions: seq<Action>, id: Id, v: int, filters: Json) {
    exists i: nat :: i <= |actions| && Held(t, actions, i, id, v, filters)
  }

  lemma NotedOneNotes(history: map<Id, seq<Json>>, t: Table, t': Table, id: Id, v: int)
    requires HistoryFits(history, t) && OneStep(t, t')
    requires id in Noted(history, t') && 1 <= v <= |Noted(history, t')[id]|
    ensures var history' := Noted(history, t');
      || (id in history && v <= |history[id]| && history[id][v - 1] == history'[id][v - 1])
      || (id in t'.rows && t'.rows[id].configVersion == v && t'.rows[id].eisConfig == history'[id][v - 1])
  {
    NotedOneFits(history, t, t', id);
  }

  /** A step notes at most one thing of a profile: the present filters of its row. */
  lemma NextNotes(s: State, a: Action, id: Id, v: int)
    requires Provenance(s) && id in Next(s, a).history && 1 <= v <= |Next(s, a).history[id]|
    ensures var s' := Next(s, a);
      || (id in s.history && v <= |s.history[id]| && s.history[id][v - 1] == s'.history[id][v - 1])
      || (id in s'.table.rows && s'.table.rows[id].configVersion == v
          && s'.table.rows[id].eisConfig == s'.history[id][v - 1])
  {
    ProvenanceGivesHistory(s);
    hide *;
    if OpOf(s, a).Some? {
      ApplyIsOneStep(s.table, OpOf(s, a).value);
      StoreStepNotes(s, a);
      NotedOneNotes(s.history, s.table, Next(s, a).table, id, v);
    } else {
      MemoryStepKeepsProvenance(s, a);
    }
  }

  lemma StoreStepNotes(s: State, a: Action)
    requires OpOf(s, a).Some?
    ensures Next(s, a).table == ProfileLaws.Apply(s.table, OpOf(s, a).value)
    ensures Next(s, a).history == Noted(s.history, Next(s, a).table)
  {
    StoreStepForgets(s, a);
    hide Next, OpOf, Noted, ProfileLaws.Apply;
  }

  /** Nothing else is noted. */
  lemma {:induction false} HistoryIsReal(t: Table, actions: seq<Action>, id: Id, v: int)
    requires FirstVersions(t)
    requires id in Run(Init(t), actions).history && 1 <= v <= |Run(Init(t), actions).history[id]|
    ensures WasHeld(t, actions, id, v, Run(Init(t), actions).history[id][v - 1])
    decreases |actions|
  {
    hide Next, Provenance;
    var n := |actions|;
    InitProvenance(t);
    assert actions[..n] == actions;
    if n == 0 {
      assert Held(t, actions, 0, id, v, Init(t).history[id][v - 1]);
    } else {
      hide Init;
      var before := actions[..n - 1];
      RunKeepsProvenance(Init(t), before);
      NextNotes(Run(Init(t), before), actions[n - 1], id, v);
      var history := Run(Init(t), before).history;
      if id in history && v <= |history[id]| && history[id][v - 1] == Run(Init(t), actions).history[id][v - 1] {
        HistoryIsReal(t, before, id, v);
        var i: nat :| i <= |before| && Held(t, before, i, id, v, history[id][v - 1]);
        assert before[..i] == actions[..i];
        assert Held(t, actions, i, id, v, Run(Init(t), actions).history[id][v - 1]);
      } else {
        assert Held(t, actions, n, id, v, Run(Init(t), actions).history[id][v - 1]);
      }
    }
  }

  lemma LoggedFits(s: State, i: nat)
    requires Provenance(s) && i < |s.log|
    ensures BatchFits(s.history, s.log[i])
    ensures s.log[i].id in s.table.rows ==> s.log[i].version <= s.table.rows[s.log[i].id].configVersion
  {
    hide SearcherQuery, Decode;
    assert BatchFits(s.history, s.log[i]);
  }

  /** Provenance of every sync, in every interleaving: a batch sent for profile `id` with version v was asked for
      with the filters that the row of `id` held at a moment when its version was v; and v is at most the version
      that the row has now. */
  lemma SyncProvenance(t: Table, actions: seq<Action>, i: nat)
    requires FirstVersions(t) && i < |Run(Init(t), actions).log|
    ensures var s := Run(Init(t), actions);
      var b := s.log[i];
      && (exists filters ::
            && WasHeld(t, actions, b.id, b.version, filters)
            && Decode(filters).Some? && b.filters == SearcherQuery(Decode(filters).value))
      && (b.id in s.table.rows ==> b.version <= s.table.rows[b.id].configVersion)
  {
    hide Provenance, SearcherQuery, Decode, WasHeld, Init, Run;
    InitProvenance(t);
    RunKeepsProvenance(Init(t), actions);
    var s := Run(Init(t), actions);
    LoggedFits(s, i);
    var b := s.log[i];
    var c :| Denotes(s.history, b.id, b.version, c) && b.filters == SearcherQuery(c);
    HistoryIsReal(t, actions, b.id, b.version);
  }

  /** All batches sent for a profile with the same version were asked for with the same filters. */
  lemma EqualVersionsEqualFilters(t: Table, actions: seq<Action>, i: nat, j: nat)
    requires FirstVersions(t)
    requires var log := Run(Init(t), actions).log;
      i < |log| && j < |log| && log[i].id == log[j].id && log[i].version == log[j].version
    ensures Run(Init(t), actions).log[i].filters == Run(Init(t), actions).log[j].filters
  {
    hide Provenance, Init, Run, SearcherQuery, Decode;
    InitProvenance(t);
    RunKeepsProvenance(Init(t), actions);
    LoggedFits(Run(Init(t), actions), i);
    LoggedFits(Run(Init(t), actions), j);
  }
}
