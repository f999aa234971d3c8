/** What interleavings may do to versions and updates: nothing in the service rules these out. */
module RunAnomalies {
  import opened Wrappers
  import opened Text
  import opened Json
  import opened SearcherConfigs
  import opened Hits
  import opened Profiles
  import opened RunProtocol
  import RunSlots
  import RunOrder
  import RunServer
  import ProfileLaws

  // ---- Versions may fall ------------------------------------------------------------------------------------

  /** A request that has its category takes the slot and crawls one page. */
  function Crawled(s: State, h: HandlerId, runId: RunId, items: seq<Hit>): State {
    Next(Next(Next(s, TakeSlot(h)), Spawn(h)), Sync(runId, items, true))
  }

  lemma CrawledSends(s: State, h: HandlerId, items: seq<Hit>)
    requires h in s.requests && s.requests[h].phase.HasCategory? && s.requests[h].path !in s.runs
    ensures var q := s.requests[h];
      Crawled(s, h, q.runId, items).log
        == s.log + [Batch(q.profile.id, q.profile.name, q.profile.configVersion, items,
                          SearcherQuery(q.profile.config), q.runId, true)]
  {
    var q := s.requests[h];
    RunSlots.TakesAndSpawns(s, h);
    var spawned := Next(Next(s, TakeSlot(h)), Spawn(h));
    hide Next, SearcherQuery;
    SyncSends(spawned, q.runId, items);
  }

  lemma SyncSends(s: State, run: RunId, items: seq<Hit>)
    requires run in s.crawls && !s.crawls[run].failed
    ensures var p := s.crawls[run].profile;
      && Next(s, Sync(run, items, true)).log
         == s.log + [Batch(p.id, p.name, p.configVersion, items, SearcherQuery(p.config), run, true)]
      && Next(s, Sync(run, items, true)).requests == s.requests
      && Next(s, Sync(run, items, true)).runs == s.runs
      && run in Next(s, Sync(run, items, true)).crawls
      && Next(s, Sync(run, items, true)).crawls[run].profile == p
  {
    hide SearcherQuery;
  }

  lemma EndFrees(s: State, run: RunId)
    requires run in s.crawls
    ensures var s' := Next(s, EndCrawl(run));
      s'.runs == s.runs - {Canonical(s.crawls[run].profile.id)} && s'.requests == s.requests && s'.log == s.log
  {
  }

  /** A request h has read its profile and is about to take the slot. Before it does, another request runs the
      profile to the end, one page being enough; then h goes on. Core is sent the version of today and after it the
      version that h once read: versions fall exactly if the stored one has risen since. */
  lemma LateRequestSendsWhatItRead(s: State, h: HandlerId, g: HandlerId, user: UserId, runId: RunId, now: int,
                                   early: seq<Hit>, late: seq<Hit>)
    requires h in s.requests && s.requests[h].phase.HasCategory? && g != h
    requires g !in s.requests && g !in s.replies && runId !in s.usedRuns
    requires var path := s.requests[h].path;
      && path == Canonical(s.requests[h].profile.id) && path !in s.runs
      && GetSearchProfile(s.table, user, path).Success?
    ensures var q, p := s.requests[h], GetSearchProfile(s.table, user, s.requests[h].path).value;
      var asked := RunSlots.Requested(s, g, user, q.path, runId, now, true);
      var done := Next(Next(asked, Sync(runId, early, true)), EndCrawl(runId));
      var log, n := Crawled(done, h, q.runId, late).log, |s.log|;
      && |log| == n + 2 && log[n].id == log[n + 1].id == q.profile.id
      && log[n].version == p.configVersion && log[n + 1].version == q.profile.configVersion
      && (q.profile.configVersion < p.configVersion ==> !RunOrder.InOrder(log))
  {
    hide Next, Crawled, GetSearchProfile, SearcherQuery, RunSlots.Requested;
    var q, p := s.requests[h], GetSearchProfile(s.table, user, s.requests[h].path).value;
    RunSlots.PathIsProfiles(s.table, user, q.path);
    RunSlots.RequestStartsOrJoins(s, g, user, q.path, runId, now);
    var asked := RunSlots.Requested(s, g, user, q.path, runId, now, true);
    SyncSends(asked, runId, early);
    var sent := Next(asked, Sync(runId, early, true));
    EndFrees(sent, runId);
    var done := Next(sent, EndCrawl(runId));
    assert h in (s.requests - {g}) && (s.requests - {g})[h] == q;
    assert h in (asked.requests - {g}) && (asked.requests - {g})[h] == q;
    CrawledSends(done, h, late);
  }

  // ---- A run in which they do -----------------------------------------------------------------------------------

  const OWNER: UserId := "u"
  const ONLY_ID: Id := "a"

  function FirstRow(c: SearcherConfig): Row {
    Row(OWNER, "n", "", "eis", Encode(c), true, false, 1, None, 0, 0)
  }

  /** A table with one profile. */
  function OneProfile(c: SearcherConfig): Table {
    Table(map[ONLY_ID := FirstRow(c)], {ONLY_ID})
  }

  function Path(): PathId {
    Canonical(ONLY_ID)
  }

  function Read(c: SearcherConfig): Profile {
    Profile(ONLY_ID, OWNER, "n", "", "eis", c, c, true, false, 1, None, 0, 0)
  }

  /** What the owner writes while request 0 is under way. */
  function NewFilters(c: SearcherConfig): ProfileLaws.Op {
    ProfileLaws.Update(OWNER, Path(), Read(c), 2)
  }

  /** Request 0 reads the profile; then its filters are changed. */
  function Opening(c: SearcherConfig): seq<Action> {
    [BeginRun(0, OWNER, Path(), 0), TouchRun(0, 1), EnsureCategory(0, true), StoreOp(NewFilters(c))]
  }

  /** Request 1 runs it to the end. */
  function Overtaking(items: seq<Hit>): seq<Action> {
    [BeginRun(1, OWNER, Path(), 1), TouchRun(1, 3), EnsureCategory(1, true), TakeSlot(1), Spawn(1),
     Sync(1, items, true), EndCrawl(1)]
  }

  /** Request 0 goes on. */
  function Closing(items: seq<Hit>): seq<Action> {
    [TakeSlot(0), Spawn(0), Sync(0, items, true)]
  }

  lemma RunCons(s: State, a: Action, rest: seq<Action>)
    ensures Run(s, [a] + rest) == Run(Next(s, a), rest)
  {
    hide Next;
    RunConcat(s, [a], rest);
    assert [a][..|[a]| - 1] == [];
  }

  lemma RunOfThree(s: State, a: Action, b: Action, c: Action)
    ensures Run(s, [a, b, c]) == Next(Next(Next(s, a), b), c)
  {
    hide Next;
    assert [a, b, c] == [a] + ([b] + ([c] + []));
    RunCons(s, a, [b] + ([c] + []));
    RunCons(Next(s, a), b, [c] + []);
    RunCons(Next(Next(s, a), b), c, []);
  }

  lemma OpeningRuns(s: State, c: SearcherConfig)
    ensures Run(s, Opening(c))
         == Next(Next(Next(Next(s, BeginRun(0, OWNER, Path(), 0)), TouchRun(0, 1)), EnsureCategory(0, true)),
                 StoreOp(NewFilters(c)))
  {
    hide Next, Path, NewFilters;
    var a, b, x, y := BeginRun(0, OWNER, Path(), 0), TouchRun(0, 1), EnsureCategory(0, true), StoreOp(NewFilters(c));
    assert Opening(c) == [a] + [b, x, y];
    RunCons(s, a, [b, x, y]);
    RunOfThree(Next(s, a), b, x, y);
  }

  lemma OvertakingRuns(s: State, items: seq<Hit>)
    ensures Run(s, Overtaking(items))
         == Next(Next(RunSlots.Requested(s, 1, OWNER, Path(), 1, 3, true), Sync(1, items, true)), EndCrawl(1))
  {
    hide Next, Path;
    var a, b, x, y := BeginRun(1, OWNER, Path(), 1), TouchRun(1, 3), EnsureCategory(1, true), TakeSlot(1);
    var z, u, v := Spawn(1), Sync(1, items, true), EndCrawl(1);
    assert Overtaking(items) == [a, b, x] + ([y] + [z, u, v]);
    RunConcat(s, [a, b, x], [y] + [z, u, v]);
    RunOfThree(s, a, b, x);
    RunCons(Next(Next(Next(s, a), b), x), y, [z, u, v]);
    RunOfThree(Next(Next(Next(Next(s, a), b), x), y), z, u, v);
  }

  /** The table when the filters have been changed. */
  function LaterTable(c': SearcherConfig): Table {
    Table(map[ONLY_ID := Row(OWNER, "n", "", "eis", Encode(c'), true, false, 2, Some(1), 0, 2)], {ONLY_ID})
  }

  lemma FirstTableIsRead(c: SearcherConfig)
    requires Decode(Encode(c)) == Some(c)
    ensures GetSearchProfile(OneProfile(c), OWNER, Path()) == Success(Read(c))
  {
    hide Decode, Encode;
  }

  lemma LaterTableIsRead(c: SearcherConfig)
    requires Decode(Encode(c)) == Some(c)
    ensures var got := GetSearchProfile(LaterTable(c), OWNER, Path());
      got.Success? && got.value.configVersion == 2 && got.value.id == ONLY_ID
  {
    hide Decode, Encode;
  }

  lemma TouchedThenUpdated(c: SearcherConfig, c': SearcherConfig)
    requires Decode(Encode(c)) == Some(c) && Decode(Encode(c')) == Some(c') && Encode(c) != Encode(c')
    ensures ProfileLaws.Apply(TouchOutcome(OneProfile(c), OWNER, Path(), 1, 1).table, NewFilters(c')) == LaterTable(c')
  {
    hide Decode, Encode;
    var touched := TouchOutcome(OneProfile(c), OWNER, Path(), 1, 1).table;
    assert touched.rows == map[ONLY_ID := FirstRow(c).(lastRunAt := Some(1), updatedAt := 1)];
    assert touched.used == {ONLY_ID};
    assert NameFree(touched, OWNER, "n", ONLY_ID);
  }

  lemma BeforeTheUpdate(c: SearcherConfig)
    requires Decode(Encode(c)) == Some(c)
    ensures var s := Next(Next(Next(Init(OneProfile(c)), BeginRun(0, OWNER, Path(), 0)), TouchRun(0, 1)),
                          EnsureCategory(0, true));
      && s.table == TouchOutcome(OneProfile(c), OWNER, Path(), 1, 1).table
      && s.log == [] && s.runs == map[] && s.replies == map[] && s.usedRuns == {0}
      && s.requests == map[0 := RunRequest(OWNER, Path(), Read(c), 0, HasCategory)]
  {
    hide Next, Init, Path, Read, OneProfile, Noted, TouchOutcome, Encode, Decode, GetSearchProfile;
    var s, q := Init(OneProfile(c)), RunRequest(OWNER, Path(), Read(c), 0, HasTouched);
    InitIsEmpty(OneProfile(c));
    FirstTableIsRead(c);
    RunServer.BeginsAndTouches(s, 0, OWNER, Path(), 0, 1);
    RunSlots.PassesCategory(Next(Next(s, BeginRun(0, OWNER, Path(), 0)), TouchRun(0, 1)), 0);
    assert map[0 := q][0 := q.(phase := HasCategory)] == map[0 := q.(phase := HasCategory)];
  }

  /** Request 0 is about to take the slot with version 1, and version 2 is stored. */
  lemma AfterTheOpening(c: SearcherConfig, c': SearcherConfig)
    requires Decode(Encode(c)) == Some(c) && Decode(Encode(c')) == Some(c') && Encode(c) != Encode(c')
    ensures var s := Run(Init(OneProfile(c)), Opening(c'));
      && s.table == LaterTable(c') && s.log == [] && s.runs == map[] && s.replies == map[] && s.usedRuns == {0}
      && s.requests == map[0 := RunRequest(OWNER, Path(), Read(c), 0, HasCategory)]
  {
    hide *;
    OpeningRuns(Init(OneProfile(c)), c');
    BeforeTheUpdate(c);
    TouchedThenUpdated(c, c');
    StoreStepIs(Next(Next(Next(Init(OneProfile(c)), BeginRun(0, OWNER, Path(), 0)), TouchRun(0, 1)),
                     EnsureCategory(0, true)), NewFilters(c'));
  }

  lemma InitIsEmpty(t: Table)
    ensures var s := Init(t);
      && s.table == t && s.log == [] && s.runs == map[] && s.requests == map[] && s.replies == map[]
      && s.usedRuns == {}
  {
  }

  lemma StoreStepIs(s: State, op: ProfileLaws.Op)
    ensures var s' := Next(s, StoreOp(op));
      && s'.table == ProfileLaws.Apply(s.table, op) && s'.log == s.log && s'.runs == s.runs
      && s'.replies == s.replies && s'.usedRuns == s.usedRuns && s'.requests == s.requests
  {
    hide ProfileLaws.Apply, Noted;
  }

  /** Versions do fall: whatever the filters of the only profile are and whatever they are changed to, this run of
      the service, with canonical paths only, sends version 2 and then version 1. */
  lemma VersionsMayFall(c: SearcherConfig, c': SearcherConfig, early: seq<Hit>, late: seq<Hit>)
    requires Decode(Encode(c)) == Some(c) && Decode(Encode(c')) == Some(c') && Encode(c) != Encode(c')
    ensures var actions := Opening(c') + (Overtaking(early) + Closing(late));
      var log := Run(Init(OneProfile(c)), actions).log;
      && FirstVersions(OneProfile(c)) && RunSlots.AlwaysTakesCanonically(OneProfile(c), actions)
      && |log| == 2 && log[0].id == log[1].id && log[0].version == 2 && log[1].version == 1
      && !RunOrder.InOrder(log)
  {
    hide Next, Encode, Decode, GetSearchProfile, RunSlots.Requested, RunSlots.AlwaysTakesCanonically, LaterTable,
      OneProfile, Run, Init;
    var t, actions := OneProfile(c), Opening(c') + (Overtaking(early) + Closing(late));
    AfterTheOpening(c, c');
    LaterTableIsRead(c');
    var s := Run(Init(t), Opening(c'));
    RunConcat(Init(t), Opening(c'), Overtaking(early) + Closing(late));
    RunConcat(s, Overtaking(early), Closing(late));
    OvertakingRuns(s, early);
    RunOfThree(Run(s, Overtaking(early)), TakeSlot(0), Spawn(0), Sync(0, late, true));
    LateRequestSendsWhatItRead(s, 0, 1, OWNER, 1, 3, early, late);
    FirstVersionIsOne(c);
    OnlyCanonicalPaths(c', early, late);
    RunSlots.CanonicalUpTo(t, actions, |actions|);
    AlwaysIsUpTo(t, actions);
  }

  lemma AlwaysIsUpTo(t: Table, actions: seq<Action>)
    requires forall i: nat :: i < |actions| ==> RunSlots.TakesCanonically(Run(Init(t), actions[..i]), actions[i])
    ensures RunSlots.AlwaysTakesCanonically(t, actions)
  {
    hide RunSlots.TakesCanonically, Run, Init;
  }

  lemma FirstVersionIsOne(c: SearcherConfig)
    ensures FirstVersions(OneProfile(c))
  {
    hide Encode;
  }

  lemma OnlyCanonicalPaths(c: SearcherConfig, early: seq<Hit>, late: seq<Hit>)
    ensures forall a :: a in Opening(c) + (Overtaking(early) + Closing(late)) && a.BeginRun? ==>
      RunSlots.CanonicalPath(a.path)
  {
    hide NewFilters;
  }

  /** For instance, when tenders under 223-FZ are no longer asked for. */
  lemma SomeVersionsFall()
    ensures exists t, actions ::
      FirstVersions(t) && RunSlots.AlwaysTakesCanonically(t, actions) && !RunOrder.InOrder(Run(Init(t), actions).log)
  {
    var c := DefaultSearcherConfig();
    var c' := c.(fz223 := false);
    DecodeEncodeExact(c);
    DecodeEncodeExact(c');
    assert Encode(c).members.fz223 != Encode(c').members.fz223;
    VersionsMayFall(c, c', [], []);
  }

  // ---- Updates may be lost ------------------------------------------------------------------------------------

  lemma NextKeepsUpdate(s: State, a: Action, h: HandlerId)
    requires h in s.updates && !a.Restart? && !(a.EndUpdate? && a.h == h)
    ensures h in Next(s, a).updates && Next(s, a).updates[h] == s.updates[h]
  {
    hide ProfileLaws.Apply, GetSearchProfile, Amended, UpdateOutcome, TouchOutcome, Noted, SearcherQuery;
  }

  lemma {:induction false} RunKeepsUpdate(s: State, actions: seq<Action>, h: HandlerId)
    requires h in s.updates && Restart !in actions && forall a :: a in actions ==> !(a.EndUpdate? && a.h == h)
    ensures h in Run(s, actions).updates && Run(s, actions).updates[h] == s.updates[h]
    decreases |actions|
  {
    hide Next;
    if actions != [] {
      RunKeepsUpdate(s, actions[..|actions| - 1], h);
      NextKeepsUpdate(Run(s, actions[..|actions| - 1]), actions[|actions| - 1], h);
    }
  }

  lemma BegunUpdate(s: State, h: HandlerId, user: UserId, path: PathId, req: Request)
    requires GetSearchProfile(s.table, user, path).Success? && h !in s.updates
    requires Amended(GetSearchProfile(s.table, user, path).value, req).Some?
    ensures var s', p := Next(s, BeginUpdate(h, user, path, req)), GetSearchProfile(s.table, user, path).value;
      h in s'.updates && s'.updates[h] == UpdateRequest(user, path, Amended(p, req).value)
  {
    hide GetSearchProfile, Amended;
  }

  lemma WrittenBack(t: Table, user: UserId, path: PathId, p: Profile, now: int)
    requires UpdateOutcome(t, user, path, p, now).result.Success?
    ensures path.Spelled? && path.id in UpdateOutcome(t, user, path, p, now).table.rows
    ensures Holds(UpdateOutcome(t, user, path, p, now).table.rows[path.id], p)
  {
    hide Encode, Scan, NameFree;
  }

  /** The row holds what an update with this profile writes. */
  predicate Holds(row: Row, p: Profile) {
    && row.name == p.name && row.description == p.description && row.source == OrEis(p.source)
    && row.eisConfig == Encode(p.config) && row.enabled == p.enabled && row.autoAI == p.autoAI
  }

  /** In every column that the request does not name, the row holds what was read. */
  predicate RestoresUnnamed(row: Row, read: Profile, req: Request) {
    && (TrimSpace(req.name) == "" ==> row.name == read.name)
    && (RequestedConfig(req) == None ==> row.eisConfig == Encode(read.config))
    && (req.autoAI == None ==> row.autoAI == read.autoAI)
    && (req.SearcherRequest? || (req.name == "" && req.description == "") ==> row.description == read.description)
    && (req.SearcherRequest? || req.enabled == None ==> row.enabled == read.enabled)
    && (req.SearcherRequest? || TrimSpace(req.source) == "" ==> row.source == OrEis(read.source))
  }

  lemma AmendedKeepsUnnamed(row: Row, read: Profile, req: Request)
    requires Amended(read, req).Some? && Holds(row, Amended(read, req).value)
    ensures RestoresUnnamed(row, read, req)
  {
    hide Encode, TrimSpace;
  }

  /** An update writes back every column that it does not name as it read it: whatever was stored there in between,
      by however many others, is gone, filters and auto-AI included. */
  lemma UpdatesInBetweenAreLost(s: State, h: HandlerId, user: UserId, path: PathId, req: Request,
                                actions: seq<Action>, now: int)
    requires GetSearchProfile(s.table, user, path).Success? && h !in s.updates
    requires Amended(GetSearchProfile(s.table, user, path).value, req).Some?
    requires Restart !in actions && forall a :: a in actions ==> !(a.EndUpdate? && a.h == h)
    requires var u := Amended(GetSearchProfile(s.table, user, path).value, req).value;
      UpdateOutcome(Run(Next(s, BeginUpdate(h, user, path, req)), actions).table, user, path, u, now).result.Success?
    ensures var s' := Next(Run(Next(s, BeginUpdate(h, user, path, req)), actions), EndUpdate(h, now));
      && path.Spelled? && path.id in s'.table.rows
      && RestoresUnnamed(s'.table.rows[path.id], GetSearchProfile(s.table, user, path).value, req)
  {
    hide *;
    var read := GetSearchProfile(s.table, user, path).value;
    var begun := Next(s, BeginUpdate(h, user, path, req));
    BegunUpdate(s, h, user, path, req);
    RunKeepsUpdate(begun, actions, h);
    var late := Run(begun, actions);
    EndWrites(late, h, now);
    WrittenBack(late.table, user, path, Amended(read, req).value, now);
    AmendedKeepsUnnamed(Next(late, EndUpdate(h, now)).table.rows[path.id], read, req);
  }

  lemma EndWrites(s: State, h: HandlerId, now: int)
    requires h in s.updates
    ensures var u := s.updates[h];
      Next(s, EndUpdate(h, now)).table == UpdateOutcome(s.table, u.user, u.path, u.amended, now).table
  {
    hide UpdateOutcome, Noted;
  }

  /** So a SetSearcherAutoAI in between is lost, for one: a request that names only new filters switches the flag
      back to what it read. */
  lemma AutoAIInBetweenIsLost(s: State, h: HandlerId, user: UserId, path: PathId, c: SearcherConfig, flag: bool,
                              now: int)
    requires GetSearchProfile(s.table, user, path).Success? && h !in s.updates
    ensures var read, req := GetSearchProfile(s.table, user, path).value, SearcherRequest("", Some(c), None);
      var between := Next(Next(s, BeginUpdate(h, user, path, req)),
                          StoreOp(ProfileLaws.SetAutoAI(user, path, flag, now)));
      && path.Spelled? && path.id in between.table.rows && between.table.rows[path.id].autoAI == flag
      && var s' := Next(between, EndUpdate(h, now));
         var u := Amended(read, req).value;
         UpdateOutcome(between.table, user, path, u, now).result.Success? ==>
           path.id in s'.table.rows && s'.table.rows[path.id].autoAI == read.autoAI
  {
    hide *;
    var read, req := GetSearchProfile(s.table, user, path).value, SearcherRequest("", Some(c), None);
    NamesOnlyFilters(read, c);
    var begun := Next(s, BeginUpdate(h, user, path, req));
    BegunUpdate(s, h, user, path, req);
    BeginKeepsTable(s, h, user, path, req);
    var flip := StoreOp(ProfileLaws.SetAutoAI(user, path, flag, now));
    var between := Next(begun, flip);
    FlagIsSet(begun, user, path, flag, now);
    if UpdateOutcome(between.table, user, path, Amended(read, req).value, now).result.Success? {
      RunOfOne(begun, flip);
      UpdatesInBetweenAreLost(s, h, user, path, req, [flip], now);
      NamesNoFlag(Next(between, EndUpdate(h, now)).table.rows[path.id], read, c);
    }
  }

  lemma RunOfOne(s: State, a: Action)
    ensures Run(s, [a]) == Next(s, a)
  {
    hide Next;
    assert [a][..|[a]| - 1] == [];
  }

  lemma NamesOnlyFilters(read: Profile, c: SearcherConfig)
    ensures Amended(read, SearcherRequest("", Some(c), None)).Some?
  {
  }

  lemma NamesNoFlag(row: Row, read: Profile, c: SearcherConfig)
    requires RestoresUnnamed(row, read, SearcherRequest("", Some(c), None))
    ensures row.autoAI == read.autoAI
  {
  }

  lemma BeginKeepsTable(s: State, h: HandlerId, user: UserId, path: PathId, req: Request)
    ensures Next(s, BeginUpdate(h, user, path, req)).table == s.table
  {
    hide GetSearchProfile, Amended;
  }

  lemma FlagIsSet(s: State, user: UserId, path: PathId, flag: bool, now: int)
    requires GetSearchProfile(s.table, user, path).Success?
    ensures var s' := Next(s, StoreOp(ProfileLaws.SetAutoAI(user, path, flag, now)));
      path.Spelled? && path.id in s'.table.rows && s'.table.rows[path.id].autoAI == flag
  {
    hide Scan, Noted;
  }
}
