/** Requests, background crawls and profile changes, interleaved in atomic steps. */
module RunProtocol {
  import opened Wrappers
  import opened Json
  import opened EisConfig
  import opened SearcherConfigs
  import opened Hits
  import opened Profiles
  import ProfileLaws

  type HandlerId = nat
  type RunId = nat

  /** How far a run request has come: it read the profile, noted the run time, had its category in core, and
      took the slot. */
  datatype Phase = HasRead | HasTouched | HasCategory | HoldsSlot

  datatype RunRequest = RunRequest(user: UserId, path: PathId, profile: Profile, runId: RunId, phase: Phase)

  /** An update request between its read and its write, with the profile it is about to write. */
  datatype UpdateRequest = UpdateRequest(user: UserId, path: PathId, amended: Profile)

  /** A background crawl: the profile it was started with, and whether a sync has failed. */
  datatype CrawlState = CrawlState(profile: Profile, failed: bool)

  /** A call of SyncSearchConfig, together with the filters that its crawl asked the site for. */
  datatype Batch = Batch(
    id: Id, title: string, version: int, items: seq<Hit>, filters: Query, run: RunId, accepted: bool)

  datatype Reply = Started(run: RunId) | AlreadyRunning(run: RunId) | Refused

  datatype State = State(
    table: Table,
    history: map<Id, seq<Json>>, // for the proofs: the filters that versions 1, 2, ... of a profile stood for
    runs: map<PathId, RunId>,    // Server.runs
    requests: map<HandlerId, RunRequest>,
    updates: map<HandlerId, UpdateRequest>,
    crawls: map<RunId, CrawlState>,
    usedRuns: set<RunId>,
    log: seq<Batch>,             // what core was sent
    replies: map<HandlerId, Reply>)

  datatype Action =
    | StoreOp(op: ProfileLaws.Op)
    | BeginUpdate(h: HandlerId, user: UserId, path: PathId, req: Request)
    | EndUpdate(h: HandlerId, now: int)
    | BeginRun(h: HandlerId, user: UserId, path: PathId, runId: RunId)
    | TouchRun(h: HandlerId, now: int)
    | EnsureCategory(h: HandlerId, ok: bool)
    | TakeSlot(h: HandlerId)
    | Spawn(h: HandlerId)
    | Sync(run: RunId, items: seq<Hit>, accepted: bool)
    | EndCrawl(run: RunId)
    | Restart // the process starts anew: what is in memory is gone

  // ---- The steps --------------------------------------------------------------------------------------

  /** The canonical text of an id. */
  function Canonical(id: Id): PathId {
    Spelled(id, 0)
  }

  /** The history with the present filters of every row noted. */
  function Noted(history: map<Id, seq<Json>>, t: Table): map<Id, seq<Json>> {
    map id | id in history.Keys + t.rows.Keys :: NotedOne(history, t, id)
  }

  function NotedOne(history: map<Id, seq<Json>>, t: Table, id: Id): seq<Json> {
    var known := if id in history then history[id] else [];
    if id in t.rows && (known == [] || known[|known| - 1] != t.rows[id].eisConfig)
    then known + [t.rows[id].eisConfig] else known
  }

  function WithTable(s: State, t: Table): State {
    s.(table := t, history := Noted(s.history, t))
  }

  /** A run request ends with a reply. */
  function Replied(s: State, h: HandlerId, r: Reply): State {
    s.(requests := s.requests - {h}, replies := s.replies[h := r])
  }

  function BeginRunStep(s: State, h: HandlerId, user: UserId, path: PathId, runId: RunId): State {
    match GetSearchProfile(s.table, user, path)
    case Failure(_) => s.(replies := s.replies[h := Refused])
    case Success(p) => s.(
      requests := s.requests[h := RunRequest(user, path, p, runId, HasRead)], usedRuns := s.usedRuns + {runId})
  }

  function TouchRunStep(s: State, h: HandlerId, now: int): State
    requires h in s.requests
  {
    var q := s.requests[h];
    var touched := TouchOutcome(s.table, q.user, q.path, now, now);
    var s' := WithTable(s, touched.table);
    if touched.result.Failure? then Replied(s', h, Refused)
    else s'.(requests := s.requests[h := q.(phase := HasTouched)])
  }

  /** LoadOrStore under the text of the path. */
  function TakeSlotStep(s: State, h: HandlerId): State
    requires h in s.requests
  {
    var q := s.requests[h];
    if q.path in s.runs then Replied(s, h, AlreadyRunning(s.runs[q.path]))
    else s.(runs := s.runs[q.path := q.runId], requests := s.requests[h := q.(phase := HoldsSlot)])
  }

  function SpawnStep(s: State, h: HandlerId): State
    requires h in s.requests
  {
    var q := s.requests[h];
    Replied(s, h, Started(q.runId)).(crawls := s.crawls[q.runId := CrawlState(q.profile, false)])
  }

  function SyncStep(s: State, run: RunId, items: seq<Hit>, accepted: bool): State
    requires run in s.crawls
  {
    var p := s.crawls[run].profile;
    s.(log := s.log + [Batch(p.id, p.name, p.configVersion, items, SearcherQuery(p.config), run, accepted)],
       crawls := s.crawls[run := CrawlState(p, !accepted)])
  }

  /** The deferred Delete, under the profile's own id. */
  function EndCrawlStep(s: State, run: RunId): State
    requires run in s.crawls
  {
    s.(runs := s.runs - {Canonical(s.crawls[run].profile.id)}, crawls := s.crawls - {run})
  }

  /** The step of an action; an action that is not possible in a state leaves it as it is. */
  function Next(s: State, a: Action): State {
    match a
    case StoreOp(op) => WithTable(s, ProfileLaws.Apply(s.table, op))
    case BeginUpdate(h, user, path, req) =>
      var got := GetSearchProfile(s.table, user, path);
      if h in s.updates || got.Failure? || Amended(got.value, req).None? then s
      else s.(updates := s.updates[h := UpdateRequest(user, path, Amended(got.value, req).value)])
    case EndUpdate(h, now) =>
      if h !in s.updates then s
      else
        var u := s.updates[h];
        WithTable(s, UpdateOutcome(s.table, u.user, u.path, u.amended, now).table).(updates := s.updates - {h})
    case BeginRun(h, user, path, runId) =>
      if h in s.requests || h in s.replies || runId in s.usedRuns then s else BeginRunStep(s, h, user, path, runId)
    case TouchRun(h, now) =>
      if h in s.requests && s.requests[h].phase.HasRead? then TouchRunStep(s, h, now) else s
    case EnsureCategory(h, ok) =>
      if h !in s.requests || !s.requests[h].phase.HasTouched? then s
      else if ok then s.(requests := s.requests[h := s.requests[h].(phase := HasCategory)])
      else Replied(s, h, Refused)
    case TakeSlot(h) =>
      if h in s.requests && s.requests[h].phase.HasCategory? then TakeSlotStep(s, h) else s
    case Spawn(h) =>
      if h in s.requests && s.requests[h].phase.HoldsSlot? then SpawnStep(s, h) else s
    case Sync(run, items, accepted) =>
      if run in s.crawls && !s.crawls[run].failed then SyncStep(s, run, items, accepted) else s
    case EndCrawl(run) => if run in s.crawls then EndCrawlStep(s, run) else s
    case Restart => s.(runs := map[], requests := map[], updates := map[], crawls := map[])
  }

  function Run(s: State, actions: seq<Action>): State {
    if actions == [] then s else Next(Run(s, actions[..|actions| - 1]), actions[|actions| - 1])
  }

  /** A service in front of a table whose rows are all at version 1. */
  function Init(t: Table): State {
    State(t, Noted(map[], t), map[], map[], map[], map[], {}, [], map[])
  }

  ghost predicate FirstVersions(t: Table) {
    ValidTable(t) && forall id :: id in t.rows ==> t.rows[id].configVersion == 1
  }

  lemma {:induction false} RunConcat(s: State, a: seq<Action>, b: seq<Action>)
    ensures Run(s, a + b) == Run(Run(s, a), b)
    decreases |b|
  {
    if b == [] {
      assert a + b == a;
    } else {
      hide Next;
      RunConcat(s, a, b[..|b| - 1]);
      assert (a + b)[..|a + b| - 1] == a + b[..|b| - 1];
    }
  }
}
