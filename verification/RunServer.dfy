/** The server's handlers with nothing in between their steps: each is a run of the steps that RunProtocol lets
    interleave. */
module RunServer {
  import opened Wrappers
  import opened Json
  import opened SearcherConfigs
  import opened Hits
  import opened Profiles
  import opened RunProtocol
  import RunSlots

  lemma UnreadableIsRefused(s: State, h: HandlerId, user: UserId, path: PathId, runId: RunId, now: int, category: bool)
    requires GetSearchProfile(s.table, user, path).Failure?
    requires h !in s.requests && h !in s.replies && runId !in s.usedRuns
    ensures RunSlots.Requested(s, h, user, path, runId, now, category) == Answered(s, h, Refused)
  {
    hide GetSearchProfile;
  }

  lemma BeginsAndTouches(s: State, h: HandlerId, user: UserId, path: PathId, runId: RunId, now: int)
    requires GetSearchProfile(s.table, user, path).Success?
    requires h !in s.requests && h !in s.replies && runId !in s.usedRuns
    ensures var o := TouchOutcome(s.table, user, path, now, now);
      var s' := Next(Next(s, BeginRun(h, user, path, runId)), TouchRun(h, now));
      && o.result.Success?
      && s' == WithTable(s, o.table).(
           usedRuns := s.usedRuns + {runId},
           requests := s.requests[h := RunRequest(
             user, path, GetSearchProfile(s.table, user, path).value, runId, HasTouched)])
  {
    RunSlots.TouchReadsAgain(s.table, user, path, now);
    hide GetSearchProfile, TouchOutcome, WithTable, Next;
    Begins(s, h, user, path, runId);
    Touches(s.(usedRuns := s.usedRuns + {runId}), h,
            RunRequest(user, path, GetSearchProfile(s.table, user, path).value, runId, HasRead), now);
    TableAside(s, TouchOutcome(s.table, user, path, now, now).table, s.usedRuns + {runId});
  }

  lemma Begins(s: State, h: HandlerId, user: UserId, path: PathId, runId: RunId)
    requires GetSearchProfile(s.table, user, path).Success?
    requires h !in s.requests && h !in s.replies && runId !in s.usedRuns
    ensures Next(s, BeginRun(h, user, path, runId))
         == s.(usedRuns := s.usedRuns + {runId}).(requests := s.requests[h := RunRequest(
                user, path, GetSearchProfile(s.table, user, path).value, runId, HasRead)])
  {
    hide GetSearchProfile;
  }

  lemma Touches(s: State, h: HandlerId, q: RunRequest, now: int)
    requires h !in s.requests && q.phase.HasRead?
    requires TouchOutcome(s.table, q.user, q.path, now, now).result.Success?
    ensures Next(s.(requests := s.requests[h := q]), TouchRun(h, now))
         == WithTable(s, TouchOutcome(s.table, q.user, q.path, now, now).table).(
              requests := s.requests[h := q.(phase := HasTouched)])
  {
    hide TouchOutcome, Noted;
  }

  lemma TableAside(s: State, t: Table, used: set<RunId>)
    ensures WithTable(s.(usedRuns := used), t) == WithTable(s, t).(usedRuns := used)
    ensures WithTable(s, t).requests == s.requests
  {
    hide Noted;
  }

  lemma Withdraws(s: State, h: HandlerId, q: RunRequest, reply: Reply)
    requires h !in s.requests
    ensures Replied(s.(requests := s.requests[h := q]), h, reply) == s.(replies := s.replies[h := reply])
  {
    assert s.requests[h := q] - {h} == s.requests;
  }

  lemma StopsWithoutCategory(s: State, h: HandlerId)
    requires h in s.requests && s.requests[h].phase.HasTouched?
    ensures Next(Next(Next(s, EnsureCategory(h, false)), TakeSlot(h)), Spawn(h)) == Replied(s, h, Refused)
  {
  }

  lemma GoesOnWithCategory(s: State, h: HandlerId, q: RunRequest)
    requires h !in s.requests && q.phase.HasTouched?
    ensures var s' := s.(requests := s.requests[h := q]);
      Next(s', EnsureCategory(h, true)) == s.(requests := s.requests[h := q.(phase := HasCategory)])
  {
    RunSlots.PassesCategory(s.(requests := s.requests[h := q]), h);
  }

  lemma TakesTheSlot(s: State, h: HandlerId, q: RunRequest)
    requires h !in s.requests && q.phase.HasCategory?
    ensures var s' := s.(requests := s.requests[h := q]);
      Next(Next(s', TakeSlot(h)), Spawn(h))
        == if q.path in s.runs then s.(replies := s.replies[h := AlreadyRunning(s.runs[q.path])])
           else s.(runs := s.runs[q.path := q.runId],
                   crawls := s.crawls[q.runId := CrawlState(q.profile, false)],
                   replies := s.replies[h := Started(q.runId)])
  {
    if q.path in s.runs {
      RunSlots.FindsSlotTaken(s.(requests := s.requests[h := q]), h);
      Withdraws(s, h, q, AlreadyRunning(s.runs[q.path]));
    } else {
      assert s.requests[h := q][h := q.(phase := HoldsSlot)] - {h} == s.requests;
    }
  }

  /** The state once the profile was read and the run time noted. */
  function Touched(s: State, t: Table, runId: RunId): State {
    State(t, Noted(s.history, t), s.runs, s.requests, s.updates, s.crawls, s.usedRuns + {runId}, s.log, s.replies)
  }

  function Answered(u: State, h: HandlerId, reply: Reply): State {
    State(u.table, u.history, u.runs, u.requests, u.updates, u.crawls, u.usedRuns, u.log, u.replies[h := reply])
  }

  function Began(u: State, path: PathId, runId: RunId, p: Profile): State {
    State(u.table, u.history, u.runs[path := runId], u.requests, u.updates,
          u.crawls[runId := CrawlState(p, false)], u.usedRuns, u.log, u.replies)
  }

  /** What a request of a readable profile comes to. */
  lemma RequestComesTo(s: State, h: HandlerId, user: UserId, path: PathId, runId: RunId, now: int, category: bool)
    requires GetSearchProfile(s.table, user, path).Success?
    requires h !in s.requests && h !in s.replies && runId !in s.usedRuns
    ensures var u := Touched(s, TouchOutcome(s.table, user, path, now, now).table, runId);
      RunSlots.Requested(s, h, user, path, runId, now, category)
        == if !category then Answered(u, h, Refused)
           else if path in s.runs then Answered(u, h, AlreadyRunning(s.runs[path]))
           else Answered(Began(u, path, runId, GetSearchProfile(s.table, user, path).value), h, Started(runId))
  {
    hide GetSearchProfile, TouchOutcome, Noted, Next, Replied;
    var u := Touched(s, TouchOutcome(s.table, user, path, now, now).table, runId);
    var q := RunRequest(user, path, GetSearchProfile(s.table, user, path).value, runId, HasTouched);
    BeginsAndTouches(s, h, user, path, runId, now);
    assert Next(Next(s, BeginRun(h, user, path, runId)), TouchRun(h, now)) == u.(requests := u.requests[h := q]);
    if category {
      GoesOnWithCategory(u, h, q);
      TakesTheSlot(u, h, q.(phase := HasCategory));
    } else {
      StopsWithoutCategory(u.(requests := u.requests[h := q]), h);
      Withdraws(u, h, q, Refused);
    }
  }

  lemma TouchedRows(t: Table, user: UserId, path: PathId, now: int)
    ensures GetSearchProfile(t, user, path).Success? ==>
      && path.Spelled? && path.id in t.rows
      && TouchOutcome(t, user, path, now, now).table.rows
         == t.rows[path.id := t.rows[path.id].(lastRunAt := Some(now), updatedAt := now)]
  {
    hide Decode;
  }

  class Server {
    var table: Table
    var runs: map<PathId, RunId>
    var requests: map<HandlerId, RunRequest> // of other handlers, at work
    var updates: map<HandlerId, UpdateRequest>
    var crawls: map<RunId, CrawlState>
    var usedRuns: set<RunId>
    var log: seq<Batch>
    var replies: map<HandlerId, Reply>
    ghost var history: map<Id, seq<Json>>

    ghost function Contents(): State
      reads this
    {
      State(table, history, runs, requests, updates, crawls, usedRuns, log, replies)
    }

    constructor (t: Table)
      ensures Contents() == Init(t)
    {
      table, runs, requests, updates, crawls := t, map[], map[], map[], map[];
      usedRuns, log, replies, history := {}, [], map[], Noted(map[], t);
    }

    method Answer(h: HandlerId, reply: Reply)
      modifies this
      ensures table == old(table)
      ensures Contents() == Answered(old(Contents()), h, reply) && h in replies && replies[h] == reply
    {
      replies := replies[h := reply];
    }

    /** TouchSearcherRun, by a run that now has its id. */
    method Touch(user: UserId, path: PathId, runId: RunId, now: int) returns (ok: bool)
      modifies this
      ensures var o := TouchOutcome(old(table), user, path, now, now);
        Contents() == Touched(old(Contents()), o.table, runId) && table == o.table && ok == o.result.Success?
      ensures runs == old(runs)
    {
      usedRuns := usedRuns + {runId};
      var touched := TouchOutcome(table, user, path, now, now);
      history := Noted(history, touched.table);
      table := touched.table;
      ok := touched.result.Success?;
    }

    /** The go statement, after the slot was stored. */
    method Begin(path: PathId, runId: RunId, p: Profile)
      modifies this
      ensures table == old(table)
      ensures Contents() == Began(old(Contents()), path, runId, p)
    {
      runs := runs[path := runId];
      crawls := crawls[runId := CrawlState(p, false)];
    }

    /** handleRunSearcher; the handler and the run have ids of their own. */
    method HandleRunSearcher(h: HandlerId, user: UserId, path: PathId, runId: RunId, now: int, category: bool)
        returns (reply: Reply)
      requires h !in requests && h !in replies && runId !in usedRuns
      modifies this
      ensures Contents() == RunSlots.Requested(old(Contents()), h, user, path, runId, now, category)
      ensures h in replies && replies[h] == reply
      // The run time is noted whatever comes of the request, and nothing else in the table is touched.
      ensures table.rows == if GetSearchProfile(old(table), user, path).Success?
        then old(table).rows[path.id := old(table).rows[path.id].(lastRunAt := Some(now), updatedAt := now)]
        else old(table).rows
      ensures reply == if GetSearchProfile(old(table), user, path).Failure? || !category then Refused
        else if path in old(runs) then AlreadyRunning(old(runs)[path]) else Started(runId)
    {
      TouchedRows(table, user, path, now);
      hide GetSearchProfile, TouchOutcome, RunSlots.Requested, Touched, Answered, Began;
      ghost var s := Contents();
      var got := GetSearchProfile(table, user, path);
      if got.Failure? {
        UnreadableIsRefused(s, h, user, path, runId, now, category);
        reply := Refused;
        Answer(h, reply);
        return;
      }
      RequestComesTo(s, h, user, path, runId, now, category);
      RunSlots.TouchReadsAgain(table, user, path, now);
      var ok := Touch(user, path, runId, now);
      if !ok || !category {
        reply := Refused;
        Answer(h, reply);
        return;
      }
      if path in runs {
        reply := AlreadyRunning(runs[path]);
        Answer(h, reply);
        return;
      }
      Begin(path, runId, got.value);
      reply := Started(runId);
      Answer(h, reply);
    }

    /** The callback of crawlSearcher. */
    method SyncPage(run: RunId, items: seq<Hit>, accepted: bool)
      requires run in crawls && !crawls[run].failed
      modifies this
      ensures Contents() == Next(old(Contents()), Sync(run, items, accepted))
    {
      hide SearcherQuery;
      var p := crawls[run].profile;
      log := log + [Batch(p.id, p.name, p.configVersion, items, SearcherQuery(p.config), run, accepted)];
      crawls := crawls[run := CrawlState(p, !accepted)];
    }

    /** The deferred end of crawlSearcher. */
    method FinishCrawl(run: RunId)
      requires run in crawls
      modifies this
      ensures Contents() == Next(old(Contents()), EndCrawl(run))
    {
      runs := runs - {Canonical(crawls[run].profile.id)};
      crawls := crawls - {run};
    }
  }
}
