/** The order of the versions that core is sent. */
module RunOrder {
  import opened Wrappers
  import opened Json
  import opened SearcherConfigs
  import opened Hits
  import opened Profiles
  import opened RunProtocol
  import opened RunSlots
  import opened RunProvenance
  import ProfileLaws

  /** The versions sent for a profile never fall. */
  ghost predicate InOrder(log: seq<Batch>) {
    forall i, j :: 0 <= i < j < |log| && log[i].id == log[j].id ==> log[i].version <= log[j].version
  }

  /** Nothing newer than this snapshot was sent for its profile. */
  ghost predicate NoneNewer(log: seq<Batch>, p: Profile) {
    forall i :: 0 <= i < |log| && log[i].id == p.id ==> log[i].version <= p.configVersion
  }

  /** The run sends something. */
  ghost predicate Sends(log: seq<Batch>, r: RunId) {
    exists i :: 0 <= i < |log| && log[i].run == r
  }

  /** A request takes its slot. */
  predicate Takes(s: State, a: Action) {
    a.TakeSlot? && a.h in s.requests && s.requests[a.h].phase.HasCategory? && s.requests[a.h].path !in s.runs
  }

  /** A request that takes a slot, and whose run sends something in the end, has a snapshot no older than anything
      sent for its profile by then. */
  ghost predicate TakesInTime(s: State, a: Action, sent: seq<Batch>) {
    Takes(s, a) && Sends(sent, s.requests[a.h].runId) ==> NoneNewer(s.log, s.requests[a.h].profile)
  }

  ghost predicate AlwaysTakesInTime(t: Table, actions: seq<Action>) {
    forall i: nat :: i < |actions| ==>
      TakesInTime(Run(Init(t), actions[..i]), actions[i], Run(Init(t), actions).log)
  }

  // ---- Steps and the log ------------------------------------------------------------------------------------

  lemma SyncLogs(s: State, a: Action)
    requires a.Sync? && a.run in s.crawls && !s.crawls[a.run].failed
    ensures var s', p := Next(s, a), s.crawls[a.run].profile;
      && (exists b :: s'.log == s.log + [b] && b.run == a.run && b.id == p.id && b.version == p.configVersion)
      && s'.requests == s.requests && s'.crawls == s.crawls[a.run := CrawlState(p, !a.accepted)]
      && s'.usedRuns == s.usedRuns
  {
    hide SearcherQuery;
    var p := s.crawls[a.run].profile;
    var b := Batch(p.id, p.name, p.configVersion, a.items, SearcherQuery(p.config), a.run, a.accepted);
    assert Next(s, a).log == s.log + [b];
  }

  lemma IdleSync(s: State, a: Action)
    requires a.Sync? && !(a.run in s.crawls && !s.crawls[a.run].failed)
    ensures Next(s, a) == s
  {
  }

  lemma OthersLogNothing(s: State, a: Action)
    requires !a.Sync?
    ensures Next(s, a).log == s.log
  {
    if OpOf(s, a).Some? {
      StoreStepForgets(s, a);
      hide Next, OpOf, Noted;
    } else if !a.BeginRun? && !a.Spawn? {
      OtherStepForgets(s, a);
      hide Next, OpOf;
    } else {
      hide GetSearchProfile;
    }
  }

  lemma NextLogGrows(s: State, a: Action)
    ensures s.log <= Next(s, a).log
  {
    hide Next;
    if a.Sync? && a.run in s.crawls && !s.crawls[a.run].failed {
      SyncLogs(s, a);
    } else if a.Sync? {
      IdleSync(s, a);
    } else {
      OthersLogNothing(s, a);
    }
  }

  lemma {:induction false} LogGrows(t: Table, actions: seq<Action>, i: nat, j: nat)
    requires i <= j <= |actions|
    ensures Run(Init(t), actions[..i]).log <= Run(Init(t), actions[..j]).log
    decreases j
  {
    hide *;
    if i < j {
      LogGrows(t, actions, i, j - 1);
      RunOneMore(t, actions, j - 1);
      NextLogGrows(Run(Init(t), actions[..j - 1]), actions[j - 1]);
    }
  }

  // ---- In time means in order --------------------------------------------------------------------------------

  /** Every run that is on, and sends something in the end, has a snapshot no older than anything sent. */
  ghost predicate Ready(s: State, sent: seq<Batch>) {
    && InOrder(s.log)
    && (forall r :: r in s.crawls && Sends(sent, r) ==> NoneNewer(s.log, s.crawls[r].profile))
    && forall h :: h in s.requests && s.requests[h].phase.HoldsSlot? && Sends(sent, s.requests[h].runId) ==>
         NoneNewer(s.log, s.requests[h].profile)
  }

  /** Nothing is sent, and no run begins. */
  ghost predicate NoNewRuns(s: State, s': State) {
    && s'.log == s.log
    && (forall r :: r in s'.crawls ==> r in s.crawls && s'.crawls[r] == s.crawls[r])
    && forall h :: h in s'.requests && s'.requests[h].phase.HoldsSlot? ==>
         h in s.requests && s'.requests[h] == s.requests[h]
  }

  /** What a beginning request adds, if anything: itself. */
  ghost predicate AddsRequest(s: State, s': State, h: HandlerId, runId: RunId) {
    && s'.log == s.log && s'.crawls == s.crawls && s.usedRuns <= s'.usedRuns
    && (s'.requests == s.requests
        || (h !in s.requests && runId !in s.usedRuns && h in s'.requests && s'.requests - {h} == s.requests
            && s'.requests[h].phase.HasRead? && s'.requests[h].runId == runId))
  }

  lemma Added(s: State, h: HandlerId, q: RunRequest)
    requires h !in s.requests && q.runId !in s.usedRuns && q.phase.HasRead?
    ensures AddsRequest(s, s.(requests := s.requests[h := q], usedRuns := s.usedRuns + {q.runId}), h, q.runId)
  {
    assert s.requests[h := q] - {h} == s.requests;
  }

  lemma NotAdded(s: State, h: HandlerId, runId: RunId, replies: map<HandlerId, Reply>)
    ensures AddsRequest(s, s, h, runId) && AddsRequest(s, s.(replies := replies), h, runId)
  {
  }

  lemma BeginRunAdds(s: State, h: HandlerId, user: UserId, path: PathId, runId: RunId)
    ensures AddsRequest(s, Next(s, BeginRun(h, user, path, runId)), h, runId)
  {
    hide GetSearchProfile, AddsRequest;
    NotAdded(s, h, runId, s.replies[h := Refused]);
    var got := GetSearchProfile(s.table, user, path);
    if got.Success? && h !in s.requests && runId !in s.usedRuns {
      Added(s, h, RunRequest(user, path, got.value, runId, HasRead));
    }
  }

  lemma BeginRunIsQuiet(s: State, h: HandlerId, user: UserId, path: PathId, runId: RunId)
    ensures NoNewRuns(s, Next(s, BeginRun(h, user, path, runId)))
  {
    hide Next;
    BeginRunAdds(s, h, user, path, runId);
    if Next(s, BeginRun(h, user, path, runId)).requests != s.requests {
      RequestsBut(s, Next(s, BeginRun(h, user, path, runId)), h);
    }
  }

  lemma RequestsBut(s: State, s': State, h: HandlerId)
    requires s'.requests - {h} == s.requests
    ensures forall g :: g in s'.requests && g != h ==> g in s.requests && s'.requests[g] == s.requests[g]
  {
    assert forall g :: g in s'.requests && g != h ==> g in s'.requests - {h};
  }

  lemma TouchIsQuiet(s: State, h: HandlerId, now: int)
    ensures NoNewRuns(s, Next(s, TouchRun(h, now)))
  {
    hide TouchOutcome, Noted;
  }

  lemma CategoryIsQuiet(s: State, h: HandlerId, ok: bool)
    ensures NoNewRuns(s, Next(s, EnsureCategory(h, ok)))
  {
  }

  lemma StoreSideIsQuiet(s: State, a: Action)
    requires a.StoreOp? || a.BeginUpdate? || a.EndUpdate?
    ensures NoNewRuns(s, Next(s, a))
  {
    hide Next;
    StoreSideKeeps(s, a);
    OthersLogNothing(s, a);
  }

  lemma EndsAreQuiet(s: State, a: Action)
    requires a.EndCrawl? || a.Restart? || (a.TakeSlot? && !Takes(s, a))
    ensures NoNewRuns(s, Next(s, a))
  {
  }

  lemma QuietKeepsReady(s: State, s': State, sent: seq<Batch>)
    requires Ready(s, sent) && NoNewRuns(s, s')
    ensures Ready(s', sent)
  {
    hide NoneNewer, InOrder, Sends;
  }

  lemma TakeKeepsReady(s: State, a: Action, sent: seq<Batch>)
    requires Ready(s, sent) && Takes(s, a) && TakesInTime(s, a, sent)
    ensures Ready(Next(s, a), sent)
  {
    hide NoneNewer, InOrder, Sends;
  }

  lemma SpawnKeepsReady(s: State, h: HandlerId, sent: seq<Batch>)
    requires Ready(s, sent)
    ensures Ready(Next(s, Spawn(h)), sent)
  {
    hide NoneNewer, InOrder, Sends;
  }

  lemma SentInOrder(log: seq<Batch>, b: Batch, p: Profile)
    requires InOrder(log) && NoneNewer(log, p) && b.id == p.id && b.version == p.configVersion
    ensures InOrder(log + [b]) && NoneNewer(log + [b], p)
  {
  }

  lemma OthersUnaffected(log: seq<Batch>, b: Batch, p: Profile)
    requires NoneNewer(log, p) && b.id != p.id
    ensures NoneNewer(log + [b], p)
  {
  }

  /** While a crawl is on, no other run of its profile is. */
  lemma NoOtherRunOf(s: State, run: RunId)
    requires SlotsMatch(s) && RunIdsFit(s) && run in s.crawls
    ensures forall r :: r in s.crawls && r != run ==> s.crawls[r].profile.id != s.crawls[run].profile.id
    ensures forall h :: h in s.requests && s.requests[h].phase.HoldsSlot? ==>
      s.requests[h].profile.id != s.crawls[run].profile.id
  {
    hide SlotsFit, RequestsFit;
    var id := s.crawls[run].profile.id;
    forall r | r in s.crawls && r != run ensures s.crawls[r].profile.id != id {
      AtMostOneRun(s, id, r, run);
    }
    forall h | h in s.requests && s.requests[h].phase.HoldsSlot? ensures s.requests[h].profile.id != id {
      OwnRunId(s, h);
      assert HoldsFor(s.requests, h, s.requests[h].profile.id, s.requests[h].runId);
      AtMostOneRun(s, id, s.requests[h].runId, run);
    }
  }

  lemma OwnRunId(s: State, h: HandlerId)
    requires RunIdsFit(s) && h in s.requests
    ensures s.requests[h].runId !in s.crawls && s.requests[h].runId in s.usedRuns
  {
  }

  lemma SyncKeepsReady(s: State, a: Action, sent: seq<Batch>)
    requires Ready(s, sent) && SlotsMatch(s) && RunIdsFit(s)
    requires a.Sync? && a.run in s.crawls && !s.crawls[a.run].failed && Sends(sent, a.run)
    ensures Ready(Next(s, a), sent)
  {
    hide Next, NoneNewer, InOrder, Sends, SlotsFit, RequestsFit;
    NoOtherRunOf(s, a.run);
    SyncLogs(s, a);
    var p, s' := s.crawls[a.run].profile, Next(s, a);
    var b :| s'.log == s.log + [b] && b.run == a.run && b.id == p.id && b.version == p.configVersion;
    SentInOrder(s.log, b, p);
    forall r | r in s'.crawls && Sends(sent, r) ensures NoneNewer(s'.log, s'.crawls[r].profile) {
      if r != a.run {
        OthersUnaffected(s.log, b, s.crawls[r].profile);
      }
    }
    forall h | h in s'.requests && s'.requests[h].phase.HoldsSlot? && Sends(sent, s'.requests[h].runId)
      ensures NoneNewer(s'.log, s'.requests[h].profile)
    {
      OthersUnaffected(s.log, b, s.requests[h].profile);
    }
  }

  lemma NextKeepsReady(s: State, a: Action, sent: seq<Batch>)
    requires Ready(s, sent) && SlotsMatch(s) && RunIdsFit(s) && TakesInTime(s, a, sent)
    requires Next(s, a).log <= sent
    ensures Ready(Next(s, a), sent)
  {
    hide Next, Ready, NoNewRuns, SlotsFit, RequestsFit, TakesInTime;
    match a
    case BeginRun(h, user, path, runId) =>
      BeginRunIsQuiet(s, h, user, path, runId);
      QuietKeepsReady(s, Next(s, a), sent);
    case TouchRun(h, now) =>
      TouchIsQuiet(s, h, now);
      QuietKeepsReady(s, Next(s, a), sent);
    case EnsureCategory(h, ok) =>
      CategoryIsQuiet(s, h, ok);
      QuietKeepsReady(s, Next(s, a), sent);
    case Spawn(h) =>
      SpawnKeepsReady(s, h, sent);
    case Sync(run, _, _) =>
      if run in s.crawls && !s.crawls[run].failed {
        SyncLogs(s, a);
        assert sent[|s.log|].run == run;
        SyncKeepsReady(s, a, sent);
      } else {
        IdleSync(s, a);
      }
    case TakeSlot(_) =>
      if Takes(s, a) {
        TakeKeepsReady(s, a, sent);
      } else {
        EndsAreQuiet(s, a);
        QuietKeepsReady(s, Next(s, a), sent);
      }
    case EndCrawl(_) =>
      EndsAreQuiet(s, a);
      QuietKeepsReady(s, Next(s, a), sent);
    case Restart =>
      EndsAreQuiet(s, a);
      QuietKeepsReady(s, Next(s, a), sent);
    case _ =>
      StoreSideIsQuiet(s, a);
      QuietKeepsReady(s, Next(s, a), sent);
  }

  lemma InitReady(t: Table, actions: seq<Action>, sent: seq<Batch>)
    requires actions == []
    ensures Ready(Run(Init(t), actions), sent)
  {
  }

  lemma {:induction false} ReadyUpTo(t: Table, actions: seq<Action>, n: nat)
    requires n <= |actions| && SlotsAlwaysMatch(t, actions) && AlwaysTakesInTime(t, actions)
    ensures Ready(Run(Init(t), actions[..n]), Run(Init(t), actions).log)
    decreases n
  {
    hide Run, Init, Next, Ready, TakesInTime, SlotsMatch, RunIdsFit;
    var sent := Run(Init(t), actions).log;
    if n == 0 {
      InitReady(t, actions[..0], sent);
    } else {
      ReadyUpTo(t, actions, n - 1);
      RunIdsStayApart(t, actions[..n - 1]);
      RunOneMore(t, actions, n - 1);
      LogGrows(t, actions, n, |actions|);
      assert actions[..|actions|] == actions;
      assert SlotsMatch(Run(Init(t), actions[..n - 1]));
      NextKeepsReady(Run(Init(t), actions[..n - 1]), actions[n - 1], sent);
    }
  }

  // ---- In order means in time ------------------------------------------------------------------------------

  /** Whatever is there of run r is there for this snapshot. */
  ghost predicate RunIsOf(s: State, r: RunId, p: Profile) {
    && r in s.usedRuns
    && (forall h :: h in s.requests && s.requests[h].runId == r ==> s.requests[h].profile == p)
    && (r in s.crawls ==> s.crawls[r].profile == p)
    && forall i :: 0 <= i < |s.log| && s.log[i].run == r ==> s.log[i].id == p.id && s.log[i].version == p.configVersion
  }

  /** What was sent was not sent by a run that has yet to begin. */
  ghost predicate LogIsOld(s: State) {
    && (forall i :: 0 <= i < |s.log| ==> s.log[i].run in s.usedRuns)
    && forall i, h :: 0 <= i < |s.log| && h in s.requests ==> s.log[i].run != s.requests[h].runId
  }

  /** The runs of a state come from those of the one before, or have new ids. */
  ghost predicate RunsComeFrom(s: State, s': State) {
    && s'.log == s.log && s.usedRuns <= s'.usedRuns
    && (forall h :: h in s'.requests ==>
         if h in s.requests
         then s'.requests[h].runId == s.requests[h].runId && s'.requests[h].profile == s.requests[h].profile
         else s'.requests[h].runId !in s.usedRuns)
    && forall r :: r in s'.crawls ==>
         || (r in s.crawls && s'.crawls[r].profile == s.crawls[r].profile)
         || exists h :: h in s.requests && s.requests[h].runId == r && s'.crawls[r].profile == s.requests[h].profile
  }

  lemma UsedRunsGrow(s: State, a: Action)
    requires !a.BeginRun?
    ensures s.usedRuns <= Next(s, a).usedRuns
  {
    if OpOf(s, a).Some? {
      StoreStepForgets(s, a);
      hide Next, OpOf, Noted;
    } else {
      hide GetSearchProfile, Amended, SearcherQuery, WithTable, BeginRunStep, TouchRunStep;
    }
  }

  lemma BeginComesFrom(s: State, h: HandlerId, user: UserId, path: PathId, runId: RunId)
    ensures RunsComeFrom(s, Next(s, BeginRun(h, user, path, runId)))
  {
    hide Next;
    BeginRunAdds(s, h, user, path, runId);
    if Next(s, BeginRun(h, user, path, runId)).requests != s.requests {
      RequestsBut(s, Next(s, BeginRun(h, user, path, runId)), h);
    }
  }

  lemma SpawnComesFrom(s: State, h: HandlerId)
    ensures RunsComeFrom(s, Next(s, Spawn(h)))
  {
    if h in s.requests && s.requests[h].phase.HoldsSlot? {
      assert Next(s, Spawn(h)).crawls == s.crawls[s.requests[h].runId := CrawlState(s.requests[h].profile, false)];
    }
  }

  lemma OtherComesFrom(s: State, a: Action)
    requires !a.BeginRun? && !a.Spawn? && !a.Sync?
    ensures RunsComeFrom(s, Next(s, a))
  {
    UsedRunsGrow(s, a);
    if OpOf(s, a).Some? {
      StoreStepForgets(s, a);
    } else {
      OtherStepForgets(s, a);
    }
    hide Next, OpOf, Noted;
  }

  lemma ComesFromKeeps(s: State, s': State)
    requires RunsComeFrom(s, s') && LogIsOld(s)
    ensures LogIsOld(s') && forall r, p :: RunIsOf(s, r, p) ==> RunIsOf(s', r, p)
  {
  }

  lemma SyncKeepsRuns(s: State, a: Action)
    requires a.Sync? && a.run in s.crawls && !s.crawls[a.run].failed && RunIdsFit(s) && LogIsOld(s)
    ensures LogIsOld(Next(s, a)) && forall r, p :: RunIsOf(s, r, p) ==> RunIsOf(Next(s, a), r, p)
  {
    SyncLogs(s, a);
    hide Next;
  }

  lemma NextKeepsRuns(s: State, a: Action)
    requires RunIdsFit(s) && LogIsOld(s)
    ensures LogIsOld(Next(s, a)) && forall r, p :: RunIsOf(s, r, p) ==> RunIsOf(Next(s, a), r, p)
  {
    hide Next, LogIsOld, RunIsOf, RequestsFit, RunsComeFrom;
    if a.Sync? {
      if a.run in s.crawls && !s.crawls[a.run].failed {
        SyncKeepsRuns(s, a);
      } else {
        IdleSync(s, a);
      }
    } else {
      if a.BeginRun? {
        BeginComesFrom(s, a.h, a.user, a.path, a.runId);
      } else if a.Spawn? {
        SpawnComesFrom(s, a.h);
      } else {
        OtherComesFrom(s, a);
      }
      ComesFromKeeps(s, Next(s, a));
    }
  }

  lemma InitIsOld(t: Table, actions: seq<Action>)
    requires actions == []
    ensures LogIsOld(Run(Init(t), actions))
  {
  }

  lemma {:induction false} LogStaysOld(t: Table, actions: seq<Action>, n: nat)
    requires n <= |actions|
    ensures LogIsOld(Run(Init(t), actions[..n]))
    decreases n
  {
    hide *;
    if n == 0 {
      InitIsOld(t, actions[..0]);
    } else {
      LogStaysOld(t, actions, n - 1);
      RunIdsStayApart(t, actions[..n - 1]);
      RunOneMore(t, actions, n - 1);
      NextKeepsRuns(Run(Init(t), actions[..n - 1]), actions[n - 1]);
    }
  }

  lemma {:induction false} RunStaysOf(t: Table, actions: seq<Action>, i: nat, n: nat, r: RunId, p: Profile)
    requires i <= n <= |actions| && RunIsOf(Run(Init(t), actions[..i]), r, p)
    ensures RunIsOf(Run(Init(t), actions[..n]), r, p)
    decreases n
  {
    hide *;
    if i < n {
      RunStaysOf(t, actions, i, n - 1, r, p);
      LogStaysOld(t, actions, n - 1);
      RunIdsStayApart(t, actions[..n - 1]);
      RunOneMore(t, actions, n - 1);
      NextKeepsRuns(Run(Init(t), actions[..n - 1]), actions[n - 1]);
    }
  }

  lemma RequestIsOf(s: State, h: HandlerId)
    requires RunIdsFit(s) && LogIsOld(s) && h in s.requests
    ensures RunIsOf(s, s.requests[h].runId, s.requests[h].profile)
  {
  }

  /** A run that began behind these batches and sends in order has a snapshot no older than they are. */
  lemma SentBehind(s: State, final: State, h: HandlerId)
    requires h in s.requests && LogIsOld(s) && s.log <= final.log && InOrder(final.log)
    requires RunIsOf(final, s.requests[h].runId, s.requests[h].profile) && Sends(final.log, s.requests[h].runId)
    ensures NoneNewer(s.log, s.requests[h].profile)
  {
    var p := s.requests[h].profile;
    var m :| 0 <= m < |final.log| && final.log[m].run == s.requests[h].runId;
    forall j | 0 <= j < |s.log| ensures s.log[j] == final.log[j] {
    }
    forall j | 0 <= j < |s.log| && s.log[j].id == p.id ensures s.log[j].version <= p.configVersion {
    }
  }

  lemma InOrderIsInTime(t: Table, actions: seq<Action>, i: nat)
    requires i < |actions| && InOrder(Run(Init(t), actions).log)
    ensures TakesInTime(Run(Init(t), actions[..i]), actions[i], Run(Init(t), actions).log)
  {
    var s, a, final := Run(Init(t), actions[..i]), actions[i], Run(Init(t), actions);
    hide Run, Init, InOrder, RunIsOf, LogIsOld, RunIdsFit, Sends, NoneNewer;
    if Takes(s, a) && Sends(final.log, s.requests[a.h].runId) {
      RunIdsStayApart(t, actions[..i]);
      LogStaysOld(t, actions, i);
      RequestIsOf(s, a.h);
      assert actions[..|actions|] == actions;
      RunStaysOf(t, actions, i, |actions|, s.requests[a.h].runId, s.requests[a.h].profile);
      LogGrows(t, actions, i, |actions|);
      SentBehind(s, final, a.h);
    }
  }

  // ---- Exactly when versions fall ------------------------------------------------------------------------------

  /** With slots taken under canonical text, the versions sent for every profile stay in order if, and only if,
      every run that sends something took its slot with a snapshot no older than what had been sent. */
  lemma VersionsInOrderExactly(t: Table, actions: seq<Action>)
    requires AlwaysTakesCanonically(t, actions)
    ensures InOrder(Run(Init(t), actions).log) <==> AlwaysTakesInTime(t, actions)
  {
    hide Run, Init, InOrder, TakesInTime, AlwaysTakesCanonically, SlotsAlwaysMatch;
    if AlwaysTakesInTime(t, actions) {
      SlotsThroughoutARun(t, actions);
      ReadyUpTo(t, actions, |actions|);
      assert actions[..|actions|] == actions;
      assert Ready(Run(Init(t), actions), Run(Init(t), actions).log);
    }
    if InOrder(Run(Init(t), actions).log) {
      forall i: nat | i < |actions|
        ensures TakesInTime(Run(Init(t), actions[..i]), actions[i], Run(Init(t), actions).log)
      {
        InOrderIsInTime(t, actions, i);
      }
    }
  }

  /** A request takes its slot while the snapshot that it read is still what is stored. */
  predicate TakesFreshly(s: State, a: Action) {
    Takes(s, a) ==>
      var p := s.requests[a.h].profile;
      p.id in s.table.rows && s.table.rows[p.id].configVersion == p.configVersion
  }

  lemma FreshIsInTime(s: State, a: Action, sent: seq<Batch>)
    requires Provenance(s) && TakesFreshly(s, a)
    ensures TakesInTime(s, a, sent)
  {
    if Takes(s, a) {
      var p := s.requests[a.h].profile;
      forall i | 0 <= i < |s.log| && s.log[i].id == p.id ensures s.log[i].version <= p.configVersion {
        LoggedFits(s, i);
      }
    }
    hide Provenance;
  }

  /** So versions never fall where no profile's filters change between the reading of it and the taking of its
      slot. */
  lemma FreshSnapshotsKeepOrder(t: Table, actions: seq<Action>)
    requires FirstVersions(t) && AlwaysTakesCanonically(t, actions)
    requires forall i: nat :: i < |actions| ==> TakesFreshly(Run(Init(t), actions[..i]), actions[i])
    ensures InOrder(Run(Init(t), actions).log)
  {
    hide Run, Init, InOrder, TakesInTime, TakesFreshly, AlwaysTakesCanonically, Provenance;
    forall i: nat | i < |actions|
      ensures TakesInTime(Run(Init(t), actions[..i]), actions[i], Run(Init(t), actions).log)
    {
      InitProvenance(t);
      RunKeepsProvenance(Init(t), actions[..i]);
      FreshIsInTime(Run(Init(t), actions[..i]), actions[i], Run(Init(t), actions).log);
    }
    VersionsInOrderExactly(t, actions);
  }
}
