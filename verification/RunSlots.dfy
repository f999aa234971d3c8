/** The slots of Server.runs: which run of a profile is on. */
module RunSlots {
  import opened Wrappers
  import opened Json
  import opened SearcherConfigs
  import opened Hits
  import opened Profiles
  import opened RunProtocol
  import RunProvenance
  import ProfileLaws

  // ---- Slots and the runs that hold them ----------------------------------------------------------------

  type Requests = map<HandlerId, RunRequest>
  type Crawls = map<RunId, CrawlState>

  /** The request h has taken the slot of profile `id` for run r and not yet started its crawl. */
  ghost predicate HoldsFor(requests: Requests, h: HandlerId, id: Id, r: RunId) {
    h in requests && requests[h].phase.HoldsSlot? && requests[h].runId == r && requests[h].profile.id == id
  }

  ghost predicate CrawlsFor(crawls: Crawls, id: Id, r: RunId) {
    r in crawls && crawls[r].profile.id == id
  }

  /** Run r of profile `id` is on: its crawl, or its request between taking the slot and starting the crawl. */
  ghost predicate Active(requests: Requests, crawls: Crawls, id: Id, r: RunId) {
    CrawlsFor(crawls, id, r) || exists h :: HoldsFor(requests, h, id, r)
  }

  ghost predicate SlotIs(runs: map<PathId, RunId>, id: Id, r: RunId) {
    Canonical(id) in runs && runs[Canonical(id)] == r
  }

  /** Each slot stands under the canonical text of a profile and names the one run of it that is on; every run
      that is on has its slot. */
  ghost predicate SlotsFit(runs: map<PathId, RunId>, requests: Requests, crawls: Crawls) {
    && (forall k :: k in runs ==> k.Spelled? && k.spelling == 0)
    && forall id, r :: SlotIs(runs, id, r) <==> Active(requests, crawls, id, r)
  }

  /** A request is for the profile that its path names, with a run id of its own. */
  ghost predicate RequestsFit(requests: Requests, crawls: Crawls, used: set<RunId>) {
    && (forall h :: h in requests ==>
         && requests[h].path.Spelled? && requests[h].path.id == requests[h].profile.id
         && requests[h].runId in used && requests[h].runId !in crawls)
    && (forall h, g :: h in requests && g in requests && h != g ==> requests[h].runId != requests[g].runId)
    && crawls.Keys <= used
  }

  ghost predicate SlotsMatch(s: State) {
    SlotsFit(s.runs, s.requests, s.crawls)
  }

  ghost predicate RunIdsFit(s: State) {
    RequestsFit(s.requests, s.crawls, s.usedRuns)
  }

  // ---- Steps on requests and crawls ------------------------------------------------------------------------

  /** The same requests hold slots, and the same crawls are on. */
  ghost predicate SameRuns(q: Requests, c: Crawls, q': Requests, c': Crawls) {
    && (forall h, id, r :: HoldsFor(q, h, id, r) <==> HoldsFor(q', h, id, r))
    && (forall id, r :: CrawlsFor(c, id, r) <==> CrawlsFor(c', id, r))
  }

  lemma SameRunsFit(runs: map<PathId, RunId>, q: Requests, c: Crawls, q': Requests, c': Crawls)
    requires SlotsFit(runs, q, c) && SameRuns(q, c, q', c')
    ensures SlotsFit(runs, q', c')
  {
    hide HoldsFor, CrawlsFor, SlotIs;
  }

  lemma Arrives(q: Requests, c: Crawls, used: set<RunId>, h: HandlerId, req: RunRequest)
    requires RequestsFit(q, c, used) && h !in q && req.runId !in used && !req.phase.HoldsSlot?
    requires req.path.Spelled? && req.path.id == req.profile.id
    ensures SameRuns(q, c, q[h := req], c) && RequestsFit(q[h := req], c, used + {req.runId})
  {
  }

  lemma Moves(q: Requests, c: Crawls, used: set<RunId>, h: HandlerId, phase: Phase)
    requires RequestsFit(q, c, used) && h in q && !q[h].phase.HoldsSlot? && !phase.HoldsSlot?
    ensures SameRuns(q, c, q[h := q[h].(phase := phase)], c)
    ensures RequestsFit(q[h := q[h].(phase := phase)], c, used)
  {
  }

  lemma Leaves(q: Requests, c: Crawls, used: set<RunId>, h: HandlerId)
    requires RequestsFit(q, c, used) && h in q && !q[h].phase.HoldsSlot?
    ensures SameRuns(q, c, q - {h}, c) && RequestsFit(q - {h}, c, used)
  {
  }

  lemma Syncs(q: Requests, c: Crawls, used: set<RunId>, run: RunId, failed: bool)
    requires RequestsFit(q, c, used) && run in c
    ensures SameRuns(q, c, q, c[run := CrawlState(c[run].profile, failed)])
    ensures RequestsFit(q, c[run := CrawlState(c[run].profile, failed)], used)
  {
  }

  lemma Takes(q: Requests, c: Crawls, used: set<RunId>, h: HandlerId)
    requires RequestsFit(q, c, used) && h in q && !q[h].phase.HoldsSlot?
    ensures var q' := q[h := q[h].(phase := HoldsSlot)];
      && RequestsFit(q', c, used)
      && forall id, r :: Active(q', c, id, r) <==> Active(q, c, id, r) || (id == q[h].profile.id && r == q[h].runId)
  {
    var q' := q[h := q[h].(phase := HoldsSlot)];
    forall id, r
      ensures Active(q', c, id, r) <==> Active(q, c, id, r) || (id == q[h].profile.id && r == q[h].runId)
    {
      assert forall g :: g != h ==> (HoldsFor(q', g, id, r) <==> HoldsFor(q, g, id, r));
      assert HoldsFor(q', h, id, r) <==> id == q[h].profile.id && r == q[h].runId;
      hide CrawlsFor, HoldsFor;
    }
  }

  lemma Spawns(q: Requests, c: Crawls, used: set<RunId>, h: HandlerId)
    requires RequestsFit(q, c, used) && h in q && q[h].phase.HoldsSlot?
    ensures var c' := c[q[h].runId := CrawlState(q[h].profile, false)];
      && RequestsFit(q - {h}, c', used)
      && forall id, r :: Active(q - {h}, c', id, r) <==> Active(q, c, id, r)
  {
    var c' := c[q[h].runId := CrawlState(q[h].profile, false)];
    forall id, r ensures Active(q - {h}, c', id, r) <==> Active(q, c, id, r) {
      assert forall g :: g != h ==> (HoldsFor(q - {h}, g, id, r) <==> HoldsFor(q, g, id, r));
      assert HoldsFor(q, h, id, r) <==> id == q[h].profile.id && r == q[h].runId;
      assert !HoldsFor(q - {h}, h, id, r);
      assert CrawlsFor(c', id, r) <==> CrawlsFor(c, id, r) || HoldsFor(q, h, id, r);
      hide CrawlsFor, HoldsFor;
    }
  }

  lemma Ends(q: Requests, c: Crawls, used: set<RunId>, run: RunId)
    requires RequestsFit(q, c, used) && run in c
    ensures RequestsFit(q, c - {run}, used)
    ensures forall id, r :: Active(q, c - {run}, id, r) <==> Active(q, c, id, r) && r != run
  {
    forall id, r ensures Active(q, c - {run}, id, r) <==> Active(q, c, id, r) && r != run {
      assert CrawlsFor(c - {run}, id, r) <==> CrawlsFor(c, id, r) && r != run;
      assert forall h :: HoldsFor(q, h, id, r) ==> r != run;
      hide CrawlsFor, HoldsFor;
    }
  }

  lemma SlotTaken(runs: map<PathId, RunId>, q: Requests, c: Crawls, q': Requests, id: Id, run: RunId)
    requires SlotsFit(runs, q, c) && Canonical(id) !in runs
    requires forall i, r :: Active(q', c, i, r) <==> Active(q, c, i, r) || (i == id && r == run)
    ensures SlotsFit(runs[Canonical(id) := run], q', c)
  {
    forall i, r ensures SlotIs(runs[Canonical(id) := run], i, r) <==> SlotIs(runs, i, r) || (i == id && r == run) {
      assert i == id <==> Canonical(i) == Canonical(id);
    }
    hide Active, SlotIs;
  }

  /** A run that ends frees the slot of its profile, which was its own. */
  lemma SlotFreed(runs: map<PathId, RunId>, q: Requests, c: Crawls, c': Crawls, id: Id, run: RunId)
    requires SlotsFit(runs, q, c) && Active(q, c, id, run)
    requires forall i :: Active(q, c, i, run) ==> i == id
    requires forall i, r :: Active(q, c', i, r) <==> Active(q, c, i, r) && r != run
    ensures SlotsFit(runs - {Canonical(id)}, q, c')
  {
    assert SlotIs(runs, id, run);
    forall i, r ensures SlotIs(runs - {Canonical(id)}, i, r) <==> SlotIs(runs, i, r) && r != run {
      assert i == id <==> Canonical(i) == Canonical(id);
      assert SlotIs(runs, i, run) ==> i == id;
    }
    hide Active, SlotIs;
  }

  // ---- Steps of the protocol ---------------------------------------------------------------------------------

  /** A request takes its slot under the canonical text of the profile's id. */
  predicate TakesCanonically(s: State, a: Action) {
    a.TakeSlot? && a.h in s.requests && s.requests[a.h].phase.HasCategory? && s.requests[a.h].path !in s.runs ==>
      s.requests[a.h].path.Spelled? && s.requests[a.h].path.spelling == 0
  }

  lemma BeginRunKeeps(s: State, h: HandlerId, user: UserId, path: PathId, runId: RunId)
    requires RunIdsFit(s) && h !in s.requests && runId !in s.usedRuns
    ensures var s' := BeginRunStep(s, h, user, path, runId);
      RunIdsFit(s') && (SlotsMatch(s) ==> SlotsMatch(s'))
  {
    hide RequestsFit, SlotsFit, SameRuns, Decode;
    if GetSearchProfile(s.table, user, path).Success? {
      var q := RunRequest(user, path, GetSearchProfile(s.table, user, path).value, runId, HasRead);
      Arrives(s.requests, s.crawls, s.usedRuns, h, q);
      if SlotsMatch(s) {
        SameRunsFit(s.runs, s.requests, s.crawls, s.requests[h := q], s.crawls);
      }
    }
  }

  lemma MoveKeeps(s: State, h: HandlerId, phase: Phase, table: Table, history: map<Id, seq<Json>>)
    requires RunIdsFit(s) && h in s.requests && !s.requests[h].phase.HoldsSlot? && !phase.HoldsSlot?
    ensures
      var requests := s.requests[h := s.requests[h].(phase := phase)];
      var s' := s.(table := table, history := history, requests := requests);
      RunIdsFit(s') && (SlotsMatch(s) ==> SlotsMatch(s'))
  {
    hide RequestsFit, SlotsFit, SameRuns;
    Moves(s.requests, s.crawls, s.usedRuns, h, phase);
    if SlotsMatch(s) {
      SameRunsFit(s.runs, s.requests, s.crawls, s.requests[h := s.requests[h].(phase := phase)], s.crawls);
    }
  }

  lemma ReplyKeeps(s: State, h: HandlerId, reply: Reply, table: Table, history: map<Id, seq<Json>>)
    requires RunIdsFit(s) && h in s.requests && !s.requests[h].phase.HoldsSlot?
    ensures var s' := Replied(s.(table := table, history := history), h, reply);
      RunIdsFit(s') && (SlotsMatch(s) ==> SlotsMatch(s'))
  {
    hide RequestsFit, SlotsFit, SameRuns;
    Leaves(s.requests, s.crawls, s.usedRuns, h);
    if SlotsMatch(s) {
      SameRunsFit(s.runs, s.requests, s.crawls, s.requests - {h}, s.crawls);
    }
  }

  lemma TouchKeeps(s: State, h: HandlerId, now: int)
    requires RunIdsFit(s) && h in s.requests && s.requests[h].phase.HasRead?
    ensures RunIdsFit(TouchRunStep(s, h, now)) && (SlotsMatch(s) ==> SlotsMatch(TouchRunStep(s, h, now)))
  {
    var t := TouchOutcome(s.table, s.requests[h].user, s.requests[h].path, now, now).table;
    hide RunIdsFit, SlotsMatch, TouchOutcome, Noted;
    ReplyKeeps(s, h, Refused, t, Noted(s.history, t));
    MoveKeeps(s, h, HasTouched, t, Noted(s.history, t));
  }

  lemma CategoryKeeps(s: State, h: HandlerId, ok: bool)
    requires RunIdsFit(s)
    ensures RunIdsFit(Next(s, EnsureCategory(h, ok)))
    ensures SlotsMatch(s) ==> SlotsMatch(Next(s, EnsureCategory(h, ok)))
  {
    hide RunIdsFit, SlotsMatch;
    if h in s.requests && s.requests[h].phase.HasTouched? {
      ReplyKeeps(s, h, Refused, s.table, s.history);
      MoveKeeps(s, h, HasCategory, s.table, s.history);
    }
  }

  /** The text of the path decides: where the slot is taken under any other text than the canonical one, the
      slots are not what they should be. */
  lemma TakeSlotKeeps(s: State, h: HandlerId)
    requires RunIdsFit(s) && h in s.requests && s.requests[h].phase.HasCategory?
    ensures RunIdsFit(TakeSlotStep(s, h))
    ensures SlotsMatch(s) ==> (SlotsMatch(TakeSlotStep(s, h)) <==> TakesCanonically(s, TakeSlot(h)))
  {
    var q := s.requests[h];
    if q.path in s.runs {
      hide RunIdsFit, SlotsMatch;
      ReplyKeeps(s, h, AlreadyRunning(s.runs[q.path]), s.table, s.history);
    } else {
      Takes(s.requests, s.crawls, s.usedRuns, h);
      if SlotsMatch(s) && q.path.spelling == 0 {
        SlotTaken(s.runs, s.requests, s.crawls, s.requests[h := q.(phase := HoldsSlot)], q.profile.id, q.runId);
      }
      if SlotsMatch(s) && SlotsMatch(TakeSlotStep(s, h)) {
        assert q.path in TakeSlotStep(s, h).runs;
      }
      hide Active, SlotIs;
    }
  }

  lemma SpawnKeeps(s: State, h: HandlerId)
    requires RunIdsFit(s) && h in s.requests && s.requests[h].phase.HoldsSlot?
    ensures RunIdsFit(SpawnStep(s, h)) && (SlotsMatch(s) ==> SlotsMatch(SpawnStep(s, h)))
  {
    hide RequestsFit, Active, SlotIs;
    Spawns(s.requests, s.crawls, s.usedRuns, h);
  }

  lemma SyncKeeps(s: State, run: RunId, items: seq<Hit>, accepted: bool)
    requires RunIdsFit(s) && run in s.crawls
    ensures RunIdsFit(SyncStep(s, run, items, accepted))
    ensures SlotsMatch(s) ==> SlotsMatch(SyncStep(s, run, items, accepted))
  {
    hide RequestsFit, SlotsFit, SameRuns, SearcherQuery;
    Syncs(s.requests, s.crawls, s.usedRuns, run, !accepted);
    if SlotsMatch(s) {
      SameRunsFit(s.runs, s.requests, s.crawls, s.requests,
                  s.crawls[run := CrawlState(s.crawls[run].profile, !accepted)]);
    }
  }

  lemma EndCrawlKeeps(s: State, run: RunId)
    requires RunIdsFit(s) && run in s.crawls
    ensures RunIdsFit(EndCrawlStep(s, run)) && (SlotsMatch(s) ==> SlotsMatch(EndCrawlStep(s, run)))
  {
    var id := s.crawls[run].profile.id;
    assert Active(s.requests, s.crawls, id, run);
    assert forall i :: Active(s.requests, s.crawls, i, run) ==> i == id;
    Ends(s.requests, s.crawls, s.usedRuns, run);
    hide RequestsFit, SlotsFit, Active;
    if SlotsMatch(s) {
      SlotFreed(s.runs, s.requests, s.crawls, s.crawls - {run}, id, run);
    }
  }

  /** Changes to the table, the history and the updates leave the slots alone. */
  ghost predicate SameSlots(s: State, s': State) {
    s'.runs == s.runs && s'.requests == s.requests && s'.crawls == s.crawls && s'.usedRuns == s.usedRuns
  }

  lemma StoreSideKeeps(s: State, a: Action)
    requires a.StoreOp? || a.BeginUpdate? || a.EndUpdate?
    ensures SameSlots(s, Next(s, a))
  {
    hide ProfileLaws.Apply, GetSearchProfile, Amended, UpdateOutcome, Noted;
  }

  lemma RestartKeeps(s: State)
    ensures RunIdsFit(Next(s, Restart)) && SlotsMatch(Next(s, Restart))
  {
  }

  /** Run ids are kept apart by every step, and the slots by every step but one: a request that takes its slot
      under another text than the canonical one. */
  lemma NextKeepsSlots(s: State, a: Action)
    requires RunIdsFit(s)
    ensures RunIdsFit(Next(s, a))
    ensures SlotsMatch(s) ==> (SlotsMatch(Next(s, a)) <==> TakesCanonically(s, a))
  {
    hide RequestsFit, SlotsFit, BeginRunStep, TouchRunStep, TakeSlotStep, SpawnStep, SyncStep, EndCrawlStep, Replied,
         WithTable, GetSearchProfile, Amended;
    match a
    case BeginRun(h, user, path, runId) =>
      if h !in s.requests && runId !in s.usedRuns {
        BeginRunKeeps(s, h, user, path, runId);
      }
    case TouchRun(h, now) =>
      if h in s.requests && s.requests[h].phase.HasRead? {
        TouchKeeps(s, h, now);
      }
    case EnsureCategory(h, ok) =>
      CategoryKeeps(s, h, ok);
    case TakeSlot(h) =>
      if h in s.requests && s.requests[h].phase.HasCategory? {
        TakeSlotKeeps(s, h);
      }
    case Spawn(h) =>
      if h in s.requests && s.requests[h].phase.HoldsSlot? {
        SpawnKeeps(s, h);
      }
    case Sync(run, items, accepted) =>
      if run in s.crawls {
        SyncKeeps(s, run, items, accepted);
      }
    case EndCrawl(run) =>
      if run in s.crawls {
        EndCrawlKeeps(s, run);
      }
    case Restart =>
      RestartKeeps(s);
    case _ =>
      StoreSideKeeps(s, a);
  }

  // ---- Whole runs ------------------------------------------------------------------------------------------

  lemma InitFits(t: Table)
    ensures RunIdsFit(Init(t)) && SlotsMatch(Init(t))
  {
  }

  lemma {:induction false} RunIdsStayApart(t: Table, actions: seq<Action>)
    ensures RunIdsFit(Run(Init(t), actions))
    decreases |actions|
  {
    hide Next, RequestsFit, Init;
    if actions == [] {
      InitFits(t);
    } else {
      RunIdsStayApart(t, actions[..|actions| - 1]);
      NextKeepsSlots(Run(Init(t), actions[..|actions| - 1]), actions[|actions| - 1]);
    }
  }

  lemma RunOneMore(t: Table, actions: seq<Action>, i: nat)
    requires i < |actions|
    ensures Run(Init(t), actions[..i + 1]) == Next(Run(Init(t), actions[..i]), actions[i])
  {
    hide Next, Init;
    assert actions[..i + 1][..i] == actions[..i];
  }

  ghost predicate SlotsAlwaysMatch(t: Table, actions: seq<Action>) {
    forall i: nat :: i <= |actions| ==> SlotsMatch(Run(Init(t), actions[..i]))
  }

  ghost predicate AlwaysTakesCanonically(t: Table, actions: seq<Action>) {
    forall i: nat :: i < |actions| ==> TakesCanonically(Run(Init(t), actions[..i]), actions[i])
  }

  /** The slots name exactly the runs that are on at every moment of a run if, and only if, every slot of the run
      was taken under the canonical text of its profile's id. */
  lemma SlotsThroughoutARun(t: Table, actions: seq<Action>)
    ensures SlotsAlwaysMatch(t, actions) <==> AlwaysTakesCanonically(t, actions)
  {
    hide SlotsMatch, RunIdsFit, TakesCanonically, Next, Run, Init;
    if SlotsAlwaysMatch(t, actions) {
      forall i: nat | i < |actions| ensures TakesCanonically(Run(Init(t), actions[..i]), actions[i]) {
        RunIdsStayApart(t, actions[..i]);
        RunOneMore(t, actions, i);
        NextKeepsSlots(Run(Init(t), actions[..i]), actions[i]);
        assert SlotsMatch(Run(Init(t), actions[..i + 1]));
      }
    }
    if AlwaysTakesCanonically(t, actions) {
      SlotsUpTo(t, actions, |actions|);
    }
  }

  lemma {:induction false} SlotsUpTo(t: Table, actions: seq<Action>, n: nat)
    requires n <= |actions|
    requires AlwaysTakesCanonically(t, actions)
    ensures forall i: nat :: i <= n ==> SlotsMatch(Run(Init(t), actions[..i]))
  {
    hide SlotsMatch, RunIdsFit, TakesCanonically, Next, Run, Init;
    if n == 0 {
      InitFits(t);
      assert Run(Init(t), actions[..0]) == Init(t) by {
        EmptyRun(Init(t), actions[..0]);
      }
    } else {
      SlotsUpTo(t, actions, n - 1);
      RunIdsStayApart(t, actions[..n - 1]);
      RunOneMore(t, actions, n - 1);
      NextKeepsSlots(Run(Init(t), actions[..n - 1]), actions[n - 1]);
    }
  }

  lemma EmptyRun(s: State, actions: seq<Action>)
    requires actions == []
    ensures Run(s, actions) == s
  {
  }

  predicate CanonicalPath(path: PathId) {
    path.Spelled? ==> path.spelling == 0
  }

  ghost predicate CanonicalRequests(s: State) {
    forall h :: h in s.requests ==> s.requests[h].path.Spelled? && s.requests[h].path.spelling == 0
  }

  /** Requests keep their paths. */
  lemma NextKeepsPaths(s: State, a: Action, h: HandlerId)
    requires h in Next(s, a).requests && !(a.BeginRun? && a.h == h)
    ensures h in s.requests && Next(s, a).requests[h].path == s.requests[h].path
  {
    if RunProvenance.OpOf(s, a).Some? {
      RunProvenance.StoreStepForgets(s, a);
      hide Next, RunProvenance.OpOf, Noted;
    } else if !a.BeginRun? && !a.Spawn? && !a.Sync? {
      RunProvenance.OtherStepForgets(s, a);
      hide Next, RunProvenance.OpOf;
    } else {
      OthersKeepPaths(s, a, h);
      hide Next;
    }
  }

  lemma OthersKeepPaths(s: State, a: Action, h: HandlerId)
    requires h in Next(s, a).requests && (a.BeginRun? || a.Spawn? || a.Sync?) && !(a.BeginRun? && a.h == h)
    ensures h in s.requests && Next(s, a).requests[h] == s.requests[h]
  {
    hide GetSearchProfile, SearcherQuery;
  }

  lemma BeginRunKeepsCanonical(s: State, a: Action)
    requires a.BeginRun? && CanonicalPath(a.path)
    requires a.h !in s.requests && a.h in Next(s, a).requests
    ensures var path := Next(s, a).requests[a.h].path; path.Spelled? && path.spelling == 0
  {
    if GetSearchProfile(s.table, a.user, a.path).Success? {
      PathIsProfiles(s.table, a.user, a.path);
    }
    hide GetSearchProfile;
  }

  lemma NextKeepsCanonical(s: State, a: Action)
    requires CanonicalRequests(s) && (a.BeginRun? ==> CanonicalPath(a.path))
    ensures CanonicalRequests(Next(s, a)) && TakesCanonically(s, a)
  {
    if a.BeginRun? && a.h in s.requests {
      assert Next(s, a) == s;
    }
    hide Next;
    forall h | h in Next(s, a).requests
      ensures Next(s, a).requests[h].path.Spelled? && Next(s, a).requests[h].path.spelling == 0
    {
      if a.BeginRun? && a.h == h {
        if h !in s.requests {
          BeginRunKeepsCanonical(s, a);
        }
      } else {
        NextKeepsPaths(s, a, h);
      }
    }
  }

  lemma PathIsProfiles(t: Table, user: UserId, path: PathId)
    requires GetSearchProfile(t, user, path).Success?
    ensures path.Spelled? && GetSearchProfile(t, user, path).value.id == path.id
  {
    hide Decode;
  }

  lemma {:induction false} CanonicalUpTo(t: Table, actions: seq<Action>, n: nat)
    requires n <= |actions|
    requires forall a :: a in actions && a.BeginRun? ==> CanonicalPath(a.path)
    ensures CanonicalRequests(Run(Init(t), actions[..n]))
    ensures forall i: nat :: i < n ==> TakesCanonically(Run(Init(t), actions[..i]), actions[i])
  {
    hide CanonicalRequests, TakesCanonically, CanonicalPath, Next, Run, Init;
    if n == 0 {
      assert CanonicalRequests(Run(Init(t), actions[..0])) by {
        hide *;
        EmptyRun(Init(t), actions[..0]);
        InitIsCanonical(t);
      }
    } else {
      CanonicalUpTo(t, actions, n - 1);
      RunOneMore(t, actions, n - 1);
      assert actions[n - 1] in actions;
      NextKeepsCanonical(Run(Init(t), actions[..n - 1]), actions[n - 1]);
    }
  }

  lemma InitIsCanonical(t: Table)
    ensures CanonicalRequests(Init(t))
  {
  }

  /** What fitting slots mean: at most one run of a profile is on; none has a slot that it should not have; and
      once no run is on, no slot is left. */
  lemma AtMostOneRun(s: State, id: Id, r: RunId, r': RunId)
    requires SlotsMatch(s)
    ensures Active(s.requests, s.crawls, id, r) && Active(s.requests, s.crawls, id, r') ==> r == r'
    ensures CrawlsFor(s.crawls, id, r) && CrawlsFor(s.crawls, id, r') ==> r == r'
    ensures (forall i, x :: !Active(s.requests, s.crawls, i, x)) ==> s.runs == map[]
  {
    assert SlotIs(s.runs, id, r) && SlotIs(s.runs, id, r') ==> r == r';
    if (forall i, x :: !Active(s.requests, s.crawls, i, x)) && s.runs != map[] {
      var k :| k in s.runs;
      assert SlotIs(s.runs, k.id, s.runs[k]);
    }
  }

  /** With canonical paths only: at every moment of every interleaving, a profile has at most one crawl, Server.runs
      names exactly the runs that are on, and it is empty when none is. */
  lemma OneCrawlPerProfile(t: Table, actions: seq<Action>, id: Id, r: RunId, r': RunId)
    requires forall a :: a in actions && a.BeginRun? ==> CanonicalPath(a.path)
    ensures var s := Run(Init(t), actions);
      && SlotsMatch(s)
      && (CrawlsFor(s.crawls, id, r) && CrawlsFor(s.crawls, id, r') ==> r == r')
      && ((forall i, x :: !Active(s.requests, s.crawls, i, x)) ==> s.runs == map[])
  {
    hide SlotsMatch, CrawlsFor, Active, CanonicalPath, TakesCanonically, Run, Init;
    CanonicalUpTo(t, actions, |actions|);
    SlotsThroughoutARun(t, actions);
    assert actions[..|actions|] == actions;
    AtMostOneRun(Run(Init(t), actions), id, r, r');
  }

  /** A request that finds its slot taken is told the run that is on; it takes the slot if, and only if, no run of
      the profile is on. */
  lemma TheReplyNamesTheRun(s: State, h: HandlerId)
    requires SlotsMatch(s) && RunIdsFit(s) && h in s.requests && s.requests[h].phase.HasCategory?
    requires TakesCanonically(s, TakeSlot(h)) && h !in s.replies
    ensures var s', q := Next(s, TakeSlot(h)), s.requests[h];
      && (h in s'.requests <==> forall r :: !Active(s.requests, s.crawls, q.profile.id, r))
      && (h in s'.requests ==> Active(s'.requests, s'.crawls, q.profile.id, q.runId))
      && (h !in s'.requests ==>
            && s'.runs == s.runs
            && h in s'.replies && s'.replies[h].AlreadyRunning?
            && Active(s'.requests, s'.crawls, q.profile.id, s'.replies[h].run))
  {
    var s', q := Next(s, TakeSlot(h)), s.requests[h];
    NextKeepsSlots(s, TakeSlot(h));
    if q.path in s.runs {
      assert q.path == Canonical(q.profile.id);
      assert SlotIs(s.runs, q.profile.id, s.runs[q.path]);
      assert SlotIs(s'.runs, q.profile.id, s.runs[q.path]);
    } else {
      assert forall r :: !SlotIs(s.runs, q.profile.id, r);
      assert SlotIs(s'.runs, q.profile.id, q.runId);
    }
    hide Active, RequestsFit;
  }

  /** A crawl that ends, in whatever way, frees its slot: its profile can be run again, and no other slot is
      touched. */
  lemma EndedCrawlFreesItsSlot(s: State, run: RunId)
    requires SlotsMatch(s) && RunIdsFit(s) && run in s.crawls
    ensures var s', id := Next(s, EndCrawl(run)), s.crawls[run].profile.id;
      && Canonical(id) in s.runs && s.runs[Canonical(id)] == run
      && s'.runs == s.runs - {Canonical(id)}
      && forall r :: !Active(s'.requests, s'.crawls, id, r)
  {
    var id := s.crawls[run].profile.id;
    assert Active(s.requests, s.crawls, id, run);
    NextKeepsSlots(s, EndCrawl(run));
    hide Active, RequestsFit;
    assert SlotIs(s.runs, id, run);
    assert forall r :: !SlotIs(Next(s, EndCrawl(run)).runs, id, r);
  }

  // ---- Other spellings of an id --------------------------------------------------------------------------------

  lemma NextKeepsLeaks(s: State, a: Action, k: PathId)
    requires k in s.runs && k.Spelled? && k.spelling != 0 && !a.Restart?
    ensures k in Next(s, a).runs && Next(s, a).runs[k] == s.runs[k]
  {
    if RunProvenance.OpOf(s, a).Some? {
      RunProvenance.StoreStepForgets(s, a);
      hide Next, RunProvenance.OpOf, Noted;
    } else if a.BeginRun? || a.Sync? {
      KeepsSlotsAtAll(s, a);
      hide Next;
    } else {
      hide WithTable, BeginRunStep, SyncStep, TouchRunStep, GetSearchProfile, Amended;
    }
  }

  lemma KeepsSlotsAtAll(s: State, a: Action)
    requires a.BeginRun? || a.Sync?
    ensures Next(s, a).runs == s.runs
  {
    hide GetSearchProfile, SearcherQuery;
  }

  /** A slot taken under another spelling is never freed before the process starts anew. */
  lemma {:induction false} LeakedSlotsStay(s: State, actions: seq<Action>, k: PathId)
    requires k in s.runs && k.Spelled? && k.spelling != 0 && Restart !in actions
    ensures k in Run(s, actions).runs && Run(s, actions).runs[k] == s.runs[k]
    decreases |actions|
  {
    hide Next;
    if actions != [] {
      LeakedSlotsStay(s, actions[..|actions| - 1], k);
      NextKeepsLeaks(Run(s, actions[..|actions| - 1]), actions[|actions| - 1], k);
    }
  }

  /** A run request that nothing comes between; its category may or may not be had in core. */
  function Requested(s: State, h: HandlerId, user: UserId, path: PathId, runId: RunId, now: int, category: bool)
    : State
  {
    var touched := Next(Next(s, BeginRun(h, user, path, runId)), TouchRun(h, now));
    Next(Next(Next(touched, EnsureCategory(h, category)), TakeSlot(h)), Spawn(h))
  }

  lemma TouchReadsAgain(t: Table, user: UserId, path: PathId, now: int)
    requires GetSearchProfile(t, user, path).Success?
    ensures TouchOutcome(t, user, path, now, now).result.Success?
  {
    hide Decode;
  }

  /** A request leaves the other requests and what was sent to core alone. */
  ghost predicate OthersStay(s: State, s': State, h: HandlerId) {
    s'.requests - {h} == s.requests - {h} && s'.log == s.log
  }

  lemma RequestBegins(s: State, h: HandlerId, user: UserId, path: PathId, runId: RunId)
    requires GetSearchProfile(s.table, user, path).Success?
    requires h !in s.requests && h !in s.replies && runId !in s.usedRuns
    ensures var s' := Next(s, BeginRun(h, user, path, runId));
      && s'.runs == s.runs && s'.crawls == s.crawls && s'.table == s.table && h in s'.requests
      && s'.requests[h] == RunRequest(user, path, GetSearchProfile(s.table, user, path).value, runId, HasRead)
      && OthersStay(s, s', h)
  {
    hide GetSearchProfile;
  }

  lemma RequestTouches(s: State, h: HandlerId, now: int)
    requires h in s.requests && s.requests[h].phase.HasRead?
    requires TouchOutcome(s.table, s.requests[h].user, s.requests[h].path, now, now).result.Success?
    ensures var s' := Next(s, TouchRun(h, now));
      && s'.runs == s.runs && s'.crawls == s.crawls && h in s'.requests
      && s'.requests[h] == s.requests[h].(phase := HasTouched)
      && OthersStay(s, s', h)
  {
    hide TouchOutcome, Noted;
  }

  lemma RequestReaches(s: State, h: HandlerId, user: UserId, path: PathId, runId: RunId, now: int)
    requires GetSearchProfile(s.table, user, path).Success?
    requires h !in s.requests && h !in s.replies && runId !in s.usedRuns
    ensures var s' := Next(Next(s, BeginRun(h, user, path, runId)), TouchRun(h, now));
      && s'.runs == s.runs && s'.crawls == s.crawls && h in s'.requests
      && s'.requests[h]
         == RunRequest(user, path, GetSearchProfile(s.table, user, path).value, runId, HasTouched)
      && OthersStay(s, s', h)
  {
    hide GetSearchProfile, TouchOutcome, Next;
    TouchReadsAgain(s.table, user, path, now);
    RequestBegins(s, h, user, path, runId);
    RequestTouches(Next(s, BeginRun(h, user, path, runId)), h, now);
  }

  lemma PassesCategory(s: State, h: HandlerId)
    requires h in s.requests && s.requests[h].phase.HasTouched?
    ensures Next(s, EnsureCategory(h, true)) == s.(requests := s.requests[h := s.requests[h].(phase := HasCategory)])
    ensures OthersStay(s, Next(s, EnsureCategory(h, true)), h)
  {
  }

  lemma TakesAndSpawns(s: State, h: HandlerId)
    requires h in s.requests && s.requests[h].phase.HasCategory? && s.requests[h].path !in s.runs
    ensures var s', q := Next(Next(s, TakeSlot(h)), Spawn(h)), s.requests[h];
      && s'.runs == s.runs[q.path := q.runId]
      && s'.crawls == s.crawls[q.runId := CrawlState(q.profile, false)]
      && s'.replies == s.replies[h := Started(q.runId)]
      && OthersStay(s, s', h)
  {
  }

  lemma FindsSlotTaken(s: State, h: HandlerId)
    requires h in s.requests && s.requests[h].phase.HasCategory? && s.requests[h].path in s.runs
    ensures Next(Next(s, TakeSlot(h)), Spawn(h)) == Replied(s, h, AlreadyRunning(s.runs[s.requests[h].path]))
    ensures OthersStay(s, Next(Next(s, TakeSlot(h)), Spawn(h)), h)
  {
  }

  lemma RequestProceeds(s: State, h: HandlerId)
    requires h in s.requests && s.requests[h].phase.HasTouched?
    ensures var s', q := Next(Next(Next(s, EnsureCategory(h, true)), TakeSlot(h)), Spawn(h)), s.requests[h];
      && s'.runs == (if q.path in s.runs then s.runs else s.runs[q.path := q.runId])
      && s'.crawls == (if q.path in s.runs then s.crawls else s.crawls[q.runId := CrawlState(q.profile, false)])
      && h in s'.replies
      && s'.replies[h] == (if q.path in s.runs then AlreadyRunning(s.runs[q.path]) else Started(q.runId))
      && OthersStay(s, s', h)
  {
    hide Next;
    PassesCategory(s, h);
    var there := Next(s, EnsureCategory(h, true));
    if s.requests[h].path in s.runs {
      FindsSlotTaken(there, h);
    } else {
      TakesAndSpawns(there, h);
    }
  }

  /** Such a request of a readable profile starts a crawl of it, unless its path has a slot. */
  lemma RequestStartsOrJoins(s: State, h: HandlerId, user: UserId, path: PathId, runId: RunId, now: int)
    requires GetSearchProfile(s.table, user, path).Success?
    requires h !in s.requests && h !in s.replies && runId !in s.usedRuns
    ensures var s', p := Requested(s, h, user, path, runId, now, true), GetSearchProfile(s.table, user, path).value;
      && s'.runs == (if path in s.runs then s.runs else s.runs[path := runId])
      && s'.crawls == (if path in s.runs then s.crawls else s.crawls[runId := CrawlState(p, false)])
      && h in s'.replies
      && s'.replies[h] == (if path in s.runs then AlreadyRunning(s.runs[path]) else Started(runId))
      && OthersStay(s, s', h)
  {
    hide Next;
    RequestReaches(s, h, user, path, runId, now);
    RequestProceeds(Next(Next(s, BeginRun(h, user, path, runId)), TouchRun(h, now)), h);
  }

  /** While a run of a profile is being crawled, a further request joins it if, and only if, its path is canonical;
      with any other spelling it starts a second crawl of the same profile. */
  lemma FurtherRequestJoins(s: State, h: HandlerId, user: UserId, path: PathId, runId: RunId, now: int, r: RunId)
    requires SlotsMatch(s) && RunIdsFit(s) && GetSearchProfile(s.table, user, path).Success?
    requires h !in s.requests && h !in s.replies && runId !in s.usedRuns
    requires path.Spelled? && CrawlsFor(s.crawls, path.id, r)
    ensures var s' := Requested(s, h, user, path, runId, now, true);
      && h in s'.replies
      && (s'.replies[h] == AlreadyRunning(r) <==> path == Canonical(path.id))
      && (path == Canonical(path.id) ==> s'.crawls == s.crawls)
      && (path != Canonical(path.id) ==>
            r != runId && CrawlsFor(s'.crawls, path.id, r) && CrawlsFor(s'.crawls, path.id, runId))
  {
    PathIsProfiles(s.table, user, path);
    RequestStartsOrJoins(s, h, user, path, runId, now);
    assert Active(s.requests, s.crawls, path.id, r);
    assert SlotIs(s.runs, path.id, r);
    assert r in s.usedRuns;
    assert path in s.runs ==> path.spelling == 0;
    hide Requested, GetSearchProfile, SlotsFit, RequestsFit, Active, SlotIs;
  }
}
