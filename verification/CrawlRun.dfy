/** A background crawl as a run of the protocol: what it sends are Sync steps, and its return is EndCrawl. */
module CrawlRun {
  import opened Wrappers
  import opened Json
  import opened SearcherConfigs
  import opened Hits
  import opened Profiles
  import opened RunProtocol
  import RunProvenance
  import Crawl
  import SearcherCrawl
  import Listing
  import HitParser
  import UrlValues

  /** The first n calls that the crawl made, as steps of its run. */
  function SyncSteps(f: Crawl.Fetcher, w: Crawl.World, p: Profile, run: RunId, sent: seq<SearcherCrawl.SyncCall>,
                     n: nat): seq<Action>
    requires n <= |sent|
  {
    if n == 0 then []
    else
      SyncSteps(f, w, p, run, sent, n - 1)
        + [Sync(run, Crawl.Fresh(f, w, p.config, n), sent[n - 1].err.None?)]
  }

  /** What the log gets from them. */
  function Batches(f: Crawl.Fetcher, w: Crawl.World, p: Profile, run: RunId, sent: seq<SearcherCrawl.SyncCall>,
                   n: nat): seq<Batch>
    requires n <= |sent|
  {
    if n == 0 then []
    else
      Batches(f, w, p, run, sent, n - 1)
        + [Batch(p.id, p.name, p.configVersion, Crawl.Fresh(f, w, p.config, n), SearcherQuery(p.config), run,
                 sent[n - 1].err.None?)]
  }

  lemma OneSync(s: State, run: RunId, items: seq<Hit>, accepted: bool)
    requires run in s.crawls && !s.crawls[run].failed
    ensures var s', p := Next(s, Sync(run, items, accepted)), s.crawls[run].profile;
      && s'.log == s.log + [Batch(p.id, p.name, p.configVersion, items, SearcherQuery(p.config), run, accepted)]
      && run in s'.crawls && s'.crawls[run] == CrawlState(p, !accepted)
  {
    hide SearcherQuery;
  }

  /** Only the last call of a crawl can have failed. */
  lemma EarlierAccepted(f: Crawl.Fetcher, w: Crawl.World, p: Profile, sent: seq<SearcherCrawl.SyncCall>, pages: nat,
                        end: Crawl.End, k: nat)
    requires SearcherCrawl.SentFits(f, w, p, sent, pages, end) && k + 1 < |sent|
    ensures sent[k].err.None?
  {
    hide SearcherCrawl.Labelled, SearcherCrawl.PageByPage, SearcherCrawl.Accepted, Crawl.Delivered, Crawl.Fresh;
  }

  lemma RunOneMore(s: State, actions: seq<Action>, a: Action)
    ensures Run(s, actions + [a]) == Next(Run(s, actions), a)
  {
    hide Next;
    assert (actions + [a])[..|actions|] == actions;
  }

  /** The state after the first n calls. */
  ghost predicate Sent(s: State, s': State, run: RunId, p: Profile, batches: seq<Batch>, failed: bool) {
    s'.log == s.log + batches && run in s'.crawls && s'.crawls[run] == CrawlState(p, failed)
  }

  lemma SentOneMore(s: State, s': State, run: RunId, p: Profile, batches: seq<Batch>, items: seq<Hit>, accepted: bool)
    requires Sent(s, s', run, p, batches, false)
    ensures Sent(s, Next(s', Sync(run, items, accepted)), run, p,
                 batches + [Batch(p.id, p.name, p.configVersion, items, SearcherQuery(p.config), run, accepted)],
                 !accepted)
  {
    hide Next, SearcherQuery;
    OneSync(s', run, items, accepted);
  }

  lemma StepsAndBatches(f: Crawl.Fetcher, w: Crawl.World, p: Profile, run: RunId,
                        sent: seq<SearcherCrawl.SyncCall>, n: nat)
    requires n <= |sent|
    ensures n == 0 ==> SyncSteps(f, w, p, run, sent, n) == [] && Batches(f, w, p, run, sent, n) == []
    ensures n > 0 ==>
      var items, accepted := Crawl.Fresh(f, w, p.config, n), sent[n - 1].err.None?;
      && SyncSteps(f, w, p, run, sent, n) == SyncSteps(f, w, p, run, sent, n - 1) + [Sync(run, items, accepted)]
      && Batches(f, w, p, run, sent, n)
         == Batches(f, w, p, run, sent, n - 1)
            + [Batch(p.id, p.name, p.configVersion, items, SearcherQuery(p.config), run, accepted)]
  {
    hide Crawl.Fresh, SearcherQuery;
  }

  lemma NothingSent(s: State, run: RunId, p: Profile)
    requires run in s.crawls && s.crawls[run] == CrawlState(p, false)
    ensures Sent(s, Run(s, []), run, p, [], false)
  {
  }

  lemma {:induction false} SyncsRun(s: State, run: RunId, f: Crawl.Fetcher, w: Crawl.World, p: Profile,
                                    sent: seq<SearcherCrawl.SyncCall>, pages: nat, end: Crawl.End, n: nat)
    requires run in s.crawls && s.crawls[run] == CrawlState(p, false) && n <= |sent|
    requires SearcherCrawl.SentFits(f, w, p, sent, pages, end)
    ensures Sent(s, Run(s, SyncSteps(f, w, p, run, sent, n)), run, p, Batches(f, w, p, run, sent, n),
                 n > 0 && sent[n - 1].err.Some?)
    decreases n
  {
    hide *;
    StepsAndBatches(f, w, p, run, sent, n);
    if n == 0 {
      NothingSent(s, run, p);
    } else {
      SyncsRun(s, run, f, w, p, sent, pages, end, n - 1);
      if n > 1 {
        EarlierAccepted(f, w, p, sent, pages, end, n - 2);
      }
      var before := SyncSteps(f, w, p, run, sent, n - 1);
      var fresh' := Crawl.Fresh(f, w, p.config, n);
      RunOneMore(s, before, Sync(run, fresh', sent[n - 1].err.None?));
      SentOneMore(s, Run(s, before), run, p, Batches(f, w, p, run, sent, n - 1), fresh', sent[n - 1].err.None?);
    }
  }

  lemma {:induction false} BatchesMatch(f: Crawl.Fetcher, w: Crawl.World, p: Profile, run: RunId,
                                        sent: seq<SearcherCrawl.SyncCall>, n: nat)
    requires n <= |sent| && SearcherCrawl.PageByPage(f, w, p.config, sent) && SearcherCrawl.Labelled(sent, p)
    ensures |Batches(f, w, p, run, sent, n)| == n
    ensures forall k :: 0 <= k < n ==> Matches(Batches(f, w, p, run, sent, n)[k], sent[k])
    decreases n
  {
    hide Crawl.Fresh, SearcherQuery;
    if n > 0 {
      BatchesMatch(f, w, p, run, sent, n - 1);
      assert SearcherCrawl.Carries(f, w, p.config, sent[n - 1], n);
      assert Matches(Batches(f, w, p, run, sent, n)[n - 1], sent[n - 1]);
    }
  }

  /** The batch of the log is this call. */
  ghost predicate Matches(b: Batch, c: SearcherCrawl.SyncCall) {
    && b.id == c.id && b.title == c.title && b.version == c.version && b.accepted == c.err.None?
    && SearcherCrawl.Items(b.items) == c.items
  }

  /** Whatever a crawl sends, from whatever state of the service it runs in: its calls and its end are steps of the
      protocol, which logs exactly these calls and frees the slot. */
  lemma CrawlIsARun(s: State, run: RunId, f: Crawl.Fetcher, w: Crawl.World, p: Profile,
                    sent: seq<SearcherCrawl.SyncCall>, pages: nat, end: Crawl.End)
    requires run in s.crawls && s.crawls[run] == CrawlState(p, false)
    requires SearcherCrawl.SentFits(f, w, p, sent, pages, end)
    ensures var s' := Run(s, SyncSteps(f, w, p, run, sent, |sent|) + [EndCrawl(run)]);
      && run !in s'.crawls && Canonical(p.id) !in s'.runs
      && |s'.log| == |s.log| + |sent| && s.log <= s'.log
      && forall k :: 0 <= k < |sent| ==> Matches(s'.log[|s.log| + k], sent[k])
  {
    hide *;
    PartsOfSent(f, w, p, sent, pages, end);
    SyncsRun(s, run, f, w, p, sent, pages, end, |sent|);
    var steps := SyncSteps(f, w, p, run, sent, |sent|);
    RunOneMore(s, steps, EndCrawl(run));
    BatchesMatch(f, w, p, run, sent, |sent|);
    SentAndEnded(s, Run(s, steps), run, p, Batches(f, w, p, run, sent, |sent|), sent);
  }

  lemma SentAndEnded(s: State, s': State, run: RunId, p: Profile, batches: seq<Batch>,
                     sent: seq<SearcherCrawl.SyncCall>)
    requires |batches| == |sent| && forall k :: 0 <= k < |sent| ==> Matches(batches[k], sent[k])
    requires exists failed :: Sent(s, s', run, p, batches, failed)
    ensures var s'' := Next(s', EndCrawl(run));
      && run !in s''.crawls && Canonical(p.id) !in s''.runs
      && |s''.log| == |s.log| + |sent| && s.log <= s''.log
      && forall k :: 0 <= k < |sent| ==> Matches(s''.log[|s.log| + k], sent[k])
  {
    hide Next, Matches;
    CrawlEnds(s', run);
  }

  lemma CrawlEnds(s: State, run: RunId)
    requires run in s.crawls
    ensures var s' := Next(s, EndCrawl(run));
      s'.log == s.log && run !in s'.crawls && Canonical(s.crawls[run].profile.id) !in s'.runs
  {
  }

  lemma PartsOfSent(f: Crawl.Fetcher, w: Crawl.World, p: Profile, sent: seq<SearcherCrawl.SyncCall>, pages: nat,
                    end: Crawl.End)
    requires SearcherCrawl.SentFits(f, w, p, sent, pages, end)
    ensures SearcherCrawl.PageByPage(f, w, p.config, sent) && SearcherCrawl.Labelled(sent, p) && |sent| <= pages
  {
    hide SearcherCrawl.PageByPage, SearcherCrawl.Labelled, SearcherCrawl.Accepted, Crawl.Delivered, Crawl.Fresh;
  }

  // ---- Where the numbers came from ----------------------------------------------------------------------

  /** This number was on an answer to a GET that asked for this page of what the filters ask for. */
  ghost predicate AnsweredWith(f: Crawl.Fetcher, w: Crawl.World, cfg: SearcherConfig, page: nat, number: string) {
    exists i: nat, q :: AnsweredAt(f, w, cfg, page, i, q, number)
  }

  ghost predicate AnsweredAt(f: Crawl.Fetcher, w: Crawl.World, cfg: SearcherConfig, page: nat, i: nat,
                             q: UrlValues.Values, number: string)
  {
    && i < Crawl.PAGE_FETCH_RETRIES && Crawl.AsksForPage(q, cfg, page)
    && var got := Crawl.Get(w, page, i, q);
       got.Success? && number in Numbers(HitParser.PageHits(got.value, f.baseURL))
  }

  lemma HitWasAnswered(f: Crawl.Fetcher, w: Crawl.World, cfg: SearcherConfig, page: nat, number: string)
    requires number in Numbers(Crawl.HitsOn(f, w, cfg, page))
    ensures AnsweredWith(f, w, cfg, page, number)
  {
    hide Crawl.PageQuery, HitParser.PageHits, Crawl.Get, Crawl.AsksForPage;
    var q := Crawl.PageQuery(cfg, page);
    Listing.RetriedIsSomeGet(w, page, q, 0, Crawl.Cancelled);
    var i :| 0 <= i < Crawl.PAGE_FETCH_RETRIES
      && Crawl.Get(w, page, i, q) == Crawl.Retried(w, page, q, 0, Crawl.Cancelled);
    Crawl.PageQueryAsks(cfg, page);
    assert AnsweredAt(f, w, cfg, page, i, q, number);
  }

  lemma FreshIsOnThePage(f: Crawl.Fetcher, w: Crawl.World, cfg: SearcherConfig, page: nat, i: nat)
    requires page >= 1 && i < |Crawl.Fresh(f, w, cfg, page)|
    ensures Crawl.Fresh(f, w, cfg, page)[i].regNumber in Numbers(Crawl.HitsOn(f, w, cfg, page))
  {
    hide *;
    Crawl.FreshExtends(f, w, cfg, page);
    Crawl.DeliveredIsDistinct(f, w, cfg, page);
    Crawl.DeliveredIsDistinct(f, w, cfg, page - 1);
    ListedOneMore(f, w, cfg, page);
    NumbersConcat(Crawl.Listed(f, w, cfg, page - 1), Crawl.HitsOn(f, w, cfg, page));
    BehindIsNew(Crawl.Delivered(f, w, cfg, page - 1), Crawl.Fresh(f, w, cfg, page), i);
  }

  lemma ListedOneMore(f: Crawl.Fetcher, w: Crawl.World, cfg: SearcherConfig, page: nat)
    requires page >= 1
    ensures Crawl.Listed(f, w, cfg, page) == Crawl.Listed(f, w, cfg, page - 1) + Crawl.HitsOn(f, w, cfg, page)
  {
  }

  lemma BehindIsNew(before: seq<Hit>, more: seq<Hit>, i: nat)
    requires Distinct(before + more) && i < |more|
    ensures more[i].regNumber in Numbers(before + more) && more[i].regNumber !in Numbers(before)
  {
    var all := before + more;
    assert all[|before| + i] == more[i];
    forall j | 0 <= j < |before| ensures before[j].regNumber != more[i].regNumber {
      assert all[j] == before[j];
    }
  }

  lemma SentWasAnswered(f: Crawl.Fetcher, w: Crawl.World, p: Profile, sent: seq<SearcherCrawl.SyncCall>, k: nat, i: nat)
    requires SearcherCrawl.PageByPage(f, w, p.config, sent) && SearcherCrawl.Labelled(sent, p)
    requires k < |sent| && i < |sent[k].items|
    ensures sent[k].id == p.id && sent[k].version == p.configVersion
    ensures AnsweredWith(f, w, p.config, k + 1, sent[k].items[i].regNumber)
  {
    hide AnsweredWith, Crawl.Fresh, Crawl.HitsOn, Numbers;
    assert SearcherCrawl.Carries(f, w, p.config, sent[k], k + 1);
    FreshIsOnThePage(f, w, p.config, k + 1, i);
    HitWasAnswered(f, w, p.config, k + 1, sent[k].items[i].regNumber);
  }

  lemma CrawlFiltersWereHeld(t: Table, actions: seq<Action>, run: RunId) returns (filters: Json)
    requires FirstVersions(t) && run in Run(Init(t), actions).crawls
    ensures var p := Run(Init(t), actions).crawls[run].profile;
      && RunProvenance.WasHeld(t, actions, p.id, p.configVersion, filters) && Decode(filters) == Some(p.config)
  {
    hide RunProvenance.Provenance, RunProvenance.WasHeld, Run, Init, Decode;
    var s := Run(Init(t), actions);
    var p := s.crawls[run].profile;
    RunProvenance.InitProvenance(t);
    RunProvenance.RunKeepsProvenance(Init(t), actions);
    CrawlDenotes(s, run);
    RunProvenance.HistoryIsReal(t, actions, p.id, p.configVersion);
    filters := s.history[p.id][p.configVersion - 1];
  }

  /** From answer to log: take any state that the service reaches, a crawl that begins to send in it, and whatever
      that crawl sends. Each number that it sends for version v of a profile stood on an answer to the page query of
      filters that the profile held at version v. */
  lemma SentNumbersComeFromTheirVersion(t: Table, actions: seq<Action>, run: RunId, f: Crawl.Fetcher,
                                        w: Crawl.World, sent: seq<SearcherCrawl.SyncCall>, pages: nat,
                                        end: Crawl.End, k: nat, i: nat)
    requires FirstVersions(t) && run in Run(Init(t), actions).crawls
    requires SearcherCrawl.SentFits(f, w, Run(Init(t), actions).crawls[run].profile, sent, pages, end)
    requires k < |sent| && i < |sent[k].items|
    ensures exists filters, c ::
      && RunProvenance.WasHeld(t, actions, sent[k].id, sent[k].version, filters) && Decode(filters) == Some(c)
      && AnsweredWith(f, w, c, k + 1, sent[k].items[i].regNumber)
  {
    hide *;
    var p := Run(Init(t), actions).crawls[run].profile;
    PartsOfSent(f, w, p, sent, pages, end);
    SentWasAnswered(f, w, p, sent, k, i);
    var filters := CrawlFiltersWereHeld(t, actions, run);
    assert RunProvenance.WasHeld(t, actions, sent[k].id, sent[k].version, filters) && Decode(filters) == Some(p.config);
  }

  lemma CrawlDenotes(s: State, run: RunId)
    requires RunProvenance.Provenance(s) && run in s.crawls
    ensures var p := s.crawls[run].profile;
      RunProvenance.Denotes(s.history, p.id, p.configVersion, p.config)
  {
    hide Decode;
    assert RunProvenance.SnapshotFits(s.history, s.crawls[run].profile);
  }
}
