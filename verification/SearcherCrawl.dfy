/** crawlSearcher: the background crawl, which sends what each page adds to core. */
module SearcherCrawl {
  import opened Wrappers
  import opened SearcherConfigs
  import opened Hits
  import opened Profiles
  import opened Crawl

  const SOURCE_SITE := "https://zakupki.gov.ru"

  datatype SyncItem = SyncItem(
    regNumber: string, sourceSite: string, noticeURL: string, law: string, objectName: string)

  /** A call of SyncSearchConfig and what came of it. */
  datatype SyncCall = SyncCall(
    id: Id, title: string, version: int, items: seq<SyncItem>, appendOnly: bool, err: Option<string>)

  /** What core answers to the items of a page: None, or an error. Core may decide as it likes. */
  type Core = (nat, seq<SyncItem>) -> Option<string>

  function Item(h: Hit): SyncItem {
    SyncItem(h.regNumber, SOURCE_SITE, h.noticeURL, h.law, h.objectName)
  }

  function Items(hits: seq<Hit>): (items: seq<SyncItem>)
    ensures |items| == |hits|
    ensures forall i :: 0 <= i < |hits| ==>
      && items[i].regNumber == hits[i].regNumber && items[i].sourceSite == "https://zakupki.gov.ru"
      && items[i].noticeURL == hits[i].noticeURL && items[i].law == hits[i].law
      && items[i].objectName == hits[i].objectName
  {
    seq(|hits|, i requires 0 <= i < |hits| => Item(hits[i]))
  }

  method ToItems(hits: seq<Hit>) returns (items: seq<SyncItem>)
    ensures items == Items(hits)
  {
    items := [];
    for i := 0 to |hits|
      invariant items == Items(hits[..i])
    {
      items := items + [SyncItem(hits[i].regNumber, SOURCE_SITE, hits[i].noticeURL, hits[i].law, hits[i].objectName)];
    }
    assert hits[..|hits|] == hits;
  }

  /** The callback: a page that adds nothing is not sent. */
  function OnPage(core: Core): Callback {
    Some((page: nat, hits: seq<Hit>) => if hits == [] then None else core(page, Items(hits)))
  }

  /** What the callback does with a page. */
  method SyncPage(p: Profile, core: Core, page: nat, hits: seq<Hit>) returns (call: Option<SyncCall>)
    ensures call == if hits == [] then None else Some(CallFor(p, core, page, hits))
    ensures OnPage(core).value(page, hits) == if call.Some? then call.value.err else None
  {
    if |hits| == 0 {
      return None;
    }
    var items := ToItems(hits);
    var err := core(page, items);
    call := Some(SyncCall(p.id, p.name, p.configVersion, items, true, err));
  }

  /** What the callback sent, call by call. */
  function Sent(p: Profile, core: Core, calls: seq<PageCall>): seq<SyncCall> {
    if calls == [] then []
    else
      var c := calls[|calls| - 1];
      Sent(p, core, calls[..|calls| - 1]) + if c.hits == [] then [] else [CallFor(p, core, c.page, c.hits)]
  }

  function CallFor(p: Profile, core: Core, page: nat, hits: seq<Hit>): SyncCall {
    SyncCall(p.id, p.name, p.configVersion, Items(hits), true, core(page, Items(hits)))
  }

  /** The items that core accepted, in the order in which they were sent. */
  function Accepted(sent: seq<SyncCall>): seq<SyncItem> {
    if sent == [] then []
    else
      var last := sent[|sent| - 1];
      Accepted(sent[..|sent| - 1]) + if last.err.None? then last.items else []
  }

  /** The pages whose hits core has in full when a crawl ends: all that were walked, but for one that it refused. */
  function Stored(pages: nat, end: End): nat {
    if end.Refused? && pages > 0 then pages - 1 else pages
  }

  /** Every call carries the profile as it was when the crawl was started. */
  ghost predicate Labelled(sent: seq<SyncCall>, p: Profile) {
    forall i :: 0 <= i < |sent| ==>
      sent[i].id == p.id && sent[i].title == p.name && sent[i].version == p.configVersion && sent[i].appendOnly
  }

  /** The k-th call carries what page k added. */
  ghost predicate PageByPage(f: Fetcher, w: World, cfg: SearcherConfig, sent: seq<SyncCall>) {
    forall k :: 0 <= k < |sent| ==> Carries(f, w, cfg, sent[k], k + 1)
  }

  /** The call carries what the page added. */
  ghost predicate Carries(f: Fetcher, w: World, cfg: SearcherConfig, c: SyncCall, page: nat)
    requires page >= 1
  {
    Fresh(f, w, cfg, page) != [] && c.items == Items(Fresh(f, w, cfg, page))
  }

  /** What a crawl that walked `pages` pages has sent when it ends. */
  ghost predicate SentFits(f: Fetcher, w: World, p: Profile, sent: seq<SyncCall>, pages: nat, end: End) {
    && Labelled(sent, p) && PageByPage(f, w, p.config, sent)
    && pages - 1 <= |sent| <= pages
    && (|sent| == pages <==> pages == 0 || Fresh(f, w, p.config, pages) != [])
    && (forall k :: 0 <= k < |sent| ==> (sent[k].err.Some? <==> end.Refused? && k == pages - 1))
    && Accepted(sent) == Items(Delivered(f, w, p.config, Stored(pages, end)))
  }

  method CrawlSearcher(f: Fetcher, w: World, p: Profile, core: Core)
      returns (total: nat, pages: nat, end: End, sent: seq<SyncCall>)
    ensures Ends(f, w, p.config, OnPage(core), DEFAULT_MAX_PAGES, pages, end)
    ensures total == |Numbers(Listed(f, w, p.config, pages))|
    // Each call carries what its page added; only a last page that added nothing was not sent. All were accepted,
    // but for a last one that ended the crawl by being refused.
    ensures SentFits(f, w, p, sent, pages, end)
  {
    hide Ends, Listed, Delivered, Fresh, Numbers;
    var found, walked, ending, calls, _, _ := FetchPages(f, w, p.config, DEFAULT_MAX_PAGES, OnPage(core));
    total, pages, end := found, walked, ending;
    sent := [];
    for i := 0 to |calls|
      invariant sent == Sent(p, core, calls[..i])
    {
      assert calls[..i + 1][..i] == calls[..i];
      var call := SyncPage(p, core, calls[i].page, calls[i].hits);
      sent := sent + if call.Some? then [call.value] else [];
    }
    assert calls[..|calls|] == calls;
    DeliveredCount(f, w, p.config, pages);
    SentIs(f, w, p, core, pages, end);
  }

  lemma DeliveredCount(f: Fetcher, w: World, cfg: SearcherConfig, n: nat)
    ensures |Delivered(f, w, cfg, n)| == |Numbers(Listed(f, w, cfg, n))|
  {
    FirstOccurrencesCount(Listed(f, w, cfg, n));
  }

  lemma SentStep(f: Fetcher, w: World, p: Profile, core: Core, n: nat)
    requires n > 0
    ensures var hits := Fresh(f, w, p.config, n);
      Sent(p, core, Calls(f, w, p.config, n))
        == Sent(p, core, Calls(f, w, p.config, n - 1)) + if hits == [] then [] else [CallFor(p, core, n, hits)]
  {
    hide Fresh, CallFor;
    var calls := Calls(f, w, p.config, n);
    assert calls[..|calls| - 1] == Calls(f, w, p.config, n - 1);
  }

  /** The first n pages were sent, one call each, and accepted. */
  ghost predicate AllSent(f: Fetcher, w: World, p: Profile, sent: seq<SyncCall>, n: nat) {
    && |sent| == n && Labelled(sent, p) && PageByPage(f, w, p.config, sent)
    && (forall k :: 0 <= k < n ==> sent[k].err.None?)
    && Accepted(sent) == Items(Delivered(f, w, p.config, n))
  }

  lemma NothingSent(f: Fetcher, w: World, p: Profile, core: Core)
    ensures AllSent(f, w, p, Sent(p, core, Calls(f, w, p.config, 0)), 0)
  {
    EmptyStart(f, w, p.config);
    hide Delivered;
  }

  lemma PageByPageAppends(f: Fetcher, w: World, cfg: SearcherConfig, sent: seq<SyncCall>, c: SyncCall)
    requires PageByPage(f, w, cfg, sent)
    requires var hits := Fresh(f, w, cfg, |sent| + 1); hits != [] && c.items == Items(hits)
    ensures PageByPage(f, w, cfg, sent + [c])
  {
    hide Fresh, Items;
    assert Carries(f, w, cfg, c, |sent| + 1);
    var sent' := sent + [c];
    forall k | 0 <= k < |sent'| ensures Carries(f, w, cfg, sent'[k], k + 1) {
      if k < |sent| {
        assert Carries(f, w, cfg, sent[k], k + 1);
      }
    }
  }

  /** The call for one page more. */
  lemma OneMoreCall(f: Fetcher, w: World, p: Profile, core: Core, sent: seq<SyncCall>, n: nat)
    requires n > 0 && AllSent(f, w, p, sent, n - 1) && Fresh(f, w, p.config, n) != []
    ensures var c := CallFor(p, core, n, Fresh(f, w, p.config, n));
      && Labelled(sent + [c], p) && PageByPage(f, w, p.config, sent + [c])
      && (c.err.None? ==> AllSent(f, w, p, sent + [c], n))
      && (c.err.Some? ==> Accepted(sent + [c]) == Accepted(sent))
  {
    hide Delivered, Fresh, Items;
    var hits := Fresh(f, w, p.config, n);
    var c := CallFor(p, core, n, hits);
    assert (sent + [c])[..|sent|] == sent;
    PageByPageAppends(f, w, p.config, sent, c);
    hide PageByPage;
    FreshExtends(f, w, p.config, n);
    ItemsConcat(Delivered(f, w, p.config, n - 1), hits);
  }

  lemma PassedIsAccepted(f: Fetcher, w: World, p: Profile, core: Core, n: nat)
    requires n > 0 && PassedPages(f, w, p.config, OnPage(core), n)
    ensures Fresh(f, w, p.config, n) != [] && CallFor(p, core, n, Fresh(f, w, p.config, n)).err.None?
    ensures PassedPages(f, w, p.config, OnPage(core), n - 1)
  {
    hide Fresh, PageResult;
    assert PassedPage(f, w, p.config, OnPage(core), n);
  }

  lemma {:induction false} PassedPagesAreSent(f: Fetcher, w: World, p: Profile, core: Core, n: nat)
    requires PassedPages(f, w, p.config, OnPage(core), n)
    ensures AllSent(f, w, p, Sent(p, core, Calls(f, w, p.config, n)), n)
  {
    hide *;
    if n == 0 {
      NothingSent(f, w, p, core);
    } else {
      PassedIsAccepted(f, w, p, core, n);
      PassedPagesAreSent(f, w, p, core, n - 1);
      SentStep(f, w, p, core, n);
      OneMoreCall(f, w, p, core, Sent(p, core, Calls(f, w, p.config, n - 1)), n);
    }
  }

  lemma ItemsConcat(a: seq<Hit>, b: seq<Hit>)
    ensures Items(a + b) == Items(a) + Items(b)
  {
  }

  lemma LastPage(f: Fetcher, w: World, p: Profile, core: Core, pages: nat, end: End)
    requires Ends(f, w, p.config, OnPage(core), DEFAULT_MAX_PAGES, pages, end)
    ensures end.Interrupted? ==> PassedPages(f, w, p.config, OnPage(core), pages)
    ensures !end.Interrupted? ==> pages > 0 && PassedPages(f, w, p.config, OnPage(core), pages - 1)
    ensures end.Completed? && Fresh(f, w, p.config, pages) != [] ==>
      CallFor(p, core, pages, Fresh(f, w, p.config, pages)).err.None?
    ensures end.Refused? ==>
      Fresh(f, w, p.config, pages) != [] && CallFor(p, core, pages, Fresh(f, w, p.config, pages)).err.Some?
  {
    hide Fresh, PageResult, Items;
  }

  lemma AllSentFits(f: Fetcher, w: World, p: Profile, core: Core, sent: seq<SyncCall>, pages: nat, end: End)
    requires AllSent(f, w, p, sent, pages) && !end.Refused?
    ensures pages == 0 || Fresh(f, w, p.config, pages) != [] ==> SentFits(f, w, p, sent, pages, end)
  {
    hide Delivered, Fresh, Items;
  }

  lemma NoNewsFits(f: Fetcher, w: World, p: Profile, sent: seq<SyncCall>, pages: nat)
    requires pages > 0 && AllSent(f, w, p, sent, pages - 1) && Fresh(f, w, p.config, pages) == []
    ensures SentFits(f, w, p, sent, pages, Completed)
  {
    hide *;
    AllSentSays(f, w, p, sent, pages - 1);
    NothingFresh(f, w, p.config, pages);
    UnsentFits(f, w, p, sent, pages);
  }

  lemma NothingFresh(f: Fetcher, w: World, cfg: SearcherConfig, page: nat)
    requires page > 0 && Fresh(f, w, cfg, page) == []
    ensures Delivered(f, w, cfg, page) == Delivered(f, w, cfg, page - 1)
  {
    hide Delivered, Fresh;
    FreshExtends(f, w, cfg, page);
  }

  lemma UnsentFits(f: Fetcher, w: World, p: Profile, sent: seq<SyncCall>, pages: nat)
    requires pages > 0 && |sent| == pages - 1 && Labelled(sent, p) && PageByPage(f, w, p.config, sent)
    requires forall k :: 0 <= k < |sent| ==> sent[k].err.None?
    requires Fresh(f, w, p.config, pages) == [] && Accepted(sent) == Items(Delivered(f, w, p.config, pages))
    ensures SentFits(f, w, p, sent, pages, Completed)
  {
    hide Delivered, Fresh, Items, Accepted, PageByPage, Labelled;
  }

  lemma RefusedFits(f: Fetcher, w: World, p: Profile, core: Core, sent: seq<SyncCall>, pages: nat, end: End)
    requires pages > 0 && AllSent(f, w, p, sent, pages - 1) && end.Refused?
    requires Fresh(f, w, p.config, pages) != [] && CallFor(p, core, pages, Fresh(f, w, p.config, pages)).err.Some?
    ensures SentFits(f, w, p, sent + [CallFor(p, core, pages, Fresh(f, w, p.config, pages))], pages, end)
  {
    hide *;
    OneMoreCall(f, w, p, core, sent, pages);
    OneMoreRefused(p, core, sent, pages, Fresh(f, w, p.config, pages));
    AllSentSays(f, w, p, sent, pages - 1);
    LastRefusedFits(f, w, p, sent + [CallFor(p, core, pages, Fresh(f, w, p.config, pages))], pages, end);
  }

  lemma OneMoreRefused(p: Profile, core: Core, sent: seq<SyncCall>, page: nat, hits: seq<Hit>)
    ensures var sent' := sent + [CallFor(p, core, page, hits)];
      |sent'| == |sent| + 1 && sent'[|sent|] == CallFor(p, core, page, hits)
  {
    hide CallFor;
  }

  lemma AllSentSays(f: Fetcher, w: World, p: Profile, sent: seq<SyncCall>, n: nat)
    requires AllSent(f, w, p, sent, n)
    ensures |sent| == n && (forall k :: 0 <= k < n ==> sent[k].err.None?)
    ensures Accepted(sent) == Items(Delivered(f, w, p.config, n))
    ensures Labelled(sent, p) && PageByPage(f, w, p.config, sent)
  {
    hide Delivered, Items, Accepted, PageByPage, Labelled;
  }

  lemma LastRefusedFits(f: Fetcher, w: World, p: Profile, sent: seq<SyncCall>, pages: nat, end: End)
    requires pages > 0 && |sent| == pages && Labelled(sent, p) && PageByPage(f, w, p.config, sent) && end.Refused?
    requires forall k :: 0 <= k < pages - 1 ==> sent[k].err.None?
    requires sent[pages - 1].err.Some? && Fresh(f, w, p.config, pages) != []
    requires Accepted(sent) == Items(Delivered(f, w, p.config, pages - 1))
    ensures SentFits(f, w, p, sent, pages, end)
  {
    hide Delivered, Fresh, Items, Accepted, PageByPage, Labelled;
  }

  lemma SentIs(f: Fetcher, w: World, p: Profile, core: Core, pages: nat, end: End)
    requires Ends(f, w, p.config, OnPage(core), DEFAULT_MAX_PAGES, pages, end)
    ensures SentFits(f, w, p, Sent(p, core, Calls(f, w, p.config, pages)), pages, end)
  {
    hide *;
    var sent := Sent(p, core, Calls(f, w, p.config, pages));
    LastPage(f, w, p, core, pages, end);
    if end.Interrupted? {
      PassedPagesAreSent(f, w, p, core, pages);
      AllSentFits(f, w, p, core, sent, pages, end);
      if pages > 0 {
        PassedIsAccepted(f, w, p, core, pages);
      }
    } else {
      PassedPagesAreSent(f, w, p, core, pages - 1);
      SentStep(f, w, p, core, pages);
      var before := Sent(p, core, Calls(f, w, p.config, pages - 1));
      if Fresh(f, w, p.config, pages) == [] {
        assert sent == before;
        NoNewsFits(f, w, p, before, pages);
      } else if end.Refused? {
        RefusedFits(f, w, p, core, before, pages, end);
      } else {
        OneMoreCall(f, w, p, core, before, pages);
        AllSentFits(f, w, p, core, sent, pages, end);
      }
    }
  }

  /** In all that a crawl sends, no registration number occurs twice. */
  lemma SentNumbersAreDistinct(f: Fetcher, w: World, p: Profile, core: Core, sent: seq<SyncCall>,
                               a: nat, b: nat, i: nat, j: nat)
    requires PageByPage(f, w, p.config, sent) && a <= b < |sent|
    requires i < |sent[a].items| && j < |sent[b].items| && (a < b || i != j)
    ensures sent[a].items[i].regNumber != sent[b].items[j].regNumber
  {
    hide Fresh;
    assert Carries(f, w, p.config, sent[a], a + 1) && Carries(f, w, p.config, sent[b], b + 1);
    BatchesAreDistinct(f, w, p.config, a + 1, b + 1, i, j);
  }
}
