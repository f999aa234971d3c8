/** A site that renders its pages: what Listing asks of a site, a site can do, whatever its list. */
module RenderedSite {
  import opened Wrappers
  import opened Text
  import opened LinkScanner
  import opened EisConfig
  import opened SearcherConfigs
  import opened UrlValues
  import opened Hits
  import opened HitParser
  import opened Crawl
  import opened Listing
  import opened Rendering
  import Escaping

  /** Every entry can be rendered and cut out of its page again. */
  ghost predicate Renderable(entries: seq<Entry>) {
    forall e :: e in entries ==> Renders(e) && Separable(BlockOf(e), SEPARATOR)
  }

  function PageText(entries: seq<Entry>): string {
    Join([""] + Blocks(entries), SEPARATOR)
  }

  /** The page of a list that a query asks for. */
  function PageEntries(entries: seq<Entry>, q: Values): (page: seq<Entry>)
    ensures forall e :: e in page ==> e in entries
  {
    var from := Offset(RowsPerPage(q), PageNumber(q));
    entries[Min(from, |entries|)..Min(from + RowsPerPage(q), |entries|)]
  }

  /** A site that renders the list of the moment, for a crawl that nobody cancels. */
  function SiteWorld(listing: nat -> seq<Entry>): World {
    World((page: nat) => false, (page: nat) => false, (page: nat, attempt: nat) => false,
          (page: nat, attempt: nat, q: Values) => Response(200, PageText(PageEntries(listing(page), q))))
  }

  function HitListing(listing: nat -> seq<Entry>, base: string): nat -> seq<Hit> {
    (k: nat) => EntryHits(listing(k), base)
  }

  lemma NoEntriesNoHits(base: string)
    ensures PageHits(PageText([]), base) == []
  {
    assert PageText([]) == "";
    assert Split("", SEPARATOR) == [""];
    assert Find("") == None;
    assert FindAll("") == [];
  }

  lemma NothingBeforeTheFirst()
    ensures Separable("", SEPARATOR)
  {
    assert "" + SEPARATOR == SEPARATOR;
    assert SEPARATOR[..|SEPARATOR|] == SEPARATOR;
  }

  lemma PageTextIsRead(entries: seq<Entry>, base: string)
    requires Renderable(entries)
    ensures PageHits(PageText(entries), base) == EntryHits(entries, base)
  {
    if entries == [] {
      NoEntriesNoHits(base);
    } else {
      hide Renders, Separable, PageHits, Join, EntryHit, BlockOf;
      NothingBeforeTheFirst();
      RenderedPageIsRead("", entries, base);
    }
  }

  lemma PageOfHits(entries: seq<Entry>, q: Values, base: string)
    ensures EntryHits(PageEntries(entries, q), base) == Served(EntryHits(entries, base), q)
  {
    hide EntryHit, RowsPerPage, PageNumber, Offset;
  }

  lemma OnePageIsServed(f: Fetcher, cfg: SearcherConfig, listing: nat -> seq<Entry>, k: nat, i: nat)
    requires Renderable(listing(k))
    ensures var got := Get(SiteWorld(listing), k, i, PageQuery(cfg, k));
      && got.Success?
      && PageHits(got.value, f.baseURL) == Served(EntryHits(listing(k), f.baseURL), PageQuery(cfg, k))
  {
    var q := PageQuery(cfg, k);
    var page := PageEntries(listing(k), q);
    PageIsRenderable(listing(k), q);
    PageTextIsRead(page, f.baseURL);
    PageOfHits(listing(k), q, f.baseURL);
    hide PageQuery, PageHits, PageText, PageEntries, Served, EntryHits;
  }

  lemma PageIsRenderable(entries: seq<Entry>, q: Values)
    requires Renderable(entries)
    ensures Renderable(PageEntries(entries, q))
  {
    hide Renders, Separable, BlockOf, RowsPerPage, PageNumber, Offset;
  }

  /** For any filters and any list of renderable entries, however it changes, there is a site that serves it. */
  lemma ASiteCanServe(f: Fetcher, cfg: SearcherConfig, listing: nat -> seq<Entry>, limit: nat)
    requires forall k: nat :: Renderable(listing(k))
    ensures SiteServes(f, SiteWorld(listing), cfg, HitListing(listing, f.baseURL), limit)
  {
    hide Renderable, PageQuery, PageHits, SiteWorld, Get, Served, EntryHits;
    forall k: nat, i: nat ensures
      var got := Get(SiteWorld(listing), k, i, PageQuery(cfg, k));
      got.Success? && PageHits(got.value, f.baseURL) == Served(EntryHits(listing(k), f.baseURL), PageQuery(cfg, k))
    {
      OnePageIsServed(f, cfg, listing, k, i);
    }
  }

  lemma SitePageIsFetched(f: Fetcher, cfg: SearcherConfig, listing: nat -> seq<Entry>, k: nat)
    ensures PageResult(f, SiteWorld(listing), cfg, k).Success?
  {
    hide PageQuery, PageText, PageEntries, HitParser.PageHits;
  }

  lemma SiteCrawlCompletes(f: Fetcher, cfg: SearcherConfig, listing: nat -> seq<Entry>, limit: nat,
                           pages: nat, end: End)
    requires Ends(f, SiteWorld(listing), cfg, None, limit, pages, end)
    ensures end.Completed?
  {
    SitePageIsFetched(f, cfg, listing, pages + 1);
    hide PageResult, Fresh, SiteWorld;
  }

  /** From page text to delivery: whatever entries a site renders while its list grows slowly, every crawl of it
      that nobody cancels completes and delivers the first list. */
  lemma RenderedListIsDelivered(f: Fetcher, cfg: SearcherConfig, listing: nat -> seq<Entry>, limit: nat,
                                pages: nat, end: End)
    requires limit <= DEFAULT_MAX_PAGES && Ends(f, SiteWorld(listing), cfg, None, limit, pages, end)
    requires forall k: nat :: Renderable(listing(k))
    requires var hits := HitListing(listing, f.baseURL); GrowsSlowly(hits, limit) && Distinct(hits(1))
    ensures var hits := HitListing(listing, f.baseURL);
      && end.Completed?
      && limit + PAGE_ROWS - 1 <= Covered(hits, limit)
      && Delivered(f, SiteWorld(listing), cfg, pages) == Head(hits(1), Covered(hits, limit))
      && (Delivered(f, SiteWorld(listing), cfg, pages) == hits(1) <==> |hits(1)| <= Covered(hits, limit))
  {
    hide *;
    ASiteCanServe(f, cfg, listing, limit);
    SiteCrawlCompletes(f, cfg, listing, limit, pages, end);
    SlowGrowthIsHarmless(f, SiteWorld(listing), cfg, None, HitListing(listing, f.baseURL), limit, pages);
  }

  /** ... and however fast the list grows, it delivers the first list exactly if its pages cover that in time. */
  lemma RenderedListUnderChurn(f: Fetcher, cfg: SearcherConfig, listing: nat -> seq<Entry>, limit: nat,
                               pages: nat, end: End)
    requires limit <= DEFAULT_MAX_PAGES && Ends(f, SiteWorld(listing), cfg, None, limit, pages, end)
    requires forall k: nat :: Renderable(listing(k))
    requires GrowsAtHead(HitListing(listing, f.baseURL), limit)
    requires forall k: nat :: 1 <= k <= limit ==> Distinct(HitListing(listing, f.baseURL)(k))
    ensures var hits := HitListing(listing, f.baseURL);
      && end.Completed?
      && (Delivered(f, SiteWorld(listing), cfg, pages) == hits(1) <==> exists n: nat :: CoversInTime(hits, limit, n))
  {
    hide *;
    ASiteCanServe(f, cfg, listing, limit);
    SiteCrawlCompletes(f, cfg, listing, limit, pages, end);
    CompleteUnderChurn(f, SiteWorld(listing), cfg, None, HitListing(listing, f.baseURL), limit, pages);
  }

  // ---- Entries like those of the service's own tests -------------------------------------------------------

  lemma FreeOfBoth(a: string, b: string, c: char)
    ensures c !in a + b <==> c !in a && c !in b
  {
    if c in a {
      var i :| 0 <= i < |a| && a[i] == c;
      assert (a + b)[i] == c;
    }
    if c in b {
      var i :| 0 <= i < |b| && b[i] == c;
      assert (a + b)[|a| + i] == c;
    }
  }

  lemma FreeOfAll(before: string, link: string, after: string, c: char)
    requires c !in before && c !in HREF && c !in link && c != '"' && c !in after
    ensures c !in before + (HREF + (link + ("\"" + after)))
  {
    FreeOfBoth("\"", after, c);
    FreeOfBoth(link, "\"" + after, c);
    FreeOfBoth(HREF, link + ("\"" + after), c);
    FreeOfBoth(before, HREF + (link + ("\"" + after)), c);
  }

  lemma SimpleLink(path: string, reg: string)
    requires Plain(path) && AllDigits(reg) && 's' !in path
    ensures Escaping.Escape(Link(path, reg)) == path + (KEY + reg) && 's' !in path + (KEY + reg)
  {
    LinkEscaped(path, reg);
    PlainIsKept(path);
    FreeOfBoth(KEY, reg, 's');
    FreeOfBoth(path, KEY + reg, 's');
  }

  lemma FreeIsSeparable(block: string)
    requires 's' !in block
    ensures Separable(block, SEPARATOR)
  {
    IndexAfter(block, SEPARATOR, "");
    assert block + SEPARATOR + "" == block + SEPARATOR;
    hide Index;
  }

  lemma HrefStartsWithH(s: string, i: nat)
    requires FoldedAt(s, i, HREF)
    ensures s[i] == 'h' || s[i] == 'H'
  {
    assert Fold(s[i + 0]) == HREF[0];
  }

  lemma NoHrefWithoutH(before: string, rest: string, i: nat)
    requires 'h' !in before && 'H' !in before && i < |before|
    ensures !FoldedAt(before + rest, i, HREF)
  {
    assert (before + rest)[i] == before[i];
    hide Fold;
    if FoldedAt(before + rest, i, HREF) {
      HrefStartsWithH(before + rest, i);
    }
  }

  /** Whatever holds no s, and no h before its link, is renderable. */
  lemma SimpleEntryRenders(e: Entry)
    requires WellFormedNumber(e.reg) && HasPrefix(e.path, "/") && Plain(e.path)
    requires 's' !in e.before && 's' !in e.path && 's' !in e.after && 'h' !in e.before && 'H' !in e.before
    ensures Renders(e) && Separable(BlockOf(e), SEPARATOR)
  {
    var link := e.path + (KEY + e.reg);
    SimpleLink(e.path, e.reg);
    FreeOfAll(e.before, link, e.after, 's');
    FreeIsSeparable(BlockOf(e));
    hide Separable, Escaping.Escape, WellFormedNumber, FoldedAt;
    forall i: nat | i < |e.before| ensures !FoldedAt(BlockOf(e), i, HREF) {
      NoHrefWithoutH(e.before, HREF + (link + ("\"" + e.after)), i);
    }
  }
}
