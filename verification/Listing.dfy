/** A crawl of a result list that grows at its head while it is being read. */
module Listing {
  import opened Wrappers
  import opened Text
  import opened EisConfig
  import opened SearcherConfigs
  import opened UrlValues
  import opened Hits
  import opened Crawl
  import HitParser

  // ---- The site --------------------------------------------------------------------------------

  const PAGE_ROWS := 50

  function NumberOr(s: string, unusable: nat): nat {
    match Atoi(s)
    case Some(n) => if n > 0 then n else unusable
    case None => unusable
  }

  /** The rows a page that a query asks for; the site shows ten where the parameter says nothing usable. */
  function RowsPerPage(q: Values): nat {
    match At(q, "recordsPerPage")
    case Some(Words(s)) => NumberOr(TrimPrefix(s, "_"), 10)
    case _ => 10
  }

  function PageNumber(q: Values): (n: nat)
    ensures n >= 1
  {
    match At(q, "pageNumber")
    case Some(Words(s)) => NumberOr(s, 1)
    case _ => 1
  }

  function Min(a: nat, b: nat): nat {
    if a <= b then a else b
  }

  /** So many entries of a list from a position on, as far as the list reaches. */
  function Window(listing: seq<Hit>, from: nat, rows: nat): seq<Hit> {
    listing[Min(from, |listing|)..Min(from + rows, |listing|)]
  }

  /** The first n entries of a list, as far as it reaches. */
  function Head(list: seq<Hit>, n: int): seq<Hit> {
    if n <= 0 then [] else list[..Min(|list|, n)]
  }

  /** The rows of so many pages. */
  function Rows(pages: int): int {
    50 * pages
  }

  /** The rows that stand before a page. */
  function Offset(rows: nat, page: nat): nat
    requires page >= 1
  {
    if page == 1 then 0 else Offset(rows, page - 1) + rows
  }

  lemma {:induction false} OffsetIs(page: nat)
    requires page >= 1
    ensures Offset(PAGE_ROWS, page) == Rows(page - 1)
    decreases page
  {
    if page > 1 {
      OffsetIs(page - 1);
    }
  }

  /** The page of a list that a query asks for. */
  function Served(listing: seq<Hit>, q: Values): seq<Hit> {
    Window(listing, Offset(RowsPerPage(q), PageNumber(q)), RowsPerPage(q))
  }

  /** Whenever a GET for page k succeeds, the page shows the part of the list of that moment that was asked for. */
  ghost predicate SiteServes(f: Fetcher, w: World, cfg: SearcherConfig, listing: nat -> seq<Hit>, limit: nat) {
    forall k, i :: 1 <= k <= limit && 0 <= i < PAGE_FETCH_RETRIES ==>
      match Get(w, k, i, PageQuery(cfg, k))
      case Success(body) => HitParser.PageHits(body, f.baseURL) == Served(listing(k), PageQuery(cfg, k))
      case Failure(_) => true
  }

  /** The list got new entries at its head and changed nowhere else. */
  predicate OnlyHeadGrows(prev: seq<Hit>, now: seq<Hit>) {
    |prev| <= |now| && now[|now| - |prev|..] == prev
  }

  /** Between the fetches of pages k and k + 1, the list only gets new entries at its head. */
  ghost predicate HeadStep(listing: nat -> seq<Hit>, k: nat) {
    OnlyHeadGrows(listing(k), listing(k + 1))
  }

  /** Fewer than a page of them. */
  ghost predicate SlowStep(listing: nat -> seq<Hit>, k: nat) {
    HeadStep(listing, k) && |listing(k + 1)| < |listing(k)| + PAGE_ROWS
  }

  ghost predicate GrowsAtHead(listing: nat -> seq<Hit>, limit: nat) {
    forall k: nat :: 1 <= k < limit ==> HeadStep(listing, k)
  }

  ghost predicate GrowsSlowly(listing: nat -> seq<Hit>, limit: nat) {
    forall k: nat :: 1 <= k < limit ==> SlowStep(listing, k)
  }

  /** The entries that the list got before page k was fetched. */
  ghost function Inserted(listing: nat -> seq<Hit>, k: nat): int {
    |listing(k)| - |listing(1)|
  }

  /** The position of the first list up to which pages 1 to k have shown it, if it is that long. */
  ghost function Covered(listing: nat -> seq<Hit>, k: nat): int {
    if k == 0 then 0 else Rows(k) - Inserted(listing, k)
  }

  // ---- What the crawl asks for ------------------------------------------------------------------

  lemma FiftyRows()
    ensures Atoi(TrimPrefix(PAGE_SIZE_PARAM, "_")) == Some(PAGE_ROWS)
  {
    assert "_50"[1..] == "50" && "50"[..1] == "5" && "5"[..0] == "";
    assert DigitsValue("5") == 5;
    assert DigitsValue("50") == 50;
  }

  /** Whatever page size the configuration holds, page k is asked for with 50 rows. */
  lemma PageQueryAsksFor(cfg: SearcherConfig, k: nat)
    requires 1 <= k <= DEFAULT_MAX_PAGES
    ensures RowsPerPage(PageQuery(cfg, k)) == PAGE_ROWS
    ensures PageNumber(PageQuery(cfg, k)) == k
  {
    hide ValuesOf, SearcherQuery, Atoi, Itoa, TrimPrefix;
    AtoiItoa(k);
    FiftyRows();
  }

  lemma {:induction false} RetriedIsSomeGet(w: World, page: nat, q: Values, i: nat, last: FetchError)
    requires Retried(w, page, q, i, last).Success?
    ensures exists j :: i <= j < PAGE_FETCH_RETRIES && Get(w, page, j, q) == Retried(w, page, q, i, last)
    decreases PAGE_FETCH_RETRIES - i
  {
    if Get(w, page, i, q).Failure? {
      RetriedIsSomeGet(w, page, q, i + 1, Get(w, page, i, q).error);
    }
  }

  lemma HitsOnServedPage(f: Fetcher, w: World, cfg: SearcherConfig, listing: nat -> seq<Hit>, limit: nat, k: nat)
    requires SiteServes(f, w, cfg, listing, limit) && 1 <= k <= limit <= DEFAULT_MAX_PAGES
    requires PageResult(f, w, cfg, k).Success?
    ensures HitsOn(f, w, cfg, k) == Window(listing(k), Rows(k - 1), PAGE_ROWS)
  {
    var q := PageQuery(cfg, k);
    PageQueryAsksFor(cfg, k);
    OffsetIs(k);
    hide PageQuery, RowsPerPage, PageNumber, Get;
    RetriedIsSomeGet(w, k, q, 0, Cancelled);
    var j :| 0 <= j < PAGE_FETCH_RETRIES && Get(w, k, j, q) == Retried(w, k, q, 0, Cancelled);
  }

  lemma ServesFewer(f: Fetcher, w: World, cfg: SearcherConfig, listing: nat -> seq<Hit>, limit: nat, n: nat)
    requires SiteServes(f, w, cfg, listing, limit) && n <= limit
    ensures SiteServes(f, w, cfg, listing, n)
  {
  }

  // ---- Growth, in positions of the first list -------------------------------------------------------

  lemma HeadGrows(listing: nat -> seq<Hit>, limit: nat, k: nat)
    requires GrowsAtHead(listing, limit) && 1 <= k < limit
    ensures OnlyHeadGrows(listing(k), listing(k + 1)) && Inserted(listing, k) <= Inserted(listing, k + 1)
  {
    assert HeadStep(listing, k);
  }

  lemma GrowsByLess(listing: nat -> seq<Hit>, limit: nat, k: nat)
    requires GrowsSlowly(listing, limit) && 1 <= k < limit
    ensures Inserted(listing, k + 1) < Inserted(listing, k) + PAGE_ROWS
  {
    assert SlowStep(listing, k);
  }

  lemma SlowIsAtHead(listing: nat -> seq<Hit>, limit: nat, n: nat)
    requires GrowsSlowly(listing, limit) && n <= limit
    ensures GrowsAtHead(listing, limit) && GrowsSlowly(listing, n)
  {
    forall k: nat | 1 <= k < limit ensures HeadStep(listing, k) {
      assert SlowStep(listing, k);
    }
  }

  lemma TailOfTail(prev: seq<Hit>, now: seq<Hit>, first: seq<Hit>)
    requires OnlyHeadGrows(prev, now) && OnlyHeadGrows(first, prev)
    ensures OnlyHeadGrows(first, now)
  {
    var a, b := |now| - |prev|, |prev| - |first|;
    assert now[a..][b..] == now[a + b..];
  }

  /** Every later list ends in the first one. */
  lemma {:induction false} ListingKeepsTail(listing: nat -> seq<Hit>, limit: nat, k: nat)
    requires GrowsAtHead(listing, limit) && 1 <= k <= limit
    ensures OnlyHeadGrows(listing(1), listing(k)) && Inserted(listing, k) >= 0
    decreases k
  {
    if k > 1 {
      hide GrowsAtHead;
      ListingKeepsTail(listing, limit, k - 1);
      HeadGrows(listing, limit, k - 1);
      TailOfTail(listing(k - 1), listing(k), listing(1));
    }
  }

  lemma WindowBehindHead(first: seq<Hit>, now: seq<Hit>, from: nat, rows: nat)
    requires OnlyHeadGrows(first, now) && |now| - |first| <= from
    ensures Window(now, from, rows) == Window(first, from - (|now| - |first|), rows)
  {
    var d := |now| - |first|;
    assert forall i :: 0 <= i < |first| ==> first[i] == now[d..][i] == now[d + i];
  }

  /** Page k shows a part of the first list only, if no more than the rows before it were inserted. */
  lemma PageShowsFirstList(listing: nat -> seq<Hit>, limit: nat, k: nat)
    requires GrowsAtHead(listing, limit) && 1 <= k <= limit && Inserted(listing, k) <= Rows(k - 1)
    ensures Window(listing(k), Rows(k - 1), PAGE_ROWS)
         == Window(listing(1), Rows(k - 1) - Inserted(listing, k), PAGE_ROWS)
  {
    ListingKeepsTail(listing, limit, k);
    hide GrowsAtHead, OnlyHeadGrows, Window;
    WindowBehindHead(listing(1), listing(k), Rows(k - 1), PAGE_ROWS);
  }

  lemma CutWindow(before: seq<Hit>, first: seq<Hit>, a: nat, e: nat, b: nat)
    requires a <= e <= b <= |first|
    ensures before + first[a..b] == (before + first[a..e]) + first[e..b]
    ensures first[..e] + first[e..b] == first[..b]
  {
    assert first[a..b] == first[a..e] + first[e..b];
  }

  lemma PartsOfDistinct(first: seq<Hit>, a: nat, e: nat, b: nat)
    requires Distinct(first) && a <= e <= b <= |first|
    ensures Numbers(first[a..e]) <= Numbers(first[..e])
    ensures Distinct(first[e..b]) && Numbers(first[..e]) !! Numbers(first[e..b])
  {
    forall n | n in Numbers(first[a..e]) ensures n in Numbers(first[..e]) {
      var i :| 0 <= i < |first[a..e]| && first[a..e][i].regNumber == n;
      assert first[..e][a + i] == first[a..e][i];
    }
    forall n | n in Numbers(first[..e]) ensures n !in Numbers(first[e..b]) {
      var i :| 0 <= i < |first[..e]| && first[..e][i].regNumber == n;
      assert forall j :: 0 <= j < |first[e..b]| ==> first[e..b][j] == first[e + j];
    }
  }

  /** A window that begins no later than where the delivered part ends and reaches further extends it without
      gap or repetition. */
  lemma WindowExtends(first: seq<Hit>, before: seq<Hit>, e: nat, a: nat, b: nat)
    requires Distinct(first) && a <= e <= b <= |first|
    requires FirstOccurrences(before) == first[..e]
    ensures FirstOccurrences(before + first[a..b]) == first[..b]
  {
    hide *;
    FirstOccurrencesKeepNumbers(before);
    PartsOfDistinct(first, a, e, b);
    NumbersConcat(before, first[a..e]);
    SeenHitsAddNothing(before, first[a..e]);
    DistinctHitsAllKept(before + first[a..e], first[e..b]);
    CutWindow(before, first, a, e, b);
  }

  /** The same for a window of the crawl: it starts at or before `hi` and reaches beyond it. */
  lemma PageExtends(first: seq<Hit>, before: seq<Hit>, from: nat, hi: nat)
    requires Distinct(first) && from <= hi <= from + PAGE_ROWS
    requires FirstOccurrences(before) == Head(first, hi)
    ensures FirstOccurrences(before + Window(first, from, PAGE_ROWS)) == Head(first, from + PAGE_ROWS)
  {
    hide FirstOccurrences, Distinct;
    assert first[..0] == [];
    WindowExtends(first, before, Min(|first|, hi), Min(from, |first|), Min(from + PAGE_ROWS, |first|));
  }

  // ---- What pages deliver while the list grows slowly ------------------------------------------------

  /** Each page costs fewer insertions than it has rows. */
  lemma {:induction false} InsertedGrowsSlowly(listing: nat -> seq<Hit>, limit: nat, a: nat, b: nat)
    requires GrowsSlowly(listing, limit) && 1 <= a <= b <= limit
    ensures 0 <= Inserted(listing, b) - Inserted(listing, a) <= Rows(b - a) - (b - a)
    decreases b
  {
    if a < b {
      SlowIsAtHead(listing, limit, limit);
      hide GrowsSlowly, GrowsAtHead, OnlyHeadGrows, Inserted;
      InsertedGrowsSlowly(listing, limit, a, b - 1);
      HeadGrows(listing, limit, b - 1);
      GrowsByLess(listing, limit, b - 1);
    }
  }

  /** Each page begins at or before where the previous one ended, and ends behind it. */
  lemma CoveredStep(listing: nat -> seq<Hit>, limit: nat, k: nat)
    requires GrowsSlowly(listing, limit) && 1 <= k <= limit
    ensures Inserted(listing, 1) == 0 <= Inserted(listing, k) <= Rows(k - 1)
    ensures k - 1 <= Covered(listing, k) - PAGE_ROWS <= Covered(listing, k - 1) < Covered(listing, k)
    ensures Covered(listing, k) - PAGE_ROWS == Rows(k - 1) - Inserted(listing, k)
  {
    hide GrowsSlowly;
    InsertedGrowsSlowly(listing, limit, 1, k);
    if k > 1 {
      InsertedGrowsSlowly(listing, limit, k - 1, k);
    }
  }

  lemma {:induction false} CoveredGrows(listing: nat -> seq<Hit>, limit: nat, a: nat, b: nat)
    requires GrowsSlowly(listing, limit) && a <= b <= limit
    ensures 0 <= Covered(listing, a) <= Covered(listing, b)
    decreases b
  {
    hide Inserted, GrowsSlowly, Covered, Rows;
    NothingCovered(listing);
    if a < b {
      CoveredStep(listing, limit, b);
      CoveredGrows(listing, limit, a, b - 1);
    } else if a > 0 {
      CoveredGrows(listing, limit, a - 1, a - 1);
      CoveredStep(listing, limit, a);
    }
  }

  lemma NothingCovered(listing: nat -> seq<Hit>)
    ensures Covered(listing, 0) == 0
  {
  }

  lemma ListedStep(f: Fetcher, w: World, cfg: SearcherConfig, k: nat)
    requires k >= 1
    ensures Delivered(f, w, cfg, k) == FirstOccurrences(Listed(f, w, cfg, k - 1) + HitsOn(f, w, cfg, k))
    ensures Delivered(f, w, cfg, k - 1) == FirstOccurrences(Listed(f, w, cfg, k - 1))
  {
  }

  ghost predicate AllFetched(f: Fetcher, w: World, cfg: SearcherConfig, n: nat) {
    forall p :: 1 <= p <= n ==> PageResult(f, w, cfg, p).Success?
  }

  lemma FetchedBefore(f: Fetcher, w: World, cfg: SearcherConfig, n: nat, k: nat)
    requires AllFetched(f, w, cfg, n) && k <= n
    ensures AllFetched(f, w, cfg, k)
    ensures n >= 1 ==> PageResult(f, w, cfg, n).Success?
    ensures k >= 1 ==> PageResult(f, w, cfg, k).Success?
  {
    hide PageResult;
  }

  lemma PrefixOfNothing(f: Fetcher, w: World, cfg: SearcherConfig, listing: nat -> seq<Hit>)
    ensures Delivered(f, w, cfg, 0) == Head(listing(1), Covered(listing, 0))
  {
  }

  /** As long as the list has grown slowly, k pages deliver what they have covered of the first list, and nothing
      else. */
  lemma {:induction false} DeliveredIsPrefix(f: Fetcher, w: World, cfg: SearcherConfig, listing: nat -> seq<Hit>,
                                             limit: nat, k: nat)
    requires SiteServes(f, w, cfg, listing, limit) && GrowsSlowly(listing, limit) && limit <= DEFAULT_MAX_PAGES
    requires Distinct(listing(1)) && k <= limit && AllFetched(f, w, cfg, k)
    ensures Delivered(f, w, cfg, k) == Head(listing(1), Covered(listing, k))
    decreases k
  {
    hide *;
    if k == 0 {
      PrefixOfNothing(f, w, cfg, listing);
    } else {
      FetchedBefore(f, w, cfg, k, k - 1);
      DeliveredIsPrefix(f, w, cfg, listing, limit, k - 1);
      SlowIsAtHead(listing, limit, limit);
      CoveredStep(listing, limit, k);
      CoveredGrows(listing, limit, k - 1, k);
      HitsOnServedPage(f, w, cfg, listing, limit, k);
      PageShowsFirstList(listing, limit, k);
      ListedStep(f, w, cfg, k);
      FiftyIs();
      PageExtends(listing(1), Listed(f, w, cfg, k - 1), Covered(listing, k) - PAGE_ROWS, Covered(listing, k - 1));
    }
  }

  lemma FiftyIs()
    ensures PAGE_ROWS == 50
  {
  }

  lemma FetchedUpToTheEnd(f: Fetcher, w: World, cfg: SearcherConfig, onPage: Callback, limit: nat, pages: nat)
    requires Ends(f, w, cfg, onPage, limit, pages, Completed)
    ensures 1 <= pages <= limit && AllFetched(f, w, cfg, pages) && AllFetched(f, w, cfg, pages - 1)
    ensures pages < limit ==> Delivered(f, w, cfg, pages) == Delivered(f, w, cfg, pages - 1)
  {
    hide PageResult, Delivered, Fresh;
    FreshExtends(f, w, cfg, pages);
    forall p | 1 <= p <= pages ensures PageResult(f, w, cfg, p).Success? {
      assert p < pages ==> PassedPage(f, w, cfg, onPage, p);
    }
  }

  lemma HeadLengths(s: seq<Hit>, a: int, b: int)
    requires 0 <= a < b
    ensures Head(s, a) == Head(s, b) <==> |s| <= a
    ensures Head(s, a) == s <==> |s| <= a
  {
    assert |Head(s, a)| == Min(|s|, a) && |Head(s, b)| == Min(|s|, b);
  }

  lemma HeadIsAll(s: seq<Hit>, a: int)
    ensures 0 <= a ==> (Head(s, a) == s <==> |s| <= a)
  {
    assert 0 <= a ==> |Head(s, a)| == Min(|s|, a);
  }

  /** Where an error-free crawl stops within n pages of slow growth: at the page limit, or at the first page that
      begins behind the first list. */
  lemma StopsBehindTheList(f: Fetcher, w: World, cfg: SearcherConfig, onPage: Callback, listing: nat -> seq<Hit>,
                           limit: nat, pages: nat, n: nat)
    requires limit <= DEFAULT_MAX_PAGES && Ends(f, w, cfg, onPage, limit, pages, Completed)
    requires SiteServes(f, w, cfg, listing, limit) && GrowsSlowly(listing, n) && Distinct(listing(1))
    requires pages <= n <= limit
    ensures pages < limit ==> |listing(1)| <= Covered(listing, pages - 1)
  {
    hide *;
    FetchedUpToTheEnd(f, w, cfg, onPage, limit, pages);
    ServesFewer(f, w, cfg, listing, limit, n);
    DeliveredIsPrefix(f, w, cfg, listing, n, pages);
    DeliveredIsPrefix(f, w, cfg, listing, n, pages - 1);
    CoveredGrows(listing, n, pages - 1, pages);
    CoveredStep(listing, n, pages);
    HeadLengths(listing(1), Covered(listing, pages - 1), Covered(listing, pages));
  }

  /** Every page before the last one began within the first list. */
  lemma EarlierPagesReachTheList(f: Fetcher, w: World, cfg: SearcherConfig, onPage: Callback,
                                 listing: nat -> seq<Hit>, limit: nat, pages: nat, k: nat)
    requires limit <= DEFAULT_MAX_PAGES && Ends(f, w, cfg, onPage, limit, pages, Completed)
    requires SiteServes(f, w, cfg, listing, limit) && GrowsSlowly(listing, limit) && Distinct(listing(1))
    requires 1 <= k < pages
    ensures Covered(listing, k - 1) < |listing(1)|
  {
    hide *;
    FetchedUpToTheEnd(f, w, cfg, onPage, limit, pages);
    FetchedBefore(f, w, cfg, pages, k);
    FetchedBefore(f, w, cfg, pages, k - 1);
    EarlierPagesAdd(f, w, cfg, onPage, limit, pages, k);
    DeliveredIsPrefix(f, w, cfg, listing, limit, k);
    DeliveredIsPrefix(f, w, cfg, listing, limit, k - 1);
    CoveredGrows(listing, limit, k - 1, k);
    CoveredStep(listing, limit, k);
    HeadLengths(listing(1), Covered(listing, k - 1), Covered(listing, k));
  }

  lemma EarlierPagesAdd(f: Fetcher, w: World, cfg: SearcherConfig, onPage: Callback, limit: nat, pages: nat, k: nat)
    requires Ends(f, w, cfg, onPage, limit, pages, Completed) && 1 <= k < pages
    ensures Delivered(f, w, cfg, k) != Delivered(f, w, cfg, k - 1)
  {
    hide PageResult, Delivered, Fresh;
    FreshExtends(f, w, cfg, k);
    assert PassedPage(f, w, cfg, onPage, k);
  }

  /** An error-free crawl of a list that grows slowly delivers the list as it was when the crawl began, each entry
      once, in order and without an inserted one, as far as the page limit reaches behind the insertions. */
  lemma SlowGrowthIsHarmless(f: Fetcher, w: World, cfg: SearcherConfig, onPage: Callback, listing: nat -> seq<Hit>,
                             limit: nat, pages: nat)
    requires limit <= DEFAULT_MAX_PAGES && Ends(f, w, cfg, onPage, limit, pages, Completed)
    requires SiteServes(f, w, cfg, listing, limit) && GrowsSlowly(listing, limit) && Distinct(listing(1))
    ensures limit + PAGE_ROWS - 1 <= Covered(listing, limit)
    ensures Delivered(f, w, cfg, pages) == Head(listing(1), Covered(listing, limit))
    ensures Delivered(f, w, cfg, pages) == listing(1) <==> |listing(1)| <= Covered(listing, limit)
  {
    hide *;
    FetchedUpToTheEnd(f, w, cfg, onPage, limit, pages);
    StopsBehindTheList(f, w, cfg, onPage, listing, limit, pages, limit);
    DeliveredIsPrefix(f, w, cfg, listing, limit, pages);
    CoveredStep(listing, limit, pages);
    CoveredStep(listing, limit, limit);
    CoveredGrows(listing, limit, pages - 1, pages);
    CoveredGrows(listing, limit, pages, limit);
    HeadsAgree(listing(1), Covered(listing, pages), Covered(listing, limit));
    HeadIsAll(listing(1), Covered(listing, limit));
  }

  lemma HeadsAgree(s: seq<Hit>, a: int, b: int)
    requires a == b || |s| <= a <= b
    ensures Head(s, a) == Head(s, b)
  {
  }

  // ---- What it takes to miss nothing ---------------------------------------------------------------------

  lemma WindowWithin(first: seq<Hit>, from: nat, c: int)
    requires 0 <= c && (from + PAGE_ROWS <= c || |first| <= c)
    ensures Numbers(Window(first, from, PAGE_ROWS)) <= Numbers(Head(first, c))
  {
    var page, head := Window(first, from, PAGE_ROWS), Head(first, c);
    forall n | n in Numbers(page) ensures n in Numbers(head) {
      var i :| 0 <= i < |page| && page[i].regNumber == n;
      var at := Min(from, |first|) + i;
      assert page[i] == first[at];
      assert at < |head| && head[at] == first[at];
    }
  }

  /** A page that begins no later than the list it shows, and ends within what was covered, adds nothing. */
  lemma CoveredPageAddsNothing(f: Fetcher, w: World, cfg: SearcherConfig, listing: nat -> seq<Hit>, limit: nat, k: nat)
    requires limit <= DEFAULT_MAX_PAGES && SiteServes(f, w, cfg, listing, limit) && GrowsAtHead(listing, limit)
    requires k < limit && GrowsSlowly(listing, k) && Distinct(listing(1)) && AllFetched(f, w, cfg, k + 1)
    requires Inserted(listing, k + 1) <= Rows(k)
    requires Rows(k + 1) - Inserted(listing, k + 1) <= Covered(listing, k) || |listing(1)| <= Covered(listing, k)
    ensures Delivered(f, w, cfg, k + 1) == Delivered(f, w, cfg, k)
  {
    hide *;
    RowsStep(k);
    ServesFewer(f, w, cfg, listing, limit, k);
    FetchedBefore(f, w, cfg, k + 1, k);
    DeliveredIsPrefix(f, w, cfg, listing, k, k);
    CoveredGrows(listing, k, k, k);
    HitsOnServedPage(f, w, cfg, listing, limit, k + 1);
    PageShowsFirstList(listing, limit, k + 1);
    WindowWithin(listing(1), Rows(k) - Inserted(listing, k + 1), Covered(listing, k));
    DeliveredIsDistinct(f, w, cfg, k);
    SeenHitsAddNothing(Listed(f, w, cfg, k), HitsOn(f, w, cfg, k + 1));
    ListedStep(f, w, cfg, k + 1);
  }

  lemma RowsStep(k: nat)
    ensures Rows(k + 1) == Rows(k) + PAGE_ROWS && Rows(k) >= 0
  {
  }

  lemma NothingNewEnds(f: Fetcher, w: World, cfg: SearcherConfig, onPage: Callback, limit: nat, pages: nat, k: nat)
    requires Ends(f, w, cfg, onPage, limit, pages, Completed) && 1 <= k <= pages
    requires Delivered(f, w, cfg, k) == Delivered(f, w, cfg, k - 1)
    ensures pages == k
  {
    hide PageResult, Delivered, Fresh;
    if k < pages {
      EarlierPagesAdd(f, w, cfg, onPage, limit, pages, k);
    }
  }

  /** Until the pages have covered the first list, the crawl goes on. */
  lemma GoesOnUntilCovered(f: Fetcher, w: World, cfg: SearcherConfig, onPage: Callback, listing: nat -> seq<Hit>,
                           limit: nat, pages: nat, k: nat)
    requires limit <= DEFAULT_MAX_PAGES && Ends(f, w, cfg, onPage, limit, pages, Completed)
    requires SiteServes(f, w, cfg, listing, limit) && Distinct(listing(1))
    requires k < limit && GrowsSlowly(listing, k) && (k > 0 ==> Covered(listing, k - 1) < |listing(1)|)
    ensures k + 1 <= pages && AllFetched(f, w, cfg, k + 1)
  {
    hide *;
    FetchedUpToTheEnd(f, w, cfg, onPage, limit, pages);
    if pages <= k {
      StopsBehindTheList(f, w, cfg, onPage, listing, limit, pages, k);
      CoveredGrows(listing, k, pages - 1, k - 1);
    }
    FetchedBefore(f, w, cfg, pages, k + 1);
  }

  lemma JumpIsCovered(listing: nat -> seq<Hit>, k: nat)
    requires k >= 1 && |listing(k)| + PAGE_ROWS <= |listing(k + 1)|
    ensures Rows(k + 1) - Inserted(listing, k + 1) <= Covered(listing, k)
  {
  }

  /** A page of insertions or more, at any point before the list is covered, ends the crawl with the next page: that
      page shows only what was seen. What is delivered is the whole list exactly if it was covered by then. */
  lemma LargeInsertionStopsTheCrawl(f: Fetcher, w: World, cfg: SearcherConfig, onPage: Callback,
                                    listing: nat -> seq<Hit>, limit: nat, pages: nat, k: nat)
    requires limit <= DEFAULT_MAX_PAGES && Ends(f, w, cfg, onPage, limit, pages, Completed)
    requires SiteServes(f, w, cfg, listing, limit) && GrowsAtHead(listing, limit) && Distinct(listing(1))
    requires 1 <= k < limit && GrowsSlowly(listing, k) && Covered(listing, k - 1) < |listing(1)|
    requires |listing(k)| + PAGE_ROWS <= |listing(k + 1)| && Inserted(listing, k + 1) <= Rows(k)
    ensures pages == k + 1
    ensures Delivered(f, w, cfg, pages) == Head(listing(1), Covered(listing, k))
    ensures Delivered(f, w, cfg, pages) == listing(1) <==> |listing(1)| <= Covered(listing, k)
  {
    hide *;
    JumpIsCovered(listing, k);
    GoesOnUntilCovered(f, w, cfg, onPage, listing, limit, pages, k);
    CoveredPageAddsNothing(f, w, cfg, listing, limit, k);
    NothingNewEnds(f, w, cfg, onPage, limit, pages, k + 1);
    ServesFewer(f, w, cfg, listing, limit, k);
    FetchedBefore(f, w, cfg, k + 1, k);
    DeliveredIsPrefix(f, w, cfg, listing, k, k);
    CoveredGrows(listing, k, k, k);
    HeadIsAll(listing(1), Covered(listing, k));
  }

  lemma InHead(now: seq<Hit>, first: seq<Hit>, i: nat)
    requires OnlyHeadGrows(first, now) && Distinct(now) && i < |now| - |first|
    ensures now[i].regNumber !in Numbers(first)
  {
    var d := |now| - |first|;
    forall j | 0 <= j < |first| ensures first[j].regNumber != now[i].regNumber {
      assert first[j] == now[d..][j] == now[d + j];
    }
  }

  lemma WindowStarts(now: seq<Hit>, from: nat)
    requires from < |now|
    ensures now[from].regNumber in Numbers(Window(now, from, PAGE_ROWS))
  {
    assert Window(now, from, PAGE_ROWS)[0] == now[from];
  }

  lemma {:induction false} ShownIsListed(f: Fetcher, w: World, cfg: SearcherConfig, k: nat, n: nat)
    requires 1 <= k <= n
    ensures Numbers(HitsOn(f, w, cfg, k)) <= Numbers(Listed(f, w, cfg, n))
    decreases n
  {
    hide HitsOn, Numbers;
    NumbersConcat(Listed(f, w, cfg, n - 1), HitsOn(f, w, cfg, n));
    if k < n {
      ShownIsListed(f, w, cfg, k, n - 1);
    }
  }

  lemma RowsWithin(listing: nat -> seq<Hit>, k: nat)
    requires Rows(k) < Inserted(listing, k + 1)
    ensures 0 <= Rows(k) < |listing(k + 1)| - |listing(1)| <= |listing(k + 1)|
  {
  }

  /** Still more insertions show on the next page, and what is delivered holds one that the first list had not. */
  lemma LargerInsertionShows(f: Fetcher, w: World, cfg: SearcherConfig, onPage: Callback,
                             listing: nat -> seq<Hit>, limit: nat, pages: nat, k: nat)
    requires limit <= DEFAULT_MAX_PAGES && Ends(f, w, cfg, onPage, limit, pages, Completed)
    requires SiteServes(f, w, cfg, listing, limit) && GrowsAtHead(listing, limit)
    requires Distinct(listing(1)) && k < limit && Distinct(listing(k + 1))
    requires GrowsSlowly(listing, k) && (k > 0 ==> Covered(listing, k - 1) < |listing(1)|)
    requires Rows(k) < Inserted(listing, k + 1)
    ensures k + 1 <= pages
    ensures !(Numbers(Delivered(f, w, cfg, pages)) <= Numbers(listing(1)))
  {
    hide *;
    var now := listing(k + 1);
    ListingKeepsTail(listing, limit, k + 1);
    RowsWithin(listing, k);
    GoesOnUntilCovered(f, w, cfg, onPage, listing, limit, pages, k);
    FetchedBefore(f, w, cfg, k + 1, k + 1);
    HitsOnServedPage(f, w, cfg, listing, limit, k + 1);
    WindowStarts(now, Rows(k));
    InHead(now, listing(1), Rows(k));
    ShownIsListed(f, w, cfg, k + 1, pages);
    DeliveredIsDistinct(f, w, cfg, pages);
    assert now[Rows(k)].regNumber in Numbers(Delivered(f, w, cfg, pages));
  }

  /** n pages cover the first list before growth catches up: they are the first to cover it, the list grew by fewer
      than a page between any two of them, and the page behind them, if the limit allows one, begins behind all
      insertions. */
  ghost predicate CoversInTime(listing: nat -> seq<Hit>, limit: nat, n: nat) {
    && n <= limit
    && GrowsSlowly(listing, n)
    && |listing(1)| <= Covered(listing, n)
    && (n > 0 ==> Covered(listing, n - 1) < |listing(1)|)
    && (n < limit ==> Inserted(listing, n + 1) <= Rows(n))
  }

  lemma InTimeMeans(listing: nat -> seq<Hit>, limit: nat, n: nat)
    requires CoversInTime(listing, limit, n)
    ensures n <= limit && GrowsSlowly(listing, n) && |listing(1)| <= Covered(listing, n)
    ensures n > 0 ==> Covered(listing, n - 1) < |listing(1)|
    ensures n < limit ==> Inserted(listing, n + 1) <= Rows(n)
  {
  }

  lemma CoveredInTimeIsDelivered(f: Fetcher, w: World, cfg: SearcherConfig, onPage: Callback,
                                 listing: nat -> seq<Hit>, limit: nat, pages: nat, n: nat)
    requires limit <= DEFAULT_MAX_PAGES && Ends(f, w, cfg, onPage, limit, pages, Completed)
    requires SiteServes(f, w, cfg, listing, limit) && GrowsAtHead(listing, limit) && Distinct(listing(1))
    requires CoversInTime(listing, limit, n)
    ensures Delivered(f, w, cfg, pages) == listing(1)
  {
    hide *;
    InTimeMeans(listing, limit, n);
    FetchedUpToTheEnd(f, w, cfg, onPage, limit, pages);
    ServesFewer(f, w, cfg, listing, limit, n);
    if n < limit {
      GoesOnUntilCovered(f, w, cfg, onPage, listing, limit, pages, n);
      CoveredPageAddsNothing(f, w, cfg, listing, limit, n);
      NothingNewEnds(f, w, cfg, onPage, limit, pages, n + 1);
    } else if pages < limit {
      StopsBehindTheList(f, w, cfg, onPage, listing, limit, pages, n);
      CoveredGrows(listing, n, pages - 1, n - 1);
    }
    FetchedBefore(f, w, cfg, pages, n);
    DeliveredIsPrefix(f, w, cfg, listing, n, n);
    CoveredGrows(listing, n, n, n);
    HeadIsAll(listing(1), Covered(listing, n));
  }

  /** So many pages the list grows slowly. */
  lemma SlowFor(listing: nat -> seq<Hit>, limit: nat) returns (m: nat)
    requires GrowsAtHead(listing, limit) && limit >= 1
    ensures 1 <= m <= limit && GrowsSlowly(listing, m)
    ensures m < limit ==> |listing(m)| + PAGE_ROWS <= |listing(m + 1)|
  {
    hide OnlyHeadGrows;
    m := 1;
    while m < limit && |listing(m + 1)| < |listing(m)| + PAGE_ROWS
      invariant 1 <= m <= limit && GrowsSlowly(listing, m)
    {
      assert HeadStep(listing, m);
      m := m + 1;
    }
  }

  lemma FirstToCover(listing: nat -> seq<Hit>, m: nat) returns (n: nat)
    requires GrowsSlowly(listing, m) && |listing(1)| <= Covered(listing, m)
    ensures n <= m && GrowsSlowly(listing, n) && |listing(1)| <= Covered(listing, n)
    ensures n > 0 ==> Covered(listing, n - 1) < |listing(1)|
  {
    n := 0;
    while n < m && Covered(listing, n) < |listing(1)|
      invariant n <= m && (n > 0 ==> Covered(listing, n - 1) < |listing(1)|)
    {
      n := n + 1;
    }
    SlowIsAtHead(listing, m, n);
  }

  /** Where no number of pages covers the first list in time, the crawl does not deliver it. */
  lemma OtherwiseNotDelivered(f: Fetcher, w: World, cfg: SearcherConfig, onPage: Callback,
                              listing: nat -> seq<Hit>, limit: nat, pages: nat)
    requires limit <= DEFAULT_MAX_PAGES && Ends(f, w, cfg, onPage, limit, pages, Completed)
    requires SiteServes(f, w, cfg, listing, limit) && GrowsAtHead(listing, limit)
    requires forall k: nat :: 1 <= k <= limit ==> Distinct(listing(k))
    requires Delivered(f, w, cfg, pages) == listing(1)
    ensures exists n: nat :: CoversInTime(listing, limit, n)
  {
    hide Distinct, Ends, SiteServes, GrowsAtHead, GrowsSlowly, Covered, Inserted, Delivered;
    FetchedUpToTheEnd(f, w, cfg, onPage, limit, pages);
    var m := SlowFor(listing, limit);
    assert Distinct(listing(1));
    if |listing(1)| <= Covered(listing, m) {
      var n := FirstToCover(listing, m);
      if n < limit && Rows(n) < Inserted(listing, n + 1) {
        assert Distinct(listing(n + 1));
        LargerInsertionShows(f, w, cfg, onPage, listing, limit, pages, n);
      }
      assert CoversInTime(listing, limit, n);
    } else {
      CoveredGrows(listing, m, m - 1, m);
      if m == limit {
        SlowGrowthIsHarmless(f, w, cfg, onPage, listing, limit, pages);
      } else if Inserted(listing, m + 1) <= Rows(m) {
        LargeInsertionStopsTheCrawl(f, w, cfg, onPage, listing, limit, pages, m);
      } else {
        assert Distinct(listing(m + 1));
        LargerInsertionShows(f, w, cfg, onPage, listing, limit, pages, m);
      }
    }
  }

  /** Completeness under churn: on a list that gets new entries at its head while it is being read, an error-free
      crawl delivers exactly the list that it began with, once each and in order, if and only if some number of
      pages covers that list in time. */
  lemma CompleteUnderChurn(f: Fetcher, w: World, cfg: SearcherConfig, onPage: Callback, listing: nat -> seq<Hit>,
                           limit: nat, pages: nat)
    requires limit <= DEFAULT_MAX_PAGES && Ends(f, w, cfg, onPage, limit, pages, Completed)
    requires SiteServes(f, w, cfg, listing, limit) && GrowsAtHead(listing, limit)
    requires forall k: nat :: 1 <= k <= limit ==> Distinct(listing(k))
    ensures Delivered(f, w, cfg, pages) == listing(1) <==> exists n: nat :: CoversInTime(listing, limit, n)
  {
    hide Ends, SiteServes, GrowsAtHead, CoversInTime, Delivered, Distinct;
    FetchedUpToTheEnd(f, w, cfg, onPage, limit, pages);
    assert Distinct(listing(1));
    if n: nat :| CoversInTime(listing, limit, n) {
      CoveredInTimeIsDelivered(f, w, cfg, onPage, listing, limit, pages, n);
    }
    if Delivered(f, w, cfg, pages) == listing(1) {
      OtherwiseNotDelivered(f, w, cfg, onPage, listing, limit, pages);
    }
  }

  // ---- A list that stands still -------------------------------------------------------------------------

  function StandsStill(list: seq<Hit>): nat -> seq<Hit> {
    k => list
  }

  lemma StandingStillIsSlow(list: seq<Hit>, limit: nat, k: nat)
    ensures GrowsSlowly(StandsStill(list), limit)
    ensures StandsStill(list)(k) == list
    ensures Inserted(StandsStill(list), k) == 0 && Covered(StandsStill(list), k) == Rows(k)
  {
  }

  /** The pages that show a list of n entries, and the one behind them, as far as the limit allows. */
  function PagesFor(n: nat, limit: nat): nat {
    Min(limit, (n + PAGE_ROWS - 1) / PAGE_ROWS + 1)
  }

  lemma PagesNeeded(n: nat, limit: nat, pages: nat)
    requires 1 <= pages <= limit
    requires pages < limit ==> n <= Rows(pages - 1)
    requires pages > 1 ==> Rows(pages - 2) < n
    ensures pages == PagesFor(n, limit)
  {
  }

  lemma HeadOfRows(list: seq<Hit>, limit: nat)
    ensures Head(list, Rows(limit)) == list[..Min(|list|, PAGE_ROWS * limit)]
  {
  }

  lemma StablePages(f: Fetcher, w: World, cfg: SearcherConfig, onPage: Callback, list: seq<Hit>,
                    limit: nat, pages: nat)
    requires limit <= DEFAULT_MAX_PAGES && Ends(f, w, cfg, onPage, limit, pages, Completed)
    requires SiteServes(f, w, cfg, StandsStill(list), limit) && Distinct(list)
    ensures pages == PagesFor(|list|, limit)
  {
    hide *;
    FetchedUpToTheEnd(f, w, cfg, onPage, limit, pages);
    StandingStillIsSlow(list, limit, 1);
    StandingStillIsSlow(list, limit, pages - 1);
    StopsBehindTheList(f, w, cfg, onPage, StandsStill(list), limit, pages, limit);
    if pages > 1 {
      StandingStillIsSlow(list, limit, pages - 2);
      EarlierPagesReachTheList(f, w, cfg, onPage, StandsStill(list), limit, pages, pages - 1);
    }
    PagesNeeded(|list|, limit, pages);
  }

  /** A list of N entries that does not change: the crawl delivers min(N, 50 M) of them and walks
      min(M, ceil(N / 50) + 1) pages under a page limit of M. */
  lemma StableListing(f: Fetcher, w: World, cfg: SearcherConfig, onPage: Callback, list: seq<Hit>,
                      limit: nat, pages: nat)
    requires limit <= DEFAULT_MAX_PAGES && Ends(f, w, cfg, onPage, limit, pages, Completed)
    requires SiteServes(f, w, cfg, StandsStill(list), limit) && Distinct(list)
    ensures Delivered(f, w, cfg, pages) == list[..Min(|list|, PAGE_ROWS * limit)]
    ensures pages == PagesFor(|list|, limit)
  {
    hide *;
    StandingStillIsSlow(list, limit, 1);
    StandingStillIsSlow(list, limit, limit);
    SlowGrowthIsHarmless(f, w, cfg, onPage, StandsStill(list), limit, pages);
    HeadOfRows(list, limit);
    StablePages(f, w, cfg, onPage, list, limit, pages);
  }
}
