/** FetchPages, FetchFirstPages and getRetry: the paged walk through a result list. */
module Crawl {
  import opened Wrappers
  import opened Text
  import opened EisConfig
  import opened SearcherConfigs
  import opened UrlValues
  import opened Hits
  import HitParser

  const DEFAULT_MAX_PAGES := 1000
  const DEFAULT_PAGE_DELAY := 1000 // milliseconds
  const PAGE_SIZE_PARAM := "_50"
  const PAGE_FETCH_RETRIES := 3

  datatype Fetcher = Fetcher(baseURL: string, pageDelay: int)

  function PageDelay(f: Fetcher): (d: nat)
    ensures f.pageDelay > 0 ==> d == f.pageDelay
    ensures f.pageDelay <= 0 ==> d == 1000
  {
    if f.pageDelay > 0 then f.pageDelay else DEFAULT_PAGE_DELAY
  }

  // ---- The world a crawl runs in --------------------------------------------------------------

  /** What one GET brings: a response with its status and text, or no response. */
  datatype Reply = Response(status: int, body: string) | NoResponse(reason: string)

  datatype FetchError = Cancelled | BadStatus(status: int) | Transport(reason: string)

  /** Everything that the crawl does not decide itself: whether its context is done at the top of a page, during
      the pause before a page or during the pause before a further attempt, and what each GET brings. Any
      behaviour of the site and of the caller, however it changes over time, is one such value. */
  datatype World = World(
    doneAtTop: nat -> bool,
    doneInPause: nat -> bool,
    doneInRetryPause: (nat, nat) -> bool,
    reply: (nat, nat, Values) -> Reply)

  /** The query of page `page`: the configuration's own, with the page number and 50 rows a page set over it. */
  function PageQuery(cfg: SearcherConfig, page: nat): Values {
    ValuesOf(SearcherQuery(cfg))["pageNumber" := Words(Itoa(page))]["recordsPerPage" := Words(PAGE_SIZE_PARAM)]
  }

  /** The values ask for this page, 50 rows of it, and otherwise for what the configuration's own query asks for. */
  ghost predicate AsksForPage(q: Values, cfg: SearcherConfig, page: nat) {
    && At(q, "pageNumber") == Some(Words(Itoa(page)))
    && At(q, "recordsPerPage") == Some(Words("_50"))
    && forall name :: name !in {"pageNumber", "recordsPerPage"} ==>
         At(q, name) == At(ValuesOf(SearcherQuery(cfg)), name)
  }

  lemma PageQueryAsks(cfg: SearcherConfig, page: nat)
    ensures AsksForPage(PageQuery(cfg, page), cfg, page)
  {
    hide ValuesOf, SearcherQuery;
  }

  /** get */
  function Get(w: World, page: nat, attempt: nat, q: Values): (r: Result<string, FetchError>)
    ensures forall body :: r == Success(body) <==>
      w.reply(page, attempt, q).Response? && w.reply(page, attempt, q).status < 300
      && w.reply(page, attempt, q).body == body
    ensures r != Failure(Cancelled)
  {
    match w.reply(page, attempt, q)
    case NoResponse(reason) => Failure(Transport(reason))
    case Response(status, body) => if status >= 300 then Failure(BadStatus(status)) else Success(body)
  }

  // ---- One page --------------------------------------------------------------------------------

  /** What getRetry returns when attempts from `i` on are left and the previous one ended in `last`. */
  function Retried(w: World, page: nat, q: Values, i: nat, last: FetchError): Result<string, FetchError>
    decreases PAGE_FETCH_RETRIES - i
  {
    if i >= PAGE_FETCH_RETRIES then Failure(last)
    else if i > 0 && w.doneInRetryPause(page, i) then Failure(Cancelled)
    else match Get(w, page, i, q)
      case Success(body) => Success(body)
      case Failure(e) => Retried(w, page, q, i + 1, e)
  }

  /** The hits that page `page` yields, or the error that ends the crawl there. */
  function PageResult(f: Fetcher, w: World, cfg: SearcherConfig, page: nat): Result<seq<Hit>, FetchError> {
    if w.doneAtTop(page) || (page > 1 && w.doneInPause(page)) then Failure(Cancelled)
    else match Retried(w, page, PageQuery(cfg, page), 0, Cancelled)
      case Success(body) => Success(HitParser.PageHits(body, f.baseURL))
      case Failure(e) => Failure(e)
  }

  /** A GET that was made. */
  datatype Request = Request(page: nat, attempt: nat, query: Values)

  method GetRetry(f: Fetcher, w: World, page: nat, q: Values)
      returns (r: Result<string, FetchError>, gets: seq<Request>, waited: nat)
    ensures r == Retried(w, page, q, 0, Cancelled)
    // Attempts are numbered from 0 and only the last one may have succeeded.
    ensures 1 <= |gets| <= 3
    ensures forall i :: 0 <= i < |gets| ==> gets[i] == Request(page, i, q)
    ensures forall i :: 0 <= i < |gets| - 1 ==> Get(w, page, i, q).Failure?
    ensures r.Success? ==> Get(w, page, |gets| - 1, q) == r
    ensures r.Failure? && r.error != Cancelled ==>
      |gets| == 3 && Get(w, page, |gets| - 1, q) == r
    ensures r == Failure(Cancelled) ==>
      |gets| < 3 && w.doneInRetryPause(page, |gets|) && Get(w, page, |gets| - 1, q).Failure?
    // No attempt after a pause in which the context was done; twice and three times the page delay to wait.
    ensures forall i :: 1 <= i < |gets| ==> !w.doneInRetryPause(page, i)
    ensures var pauses := if r == Failure(Cancelled) then |gets| else |gets| - 1;
      waited == if pauses == 0 then 0 else if pauses == 1 then 2 * PageDelay(f) else 5 * PageDelay(f)
    ensures waited <= 5 * PageDelay(f)
  {
    var d := PageDelay(f);
    var last := Cancelled;
    gets, waited := [], 0;
    for i := 0 to PAGE_FETCH_RETRIES
      invariant Retried(w, page, q, 0, Cancelled) == Retried(w, page, q, i, last)
      invariant |gets| == i && forall j :: 0 <= j < i ==> gets[j] == Request(page, j, q)
      invariant forall j :: 0 <= j < i ==> Get(w, page, j, q).Failure?
      invariant i > 0 ==> Get(w, page, i - 1, q) == Failure(last) && last != Cancelled
      invariant forall j :: 1 <= j < i ==> !w.doneInRetryPause(page, j)
      invariant waited == if i < 2 then 0 else if i == 2 then 2 * d else 5 * d
    {
      if i > 0 {
        waited := waited + d * (i + 1);
        if w.doneInRetryPause(page, i) {
          return Failure(Cancelled), gets, waited;
        }
      }
      gets := gets + [Request(page, i, q)];
      var got := Get(w, page, i, q);
      if got.Success? {
        return got, gets, waited;
      }
      last := got.error;
    }
    r := Failure(last);
  }

  // ---- The whole walk, as a specification ---------------------------------------------------------

  /** onPage; it may be missing, and it may report an error. */
  type Callback = Option<(nat, seq<Hit>) -> Option<string>>

  predicate Accepts(onPage: Callback, page: nat, hits: seq<Hit>) {
    onPage.Some? ==> onPage.value(page, hits) == None
  }

  function HitsOn(f: Fetcher, w: World, cfg: SearcherConfig, page: nat): seq<Hit> {
    match PageResult(f, w, cfg, page) case Success(hits) => hits case Failure(_) => []
  }

  /** Pages 1 to n one after another. */
  function Listed(f: Fetcher, w: World, cfg: SearcherConfig, n: nat): seq<Hit> {
    if n == 0 then [] else Listed(f, w, cfg, n - 1) + HitsOn(f, w, cfg, n)
  }

  /** What pages 1 to n show, every registration number once and where it came first. */
  function Delivered(f: Fetcher, w: World, cfg: SearcherConfig, n: nat): seq<Hit> {
    FirstOccurrences(Listed(f, w, cfg, n))
  }

  /** What page n adds to that. */
  function Fresh(f: Fetcher, w: World, cfg: SearcherConfig, n: nat): seq<Hit>
    requires n >= 1
  {
    var before, now := Delivered(f, w, cfg, n - 1), Delivered(f, w, cfg, n);
    if |before| <= |now| then now[|before|..] else []
  }

  /** The effective page limit. */
  function PageLimit(maxPages: int): (m: nat)
    ensures 1 <= m <= DEFAULT_MAX_PAGES
    ensures m == if 1 <= maxPages <= 1000 then maxPages else 1000
  {
    if maxPages < 1 || maxPages > DEFAULT_MAX_PAGES then DEFAULT_MAX_PAGES else maxPages
  }

  /** Page k could be had, it added something, and the callback took it. */
  predicate PassedPage(f: Fetcher, w: World, cfg: SearcherConfig, onPage: Callback, k: nat)
    requires k >= 1
  {
    && PageResult(f, w, cfg, k).Success?
    && Fresh(f, w, cfg, k) != []
    && Accepts(onPage, k, Fresh(f, w, cfg, k))
  }

  ghost predicate PassedPages(f: Fetcher, w: World, cfg: SearcherConfig, onPage: Callback, n: nat) {
    forall k :: 1 <= k <= n ==> PassedPage(f, w, cfg, onPage, k)
  }

  /** How a crawl ends: by itself, by an error on the way to a page, or by a callback's error. */
  datatype End = Completed | Interrupted(error: FetchError) | Refused(reason: string)

  /** A crawl that walked `pages` pages and ended so did what its world made it do, and nothing else. */
  ghost predicate Ends(f: Fetcher, w: World, cfg: SearcherConfig, onPage: Callback, limit: nat, pages: nat, end: End) {
    match end
    case Completed =>
      && 1 <= pages <= limit
      && PassedPages(f, w, cfg, onPage, pages - 1)
      && PageResult(f, w, cfg, pages).Success?
      && Accepts(onPage, pages, Fresh(f, w, cfg, pages))
      && (pages == limit || Fresh(f, w, cfg, pages) == [])
    case Refused(reason) =>
      && 1 <= pages <= limit
      && PassedPages(f, w, cfg, onPage, pages - 1)
      && PageResult(f, w, cfg, pages).Success?
      && onPage.Some? && onPage.value(pages, Fresh(f, w, cfg, pages)) == Some(reason)
    case Interrupted(error) =>
      && pages < limit
      && PassedPages(f, w, cfg, onPage, pages)
      && PageResult(f, w, cfg, pages + 1) == Failure(error)
  }

  /** A call of the callback. */
  datatype PageCall = PageCall(page: nat, hits: seq<Hit>)

  function Calls(f: Fetcher, w: World, cfg: SearcherConfig, n: nat): seq<PageCall> {
    if n == 0 then [] else Calls(f, w, cfg, n - 1) + [PageCall(n, Fresh(f, w, cfg, n))]
  }

  /** The pages that a crawl tried to get. */
  function Attempted(pages: nat, end: End): nat {
    if end.Interrupted? then pages + 1 else pages
  }

  /** The longest that a crawl of P attempted pages may wait: a pause between pages, and twice plus three times
      the pause before the second and third attempt at each. */
  function WaitBound(f: Fetcher, attempted: nat): nat {
    if attempted == 0 then 0 else (attempted - 1) * PageDelay(f) + attempted * (5 * PageDelay(f))
  }

  // ---- The program --------------------------------------------------------------------------------------

  /** The hits of one page whose numbers were not seen before. */
  method TakeFresh(seen: set<string>, hits: seq<Hit>, ghost before: seq<Hit>)
      returns (added: seq<Hit>, seen': set<string>)
    requires seen == Numbers(before)
    ensures seen' == Numbers(before + hits)
    ensures FirstOccurrences(before + hits) == FirstOccurrences(before) + added
  {
    added, seen' := [], seen;
    assert before + hits[..0] == before;
    for i := 0 to |hits|
      invariant seen' == Numbers(before + hits[..i])
      invariant FirstOccurrences(before + hits[..i]) == FirstOccurrences(before) + added
    {
      ghost var all := before + hits[..i + 1];
      assert all[..|before| + i] == before + hits[..i];
      assert all[..|before| + i + 1] == all;
      PrefixStep(all, |before| + i);
      if hits[i].regNumber in seen' {
        continue;
      }
      seen' := seen' + {hits[i].regNumber};
      added := added + [hits[i]];
    }
    assert hits[..|hits|] == hits;
  }

  lemma WaitBoundStep(f: Fetcher, n: nat)
    ensures WaitBound(f, n + 1) == WaitBound(f, n) + (if n > 0 then PageDelay(f) else 0) + 5 * PageDelay(f)
  {
  }

  /** At most three GETs a page, each asking for its page. */
  ghost predicate GetsWithin(gets: seq<Request>, cfg: SearcherConfig, attempted: nat) {
    && |gets| <= 3 * attempted
    && forall i :: 0 <= i < |gets| ==>
         1 <= gets[i].page <= attempted && AsksForPage(gets[i].query, cfg, gets[i].page)
  }

  /** The configuration's values, with two set over them. */
  method PageValues(cfg: SearcherConfig, page: nat) returns (q: Values)
    ensures q == PageQuery(cfg, page)
  {
    hide *;
    q := UrlValues.QueryValues(cfg);
    q := q["pageNumber" := Words(Itoa(page))];
    q := q["recordsPerPage" := Words(PAGE_SIZE_PARAM)];
    PageQueryIs(cfg, page);
  }

  lemma PageQueryIs(cfg: SearcherConfig, page: nat)
    ensures PageQuery(cfg, page)
         == ValuesOf(SearcherQuery(cfg))["pageNumber" := Words(Itoa(page))]["recordsPerPage" := Words(PAGE_SIZE_PARAM)]
  {
  }

  /** The part of the loop's body that gets one page. */
  method FetchPage(f: Fetcher, w: World, cfg: SearcherConfig, page: nat)
      returns (r: Result<seq<Hit>, FetchError>, gets: seq<Request>, waited: nat)
    requires page >= 1
    ensures r == PageResult(f, w, cfg, page)
    // Nothing is asked for once the context is done before the page or in the pause before it.
    ensures gets == [] <==> w.doneAtTop(page) || (page > 1 && w.doneInPause(page))
    ensures gets == [] ==> r == Failure(Cancelled)
    ensures page > 1 && gets != [] ==> waited >= PageDelay(f)
    ensures |gets| <= 3
    ensures forall i :: 0 <= i < |gets| ==> gets[i].page == page && AsksForPage(gets[i].query, cfg, page)
    ensures waited <= (if page > 1 then PageDelay(f) else 0) + 5 * PageDelay(f)
  {
    hide PageQuery, Retried, AsksForPage, ValuesOf, SearcherQuery;
    PageQueryAsks(cfg, page);
    gets, waited := [], 0;
    if w.doneAtTop(page) {
      return Failure(Cancelled), gets, waited;
    }
    if page > 1 {
      waited := PageDelay(f);
      if w.doneInPause(page) {
        return Failure(Cancelled), gets, waited;
      }
    }
    var q := PageValues(cfg, page);
    var got, tried, pause := GetRetry(f, w, page, q);
    gets, waited := tried, waited + pause;
    if got.Failure? {
      return Failure(got.error), gets, waited;
    }
    var hits := HitParser.ParseHits(got.value, f.baseURL);
    r := Success(hits);
  }

  /** The pages passed so far and the new one make one more. */
  lemma PassOneMore(f: Fetcher, w: World, cfg: SearcherConfig, hits: seq<Hit>, added: seq<Hit>, page: nat)
    requires page >= 1 && PageResult(f, w, cfg, page) == Success(hits)
    requires FirstOccurrences(Listed(f, w, cfg, page - 1) + hits) == Delivered(f, w, cfg, page - 1) + added
    ensures Listed(f, w, cfg, page) == Listed(f, w, cfg, page - 1) + hits
    ensures Fresh(f, w, cfg, page) == added
    ensures Delivered(f, w, cfg, page) == Delivered(f, w, cfg, page - 1) + added
  {
  }

  lemma EmptyStart(f: Fetcher, w: World, cfg: SearcherConfig)
    ensures Numbers(Listed(f, w, cfg, 0)) == {} && Delivered(f, w, cfg, 0) == [] && WaitBound(f, 0) == 0
  {
  }

  lemma DeliveredIs(f: Fetcher, w: World, cfg: SearcherConfig, n: nat)
    ensures Delivered(f, w, cfg, n) == FirstOccurrences(Listed(f, w, cfg, n))
  {
  }

  method FetchPages(f: Fetcher, w: World, cfg: SearcherConfig, maxPages: int, onPage: Callback)
      returns (total: nat, pages: nat, end: End, calls: seq<PageCall>, gets: seq<Request>, waited: nat)
    ensures Ends(f, w, cfg, onPage, PageLimit(maxPages), pages, end)
    ensures total == |Delivered(f, w, cfg, pages)|
    ensures calls == if onPage.Some? then Calls(f, w, cfg, pages) else []
    ensures GetsWithin(gets, cfg, Attempted(pages, end))
    ensures waited <= WaitBound(f, Attempted(pages, end))
  {
    hide PageResult, FirstOccurrences, Numbers, AsksForPage, WaitBound, Listed, Delivered, Fresh;
    var limit := PageLimit(maxPages);
    var seen: set<string> := {};
    total, pages, calls, gets, waited := 0, 0, [], [], 0;
    EmptyStart(f, w, cfg);
    for page := 1 to limit + 1
      invariant pages == page - 1
      invariant PassedPages(f, w, cfg, onPage, pages)
      invariant seen == Numbers(Listed(f, w, cfg, pages))
      invariant total == |Delivered(f, w, cfg, pages)|
      invariant calls == if onPage.Some? then Calls(f, w, cfg, pages) else []
      invariant GetsWithin(gets, cfg, pages)
      invariant waited <= WaitBound(f, pages)
    {
      WaitBoundStep(f, pages);
      var got, tried, pause := FetchPage(f, w, cfg, page);
      gets, waited := gets + tried, waited + pause;
      assert GetsWithin(gets, cfg, page);
      if got.Failure? {
        end := Interrupted(got.error);
        return;
      }
      var added, seen' := TakeFresh(seen, got.value, Listed(f, w, cfg, pages));
      DeliveredIs(f, w, cfg, pages);
      PassOneMore(f, w, cfg, got.value, added, page);
      seen := seen';
      pages := page;
      total := total + |added|;
      if onPage.Some? {
        calls := calls + [PageCall(page, added)];
        var err := onPage.value(page, added);
        if err.Some? {
          end := Refused(err.value);
          return;
        }
      }
      if |added| == 0 {
        end := Completed;
        return;
      }
    }
    assert PassedPage(f, w, cfg, onPage, pages);
    end := Completed;
  }

  /** FetchFirstPages: the callback only collects, so what was collected is there whatever ended the crawl. */
  method FetchFirstPages(f: Fetcher, w: World, cfg: SearcherConfig, maxPages: int)
      returns (out: seq<Hit>, ghost pages: nat, end: End)
    ensures Ends(f, w, cfg, Some((page, hits) => None), PageLimit(maxPages), pages, end) && !end.Refused?
    ensures out == Delivered(f, w, cfg, pages)
  {
    hide PageResult, Delivered, Fresh, FirstOccurrences;
    var collect: Callback := Some((page, hits) => None);
    var total, walked, ending, calls, gets, waited := FetchPages(f, w, cfg, maxPages, collect);
    pages, end, out := walked, ending, [];
    for i := 0 to |calls|
      invariant out == Flattened(calls[..i])
    {
      assert calls[..i + 1][..i] == calls[..i];
      out := out + calls[i].hits;
    }
    assert calls[..|calls|] == calls;
    FlattenedCalls(f, w, cfg, walked);
  }

  // ---- What the specification means -------------------------------------------------------------------

  function Flattened(calls: seq<PageCall>): seq<Hit> {
    if calls == [] then [] else Flattened(calls[..|calls| - 1]) + calls[|calls| - 1].hits
  }

  lemma FreshExtends(f: Fetcher, w: World, cfg: SearcherConfig, n: nat)
    requires n >= 1
    ensures Delivered(f, w, cfg, n) == Delivered(f, w, cfg, n - 1) + Fresh(f, w, cfg, n)
  {
    hide FirstOccurrences, HitsOn;
    FirstOccurrencesGrow(Listed(f, w, cfg, n - 1), HitsOn(f, w, cfg, n));
    var before, now := Delivered(f, w, cfg, n - 1), Delivered(f, w, cfg, n);
    assert now == before + now[|before|..];
  }

  lemma {:induction false} CallsLength(f: Fetcher, w: World, cfg: SearcherConfig, n: nat)
    ensures |Calls(f, w, cfg, n)| == n
    ensures forall k :: 1 <= k <= n ==> Calls(f, w, cfg, n)[k - 1] == PageCall(k, Fresh(f, w, cfg, k))
  {
    hide Fresh;
    if n > 0 {
      CallsLength(f, w, cfg, n - 1);
    }
  }

  lemma FlattenedStart(f: Fetcher, w: World, cfg: SearcherConfig)
    ensures Flattened(Calls(f, w, cfg, 0)) == Delivered(f, w, cfg, 0)
  {
  }

  lemma FlattenedStep(f: Fetcher, w: World, cfg: SearcherConfig, n: nat)
    requires n > 0
    ensures Flattened(Calls(f, w, cfg, n)) == Flattened(Calls(f, w, cfg, n - 1)) + Fresh(f, w, cfg, n)
  {
    hide Fresh;
    var calls := Calls(f, w, cfg, n);
    assert calls[..|calls| - 1] == Calls(f, w, cfg, n - 1);
  }

  /** The batches handed to the callback, put together, are the pages' first occurrences. */
  lemma {:induction false} FlattenedCalls(f: Fetcher, w: World, cfg: SearcherConfig, n: nat)
    ensures Flattened(Calls(f, w, cfg, n)) == Delivered(f, w, cfg, n)
  {
    hide *;
    if n == 0 {
      FlattenedStart(f, w, cfg);
    } else {
      FlattenedCalls(f, w, cfg, n - 1);
      FreshExtends(f, w, cfg, n);
      FlattenedStep(f, w, cfg, n);
    }
  }

  lemma PrefixOfMore(a: seq<Hit>, b: seq<Hit>, more: seq<Hit>)
    requires a <= b
    ensures a <= b + more
  {
  }

  lemma {:induction false} DeliveredGrows(f: Fetcher, w: World, cfg: SearcherConfig, m: nat, n: nat)
    requires m <= n
    ensures Delivered(f, w, cfg, m) <= Delivered(f, w, cfg, n)
    decreases n
  {
    hide *;
    if m < n {
      DeliveredGrows(f, w, cfg, m, n - 1);
      FreshExtends(f, w, cfg, n);
      PrefixOfMore(Delivered(f, w, cfg, m), Delivered(f, w, cfg, n - 1), Fresh(f, w, cfg, n));
    }
  }

  lemma DeliveredIsDistinct(f: Fetcher, w: World, cfg: SearcherConfig, n: nat)
    ensures Distinct(Delivered(f, w, cfg, n))
    ensures Numbers(Delivered(f, w, cfg, n)) == Numbers(Listed(f, w, cfg, n))
  {
    FirstOccurrencesKeepNumbers(Listed(f, w, cfg, n));
  }

  lemma SlicesAreDistinct(all: seq<Hit>, before: seq<Hit>, x: seq<Hit>, i: nat,
                          before': seq<Hit>, y: seq<Hit>, j: nat)
    requires Distinct(all) && before + x <= all && before' + y <= all
    requires i < |x| && j < |y| && |before| + i != |before'| + j
    ensures x[i].regNumber != y[j].regNumber
  {
    assert all[|before| + i] == (before + x)[|before| + i] == x[i];
    assert all[|before'| + j] == (before' + y)[|before'| + j] == y[j];
  }

  /** No registration number is handed over twice, neither in one batch nor in two. */
  lemma BatchesAreDistinct(f: Fetcher, w: World, cfg: SearcherConfig, a: nat, b: nat, i: nat, j: nat)
    requires 1 <= a <= b
    requires i < |Fresh(f, w, cfg, a)| && j < |Fresh(f, w, cfg, b)| && (a < b || i != j)
    ensures Fresh(f, w, cfg, a)[i].regNumber != Fresh(f, w, cfg, b)[j].regNumber
  {
    hide *;
    DeliveredIsDistinct(f, w, cfg, b);
    FreshExtends(f, w, cfg, a);
    FreshExtends(f, w, cfg, b);
    DeliveredGrows(f, w, cfg, a, b);
    if a < b {
      DeliveredGrows(f, w, cfg, a, b - 1);
    }
    SlicesAreDistinct(Delivered(f, w, cfg, b), Delivered(f, w, cfg, a - 1), Fresh(f, w, cfg, a), i,
                      Delivered(f, w, cfg, b - 1), Fresh(f, w, cfg, b), j);
  }

  lemma PassedBeforeTheEnd(f: Fetcher, w: World, cfg: SearcherConfig, onPage: Callback, limit: nat,
                           p: nat, e: End, k: nat)
    requires Ends(f, w, cfg, onPage, limit, p, e)
    requires 1 <= k < p || (1 <= k == p && e.Interrupted?)
    ensures PassedPage(f, w, cfg, onPage, k) && k < limit
  {
  }

  lemma NotPassedAtTheEnd(f: Fetcher, w: World, cfg: SearcherConfig, onPage: Callback, limit: nat,
                          p: nat, e: End)
    requires Ends(f, w, cfg, onPage, limit, p, e)
    ensures 1 <= Attempted(p, e) <= limit
    ensures PassedPage(f, w, cfg, onPage, Attempted(p, e)) ==> Attempted(p, e) == limit
  {
  }

  /** A world leaves a crawl only one way to go: the specification fixes where it ends and how. */
  lemma EndIsUnique(f: Fetcher, w: World, cfg: SearcherConfig, onPage: Callback, limit: nat,
                    p: nat, e: End, p': nat, e': End)
    requires Ends(f, w, cfg, onPage, limit, p, e) && Ends(f, w, cfg, onPage, limit, p', e')
    ensures p == p' && e == e'
  {
    hide PageResult, Fresh;
    var next, next' := Attempted(p, e), Attempted(p', e');
    NotPassedAtTheEnd(f, w, cfg, onPage, limit, p, e);
    NotPassedAtTheEnd(f, w, cfg, onPage, limit, p', e');
    if next < next' {
      PassedBeforeTheEnd(f, w, cfg, onPage, limit, p', e', next);
    } else if next' < next {
      PassedBeforeTheEnd(f, w, cfg, onPage, limit, p, e, next');
    }
  }

  /** Even if every page needs every attempt, waiting alone stays within the four hours that a background crawl
      is given, for every page delay up to 2.4 seconds. */
  lemma WaitingFitsDeadline(f: Fetcher, attempted: nat)
    requires attempted <= DEFAULT_MAX_PAGES && PageDelay(f) <= 2400
    ensures WaitBound(f, attempted) <= 4 * 60 * 60 * 1000
    ensures PageDelay(f) == DEFAULT_PAGE_DELAY ==> WaitBound(f, attempted) <= 5_999_000
  {
    assert attempted * (5 * PageDelay(f)) <= DEFAULT_MAX_PAGES * (5 * PageDelay(f));
    assert attempted > 0 ==> (attempted - 1) * PageDelay(f) <= (DEFAULT_MAX_PAGES - 1) * PageDelay(f);
  }
}
