# zakupki-search: a verified model

zakupki-search keeps named searches ("searchers", or profiles) of the state procurement site, crawls the site's result
pages for each of them in the background and hands what it finds to zakupki-core. This project models the parts of the
service that keep promises over whole runs, and proves those promises. The site, the database, core, the clock and the
file system appear as environments that may behave in any way at all.

- `Text`, `Escaping`, `LinkScanner`, `HitParser`: from the text of a result page to its hits. The regular expression is
  a predicate on matches, with a leftmost-first preference; a scanner is proved to find what the expression prefers.
- `Rendering`, `RenderedSite`: result pages put together from links, which the parser reads back, and a site made of
  them, for which the theorems of `Listing` hold from page text to delivery.
- `Hits`, `Crawl`, `Listing`: the paged walk with its retries, page limit, stop rule, callback and cancellation. A
  `World` value fixes what the site answers at each attempt and when the context ends; theorems hold for every world.
  `Listing` adds a site that serves a list which grows while it is read.
- `Json`, `EisConfig`, `SearcherConfig`, `UrlValues`, `Conversions`: the two forms of the filters, their JSON, their
  queries, the parameters that these send, and the ways from one form to the other.
- `Profiles`, `ProfileLaws`: the table of profiles, its SQL statements as operations of a store, the two handlers that
  read a row and write it back, and what any run of operations keeps.
- `RunProtocol`, `RunServer`, `RunProvenance`, `RunSlots`, `RunOrder`, `RunAnomalies`: run requests, update requests, background
  crawls and store operations, interleaved in atomic steps. A path id is one of the spellings that the database reads
  as an id, spelling 0 being the canonical text, or a text that it rejects.
- `SearcherCrawl`, `CrawlRun`: the background crawl, what it sends to core, and how that is a run of the protocol.
- `Migrations`: any number of migration runners at once, with failures at every step.
- `Sessions`: logins, lookups, logouts and the removal of expired sessions.

Where the code keeps less than one might expect, the theorems say exactly when it keeps it:

- The slot of a run is taken under the text of the path and freed under the profile's own id. `Server.runs` is right
  throughout a run if and only if every slot was taken under canonical text (`RunSlots.SlotsThroughoutARun`); any other
  spelling leaks its slot until the process restarts and lets a second crawl of the profile start.
- A crawl of a list that grows while it is read delivers the list that it began with if and only if its pages cover
  that list in time: fewer than 50 insertions between any two of them, and no more than their rows before the page
  behind them (`Listing.CompleteUnderChurn`).
- The profile is read before the slot is taken, so the versions sent to core may fall; `RunAnomalies.VersionsMayFall`
  is a run in which they do. With canonical paths they stay in order if and only if every run that sends something took
  its slot with a snapshot no older than what had been sent for its profile (`RunOrder.VersionsInOrderExactly`).
- An update writes back every column that it does not name as it read it, so changes in between are lost
  (`RunAnomalies.UpdatesInBetweenAreLost`).
- Decoding undoes encoding exactly for positive page sizes; the two ways from the older form agree exactly under a
  condition on the page-size text (`Conversions.LegacyPathsCommute`).
- README.md:105-107 recommends that tenders no longer found be removed from core. The code sends each page with the
  append-only flag set (internal/httpapi/searchers.go:332), and the model follows the code.

## Model

| member | source | states |
|---|---|---|
| Text.TrimSpaceTrims | internal/models/searcher_config.go:136 | Trimming leaves a text without outer spaces, and leaves it alone exactly if it had none |
| Text.TrimSpaceCuts | internal/models/searcher_config.go:136 | Trimming cuts spaces off both ends and nothing else |
| Text.JoinSplit | internal/models/searcher_config.go:252 | Joining the parts of a split text gives the text back, for every text and separator |
| Text.SplitJoin | internal/models/searcher_config.go:252 | Splitting a join gives the parts back if no part holds the separator's first character |
| Text.AtoiItoa | internal/eissearch/fetch.go:200 | The decimal text of a page number is read back as that number |
| Text.AtoiMeans | internal/models/searcher_config.go:111 | A number is digits after at most one sign, within 64 bits, and the sign decides |
| Escaping.UnescapeEscape | internal/eissearch/fetch.go:330-333 | The single replacement pass undoes the escaping of any text, and does not reread its own output |
| Escaping.UnescapeLosesOneLayer | internal/eissearch/fetch.go:330-333 | Text escaped twice loses exactly one layer |
| Escaping.TheReferences | internal/eissearch/fetch.go:331 | The five references and the characters they stand for, wherever they stand |
| Escaping.UnescapeFixesReferenceFree | internal/eissearch/fetch.go:330-333 | The pass leaves a text alone exactly if none of the five references occurs in it |
| LinkScanner.FindRefinesPattern | internal/eissearch/fetch.go:35 | The scanner reports a match exactly if the expression has one: first href, last key in it with at least ten digits, longest run up to 25 |
| LinkScanner.FirstMatchIsFound | internal/eissearch/fetch.go:35 | The preferred match is unique, and it is what the scanner reports |
| LinkScanner.FindAllRefinesPattern | internal/eissearch/fetch.go:302 | The matches of the global search are the successive preferred matches, with none left behind the last |
| LinkScanner.PatternTexts | internal/eissearch/fetch.go:35 | href, regNumber and purchaseNoticeNumber count in small and capital letters |
| Hits.FirstOccurrencesKeepNumbers | internal/eissearch/fetch.go:206-214 | Removing repeated numbers loses no number and keeps none twice |
| Hits.FirstOccurrencesCount | internal/eissearch/fetch.go:216 | As many hits are kept as there are different numbers |
| Hits.FirstOccurrencesGrow | internal/eissearch/fetch.go:206-214 | More hits behind a list only add behind what was kept of it |
| HitParser.ParseHits | internal/eissearch/fetch.go:273-299 | The loop returns the hits of the page; in block mode each has number and link from a match in its block, law "44" exactly if 44-ФЗ stands in the block in any case, "223" exactly if 223-ФЗ does and 44-ФЗ does not, and none otherwise; in global mode none tells a law |
| HitParser.ParseHitsGlobal | internal/eissearch/fetch.go:301-317 | The loop returns the first occurrences among the hits of all successive matches, without a law |
| HitParser.MatchedNumberIsWellFormed | internal/eissearch/fetch.go:35 | Whatever matches, the number has 10 to 25 digits and lies in a quote-free link |
| HitParser.BlockHitMeaning | internal/eissearch/fetch.go:279-297 | A block yields nothing exactly if the expression does not match in it, and otherwise its preferred match with the law shown in the block |
| HitParser.BlockHitsMeaning | internal/eissearch/fetch.go:279-297 | There is at most one hit a block, each from a match in its own block and with the law shown there |
| HitParser.PageHitsMeaning | internal/eissearch/fetch.go:273-317 | For every page: well-formed numbers, links and laws of the hit's own block, fewer hits than parts in block mode, distinct numbers and no law in global mode |
| HitParser.LinksCompleted | internal/eissearch/fetch.go:319-328 | Absolute links are kept, links from the root are put behind the base, others are kept; spaces around do not count |
| HitParser.SlashesTrimmed | internal/eissearch/fetch.go:325 | The base loses its closing slashes and nothing else |
| Rendering.RenderedLinkIsRead | internal/eissearch/fetch.go:280-296 | A block around an escaped link gives back number, completed link and the law that it shows, whatever path it has and whatever stands around it |
| Rendering.RenderedPageIsRead | internal/eissearch/fetch_test.go:70-72 | A page of such blocks is read back entry by entry, in order |
| Crawl.GetRetry | internal/eissearch/fetch.go:230-247 | Up to three attempts, each but the last failed, none after a pause in which the context was done; the result is that of the last, or a cancellation; the pauses last two and three page delays |
| Crawl.TakeFresh | internal/eissearch/fetch.go:206-214 | What a page adds, given what was seen, extends the first occurrences of everything before to those with the page |
| Crawl.FetchPage | internal/eissearch/fetch.go:189-205 | One page: cancellation at the top or in the pause, then GETs whose values are those of the filters with the page number and 50 rows set over them, then parsing |
| Crawl.FetchPages | internal/eissearch/fetch.go:180-228 | Ends where and how the specification says, with `total` the number of distinct numbers of the pages walked, one callback call a page, bounded waiting, and at most three GETs a page, each asking for its page and otherwise for exactly what the filters ask for |
| Crawl.FetchFirstPages | internal/eissearch/fetch.go:169-176 | Returns the first occurrences of the walked pages put together, whatever ended the walk |
| Crawl.Get | internal/eissearch/fetch.go:250-270 | A GET succeeds exactly with a response of status below 300, and brings its text |
| Crawl.PageLimit | internal/eissearch/fetch.go:181-186 | A limit from 1 to 1000 is taken as it is, everything else as 1000 |
| Crawl.PageDelay | internal/eissearch/fetch.go:79-84 | A positive delay is taken as it is, everything else as one second |
| Crawl.EndIsUnique | internal/eissearch/fetch.go:188-227 | The specification allows one number of pages and one way to end |
| Crawl.FlattenedCalls | internal/eissearch/fetch.go:217-221 | The batches handed to the callback, put together, are the first occurrences of all pages |
| Crawl.FreshExtends | internal/eissearch/fetch.go:206-216 | Each page extends what was delivered by exactly its fresh hits |
| Crawl.DeliveredIsDistinct | internal/eissearch/fetch.go:187-214 | What is delivered has each number of the pages exactly once |
| Crawl.BatchesAreDistinct | internal/eissearch/fetch.go:187-214 | No number is handed over twice, in one batch or in two |
| Crawl.PassedBeforeTheEnd | internal/eissearch/fetch.go:188-226 | Every page before the end was had, added something and was accepted, below the limit |
| Crawl.WaitingFitsDeadline | internal/httpapi/searchers.go:315 | Even with every retry, waiting stays within four hours for page delays up to 2.4 seconds |
| Listing.PageQueryAsksFor | internal/eissearch/fetch.go:199-201 | Whatever page size the filters hold, the query of page k asks for entries 50(k-1) to 50k |
| Listing.DeliveredIsPrefix | internal/eissearch/fetch.go:187-226 | On a list that grows slowly, k pages deliver exactly the part of the first list that they have covered |
| Listing.StopsBehindTheList | internal/eissearch/fetch.go:222-226 | While the list grows slowly and below the page limit, a crawl stops only once the first list is covered |
| Listing.EarlierPagesReachTheList | internal/eissearch/fetch.go:222-226 | Every page before the last one began within the first list |
| Listing.SlowGrowthIsHarmless | internal/eissearch/fetch.go:187-226 | With fewer than 50 insertions between any two pages, an error-free crawl delivers the first list as far as the limit reaches behind the insertions, at least its first limit + 49 entries |
| Listing.CompleteUnderChurn | internal/eissearch/fetch.go:187-226 | Whatever is inserted at the head meanwhile, an error-free crawl delivers exactly the list that it began with if and only if some number of pages covers that list in time |
| Listing.LargeInsertionStopsTheCrawl | internal/eissearch/fetch.go:222-226 | Fifty insertions or more after any page end the crawl with the next one, if that still begins behind them all: exactly the part covered by then is delivered |
| Listing.LargerInsertionShows | internal/eissearch/fetch.go:206-226 | More insertions than rows before the next page: what is delivered holds a number that the first list had not |
| Listing.StableListing | internal/eissearch/fetch.go:158-228 | A list of N distinct entries under a limit of M: min(N, 50 M) are delivered in min(M, ceil(N/50) + 1) pages |
| RenderedSite.PageTextIsRead | internal/eissearch/fetch.go:273-299 | A rendered page, empty or not, is read back as the hits of its entries |
| RenderedSite.ASiteCanServe | internal/eissearch/fetch_test.go:33-46 | For any filters and any changing list of renderable entries there is a site that serves it |
| RenderedSite.SimpleEntryRenders | internal/eissearch/fetch_test.go:70-72 | Entries like those of the service's tests are renderable |
| RenderedSite.RenderedListIsDelivered | internal/eissearch/fetch.go:180-299 | From page text to delivery: a crawl of such a site that nobody cancels completes and delivers the first list, while that grows slowly |
| RenderedSite.RenderedListUnderChurn | internal/eissearch/fetch.go:180-299 | However fast the list grows at its head, that crawl delivers the first list exactly if its pages cover it in time |
| UrlValues.OlderQueryValues | internal/models/eis_config.go:63-130 | The value of every parameter in terms of the fields: "on" for flags that are set, "true" for strict equality, trimmed texts, dates and prices that are given, the order or UPDATE_DATE, "true" or "false" for the direction, the page size or "_10", page "1"; no other parameter, none without a text |
| UrlValues.QueryValues | internal/models/searcher_config.go:134-218 | The same for the newer form, with "_10", "_20" or "_50" for the page size, trimmed dates, and the values of its seven parameters more |
| UrlValues.RecordsPerPageParam | internal/models/searcher_config.go:118-124 | Only 10, 20 and 50 are sent as page sizes; 50 stands for all others |
| UrlValues.ValuesSay | internal/models/searcher_config.go:134-218 | The values of a query say exactly what it has for each parameter |
| UrlValues.ValuesWithoutNewParams | internal/models/eis_config.go:63-130 | Dropping the seven newer parameters from a query drops these names from its values, and nothing else |
| SearcherConfigs.UnmarshalJSON | internal/models/searcher_config.go:65-116 | Succeeds exactly if every member present is null or of its field's type; each field is then its own member's value, or the interface's default without one; older names count where the newer ones say nothing; on an error the receiver keeps its value |
| SearcherConfigs.NoMembersMeanDefaults | internal/models/searcher_config.go:50-62 | An object without any of the members, or with nulls only, means these literal defaults |
| SearcherConfigs.DecodeEncode | internal/models/searcher_config.go:65-116 | What is stored is read back, with 50 for a page size that is not positive |
| SearcherConfigs.DecodeEncodeExact | internal/models/searcher_config.go:65-116 | Reading back is exact precisely for positive page sizes |
| SearcherConfigs.DecodedPageSize | internal/models/searcher_config.go:103-116 | A decoded page size is a nonzero 64-bit number, negative only if it came as a text |
| Conversions.ToEISSearchConfig | internal/models/searcher_config.go:229-260 | The converted filters send the same values without the seven newer parameters, and list the codes of the text, each of them a code, in normal form |
| Conversions.CollectCodes | internal/models/searcher_config.go:251-258 | The loop collects the trimmed, nonblank parts |
| Conversions.CodesMean | internal/models/searcher_config.go:251-258 | The codes of a text are exactly what its comma-separated parts hold between their spaces, but for blank ones |
| Conversions.CodesOfJoin | internal/models/searcher_config.go:251-301 | Any list of trimmed, nonempty, comma-free codes survives joining and splitting |
| Conversions.NormalCodesIdempotent | internal/models/searcher_config.go:251-301 | Normalising the code text is idempotent on every text and never changes the codes that it lists |
| Conversions.OlderDecoded | internal/models/searcher_config.go:65-101 | The older form's JSON decodes to what the direct conversion makes, the page size aside |
| Conversions.LegacyPathsCommute | internal/models/searcher_config.go:262-303 | The two ways from the older form agree exactly if the page-size text survives quoting as JSON or means 50 anyway |
| Conversions.VerticalTabSeparatesTheWays | internal/models/searcher_config.go:276 | A page-size text for which they differ |
| Conversions.QuerySurvivesConversion | internal/models/searcher_config.go:229-260 | The older form asks for the same query without the seven newer parameters, for every configuration |
| Conversions.QueryAfterRoundTrip | internal/models/searcher_config.go:229-303 | The exact query after going to the older form and back |
| Conversions.QueryRestored | internal/models/searcher_config.go:229-303 | Going there and back restores the query exactly if only older filters are used and the codes are in normal form |
| Profiles.Store.constructor | internal/db/db.go:14-16 | A store over given rows, all of whose ids count as used |
| Profiles.Store.CreateSearchProfile | internal/db/search_profiles.go:52-68 | Exactly if neither the id nor the user's name is taken: a new row at version 1 with these columns and no other change; what is returned are its columns |
| Profiles.Store.UpdateSearchProfile | internal/db/search_profiles.go:70-100 | The named columns of the user's row are written, the version rising by one exactly if the stored JSON differs; a name taken by another row of the user, a foreign or unknown id changes nothing |
| Profiles.Store.SetSearcherAutoAI | internal/db/search_profiles.go:102-113 | Only the flag and the time of change are written |
| Profiles.Store.TouchSearcherRun | internal/db/search_profiles.go:115-126 | Only the run time and the time of change are written |
| Profiles.Store.DeleteSearchProfile | internal/db/search_profiles.go:128-138 | The owner's row is removed and no other |
| Profiles.Store.Write | internal/db/search_profiles.go:144-164 | A written row is returned as it decodes; undecodable filters are an error and stay written |
| Profiles.Store.HandleUpdateSearcher | internal/httpapi/searchers.go:107-155 | Succeeds exactly when it can; then the row holds the filters, the trimmed name and the auto-AI flag that the request names, everything else is as it was, and the version has risen by one exactly if the stored filters changed |
| Profiles.Store.HandleUpdateProfile | internal/httpapi/profiles.go:100-159 | The same with config before eis_config, enabled, description and source; an unknown source is refused without a write |
| ProfileLaws.ApplyVersions | internal/db/search_profiles.go:70-100 | One operation raises a version by one exactly if it changes the stored filters, and starts new rows at 1 |
| ProfileLaws.VersionDeterminesConfig | internal/db/search_profiles.go:61-126 | At any two moments of any run, versions do not fall and equal versions mean equal stored filters |
| ProfileLaws.VersionCountsChanges | internal/db/search_profiles.go:83-87 | Along any run, the version rises by exactly the number of changes of the stored filters |
| ProfileLaws.RunFollows | internal/db/search_profiles.go:52-142 | Ids are not reused, owners stay, versions do not fall, along any run |
| ProfileLaws.OneWriteBack | internal/httpapi/searchers.go:110-134 | A call without new filters writes what it read, or nothing |
| ProfileLaws.WriteBacksSettle | internal/db/search_profiles.go:70-100 | Any number of calls without new filters: exactly these filters are left and the version has risen by exactly so much |
| ProfileLaws.WriteBackRaisesAtMostTwice | internal/models/searcher_config.go:103-116 | At most by two, and by two only if the page size was stored as a text that holds a negative number |
| RunServer.Server.constructor | internal/httpapi/server.go:29-40 | The server starts with no runs, requests or crawls |
| RunServer.Server.HandleRunSearcher | internal/httpapi/searchers.go:226-311 | The handler, early returns included, performs exactly the steps of the protocol, notes the run time of a readable profile and nothing else in the table, and replies accordingly |
| RunServer.Server.SyncPage | internal/httpapi/searchers.go:332-334 | A page is sent with the id, name and version that the crawl was started with |
| RunServer.Server.FinishCrawl | internal/httpapi/searchers.go:314 | The end of a crawl deletes the slot of the profile's own id |
| RunProvenance.NextKeepsProvenance | internal/httpapi/searchers.go:226-343 | Every step keeps: snapshots, crawls and sent batches carry filters that their version stood for |
| RunProvenance.HistoryIsComplete | internal/db/search_profiles.go:61-100 | Whatever filters a row ever held stay noted under the version it had |
| RunProvenance.HistoryIsReal | internal/db/search_profiles.go:61-100 | Nothing is noted that a row did not hold at some moment with that version |
| RunProvenance.SyncProvenance | internal/httpapi/searchers.go:229-338 | In every interleaving, a batch sent with version v was asked for with filters that its profile held at version v, and v is at most the version stored now |
| RunProvenance.EqualVersionsEqualFilters | internal/httpapi/searchers.go:332 | All batches of a profile with one version were asked for with the same filters |
| RunSlots.NextKeepsSlots | internal/httpapi/searchers.go:245-314 | Every step keeps the slots right, except a slot taken under other than canonical text, which always breaks them |
| RunSlots.SlotsThroughoutARun | internal/httpapi/searchers.go:286-314 | `Server.runs` names exactly the runs that are on throughout a run if and only if every slot was taken canonically |
| RunSlots.OneCrawlPerProfile | internal/httpapi/searchers.go:286-314 | With canonical paths, in every interleaving: at most one crawl a profile, exact slots, none left when no run is on |
| RunSlots.AtMostOneRun | internal/httpapi/searchers.go:286-314 | What right slots mean for two runs of one profile, and for an idle server |
| RunSlots.TheReplyNamesTheRun | internal/httpapi/searchers.go:286-297 | A request takes its slot exactly if no run of the profile is on; otherwise its reply names the run that is |
| RunSlots.EndedCrawlFreesItsSlot | internal/httpapi/searchers.go:314 | A crawl that ends frees its own slot and no other |
| RunSlots.LeakedSlotsStay | internal/httpapi/searchers.go:286-314 | A slot under another spelling stays, with its run id, until a restart |
| RunSlots.RequestStartsOrJoins | internal/httpapi/searchers.go:226-311 | An undisturbed request of a readable profile starts a crawl, or joins the run under the text of its path |
| RunSlots.FurtherRequestJoins | internal/httpapi/searchers.go:286-297 | While a profile is crawled, a further request joins exactly if its path is canonical; otherwise there are two crawls |
| RunOrder.VersionsInOrderExactly | internal/httpapi/searchers.go:229-332 | With slots taken canonically, the versions sent for every profile stay in order throughout a run if and only if every run that sends something took its slot with a snapshot no older than what had been sent |
| RunOrder.FreshSnapshotsKeepOrder | internal/httpapi/searchers.go:229-332 | So they never fall where every slot is taken while the snapshot's version is still the stored one |
| RunAnomalies.LateRequestSendsWhatItRead | internal/httpapi/searchers.go:229-332 | From any state with a request that is about to take a free slot: another run of the profile sends the stored version, and then this request sends the version it read; the log is out of order if that is lower |
| RunAnomalies.VersionsMayFall | internal/httpapi/searchers.go:229-332 | A run from the start, with canonical paths only, that sends version 2 and then version 1, whatever the filters are and are changed to |
| RunAnomalies.SomeVersionsFall | internal/httpapi/searchers.go:229-332 | Such runs exist |
| RunAnomalies.UpdatesInBetweenAreLost | internal/httpapi/searchers.go:110-134 | An update restores every column that its request does not name (name, description, source, filters, enabled, auto-AI) to what it read, whatever was stored in between |
| RunAnomalies.AutoAIInBetweenIsLost | internal/httpapi/searchers.go:169-200 | In particular, a switch of auto-AI between the read and the write is undone |
| SearcherCrawl.ToItems | internal/httpapi/searchers.go:322-331 | The loop makes one item a hit, in order |
| SearcherCrawl.SyncPage | internal/httpapi/searchers.go:318-336 | The callback: nothing for a page that added nothing, otherwise one call with its items under the starting version, whose error is the callback's |
| SearcherCrawl.CrawlSearcher | internal/httpapi/searchers.go:313-343 | However it ends: `pages` and `total` count what was parsed; each call carries its page's fresh hits under the starting version; all accepted but a last refused one; core has exactly the distinct hits of a prefix of pages |
| SearcherCrawl.SentNumbersAreDistinct | internal/httpapi/searchers.go:318-337 | In all that a crawl sends, no number occurs twice |
| CrawlRun.CrawlIsARun | internal/httpapi/searchers.go:313-343 | Whatever a crawl sends, in whatever state of the service: its calls and its end are steps of the protocol, which log exactly these calls and free the slot |
| CrawlRun.SentNumbersComeFromTheirVersion | internal/httpapi/searchers.go:229-338 | Every number sent for version v of a profile stood on an answer to a GET for that page of exactly what the filters ask for that the profile held at version v |
| Migrations.Database.constructor | internal/db/db.go:46-53 | A fresh database has nothing applied |
| Migrations.WhatCounts | internal/db/db.go:60-63 | A file is a migration exactly if its name ends in .sql; a directory never is |
| Migrations.BeforeMeans | internal/db/db.go:55 | Names are ordered by their first different character, prefixes first |
| Migrations.Database.Migrate | internal/db/db.go:45-95 | One runner: its steps are steps of the machine; it succeeds exactly if nothing fails that it needs; otherwise it stops at the first failing entry with exactly what was applied before, and that entry too if only the commit's reply was lost |
| Migrations.NextKeepsConsistent | internal/db/db.go:60-92 | Every step of every runner keeps the applied set a prefix and each open transaction on its predecessors' schema |
| Migrations.ExactlyOnceInOrder | internal/db/db.go:45-95 | In every run of any runners with any failures, the first files are applied, once each and in order; all of them once a runner succeeds |
| Migrations.ExecutedOnItsPredecessors | internal/db/db.go:79-91 | A body about to be committed ran on exactly the migrations before it |
| Migrations.RunOnlyAdds | internal/db/db.go:60-92 | Nothing that was applied is undone |
| Migrations.ThenNothingChanges | internal/db/db.go:65-73 | Once all is applied, any further run is without effect |
| Migrations.GrownDirectory | internal/db/db.go:55-63 | Files sorted behind all others may be added between runs |
| Sessions.SessionStore.constructor | internal/db/sessions.go:12-17 | A table without sessions |
| Sessions.SessionStore.CreateSession | internal/db/sessions.go:12-17 | A new row unless the hash is taken |
| Sessions.SessionStore.UserByTokenHash | internal/db/sessions.go:19-38 | The user of an unexpired session, and nobody otherwise |
| Sessions.SessionStore.DeleteSession | internal/db/sessions.go:40-43 | The row of the hash is removed and no other |
| Sessions.SessionStore.DeleteExpiredSessions | internal/db/sessions.go:45-51 | Exactly the expired rows are removed, and counted |
| Sessions.TokenAcceptedExactlyWhileLoggedIn | internal/httpapi/auth.go:46-93 | A token is accepted exactly if a login made it, it has not expired and no logout ended it, whatever was cleaned up |
| Sessions.CleanupIsInvisible | internal/db/sessions.go:45-51 | A clean-up put anywhere into a run changes no answer of any lookup |

## Left out

- JSON text: values are abstract; that encoding/json matches keys whatever their case, and takes the last of repeated members, is not modelled.
- Numbers in JSON are exact values; a whole number written with a fraction or an exponent, which Go refuses for an int, is not told from its plain form, and rounding and formatting of floats are left out.
- Texts are sequences of characters; invalid UTF-8, the 4 MiB limit on a response and the case folding of characters outside the service's own patterns do not appear.
- `strconv.Quote`: which characters count as printable is a parameter of the conversions.
- `url.Values.Encode` and the URL itself: a query is a record of its 28 parameters.
- 64-bit overflow of `config_version` and of durations.
- Connections, TLS, certificate files, HTTP routing, cookies, CORS, response bodies and log lines.
- The core client: core is an environment that accepts or refuses each call; categories ensured after a create or update and tender counts have no effect on what is modelled and are left out.
- SQL failures inside the profile store, and NUL characters, which jsonb refuses; each statement is one atomic step.
- Deadlines: the four-hour limit of a crawl appears as cancellation at any point of the walk; only waiting is measured, not the time that GETs take.
- Run ids, profile ids and token hashes are given as fresh; password and token hashing is not part of this model.
- Row listing, per-user filtering as a claim of its own, users, and the read-only handlers: they would only add easy members.
- Migration bodies with transaction control of their own, or that touch schema_migrations; a migration file that changes while runners are at work, or that is added before an applied one.
- Crawl.FetchPages: the callback is a function of its page and hits, so a callback that changes shared state appears through the list of calls that were made.
- Listing.CompleteUnderChurn: entries that leave the list or change places during a crawl are not covered.
