# SmartTripSpider crawler and savers, modelled in Dafny

SmartTripSpider collects travel data from four sites:

- resorts from mafengwo.cn;
- hotels from hotels.ctrip.com;
- the question count of a mafengwo area;
- places of interest from the Baidu place-search API.

It saves the records in MongoDB, Neo4j or MySQL. This project models the crawler core of
`source/mafengwo/spider.py` and the savers of `source/mafengwo/database.py`, and proves
what they do.

**The network** is an oracle: the outcome of the n-th request attempt is network outcome n.
An outcome is a success with a page, a transient failure (timeouts, proxy, HTTP and redirect
errors) or another request error. `Transport.Network` holds the oracle and counts the
attempts made.

**Pages** are values holding what the spiders' XPath and JSON queries read from them:
- how many result links a page has, and which of them name a scene (景点);
- how many `hotel_info_comment` blocks it has;
- the rows of the detail tables;
- the `page_box` text;
- the `status`, `total` and `results` of an API reply.

**Modules**

| module | models |
|---|---|
| `Transport` | `request_html`: up to ten attempts, retrying only transient failures, the response set to utf-8 |
| `CircuitBreaker` | the failure counter (`num`, `lastPage`) the four page loops share, and when it raises `ValueError('NetWork Unavailable!')` |
| `Walker` | the shared page-loop shape, as one walk over the targets: the request, the shape-check loop that re-fetches a wrong-shaped page, the counter on a failed fetch, and the handler on an accepted page |
| `MafengwoSpiders` | `get_links` (50 search pages, links whose text names a scene) and `run` (every resort page, its location API loop, one record per resort) |
| `CtripSpiders` | `get_page_num`, the list-page loop of `run`, `parse_hotel`'s detail merge and `parse_hotel_detail` with its three tables |
| `QaSpiders` | the area id of `MafengwoQASpider.__init__` and its `get_page_num` |
| `BaiduSpiders` | the tag check, `get_page_num` and `run` over the rectangles |
| `Dumping` | `BaseSpider.dump_data`: the mode check and the file it writes |
| `Savers` | the mode check, `data_save` (loading the files, then one replace-all write per mode), the INSERT statement, both graph cleaners and builders, and the `create_sql` each class sets |
| `Paging` | `int(...)`, `str(...)` and the page formula `total // 20 + 1` |
| `Records`, `Text` | the Python dicts, `update`/`pop`/`setdefault` and the string operations the core calls |

**Loops with no bound.** Some loops in the source never give up: the shape-check loops, the
location loop of `parse_resort`, and the page-count loops of Ctrip and the question spider.
Each has a bound in the model (`fuel`/`cap`). Running out of it is reported as
`OutOfFuel`/`Stalled`. Apart from that and from the two re-fetch lines listed under
"## Findings", which the page walks run as evidently intended, the outcomes are those of the
source.

**Behaviour of the code that the model keeps as written:**
- The page count is `total // 20 + 1`, not the ceiling of `total / 20`. A total that 20
  divides gets one empty last page (`Paging.PageCount`).
- The counter does not reset to zero. On a failure that does not follow the previous one,
  `num` goes back to 1 and `lastPage` stays where it was: that failure starts no run of its
  own (`CircuitBreaker.BreakingFailureNotCounted`).
- Ten consecutive failures raise nothing. The eleventh raises
  (`CircuitBreaker.RunBelowLimit`, `CircuitBreaker.RunTripsAtEleventh`).
- The Ctrip list loop visits `range(1, get_page_num())`, that is pages 1 to n-1.
- `strip('area-')` removes characters, not a prefix. A minus sign in the area name is lost
  (`QaSpiders.AreaIdDropsSign`).

## Model

| member | source | states |
|---|---|---|
| `Transport.Attempts` | source/mafengwo/spider.py:125-161 | the loop reads at least one and at most the remaining budget of network outcomes, and any response it returns is utf-8 |
| `Transport.AttemptsAfterTransients` | source/mafengwo/spider.py:137-148 | transient failures only move the loop on to the next attempt number |
| `Transport.TenTransientFailures` | source/mafengwo/spider.py:145-148 | ten transient failures in a row: ten attempts are made, then `None` |
| `Transport.OtherErrorNoRetry` | source/mafengwo/spider.py:149-154 | any other request error ends the loop at once with `None`, after the transient failures before it |
| `Transport.SuccessWithinBudget` | source/mafengwo/spider.py:128-135 | a success within the ten attempts is returned with its payload and the utf-8 encoding |
| `Transport.FirstSettled` | source/mafengwo/spider.py:127-161 | either all ten attempts fail transiently, or there is a first attempt among them that does not |
| `Transport.ResponseOnlyFromSuccess` | source/mafengwo/spider.py:125-161 | a response comes back if and only if some attempt within the budget succeeded after transient failures only, and it is that attempt's payload |
| `Transport.ResponseFromLast` | source/mafengwo/spider.py:156-157 | a response is the payload of the last outcome the loop read |
| `Transport.Network.constructor` | source/mafengwo/spider.py:101-161 | a network starts with no attempt made |
| `Transport.Network.RequestHtml` | source/mafengwo/spider.py:101-161 | the request loop returns exactly `Request` of the oracle, and advances the attempt count to where it stopped |
| `CircuitBreaker.OnFailureValid` | source/mafengwo/spider.py:332-342 | the counter stays within 1..11 and raises only at 11 |
| `CircuitBreaker.FreshIgnoresLastPage` | source/mafengwo/spider.py:332-334 | while `num == 1` the value of `lastPage` makes no difference to anything that follows |
| `CircuitBreaker.FeedAppend` | source/mafengwo/spider.py:329-342 | feeding one more failure is one more counter step |
| `CircuitBreaker.ChainedStep` | source/mafengwo/spider.py:335-342 | one step keeps the invariant that the last `num - 1` failures were at consecutive positions ending at `lastPage` |
| `CircuitBreaker.ChainedFeed` | source/mafengwo/spider.py:329-342 | any run of failures keeps that invariant |
| `CircuitBreaker.TripNeedsElevenAdjacent` | source/mafengwo/spider.py:335-342 | the counter raises only after eleven failures at strictly consecutive positions, the last of which raises |
| `CircuitBreaker.RunBelowLimit` | source/mafengwo/spider.py:332-340 | from `num == 1`, k ≤ 10 consecutive failures move the counter to k + 1 with `lastPage` at the last of them, raising nothing |
| `CircuitBreaker.RunTripsAtEleventh` | source/mafengwo/spider.py:335-342 | the eleventh consecutive failure raises |
| `CircuitBreaker.BreakingFailureNotCounted` | source/mafengwo/spider.py:335-337 | a failure that breaks a run is not counted: the eleven consecutive failures after it do not raise |
| `Walker.Recheck` | source/mafengwo/spider.py:310-328 | the shape-check loop accepts only a page of the right shape, ends at once on one, raises only the mismatch error or `None.text`, and never moves back in the network |
| `Walker.FetchCheckedPage` | source/mafengwo/spider.py:303-328 | the request and the shape-check loop as the spiders run them give exactly `FetchChecked` of the oracle |
| `Walker.MismatchesThenAccepted` | source/mafengwo/spider.py:310-328 | k wrong-shaped pages, then a right one, cost exactly k extra requests and give the right page, without touching the counter |
| `Walker.RecheckMismatches` | source/mafengwo/spider.py:311-328 | the same, once the first page was fetched |
| `Walker.VisitTargetCounts` | source/mafengwo/spider.py:309-342 | a visited page passed the shape check; only a fetch that gave no page goes to the counter, and it is Unavailable exactly when the counter raises |
| `Walker.MismatchThenMatch` | source/mafengwo/spider.py:310-328 | a wrong-shaped then a right page: re-fetching gets the right page; a loop that raises on a mismatch ends on it |
| `Walker.VisitPage` | source/mafengwo/spider.py:301-342 | one loop iteration up to its handler, as run, is exactly the visit value |
| `Walker.WalkAccounts` | source/mafengwo/spider.py:301-342 | every handled page passed the shape check, and every page either gave a page or a failure, unless the walk stopped early |
| `Walker.WalkFeedsFailures` | source/mafengwo/spider.py:329-342 | the counter sees exactly the failed positions in order; the walk is Unavailable exactly when feeding them raises |
| `Walker.UnavailableAfterElevenAdjacent` | source/mafengwo/spider.py:329-342 | a walk stops as Unavailable only after eleven failures at consecutive positions |
| `Walker.WalkFailedInOrder` | source/mafengwo/spider.py:301-342 | failures are reported only for targets, in increasing order |
| `Walker.ConcatMapAppend` | source/mafengwo/spider.py:318-319 | the items of two runs of pages are those of each, in order |
| `Walker.WalkItems` | source/mafengwo/spider.py:301-328 | when the handler gives `f(page)`, the walk's items are those of its pages, in order |
| `Walker.RangeElements` | source/mafengwo/spider.py:301 | `range(lo, hi)` holds the `hi - lo` integers from `lo`, in order |
| `Walker.RangeIncreasing` | source/mafengwo/spider.py:301 | `range(lo, hi)` is increasing |
| `Walker.Advance` | source/mafengwo/spider.py:301-342 | one loop iteration, with what it leaves of the walk: an accepted page hands the rest to its handler, a counted failure moves on, anything else ends the walk |
| `MafengwoSpiders.ProxyerAbandonsListing` | source/mafengwo/spider.py:323 | a wrong-shaped search page ends the walk with AttributeError as written; re-fetching gets the right page |
| `MafengwoSpiders.ProxyerAbandonsResort` | source/mafengwo/spider.py:230 | the same for a resort page |
| `MafengwoSpiders.SceneHrefsFilters` | source/mafengwo/spider.py:318-319 | the filter keeps the href of every anchor whose text names a scene and only such hrefs, and no more than there are anchors |
| `MafengwoSpiders.SceneHrefsAppend` | source/mafengwo/spider.py:318-319 | the filter keeps anchor order |
| `MafengwoSpiders.SceneHrefsAll` | source/mafengwo/spider.py:318-319 | all anchors name a scene: all hrefs are kept in order; none does: none is kept |
| `MafengwoSpiders.Locate` | source/mafengwo/spider.py:414-426 | the location loop ends only on a reply of the API that carries `data`, the last one it read |
| `MafengwoSpiders.LocateRound` | source/mafengwo/spider.py:415-426 | a reply with `data` ends the loop; anything else, a `None` reply included, asks again |
| `MafengwoSpiders.LocateSpent` | source/mafengwo/spider.py:414 | with no requests left the loop gives up where it is |
| `MafengwoSpiders.ResortHandled` | source/mafengwo/spider.py:224-226 | an accepted resort page appends its record exactly when the location loop succeeds |
| `MafengwoSpiders.IndexOf` | source/mafengwo/spider.py:239 | `links.index(link)` is the first position of the link |
| `MafengwoSpiders.Positions` | source/mafengwo/spider.py:237-247 | the counter takes, for each link, the first position at which the link occurs, never past its own |
| `MafengwoSpiders.PositionsOfDistinct` | source/mafengwo/spider.py:237-247 | with no repeated link the positions are the list indices |
| `MafengwoSpiders.RepeatedLinkSharesPosition` | source/mafengwo/spider.py:241 | a repeated link is counted at its first position both times |
| `MafengwoSpiders.MafengwoSpider.constructor` | source/mafengwo/spider.py:184-197 | a spider starts with no links and no records, its visits on its network |
| `MafengwoSpiders.MafengwoSpider.ListOne` | source/mafengwo/spider.py:302-342 | one search page appends its scene links, and ends the walk or leaves the rest of it to the next page |
| `MafengwoSpiders.MafengwoSpider.GetLinks` | source/mafengwo/spider.py:285-342 | `links` gains exactly the items of the walk over pages `pStart..pEnd`, the network stands where the walk ends, and the walk's end is returned |
| `MafengwoSpiders.MafengwoSpider.FetchLocation` | source/mafengwo/spider.py:414-426 | the loop as run is exactly the location value |
| `MafengwoSpiders.MafengwoSpider.CollectOne` | source/mafengwo/spider.py:214-247 | one resort link appends its record, and ends the walk or leaves the rest of it to the next link |
| `MafengwoSpiders.MafengwoSpider.CollectResorts` | source/mafengwo/spider.py:213-247 | `data` gains exactly the records of the walk over the link positions, one per accepted page, in order |
| `MafengwoSpiders.MafengwoSpider.Run` | source/mafengwo/spider.py:199-247 | the links of pages 1 to 50, then, if that walk ended normally, the resort records of all links |
| `CtripSpiders.JoinLineAbandonsPage` | source/mafengwo/spider.py:492-494 | a wrong-shaped list page ends the walk with TypeError as written; re-fetching gets the right page |
| `CtripSpiders.PageStr` | source/mafengwo/spider.py:574-580 | the page-count loop ends only on a page with a non-empty `page_box` text, the last one read, and gives that text |
| `CtripSpiders.SetDefaultsKeys` | source/mafengwo/spider.py:746-749 | a table ends up with its keys and every row's key |
| `CtripSpiders.SetDefaultsKeeps` | source/mafengwo/spider.py:749 | `setdefault` never overwrites a key |
| `CtripSpiders.SetDefaultsFirstWins` | source/mafengwo/spider.py:749 | a new key gets the value of the first row that has it |
| `CtripSpiders.Kept` | source/mafengwo/spider.py:752-755 | the rows the loop goes on to are rows of the table whose key is not skipped |
| `CtripSpiders.KeptKeepsUnskipped` | source/mafengwo/spider.py:752-755 | only a skipped row is dropped |
| `CtripSpiders.PolicyFilterAsWritten` | source/mafengwo/spider.py:754 | as written the policy loop skips every row and leaves `hotel_policy` empty; the intended test keeps every other row |
| `CtripSpiders.DetailKeysDistinct` | source/mafengwo/spider.py:701-707 | the five detail keys are distinct |
| `CtripSpiders.DetailDict` | source/mafengwo/spider.py:701-707 | a detail dict has the five keys, in order, with the values given |
| `CtripSpiders.DefaultDetail` | source/mafengwo/spider.py:701-707 | an unfetched detail page gives no contact, no introduction and three empty tables |
| `CtripSpiders.DetailRecord` | source/mafengwo/spider.py:731-763 | AttributeError exactly when a non-empty phone text has no match; otherwise the five keys, the policy table being `setdefault` over the rows the given policy test does not skip |
| `CtripSpiders.DetailContents` | source/mafengwo/spider.py:731-742 | the contact is the phone match and the introduction the stripped description, each `None` exactly when its text is empty or the intro block is missing |
| `CtripSpiders.DetailTables` | source/mafengwo/spider.py:743-763 | the facilities and surroundings tables are `setdefault` over all their rows |
| `CtripSpiders.TableKeys` | source/mafengwo/spider.py:746-763 | a table's keys are exactly the keys of the rows its loop does not skip |
| `CtripSpiders.AsWrittenPolicyEmpty` | source/mafengwo/spider.py:750-756 | with the test as written, `hotel_policy` is always empty |
| `CtripSpiders.IntendedPolicyKept` | source/mafengwo/spider.py:750-756 | with the intended test, `hotel_policy` has exactly the keys of the policy rows other than the child policy and the payment methods |
| `CtripSpiders.DetailOf` | source/mafengwo/spider.py:712-769 | every detail dict has the five keys and an empty `hotel_policy`, the policy test being the one written; an unfetched page gives the default dict |
| `CtripSpiders.DetailFetchKeys` | source/mafengwo/spider.py:688-769 | every detail dict it returns has the five keys and an empty `hotel_policy` |
| `CtripSpiders.HotelsFromCount` | source/mafengwo/spider.py:497-498 | one record per hotel element, in order, all of them unless a detail fetch raised |
| `CtripSpiders.HotelsFromKeys` | source/mafengwo/spider.py:497-498 | each record kept is its hotel's brief record with the five detail keys put in |
| `CtripSpiders.UpdateAddsDetailKeys` | source/mafengwo/spider.py:684 | `item.update(detail)` puts the detail keys into the hotel record |
| `CtripSpiders.CtripSpider.constructor` | source/mafengwo/spider.py:449-462 | `page_url` is the base URL followed by the area name; no records |
| `CtripSpiders.CtripSpider.GetPageNum` | source/mafengwo/spider.py:562-582 | `int(page_str)` of where the page-count loop ends |
| `CtripSpiders.CtripSpider.Tabulate` | source/mafengwo/spider.py:746-763 | the table loop gives `setdefault` over the rows it does not skip |
| `CtripSpiders.CtripSpider.ReadDetail` | source/mafengwo/spider.py:731-763 | the reading of an accepted detail page is exactly `DetailRecord` with the policy test as written |
| `CtripSpiders.CtripSpider.ParseHotelDetail` | source/mafengwo/spider.py:688-769 | `parse_hotel_detail` as run is exactly the detail value, whose `hotel_policy` is always empty |
| `CtripSpiders.CtripSpider.ParseHotels` | source/mafengwo/spider.py:497-498 | `data` gains exactly the hotel loop's records, and it raises what the loop raised |
| `CtripSpiders.CtripSpider.WalkPages` | source/mafengwo/spider.py:473-512 | `data` gains exactly the items of the walk over list pages `1..n-1` |
| `CtripSpiders.CtripSpider.Run` | source/mafengwo/spider.py:466-512 | the page count, raising when it fails, then the walk over `range(1, count)` |
| `QaSpiders.QaPageNum` | source/mafengwo/spider.py:877-886 | the page-count loop never moves back in the network and fails only by running out of requests |
| `QaSpiders.QaCountFromReply` | source/mafengwo/spider.py:877-886 | a count comes only from the last reply read, which had a non-zero total, and is `total // 20 + 1` of it |
| `QaSpiders.QaFirstReplyCounts` | source/mafengwo/spider.py:877-886 | a first reply with a non-zero total settles the count at once |
| `QaSpiders.QaSkipsReply` | source/mafengwo/spider.py:881-883 | a reply without `data`, without `total` or with a total of 0 is asked again |
| `QaSpiders.DigitsKept` | source/mafengwo/spider.py:804 | `strip('area-')` leaves a run of digits alone |
| `QaSpiders.PrefixDropped` | source/mafengwo/spider.py:804 | `strip('area-')` removes any run of its characters before the digits |
| `QaSpiders.AreaIdAfter` | source/mafengwo/spider.py:804 | any run of those characters, then the digits of n, gives the id n |
| `QaSpiders.AreaIdOf` | source/mafengwo/spider.py:804 | `area-<n>` gives the id n |
| `QaSpiders.AreaIdDropsSign` | source/mafengwo/spider.py:804 | `area--<n>` gives the id n: the sign is stripped |
| `QaSpiders.QaSpider.constructor` | source/mafengwo/spider.py:792-805 | the spider's id is the area name's |
| `QaSpiders.QaSpider.New` | source/mafengwo/spider.py:792-805 | the ValueError of `int(...)` and no spider exactly when the name does not strip to a number |
| `QaSpiders.QaSpider.GetPageNum` | source/mafengwo/spider.py:861-886 | the loop as run is exactly `QaPageNum` |
| `BaiduSpiders.CheckTag` | source/mafengwo/spider.py:961-962 | RuntimeError exactly for a tag outside `LEGAL_TAGS` |
| `BaiduSpiders.PageNum` | source/mafengwo/spider.py:1065-1087 | RuntimeError("Request Error!") without a reply, RuntimeError(message) for a refused one, otherwise `total // 20 + 1` |
| `BaiduSpiders.ReplyHandled` | source/mafengwo/spider.py:1041-1044 | a refused reply ends the walk with its message; an accepted one adds exactly its results |
| `BaiduSpiders.BaiduSpider.constructor` | source/mafengwo/spider.py:948-965 | the spider keeps its key, area and tag; no records |
| `BaiduSpiders.BaiduSpider.New` | source/mafengwo/spider.py:948-965 | RuntimeError and no spider exactly for a tag outside `LEGAL_TAGS` |
| `BaiduSpiders.BaiduSpider.GetPageNum` | source/mafengwo/spider.py:1065-1087 | the request as run is exactly `PageNum` |
| `BaiduSpiders.BaiduSpider.WalkRectangle` | source/mafengwo/spider.py:1032-1059 | `data` gains exactly the items of the walk over pages `0..n-1` |
| `BaiduSpiders.BaiduSpider.CollectRectangle` | source/mafengwo/spider.py:1030-1059 | one rectangle: the page count, then its pages |
| `BaiduSpiders.BaiduSpider.Run` | source/mafengwo/spider.py:1029-1060 | `data` gains the rectangles' items in order, up to the first rectangle that does not end normally |
| `Dumping.DumpOf` | source/mafengwo/spider.py:82-95 | RuntimeError exactly for a mode outside `SAVE_MODES`; json writes the whole list |
| `Dumping.TxtOfLines` | source/mafengwo/spider.py:94-95 | a list of strings is written one line each; before an item that is not a string the lines are kept, then TypeError |
| `Dumping.LinesSplit` | source/mafengwo/spider.py:94-95 | the txt file splits back at line breaks into the strings |
| `Dumping.WriteLines` | source/mafengwo/spider.py:94-95 | the txt loop writes exactly `TxtOf` |
| `Dumping.DumpData` | source/mafengwo/spider.py:72-98 | `dump_data` is exactly `DumpOf` |
| `Savers.ModeName` | source/mafengwo/database.py:73 | every mode is named in `SAVE_MODES` |
| `Savers.ParseMode` | source/mafengwo/database.py:88-89 | RuntimeError exactly for a name outside `SAVE_MODES`; otherwise the mode of that name |
| `Savers.LoadAppend` | source/mafengwo/database.py:121-127 | loading two runs of names is loading each, in order |
| `Savers.LoadSnoc` | source/mafengwo/database.py:122-127 | one more name adds its file's records, or reports its path |
| `Savers.LoadMissing` | source/mafengwo/database.py:123-125 | a file is reported missing exactly when a named file is, and it is the first such |
| `Savers.Pick` | source/mafengwo/database.py:230-236 | a dict of the keys exactly when the record has them all; KeyError for a missing key otherwise |
| `Savers.PickEntries` | source/mafengwo/database.py:230-236 | exactly the keys, each with the record's value |
| `Savers.PlaceholderKey` | source/mafengwo/database.py:146 | a placeholder is `%(`, then its key, then `)s`, so its key reads back |
| `Savers.Placeholders` | source/mafengwo/database.py:146 | one placeholder per key, in order, each naming the key it was made from |
| `Savers.InsertLists` | source/mafengwo/database.py:144-150 | the column list splits back into the keys, and the value list into one placeholder per key, in order |
| `Savers.PlaceholdersNoComma` | source/mafengwo/database.py:146 | a placeholder holds a comma only if its key does |
| `Savers.Rows` | source/mafengwo/database.py:159 | `executemany` formats each record: KeyError exactly when some record lacks a key, else one row per record |
| `Savers.FirstUnknown` | source/mafengwo/database.py:159 | a key that is no column is found exactly when there is one |
| `Savers.SqlWriteReplaces` | source/mafengwo/database.py:141-160 | the table then holds exactly the records, cut to the first record's keys, in order, and no other table changes |
| `Savers.SqlWriteKeepsRows` | source/mafengwo/database.py:141-160 | each error case leaves every row as it was: IndexError, no `create_sql`, the blank template |
| `Savers.Matched` | source/mafengwo/database.py:216 | the pattern matches exactly the ends of the edges joining such nodes |
| `Savers.KeepNodes` | source/mafengwo/database.py:216 | detach delete keeps exactly the nodes not matched |
| `Savers.KeepEdges` | source/mafengwo/database.py:216 | and exactly the edges at no matched node |
| `Savers.KeptLabel` | source/mafengwo/database.py:276 | a kept node keeps its label |
| `Savers.CleanLeavesNoMatch` | source/mafengwo/database.py:276 | after the clean no edge joins nodes of the pattern |
| `Savers.ResortsOf` | source/mafengwo/database.py:229-241 | the resort builder leaves the records alone |
| `Savers.ResortsGrowth` | source/mafengwo/database.py:229-241 | the builder only adds; without error, two nodes and one edge per record |
| `Savers.ResortsRaise` | source/mafengwo/database.py:230-236 | the builder fails exactly when a record lacks a key, with KeyError for one of the keys |
| `Savers.ResortRounds` | source/mafengwo/database.py:237-241 | two nodes and one edge per record |
| `Savers.ResortsClosed` | source/mafengwo/database.py:229-241 | a run without error adds exactly each record's `locate` node, `resort` node and `isLocateOf` edge, in order, after the old graph |
| `Savers.ResortRoundsAt` | source/mafengwo/database.py:237-241 | record j gives nodes 2j and 2j+1 and edge j |
| `Savers.NestedKeysDistinct` | source/mafengwo/database.py:297-301 | the three nested keys are distinct |
| `Savers.HotelRoundShape` | source/mafengwo/database.py:303-314 | five fresh consecutive ids with the five labels; each edge is at the hotel node |
| `Savers.HotelsOf` | source/mafengwo/database.py:289-314 | the hotel builder leaves as many records as it found |
| `Savers.StrippedKeeps` | source/mafengwo/database.py:297-301 | a stripped record lacks the nested keys and keeps every other key, value and order |
| `Savers.HotelStepPops` | source/mafengwo/database.py:297-304 | a round pops the three keys off a record that has them, whether or not it then raises |
| `Savers.PopsStrip` | source/mafengwo/database.py:297-301 | the three pops leave the stripped record |
| `Savers.HotelsGrowth` | source/mafengwo/database.py:289-314 | the builder only adds; without error, five nodes and four edges per record |
| `Savers.HotelsRaise` | source/mafengwo/database.py:292-307 | the builder fails exactly when a record lacks a key or a nested value is not a dict |
| `Savers.HotelsRaiseKind` | source/mafengwo/database.py:292-307 | it raises only KeyError or the TypeError of `**` on a non-dict |
| `Savers.HotelRounds` | source/mafengwo/database.py:303-314 | five nodes and four edges per record |
| `Savers.HotelsClosed` | source/mafengwo/database.py:289-314 | a run without error adds exactly each record's round, in order, after the old graph |
| `Savers.HotelRoundsAt` | source/mafengwo/database.py:303-314 | record j gives nodes 5j..5j+4 and edges 4j..4j+3, its hotel node holding the stripped record |
| `Savers.HotelsPopped` | source/mafengwo/database.py:297-301 | a run without error leaves as many records as there were, each in its place without its three nested dicts |
| `Savers.SaveMissing` | source/mafengwo/database.py:121-127 | a missing file raises RuntimeError with the first missing path before any database is touched, and only then is RuntimeError raised |
| `Savers.SaveMongoReplaces` | source/mafengwo/database.py:129-134 | the last name's collection then holds exactly all the records; nothing else changes |
| `Savers.SaveMongoEmpty` | source/mafengwo/database.py:132-134 | without records the collection is dropped all the same, then TypeError |
| `Savers.SaveMySqlEmpty` | source/mafengwo/database.py:144 | without records IndexError, and nothing is written |
| `Savers.SaveGraphOf` | source/mafengwo/database.py:135-140 | neo4j mode cleans the graph, then builds on what is left |
| `Savers.SaveResortsGraph` | source/mafengwo/database.py:135-140 | the resort graph is replaced by exactly the records' rounds, when all have the seven keys |
| `Savers.SaveHotelsGraph` | source/mafengwo/database.py:135-140 | the hotel graph is replaced by exactly the records' rounds, and `json_data` is left stripped |
| `Savers.SaveBaseMySql` | source/mafengwo/database.py:103-106 | the base class cannot write MySQL: AttributeError, nothing written |
| `Savers.Saver.constructor` | source/mafengwo/database.py:76-106 | a saver's `create_sql` is that of its class and mode |
| `Savers.Saver.New` | source/mafengwo/database.py:88-89 | RuntimeError and no saver exactly for a mode outside `SAVE_MODES` |
| `Savers.Saver.GraphCleaner` | source/mafengwo/database.py:216 | the clean of the saver's class, nothing else |
| `Savers.Saver.BuildResorts` | source/mafengwo/database.py:229-241 | the loop as run gives exactly `ResortsOf` |
| `Savers.Saver.BuildHotels` | source/mafengwo/database.py:289-314 | the loop as run gives exactly `HotelsOf`, records written back popped |
| `Savers.Saver.GraphBuilder` | source/mafengwo/database.py:167-168 | the builder of the saver's class |
| `Savers.Saver.LoadFiles` | source/mafengwo/database.py:121-127 | `json_data` becomes exactly the loaded records, up to the first missing file |
| `Savers.Saver.DataSave` | source/mafengwo/database.py:109-160 | `data_save` is exactly `SaveOf`, whose properties are proved above |
| `Paging.PageCount` | source/mafengwo/spider.py:886 | `total // 20 + 1` is the r with 20(r-1) ≤ total < 20r |
| `Paging.ParseNumber` | source/mafengwo/spider.py:582 | only ValueError can come out of `int(...)` |
| `Paging.ParseGroups` | source/mafengwo/spider.py:582 | digits grouped by single underscores are the number their digits write |
| `Paging.UnderscoreIgnored` | source/mafengwo/spider.py:582 | an underscore between two runs of digits does not change the number |
| `Paging.ParseInt` | source/mafengwo/spider.py:582 | `int(s)` ignores surrounding white space; only ValueError |
| `Paging.NatToString` | source/mafengwo/spider.py:804 | digits, no sign, no white space at either end |
| `Paging.DigitsOfNat` | source/mafengwo/spider.py:804 | the digits of n read back as n |
| `Paging.ParseNumberOf` | source/mafengwo/spider.py:582 | `int(str(n)) == n` |
| `Paging.ParseIntToString` | source/mafengwo/spider.py:582 | `int(str(n)) == n`, with any white space around it |
| `Paging.ParseIntNeedsDigits` | source/mafengwo/spider.py:582 | text without a digit is never a number |
| `Paging.ParseNumberNeedsDigits` | source/mafengwo/spider.py:582 | the same without white space |
| `Records.Update` | source/mafengwo/spider.py:684 | `update` gives the keys of both, the values of the argument winning and the others kept; the old keys keep their places and the new ones follow |
| `Records.UpdateWellFormed` | source/mafengwo/spider.py:684 | it keeps a dict a dict |
| `Records.Pop` | source/mafengwo/database.py:297-301 | `pop` gives the key's value and a dict without the key, every other key keeping its value; KeyError exactly when the key is missing |
| `Records.PopKeyOrder` | source/mafengwo/database.py:297-301 | putting the key back at its old place gives the old key order, so `pop` moves no other key |
| `Records.PopWellFormed` | source/mafengwo/database.py:297-301 | it keeps a dict a dict |
| `Records.FromPairs` | source/mafengwo/spider.py:701-707 | a dict display: the keys in order with their values |
| `Text.SplitJoinComma` | source/mafengwo/database.py:145 | `','.join` splits back at commas, when no piece holds one |
| `Text.SplitJoin` | source/mafengwo/database.py:146 | `', '.join` splits back at commas, each later piece with its space |
| `Text.StripSurrounded` | source/mafengwo/spider.py:804 | `strip(chars)` removes exactly the characters around the text |

## Left out

- Parsing HTML and JSON: the XPath queries, `etree.HTML` and `json()` are abstract. Each
  page type holds the query results the code reads.
- `parse_resort` beyond its location loop, and `parse_hotel` beyond merging its detail dict:
  the extracted fields are part of the page value.
- Floating point: `coord_div` and its rectangles, latitudes and longitudes, scores. The Baidu
  rectangles are the parameter `bounds` of `BaiduSpider.Run`.
- Clocks, dates, headers, proxies and `time.sleep`: they change no result the model tracks.
  `get_recent_date` is not part of this model.
- The final `self.dump_data(...)` of each `run` is modelled apart, in `Dumping`. The runs
  stop before it.
- `MafengwoQASpider.run` and `parse_question` are not part of this model.
- The drivers: pymongo, py2neo and pymysql are in-memory stores. py2neo drops `None`
  properties and chooses its own ids; the Cypher text is not parsed. MySQL is modelled on its
  committed state: a failed `executemany` leaves the old rows.
- `__del__` and the connections' lifetime.
- Paging.ParseInt: `int()` and `str.strip()` know the white space of `str.isspace`, an
  optional sign, ASCII digits and underscores between them; the other Unicode decimal digits
  (such as "１２"), which Python's `int()` also accepts, are read as not a number.
- Anchors of a search page: their text and href are always strings. lxml gives `None` for
  an anchor without text, and `'景点' in None` at spider.py:318 would raise TypeError; that
  error is not modelled.
- MafengwoSpiders.MafengwoSpider.GetLinks: a wrong-shaped search page is re-fetched, where the
  source raises AttributeError on `self.proxyer` (spider.py:323, see "## Findings");
  `ProxyerAbandonsListing` states what the source does.
- MafengwoSpiders.MafengwoSpider.CollectResorts: a wrong-shaped resort page is re-fetched,
  where the source raises AttributeError on `self.proxyer` (spider.py:230);
  `ProxyerAbandonsResort` states what the source does.
- MafengwoSpiders.MafengwoSpider.Run: it runs `GetLinks` and `CollectResorts` with those
  re-fetches.
- CtripSpiders.CtripSpider.WalkPages: a list page without hotel elements is re-fetched, where
  the source raises TypeError at the two-argument `'/'.join` (spider.py:492-494);
  `JoinLineAbandonsPage` states what the source does.
- CtripSpiders.CtripSpider.Run: it runs `WalkPages` with that re-fetch.
- Walker.Recheck: the shape-check loops are bounded by `cap`, which the source does not have;
  running out gives `Stalled` and `OutOfFuel`.
- MafengwoSpiders.Locate: the location loop is bounded by `fuel`, which the source does not
  have; running out ends `run` with `OutOfFuel`.
- CtripSpiders.PageStr: the page-count loop is bounded by `fuel`, which the source does not
  have; running out gives `OutOfFuel`.
- QaSpiders.QaPageNum: the page-count loop is bounded by `fuel`, which the source does not
  have; running out gives `OutOfFuel`.
- Savers.Pick: its KeyError is for a key that is missing, not proved to be the first missing
  key the dict display evaluates.
- Savers.ResortsOf: it is stated for any key list; the saver uses it with the seven keys of
  the `locate` node.

## Findings

The first two rows are corrected in the page walks, which re-fetch as intended. The policy
test of the third is kept as written in the spider, since it changes only the dict that comes
out: `DetailRecord` takes the policy test as a parameter, the spider passes the written one,
and the intended one is proved about separately.

| source | as written | input that shows it | evidently intended | confidence | as-written member | corrected member |
|---|---|---|---|---|---|---|
| source/mafengwo/spider.py:230 | a wrong-shaped page reads `self.proxyer`, whose assignment at line 56 is commented out, so AttributeError ends `get_links` (line 323) and `run` (line 230) | a search page without 15 result links, then a right one | re-fetch the page, as the comment above the line says | high, not executed | `MafengwoSpiders.ProxyerAbandonsListing` | `MafengwoSpiders.MafengwoSpider.GetLinks` |
| source/mafengwo/spider.py:492-494 | the re-fetch calls `'/'.join(self.page_url, f'p{page}')` with two arguments, so TypeError ends `run` | a list page without hotel elements, then a right one | re-fetch `'/'.join([self.page_url, f'p{page}'])`, as line 477 does | high, not executed | `CtripSpiders.JoinLineAbandonsPage` | `CtripSpiders.CtripSpider.WalkPages` |
| source/mafengwo/spider.py:754 | `key == "儿童政策" or "可用支付方式"` is always true, so `hotel_policy` stays empty | a policy row whose key is 入住和离店 | skip only the child-policy and payment rows | high, not executed | `CtripSpiders.AsWrittenPolicyEmpty` | `CtripSpiders.IntendedPolicyKept` |
