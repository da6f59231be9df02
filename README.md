# Dark-pool trade tracker: a Dafny model of its core

The system records large stock trades and analyses how much volume trades at
supply and demand price levels. Four programs make up its core:

- `ingestor.py` reads the live trade feed. A websocket handler pushes every
  message onto a bounded queue. A worker takes the messages off that queue,
  classifies each trade as a dark-pool **block** trade or a large **lit**
  trade, and inserts it into one of two tables.
- `backfill.py` pages through a ticker's historical trades. It stores the
  ones that pass its own block or lit rule, and counts pages, downloads and
  saved rows. Its entry point first cleans up the tickers file.
- `main.py` is the analysis service. It provides:
  - a walker that folds every page of a ticker's history into level totals;
  - supply/demand levels, each with one volume-tracking row and a list of
    absorption segments;
  - the job registry (`jobs_db`), with absorption jobs and volume jobs;
  - linking a finished job to a level, and deleting jobs and levels;
  - the status and last-absorption date of the levels timeline.
- `bot.py` is the chat bot. The parts modelled here are its day-summary
  grouping, pagination arithmetic, page buttons, large-number suffixes and
  job progress bar.

## Modelling choices

- Each database table is an in-memory map, set or sequence.
  - The trade tables are sets, so `ON CONFLICT DO NOTHING` is set union.
  - Levels and tracking rows are maps keyed by level id.
  - Segments are a sequence.
- Mutable state is a class with `modifies` clauses:
  - `Tables.TradeTables`;
  - `Registry.SdStore`;
  - `Jobs.JobRegistry` (which holds `jobs_db`);
  - `Ingestor.MessageQueue`, `Ingestor.Handler` and `Ingestor.Worker`;
  - `Display.PaginatorView`.
- Each loop is a method proved against a specification function. This covers the walker's `while url`, the backfill page loop, the worker's batch loop and the bot's grouping loops.
- The outside world is passed in as parameters:
  - a `Provider.History` stands for the market-data API;
  - the failing inserts are a set of batch positions;
  - the cache is an optional set of totals;
  - the current time is an integer;
  - the trade-time window is a predicate.
- Prices, values and percentages are `real`. Volumes and counts are `int`.

## Model

| member | source | states |
|---|---|---|
| Classifier.LiveVerdictMeaning | ingestor.py:84-113 | The live verdict is Block exactly when exchange 4 has a TRF id and value ≥ 1,000,000. It is Lit exactly when the trade is not a dark-pool trade and value ≥ 10,000,000. A dark-pool trade below the block floor is never Lit. |
| Classifier.LiveBlockIsBackfillBlock | backfill.py:93-95 | Every trade the live rule stores as block also passes the backfill block rule. |
| Classifier.BlockRulesDiffer | backfill.py:93-95 | The two block rules differ in one direction only: backfill keeps dark-pool trades the live rule drops (value below 1,000,000 but ≥ 200,000, or quantity ≥ 10,000). |
| Classifier.LitRulesAgree | backfill.py:107-109 | The backfill lit rule and the live lit rule agree on every trade. |
| Classifier.BlockDisagreementExample | backfill.py:94 | A 10,000-share dark-pool print worth 250,000 is a backfill block but goes to neither live table. |
| Classifier.LiveIsBlock | ingestor.py:84 | The live block rule: exchange 4, a TRF id present and value ≥ 1,000,000. |
| Classifier.LiveIsLit | ingestor.py:100 | The live lit rule: not a dark-pool print (exchange 4 with a TRF id) and value ≥ 10,000,000. |
| Classifier.LiveVerdict | ingestor.py:84-113 | The `if`/`elif` of the worker: Block when the block rule holds, else Lit when the lit rule holds, else Neither. Its meaning is proved in Classifier.LiveVerdictMeaning. |
| Classifier.BackfillIsBlock | backfill.py:93-95 | The backfill block rule: kept unless the exchange is not 4, the TRF id is missing, or quantity < 10,000 and value < 200,000. |
| Classifier.BackfillIsLit | backfill.py:107-109 | The backfill lit rule: kept unless it is a dark-pool print or value < 10,000,000. |
| Wrappers.Field.Get | ingestor.py:95 | `d.get(key, default)`: the default only for an absent key, `None` exactly for a `null`. |
| Ingestor.TimeField | ingestor.py:76-78 | The timestamp is `trft` when present, else `t`. It is missing only when both are missing. |
| Ingestor.Crashes | ingestor.py:65-71 | An element raises before its transaction when it is not an event object (it has no `.get`), or when it is a `T` event whose `s` or `p` is `null` (`size * price` raises TypeError). |
| Ingestor.CrashAt | ingestor.py:65-79 | The position of the first element that raises before its transaction; every element before it does not raise. It is the batch length when none raises. |
| Ingestor.Considered | ingestor.py:66-78 | The worker classifies an element only when it is a `T` event with a `trft` or `t` timestamp. |
| Ingestor.KeptBlock | ingestor.py:84-98 | An element ends up in `block_trades` when it is an event object that does not raise, passes the live block rule, and its insert does not raise. |
| Ingestor.KeptLit | ingestor.py:100-113 | An element ends up in `lit_trades` when it is an event object that does not raise, passes the live lit rule, and its insert does not raise. |
| Ingestor.StoredBlocks | ingestor.py:65-119 | The set of block rows of the kept elements of a run: the row of each element that reaches the try without raising, is a live block, and whose insert does not fail. The `conditions` column is `c`, `[]` when the key is absent and NULL when it is `null`. |
| Ingestor.StoredLits | ingestor.py:65-119 | The set of lit rows of the kept elements of a run, on the same terms as StoredBlocks with the lit rule. |
| Ingestor.NullConditionsStored | ingestor.py:95 | A live block is stored with its `c` list as `conditions`: `[]` when the key is absent, NULL when it is `null`. |
| Ingestor.StoredRowsMeaning | ingestor.py:65-119 | A run of elements stores a block or lit row for exactly those elements that are kept. Stored block rows are valid and worth ≥ 1,000,000, and stored lit rows are valid. |
| Ingestor.StoredBlocksMeaning | ingestor.py:65-99 | A block row is stored exactly for the kept live-block elements, and every stored block row is valid and worth ≥ 1,000,000. |
| Ingestor.StoredLitsMeaning | ingestor.py:65-113 | A lit row is stored exactly for the kept live-lit elements, and every stored lit row is valid. |
| Ingestor.LiveRowsValid | ingestor.py:84-113 | The row of a live block satisfies the `block_trades` row invariant and is worth ≥ 1,000,000. The row of a live lit trade satisfies the `lit_trades` row invariant. |
| Ingestor.MalformedEventLosesRest | ingestor.py:65-71 | A `T` event with a `null` size ends the worker, so a live block after it in the same batch is not stored. The same block alone would be stored. |
| Ingestor.RedeliveryStoresUnion | ingestor.py:91 | Over a whole batch with no crashing element (`StoredBlocks`/`StoredLits` of the full batch, not of a prefix cut at CrashAt), processing it twice stores the union of both runs. A trade is lost only if its insert failed both times. Re-processing never removes or duplicates rows. |
| Ingestor.MessageQueue.constructor | ingestor.py:161 | The queue starts empty with the given capacity. |
| Ingestor.MainQueue | ingestor.py:29 | The shared queue starts empty with capacity `QUEUE_MAXSIZE` = 100,000. |
| Ingestor.MessageQueue.Put | ingestor.py:138 | A put appends at the back. The caller must see a non-full queue. |
| Ingestor.MessageQueue.Get | ingestor.py:51 | A get removes and returns the front message (FIFO). |
| Ingestor.Handler.constructor | ingestor.py:124-129 | A handler keeps its key and queue, and starts with `raw_count` 0. |
| Ingestor.NewHandler | ingestor.py:124-127 | Construction fails exactly when the API key is empty. |
| Ingestor.Handler.OnMessage | ingestor.py:136-138 | Each message bumps `raw_count` by one and is appended to the queue. |
| Ingestor.Worker.constructor | ingestor.py:47-49 | A worker starts alive, with `raw_count` 0, over the given tables. |
| Ingestor.Worker.HandleTrade | ingestor.py:65-119 | The element raises before its transaction exactly when it `Crashes`. Otherwise it adds its block row, its lit row or nothing, following the live rule and the failing set. Nothing else changes. |
| Ingestor.Worker.StoreTrade | ingestor.py:76-119 | An event object that does not raise adds its block row when it is a live block and its insert does not fail, its lit row when it is a live lit trade and its insert does not fail, and nothing otherwise. |
| Ingestor.Worker.HandleBatch | ingestor.py:65-119 | The tables gain exactly the rows stored by the elements before the first one that raises. The worker survives exactly when no element raises. |
| Ingestor.Worker.HandleMessage | ingestor.py:52-120 | `raw_count` goes up by one. An unparseable message changes no table and the worker goes on. A JSON value that is not a list of elements ends the worker and changes no table. A list adds exactly the rows stored before its first raising element, and the worker survives exactly when there is none. |
| Ingestor.Worker.Step | ingestor.py:50-120 | A live worker takes the front message off the queue and handles it, with the same outcomes as HandleMessage. |
| Tables.TradeTables.constructor | ingestor.py:84-113 | Both trade tables start empty. |
| Tables.TradeTables.InsertBlock | backfill.py:97-106 | Insert-or-ignore into `block_trades`. It reports whether a row was added, and the size grows by exactly that. |
| Tables.TradeTables.InsertLit | backfill.py:110-119 | Insert-or-ignore into `lit_trades`. It reports whether a row was added, and the size grows by exactly that. |
| Tables.ClearBlocks | backfill.py:169-177 | Removes exactly the rows of this ticker inside the window. |
| Tables.ClearLits | backfill.py:169-177 | Removes exactly the rows of this ticker inside the window. |
| Tables.TradeTables.ClearBlockWindow | backfill.py:165-178 | The window delete on `block_trades`. It leaves `lit_trades` alone. |
| Tables.TradeTables.ClearLitWindow | backfill.py:165-178 | The window delete on `lit_trades`. It leaves `block_trades` alone. |
| Backfill.Eligible | backfill.py:87 | A trade is considered only when its size, price and timestamp are truthy and it has an exchange. |
| Backfill.StoredBlocks | backfill.py:87-106 | Every block row a page stores is valid and carries the ticker. |
| Backfill.StoredLits | backfill.py:107-119 | Every lit row a page stores is valid and carries the ticker. |
| Backfill.StoredRowsMeaning | backfill.py:87-119 | The stored rows are exactly the rows of the trades that are eligible and pass the mode's rule. Eligible means size, price and timestamp are truthy and there is an exchange. |
| Backfill.Store | backfill.py:77-122 | The tables after a run of trades: the mode's table gains the stored rows, and the other table is unchanged. The `conditions` column is NULL for a `null` list (see Backfill.NullConditionsStored). |
| Backfill.NullConditionsStored | backfill.py:83 | A kept block is stored with its `conditions` list: `[]` when the key is absent, NULL when it is `null`. |
| Backfill.StoreSnoc | backfill.py:77-122 | Storing one more trade adds at most that trade's row to the mode's table. |
| Backfill.VisitedPages | backfill.py:45-131 | The pages the loop stores: each has results, and each but the last has a `next_url`. |
| Backfill.VisitedStep | backfill.py:128-131 | A page with results and a `next_url` is followed by the next page. |
| Backfill.FollowedPrefix | backfill.py:45-134 | The pages visited from page j are pages j..i followed by those visited from i. |
| Backfill.ChainStopsAt | backfill.py:45-134 | The loop stops at a fetch error, at empty results, or after a page without `next_url`. |
| Backfill.FollowedLinks | backfill.py:128-131 | Counts the visited pages that carry a `next_url`: at most the pages visited, zero exactly when none has one, and all of them exactly when each has one. |
| Backfill.Backfilled | backfill.py:31-137 | One `backfill_data` call leaves the tables as storing the trades of the visited pages says. |
| Backfill.FollowedLinksSnoc | backfill.py:129-131 | Each visited page with a `next_url` adds exactly one followed link. |
| Backfill.StoreTrade | backfill.py:77-122 | Inserts the trade's row when the rule keeps it. `affected` is true exactly when a row was added. |
| Backfill.StoreNext | backfill.py:77-122 | One more result of a page moves the tables to the state after it. The number of rows grows by one exactly when `cur.rowcount` is set. |
| Backfill.StorePage | backfill.py:75-125 | After a page the tables equal `Backfill.Store` of all trades so far. `saved_this_page` counts the new rows and is ≤ the page length. |
| Backfill.TakePage | backfill.py:56-131 | One pass over a url answered with results stores its page and keeps the tables, downloads and followed links in step with `Backfill.Store`, `Provider.Trades` and `Backfill.FollowedLinks`. The chain then goes on to the next url, or the visited pages end with this one. |
| Backfill.BackfillData | backfill.py:31-137 | The final tables are `Backfill.Backfilled`, the store of every visited page. `page_count` = 1 + followed links. `total_downloaded` is the number of visited results. `total_saved` is the number of new rows, and `total_saved` ≤ `total_downloaded`. |
| Backfill.BackfillTicker | backfill.py:160-181 | One ticker: clear its window, then backfill it. |
| Backfill.StoreTwiceSame | backfill.py:103 | Storing the same trades twice equals storing them once. |
| Backfill.TickerList | backfill.py:156 | One ticker per non-blank line, so the list has the length of `Backfill.NonBlank` and is no longer than the file. |
| Backfill.NonBlank | backfill.py:156 | Keeps exactly the lines that are not blank after `strip()`: every kept line is such a line of the file, and every such line is kept. |
| Backfill.TickerOfLine | backfill.py:156 | A non-blank stripped, upper-cased line is a well-formed ticker: non-empty, no outer spaces, no lower-case letters. |
| Backfill.TickerListShape | backfill.py:156 | There is one ticker per non-blank line, and every one is well-formed. |
| Backfill.RunTicker | backfill.py:160-181 | One ticker of the run: a ticker that is not alphanumeric changes nothing, and the table of the other mode is never touched. |
| Backfill.RunAll | backfill.py:160-181 | The run over the list, ticker after ticker. The table of the other mode is never touched. |
| Backfill.Backfillable | backfill.py:160-163 | The tickers the run backfills are exactly the alphanumeric ones of the list. |
| Backfill.BackfillableSnoc | backfill.py:160-163 | One more ticker adds itself to the backfilled list exactly when it is alphanumeric. |
| Backfill.RunSnoc | backfill.py:160-181 | The run over one more ticker is that ticker's step after the run so far. |
| Backfill.VisitTicker | backfill.py:160-181 | The body of the `for` loop: the tables move as RunTicker says, and the ticker is backfilled exactly when it is alphanumeric. |
| Backfill.RunTickers | backfill.py:160-181 | The loop leaves the tables as RunAll says and gives exactly the backfilled tickers. |
| Backfill.RunLeavesOtherTickers | backfill.py:160-181 | A run over the ticker list never touches rows of tickers outside that list. |
| Backfill.RerunTickerSame | backfill.py:165-181 | Re-running a ticker over the same history gives the same tables, when the window covers every fetched trade. |
| Backfill.RunBackfill | backfill.py:140-181 | A missing API key or tickers file is an error that changes nothing. Otherwise every alphanumeric ticker of the list is run in order, and the result lists exactly those tickers. |
| Text.IsAlnum | backfill.py:161 | `isalnum()` on ASCII: the text is non-empty and every character is an ASCII letter or digit. |
| Text.Upper | backfill.py:156 | `upper()` on ASCII letters: each lower-case ASCII letter becomes upper-case, every other character is kept, so the length is kept. |
| Text.UpperIdempotent | backfill.py:156 | Upper-casing twice is upper-casing once. The result has no lower-case letters. |
| Text.StripLeft | backfill.py:156 | Removes exactly the leading whitespace, as `str.isspace` defines it (ASCII and Unicode spaces). |
| Text.StripRight | backfill.py:156 | Removes exactly the trailing whitespace, as `str.isspace` defines it (ASCII and Unicode spaces). |
| Text.Strip | backfill.py:156 | `strip()` is the trailing strip after the leading strip. |
| Text.StripShape | backfill.py:156 | The stripped line is empty iff the line is all whitespace. It has no outer whitespace, and stripping is idempotent. |
| Text.FindSep | main.py:1420 | Finds the first occurrence of the separator, or reports that there is none. |
| Text.Split | main.py:1420 | `str.split(sep)` yields at least one part, and no part contains `sep`. |
| Text.JoinCons | main.py:1420 | Joining a list that starts with x gives x, the separator, then the rest joined. |
| Text.SplitAtFirst | main.py:1420 | The first part of a split is the text before the first separator. The rest is the split of what follows it. |
| Text.CutAround | main.py:1420 | Text with a separator at k is the part before k, the separator, then the part after. |
| Text.SplitThenJoin | main.py:1420 | Joining the parts with the separator gives back the text. |
| Text.NoSepWithoutT | main.py:1420 | Text without a 't' contains no " to ". |
| Text.FirstSepAfterPrefix | main.py:1420 | In a + " to " + b with no 't' in a, the first separator is right after a. |
| Text.SplitRangeRoundTrip | main.py:1420 | a + " to " + b splits back into exactly [a, b] when neither contains a 't'. |
| Dates.IsLeap | main.py:69 | A year is a leap year under the Gregorian rule: divisible by 4, except centuries not divisible by 400. |
| Dates.DaysInMonth | main.py:69 | A month has 28 to 31 days, and 29 exactly for February of a leap year. |
| Dates.MonthAt | main.py:69 | A `%m` field followed by '-' reads a month from 1 to 12 in one or two digits. |
| Dates.DayAt | main.py:69 | A `%d` field reads a day from 1 to 31 in one or two characters. |
| Dates.ParseDate | main.py:69 | `strptime('%Y-%m-%d')` with ASCII digits accepts only real calendar dates. |
| Dates.ParseDateString | main.py:64-70 | A date is returned unchanged. A string must parse. Anything else is an error. |
| Dates.ParsedTextHasNoLetters | main.py:69 | Accepted date text holds only digits, '-' and spaces. |
| Dates.IsoFormat | main.py:512-513 | `isoformat()` yields ten characters. |
| Dates.FourDigits | main.py:512-513 | A number below 10,000 is the sum of its four decimal digits times their place values. |
| Dates.ParseIsoFormat | main.py:512-513 | Parsing a date's ISO text gives the date back. |
| Walker.Tally | main.py:424-439 | The totals after a run of trades, one trade after the other. Its sums are described in Walker.TallySums and Walker.TallyPrices. |
| Walker.Banded | main.py:424-432 | The trades counted are exactly those with truthy size and price inside the inclusive band [level−tol, level+tol]. |
| Walker.SumsSnoc | main.py:435-437 | One more trade adds its size and size × price to the sums. |
| Walker.TallySums | main.py:424-439 | Volume, value and trade count are the size sum, value sum and number of the banded trades. |
| Walker.TallyPrices | main.py:437-439 | A lowest price exists iff some trade was counted. The lowest and highest prices bound every counted price, and each is a counted price (the highest unless it is still the initial 0). |
| Walker.TallyAppend | main.py:404-448 | Folding two runs of pages equals folding their concatenation. |
| Walker.OutOfBandIgnored | main.py:428-432 | A trade outside the band changes no total. |
| Walker.Stops | main.py:418-448 | The walk stops at a page with no results or without a `next_url`. |
| Walker.LastUrl | main.py:418-448 | The walk stops at the first page with empty results or no `next_url`. |
| Walker.LastUrlIs | main.py:418-448 | A linked page that stops is where the walk stops. |
| Walker.Seen | main.py:404-448 | The walk sees every page up to and including the one where it stops. |
| Walker.Attempts | main.py:405-416 | Each page costs at least one API call. |
| Walker.TallyPage | main.py:424-439 | The per-page loop computes the fold over that page's results. |
| Walker.WalkPage | main.py:404-448 | One loop iteration either moves to the next linked page with the fold so far, or stops where the walk stops with the full fold. |
| Walker.WalkOutcome | main.py:367-470 | The outcome of the walk: a missing key, a bad date or an end date of 9999-12-31 is an error; otherwise the totals over the seen pages. |
| Walker.Walk | main.py:367-470 | The loop returns exactly `Walker.WalkOutcome`: totals over the seen pages, price range and API calls. Errors are a missing key or a bad or overflowing date. |
| Walker.WalkFailsOnlyOnInput | main.py:373-378 | The walk fails only on a missing key or a bad date, never because of the pages. |
| Walker.WalkTotals | main.py:454-470 | A successful walk reports the banded sums over the seen pages. `price_range` is the observed min–max, or the level when nothing traded. |
| Walker.SeenShape | main.py:418-448 | Every seen page except the last has results and a next link. |
| Walker.LastUrlIgnoresFailures | main.py:412-416 | Failed fetches never change where the walk stops. |
| Walker.RetriesOnlyAddCalls | main.py:405-416 | Retries change only the API call count, never the totals. |
| Walker.NoFailuresOneCall | main.py:405 | Without failures each page costs one call. |
| Walker.MoreFailuresMoreCalls | main.py:405-416 | Failures never lower the number of calls. |
| Walker.TwoTradesAtLevel | main.py:367-470 | A worked example: 1,000 shares at 100.00 and 500 at 100.02 are counted at the level 100 with the default tolerance 0.025, and 700 at 100.05 is not. The totals are 1,500 shares, value 150,010, two trades, range 100.00–100.02, one call. |
| Walker.LastDayOverflows | main.py:378 | An end date of 9999-12-31 overflows on the one-day increment and fails. |
| Registry.AbsorptionPercentage | main.py:866-870 | Percentage = absorbed / original × 100. It is not clamped, so it exceeds 100 when more than the original was absorbed. It is 0 when the original is not positive. |
| Registry.Absorbed | main.py:873-882 | An absorption update overwrites the absorbed volume and value, sets the percentage and the absorption start date, and changes nothing else. |
| Registry.Baseline | main.py:885-905 | The baseline upsert sets the original figures and dates. A new row starts with zero absorption. An existing row keeps its absorbed fields. |
| Registry.TrackingAfter | main.py:842-905 | Bad dates are rejected. Absorption needs a tracking row whose original volume is non-zero (a truthy value). A baseline needs a known level. On success only this level's row changes. |
| Registry.DateKeyOrder | main.py:501 | Date order is the order of the yyyymmdd key. |
| Registry.OfLevel | main.py:500 | Selects exactly the segments of the level. |
| Registry.NotOfLevel | main.py:770-773 | Keeps exactly the segments of other levels. |
| Registry.OfLevelSnoc | main.py:472-488 | Appending a segment extends only its own level's list. |
| Registry.InsertByStart | main.py:501 | Insertion keeps the list sorted by start date and adds exactly one segment. |
| Registry.SortByStart | main.py:501 | Sorting gives a permutation ordered by `date_start`. |
| Registry.ListSegments | main.py:490-517 | A level's segment listing is exactly its segments, ordered by start date. |
| Registry.DeletedLevelListsNothing | main.py:770-773 | After the cascade, a deleted level lists no segments. |
| Registry.DeleteKeepsOtherSegments | main.py:770-773 | The cascade leaves every other level's segments and listing unchanged. |
| Registry.AbsorptionOverwrites | main.py:873-882 | Two absorption updates equal the second one alone (overwrite, not accumulate). |
| Registry.AbsorptionScenario | main.py:866-882 | A worked example: a baseline of 1,500, then an absorption of 600, gives 40 %. A second absorption of 1,200 replaces the first and gives 80 %, not 1,800 and 120 %. An absorption of 2,400 gives 160 %, uncapped. |
| Registry.RebaselineKeepsAbsorption | main.py:895-898 | A new baseline on an existing row keeps its absorbed volume, value and start date. |
| Registry.StatusOf | main.py:546-551 | The timeline status from the original and absorbed volumes. Its meaning is proved in Registry.StatusMeaning. |
| Registry.StatusMeaning | main.py:547-552 | Status is needs-volume-data iff original ≤ 0. It is active-with-absorption iff original > 0 and absorbed > 0. Otherwise it is ready-for-absorption. |
| Registry.LatestEnd | main.py:561-563 | The latest segment end date is one of the ends, and no end is later. |
| Registry.LastAbsorptionDate | main.py:557-563 | The tracking row's original end date wins. Without one, it is the latest segment end, or none. |
| Registry.ConsAscending | main.py:727 | Putting a lower-priced level in front keeps the list ascending. |
| Registry.InsertByPrice | main.py:727 | Insertion keeps levels ascending by price, with the same members plus the new one. |
| Registry.SdStore.constructor | main.py:694-710 | The store starts with no levels, tracking rows or segments. |
| Registry.SdStore.CreateLevel | main.py:694-710 | An unknown level type, or a (ticker, price) pair equal to a stored one, is rejected and changes no table; the id sequence still advances, as a BIGSERIAL does. A known type with no equal stored pair succeeds: a fresh id maps to the active level with the upper-cased ticker. Prices are compared exactly, not as DECIMAL(12,4) values (see Left out). |
| Registry.Listed | main.py:725-727 | A level is listed for a ticker when it is active and its ticker is the upper-cased ticker. |
| Registry.Near | main.py:831-835 | A level is near a price when it is listed for the ticker and its price is within the tolerance. |
| Registry.SdStore.GetLevels | main.py:712-752 | Lists exactly the active levels of the ticker, with their tracking, ascending by price. |
| Registry.SdStore.FindLevel | main.py:823-840 | Finds a nearby active level of the ticker within the tolerance, or reports that none exists. |
| Registry.SdStore.UpdateTracking | main.py:842-905 | The tracking table becomes exactly `Registry.TrackingAfter`. On error nothing changes. |
| Registry.SdStore.AppendSegment | main.py:472-488 | Appends one segment for a known level with valid dates. Otherwise nothing changes. |
| Registry.SdStore.DeleteLevel | main.py:754-796 | An unknown level is an error and changes nothing. Otherwise the level, its tracking row and all its segments are removed, and the counts are reported. |
| Registry.SdStore.Deactivate | main.py:1269-1299 | Marks the level inactive. A missing level answers 500, because the handler re-raises the 404. |
| Jobs.DateTextHasNoT | main.py:64-70 | Valid date text contains no 't'. |
| Jobs.RangeSplitsBack | main.py:1346 | A job's `date_range` splits back into its two dates. |
| Jobs.NewJob | main.py:1338-1353 | A new job is `starting_enhanced` with progress 0, and its range splits back into (start, end). |
| Jobs.Fetch | main.py:927-942 | The job uses the walker's totals. If the walker fails, it uses the cache when the dates parse and data exist. Otherwise the job fails. |
| Jobs.FetchedDatesParse | main.py:596-641 | Any totals a job works with imply that both dates parse. |
| Jobs.FinishAsWritten | main.py:966-969 | As written: cached totals lack `api_calls_made`, so completing raises and the job ends failed. |
| Jobs.Finish | main.py:966-973 | Completion sets status completed, progress 100, the result and the API calls used. |
| Jobs.CachedTotalsFailAsWritten | main.py:938-969 | Cached totals end an absorption job failed although tracking and segment were written. |
| Jobs.CachedVolumeFailsAsWritten | main.py:1008-1039 | Cached totals end a volume job failed at progress 100 with no result, although the baseline of the settled level was written. As intended it completes with 0 calls. |
| Jobs.Settle | main.py:1018-1032 | The volume job's target level is the given truthy id, else a nearest active level of the ticker within an absolute 0.10 of the price, else none. |
| Jobs.AbsorptionRun | main.py:909-982 | An absorption job completes iff totals exist and the level has a baseline. Otherwise it fails with an error. The segment is written only after tracking succeeds. Progress never decreases. |
| Jobs.VolumeRun | main.py:984-1052 | A volume job completes iff totals exist and the target level, if any, is known. It updates the baseline and writes no segment. |
| Jobs.VolumeClose | main.py:1017-1052 | After the fetch, an unknown target fails the job. Otherwise it completes. |
| Jobs.JobRegistry.constructor | main.py:60 | `jobs_db` starts empty. |
| Jobs.JobRegistry.Publish | main.py:193-196 | A job update replaces the record and logs one step. |
| Jobs.JobRegistry.StartJob | main.py:1302-1379 | Absorption without a level is rejected. Bad dates are rejected. Otherwise a new job is stored. Rejection stores nothing. |
| Jobs.JobRegistry.RunAbsorption | main.py:909-982 | The registry and store change exactly as AbsorptionRun says. Levels are untouched. |
| Jobs.JobRegistry.RunVolume | main.py:984-1052 | The registry and store change exactly as VolumeRun says. No segment is written. |
| Jobs.JobRegistry.CloseVolume | main.py:1017-1052 | After the fetch: settle the target, update the baseline, close the job. |
| Jobs.JobRegistry.GetJobStatus | main.py:1381-1387 | Returns the job record iff the id is known. |
| Jobs.JobRegistry.DeleteJob | main.py:798-821 | An unknown job is an error and changes nothing. Otherwise the job is removed and its ticker and prior status are returned. |
| Jobs.JobRegistry.Link | main.py:1403-1432 | An unknown job is 404. A job that is not completed is 400. Otherwise the job's totals go into tracking for the level, over its own date range. |
| Jobs.LinkReadsStartDates | main.py:1420 | Linking a started and run job reads back exactly its start and end dates. |
| Display.ScaleOf | bot.py:44-49 | None gives N/A. ≥ 999,950,000 gives B. ≥ 1,000,000 gives M. ≥ 1,000 gives K. Anything else is plain. |
| Display.ShownBounds | bot.py:46-48 | With K or M the scaled figure lies in [1, 1000); with B it is at least 0.99995 (it rounds to 1.00B); a plain figure is the number itself. |
| Display.Filled | bot.py:530 | `int(progress / 5)` filled cells: the progress divided by 5, truncated toward zero. |
| Display.Repeat | bot.py:532 | Repeating a character n times gives max(n, 0) copies of it. |
| Display.ProgressBar | bot.py:530-532 | The bar is the filled cells then the empty ones. Its shape is proved in Display.ProgressBarShape. |
| Display.ProgressBarShape | bot.py:530-532 | For progress 0..100 the bar has 20 cells. Cell i is filled iff i < progress div 5. |
| Display.ProgressBarMonotone | bot.py:530 | More progress never fills fewer cells. |
| Display.OfDay | bot.py:108-111 | A day's trades are exactly the input trades of that day, in input order. |
| Display.OfDaySnoc | bot.py:109-111 | One more trade extends only its own day's list. |
| Display.ConsDescending | bot.py:114 | Putting a later day in front keeps the days strictly descending. |
| Display.InsertDay | bot.py:114 | Inserting a day keeps the days strictly descending and adds exactly that day. |
| Display.DaysDescending | bot.py:114 | The days are strictly descending, and they are exactly the days that occur. |
| Display.DaysPresent | bot.py:114-115 | Every listed day has at least one trade. |
| Display.TradeRows | bot.py:84 | Without summaries, each trade is one row. |
| Display.GroupedSnoc | bot.py:113-128 | Grouping one more day appends that day's summary and trades. |
| Display.BucketByDay | bot.py:108-111 | The bucket loop builds exactly one key per day that occurs, holding that day's trades in order. |
| Display.DayRows | bot.py:115-128 | One day's rows are the day's block: the summary row with the day's ticker, date and totals, then the day's trades. |
| Display.ProcessTradesWithSummaries | bot.py:104-130 | The loop returns the summary layout. Empty input gives []. |
| Display.TradesInAppend | bot.py:127-128 | The trades shown in two row lists are those of each, in order. |
| Display.SummaryDaysAppend | bot.py:127 | The summary days of two row lists are those of each, in order. |
| Display.TradesInRows | bot.py:128 | Trade rows show exactly their trades. |
| Display.GroupedTrades | bot.py:113-128 | The trades shown are the day lists concatenated in day order. |
| Display.GroupedDays | bot.py:113-128 | There is one summary row per day, in day order. |
| Display.GroupedLength | bot.py:113-128 | Row count = trades + days. |
| Display.FlattenSnoc | bot.py:113-128 | Adding a new day adds exactly its trades to the multiset shown. |
| Display.FlattenKeepsTrades | bot.py:108-128 | Over distinct days covering every trade, each input trade is shown exactly once. |
| Display.EmptyFlatten | bot.py:105-106 | No trades, no rows. |
| Display.Summarized | bot.py:104-130 | The summary layout: the trades grouped by day, days descending. Its shape is proved in Display.SummarizedShape. |
| Display.SummarizedShape | bot.py:104-130 | Every input trade appears exactly once. Summary days are the distinct days, descending. Length = trades + days. [] gives []. |
| Display.SummariesTotal | bot.py:116-126 | Each summary carries the day's first ticker and the sums of quantity and value over that day. |
| Display.TradeRowsAreTrades | bot.py:84 | The plain layout shows the input trades in order: row i is the trade i, and every row is a trade row. |
| Display.TotalPages | bot.py:91 | `total_pages = ceil(n / 15)`. |
| Display.PySlice | bot.py:144 | A Python slice, with negative starts counted from the end. |
| Display.PageRows | bot.py:143-144 | The rows of a page are the slice `[page * 15 : page * 15 + 15]`. |
| Display.RowOnItsPage | bot.py:143-144 | Row i is shown at position i mod 15 of page i div 15, and that page exists. |
| Display.PageSize | bot.py:143-144 | Every page in range shows between 1 and 15 rows. |
| Display.PageBeforeFirst | bot.py:143-144 | Page −1 shows no rows: the slice [-15:0] is empty. |
| Display.Refreshed | bot.py:245-247 | Previous is disabled iff on page 0. Next is disabled iff on page ≥ total − 1. |
| Display.Press | bot.py:257-265 | A button moves the page by exactly ±1, and only when it is enabled. |
| Display.Open | bot.py:89-91 | The view opens on page 0 with the buttons set as a refresh would set them. |
| Display.OpenAsWritten | bot.py:89-91 | As written, the view opens on page 0 with both buttons enabled. |
| Display.PreviousFromFirstPageAsWritten | bot.py:257-260 | As written, Previous on the first page moves to page −1, stays enabled and shows an empty page. |
| Display.PressesStayInRange | bot.py:245-265 | From a refreshed in-range state, any sequence of presses stays on an existing page. |
| Display.Presses | bot.py:257-265 | A sequence of presses, one after the other. A press on a disabled button does nothing. |
| Display.PressStaysInRange | bot.py:257-265 | One press keeps an in-range view in range. |
| Display.OpenInRange | bot.py:89-91 | A view with rows opens in range. |
| Display.PaginatorView.constructor | bot.py:78-91 | The view holds the summary or plain rows on page 0, with the buttons refreshed. |
| Display.PaginatorView.PreviousPage | bot.py:258-260 | The state moves exactly as Press(previous) says. The rows are unchanged. |
| Display.PaginatorView.NextPage | bot.py:263-265 | The state moves exactly as Press(next) says. The rows are unchanged. |
| Display.PaginatorView.UpdateButtons | bot.py:245-247 | The buttons become exactly Refreshed(page, total). |
| Display.PaginatorView.ShownRows | bot.py:143-144 | The rows shown are the current page's slice. When the page is in range (0 ≤ page < total pages), there are between 1 and 15 of them. |

## Left out

- Database plumbing is not modelled:
  - connections, cursors and SQL text;
  - `save_job_to_db`, `load_jobs_from_db`, `get_dynamic_threshold` and `big_prints_query`;
  - timestamps that are written but never read;
  - the DECIMAL(5,2) column limit;
  - the tie order of SQL `ORDER BY` on equal keys.

  Each table is an in-memory map, set or sequence. Its upsert and cascade behaviour is stated in the contracts.
- `check_data_availability` and `calculate_level_volume_from_cache` query the database. Only their effect on a job is modelled: the date parsing, and cached totals given as an input.
- The network is not modelled: HTTP fetches, websocket reconnects, sleeps and FastAPI background scheduling.
  - The market-data API is an input `Provider.History`.
  - The insert failures are an input set.
  - The current time is an input integer.
- The source retries a failing fetch forever. The model gives each page a finite number of failures.
- Worker threads, the blocking behaviour of the queue and the unsynchronised tracking updates are not modelled. One sequential worker is modelled, and the queue has preconditions in place of blocking. A worker that has died (`alive` false) takes no more messages; the other workers and the queue filling up are not modelled.
- Ingestor.Worker.HandleTrade, Ingestor.Worker.HandleMessage and Ingestor.Crashes cover the elements that raise before the per-trade `try` by being a non-object or a `T` event with a `null` `s` or `p`. They do not cover the other values that raise there: a non-numeric `s` or `p` (a string makes `size * price` a repeated string or a TypeError), a non-numeric `t` or `trft`, and a timestamp `datetime.fromtimestamp` rejects. Numeric fields are typed, and every timestamp is taken to convert.
- Backfill.BackfillData and Backfill.RunBackfill: every insert of the backfill succeeds. In the source an insert error (backfill.py:97-119, outside any `try`) leaves the page uncommitted and ends the script, so the later tickers of the loop at backfill.py:160-181 are not backfilled; that abort is not modelled.
- Ingestor.Worker.HandleMessage: a failure to open the database connection (ingestor.py:62-63) also ends the worker; connections are not modelled.
- The following are not modelled:
  - conversions between epoch, nanosecond and time zone, and the market-hours windows (trade times keep their raw field);
  - `:.2f` and other text formatting;
  - HTTP status mapping beyond the codes named in the contracts;
  - the id sequence and uuid generation;
  - logging and printing.
- The following are not modelled: Discord commands, embeds and PIL image drawing. Only the pagination, button and progress-bar arithmetic is modelled.
- Text.Upper and Text.IsAlnum handle ASCII letters and digits only. Python's `str.upper()` also maps other letters, and can lengthen the text ('ß' becomes 'SS'); `str.isalnum()` also accepts other letters and digits ('ÄBC'). Stripping is not restricted this way: it uses Python's full `str.isspace` set.
- Backfill.RunBackfill, Backfill.RunTickers, Backfill.VisitTicker, Backfill.Backfillable and Backfill.TickerList inherit that restriction: a ticker with a non-ASCII letter is skipped by the model, while the source backfills it, and its upper-casing is ASCII only.
- Dates.ParseDate, Dates.MonthAt and Dates.DayAt read ASCII digits only. Python's `strptime` also accepts other Unicode decimal digits (fullwidth '２０２４' for instance) in `%Y`, `%m` and `%d`; the model rejects such text.
- Jobs.AbsorptionRun, Jobs.VolumeRun, Jobs.VolumeClose, Jobs.JobRegistry.RunAbsorption, Jobs.JobRegistry.RunVolume and Jobs.JobRegistry.CloseVolume close a job with the intended Jobs.Finish. As written, a job on cached totals ends failed at progress 100 instead (see Findings); Jobs.FinishAsWritten, Jobs.CachedTotalsFailAsWritten and Jobs.CachedVolumeFailsAsWritten state that behaviour.
- Registry.SdStore.CreateLevel, Registry.SdStore.GetLevels, Registry.SdStore.FindLevel and Jobs.JobRegistry.StartJob: the column types are not modelled. `level_price` is DECIMAL(12,4) (create_sd_schema.py:67). Two prices that round to the same four decimals (17.46001 and 17.46002) are one stored price, so the second INSERT raises on UNIQUE(ticker, level_price), and a price of 10^8 or more raises a numeric overflow. The model compares, stores and reports exact prices, so it accepts both. The VARCHAR limits are also not modelled: `ticker` VARCHAR(20) and `level_name` VARCHAR(100) on levels (create_sd_schema.py:66, 69), where a longer value raises. `background_jobs.ticker` VARCHAR(10) (update_sd_schema.py:51) makes `save_job_to_db` raise (main.py:1356) for an 11- to 20-character ticker after the job was put in `jobs_db`, so that job is never scheduled; StartJob stores it as scheduled.
- Jobs.JobRegistry.Link: the `MalformedRange` error stands for the IndexError a malformed `date_range` raises. The JobRegistry invariant does not include the fact that every stored range is well-formed; that fact is proved separately (Jobs.NewJob, Jobs.LinkReadsStartDates).
- Jobs.JobRegistry.RunAbsorption: the segment append cannot fail once tracking has succeeded, so that failure branch is not modelled separately.
- Display.PaginatorView.constructor uses the corrected initial buttons (see Findings). The as-written start is Display.OpenAsWritten.
- The schema scripts (create_sd_schema.py, update_sd_schema.py) and add_test_data.py are not part of this model. Their constraints on levels are kept as the invariant of Registry.SdStore: the level_type check (create_sd_schema.py:68), UNIQUE(ticker, level_price) on exact prices (create_sd_schema.py:74), at most one tracking row per level (create_sd_schema.py:97), tracking rows referring to an existing level (create_sd_schema.py:83), and segments referring to an existing level (update_sd_schema.py:128).

## Behaviour of the code worth knowing

- The live block rule is only "exchange 4, a TRF id and value ≥ 1,000,000" (ingestor.py:84). It differs from the backfill block rule (backfill.py:93-95).
- The walker follows `next_url` with no page cap (main.py:418-448).
- An absorption overwrites the absorbed figures instead of adding to them (main.py:873-882).
- A missing level in `deactivate_level` answers 500, not 404: the 404 is raised inside the handler's own `try` and re-raised as 500 (main.py:1269-1299).
- The ingestor commits each trade on its own, not the batch as a whole (ingestor.py:81-119).

## Findings

| source | as written | input that shows it | evidently intended | confidence | as-written member | corrected member |
|---|---|---|---|---|---|---|
| main.py:966-969 | `api_calls_used = result['api_calls_made']` after tracking and segment were written | an absorption job whose walker fails, with cached data available: the cached result has no `api_calls_made` | the job completes with 0 API calls used | high, not executed | Jobs.CachedTotalsFailAsWritten | Jobs.Finish |
| main.py:1037-1039 | `api_calls_used = result['api_calls_made']` after the baseline of the settled level was written (main.py:1022-1027) | a volume job whose walker fails, with cached data available and a matching level: the cached result has no `api_calls_made`, the KeyError reaches the `except` at 1048-1052 | the job completes with 0 API calls used | high, not executed | Jobs.CachedVolumeFailsAsWritten | Jobs.VolumeClose |
| bot.py:89-91, 257-260 | the buttons start enabled and are first refreshed only after a press | any result list: pressing Previous on the first page moves to page −1, which shows no rows and keeps Previous enabled | the buttons are refreshed when the view opens, so Previous is disabled on page 0 | high, not executed | Display.PreviousFromFirstPageAsWritten | Display.PressesStayInRange |
