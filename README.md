# Margin engine and SKU tables, modelled in Dafny

This project models the core of a small aiohttp/SQLAlchemy service that keeps
per-SKU order metrics (the `RC_SKU` table) and a history of calculated target
margins (the `RC_SKU_margin_history` table):

- `margin_calculator.dfy` (module `MarginCalculator`) is the margin decision
  engine `calculate_target_margin`. Its priority chain is: stock exhausted,
  then fixation, then a plus or minus (gap / 100) adjustment of the base
  margin (capped only when it goes up), then the optional floor. Decimal
  margins are exact `real`s.
- `margin_insert_handler.dfy` (module `MarginInsertHandler`) is the second copy
  of the engine in the insert handler. It computes the formula before the
  priority checks. The module proves that this copy agrees with the first on
  every input, and it models the calculate-and-store step of the handler.
- `margin_history.dfy` (module `MarginHistory`) is the margin-history ledger.
  It holds:
  - a `MarginHistoryTable` class whose `CreateMarginHistoryEntry` appends one
    entry;
  - the three read queries (latest, by date, paged by date) as functions over
    the table's entries.
- `sku_metrics.dfy` (module `SkuMetrics`) is the de-duplicating batch insert
  `create_sku_metrics`. It is a loop over caller dictionaries (`MetricItem`
  objects) that removes the `id` key in place. It is specified by the
  function `Pending`.
- `middleware.dfy` (module `Middleware`) is the decorator factory
  `middleware`. Its loop (`Decorate`) is specified by the fold `Compose`.
- `router.dfy` (module `Router`) is the method check of `Route.__post_init__`.
- `base_client.dfy` (module `Client`) holds the pure parts of `BaseClient`:
  - the URL join;
  - the routing of `data` into the request keyword arguments;
  - the status check and the choice of the response parser.
- `wrappers.dfy` (module `Wrappers`) holds `Option` and `Result`.

Dates are day numbers (`int`). "Today", which the database's
`current_date()` default supplies, is a parameter.

The model follows the code:
- A history entry stores two margins, `calculated_margin_percent` and
  `base_margin_percent`, not a single margin field.
- "Latest" has no creation-order tie-break. With several entries on the
  latest date, the contract promises only some maximal entry.
- The insert handler feeds the `planned_orders` column, not
  `planned_orders_per_sku`, into the engine.
- No automatic base-margin resolution (seed value, "no history" error)
  exists. The handler always takes the base margin from the caller.

## Model

| member | source | states |
|---|---|---|
| MarginCalculator.FormulaWithoutLimit | services/RC_SKU_margin_history/margin_calculator.py:40-53 | If fewer orders than planned, the result is base minus gap/100 and lies below the base. If the plan is met, it is the base. If more orders than planned, it is at most the cap and at most base plus gap/100, and equals one of the two. |
| MarginCalculator.CalculateTargetMargin | services/RC_SKU_margin_history/margin_calculator.py:17-65 | Zero stock gives the cap. Otherwise fixation gives the fixed percent. Otherwise, with the floor on, the result is never below the floor. The formula is returned when the floor is off or silent, and the floor value when the formula is below it. |
| MarginCalculator.DownwardAdjustment | services/RC_SKU_margin_history/margin_calculator.py:40-43 | With fewer orders than planned and no earlier rule or floor firing, the result is base - (planned - actual)/100. |
| MarginCalculator.UpwardAdjustmentCapped | services/RC_SKU_margin_history/margin_calculator.py:44-50 | With more orders than planned, the result is at most the cap unless it is the floor value. |
| MarginCalculator.PlanMetKeepsBase | services/RC_SKU_margin_history/margin_calculator.py:51-53 | Meeting the plan returns the base when the floor does not fire. |
| MarginCalculator.MonotoneInActualOrders | services/RC_SKU_margin_history/margin_calculator.py:40-61 | With the base at most the cap and stock/fixation not deciding, more actual orders never lower the result. |
| MarginCalculator.MonotonicityNeedsBaseWithinCap | services/RC_SKU_margin_history/margin_calculator.py:44-53 | Counterexample when base > cap: base 0.30 gives 0.30 when the plan is met but 0.25 with one extra order. |
| MarginCalculator.DefaultConstantsExamples | services/RC_SKU_margin_history/margin_calculator.py:8-14 | With the default constants: zero stock gives 0.25; (plan 10, fact 20, base 0.20) gives 0.25; (plan 10, fact 3, base 0.05) gives -0.02; fixation gives 0.15. |
| MarginInsertHandler.CalculateTargetMargin | web/handlers/RC_SKU_Margin_insert_handler.py:24-67 | Zero stock gives the cap although the formula was computed first. Otherwise fixation gives the fixed percent. For every real base margin and every constants bundle it equals MarginCalculator.CalculateTargetMargin. |
| MarginInsertHandler.FloorSilentReturnsFormula | web/handlers/RC_SKU_Margin_insert_handler.py:61-67 | With the floor on and the formula at or above it, the formula is returned unchanged. |
| MarginInsertHandler.SameDefaultConstants | web/handlers/RC_SKU_Margin_insert_handler.py:15-21 | The handler's constants are the same five values as the calculator module's. |
| MarginInsertHandler.CalculationFor | web/handlers/RC_SKU_Margin_insert_handler.py:117-123 | The stored calculation is the engine's result with the row's planned_orders as the plan, paired with the base margin as given. |
| MarginInsertHandler.PlannedOrdersPerSkuIgnored | web/handlers/RC_SKU_Margin_insert_handler.py:118 | The planned_orders_per_sku column has no effect on the calculation. |
| MarginInsertHandler.DefaultCalculationBounds | web/handlers/RC_SKU_Margin_insert_handler.py:117-123 | With the default constants, a SKU out of stock gets 0.25 and one in stock never gets less than -0.10. |
| MarginInsertHandler.RecordMargin | web/handlers/RC_SKU_Margin_insert_handler.py:107-132 | A missing SKU row is an error and leaves the ledger unchanged. Otherwise exactly one entry is appended with the SKU id, the calculated margin, the base margin and the target date (or today). |
| MarginHistory.MarginHistoryTable.CreateMarginHistoryEntry | database/methods/RC_SKU_margin_history.py:14-46 | Appends exactly one entry and leaves earlier entries unchanged. The entry has the given SKU id and both margins. Its date is the target date when given, else today. Its id is fresh, so ids stay distinct. |
| MarginHistory.Latest | database/methods/RC_SKU_margin_history.py:49-71 | Returns None iff the SKU has no entry. Otherwise it returns an entry of that SKU whose date is at least that of every entry of the SKU. |
| MarginHistory.ByDate | database/methods/RC_SKU_margin_history.py:74-88 | Returns None iff no entry has that SKU and date. Otherwise it returns such an entry. |
| MarginHistory.OnDate | database/methods/RC_SKU_margin_history.py:106 | An entry is in the result iff it is in the table and dated `date`. Each entry dated `date` occurs as often as in the table, and no other entry occurs. |
| MarginHistory.InsertBySku | database/methods/RC_SKU_margin_history.py:107 | Inserting an entry adds exactly that entry to the multiset of entries and grows the sequence by one. |
| MarginHistory.InsertBySkuSorted | database/methods/RC_SKU_margin_history.py:107 | Inserting into a sequence sorted by sku_id keeps it sorted. |
| MarginHistory.SortBySku | database/methods/RC_SKU_margin_history.py:107 | The result is sorted by sku_id and is a permutation of the input. |
| MarginHistory.ClampPage | database/methods/RC_SKU_margin_history.py:97-98 | The page is at least 1, and a page already at least 1 is unchanged. |
| MarginHistory.Slice | database/methods/RC_SKU_margin_history.py:100-109 | At most `limit` entries. Empty past the end; otherwise the run from `offset`, cut at the end. |
| MarginHistory.AllByDate | database/methods/RC_SKU_margin_history.py:91-118 | At most per_page entries, all from the table and dated `date`. The result is the slice [(page-1)*per_page, +per_page) of the entries dated `date` sorted by sku_id, with the page clamped to at least 1. |
| MarginHistory.LatestAfterAppend | database/methods/RC_SKU_margin_history.py:36-58 | After an entry is created, its SKU's latest date is the greater of the previous latest date and the new entry's date. |
| MarginHistory.LatestOfOtherSkuUnchanged | database/methods/RC_SKU_margin_history.py:55-59 | Creating an entry for one SKU does not change another SKU's latest entry. |
| MarginHistory.LatestIgnoresCreationOrder | database/methods/RC_SKU_margin_history.py:58 | Entries dated days 1, 3, 2 in creation order give the day-3 entry as latest. |
| MarginHistory.ByDateFindsAppended | database/methods/RC_SKU_margin_history.py:81-88 | A created entry is found by its own SKU and date. |
| MarginHistory.PageBelowOneIsFirst | database/methods/RC_SKU_margin_history.py:97-98 | A page number below 1 returns the first page. |
| MarginHistory.PagesTile | database/methods/RC_SKU_margin_history.py:100-109 | Over one fixed sorted order, pages 1..p laid end to end are exactly its first p*per_page entries: OFFSET/LIMIT pages of one order neither skip nor repeat. |
| MarginHistory.ByDatePageIsNextPiece | database/methods/RC_SKU_margin_history.py:91-110 | Page p of the query is the piece that extends pages 1..p-1 to pages 1..p, when every page is read in the same order. |
| MarginHistory.DefaultFirstPage | database/methods/RC_SKU_margin_history.py:91-109 | With the default page size of 20 (line 12), the first page is the first 20 entries of the date in sku_id order, or all of them when there are fewer. |
| SkuMetrics.Pending | database/methods/RC_SKU.py:15-30 | There are never more items to add than batch items. |
| SkuMetrics.PendingMembers | database/methods/RC_SKU.py:15-30 | The items to add are exactly the batch items that are not skipped: an item is skipped only when its sku is truthy and already stored. |
| SkuMetrics.PendingSnoc | database/methods/RC_SKU.py:15-30 | Visiting one more batch item appends that item to the items to add iff it qualifies, and leaves the earlier ones as they were. |
| SkuMetrics.Qualifies | database/methods/RC_SKU.py:16-25 | An item without a truthy sku is never skipped, and no item is skipped when the table is empty. |
| SkuMetrics.RowsFrom | database/methods/RC_SKU.py:32-34 | One stored row per added item, in order, with consecutive ids from the sequence. |
| SkuMetrics.PendingAppend | database/methods/RC_SKU.py:15-30 | The items added from a split batch are those of its parts, concatenated, so input order is kept. |
| SkuMetrics.PendingSingle | database/methods/RC_SKU.py:16-30 | A single item is added iff it qualifies. |
| SkuMetrics.MissingOrEmptySkuQualifies | database/methods/RC_SKU.py:16-18 | An item with no sku or an empty sku is always added. |
| SkuMetrics.BatchDuplicatesBothAdded | database/methods/RC_SKU.py:19-30 | Two new items of one batch with the same sku are both added, since existence is checked against stored rows only. |
| SkuMetrics.RerunSkipsStored | database/methods/RC_SKU.py:16-34 | After a batch is stored, every item of it with a truthy sku is skipped on a rerun. |
| SkuMetrics.SkuTable.VisitItem | database/methods/RC_SKU.py:16-30 | A qualifying item has its id key removed and yields its draft; a skipped item is left alone and yields nothing. Its sku and other columns never change. |
| SkuMetrics.SkuTable.CollectNewMetrics | database/methods/RC_SKU.py:13-30 | The collected drafts are Pending of the table and the batch. Each item's sku and columns are unchanged. Each qualifying item's id key is removed in place; each skipped item keeps its id. |
| SkuMetrics.SkuTable.CreateSkuMetrics | database/methods/RC_SKU.py:11-37 | Nothing is committed when no item qualifies. Otherwise the table grows by exactly the pending items, in order, with fresh ids, and existing rows are untouched. The commit fails, storing nothing, when a pending item has no sku (NOT NULL column, database/models/RC_SKU.py:11). |
| Middleware.Decorate | web/middlewares/Middleware.py:4-11 | The decorator's loop over the reversed list returns Compose(ms, h), i.e. m1(m2(...mn(h))). |
| Middleware.ComposeNone | web/middlewares/Middleware.py:6-10 | No middleware leaves the handler unchanged. |
| Middleware.ComposeOne | web/middlewares/Middleware.py:7-8 | One middleware m gives m(h). |
| Middleware.ComposeAppend | web/middlewares/Middleware.py:7-8 | Decorating with a ++ b is decorating with b, then with a around it. |
| Middleware.EachAppliedOnceInOrder | web/middlewares/Middleware.py:7-8 | Recording middlewares leave each label exactly once, first-listed outermost. |
| Router.Upper | web/Router.py:24 | `str.upper` turns each character into one to three characters, so the result is at least as long as the method and at most three times as long. |
| Router.UpperHasNoLowerCase | web/Router.py:24 | The upper case of any string has no ASCII lower-case letter. |
| Router.UpperKeepsUpperAscii | web/Router.py:24 | An ASCII string without lower-case letters is its own upper case. |
| Router.UpperIdempotent | web/Router.py:24 | Upper-casing twice is upper-casing once. |
| Router.NewRoute | web/Router.py:15-25 | Accepted iff the upper-cased method is one of GET, POST, PUT, DELETE, PATCH, OPTIONS. An accepted route stores the method as given; a rejected one reports it. |
| Router.NewRouteOfUpperCase | web/Router.py:22-25 | A method that is its own upper case is accepted iff it is one of the six valid methods. |
| Router.CaseInsensitive | web/Router.py:24 | A method is accepted iff its upper case is. |
| Router.LowerCasePatchAccepted | web/Router.py:24 | "patch" is accepted and stored as "patch". |
| Router.HeadRejected | web/Router.py:22-25 | HEAD is rejected, though RFC 9110 defines it. |
| Router.TraceRejected | web/Router.py:22-25 | TRACE is rejected, though RFC 9110 defines it. |
| Router.ConnectRejected | web/Router.py:22-25 | CONNECT is rejected, though RFC 9110 defines it. |
| Router.EmptyMethodRejected | web/Router.py:24-25 | The empty method is rejected. |
| Router.OptionsAcceptedThoughUnlisted | web/Router.py:7-23 | OPTIONS is accepted though the http_methods list omits it. |
| Router.LigatureSpellingAccepted | web/Router.py:24 | "po" followed by the long-s-t ligature upper-cases to POST and is accepted, stored as written. |
| Router.AcceptedAreStandard | web/Router.py:22-25 | Every accepted method is an RFC 9110 method or PATCH. |
| Client.StripTrailingSlashes | web/Client/BaseClient.py:14 | The result is the longest prefix not ending in '/', with only '/' removed after it. |
| Client.StripLeadingSlashes | web/Client/BaseClient.py:47 | The result is the longest suffix not starting with '/', with only '/' removed before it. |
| Client.NewBaseClient | web/Client/BaseClient.py:14 | The stored base URL is a prefix of the given one and does not end in '/', and everything cut off after it is '/'. |
| Client.FullUrl | web/Client/BaseClient.py:47 | The URL is the base URL, then "/", then the uri with its leading slashes, and only those, removed. |
| Client.ExtraSlashesIgnored | web/Client/BaseClient.py:47 | Extra trailing slashes on the base URL or leading slashes on the uri do not change the URL built at line 47 from the base URL stripped at line 14. |
| Client.CleanPartsJoinedWithOneSlash | web/Client/BaseClient.py:47 | A clean base URL and a clean uri are joined with exactly one '/'. |
| Client.RequestKwargs | web/Client/BaseClient.py:49-55 | Without data, the caller's kwargs come back equal. With data and GET/HEAD, params is set to the data. Otherwise json is set to the data iff the caller passed no json argument. No other key is added or changed. The caller's keyword arguments never hold "data", since `data` is a named parameter (line 42), so the test for it at line 54 always passes. |
| Client.LowerCaseGetSendsJson | web/Client/BaseClient.py:52 | The GET test is case-sensitive: "get" sends the data as json. |
| Client.GetOverridesCallerParams | web/Client/BaseClient.py:52-53 | For GET the data replaces any caller params. |
| Client.CallerBodyWins | web/Client/BaseClient.py:54-55 | A caller json argument stops the data from being sent as json. |
| Client.AsciiLower | web/Client/BaseClient.py:81 | The lower-cased content type has the same length, holds no ASCII capital, and keeps every character that is not an ASCII capital. |
| Client.Contains | web/Client/BaseClient.py:83-85 | A string contains only parts that fit in it. |
| Client.ContainsAt | web/Client/BaseClient.py:83-85 | The containment test used for content types holds iff the part occurs at some position. |
| Client.ParserForContentType | web/Client/BaseClient.py:81-88 | json iff the lower-cased content type contains "json". Text iff not json and it contains "text" or "html". Bytes iff it contains none of them. |
| Client.ReadResponse | web/Client/BaseClient.py:59-88 | A status of at least 400 is an HTTP error, iff. Otherwise a non-empty response type selects its parser from the table, or is an unknown-response-type error. Otherwise the content type decides. |
| Client.JsonContentType | web/Client/BaseClient.py:81-84 | "text/JSON" is read as json, case notwithstanding and ahead of "text". |
| Client.HtmlContentType | web/Client/BaseClient.py:85-86 | "text/html" is read as text. |
| Client.ImageContentType | web/Client/BaseClient.py:87-88 | "image/png" names none of json, text and html, so it is read as bytes. |
| Client.ResponseTypeExamples | web/Client/BaseClient.py:69-79 | Response type "html" is read as text, "xml" is refused, and a 404 is an error whatever the response type. |

## Left out

- The async `handler` bodies: query-string parsing, HTTP status codes and JSON responses. Also `Server`, `Router.setup_urls` and the entry point. These are aiohttp I/O and wiring; `setup_urls` lower-casing the method only to pick `add_<method>` is not modelled.
- Floating point: the base margin parsed through `float` and `str`, margins stored as `float`, and the `Numeric(10,4)` rounding of the columns. Margins are exact reals throughout.
- The semaphore middleware (asyncio concurrency), the database engine and session factories, settings and logging.
- `BaseClient`'s session lifecycle, default headers, timeout and network calls. The body read before the HTTP error is raised is I/O. The parsers themselves are left out too, so `ReadResponse` returns which parser would run.
- `get_sku_metrics_by_id` is not part of this model: `RecordMargin` receives its result, the SKU row or none, as a parameter. The other imported query functions (`get_all_sku_metrics`, `get_all_margin_history_paginated`, `get_all_margin_history_for_sku`) are not part of this model either.
- The foreign-key check on `sku_id` in the history table is not modelled: an entry may name any SKU id.
- The price, bid, margin and DRR columns of `RC_SKU` are not modelled. No decision in the modelled code reads them.
- SkuMetrics.SkuTable.CreateSkuMetrics: every `RC_SKU` column is declared NOT NULL (database/models/RC_SKU.py:13-27). So an item missing any column makes the commit fail, and an unknown key makes `RC_SKU(**item)` raise inside the loop after earlier items lost their ids. The model assumes every item carries every column and no other key. Of the failures, it captures only a missing `sku`.
- The row ids a commit assigns are modelled as a counter; the database sequence is not modelled further.
- MarginHistory.AllByDate: per_page is a natural number; a negative LIMIT is rejected by the database and is not modelled.
- MarginHistory.SortBySku: the database promises no order among entries with equal sku_id. The model keeps table order, which is one of the orders the database may choose.
- MarginHistory.Latest: with several entries on the latest date, the database may return any of them. The model returns the earliest created, and its contract promises only some maximal entry.
- Router.Upper: Python's `str.upper` is modelled exactly for ASCII letters and for the characters whose upper case is ASCII only (sharp s, dotless i, long s, the Latin ligatures U+FB00..U+FB06). Every other character is kept as it is. Its true upper case is not ASCII, so whether a method is accepted does not change.
- Client.AsciiLower: only ASCII capitals are lower-cased. The other characters whose lower case holds an ASCII letter (the Kelvin sign, dotted capital I) give 'k' and 'i', which none of "json", "text" and "html" contains.
- MarginInsertHandler.CalculateTargetMargin: the two copies agree for finite margins only. The handler reads the base margin through `float` and `Decimal(str(...))`, so "nan" or "inf" reaches the engine. With NaN, the handler's `min` (web/handlers/RC_SKU_Margin_insert_handler.py:44) raises before its stock check, where the calculator copy returns the cap. NaN and infinity are outside the model, whose margins are reals.
- MarginHistory.PagesTile and MarginHistory.ByDatePageIsNextPiece: tiling holds for one fixed tie order. The query orders by sku_id only, and two entries of one SKU on one date are possible. The database may order such ties differently for each OFFSET query, so across pages it may repeat or skip them.
