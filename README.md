# Finance dashboard pages: a Dafny model

The system is a React dashboard over a remote table store. It shows exchange-rate history and fund NAV (net asset value) history. It also lets an operator toggle which currencies the crawler tracks, and start manual sync jobs on an external crawler API. This project models the data logic inside the four page components. Each page is a class whose fields are the component's state; its methods are the event handlers and fetch effects. The pure derivations they share are functions with lemmas about them.

- `Paging` (paging.dfy): newest-first pagination over a time series. It covers page count (`Math.ceil`), the start index, the reversed-then-sliced table page with JavaScript `slice` semantics, and the clamped Previous/Next updaters.
- `Store` (store.dfy): the `{ data, error }` reply of a query, and date order on ISO date strings. Ascending and descending answers are predicates.
- `Roster` (roster.dfy): the `target_currencies` row and the toggle `map` shared by two pages. Also the list update after `fetchCurrencies`.
- `Funds`, `ExchangeRates`, `DataManagement`, `Dashboard`: one module per page, each with a `Page` class.

Remote queries, updates and HTTP calls are inputs. A query's answer is a `Response` value. A failed update is a flag. A sync request's result is a `SyncOutcome`: a JSON reply, or `Unreachable` when the fetch or the JSON decoding throws. A method that starts a query returns a description of the query it issues (`NavQuery`, `RateQuery`, `RecentRatesQuery`, the sync URL). Where its answer matters, a ghost predicate `Answers` states what the store promises of the answer: the requested order, the limit, the lower date bound. The clock is also an input. The exchange-rate page receives `daysAgo`, the ISO date N days before now. The data management page receives the current year. An asynchronous fetch is split into a `Begin…` method, which runs up to the request (spinner on, query issued), and a `Finish…` method, which runs when the answer arrives. The roster fetches and the dashboard's rate fetch have nothing observable between request and answer, so each is one method.

Two things are made explicit:
- A page control that is not rendered or is disabled does nothing when clicked. The Previous/Next buttons exist only when `totalPages > 1` and are disabled on the first or last page. The sync triggers are disabled while `syncing` is set.
- `slice`, `substring(5)`, `Array.from({ length })` and the `||` fallback of the API base URL follow JavaScript's rules for short or negative arguments.

## Model

| member | source | states |
|---|---|---|
| Paging.Reverse | src/pages/Funds.tsx:50 | the reversed copy has the same length, and its element i is element n-1-i of the input |
| Paging.ReverseReverse | src/pages/Funds.tsx:60 | reversing twice gives back the original sequence |
| Paging.CeilDiv | src/pages/Funds.tsx:58 | `Math.ceil(n / k)`: the result r is the unique count with n <= r*k < n+k |
| Paging.SliceIndex | src/pages/Funds.tsx:60 | how `slice` resolves one bound: a negative bound counts back from the end, and every bound is cut to [0, length] |
| Paging.JsSlice | src/pages/Funds.tsx:60 | `slice` returns the contiguous run of the input that starts at the resolved start bound; its length is the resolved end minus the resolved start, or 0 when the end is not past the start |
| Paging.TotalPages | src/pages/Funds.tsx:58 | the page count r satisfies r*k >= n and (r-1)*k < n, and it is 0 exactly when there are no rows |
| Paging.StartIndex | src/pages/Funds.tsx:59 | page p >= 1 starts at a non-negative index, and its k-row window ends at p*k |
| Paging.TablePage | src/pages/Funds.tsx:60 | on any page number, the table shows at most k rows, each of them a row of the history |
| Paging.JsSliceNonNegative | src/pages/Funds.tsx:60 | with non-negative bounds, `slice(start, end)` is the sub-sequence between the bounds cut to the length |
| Paging.PrevPage | src/pages/Funds.tsx:138 | the Previous updater never goes below 1, and steps back by one from any page above 1 |
| Paging.NextPage | src/pages/Funds.tsx:147 | the Next updater never goes above `totalPages`, and steps forward by one from any page below it |
| Paging.NavigationStaysInRange | src/pages/ExchangeRates.tsx:157-166 | from a page in [1, totalPages], Previous and Next stay in [1, totalPages]; Previous does not move forward and Next does not move back |
| Paging.TablePageWindow | src/pages/ExchangeRates.tsx:66-68 | for page p >= 1 the start index is non-negative, and the table page is rows [(p-1)k, pk) of the reversed history cut to its length, so at most k rows |
| Paging.PageFill | src/pages/Funds.tsx:58-60 | every page from 1 to totalPages is non-empty, and every page before the last holds exactly k rows |
| Paging.FirstRowIsLast | src/pages/ExchangeRates.tsx:68 | the first row of page 1 is the last row of the history |
| Paging.PagesUpToPrefix | src/pages/Funds.tsx:59-60 | pages 1..n laid end to end are the first min(nk, len) rows of the reversed history |
| Paging.PagesCoverHistory | src/pages/ExchangeRates.tsx:66-68 | pages 1..totalPages laid end to end are exactly the reversed history: no row lost or repeated |
| Store.LastIsLatest | src/pages/ExchangeRates.tsx:55 | in an ascending answer the last row has the greatest date |
| Roster.Fetched | src/pages/DataManagement.tsx:30-31 | on an error the list is unchanged; otherwise it becomes the answer's rows, or empty when the answer has no data |
| Roster.UpdateFor | src/pages/DataManagement.tsx:36-39 | the remote update is keyed by the clicked code and writes the negation of the status passed in |
| Roster.Toggle | src/pages/DataManagement.tsx:42-44 | same length and order; each row with the code gets `is_active == !currentStatus` and keeps its code, description and creation time; every other row is unchanged |
| Roster.ApplyToggle | src/pages/DataManagement.tsx:41-45 | a failed update leaves the list unchanged; a successful one applies the toggle |
| Roster.ToggleClickedRow | src/pages/DataManagement.tsx:155 | with unique codes, clicking row i (which passes that row's code and status) flips row i's `is_active` and changes nothing else |
| Roster.ToggleKeepsCodes | src/pages/DataManagement.tsx:43 | a toggle keeps codes unique |
| Roster.ToggleTwice | src/pages/DataManagement.tsx:38-44 | two successful toggles of one code, each passing the status the rows currently show, restore the original list |
| Roster.ToggleActiveCodes | src/pages/Dashboard.tsx:60-62 | a toggle passing status true removes the code from the set of active codes; one passing false adds it when the roster has that code; no other code changes |
| Funds.Page.constructor | src/pages/Funds.tsx:18-22 | no funds, no selection, no history, not loading, page 1 |
| Funds.Page.TotalPagesNow | src/pages/Funds.tsx:58 | the page count is the ceiling of the history length over 10 |
| Funds.Page.CurrentTableData | src/pages/Funds.tsx:59-60 | the table shows at most 10 rows, namely rows [(p-1)*10, p*10) of the reversed history |
| Funds.Page.ChartArea | src/pages/Funds.tsx:86-110 | the chart over the stored history iff there is any; the empty-state note iff there is none and loading is over; nothing while loading an empty history |
| Funds.Page.FetchFunds | src/pages/Funds.tsx:26-35 | the list and the default selection change only on a non-empty answer, and the selection is then the first fund's `cnyes_id` |
| Funds.Page.SelectFund | src/pages/Funds.tsx:77 | the selector sets the selected fund and nothing else |
| Funds.Page.BeginFetchHistory | src/pages/Funds.tsx:39-47 | with no fund selected nothing happens; otherwise the spinner turns on and the query asks for the selected fund's 90 latest rows |
| Funds.Page.FinishFetchHistory | src/pages/Funds.tsx:49-53 | an answer without error makes the history the reverse of the fetched rows and resets the page to 1; otherwise both are unchanged; the spinner turns off; an answer with no rows leaves the empty-state note showing, a non-empty one the chart of the reversed rows |
| Funds.Page.ClickPrev | src/pages/Funds.tsx:134-143 | Previous acts only when the controls are shown and it is enabled; the page stays in range and never goes below 1 |
| Funds.Page.ClickNext | src/pages/Funds.tsx:145-152 | Next acts only when the controls are shown and it is enabled; the page stays in range and never goes above totalPages |
| Funds.DoubleReversal | src/pages/Funds.tsx:50-60 | the table page p of the loaded history is exactly rows [(p-1)*10, p*10) of the fetched (newest-first) rows |
| Funds.NewestFirst | src/pages/Funds.tsx:46-60 | after a load, page 1 opens on the first fetched row, the newest |
| Funds.LoadedHistoryIsChronological | src/pages/Funds.tsx:42-50 | an answer to the NAV query becomes an oldest-first chart with at most 9 table pages |
| Funds.PagesReplayFetch | src/pages/Funds.tsx:58 | the table's pages 1..totalPages laid end to end are the fetched rows in fetch order |
| ExchangeRates.BuildQuery | src/pages/ExchangeRates.tsx:45-55 | the query is for the selected currency, and has a lower date bound iff the range is positive; the bound is the date that many days ago |
| ExchangeRates.CodesOf | src/pages/ExchangeRates.tsx:33 | the selector's codes are the answer's codes, one per row, in order |
| ExchangeRates.OnlyAllIsUnbounded | src/pages/ExchangeRates.tsx:20-26 | of the range buttons, exactly "全部" issues a query without a lower bound |
| ExchangeRates.Page.constructor | src/pages/ExchangeRates.tsx:13-18 | no codes, USD selected, no history, not loading, page 1, 90-day range |
| ExchangeRates.Page.TotalPagesNow | src/pages/ExchangeRates.tsx:66 | the page count is the ceiling of the history length over 15 |
| ExchangeRates.Page.CurrentTableData | src/pages/ExchangeRates.tsx:67-68 | the table shows at most 15 rows, namely rows [(p-1)*15, p*15) of the reversed history |
| ExchangeRates.Page.ChartArea | src/pages/ExchangeRates.tsx:112-125 | the chart over the stored history iff there is any; the empty-state note iff there is none and loading is over; nothing while loading an empty history |
| ExchangeRates.Page.FetchAvailableCurrencies | src/pages/ExchangeRates.tsx:29-37 | any answer with data replaces the selector's codes; an answer without data changes nothing |
| ExchangeRates.Page.SelectCurrency | src/pages/ExchangeRates.tsx:85 | the selector sets the currency and nothing else |
| ExchangeRates.Page.SetDateRange | src/pages/ExchangeRates.tsx:96 | a range button sets the range and nothing else |
| ExchangeRates.Page.BeginFetchRates | src/pages/ExchangeRates.tsx:41-55 | with no currency selected nothing happens and no query is issued; otherwise the spinner turns on and the query follows the current currency and range |
| ExchangeRates.Page.FinishFetchRates | src/pages/ExchangeRates.tsx:55-61 | an answer without error becomes the history (and the chart) in fetch order and the page resets to 1; otherwise both are unchanged; the spinner turns off; an answer with no rows leaves the empty-state note showing, a non-empty one the chart of the rows in fetch order |
| ExchangeRates.Page.ClickPrev | src/pages/ExchangeRates.tsx:153-161 | Previous acts only when the controls are shown and it is enabled; the page stays in range and never goes below 1 |
| ExchangeRates.Page.ClickNext | src/pages/ExchangeRates.tsx:164-170 | Next acts only when the controls are shown and it is enabled; the page stays in range and never goes above totalPages |
| ExchangeRates.NewestRowOpensTable | src/pages/ExchangeRates.tsx:55-68 | for an ascending answer, the first row of table page 1 carries the greatest date |
| ExchangeRates.RangeSwitch | src/pages/ExchangeRates.tsx:50-53 | loading with range "1M" and then with "全部" issues a query with a lower bound, then one without |
| DataManagement.ApiBaseUrl | src/pages/DataManagement.tsx:12 | the configured URL when it is set and non-empty, otherwise `http://localhost:8000` |
| DataManagement.YearOptions | src/pages/DataManagement.tsx:21 | length is currentYear - 2022 (none when that is not positive), strictly descending, from currentYear down to 2023 |
| DataManagement.YearOptionsRange | src/pages/DataManagement.tsx:21 | a year is offered iff 2023 <= year <= currentYear |
| DataManagement.IntToString | src/pages/DataManagement.tsx:58 | a number's text is non-empty, and every character after an optional leading sign is a digit |
| DataManagement.ParseIntToString | src/pages/DataManagement.tsx:58 | a year's text reads back as the same year |
| DataManagement.SyncUrl | src/pages/DataManagement.tsx:56-59 | the URL is `base/api/sync/<kind>`, followed by `?start_year=Y&end_year=Y` for the exchange job only |
| DataManagement.YearQueryInjective | src/pages/DataManagement.tsx:58 | equal year queries carry equal years |
| DataManagement.SyncUrlInjective | src/pages/DataManagement.tsx:56-59 | two jobs, or the exchange job for two years, never share a URL |
| DataManagement.StatusFor | src/pages/DataManagement.tsx:62-69 | the banner is green iff the reply's status is "success"; it shows the server's message with a success or failure prefix, or names the API base when unreachable |
| DataManagement.Page.constructor | src/pages/DataManagement.tsx:15-20 | empty roster, loading, no banner, not syncing, the current year selected |
| DataManagement.Page.FetchCurrencies | src/pages/DataManagement.tsx:23-33 | the roster follows `Roster.Fetched` and loading ends |
| DataManagement.Page.ToggleCurrency | src/pages/DataManagement.tsx:35-46 | sends the negated status for the code; the list is toggled on success and unchanged on error |
| DataManagement.Page.SelectYear | src/pages/DataManagement.tsx:100-105 | the year selector sets an offered year and nothing else |
| DataManagement.Page.Trigger | src/pages/DataManagement.tsx:94-111 | a trigger button is disabled iff some job is in flight, and it shows the spinner iff its own job is in flight |
| DataManagement.Page.BeginSync | src/pages/DataManagement.tsx:52-60 | while a job is in flight a click does nothing; otherwise `syncing` becomes the job kind, both buttons are disabled, the clicked one spins, the banner clears, and the job's URL is requested; the exchange job's year is one the selector offers |
| DataManagement.Page.EndSync | src/pages/DataManagement.tsx:61-72 | on every outcome the banner is set from the outcome and `syncing` returns to none, which re-enables both trigger buttons |
| DataManagement.OverlappingTriggers | src/pages/DataManagement.tsx:94-113 | a fund click during an exchange job issues no request; after the job settles, a fund click issues one |
| Dashboard.DropYear | src/pages/Dashboard.tsx:46 | `substring(5)` drops the first five characters, or gives empty text when there are fewer |
| Dashboard.ToPoints | src/pages/Dashboard.tsx:45-48 | one point per row, in order, each built from its row |
| Dashboard.ChartSeries | src/pages/Dashboard.tsx:45-48 | the chart has one point per fetched row; point i comes from row n-1-i, with the date's first five characters dropped and the rate unchanged |
| Dashboard.ChartOfAnswer | src/pages/Dashboard.tsx:34-48 | an answer to the 30-row query gives at most 30 points, the first from the oldest row, drawn from the rows put oldest first |
| Dashboard.Page.constructor | src/pages/Dashboard.tsx:18-20 | empty roster, loading, empty chart |
| Dashboard.Page.ChartArea | src/pages/Dashboard.tsx:120-152 | the chart over the points iff there are any, and the loading spinner otherwise |
| Dashboard.Page.FetchCurrencies | src/pages/Dashboard.tsx:22-32 | the roster follows `Roster.Fetched` and loading ends |
| Dashboard.Page.FetchExchangeRates | src/pages/Dashboard.tsx:34-51 | asks for the 30 latest USD rows; an answer without error and with data replaces the chart by its series; otherwise the chart is unchanged; an answer with no rows leaves the spinner showing |
| Dashboard.Page.ToggleCurrency | src/pages/Dashboard.tsx:53-64 | sends the negated status for the code; the list is toggled on success and unchanged on error |
| Dashboard.ToggleRowTwice | src/pages/Dashboard.tsx:98 | clicking a loaded row twice sends the negated status and then the original one, and leaves the list as loaded |

## Left out

- Queries, updates and HTTP requests are not performed. Their answers are method parameters, and the store's promises about them (order, limit, date bound) are the `Answers` predicates. The model does not check the equality filters, because the selected columns do not include the filtered key.
- Computing the lower date bound from `Date.now()` and `toISOString()` depends on the clock and the time zone. The page receives it as the parameter `daysAgo`. `new Date().getFullYear()` becomes the constructor argument `year`.
- `toFixed`, `toLocaleString` and the chart axis `tickFormatter`s are floating-point and locale formatting, and are not modelled. Rates and NAVs are `Amount` (`real`) values the model only carries. Because of this, the case of a null rate or NAV (shown as `-`) is not modelled either.
- JSX layout, the charts, CSS, and the add/delete buttons, which have no handlers.
- `src/App.tsx` (routing), `test-fund.js` and `test-supabase.js` (connectivity scripts) are not part of this model.
- Races between overlapping fetches when a selector changes mid-request are not modelled. Each `Begin…`/`Finish…` pair runs as if alone, and the code makes no guarantee here. React's scheduling of effects is also not modelled: the caller invokes the fetch methods when an effect would run.
- `console.error` logging on failed fetches is not modelled; the logged case leaves state unchanged.
- `Math.ceil(n / k)` is computed in floating point; the model uses integer ceiling division, which agrees for the lengths that occur here (at most 90 NAV rows, and exchange-rate histories far below 2^53 rows).
- `result.status` and `result.message` are taken to be strings. A JSON reply that lacks them, which JavaScript would render as `undefined`, is not modelled.
