# Virtual FMCG shop: live-sales pipeline in Dafny

This project models the live-sales path of the Virtual FMCG shop in Dafny and proves properties about it:

- A producer loop synthesises customer visits and writes their lines to `sales_transactions`.
- After each commit, it broadcasts one `SALE` message through a shared WebSocket connection manager.
- The dashboard folds those messages into its live feed and KPI cards.
- The HTTP layer contributes a few small rules: the hourly gap-fill, the time-of-day buckets, the KPI shaping, and the `/ws` endpoint lifecycle.

Files and modules:

- `common.dfy`:
  - `Common` holds `Option`.
  - `Text` holds `str()` of a natural number, `repr()` of a float holding a whole number of paise, and `", ".join`, with round-trip lemmas.
- `websocket_manager.dfy` (`WebsocketManager`): the class `ConnectionManager`.
  - Its list of registered sockets is a `seq<Handle>`.
  - Every accept, disconnect call and send attempt goes into a ghost event log.
  - Whether a socket's send raises is an input: the set `broken`.
- `visit.dfy` (`Visit`): one visit of either producer.
  - `Env` supplies the random draws, the catalog rows, the INSERT/COMMIT outcomes and the clock text.
  - Money is in integer paise.
  - The spec function `Iteration` is implemented by the methods `RunIteration` and `InsertRows`, which keep the source's accumulators.
  - run_all.py's visit and simulator.py's visit, once its premature INSERT (backend/simulator.py:37-48) is removed, differ only in the constants gathered in `Variant`: the `sales_date` kind, the total suffix, the cooldown and the wait range.
  - The basket-size weights also differ (70/25/5 in run_all.py, 70/20/10 in simulator.py). Weights are not modelled, since the draws are inputs.
- `run_all.dfy` (`RunAll`): the producer that runs beside the server.
  - The class `Process` holds the one shared manager, the committed rows and the sleeps taken.
  - `Run` executes any finite prefix of `while True`.
- `simulator.dfy` (`Simulator`): the alternative producer as written, in which every iteration raises, plus the corrected visit.
- `api.dfy` (`Api`): the non-SQL rules of main.py and the `/ws` endpoint method.
- `dashboard.dfy` (`Dashboard`): App.jsx's `onmessage` SALE reducer and the `fetchData` state replacement, as pure functions over a `View` record.
  - JavaScript numbers that may be missing are `Undefined | Num | NaN`.

Behaviour of the code that the model follows and a reader might not expect:

- A socket whose send raises is skipped but stays registered: `broadcast` does not remove it. It stays registered until its own `/ws` handler's receive raises and calls `disconnect` (`Api.WebsocketEndpoint`).
- There is no PING or heartbeat event anywhere in the code.
- A catalog query that returns zero rows still commits (nothing) and broadcasts `Customer bought:  | Total: ₹0`.
- A failure part-way through a visit leaves the transaction uncommitted, so the lines already inserted are rolled back.
- The failure costs a 10 s cooldown in run_all.py and 20 s in simulator.py.

## Model

| member | source | states |
|---|---|---|
| WebsocketManager.ConnectionManager.constructor | backend/websocket_manager.py:5-7 | a new manager tracks no socket and has logged nothing |
| WebsocketManager.ConnectionManager.Connect | backend/websocket_manager.py:9-11 | after a successful accept the socket is appended last and earlier entries keep their order; if accept raises, the list and the log are unchanged |
| WebsocketManager.ConnectionManager.Disconnect | backend/websocket_manager.py:13-15 | the list becomes `RemoveFirst` of the old list, i.e. the first occurrence is removed and nothing else changes; never raises |
| WebsocketManager.RemoveFirst | backend/websocket_manager.py:13-15 | `if ws in l: l.remove(ws)` shortens the list by one exactly when the socket is registered, adds no socket, and keeps every other registered socket |
| WebsocketManager.IndexOf | backend/websocket_manager.py:15 | the linear search of `list.remove` returns the first index holding the socket |
| WebsocketManager.RemoveFirstAt | backend/websocket_manager.py:15 | removing the first occurrence is slicing out the first index that holds it |
| WebsocketManager.RemoveFirstAbsent | backend/websocket_manager.py:14 | disconnecting a socket that is not registered is a no-op |
| WebsocketManager.RemoveFirstCount | backend/websocket_manager.py:13-15 | disconnect removes exactly one occurrence (multiset minus one; length minus one if present, unchanged if absent) |
| WebsocketManager.DisconnectIdempotent | backend/websocket_manager.py:13-15 | for a socket registered at most once, disconnecting twice equals disconnecting once |
| WebsocketManager.DisconnectUndoesConnect | backend/websocket_manager.py:9-15 | a connect followed by a disconnect of a new socket restores the list |
| WebsocketManager.Attempts | backend/websocket_manager.py:19-25 | one broadcast makes exactly one send attempt per registered socket, in list order, succeeding exactly for the healthy ones |
| WebsocketManager.ConnectionManager.Broadcast | backend/websocket_manager.py:17-25 | the list is unchanged (broken sockets stay registered) and the log gains exactly `Attempts`; no exception escapes |
| WebsocketManager.BroadcastReachesHealthy | backend/websocket_manager.py:19-25 | the sockets that receive a broadcast are exactly the registered healthy ones, in list order; a broken one stops none of the later ones |
| WebsocketManager.BroadcastReachesAll | backend/websocket_manager.py:19-22 | with no broken transport every registered socket receives the message once, in list order |
| RunAll.Process.constructor | backend/websocket_manager.py:28 | the process starts with one fresh, empty shared manager and nothing produced |
| Text.NatToString | backend/run_all.py:40 | `str(n)` is a non-empty string of digits with no leading zero |
| Text.NatToStringRoundTrip | backend/run_all.py:40 | the printed unit count reads back as the number printed |
| Text.NatToStringInjective | backend/run_all.py:58 | two different amounts never print the same |
| Text.FloatRepr | backend/run_all.py:58 | `repr` of a whole number of paise prints the rupees, a point and the shortest cents: one decimal for a multiple of ten paise, two otherwise; a trailing zero only for whole rupees (`50.0`) |
| Text.FloatReprRoundTrip | backend/run_all.py:58 | the printed basket total parses back to exactly the paise it was printed from |
| Visit.Lines | backend/run_all.py:31-52 | one sale line per returned row, in row order, each with the row's SKU and the row's draws |
| Visit.Descriptions | backend/run_all.py:31-40 | one `"<units>x <name>"` description per returned row, in row order |
| Visit.Summary | backend/run_all.py:57-58 | the message text starts with `[<clock>] Customer bought: ` and ends with the rendered total (`… | Total: ₹<T>`, or `(Total: ₹<T>)` in simulator.py's style) |
| Visit.FirstRejected | backend/run_all.py:43-52 | the index of the first INSERT that raises, with all earlier ones succeeding, or the row count if none raises |
| Visit.BasketStep | backend/run_all.py:28-39 | adding one line total to the accumulator gives the float total of the lines so far |
| Visit.Iteration | backend/run_all.py:14-74 | an iteration's payload exists exactly when it committed and is a SALE message; it sleeps the drawn wait after a commit and the cooldown otherwise; it inserts at most one line per returned row, none when the query raised |
| Visit.InsertRows | backend/run_all.py:28-52 | the row loop issues exactly the lines before the first failed INSERT; on full success its summaries and basket total are those of all rows |
| Visit.RunIteration | backend/run_all.py:14-74 | one turn of the loop computes exactly `Iteration`: query, row loop, commit, summary, wait or cooldown |
| Visit.IterationOutcome | backend/run_all.py:15-74 | a payload is broadcast iff the visit committed, iff the query, every INSERT and the COMMIT succeeded; failures sleep the cooldown, commits sleep a wait within the drawn range |
| Visit.IterationLines | backend/run_all.py:18-52 | the issued lines are a prefix of the rows' lines, at most the basket size (at most 3); each has 1 or 2 units, total = units × unit price, the variant's date kind, STORE_MAIN and Retail |
| Visit.TotalIsPriceSum | backend/run_all.py:36-39 | the basket total equals the sum of units × sell price over the rows |
| Visit.SaleMessage | backend/run_all.py:57-64 | a committed visit's payload has type SALE and text `[clock] Customer bought: d1, d2, ...` with the total suffix; the printed total reads back as the sum of the line totals, and it is `0` for an empty basket |
| RunAll.Iterations | backend/run_all.py:14-74 | the loop yields one result per iteration, in order |
| RunAll.IterationsAt | backend/run_all.py:14-74 | result k of the loop is the visit run on environment k |
| RunAll.SleepAfterEveryIteration | backend/run_all.py:66-74 | every iteration ends in one sleep: 10 s after a failure, 90..240 s after a commit |
| RunAll.PersistedOnlyCommitted | backend/run_all.py:43-54 | only committed visits reach the table, at most three lines per visit; with no commit nothing is persisted |
| RunAll.MilkSummary | backend/run_all.py:58 | the concrete message text for one unit of Milk at ₹50.00 |
| RunAll.MilkVisit | backend/run_all.py:21-64 | worked example: one Milk row at ₹50.00 inserts one line and broadcasts `... 1x Milk | Total: ₹50.0` |
| RunAll.EmptyBasketStillBroadcast | backend/run_all.py:28-64 | zero returned rows still commit and broadcast an empty basket with total `0` |
| RunAll.Process.Step | backend/run_all.py:14-74 | one turn: the visit, its committed rows appended, one broadcast after a commit, the sleep recorded; registrations untouched |
| RunAll.Process.Run | backend/run_all.py:14-74 | after n turns the results are `Iterations`, the table holds their committed rows in order, the sleeps are recorded, and the log holds exactly their broadcasts |
| Simulator.FirstMissing | backend/simulator.py:37-48 | the first placeholder, in statement order, that the parameter dict does not bind: every earlier one is bound; `None` iff all are bound |
| Simulator.PrematureInsert | backend/simulator.py:37-48 | the INSERT before the loop raises `UnboundLocalError` iff a loop variable is unbound; otherwise any bind error names a placeholder the dict lacks |
| Simulator.PrematureInsertAlwaysRaises | backend/simulator.py:37-57 | the premature INSERT never succeeds: `sku_id` is unbound on a fresh process, and `total_price` is missing even when all locals are bound |
| Simulator.CorrectedVisitPublishes | backend/simulator.py:50-95 | with the premature INSERT removed, a visit whose query, INSERTs and commit succeed commits date-only lines and broadcasts `... (Total: ₹T)`, then waits 120..300 s |
| Simulator.Process.constructor | backend/simulator.py:16-19 | the loop variables start unbound and nothing is produced |
| Simulator.Process.Step | backend/simulator.py:19-99 | as written: the fault is `QueryFailed` when the query raises and the premature INSERT's error otherwise, so there is always one; the row loop, commit and broadcast that would follow a successful INSERT never run; no variable is bound, the manager's list and log are unchanged, and 20 s is slept |
| Simulator.Process.AfterPrematureInsert | backend/simulator.py:50-89 | what would follow a premature INSERT that went through: the row loop binds the loop variables, the visit is the corrected `Iteration`, its committed rows are appended and its payload is broadcast once; the registrations are unchanged |
| Simulator.Process.Run | backend/simulator.py:19-99 | as written: after n turns nothing is committed, the manager's list and log are unchanged, and n sleeps of 20 s are recorded |
| Simulator.FreshProcessFailsOnSkuId | backend/simulator.py:37-48 | on a fresh process every iteration whose query succeeds fails on `sku_id` |
| Api.HourlySales | backend/main.py:72-74 | the hourly response has exactly 13 points |
| Api.HourLabelsInOrder | backend/main.py:74 | point i is labelled `f"{9+i}:00"`, whose first character is not `0` (no zero padding), and the label reads back as hour 9+i, so the labels are hours 9..21 in increasing order |
| Api.HourMap | backend/main.py:72 | the dict's keys are exactly the hours the rows mention |
| Api.HourMapLast | backend/main.py:72 | a row's hour is in the dict, with the revenue of the last row for that hour |
| Api.HourlyRevenue | backend/main.py:72-74 | each point carries the database revenue for its hour if present, else the int 0 |
| Api.HoursOutsideDayIgnored | backend/main.py:72-74 | rows for hours outside 9..21 change no point |
| Api.PeriodOf | backend/main.py:109-113 | 6..11 is Morning and 12..17 is Afternoon (BETWEEN inclusive); every other hour is Evening |
| Api.PeriodNamesDistinct | backend/main.py:110-112 | the three periods come back as Morning, Afternoon and Evening, distinct names, so each is its own bar |
| Api.PeriodsInClockOrder | backend/main.py:109-113 | from 6:00 on, the periods follow clock order; hours before 6:00 fall in Evening |
| Api.RoundCents | backend/main.py:43 | `round(x, 2)` is a whole number of paise within half a paisa of x |
| Api.GetKpis | backend/main.py:38-47 | margin is always 25.0 and profit is a quarter of revenue; avg_units is 1.2; orders is the count; revenue is the COALESCEd sum; aov is a whole number of paise within half a paisa of the mean; top_category is "N/A" iff missing or empty, else the category; a missing low-stock count is 0 |
| Api.EmptyTableKpis | backend/main.py:21-47 | an empty table yields zeros, margin 25.0, avg_units 1.2 and "N/A" |
| Api.WebsocketEndpoint | backend/main.py:145-153 | accept failure escapes without registering; otherwise the socket is registered, frames are drained, and `disconnect` is called exactly once; a new socket leaves the list as it was |
| Dashboard.Take10 | frontend/src/App.jsx:54 | `.slice(0, 10)` keeps the first at most 10 entries |
| Dashboard.FirstSaleAfterMount | frontend/src/App.jsx:9-15 | from the state on mount, the first SALE is the whole feed, sets orders to 1, and sets revenue to its total and profit to a quarter of it, or both to NaN when it carries no total |
| Dashboard.OnMessage | frontend/src/App.jsx:50-67 | a non-SALE message changes nothing; a SALE puts its message at the head of the feed ahead of the old entries, keeps the feed at most 10 long, and adds one order |
| Dashboard.FeedIsNewestSales | frontend/src/App.jsx:50-54 | the feed is the SALE messages, newest first, ahead of the previous feed, cut to 10; it never exceeds 10 |
| Dashboard.OrdersCountSales | frontend/src/App.jsx:52-63 | non-SALE messages change nothing; after k ≥ 1 SALEs, orders is the old value (missing as 0) plus k |
| Dashboard.RevenueAddsTotals | frontend/src/App.jsx:57-65 | with a total on every SALE, revenue grows by the totals and profit by a quarter of them, starting from 0 if missing or NaN |
| Dashboard.BackendSaleBreaksRevenue | frontend/src/App.jsx:50-65 | the backend's payload (no `total_price`) shows and counts the message but turns revenue and profit into NaN |
| Dashboard.CorrectedSaleAddsTotal | frontend/src/App.jsx:57-65 | with the visit total on the wire, a SALE adds it to revenue, a quarter to profit, and one order |
| Dashboard.NaNRevenueRestarts | frontend/src/App.jsx:61 | a NaN revenue reads as 0, so the next SALE with a total restarts revenue from that total |
| Dashboard.SaleKeepsOtherFields | frontend/src/App.jsx:57-65 | a SALE leaves hourly, distribution, timeOfDay and every KPI other than revenue, profit and orders unchanged |
| Dashboard.FetchData | frontend/src/App.jsx:17-34 | if any of the four requests fails, the state is unchanged; if all succeed, the four sections hold exactly the responses (kpis as the `/kpi` JSON); the live feed is never touched |
| Dashboard.FetchThenBackendSale | frontend/src/App.jsx:17-65 | after a successful fetch, a broadcast SALE turns the fetched revenue and profit into NaN, takes orders one past the server's count, keeps every other fetched section and KPI, and puts the message at the head of the feed |

## Left out

- Concurrency. The list is not modelled as changing while `broadcast` awaits a send, and the producer, the endpoint tasks and uvicorn are not interleaved. Every operation runs sequentially.
- Randomness: the basket-size, unit and price draws, and the wait. These are inputs constrained to their ranges, and the weights are not modelled.
- Floating point. Prices and totals are exact integer paise, and the jittered sell price is an input within half a paisa of the 0.99..1.01 band. Binary rounding of `round(..., 2)` and summation error in the float basket are not modelled. Neither is the exponent form `repr` uses for huge floats. On the dashboard, `JsNum` holds an exact real, so the float64 rounding of `revenue + total_price` and `total_price * 0.25` (frontend/src/App.jsx:61-62) is not modelled either; the exact sums of `Dashboard.RevenueAddsTotals` hold over the reals.
- Api.RoundCents: rounds exact ties upward, whereas Python rounds the nearest binary float half to even. Api.GetKpis inherits this for `aov`.
- The SQL: the catalog query, the aggregate queries, GROUP BY and the inventory count. Query results are inputs. The other endpoints of main.py and the database engine are not part of this model.
- `datetime.now()`, `strftime` and `print`. The clock text is an input and printing is not modelled.
- `asyncio.sleep` is recorded as its duration only.
- The simulator's `MIN_WAIT = 40` and `MAX_WAIT = 90` are declared but never read, so no member uses them. The success path waits `randint(120, 300)`, which `Variant` carries.
- RunAll.Process.Run and Simulator.Process.Run: each covers any finite number of iterations of the endless `while True`. The endpoint's receive loop is covered for a given number of frames before the client closes.
- React rendering, charts, axios transport, `setInterval` polling, and the browser WebSocket object. frontend/src/main.jsx is not part of this model.
- The stray statement at frontend/src/App.jsx:36-41. It runs on every render and reads `ws`, which is not declared in that scope, so it throws `ReferenceError`. As written, `Dashboard` therefore never finishes a render, and the effect at lines 43-73 never runs: no `fetchData`, no socket, no handler. The `Dashboard` module models the component with that statement removed.
- JavaScript string coercion. `incoming.total_price` is modelled as a number, undefined or NaN only.

## Findings

| source | as written | input that shows it | evidently intended | confidence | as-written member | corrected member |
|---|---|---|---|---|---|---|
| backend/simulator.py:37-48 | an INSERT placed before the row loop reads `sku_id`, `units_sold` and `sell_price`, which only the loop binds, and passes no `total_price` for that placeholder | any iteration of a freshly started process whose catalog query succeeds: it raises `UnboundLocalError` on `sku_id`, so nothing is ever committed or broadcast | one INSERT per row inside the loop (lines 63-77), then commit and broadcast the visit. The corrected visit keeps that loop INSERT as written, with date-only `sales_date` (line 69). The comment at line 41 asks for the full `datetime.now()`, but it sits on the statement being removed; run_all.py's variant is the timestamp form | not executed | Simulator.PrematureInsertAlwaysRaises | Simulator.CorrectedVisitPublishes |
| frontend/src/App.jsx:61-62 | the handler adds `incoming.total_price`, but the backend's SALE payload (backend/run_all.py:61-64) carries only `type` and `message` | any broadcast SALE: revenue and profit become NaN | each SALE adds the visit total to revenue and a quarter of it to profit | not executed | Dashboard.BackendSaleBreaksRevenue | Dashboard.CorrectedSaleAddsTotal |
