# Trading dashboard backend, modelled in Dafny

This project models the four route handlers of a paper-trading dashboard
backend that hold observable logic:

- **Position ledger** (`positions.dfy`, module `Positions`): the
  process-wide list of open paper positions and the paper cash balance
  (starting at 100000). GET lists the positions with a summary (count,
  total market value, total unrealized PnL, balance). POST closes the first
  position matching an upper-cased symbol and an exact side, settling
  `currentPrice × quantity + unrealizedPnl` into the balance. DELETE settles
  every position and empties the list. The state is a class `Ledger`, and
  its methods are proved against pure specification functions (`List`,
  `DecideClose`, `Sum`). Both close operations are also proved to preserve
  *equity*: the balance plus what every open position would settle for.
- **Signal ranker** (`signals.dfy`, module `Signals`): for the fixed symbols
  ES, NQ, SPY, QQQ, AAPL and NVDA, three sub-scores are combined into a
  weighted composite. The composite is classified into BUY, SELL or HOLD
  and given a confidence, and the batch is ranked by descending confidence.
  A class `Feed` models the cache, which is regenerated only when it is
  more than 30000 ms old.
- **Webhook receiver** (`webhook.dfy`, module `Webhook`): the shared-secret
  check (query parameter or header), the payload-shape check, the mapping
  of `buy`/`sell`/`close` to BUY/SELL, and the 401/400/500/200 answers. It
  is pure: no state is written.
- **Environment switch** (`environment.dfy`, module `Environment`): one
  flag, `paper` or `live`, in a class `Setting`. GET reads it; POST
  validates the body and overwrites it.

`json.dfy` (module `Json`) holds what the handlers share: the parsed-body
datatype (`Malformed` models a `request.json()` that throws), property
access on a parsed value, and JavaScript truthiness.

Inputs that the code reads from its environment are parameters:

- the `Math.random()` draws are a function `draw` from symbol to three
  sub-scores in [0, 1);
- the clock is a millisecond count `now`;
- the configured webhook secret is `expected` (`ConfiguredSecret` models
  the `|| 'dev-secret'` fallback);
- the query parameter and the header arrive as `Option<string>`.

All JavaScript numbers are exact reals (no IEEE-754 rounding).

Behaviour of the code worth noting:

- Close-one rejects with 400 any *falsy* `symbol` or `side` (missing,
  `null`, `""`, `0`, `false`), not only missing ones.
- A truthy non-string `symbol` makes `symbol.toUpperCase()` throw inside
  the `findIndex` callback. That callback runs only on a non-empty list.
  So the model answers 404 on an empty list and 500 (an unhandled throw)
  otherwise.
- A malformed or `null` body makes close-one and the environment POST
  throw (500); only the webhook catches its own exception.
- Reads that are less than 30 s apart do not always return the same batch.
  The batch is stable only while the clock is within 30000 ms of the last
  *refresh* (`lastUpdate`). For example, a read 20 s after load and another
  at 40 s fall in different windows. `ReadsAfterRefresh` states the
  property that does hold.

## Model

| member | source | states |
|---|---|---|
| `Positions.List` | src/app/api/positions/route.ts:26-49 | GET reports the list itself, `count` = its length, `totalValue` = Σ currentPrice×quantity, `totalUnrealizedPnl` = Σ unrealizedPnl, and the balance verbatim |
| `Positions.ReduceIsSum` | src/app/api/positions/route.ts:29-35 | the left fold `reduce` from an initial value equals that value plus the mathematical sum |
| `Positions.Ledger.Get` | src/app/api/positions/route.ts:26-49 | GET changes nothing and returns exactly the listing of the current list and balance |
| `Positions.Ledger.constructor` | src/app/api/positions/route.ts:22-23 | the ledger starts with no positions and balance 100000 |
| `Positions.Upper` | src/app/api/positions/route.ts:65 | ASCII upper-casing keeps the length, maps each character and leaves no lower-case letter |
| `Positions.FindIndex` | src/app/api/positions/route.ts:64-66 | `findIndex` returns -1 iff no entry matches (upper-cased symbol, exact side), otherwise the lowest matching index |
| `Positions.DecideClose` | src/app/api/positions/route.ts:53-83 | POST: throw on a malformed or null body; 400 iff `symbol` or `side` is falsy; a non-string symbol gives 404 on an empty list and a throw otherwise; for a string symbol, 404 iff no entry matches; otherwise Closed at the first match with message `Closed <symbol> position` |
| `Positions.CloseStatusCodes` | src/app/api/positions/route.ts:54-73 | close-one never answers 500 on a parsed request whose symbol is a string; it answers 500 only on a malformed or null body, or on a truthy non-string symbol against a non-empty list |
| `Positions.RemoveAt` | src/app/api/positions/route.ts:77 | `splice(index, 1)` drops exactly that index and keeps the order of the rest |
| `Positions.SumRemoveAt` | src/app/api/positions/route.ts:75-77 | removing an entry lowers any sum over the list by exactly that entry's term |
| `Positions.Ledger.Close` | src/app/api/positions/route.ts:53-83 | on a match the balance grows by exactly currentPrice×quantity+unrealizedPnl of that entry and the list loses exactly that index; on every other answer list and balance are unchanged; equity is preserved |
| `Positions.Ledger.CloseAll` | src/app/api/positions/route.ts:86-98 | the balance becomes the old balance plus the sum of every settlement, the list becomes empty, `closed` = old length, `failed` = 0, equity is preserved |
| `Positions.SettlementIsValuePlusPnl` | src/app/api/positions/route.ts:89-91 | settling the whole list pays its total market value plus its total unrealized PnL |
| `Positions.CloseAllPaysSummary` | src/app/api/positions/route.ts:86-98 | what close-all adds to the balance equals GET's `totalValue + totalUnrealizedPnl` |
| `Positions.ExampleDecision` | src/app/api/positions/route.ts:64-77 | closing ("es", "BUY") against one ES/BUY entry selects index 0, and that entry settles for 210 |
| `Positions.CloseExample` | src/app/api/positions/route.ts:64-77 | from balance 100000 with that entry, closing ("es", "BUY") leaves balance 100210 and an empty list |
| `Signals.Composite` | src/app/api/signals/route.ts:20-25 | the weighted composite of sub-scores in [0, 1) lies in [0, 1) |
| `Signals.WeightsSumToOne` | src/app/api/signals/route.ts:25 | the weights 0.25, 0.35 and 0.40 sum to one: equal sub-scores give that score back |
| `Signals.CompositeMonotone` | src/app/api/signals/route.ts:25 | raising any sub-score never lowers the composite |
| `Signals.Classify` | src/app/api/signals/route.ts:28 | BUY iff composite > 0.65, SELL iff < 0.35, HOLD iff in [0.35, 0.65] |
| `Signals.Confidence` | src/app/api/signals/route.ts:29 | `abs(composite − 0.5) × 2` lies in [0, 1] and exceeds 0.3 exactly when the recommendation is not HOLD |
| `Signals.MakeSignal` | src/app/api/signals/route.ts:19-32 | a signal carries its symbol, sub-scores and timestamp, the recommendation of its composite, the confidence `abs(composite − 0.5) × 2` in [0, 1], and HOLD iff confidence ≤ 0.3 |
| `Signals.ScoreAll` | src/app/api/signals/route.ts:18-32 | the `map` yields one signal per symbol, the k-th scoring the k-th symbol |
| `Signals.Insert` | src/app/api/signals/route.ts:33 | inserting into a descending list keeps it descending and adds exactly that signal |
| `Signals.RankByConfidence` | src/app/api/signals/route.ts:33 | the ranking is sorted by non-increasing confidence and is a permutation of its input |
| `Signals.InsertKeepsSymbols` | src/app/api/signals/route.ts:33 | inserting a signal adds its symbol once to the list's symbols |
| `Signals.RankKeepsSymbols` | src/app/api/signals/route.ts:33 | ranking leaves the multiset of symbols unchanged |
| `Signals.Generate` | src/app/api/signals/route.ts:17-34 | `generateSignals` returns six signals, sorted by non-increasing confidence, a permutation of the per-symbol scorings |
| `Signals.GeneratedSignalsAreScored` | src/app/api/signals/route.ts:19-32 | every generated signal is the scoring of one of the six symbols with that symbol's draws |
| `Signals.GeneratedSymbols` | src/app/api/signals/route.ts:18-33 | the symbols of a generated batch are a permutation of `['ES','NQ','SPY','QQQ','AAPL','NVDA']` |
| `Signals.Feed.constructor` | src/app/api/signals/route.ts:14-15 | the cache starts empty, stamped with the load time, and so satisfies the feed invariant (empty, or a batch sorted by confidence holding each of the six symbols exactly once) |
| `Signals.Feed.Get` | src/app/api/signals/route.ts:36-42 | when `now − lastUpdate > 30000` the cache becomes a fresh batch and `lastUpdate` becomes `now`; otherwise both are unchanged; the cache is returned verbatim, and it is always either the initial `[]` or a sorted batch holding each of the six symbols exactly once (the feed invariant is kept) |
| `Signals.ReadDuringFirstWindow` | src/app/api/signals/route.ts:14-41 | every read within 30000 ms of load returns the empty list |
| `Signals.ReadsAfterRefresh` | src/app/api/signals/route.ts:37-41 | a read that refreshes and any read within 30000 ms after it return the same sorted batch, which holds each of the six symbols exactly once |
| `Webhook.ConfiguredSecret` | src/app/api/webhooks/tradingview/route.ts:10 | the environment variable is used when set and non-empty, `dev-secret` otherwise; the secret is never empty |
| `Webhook.ParseAction` | src/app/api/webhooks/tradingview/route.ts:29 | only `buy`, `sell` and `close` are accepted actions |
| `Webhook.ValidatePayload` | src/app/api/webhooks/tradingview/route.ts:23-32 | the JavaScript guard holds iff the body is an object (never an array or a falsy value) with a string `ticker`, a string `action` in {buy, sell, close} and a number `price` |
| `Webhook.Decode` | src/app/api/webhooks/tradingview/route.ts:23-32 | the body yields an alert iff `validatePayload` accepts it, and that alert carries exactly the body's `ticker`, `action` and `price` |
| `Webhook.DecodeEncode` | src/app/api/webhooks/tradingview/route.ts:12-32 | every alert's JSON form is valid and decodes back to the same alert |
| `Webhook.OptionalFieldsIgnored` | src/app/api/webhooks/tradingview/route.ts:23-32 | adding or changing any field other than ticker, action and price never changes validation or the decoded alert |
| `Webhook.SignalOf` | src/app/api/webhooks/tradingview/route.ts:53 | BUY iff the action is `buy`; `close` maps to SELL |
| `Webhook.HandleAlert` | src/app/api/webhooks/tradingview/route.ts:34-66 | 401 iff neither the query secret nor the header equals the expected secret; with a correct secret, 500 iff the body fails to parse and 400 iff it is invalid; success carries the mapped signal, the ticker and `Signal processed: <type> <ticker>` |
| `Webhook.SecretCheckedFirst` | src/app/api/webhooks/tradingview/route.ts:41-48 | with a bad secret the answer is 401 and does not depend on the body at all |
| `Webhook.BadPayloadIsNotAuthFailure` | src/app/api/webhooks/tradingview/route.ts:48-50 | a correct secret with an invalid payload gives 400 |
| `Webhook.AlertAcknowledged` | src/app/api/webhooks/tradingview/route.ts:52-61 | an authorized, well-formed alert is acknowledged with `received`, its mapped signal type and its ticker |
| `Webhook.HealthCheck` | src/app/api/webhooks/tradingview/route.ts:69-75 | the health check takes no input and reports success with status `ready` |
| `Environment.EnvNamed` | src/app/api/settings/environment/route.ts:27 | a value names an environment iff it is exactly the string "paper" or "live" |
| `Environment.DecideSwitch` | src/app/api/settings/environment/route.ts:23-51 | POST throws on a malformed or null body, switches iff `environment` is "paper" or "live" and echoes it with `Trading environment switched to <env>`, and answers 400 otherwise |
| `Environment.After` | src/app/api/settings/environment/route.ts:34-42 | the flag after POST is the requested value on success and the old flag otherwise |
| `Environment.SwitchIdempotent` | src/app/api/settings/environment/route.ts:41 | posting the same body twice leaves the flag where posting it once does |
| `Environment.SwitchForgetsPrevious` | src/app/api/settings/environment/route.ts:34-42 | after a successful switch the flag does not depend on the previous one |
| `Environment.Setting.constructor` | src/app/api/settings/environment/route.ts:12 | the flag starts as `paper` |
| `Environment.Setting.Get` | src/app/api/settings/environment/route.ts:15-20 | GET returns the current flag and changes nothing |
| `Environment.Setting.Set` | src/app/api/settings/environment/route.ts:23-51 | POST answers as `DecideSwitch`; the flag becomes exactly the requested value on success and is unchanged on 400 or 500 |
| `Environment.SwitchThenRead` | src/app/api/settings/environment/route.ts:12-50 | a fresh process reads `paper`, and after a POST the next GET reads the switched value, or still `paper` when the POST was rejected |
| `Json.Truthy` | src/app/api/positions/route.ts:57 | a truthy property value is present and not null |

## Left out

- HTTP plumbing: `NextRequest`/`NextResponse`, `new URL(...)` and the
  header lookup. Their results are inputs. Response wrappers are reduced
  to the outcome datatypes, their status codes and the key payload fields.
- `console.log`/`warn`/`error`: logging only. This includes the extra
  warning when switching to `live`.
- `Math.random()`, `Date.now()` and `new Date()`: the draws and the clock
  are parameters. Each GET reads the clock once, so the signal timestamps
  and the new `lastUpdate` share that reading. The source reads the clock
  several times per request.
- `Signals.RankByConfidence`: the contract states "sorted by
  non-increasing confidence and a permutation" but not stability.
  `Array.prototype.sort` is stable, so the source keeps equal-confidence
  signals in symbol-list order. The insertion sort that defines the ranking
  is stable too, but no lemma states it.
- Floating-point behaviour of JS numbers: the model uses exact real
  arithmetic, so rounding in the folds and in the composite is not modelled.
- `toUpperCase` beyond ASCII: `Positions.Upper` maps only `a`–`z`.
- Non-string values reaching string operations other than the close-one
  `symbol` (for example a numeric `side`) simply fail to match, as in the
  source. Unicode and prototype-chain details of property access are not
  modelled: `Json.Field` sees only an object's own fields.
- The optional alert fields (`time`, `interval`, `strategy`, `message`)
  are never read. `Webhook.Alert` carries only the three required fields;
  `Webhook.OptionalFieldsIgnored` shows the others cannot matter.
- Creating positions: none of the four handlers adds to the list. It starts
  empty and only shrinks, so positions must come from outside the modelled
  handlers. `Positions.CloseExample` sets the list directly, and the match
  paths of close-one are reachable only in that way.
- Concurrency: the handlers run one at a time, as the runtime guarantees.
- `src/app/page.tsx`: a static page with no logic.
