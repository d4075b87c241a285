# MEXC volume-spike scanner: a verified model

This project models the core of the MEXC futures volume-spike bot in Dafny.

From `Mexcnewbot.py` it models:

- **The universe filter** (`load_symbols_and_filter_low_volume`). It turns the contract-detail listing into two sets:
  - `ALL_SYMBOLS`: active `_USDT` contracts, renamed `...USDT`;
  - `LOW_VOLUME_SYMBOLS`: those whose 24-hour volume is at most 2,000,000 USDT.
- **The "no data" normalisation of `get_1m_data`.** Any failure gives no sample. Otherwise it gives the first two one-minute windows, with volumes truncated to whole USDT.
- **One pass of `volume_spike_scanner`.** For each tracked symbol it fetches, applies the strict threshold test (previous volume below 1000, current above 2000) and skips an alert id `symbol_minuteKey` already in `sent_alerts`. It then builds the alert: the zero-guarded percentage change, the UP/DOWN label and the trading-link symbol `symbol[:-4] + "_USDT"`. It sends the alert and records the id only when the send succeeded.

From `database_simple.py` it models the in-memory `Database`:

- a blacklist;
- a pause set;
- an alert history that keeps only the last 1000 records.

## Modules

- **`Wrappers`**: `Option`.
- **`PyStr`**: the Python string operations the code uses, with exact semantics: `endswith`, `str.replace` (left to right, non-overlapping) and `s[:-n]` for `n > 0`. It also proves the facts about `"USDT"` and `"_USDT"` that the renaming relies on.
- **`MexcApi`**: exchange replies as values, `int(float(x))` as truncation toward zero, and `get_1m_data` after its request (`OneMinuteSample`).
- **`Universe`**: the two comprehensions and the loader as the pure function `Load`. It follows Python's evaluation order, including a comprehension that raises.
- **`Spike`**: the threshold test, the price change, the alert id, the alert's contents and the link symbol.
- **`VolumeScanner`**: class `Scanner`.
  - Its fields are `ALL_SYMBOLS`, `LOW_VOLUME_SYMBOLS` and `sent_alerts`.
  - `LoadSymbols` reassigns the first two.
  - `Tick` loops over the tracked set and updates `sentAlerts` in place.
  - `Tick` is proved against `Delivered`, the set of symbols a tick alerts about, and `Recorded`, the alert ids it adds.
- **`SimpleDatabase`**: class `Database`, proved against `Trimmed`, the last 1000 entries of a history.
- **`Scenarios`**: client proofs whose outcomes follow from the contracts:
  - one contract is loaded from a one-entry listing;
  - one spike is alerted once;
  - a second tick in the same minute alerts nothing;
  - a loud-then-quiet pattern in the next minute alerts nothing;
  - a database session.

The network and the chat bot are inputs:

- `exchange: string -> KlineFetch` gives the kline reply for the exchange symbol requested.
- `sendOk: string -> bool` says whether sending the alert with a given id succeeds.
- `minuteKey` is the `strftime("%Y%m%d%H%M")` value of the tick, given as a string.

Two behaviours of the code are worth stating plainly:

- **Failed sends.** A failed send is not recorded (`Mexcnewbot.py:127-137`), so a later tick in the same minute can send the alert again.
- **Non-atomic refresh.** The loader assigns `ALL_SYMBOLS` before the second comprehension runs. When that comprehension raises, the loader returns `False` with `ALL_SYMBOLS` already replaced (`Mexcnewbot.py:50-66`).

## Model

| member | source | states |
|---|---|---|
| MexcApi.Trunc | Mexcnewbot.py:88-89 | the volume conversion `int(float(x))` truncates toward zero: the result is within one of `x` on the side of zero |
| MexcApi.OneMinuteSample | Mexcnewbot.py:84-95 | a sample exists iff the reply is 200, decodes, is `success`, has `data`, and has two convertible closes and amounts; it then holds the truncated amounts 0 and 1 and the closes 0 and 1 |
| PyStr.ReplaceAllAppend | Mexcnewbot.py:51 | for a pattern that cannot overlap itself, `replace` on `x + pat` is `replace` on `x` followed by the replacement: nothing straddles the final occurrence |
| PyStr.ReplaceAllAbsent | Mexcnewbot.py:70 | `replace` leaves a string without the pattern unchanged |
| PyStr.DropLast | Mexcnewbot.py:124 | for `n > 0`, `s[:-n]` is the prefix of `s` of length `len(s)-n`, or empty when `s` is shorter |
| Universe.RejectedReplyChangesNothing | Mexcnewbot.py:40-47 | an unreachable endpoint, a non-200 status, an undecodable body or a non-`success` payload returns False and leaves both sets as they were |
| Universe.FailedLoadKeepsTracked | Mexcnewbot.py:36-66 | whenever the loader returns False, `LOW_VOLUME_SYMBOLS` is unchanged |
| Universe.LoadSucceedsIff | Mexcnewbot.py:36-66 | the loader returns True iff the listing is read and neither comprehension raises |
| Universe.AllSymbolsExactly | Mexcnewbot.py:50-54 | after a successful load, a name is in `ALL_SYMBOLS` iff some contract ending in `_USDT` with `state == 1` has that name after `_USDT` is replaced by `USDT` |
| Universe.TrackedExactly | Mexcnewbot.py:56-60 | after a successful load, a name is tracked iff some such contract with that name has a 24h volume `<=` the limit (a missing volume reads as 0) |
| Universe.TrackedWithinAll | Mexcnewbot.py:50-60 | after a successful load the tracked set is a subset of `ALL_SYMBOLS` |
| Universe.StartupLoadKeepsSubset | Mexcnewbot.py:30-60 | a load from the empty start-up sets leaves the tracked set within `ALL_SYMBOLS`, whether or not it succeeds |
| Universe.AllSymbolsEndWithUsdt | Mexcnewbot.py:50-54 | after a successful load, every name in `ALL_SYMBOLS` ends with `USDT` |
| Universe.ScannerNameEndsWithUsdt | Mexcnewbot.py:51 | renaming a symbol that ends in `_USDT` renames its body and ends the result in `USDT` |
| Universe.ScannerNameOfPlainBase | Mexcnewbot.py:51 | `BASE_USDT` becomes `BASEUSDT` when the base does not contain `USDT` |
| Universe.LoadSingleTracked | Mexcnewbot.py:50-60 | a one-entry listing of a listed, low-volume contract makes both sets exactly its scanner name |
| Universe.AtLimitIsTracked | Mexcnewbot.py:25-60 | the limit is inclusive: a contract at exactly 2,000,000 USDT is tracked |
| Universe.OverLimitIsNotTracked | Mexcnewbot.py:25-60 | a contract at 2,000,001 USDT is in `ALL_SYMBOLS` but not tracked |
| Universe.PartialLoadBreaksSubset | Mexcnewbot.py:50-66 | a non-numeric `volume24h` makes the loader return False after `ALL_SYMBOLS` was replaced, which leaves a tracked name outside `ALL_SYMBOLS` |
| Spike.SpikeBoundaries | Mexcnewbot.py:110 | both thresholds are strict: a previous volume of 1000 or a current volume of 2000 does not fire, and 999 then 2001 does |
| Spike.SpikeOnAmounts | Mexcnewbot.py:88-110 | on the raw amounts, the test fires iff the previous amount is below 1000 and the current one is at least 2001 |
| Spike.ZeroGuard | Mexcnewbot.py:115-116 | a non-positive previous close gives a change of 0, labelled UP |
| Spike.DirectionMatchesPrices | Mexcnewbot.py:115-116 | the label is UP iff the previous close is not positive or the close did not fall |
| Spike.AlertIdInjective | Mexcnewbot.py:111 | for minute keys of one length, `symbol_minuteKey` determines both the symbol and the minute |
| VolumeScanner.Delivered | Mexcnewbot.py:105-137 | the symbols a tick alerts about are among the tracked ones |
| VolumeScanner.Scanner.constructor | Mexcnewbot.py:30-33 | the module state starts with three empty sets |
| VolumeScanner.Scanner.LoadSymbols | Mexcnewbot.py:36-66 | the loader's result and the new pair of sets are those `Load` gives from the old pair; `sent_alerts` is untouched |
| VolumeScanner.Scanner.VisitSymbol | Mexcnewbot.py:106-137 | one symbol is delivered iff it has data, fires, its id is not yet sent this minute and the send succeeds; the alert is the one built from its sample; exactly that id is added |
| VolumeScanner.Scanner.Tick | Mexcnewbot.py:105-137 | after a pass, `sent_alerts` gains exactly the ids of the delivered symbols; the alerts name those symbols once each, each built from its own sample; the tracked and listed sets are unchanged |
| VolumeScanner.AtMostOncePerMinute | Mexcnewbot.py:111-113 | any later tick in the same minute, once the first one's ids are recorded (the sent set only grows), alerts about none of the symbols the first one alerted about |
| VolumeScanner.FailedSendIsRetried | Mexcnewbot.py:127-137 | a failed send records nothing, so a later tick in the same minute whose send succeeds alerts about that symbol |
| VolumeScanner.NextMinuteAlertsAgain | Mexcnewbot.py:103-113 | a symbol alerted in one minute is alerted again in another minute when it fires and the send succeeds |
| VolumeScanner.SymbolRoundTrip | Mexcnewbot.py:51-124 | for `BASE_USDT` with a base free of `USDT`, the scanner name is `BASEUSDT`, and both the kline request and the trading link name `BASE_USDT` again |
| SimpleDatabase.Trimmed | database_simple.py:43-44 | the kept history is the suffix of length `min(len, 1000)` |
| SimpleDatabase.Database.constructor | database_simple.py:5-8 | a new store has empty sets and an empty history |
| SimpleDatabase.Database.GetBlacklist | database_simple.py:14-15 | returns the blacklist |
| SimpleDatabase.Database.AddToBlacklist | database_simple.py:17-18 | the blacklist gains the symbol (adding twice is adding once); the pause set and history are unchanged |
| SimpleDatabase.Database.RemoveFromBlacklist | database_simple.py:20-21 | the blacklist loses the symbol, and an absent symbol is allowed; nothing else changes |
| SimpleDatabase.Database.GetPausedAlerts | database_simple.py:23-24 | returns the pause set |
| SimpleDatabase.Database.AddPausedAlert | database_simple.py:26-27 | the pause set gains the symbol; the blacklist and history are unchanged |
| SimpleDatabase.Database.RemovePausedAlert | database_simple.py:29-30 | the pause set loses the symbol, and an absent symbol is allowed; nothing else changes |
| SimpleDatabase.Database.SaveAlert | database_simple.py:32-44 | the history becomes the last 1000 of (old history + the new record), so it holds at most 1000; the record keeps symbol, volumes and the two percentages but not the prices; the two sets are unchanged |
| SimpleDatabase.Database.GetRecentAlerts | database_simple.py:46-48 | returns the whole history, whatever `hours` is |
| SimpleDatabase.SavedRecordIsLast | database_simple.py:35-44 | the record just saved is the newest entry |
| SimpleDatabase.SaveBelowCapAppends | database_simple.py:42-44 | below the cap, saving only appends |
| SimpleDatabase.SaveAtCapDropsOldest | database_simple.py:42-44 | at the cap, saving drops exactly the oldest record |
| SimpleDatabase.TrimThenSave | database_simple.py:42-44 | trimming before appending keeps what trimming afterwards would keep |
| SimpleDatabase.SavesKeepSlidingWindow | database_simple.py:32-44 | any run of saves leaves the last 1000 records of (old history + all saved records), in insertion order |
| SimpleDatabase.TrimmedIdempotent | database_simple.py:43-44 | trimming a trimmed history changes nothing |
| Scenarios.OneContractListingTracksA | Mexcnewbot.py:50-60 | the listing of the single active contract `A_USDT` at 5000 USDT tracks `AUSDT` |
| Scenarios.SpikeIsDelivered | Mexcnewbot.py:105-116 | 500 then 2500 USDT with a rising close is alerted in a fresh minute, labelled UP |
| Scenarios.QuietIsNotDelivered | Mexcnewbot.py:110 | 2500 then 100 USDT is never alerted |
| Scenarios.LoadScenario | Mexcnewbot.py:36-66 | loading that listing from the start state tracks `AUSDT` with nothing sent yet |

## Left out

- The HTTP calls, their timeouts and JSON decoding (`Mexcnewbot.py:39-44`, `Mexcnewbot.py:77-95`). The replies are input values, and an exception while reading one is a failed fetch.
- The HMAC-SHA256 request signing and headers (`Mexcnewbot.py:71-74`). They are a foreign cryptographic call.
- Which exchange symbol the kline oracle is asked for is modelled (`ApiSymbol`). The URL and query string are not.
- The Telegram bot, the `/start` handler, the FastAPI server, the thread and the event-loop start-up (`Mexcnewbot.py:146-187`). They are I/O and concurrency. Delivery is the `sendOk` oracle.
- The endless scanner loop, `asyncio.sleep` and the outer retry on exception (`Mexcnewbot.py:101`, `Mexcnewbot.py:139-142`). They are scheduling, so one tick is modelled.
- The clock (`Mexcnewbot.py:103`). The minute key is a parameter.
- The alert message text, its number formatting and logging (`Mexcnewbot.py:118-125`). An alert is the record of data the text is built from.
- Floating point. Prices and parsed amounts are `real`, so rounding and `inf`/`nan` are not modelled. `float(...)` either yields a number or raises, which is `NotNumeric`.
- Python's `True == 1` and `1.0 == 1` in `s.get("state") == 1`. `state` is an optional integer.
- Non-list `data` and non-string `symbol` values in the listing. An entry's `symbol` is present or missing.
- Iteration order over the tracked set. The loop picks symbols in an arbitrary order. The result does not depend on it, because the oracles are fixed for the tick.
- Aliasing of the sets and lists the `Database` getters return. The getters return values.
- `Database.connect` and `Database.close` (`database_simple.py:10-12`, `database_simple.py:50-51`). They do nothing.
- `database.py`. It is PostgreSQL access through an external driver.
- Not in the code, so not modelled: a growth-ratio test, pause or blacklist checks in the scanner, dedup expiry, symbol-pattern exclusions.
- VolumeScanner.SymbolRoundTrip: the round trip holds only for bases without `USDT`. A base such as `USDT_USDT` is renamed `USDTUSDT` and requested as `_USDT_USDT`.
