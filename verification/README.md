# Binance trading bot: order-execution engine in Dafny

This project models the order-execution engine of a small Binance trading
bot, which ships as two bots. The spot bot lives in `src/`. The futures bot
lives in `bot/`. The model covers:

- the symbol validator with its lazily fetched symbol cache;
- the order dispatcher `place_order` of both bots, including the TWAP
  pre-flight margin check;
- the single-request strategies (market, limit, stop-limit);
- the emulated OCO (two opposite-side legs);
- the TWAP slicer;
- balance, open-order and trade-history normalisation, and `get_max_position`;
- the input predicates of the two console front-ends.

The exchange is an abstract gateway (module `Gateway`). It is a record of
oracle functions, one per endpoint. Each maps the position of a call in the
session to a scripted reply: `Ok(value)` or `Raise(exception)`. Every
operation takes the position it starts at and returns its result together
with the trace of calls it made. The calls are exchange info, ticker,
account, open orders, trades, create-order, and the TWAP pacing `Sleep`
with its duration. Statements such as "no order call was made" or
"exactly one leg was placed" are therefore statements about that trace.
The only state is the validator's optional symbol cache (`Validator.Bot`).

Modules, leaves first:

- `Common`: `Option`, `Result`, and the exceptions (`Exc`) the Python code
  raises and catches.
- `Text`: the ASCII parts of Python's `str` methods the engine uses
  (`strip`, `upper`, `lower`, `isupper`, `isdigit`, `replace('.', '', 1)`,
  substring test), plus `int`/`float` on accepted numerals.
- `Gateway`: the oracle, the call trace, and the trace measures
  (`NoOrders`, `CountOrders`, `SleepTotal`).
- `Validator`: `validate_symbol` of both bots.
- `Strategies`: `bot/order_types.py`, the requests the spot strategies
  send, and OCO (`src/advanced/oco.py` and `OrderTypes.oco_order` are the
  same code and share one definition).
- `Twap`: both copies of the TWAP slicer, as a function and as the loop.
- `Accounts`: the balance, open-order and trade-history services and
  `get_max_position`.
- `Dispatcher`: `place_order` of both bots.
- `Console`: the validators of `src/trading_interface.py` and `bot/main.py`.

Behaviour the proofs pin down, all as written in the code:

- `OrderTypes.twap_order` calls `client.future_create_order`, a method
  the client does not have. Every slice of that copy fails with
  `AttributeError` and is swallowed. It still sleeps after every slice
  and returns an empty list.
- The spot TWAP margin check reads an `'available'` field that
  `get_account_balance` never writes, so the available amount is always
  0. Any TWAP order with a positive quantity, slice count and price is
  refused before a slice is placed.
- OCO places the limit leg before it checks where the stop lies. A
  misplaced stop leaves that leg live and raises `ValueError` with no
  rollback. The check compares only the stop with the current price. A
  BUY is refused iff its stop is above the price, a SELL iff its stop is
  below it. The limit price is never checked, and `stop_limit_price` is
  never used. The intended design of an emulated OCO places no leg on a
  direction violation and orders the three prices as take-profit and
  stop-loss; this model follows the code, not that design.

## Model

| member | source | states |
|---|---|---|
| `Validator.FormatOkIff` | src/bot.py:73-75 | the format gate accepts exactly the strings with an upper-case letter, no lower-case letter and no space character; tabs and digits pass |
| `Validator.UpperImpliesLetter` | bot/tradingbot.py:69 | for ASCII text, `isupper` already implies the "some alphabetic character" test |
| `Validator.ValidateSymbol` | src/bot.py:70-103 | a malformed symbol is refused with no call and no cache change; a cached bot only tests membership; an empty cache is filled by exactly one exchange-info call; a failed fetch raises `RuntimeError` and leaves the cache unset; a true answer means the symbol is in the cache |
| `Validator.FetchErrorMessages` | src/bot.py:77-92 | an API error while fetching gives "Unable to fetch symbol list"; any other failure, including a reply without `symbols`, gives "Symbol list unavailable" |
| `Validator.CachedValidationIsPure` | src/bot.py:94-98 | once the cache is set, any number of validations make no call, leave the bot unchanged, and each answers format-ok and membership |
| `Validator.ValidationOnlyFetches` | bot/tradingbot.py:73-90 | the only call validation ever makes is the exchange-info fetch |
| `Validator.FetchAtMostOnce` | src/bot.py:77-85 | with an exchange that answers with a symbol list, a bot fetches the list at most once over any number of validations |
| `Validator.RetryAfterFailedFetch` | src/bot.py:87-92 | after a failed fetch the cache is still unset, so the next well-formed symbol fetches again |
| `Validator.MalformedExamplesRefused` | src/bot.py:73-75 | "btcusdt", "BTC USDT" and "12345" are refused with no call and no state change |
| `Strategies.MarketOrder` | bot/order_types.py:8-19 | one create-order call of type MARKET with the given symbol, side and quantity, no price, stop or time in force; the reply is returned as is |
| `Strategies.LimitOrder` | bot/order_types.py:21-38 | one LIMIT request that always carries price and time in force |
| `Strategies.LimitIgnoresUrl` | bot/order_types.py:25-35 | the test-network branch of `limit_order` changes nothing: the request is the same for every client URL |
| `Strategies.StopLimitOrder` | bot/order_types.py:40-57 | one STOP request with price and stop price; the time in force is sent iff the URL does not contain the test-network host |
| `Strategies.ConfiguredUrlIsTestnet` | bot/tradingbot.py:22 | the URL the futures bot sets as `FUTURES_URL` contains the test-network host |
| `Strategies.ConfiguredUrlOmitsTimeInForce` | bot/config.py:31 | with the URL the futures bot configures, stop-limit requests carry no time in force |
| `Strategies.OcoOrder` | src/advanced/oco.py:4-37 | the ticker is fetched first; then the limit leg (LIMIT/GTC at `price`); then the direction check; then the stop leg (STOP_MARKET at `stop_price`); each step runs only if everything before it succeeded; success returns `[limit ack, stop ack]`; a failed call re-raises its own exception unchanged, and a misplaced stop raises the direction `ValueError` |
| `Strategies.OcoLegsOpposite` | src/advanced/oco.py:10-32 | every leg placed is on the side opposite the request, for the requested quantity |
| `Strategies.OcoMisplacedStopLeavesOneLeg` | src/advanced/oco.py:10-24 | a misplaced stop is detected after the limit leg is placed: exactly one create-order call, and the `ValueError` propagates |
| `Strategies.OcoDirectionRule` | src/advanced/oco.py:21-24 | a BUY fails iff stop > current; a SELL fails iff stop < current; stop == current passes |
| `Strategies.OcoIgnoresStopLimitPrice` | src/advanced/oco.py:4-34 | `stop_limit_price` has no effect on the result or the calls |
| `Strategies.OcoLimitPriceUnchecked` | src/advanced/oco.py:21-24 | the limit price is never checked: a BUY at price 100 with limit 105 and stop 90 places both legs |
| `Strategies.OcoBuyStopAboveRejected` | bot/order_types.py:63-90 | a BUY at price 100 with limit 95 and stop 110 is refused after its limit leg was placed |
| `Twap.SuccessesAppend` | src/advanced/twap.py:25 | collecting acknowledgements distributes over concatenation, so they stay in slice order |
| `Twap.SuccessesEmptyIffAllFail` | src/advanced/twap.py:16-29 | the result is empty iff every slice failed, and has one entry per slice iff none failed |
| `Twap.ScheduleShape` | src/advanced/twap.py:16-28 | the trace alternates slice order and sleep, ending with a sleep; the copy without the create method only sleeps |
| `Twap.ScheduleSleeps` | src/advanced/twap.py:14-28 | every slice sleeps the interval, so `n` slices sleep `n` intervals |
| `Twap.ScheduleOrders` | src/advanced/twap.py:16-24 | `n` slices make `n` create-order calls, or none in the copy without the create method |
| `Twap.TwapRun` | src/advanced/twap.py:6-32 | fewer than one slice raises `ValueError` before any call; otherwise the result holds at most one acknowledgement per slice; the copy without the create method places nothing and returns an empty list |
| `Twap.TwapPacing` | src/advanced/twap.py:13-28 | with a non-negative duration: exactly `slices` MARKET orders of `round(total/slices, 6)` for the same symbol and side, each followed by a sleep of `duration*60/slices`, sleeps totalling `duration*60`; the result is the successes in slice order |
| `Twap.TwapSleepsOnly` | bot/order_types.py:96-119 | in the copy whose create method is missing, with a non-negative duration: every slice's call fails, so the result is an empty list, and the trace is exactly `slices` sleeps of `duration*60/slices`, totalling `duration*60` |
| `Twap.TwapAllFail` | src/advanced/twap.py:26-29 | when every slice fails, the result is an empty list, not an exception |
| `Twap.TwapPartialExample` | src/advanced/twap.py:16-29 | four slices, first and third failing: both successes are returned in order, and all four orders and sleeps still happen |
| `Twap.TwapNegativeDuration` | src/advanced/twap.py:14-28 | a negative duration makes the first sleep raise `ValueError` after the first slice was placed; no further slice runs |
| `Twap.CollectedIsSuccesses` | src/advanced/twap.py:16-25 | appending each slice's acknowledgement as it arrives yields the successes among the replies, in slice order |
| `Twap.SliceLoop` | src/advanced/twap.py:16-28 | the loop's calls are the slice schedule and its acknowledgements those collected slice by slice; a negative interval stops it after the first slice's order call |
| `Twap.TwapOrder` | bot/order_types.py:95-122 | the slicer computes exactly the run described by `TwapRun`; its result holds at most `slices` acknowledgements; with a non-negative duration it makes two calls per slice, or one when the create method is missing |
| `Accounts.Tabulate` | src/bot.py:185-195 | the dict-building loop: an asset is a key iff some entry for it is kept, and its record is that of its last kept entry |
| `Accounts.SpotBalances` | src/bot.py:186-195 | every spot record has exactly the fields free, locked and total, with total = free + locked > 0 |
| `Accounts.SpotBalancesContents` | src/bot.py:187-195 | an asset is kept iff one of its entries has free + locked > 0, and then with the free and locked of its last such entry |
| `Accounts.AccountBalance` | src/bot.py:179-203 | one account call; success gives the normalised balances; every failure becomes `RuntimeError`, carrying the message only for an API error |
| `Accounts.AvailableAlwaysZero` | src/bot.py:153-154 | the margin check's `'available'` lookup on the spot balance is 0 whatever the account holds |
| `Accounts.FuturesBalances` | bot/tradingbot.py:126-133 | every futures record has exactly the fields balance, available and margin |
| `Accounts.FuturesBalancesContents` | bot/tradingbot.py:127-133 | an asset is kept iff one of its entries has a positive balance, and then with its last such entry's figures, the margin defaulting to 0 |
| `Accounts.FuturesAccountBalance` | bot/tradingbot.py:121-138 | only an API error is converted to `RuntimeError`; any other exception escapes unchanged |
| `Accounts.FuturesOpenOrders` | bot/tradingbot.py:140-167 | the symbol filter is sent iff a non-empty symbol is given; one record per order, in input order, with absent price and stop price read as 0; every failure becomes `RuntimeError` |
| `Accounts.LastItems` | src/bot.py:239 | `xs[-limit:]` is a suffix of length min(limit, len) for a positive limit, the whole list for 0, and drops the first `-limit` items for a negative limit |
| `Accounts.TradeHistory` | src/bot.py:235-260 | the last `limit` trades in order, each keeping its id, symbol, quantity, price and time, with side BUY iff `isBuyer` and commission `"<commission> <asset>"`; failures become `RuntimeError` |
| `Accounts.MaxPosition` | src/bot.py:280-294 | the ticker is asked only when there is free USDT; the answer times the price equals free USDT times leverage; every failure, a zero price included, gives 0 |
| `Dispatcher.Caught` | src/bot.py:171-177 | an API exception becomes `ApiFailure` with its code and message; any other exception becomes exactly `Failure(str(e))`, the `(False, str(e))` reply |
| `Dispatcher.ReportSingle` | src/bot.py:170-177 | a market, limit or stop-limit strategy's success is `(True, reply)` and its exception is a refusal, never a raise |
| `Dispatcher.ReportMany` | src/bot.py:170-177 | an OCO or TWAP strategy's success is `(True, list)` and its exception is a refusal, never a raise |
| `Dispatcher.PreChecks` | src/bot.py:109-116 | symbol, then side, then quantity, the first failing check deciding the refusal; a validation error becomes a refusal with its message |
| `Dispatcher.MarginCheck` | src/bot.py:146-163 | the ticker call first, then the balance call exactly when the ticker answered and slices are non-zero; zero slices or a failed ticker give "Margin verification error" after the ticker alone, a failed balance gives it after both calls; any other refusal is the insufficient-margin one with the slice cost; the order passes iff (quantity / slices) × price ≤ 0; no order is placed |
| `Dispatcher.Dispatch` | src/bot.py:121-168 | an unknown type and a missing type-specific argument are refused with no call; only the five known types are forwarded |
| `Dispatcher.DispatchForwards` | src/bot.py:121-166 | each known type with its arguments present sends exactly its strategy's calls and reports its outcome; TWAP reaches its slicer only past the margin check |
| `Dispatcher.PlaceOrder` | src/bot.py:105-177 | only the symbol validation touches the bot; a failed check refuses after the validation's calls only; otherwise the dispatch follows the validation's calls |
| `Dispatcher.CheckOrder` | src/bot.py:109-116 | each of the symbol, side and quantity refusals comes with no order call; an accepted order passed all three checks and has a known type |
| `Dispatcher.UnsupportedPlacesNothing` | src/bot.py:167-168 | an unknown order type is refused with its name, after the validation's calls only |
| `Dispatcher.TwapAlwaysRefused` | src/bot.py:147-160 | with a positive quantity, at least one slice and positive prices, a TWAP order is always refused and no slice is placed |
| `Dispatcher.TwapDispatchRefused` | src/bot.py:143-163 | the dispatch half of the above: the margin check refuses whenever the ticker price is positive |
| `Dispatcher.TwapZeroSlices` | src/bot.py:150-163 | an explicit zero slice count gives "Margin verification error" after the ticker call alone |
| `Dispatcher.TwapNegativeSlicesReachSlicer` | src/bot.py:150-166 | a negative slice count passes the margin check and the slicer refuses it with "At least 1 slice required" before any slice |
| `Dispatcher.ApiErrorsBecomeRefusals` | src/bot.py:171-174 | an API exception from a strategy comes back as its code and message |
| `Dispatcher.OcoRefusalKeepsLeg` | src/bot.py:137-142 | an OCO with a misplaced stop is reported as a refusal, with one order already placed |
| `Dispatcher.SimulatedPlaceOrder` | bot/tradingbot.py:103-119 | the futures bot runs the same three checks and reports a simulated success iff they pass, making only the validation's calls |
| `Dispatcher.SimulatedNeverOrders` | bot/tradingbot.py:115-116 | the futures bot never places an order; whenever the spot bot accepts, the futures bot simulates success |
| `Console.MenuChoice` | src/trading_interface.py:67-73 | the input is accepted exactly when its stripped form is a menu entry, and that form is the choice returned |
| `Console.MenuEntries` | src/trading_interface.py:71 | a string is a spot menu entry iff it is one digit from 1 to 6, a futures entry iff one digit from 1 to 4 |
| `Console.MenuDigits` | bot/main.py:60-66 | the menus accept exactly one digit from 1 to 6 (spot) or 1 to 4 (futures), after stripping |
| `Console.PaddedMenuDigit` | src/trading_interface.py:70-72 | a menu digit with whitespace around it is accepted as the digit alone |
| `Console.ReadChoice` | src/trading_interface.py:105-117 | the input is accepted exactly when its stripped, upper-cased form is one of the options, and that form is the value read |
| `Console.ReadChoiceIgnoresCase` | bot/main.py:98-109 | the order-type and side prompts give the same answer for any case mapping of the input |
| `Console.ReadPaddedWord` | src/trading_interface.py:286-288 | a word with whitespace around it is read as its upper-case form when that is an option, and refused otherwise |
| `Console.ReadLowerCase` | src/trading_interface.py:113-117 | "buy" is read as BUY |
| `Console.ReadPadded` | src/trading_interface.py:115 | " Sell " is read as SELL |
| `Console.ReadUnknown` | src/trading_interface.py:115 | "HOLD" is refused as a side |
| `Console.OcoOnlyOnSpotConsole` | bot/main.py:100 | "oco" is refused by the futures console and read as OCO by the spot console |
| `Console.PositiveNumberIff` | src/trading_interface.py:122 | a quantity or limit price is accepted iff it is digits with at most one dot and some digit is not zero |
| `Console.NumberShapeExamples` | src/trading_interface.py:228 | the shape-only check accepts "0", ".5" and "5."; it refuses "1.2.3", "-1", "" and "."; "0" is not positive, "0.01" is |
| `Console.SlicesRange` | src/trading_interface.py:276 | the decimal form of `n` is accepted as a slice count iff 4 ≤ n ≤ 20; leading zeros are accepted |
| `Console.YesNo` | src/trading_interface.py:294-302 | True only for y/yes and False only for n/no, after strip and lower-case; anything else asks again |
| `Console.YesNoSpellings` | bot/main.py:174-182 | True iff the stripped input spells y or yes in any case, False iff it spells n or no |
| `Console.YesNoIgnoresCase` | src/trading_interface.py:297 | the answer does not depend on the case of the input |
| `Console.CancelId` | src/trading_interface.py:385-388 | an order id is accepted iff the stripped input is all digits, and is read as their decimal value, leading zeros included |
| `Console.CancelIdRoundTrip` | src/trading_interface.py:385-391 | every decimal order id, with whitespace around it, is read back as itself |
| `Console.ReadPositive` | bot/main.py:121-125 | a futures price is accepted iff the stripped input is digits with at most one dot and some non-zero digit, and is read as its positive decimal value |
| `Console.FuturesExtraParams` | bot/main.py:118-132 | a price is collected iff the type is LIMIT or STOP_LIMIT, a stop price iff it is STOP_LIMIT, nothing else; each must be a positive number, is the value typed, and a refused one is asked again |
| `Console.FuturesZeroStopRefused` | bot/main.py:127-132 | the futures stop-price prompt refuses "0", which the spot console's shape-only stop prompt accepts |
| `Console.FuturesConsoleOrder` | bot/main.py:104-150 | an order from the futures console, whose side is BUY or SELL and quantity positive, is reported placed exactly when its symbol validates, and never reaches the exchange |
| `Text.RenderRoundTrip` | src/trading_interface.py:391 | `int(str(n)) == n` for every natural number |
| `Text.StripCommutesWithCase` | src/trading_interface.py:297 | stripping commutes with upper- and lower-casing |

## Left out

- The prompt loops, screen clearing, summaries, tables and run menus of
  `src/trading_interface.py` and `bot/main.py`: interactive I/O. Only the
  predicates the loops apply are modelled.
- The limit- and stop-price prompts of the spot console ask the ticker
  for a display price first. That call is display only and is not
  modelled.
- `_validate_connection`, `__init__`, `bot/config.py`, `bot/logger.py`,
  `bot/client.py`, `bot/cli.py`, `main.py`: client construction,
  environment loading, logging and network probing. The configured
  futures URL is the one constant the model keeps.
- `src/market_orders.py`, `src/limit_orders.py`,
  `src/advanced/stop_limit.py` and `bot/orders.py`: each is one forwarding
  call. They appear only as the create-order request the spot dispatcher
  sends. Their `side.upper()` is the identity on the validated sides.
- `cancel_order` and `get_open_orders` of `src/bot.py`: not part of the
  modelled core. The futures `get_open_orders` is modelled.
- The coercion `quantity = float(quantity)` of the spot `place_order`:
  quantities are Dafny reals, so the one exception it can raise is not
  modelled.
- `round(x, 6)`, `str(number)` and float formatting are not interpreted.
  A rounded slice quantity is kept as the symbolic `RoundedTo6(x)`.
  Reals stand in for floats, without rounding, NaN or infinity.
- Malformed exchange payloads (a missing key, an unparsable number) are
  a raised `OtherError` from the endpoint's oracle. The exception is an
  exchange-info reply without `symbols`, which is modelled separately
  because the code tests for it.
- Character classes, case mapping and whitespace are ASCII only, where
  Python's `isupper`, `isdigit`, `upper` and `strip` follow Unicode. On
  non-ASCII characters the model's verdicts differ in both directions. For
  example, the model's format gate accepts `"Aé"` and goes on to fetch the
  exchange info, while Python's `'Aé'.isupper()` is false, so
  src/bot.py:73-75 refuses it with no call. Conversely, an upper-case
  letter outside ASCII, such as `"Ā"`, passes Python's test but not the
  model's.
- The two bots' validators call different exchange-info endpoints, and
  the futures one prints debug output. The trace does not distinguish
  them.
- The spot and futures APIs are one endpoint each in the trace: one
  `Ticker` and one `CreateOrder` call. The spot bot's margin check and its
  MARKET, LIMIT and STOP_LIMIT orders use the spot API
  (`get_symbol_ticker`, `order_market`, `order_limit`, `order`). Its OCO and
  TWAP orders call `futures_symbol_ticker` and `futures_create_order`, so
  they go to the futures API. The trace does not show which API a call
  reaches.
- The outer `except Exception` of `validate_symbol` turns non-string
  symbols into `False`. Symbols are strings here, so it is unreachable.
- Log messages and the "Valid example" hint built from the sorted cache.
- Dispatcher.MarginCheck: the refusal message's `:.2f` formatting is
  not modelled; the refusal carries the required and available amounts
  as numbers.
- Real sleeping: each `time.sleep` is a `Sleep(seconds)` trace event.
