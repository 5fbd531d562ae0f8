# Spot trading bot: order policy and form validation

A Dafny model of the logic in a small web front-end for an exchange testnet.
It covers two parts of the system.

- **The exchange client** (`BinanceClient`, app/binance_client.py):
  - `place_order` checks its arguments and raises `ValueError` before anything is sent.
  - It then picks one of five request shapes: market buy, market sell, limit buy, limit sell, or a generic stop-loss-limit order.
  - If the exchange answers with error code -1021 (timestamp outside the receive window), it re-syncs the clock offset once and resubmits the same request once.
  - `_sync_time` keeps the timestamp offset.
  - `get_balance` looks up one asset in the account's balance list, with a zero record as the default.
- **The order form handler** (app/main.py):
  - the three validators;
  - the handler collects every violation, and places no order if there is any;
  - the client call with upper-cased fields;
  - the mapping of exchange errors to user-friendly texts.

The modules follow the program:

| module | file | contents |
|---|---|---|
| `Wrappers` | wrappers.dfy | `Option`, `Result` |
| `Text` | text.dfy | Python's `str.upper`, the substring test `t in s`, decimal rendering of an integer |
| `Orders` | orders.dfy | order arguments, the five request shapes, the argument checks and the dispatch |
| `Client` | client.dfy | the exchange replies, the retry protocol as a function, and class `BinanceClient` |
| `Balances` | balances.dfy | `get_balance` |
| `Validation` | validation.dfy | `validate_symbol`, `validate_quantity`, `validate_price` |
| `OrderForm` | form.dfy | the `POST /place_order` handler |

The exchange is an oracle. `Exchange(attempt, request, offset)` is its reply to the first or second submission of `request` signed with `offset`. The reply is one of:

- an accepted order;
- a `BinanceAPIException` with a code and a message;
- any other failure.

`_sync_time` reads the server time (`None` when the call fails) and the local clock. Both readings are parameters.

`BinanceClient` is a class. Its `timestampOffset` field is updated in place. A ghost `history` records every submission and re-sync. `PlaceOrder` is proved against the function `PlaceOrderOutcome`, and the retry properties are lemmas about that function.

The form handler's validation block is a method, `CollectErrors`. It is proved equal to the specification `Violations`, and lemmas state what that list means.

## Model

| member | source | states |
|---|---|---|
| Orders.BuildRequest | app/binance_client.py:97-159 | a request is built iff symbol, quantity, type and side are truthy, type is MARKET/LIMIT/STOP_LIMIT, side is BUY/SELL, LIMIT and STOP_LIMIT have a non-zero price and STOP_LIMIT a non-zero stop price; every failure is a `ValueError`, a falsy field gives "All parameters are required"; a built request is well formed (GTC, STOP_LOSS_LIMIT, no zero price), carries exactly the arguments its order type uses, and is a buy-specific call iff the side is BUY and the type is not STOP_LIMIT |
| Orders.RequestRoundTrip | app/binance_client.py:113-157 | every well-formed request is exactly what `place_order` builds from the arguments it carries, so the five shapes are distinct and complete |
| Orders.RebuildRequest | app/binance_client.py:171-207 | the retry's dispatch rebuilds exactly the request of the first attempt whenever the first attempt was built |
| Client.ReplyResult | app/binance_client.py:162-219 | an accepted reply's own response is returned; an exchange error is raised with its code and message; any other failure is raised as a transport error |
| Client.Synced | app/binance_client.py:41-63 | after a sync, local time plus offset equals the server time; when the server time cannot be read the offset is unchanged |
| Client.PlaceOrderOutcome | app/binance_client.py:95-219 | invalid arguments: the `ValueError`, no submission, offset unchanged; otherwise one submission signed with the current offset, and a reply other than -1021 is final; on -1021 exactly one re-sync, then the identical request once more with the new offset, and the second reply is final |
| Client.CountsAppend | app/binance_client.py:164-216 | the submission and re-sync counts of two concatenated histories add up |
| Client.SubmissionBounds | app/binance_client.py:164-216 | at most two submissions and one re-sync; a re-sync happens iff the first reply was -1021, and two submissions happen iff a re-sync did |
| Client.OffsetChangesOnlyOnResync | app/binance_client.py:41-63 | the offset changes only through a re-sync that read the server time |
| Client.RetrySucceeds | app/binance_client.py:164-210 | -1021 followed by acceptance returns the second response after one re-sync and two submissions |
| Client.AlwaysSkewed | app/binance_client.py:211-213 | an exchange that always answers -1021 sees two submissions, and the error of the second, re-synced attempt is the one raised |
| Client.OtherErrorsNotRetried | app/binance_client.py:214-216 | any other exchange error is raised at once: one submission, no re-sync, offset unchanged |
| Client.BinanceClient.constructor | app/binance_client.py:39 | a new client has synced once from offset 0 |
| Client.BinanceClient.SyncTime | app/binance_client.py:41-63 | the offset becomes `Synced` of the old offset; one re-sync is recorded; nothing is raised |
| Client.BinanceClient.Submit | app/binance_client.py:113-157 | one call to the exchange, signed with the current offset, recorded in the history; the offset is unchanged |
| Client.BinanceClient.PlaceOrder | app/binance_client.py:65-219 | result, new offset and recorded events are those of `PlaceOrderOutcome` from the old offset |
| Balances.FirstMatch | app/binance_client.py:252-254 | the index of the first entry for the asset, or the list's length when there is none |
| Balances.GetBalance | app/binance_client.py:247-258 | a failing account query is re-raised with "Failed to get balance: "; no asset (or "") gives the whole list; a named asset gives its first entry, or the zero record when the account has none |
| Balances.OtherAssetsIgnored | app/binance_client.py:252-254 | entries for other assets ahead of the list do not change the lookup |
| Text.UpperIdempotent | app/main.py:29 | upper-casing twice is upper-casing once |
| Text.UpperAscii | app/main.py:29 | on ASCII letters, upper-casing keeps the length, capitalises lower-case letters and leaves capitals alone |
| Text.ContainsOccurs | app/main.py:124-131 | the substring scan finds `t` exactly when `t` occurs at some index of `s` |
| Text.ContainsAfter | app/main.py:124-131 | a substring of `b` is a substring of any `a + b` |
| Text.ContainsPastPrefix | app/main.py:124-131 | when no occurrence of `t` can start inside `p`, `p + m` contains `t` exactly when `m` does |
| Validation.SymbolRecogniserCorrect | app/main.py:27-29 | the recogniser accepts exactly the strings of three or more capitals followed by USD or USDT |
| Validation.FullMatchCorrect | app/main.py:27-29 | the full match accepts a string in that language, or one followed by a single trailing newline that `$` lets through |
| Validation.ValidateSymbol | app/main.py:23-29 | the empty symbol is rejected; an accepted symbol upper-cases to at least six characters |
| Validation.ValidateSymbolMeaning | app/main.py:23-29 | `validate_symbol` holds iff the symbol is non-empty and its upper-case form is in the pattern's language, possibly followed by one newline |
| Validation.ValidateSymbolIgnoresCase | app/main.py:29 | `validate_symbol(upper(s)) == validate_symbol(s)` |
| Validation.ValidateQuantity | app/main.py:31-33 | holds iff the quantity is at least 0.0001 (the positivity test is implied) |
| Validation.ValidatePrice | app/main.py:35-39 | always holds unless the upper-cased order type is LIMIT; for LIMIT holds iff a price is present and positive |
| Validation.ValidatePriceIgnoresCase | app/main.py:35-37 | the order type's case does not matter |
| Validation.PatternAccepts | app/main.py:27-29 | BTCUSDT, ETHUSD and BTCUSDT followed by a newline match |
| Validation.PatternRejects | app/main.py:27-29 | BTUSDT, BTCUSDTX, BTC-USDT and BTCUSDT followed by two newlines do not match |
| Validation.LowerCaseSymbol | app/main.py:29 | "btcusdt" is a valid symbol |
| Validation.DotlessLimitNeedsPrice | app/main.py:35-37 | an order type with dotless i's that upper-cases to LIMIT needs a price |
| OrderForm.Messages | app/main.py:61-77 | one message per failed check, in the same order, each the handler's text for that check |
| OrderForm.ReportExact | app/main.py:58-77 | the list names exactly the failed checks, and is empty iff every check passes |
| OrderForm.ReportOrdered | app/main.py:58-77 | the list follows the order symbol, quantity, price, order type, side, so no check appears twice |
| OrderForm.CollectErrors | app/main.py:58-77 | the appended list equals `Violations`, contains a check iff it fails, and is empty iff all pass: no check stops the others |
| OrderForm.HandlePlaceOrder | app/main.py:46-141 | with violations: the form page with their messages, and the client untouched; without: the client's `place_order` on the upper-cased fields with no stop price, its offset and history updated as `PlaceOrderOutcome` says, and the result page for its outcome |
| OrderForm.ValidFormAccepted | app/main.py:88-105 | a form that passes every check is accepted by the client's own checks, and becomes the side-specific market call, or the side-specific limit call with the form's price and GTC; never a stop-limit order |
| OrderForm.ValidFormNoClientError | app/main.py:97-105 | for a valid form the client submits at least once, and any error shown comes from the exchange or the transport, never from a `ValueError` |
| OrderForm.LimitWithoutPrice | app/main.py:58-77 | a LIMIT order with no price, zero quantity and a symbol too short gets exactly the symbol, quantity and price violations, in that order |
| OrderForm.ShortSymbolExample | app/main.py:58-77 | ("btc", 0, "LIMIT", "BUY", no price) gets the symbol, quantity and price violations |
| OrderForm.FriendlyMessage | app/main.py:124-131 | the first of "Invalid symbol", "Insufficient balance", "MIN_NOTIONAL", "PRICE_FILTER" found in the message picks its text; with none found the message is shown unchanged |
| OrderForm.ApiErrorPrefixHidesNoKey | app/main.py:124-131 | no occurrence of any of the four keys can start inside the "APIError(code=…): " prefix of an exchange error, whatever the code |
| OrderForm.ExchangeErrorMapped | app/main.py:119-131 | whatever its code, an exchange error's text contains each key exactly when its message does; so a message naming a key is mapped as the message alone would be, and one naming none is shown as the full exception text |

## Left out

- I/O is not modelled: logging, the `print` calls, the `.env` and environment loading, the credentials, and the API URL setting (app/binance_client.py:9-36).
- The web layer is not modelled: FastAPI routing, Jinja rendering and uvicorn startup. A rendered page is the `Page` value with the data the template receives.
- The pass-through wrappers are not modelled: `get_account_info`, `get_ticker_price`, `get_order_book`, `cancel_order` and `get_open_orders`. Each forwards one exchange call and wraps its exception text, and states nothing of its own.
- `get_symbol_info` (app/binance_client.py:228-237) is not modelled. It searches the exchange's symbol list and raises "Symbol … not found" when the symbol is absent. It is not on the order path.
- `test_connectivity` (app/binance_client.py:239-245) is not modelled. It pings the exchange and returns False on any failure.
- The python-binance calls are not modelled. These are `order_market_buy`, `order_market_sell`, `order_limit_buy`, `order_limit_sell`, `create_order`, `get_server_time` and `get_account`. They are foreign code, so the exchange is an oracle and the account and server time are parameters.
- The mirror write to `client._timestamp` (app/binance_client.py:56-57) is not modelled. It is the same value as the offset.
- The library's initial offset is taken to be 0.
- Concurrent requests racing on the shared offset are not modelled.
- Floats are modelled as exact reals. The literal 0.0001 is compared exactly, not as its nearest double, and NaN and infinities are not modelled.
- Text.Upper: models Python's `str.upper` only for characters whose upper-case form is made of ASCII letters. These are a-z, the dotless i, the long s, the sharp s, and the ligatures U+FB00-U+FB06. Every other character is left unchanged. Seven other characters gain an A-Z letter under Python's full case mapping: U+0149 becomes "ʼN", U+01F0 "J\u030C", U+1E96 "H\u0331", U+1E97 "T\u0308", U+1E98 "W\u030A", U+1E99 "Y\u030A", and U+1E9A "A\u02BE". Each of these results also holds a non-ASCII character. So no other character upper-cases to a string made only of A-Z, and the symbol pattern and the LIMIT, MARKET, BUY and SELL tests come out the same. A form passes the checks only when its upper-cased symbol is capitals (with at most one final newline) and its order type and side are MARKET or LIMIT and BUY or SELL. Every character of such a field is one Python and this model upper-case alike, so the fields sent to the exchange and shown on the result page are the same in both.
- OrderForm.ErrorText: the text of an exchange error follows python-binance's `APIError(code=<code>): <message>` form. A transport failure's text is its message.
- OrderForm.CollectErrors: returns the failed checks. `Messages` maps them to the handler's texts, rather than appending the texts directly.
- The form ("btc", 0, LIMIT, BUY, no price) gets the symbol, quantity and price violations, because the missing price fails as well (`ShortSymbolExample`).
- The retry path's rebuild covers MARKET, LIMIT and STOP_LIMIT alike. `RebuildRequest` proves that it rebuilds the identical request.
