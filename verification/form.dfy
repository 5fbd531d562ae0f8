/** The `POST /place_order` handler of app/main.py:46-141: it checks every
    form field, collecting all violations; with none it places the order
    through the client, with upper-cased symbol, order type and side, and
    turns an error into a message for the user. */
module OrderForm {
  import opened Wrappers
  import opened Text
  import opened Orders
  import opened Client
  import opened Validation

  /** The submitted form fields; the form has no stop price. */
  datatype Form = Form(symbol: string, quantity: real, orderType: string, side: string, price: Option<real>)

  /** The field checks, in the order the handler runs them. */
  datatype Check = SymbolCheck | QuantityCheck | PriceCheck | OrderTypeCheck | SideCheck
  {
    /** The position of the check in the handler. */
    function Rank(): nat {
      match this
      case SymbolCheck => 0
      case QuantityCheck => 1
      case PriceCheck => 2
      case OrderTypeCheck => 3
      case SideCheck => 4
    }
  }

  /** What each check decided about one form. */
  datatype Verdicts = Verdicts(symbolOk: bool, quantityOk: bool, priceOk: bool, orderTypeOk: bool, sideOk: bool)

  function Holds(v: Verdicts, c: Check): bool {
    match c
    case SymbolCheck => v.symbolOk
    case QuantityCheck => v.quantityOk
    case PriceCheck => v.priceOk
    case OrderTypeCheck => v.orderTypeOk
    case SideCheck => v.sideOk
  }

  /** The checks of app/main.py:60-77; the form accepts only MARKET and LIMIT
      orders and BUY or SELL, in any case. */
  function VerdictsOf(f: Form): Verdicts {
    Verdicts(ValidateSymbol(f.symbol),
             ValidateQuantity(f.quantity),
             ValidatePrice(f.price, f.orderType),
             Upper(f.orderType) in {Market, Limit},
             Upper(f.side) in {Buy, Sell})
  }

  predicate Passes(f: Form, c: Check) {
    Holds(VerdictsOf(f), c)
  }

  function Message(c: Check): string {
    match c
    case SymbolCheck => "Invalid symbol format. Use uppercase format like BTCUSDT"
    case QuantityCheck => "Quantity must be positive and at least 0.0001"
    case PriceCheck => "Price is required for limit orders and must be positive"
    case OrderTypeCheck => "Order type must be MARKET or LIMIT"
    case SideCheck => "Side must be BUY or SELL"
  }

  /** The texts of a list of failed checks. */
  function Messages(cs: seq<Check>): (r: seq<string>)
    ensures |r| == |cs|
    ensures forall i :: 0 <= i < |cs| ==> r[i] == Message(cs[i])
  {
    if cs == [] then [] else [Message(cs[0])] + Messages(cs[1..])
  }

  /** What one check contributes to the list: itself when it fails. */
  function Flag(v: Verdicts, c: Check): (r: seq<Check>)
    ensures c in r <==> !Holds(v, c)
    ensures forall d :: d in r ==> d == c
  {
    if Holds(v, c) then [] else [c]
  }

  /** The failed checks under `v`, in the order the handler runs them. */
  function Report(v: Verdicts): seq<Check> {
    Flag(v, SymbolCheck) + Flag(v, QuantityCheck) + Flag(v, PriceCheck)
    + Flag(v, OrderTypeCheck) + Flag(v, SideCheck)
  }

  /** The violations the handler reports for a form, each standing for its
      `Message`. */
  function Violations(f: Form): seq<Check> {
    Report(VerdictsOf(f))
  }

  /** Whatever the checks decide, the list names exactly the failed checks and
      is empty exactly when all pass. */
  lemma ReportExact(v: Verdicts)
    ensures forall c :: c in Report(v) <==> !Holds(v, c)
    ensures Report(v) == [] <==> forall c :: Holds(v, c)
  {
  }

  /** The list follows the order of the checks, so no check is named twice. */
  lemma ReportOrdered(v: Verdicts)
    ensures forall i, j :: 0 <= i < j < |Report(v)| ==> Report(v)[i].Rank() < Report(v)[j].Rank()
  {
  }

  /** The validation block of the handler (app/main.py:57-77): one check after
      another, each appending its violation when it fails. */
  method CollectErrors(f: Form) returns (errors: seq<Check>)
    ensures errors == Violations(f)
    ensures errors == [] <==> forall c :: Passes(f, c)
    ensures forall c :: c in errors <==> !Passes(f, c)
  {
    ghost var v := VerdictsOf(f);
    errors := [];
    if !ValidateSymbol(f.symbol) {
      errors := errors + [SymbolCheck];
    }
    assert errors == Flag(v, SymbolCheck);
    ghost var seen := errors;
    if !ValidateQuantity(f.quantity) {
      errors := errors + [QuantityCheck];
    }
    assert errors == seen + Flag(v, QuantityCheck);
    seen := errors;
    if !ValidatePrice(f.price, f.orderType) {
      errors := errors + [PriceCheck];
    }
    assert errors == seen + Flag(v, PriceCheck);
    seen := errors;
    if Upper(f.orderType) !in {Market, Limit} {
      errors := errors + [OrderTypeCheck];
    }
    assert errors == seen + Flag(v, OrderTypeCheck);
    seen := errors;
    if Upper(f.side) !in {Buy, Sell} {
      errors := errors + [SideCheck];
    }
    assert errors == seen + Flag(v, SideCheck);
    ReportExact(v);
    forall c ensures Passes(f, c) == Holds(v, c) {
    }
  }

  /** What the handler passes to `place_order`: no stop price, ever. */
  function FormArgs(f: Form): OrderArgs {
    OrderArgs(Upper(f.symbol), f.quantity, Upper(f.orderType), Upper(f.side), f.price, None)
  }

  datatype TradeData = TradeData(symbol: string, quantity: real, orderType: string, side: string, price: Option<real>)

  function TradeDataOf(f: Form): TradeData {
    TradeData(Upper(f.symbol), f.quantity, Upper(f.orderType), Upper(f.side), f.price)
  }

  /** The rendered page: the form with its errors, or the result page. */
  datatype Page =
    | FormPage(errors: seq<string>)
    | SuccessPage(response: OrderResponse, trade: TradeData)
    | FailurePage(errorMessage: string, trade: TradeData)

  /** `str(e)` of an exception out of `place_order`; an exchange error prints
      as python-binance's `BinanceAPIException` does. */
  function ErrorText(e: ClientError): string {
    match e
    case ValueError(msg) => msg
    case ApiError(code, msg) => ApiErrorPrefix(code) + msg
    case TransportError(msg) => msg
  }

  /** What `BinanceAPIException` prints before the exchange's message. */
  function ApiErrorPrefix(code: int): string {
    "APIError(code=" + DecimalString(code) + "): "
  }

  const InvalidSymbolKey := "Invalid symbol"
  const BalanceKey := "Insufficient balance"
  const NotionalKey := "MIN_NOTIONAL"
  const PriceFilterKey := "PRICE_FILTER"
  const InvalidSymbolText := "Invalid trading symbol. Please check the symbol name."
  const BalanceText := "Insufficient balance for this order."
  const NotionalText := "Order value is too small. Please increase quantity or price."
  const PriceFilterText := "Price is outside allowed range for this symbol."

  /** The error mapping of app/main.py:123-131: the first key found in the
      message picks the text shown; with no key the message is shown as it is. */
  function FriendlyMessage(msg: string): (r: string)
    ensures Contains(msg, InvalidSymbolKey) ==> r == InvalidSymbolText
    ensures !Contains(msg, InvalidSymbolKey) && Contains(msg, BalanceKey) ==> r == BalanceText
    ensures !Contains(msg, InvalidSymbolKey) && !Contains(msg, BalanceKey) && Contains(msg, NotionalKey)
            ==> r == NotionalText
    ensures (!Contains(msg, InvalidSymbolKey) && !Contains(msg, BalanceKey) && !Contains(msg, NotionalKey)
             && Contains(msg, PriceFilterKey)) ==> r == PriceFilterText
    ensures (!Contains(msg, InvalidSymbolKey) && !Contains(msg, BalanceKey) && !Contains(msg, NotionalKey)
             && !Contains(msg, PriceFilterKey)) ==> r == msg
    ensures r == msg || r in {InvalidSymbolText, BalanceText, NotionalText, PriceFilterText}
  {
    if Contains(msg, InvalidSymbolKey) then InvalidSymbolText
    else if Contains(msg, BalanceKey) then BalanceText
    else if Contains(msg, NotionalKey) then NotionalText
    else if Contains(msg, PriceFilterKey) then PriceFilterText
    else msg
  }

  /** The result page for the outcome of `place_order`. */
  function ResultPage(result: Result<OrderResponse, ClientError>, trade: TradeData): Page {
    match result
    case Success(resp) => SuccessPage(resp, trade)
    case Failure(e) => FailurePage(FriendlyMessage(ErrorText(e)), trade)
  }

  /** `place_order` of app/main.py:46-141. */
  method HandlePlaceOrder(f: Form, client: BinanceClient, exchange: Exchange,
                          serverTime: Option<int>, localTime: int) returns (page: Page)
    modifies client
    ensures Violations(f) != [] ==>
              && page == FormPage(Messages(Violations(f)))
              && client.timestampOffset == old(client.timestampOffset)
              && client.history == old(client.history)
    ensures Violations(f) == [] ==>
              var o := PlaceOrderOutcome(FormArgs(f), old(client.timestampOffset), exchange, serverTime, localTime);
              && page == ResultPage(o.result, TradeDataOf(f))
              && client.timestampOffset == o.offset
              && client.history == old(client.history) + o.events
  {
    var errors := CollectErrors(f);
    if errors != [] {
      return FormPage(Messages(errors));
    }
    var trade := TradeDataOf(f);
    var result := client.PlaceOrder(FormArgs(f), exchange, serverTime, localTime);
    page := ResultPage(result, trade);
  }

  /** A form that passes every check gives `place_order` arguments it accepts,
      so the client never raises its own `ValueError` for it; the request
      carries the upper-cased fields and is never a stop-limit order. */
  lemma ValidFormAccepted(f: Form)
    requires Violations(f) == []
    ensures BuildRequest(FormArgs(f)).Success?
    ensures var r := BuildRequest(FormArgs(f)).value;
            var (symbol, side) := (Upper(f.symbol), Upper(f.side));
            && !r.CreateOrder?
            && (Upper(f.orderType) == Market ==>
                  r == if side == Buy then MarketBuy(symbol, f.quantity) else MarketSell(symbol, f.quantity))
            && (Upper(f.orderType) == Limit ==>
                  f.price.Some? &&
                  r == if side == Buy then LimitBuy(symbol, f.quantity, f.price.value, Gtc)
                       else LimitSell(symbol, f.quantity, f.price.value, Gtc))
  {
  }

  /** For a valid form, whatever the exchange and the clocks do, the error the
      user sees comes from the exchange or the transport, never from the
      client's own argument checks. */
  lemma ValidFormNoClientError(f: Form, offset: int, exchange: Exchange, serverTime: Option<int>, localTime: int)
    requires Violations(f) == []
    ensures var o := PlaceOrderOutcome(FormArgs(f), offset, exchange, serverTime, localTime);
            o.result.Failure? ==> !o.result.error.ValueError?
    ensures Submissions(PlaceOrderOutcome(FormArgs(f), offset, exchange, serverTime, localTime).events) >= 1
  {
  }

  /** A LIMIT order without a price, with a zero quantity and a symbol too
      short for the pattern, fails the symbol, quantity and price checks, in
      that order, and nothing else. */
  lemma LimitWithoutPrice(f: Form)
    requires |Upper(f.symbol)| < 6 && f.quantity == 0.0 && f.price.None?
    requires Upper(f.orderType) == Limit && Upper(f.side) in {Buy, Sell}
    ensures Violations(f) == [SymbolCheck, QuantityCheck, PriceCheck]
  {
  }

  lemma UpperOfLimit()
    ensures Upper("LIMIT") == Limit
  {
  }

  lemma UpperOfBuy()
    ensures Upper("BUY") == Buy
  {
  }

  /** The form ("btc", 0, "LIMIT", "BUY", no price) gets three messages. */
  lemma ShortSymbolExample()
    ensures Violations(Form("btc", 0.0, "LIMIT", "BUY", None)) == [SymbolCheck, QuantityCheck, PriceCheck]
  {
    UpperAscii("btc");
    UpperOfLimit();
    UpperOfBuy();
    LimitWithoutPrice(Form("btc", 0.0, "LIMIT", "BUY", None));
  }

  /** No key of the mapping can start inside the prefix of an exchange error:
      'M' does not occur in it, 'P' is followed by 'I' rather than 'R', and
      'I' by 'E' rather than 'n'. */
  lemma ApiErrorPrefixHidesNoKey(code: int, t: string)
    requires t in {InvalidSymbolKey, BalanceKey, NotionalKey, PriceFilterKey}
    ensures var p := ApiErrorPrefix(code);
            forall i :: 0 <= i < |p| ==> p[i] != t[0] || (i + 1 < |p| && p[i + 1] != t[1])
  {
    var d := DecimalString(code);
    var p := ApiErrorPrefix(code);
    assert (t[0] == 'I' && t[1] == 'n') || (t[0] == 'M' && t[1] == 'I') || (t[0] == 'P' && t[1] == 'R');
    forall i | 0 <= i < |p| ensures p[i] != t[0] || (i + 1 < |p| && p[i + 1] != t[1]) {
      if i < 14 {
        assert p[i] == "APIError(code="[i];
        assert p[i + 1] == ("APIError(code=" + d)[i + 1];
      } else if i < 14 + |d| {
        assert p[i] == d[i - 14];
      } else {
        assert p[i] == "): "[i - 14 - |d|];
      }
    }
  }

  /** Whatever its code, an exchange error is mapped as its own message is
      when that message names a key: the exception's prefix hides no key and
      adds none. With no key, the exception's text is shown as it is. */
  lemma ExchangeErrorMapped(code: int, msg: string)
    ensures var text := ErrorText(ApiError(code, msg));
            && (Contains(text, InvalidSymbolKey) <==> Contains(msg, InvalidSymbolKey))
            && (Contains(text, BalanceKey) <==> Contains(msg, BalanceKey))
            && (Contains(text, NotionalKey) <==> Contains(msg, NotionalKey))
            && (Contains(text, PriceFilterKey) <==> Contains(msg, PriceFilterKey))
    ensures var named := Contains(msg, InvalidSymbolKey) || Contains(msg, BalanceKey)
                         || Contains(msg, NotionalKey) || Contains(msg, PriceFilterKey);
            && (named ==> FriendlyMessage(ErrorText(ApiError(code, msg))) == FriendlyMessage(msg))
            && (!named ==> FriendlyMessage(ErrorText(ApiError(code, msg))) == ErrorText(ApiError(code, msg)))
  {
    var p := ApiErrorPrefix(code);
    ApiErrorPrefixHidesNoKey(code, InvalidSymbolKey);
    ContainsPastPrefix(p, msg, InvalidSymbolKey);
    ApiErrorPrefixHidesNoKey(code, BalanceKey);
    ContainsPastPrefix(p, msg, BalanceKey);
    ApiErrorPrefixHidesNoKey(code, NotionalKey);
    ContainsPastPrefix(p, msg, NotionalKey);
    ApiErrorPrefixHidesNoKey(code, PriceFilterKey);
    ContainsPastPrefix(p, msg, PriceFilterKey);
  }
}
