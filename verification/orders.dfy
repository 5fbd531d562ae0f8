/** The order requests `BinanceClient.place_order` builds (app/binance_client.py):
    the argument checks that raise `ValueError`, and the dispatch over
    (order type, side) that picks one of five exchange calls. */
module Orders {
  import opened Wrappers

  /** The arguments of `place_order`; `None` stands for an omitted price. */
  datatype OrderArgs = OrderArgs(
    symbol: string,
    quantity: real,
    orderType: string,
    side: string,
    price: Option<real>,
    stopPrice: Option<real>)

  /** One outgoing exchange call, with the keyword arguments it carries. */
  datatype Request =
    | MarketBuy(symbol: string, quantity: real)
    | MarketSell(symbol: string, quantity: real)
    | LimitBuy(symbol: string, quantity: real, price: real, timeInForce: string)
    | LimitSell(symbol: string, quantity: real, price: real, timeInForce: string)
    | CreateOrder(symbol: string, side: string, kind: string, quantity: real,
                  price: real, stopPrice: real, timeInForce: string)
  {
    /** The order type, in the caller's vocabulary, that this call places. */
    function OrderType(): string {
      match this
      case MarketBuy(_, _) | MarketSell(_, _) => Market
      case LimitBuy(_, _, _, _) | LimitSell(_, _, _, _) => Limit
      case CreateOrder(_, _, _, _, _, _, _) => StopLimit
    }

    function Side(): string {
      match this
      case MarketBuy(_, _) | LimitBuy(_, _, _, _) => Buy
      case MarketSell(_, _) | LimitSell(_, _, _, _) => Sell
      case CreateOrder(_, side, _, _, _, _, _) => side
    }

    function Price(): Option<real> {
      if MarketBuy? || MarketSell? then None else Some(price)
    }

    function StopPrice(): Option<real> {
      if CreateOrder? then Some(stopPrice) else None
    }

    function TimeInForce(): Option<string> {
      if MarketBuy? || MarketSell? then None else Some(timeInForce)
    }

    /** The arguments of `place_order` that this call carries. */
    function Args(): OrderArgs {
      OrderArgs(symbol, quantity, OrderType(), Side(), Price(), StopPrice())
    }
  }

  const Market := "MARKET"
  const Limit := "LIMIT"
  const StopLimit := "STOP_LIMIT"
  const Buy := "BUY"
  const Sell := "SELL"
  /** Time in force "good till cancelled". */
  const Gtc := "GTC"
  /** The exchange's name for a stop-limit order. */
  const StopLossLimit := "STOP_LOSS_LIMIT"

  /** The errors `place_order` raises: its own `ValueError`s, the exchange's
      `BinanceAPIException` (a numeric code and a message), and any other
      failure of the call (network, parsing). */
  datatype ClientError =
    | ValueError(message: string)
    | ApiError(code: int, message: string)
    | TransportError(message: string)

  const AllRequired := "All parameters are required"
  const BadOrderType := "Order type must be 'MARKET', 'LIMIT', or 'STOP_LIMIT'"
  const BadSide := "Side must be 'BUY' or 'SELL'"
  const PriceRequired := "Price is required for LIMIT and STOP_LIMIT orders"
  const StopPriceRequired := "Stop price is required for STOP_LIMIT orders"
  const LimitPriceRequired := "Price is required for limit orders"
  const BothPricesRequired := "Both price and stop_price are required for stop-limit orders"
  const InvalidOrderType := "Invalid order type. Must be 'MARKET', 'LIMIT', or 'STOP_LIMIT'"

  /** Python's `not x` for an optional float: `None` and `0.0` are falsy. */
  predicate Falsy(x: Option<real>) {
    x.None? || x.value == 0.0
  }

  /** The argument checks pass: nothing is falsy, the order type and side are
      known, and the prices the order type needs are present and non-zero. */
  predicate Acceptable(a: OrderArgs) {
    && a.symbol != ""
    && a.quantity != 0.0
    && a.orderType in {Market, Limit, StopLimit}
    && a.side in {Buy, Sell}
    && (a.orderType in {Limit, StopLimit} ==> !Falsy(a.price))
    && (a.orderType == StopLimit ==> !Falsy(a.stopPrice))
  }

  /** A call that `place_order` can send: a known side, a non-zero quantity, a
      non-empty symbol, prices that are not zero, the fixed time in force and
      the exchange's stop-limit type. */
  predicate WellFormed(r: Request) {
    && r.symbol != ""
    && r.quantity != 0.0
    && r.Side() in {Buy, Sell}
    && (r.Price().Some? ==> r.Price().value != 0.0)
    && (r.StopPrice().Some? ==> r.StopPrice().value != 0.0)
    && (r.TimeInForce().Some? ==> r.TimeInForce().value == Gtc)
    && (r.CreateOrder? ==> r.kind == StopLossLimit)
  }

  /** The arguments with the prices that the order type ignores dropped. */
  function Relevant(a: OrderArgs): OrderArgs {
    a.(price := if a.orderType == Market then None else a.price,
       stopPrice := if a.orderType == StopLimit then a.stopPrice else None)
  }

  /** The argument checks and the first dispatch of `place_order`
      (app/binance_client.py:97-159). */
  function BuildRequest(a: OrderArgs): (r: Result<Request, ClientError>)
    ensures r.Success? <==> Acceptable(a)
    ensures r.Failure? ==> r.error.ValueError?
    ensures (a.symbol == "" || a.quantity == 0.0 || a.orderType == "" || a.side == "")
            ==> r == Failure(ValueError(AllRequired))
    ensures r.Success? ==> WellFormed(r.value) && r.value.Args() == Relevant(a)
    ensures r.Success? ==> (r.value.MarketBuy? || r.value.LimitBuy? <==> a.orderType != StopLimit && a.side == Buy)
  {
    if a.symbol == "" || a.quantity == 0.0 || a.orderType == "" || a.side == "" then
      Failure(ValueError(AllRequired))
    else if a.orderType !in [Market, Limit, StopLimit] then
      Failure(ValueError(BadOrderType))
    else if a.side !in [Buy, Sell] then
      Failure(ValueError(BadSide))
    else if a.orderType in [Limit, StopLimit] && Falsy(a.price) then
      Failure(ValueError(PriceRequired))
    else if a.orderType == StopLimit && Falsy(a.stopPrice) then
      Failure(ValueError(StopPriceRequired))
    else if a.orderType == Market then
      if a.side == Buy then Success(MarketBuy(a.symbol, a.quantity))
      else Success(MarketSell(a.symbol, a.quantity))
    else if a.orderType == Limit then
      if a.price.None? then Failure(ValueError(LimitPriceRequired))
      else if a.side == Buy then Success(LimitBuy(a.symbol, a.quantity, a.price.value, Gtc))
      else Success(LimitSell(a.symbol, a.quantity, a.price.value, Gtc))
    else if a.orderType == StopLimit then
      if a.price.None? || a.stopPrice.None? then Failure(ValueError(BothPricesRequired))
      else Success(CreateOrder(a.symbol, a.side, StopLossLimit, a.quantity,
                               a.price.value, a.stopPrice.value, Gtc))
    else
      Failure(ValueError(InvalidOrderType))
  }

  /** The second dispatch, run again on a timestamp error
      (app/binance_client.py:171-207): it has no checks and no final `else`;
      `None` stands for arguments the first dispatch refuses. It rebuilds
      exactly the request of the first attempt. */
  function RebuildRequest(a: OrderArgs): (r: Option<Request>)
    ensures BuildRequest(a).Success? ==> r == Some(BuildRequest(a).value)
  {
    if a.orderType == Market then
      if a.side == Buy then Some(MarketBuy(a.symbol, a.quantity))
      else Some(MarketSell(a.symbol, a.quantity))
    else if a.orderType == Limit && a.price.Some? then
      if a.side == Buy then Some(LimitBuy(a.symbol, a.quantity, a.price.value, Gtc))
      else Some(LimitSell(a.symbol, a.quantity, a.price.value, Gtc))
    else if a.orderType == StopLimit && a.price.Some? && a.stopPrice.Some? then
      Some(CreateOrder(a.symbol, a.side, StopLossLimit, a.quantity,
                       a.price.value, a.stopPrice.value, Gtc))
    else
      None
  }

  /** Every call `place_order` can send is sent for exactly the arguments it
      carries: reading the arguments back and building again gives the same
      call. */
  lemma RequestRoundTrip(r: Request)
    requires WellFormed(r)
    ensures BuildRequest(r.Args()) == Success(r)
  {
  }
}
