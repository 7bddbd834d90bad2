/** The single-call order strategies and the emulated OCO.

    The futures strategies of bot/order_types.py each send one
    create-order request and re-raise whatever it raises. The spot
    strategies the dispatcher of src/bot.py forwards to are one request each
    as well; they appear here only as the request they send. */
module Strategies {
  import opened Common
  import opened Text
  import opened Gateway

  /** The host of the futures test network; a client whose `FUTURES_URL`
      contains it gets no time-in-force on stop-limit orders. */
  const TestnetHost := "testnet.binancefuture.com"

  /** The base URL the futures bot configures its client with. */
  const ConfiguredFuturesUrl := "https://testnet.binancefuture.com"

  /** The one create-order call a single-call strategy makes, and its reply. */
  function Submit(g: Gateway, at: nat, p: OrderParams): (r: Run<Result<Ack>>)
    ensures r.calls == [CreateOrder(p)] && r.out == g.createOrder(at)
  {
    Run(g.createOrder(at), [CreateOrder(p)])
  }

  /** `OrderTypes.market_order`: a MARKET order for the quantity, no price. */
  function MarketOrder(g: Gateway, at: nat, symbol: string, side: string, quantity: real): (r: Run<Result<Ack>>)
    ensures |r.calls| == 1 && r.calls[0].CreateOrder?
    ensures var p := r.calls[0].order;
      && p.kind == Market && p.symbol == symbol && p.side == side && p.quantity == Exactly(quantity)
      && p.price.None? && p.stopPrice.None? && p.timeInForce.None?
    ensures r.out == g.createOrder(at)
  {
    Submit(g, at, OrderParams(symbol, side, Market, Exactly(quantity), None, None, None))
  }

  /** `OrderTypes.limit_order`: the request always carries the time in
      force, so the test-network branch changes nothing. */
  function LimitOrder(g: Gateway, at: nat, futuresUrl: string, symbol: string, side: string,
                      quantity: real, price: real, timeInForce: string): (r: Run<Result<Ack>>)
    ensures |r.calls| == 1 && r.calls[0].CreateOrder?
    ensures var p := r.calls[0].order;
      && p.kind == Limit && p.symbol == symbol && p.side == side && p.quantity == Exactly(quantity)
      && p.price == Some(price) && p.stopPrice.None? && p.timeInForce == Some(timeInForce)
    ensures r.out == g.createOrder(at)
  {
    var p := OrderParams(symbol, side, Limit, Exactly(quantity), Some(price), None, Some(timeInForce));
    // the branch re-assigns the key already present
    var p' := if !Contains(futuresUrl, TestnetHost) then p.(timeInForce := Some(timeInForce)) else p;
    Submit(g, at, p')
  }

  /** The limit request does not depend on the client's URL. */
  lemma LimitIgnoresUrl(g: Gateway, at: nat, url1: string, url2: string, symbol: string, side: string,
                        quantity: real, price: real, timeInForce: string)
    ensures LimitOrder(g, at, url1, symbol, side, quantity, price, timeInForce)
         == LimitOrder(g, at, url2, symbol, side, quantity, price, timeInForce)
  {
  }

  /** `OrderTypes.stop_limit_order`: a STOP order with price and trigger;
      the time in force is sent iff the URL is not the test network's. */
  function StopLimitOrder(g: Gateway, at: nat, futuresUrl: string, symbol: string, side: string,
                          quantity: real, price: real, stopPrice: real, timeInForce: string): (r: Run<Result<Ack>>)
    ensures |r.calls| == 1 && r.calls[0].CreateOrder?
    ensures var p := r.calls[0].order;
      && p.kind == Stop && p.symbol == symbol && p.side == side && p.quantity == Exactly(quantity)
      && p.price == Some(price) && p.stopPrice == Some(stopPrice)
      && (p.timeInForce.Some? <==> !Contains(futuresUrl, TestnetHost))
      && (p.timeInForce.Some? ==> p.timeInForce == Some(timeInForce))
    ensures r.out == g.createOrder(at)
  {
    var p := OrderParams(symbol, side, Stop, Exactly(quantity), Some(price), Some(stopPrice), None);
    var p' := if !Contains(futuresUrl, TestnetHost) then p.(timeInForce := Some(timeInForce)) else p;
    Submit(g, at, p')
  }

  /** The configured URL is on the test network. */
  lemma ConfiguredUrlIsTestnet()
    ensures Contains(ConfiguredFuturesUrl, TestnetHost)
  {
    var scheme := "https://";
    assert ConfiguredFuturesUrl == scheme + TestnetHost;
    assert (scheme + TestnetHost)[|scheme|..|scheme| + |TestnetHost|] == TestnetHost;
    assert OccursAt(ConfiguredFuturesUrl, TestnetHost, |scheme|);
  }

  /** With the URL the futures bot configures, stop-limit orders go out
      without a time in force. */
  lemma ConfiguredUrlOmitsTimeInForce(g: Gateway, at: nat, symbol: string, side: string,
                                      quantity: real, price: real, stopPrice: real, timeInForce: string)
    ensures StopLimitOrder(g, at, ConfiguredFuturesUrl, symbol, side, quantity, price, stopPrice, timeInForce)
              .calls[0].order.timeInForce.None?
  {
    ConfiguredUrlIsTestnet();
  }

  /** The request of `market_orders.market_order` (spot). */
  function SpotMarketParams(symbol: string, side: string, quantity: real): OrderParams {
    OrderParams(symbol, side, Market, Exactly(quantity), None, None, None)
  }

  /** The request of `limit_orders.limit_order` (spot, good till cancelled). */
  function SpotLimitParams(symbol: string, side: string, quantity: real, price: real): OrderParams {
    OrderParams(symbol, side, Limit, Exactly(quantity), Some(price), None, Some("GTC"))
  }

  /** The request of `stop_limit.stop_limit_order` (spot, good till cancelled). */
  function SpotStopLimitParams(symbol: string, side: string, quantity: real, price: real, stopPrice: real): OrderParams {
    OrderParams(symbol, side, StopLossLimit, Exactly(quantity), Some(price), Some(stopPrice), Some("GTC"))
  }

  /** The side of both OCO legs: SELL for a BUY, BUY for anything else. */
  function Opposite(side: string): string {
    if side == "BUY" then "SELL" else "BUY"
  }

  const BuyStopAbove := "For BUY position, stop must be BEOW current price"
  const SellStopBelow := "For SELL position, stop price must be ABOVE current price"

  /** The direction rule, checked against the current price: a BUY's stop
      may not be above it and a SELL's stop may not be below it. */
  predicate StopMisplaced(side: string, stopPrice: real, current: real) {
    (side == "BUY" && stopPrice > current) || (side == "SELL" && stopPrice < current)
  }

  function OcoLimitLeg(symbol: string, side: string, quantity: real, price: real): OrderParams {
    OrderParams(symbol, Opposite(side), Limit, Exactly(quantity), Some(price), None, Some("GTC"))
  }

  function OcoStopLeg(symbol: string, side: string, quantity: real, stopPrice: real): OrderParams {
    OrderParams(symbol, Opposite(side), StopMarket, Exactly(quantity), None, Some(stopPrice), None)
  }

  /** `oco_order`: fetch the price, place the limit leg, THEN check the stop
      direction, then place the stop leg. Any failure re-raises; nothing is
      rolled back. `stopLimitPrice` is accepted and never used. */
  function OcoOrder(g: Gateway, at: nat, symbol: string, side: string, quantity: real,
                    price: real, stopPrice: real, stopLimitPrice: real): (r: Run<Result<seq<Ack>>>)
    // the price is fetched first, before any leg
    ensures 1 <= |r.calls| <= 3 && r.calls[0] == Ticker(symbol)
    // the legs, when placed, are the limit leg then the stop leg
    ensures |r.calls| >= 2 ==> r.calls[1] == CreateOrder(OcoLimitLeg(symbol, side, quantity, price))
    ensures |r.calls| == 3 ==> r.calls[2] == CreateOrder(OcoStopLeg(symbol, side, quantity, stopPrice))
    // a leg is attempted only after everything before it succeeded
    ensures |r.calls| >= 2 <==> g.ticker(at).Ok?
    ensures |r.calls| == 3 <==>
      g.ticker(at).Ok? && g.createOrder(at + 1).Ok? && !StopMisplaced(side, stopPrice, g.ticker(at).value)
    // success returns both acknowledgements, limit leg first
    ensures r.out.Ok? <==> |r.calls| == 3 && g.createOrder(at + 2).Ok?
    ensures r.out.Ok? ==> r.out.value == [g.createOrder(at + 1).value, g.createOrder(at + 2).value]
    // a failed call re-raises its own exception unchanged
    ensures g.ticker(at).Raise? ==> r.out == Raise(g.ticker(at).exc)
    ensures g.ticker(at).Ok? && g.createOrder(at + 1).Raise? ==> r.out == Raise(g.createOrder(at + 1).exc)
    ensures |r.calls| == 3 && g.createOrder(at + 2).Raise? ==> r.out == Raise(g.createOrder(at + 2).exc)
    // a misplaced stop raises the direction error after the limit leg
    ensures g.ticker(at).Ok? && g.createOrder(at + 1).Ok? && StopMisplaced(side, stopPrice, g.ticker(at).value) ==>
      r.out == Raise(ValueError(if side == "BUY" then BuyStopAbove else SellStopBelow))
  {
    match g.ticker(at)
    case Raise(e) => Run(Raise(e), [Ticker(symbol)])
    case Ok(current) =>
      var limitLeg := OcoLimitLeg(symbol, side, quantity, price);
      match g.createOrder(at + 1)
      case Raise(e) => Run(Raise(e), [Ticker(symbol), CreateOrder(limitLeg)])
      case Ok(limitAck) =>
        if side == "BUY" && stopPrice > current then
          Run(Raise(ValueError(BuyStopAbove)), [Ticker(symbol), CreateOrder(limitLeg)])
        else if side == "SELL" && stopPrice < current then
          Run(Raise(ValueError(SellStopBelow)), [Ticker(symbol), CreateOrder(limitLeg)])
        else
          var stopLeg := OcoStopLeg(symbol, side, quantity, stopPrice);
          match g.createOrder(at + 2)
          case Raise(e) => Run(Raise(e), [Ticker(symbol), CreateOrder(limitLeg), CreateOrder(stopLeg)])
          case Ok(stopAck) => Run(Ok([limitAck, stopAck]), [Ticker(symbol), CreateOrder(limitLeg), CreateOrder(stopLeg)])
  }

  /** Both legs are on the side opposite the request, for the same quantity. */
  lemma OcoLegsOpposite(g: Gateway, at: nat, symbol: string, side: string, quantity: real,
                        price: real, stopPrice: real, stopLimitPrice: real)
    requires side == "BUY" || side == "SELL"
    ensures var r := OcoOrder(g, at, symbol, side, quantity, price, stopPrice, stopLimitPrice);
      forall i :: 0 <= i < |r.calls| && r.calls[i].CreateOrder? ==>
        && r.calls[i].order.side != side
        && (r.calls[i].order.side == "BUY" || r.calls[i].order.side == "SELL")
        && r.calls[i].order.quantity == Exactly(quantity)
  {
  }

  /** A misplaced stop is detected only after the limit leg is live: one
      order has been placed and the ValueError propagates without rollback. */
  lemma {:induction false} OcoMisplacedStopLeavesOneLeg(g: Gateway, at: nat, symbol: string, side: string, quantity: real,
                                      price: real, stopPrice: real, stopLimitPrice: real)
    requires g.ticker(at).Ok? && g.createOrder(at + 1).Ok?
    requires StopMisplaced(side, stopPrice, g.ticker(at).value)
    ensures var r := OcoOrder(g, at, symbol, side, quantity, price, stopPrice, stopLimitPrice);
      && CountOrders(r.calls) == 1
      && r.out == Raise(ValueError(if side == "BUY" then BuyStopAbove else SellStopBelow))
  {
    var r := OcoOrder(g, at, symbol, side, quantity, price, stopPrice, stopLimitPrice);
    var first: seq<Call> := [Ticker(symbol)];
    var second: seq<Call> := [CreateOrder(OcoLimitLeg(symbol, side, quantity, price))];
    assert r.calls == first + second;
    assert first[..0] == [] && second[..0] == [];
    CountOrdersAppend(first, second);
  }

  /** The direction rule: a BUY fails iff its stop is above the price, a SELL
      iff its stop is below it; a stop at the price passes both. */
  lemma OcoDirectionRule(g: Gateway, at: nat, symbol: string, side: string, quantity: real,
                         price: real, stopPrice: real, stopLimitPrice: real)
    requires side == "BUY" || side == "SELL"
    requires g.ticker(at).Ok? && g.createOrder(at + 1).Ok? && g.createOrder(at + 2).Ok?
    ensures var r := OcoOrder(g, at, symbol, side, quantity, price, stopPrice, stopLimitPrice);
      var current := g.ticker(at).value;
      && (side == "BUY" ==> (r.out.Raise? <==> stopPrice > current))
      && (side == "SELL" ==> (r.out.Raise? <==> stopPrice < current))
      && (stopPrice == current ==> r.out.Ok?)
  {
  }

  /** `stop_limit_price` has no effect on anything the strategy does. */
  lemma OcoIgnoresStopLimitPrice(g: Gateway, at: nat, symbol: string, side: string, quantity: real,
                                 price: real, stopPrice: real, slp1: real, slp2: real)
    ensures OcoOrder(g, at, symbol, side, quantity, price, stopPrice, slp1)
         == OcoOrder(g, at, symbol, side, quantity, price, stopPrice, slp2)
  {
  }

  /** The limit price is never checked: a BUY with the current price at 100,
      limit 105 and stop 90 places both legs. */
  lemma OcoLimitPriceUnchecked(g: Gateway, at: nat, symbol: string, quantity: real)
    requires g.ticker(at) == Ok(100.0) && g.createOrder(at + 1).Ok? && g.createOrder(at + 2).Ok?
    ensures OcoOrder(g, at, symbol, "BUY", quantity, 105.0, 90.0, 0.0).out.Ok?
  {
  }

  /** A BUY whose stop is above the price (limit 95, stop 110 at 100) is
      rejected after its limit leg was placed. */
  lemma OcoBuyStopAboveRejected(g: Gateway, at: nat, symbol: string, quantity: real)
    requires g.ticker(at) == Ok(100.0) && g.createOrder(at + 1).Ok?
    ensures var r := OcoOrder(g, at, symbol, "BUY", quantity, 95.0, 110.0, 0.0);
      r.out == Raise(ValueError(BuyStopAbove)) && CountOrders(r.calls) == 1
  {
    OcoMisplacedStopLeavesOneLeg(g, at, symbol, "BUY", quantity, 95.0, 110.0, 0.0);
  }
}
