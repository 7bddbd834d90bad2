/** The order dispatcher `place_order` of both bots.

    The spot bot (src/bot.py) validates the symbol, the side and the
    quantity in that order, then checks the keyword arguments the order type
    needs, runs the TWAP margin check, and forwards to the strategy. Every
    exception on the way is turned into a refusal, so the dispatcher itself
    never raises. The futures bot (bot/tradingbot.py) runs the same three
    checks and then only reports a simulated success. */
module Dispatcher {
  import opened Common
  import opened Gateway
  import opened Validator
  import opened Accounts
  import opened Strategies
  import opened Twap

  /** The optional keyword arguments of `place_order`. */
  datatype Kwargs = Kwargs(
    price: Option<real>,
    stopPrice: Option<real>,
    stopLimitPrice: Option<real>,
    durationMin: Option<real>,
    slices: Option<int>)

  /** Why an order was refused; each is the `(False, message)` the
      dispatcher returns. */
  datatype Refusal =
    | InvalidSymbol                        // "Invalid symbol"
    | InvalidSide                          // "Invalid order side"
    | NonPositiveQuantity                  // "Quantity must be positive"
    | MissingPrice                         // a LIMIT order without `price`
    | MissingStopLimitFields               // a STOP_LIMIT order without `price` or `stop_price`
    | MissingOcoFields                     // an OCO order without one of its three prices
    | MissingDuration                      // a TWAP order without `duration_min`
    | InsufficientMargin(required: real, available: real)
    | MarginVerificationError              // the margin check itself failed
    | Unsupported(orderType: string)       // "unsupported order type: ..."
    | ApiFailure(code: int, message: string)  // an API exception from a strategy
    | Failure(message: string)             // any other exception, as `str(e)`

  /** What a strategy returned: one acknowledgement or a list of them. */
  datatype OrderResult = Single(ack: Ack) | Many(acks: seq<Ack>)

  /** The `(ok, payload)` pair: a strategy's result, the futures bot's
      simulated success, or a refusal. */
  datatype Placement = Accepted(result: OrderResult) | Simulated | Refused(reason: Refusal)

  /** The outer exception handler: an API exception keeps its code and
      message, any other exception its message. */
  function Caught(e: Exc): (f: Refusal)
    ensures f.ApiFailure? <==> e.ApiError?
    ensures f.ApiFailure? ==> f == ApiFailure(e.code, e.message)
    ensures f.Failure? ==> f.message == e.message
    ensures !e.ApiError? ==> f == Failure(e.message)
  {
    match e
    case ApiError(code, msg) => ApiFailure(code, msg)
    case _ => Failure(e.message)
  }

  /** A single-request strategy's outcome as the dispatcher reports it:
      `(True, result)` on success, the caught exception otherwise. */
  function ReportSingle(res: Result<Ack>): (p: Placement)
    ensures p.Accepted? <==> res.Ok?
    ensures res.Ok? ==> p == Accepted(Single(res.value))
    ensures res.Raise? ==> p == Refused(Caught(res.exc))
  {
    match res
    case Ok(a) => Accepted(Single(a))
    case Raise(e) => Refused(Caught(e))
  }

  /** The same for the OCO and TWAP strategies, which return a list. */
  function ReportMany(res: Result<seq<Ack>>): (p: Placement)
    ensures p.Accepted? <==> res.Ok?
    ensures res.Ok? ==> p == Accepted(Many(res.value))
    ensures res.Raise? ==> p == Refused(Caught(res.exc))
  {
    match res
    case Ok(acks) => Accepted(Many(acks))
    case Raise(e) => Refused(Caught(e))
  }

  /** The three checks both bots run first, in order: the symbol (whose
      validation may raise, which the handler turns into a refusal), the
      side, and the quantity. `None` means all passed. */
  function PreChecks(bot: Bot, g: Gateway, at: nat, symbol: string, side: string, quantity: real)
    : (r: BotRun<Option<Refusal>>)
    ensures var v := ValidateSymbol(bot, g, at, symbol);
      && r.bot == v.bot && r.calls == v.calls
      && (v.out.Raise? ==> r.out == Some(Failure(v.out.exc.message)))
      && (v.out == Ok(false) ==> r.out == Some(InvalidSymbol))
      && (v.out == Ok(true) && side != "BUY" && side != "SELL" ==> r.out == Some(InvalidSide))
      && (v.out == Ok(true) && (side == "BUY" || side == "SELL") && quantity <= 0.0 ==> r.out == Some(NonPositiveQuantity))
      && (r.out.None? <==> v.out == Ok(true) && (side == "BUY" || side == "SELL") && quantity > 0.0)
  {
    var v := ValidateSymbol(bot, g, at, symbol);
    var verdict :=
      match v.out
      case Raise(e) => Some(Failure(e.message))
      case Ok(false) => Some(InvalidSymbol)
      case Ok(true) =>
        if side != "BUY" && side != "SELL" then Some(InvalidSide)
        else if quantity <= 0.0 then Some(NonPositiveQuantity)
        else None;
    BotRun(verdict, v.bot, v.calls)
  }

  /** The slice count the spot bot assumes when none is given. */
  const DefaultSlices := 4

  /** The TWAP pre-flight margin check: the ticker price, the cost of one
      slice at that price, and the account's available USDT, which the
      balance map never holds and so reads as 0. `None` lets the order
      through. A zero slice count divides by zero after the ticker call;
      that, a failed ticker and a failed balance all become
      `MarginVerificationError`. */
  function MarginCheck(g: Gateway, at: nat, symbol: string, quantity: real, slices: int): (r: Run<Option<Refusal>>)
    ensures 1 <= |r.calls| <= 2 && r.calls[0] == Ticker(symbol)
    ensures |r.calls| == 2 ==> r.calls[1] == SpotAccount
    ensures NoOrders(r.calls)
    // a failed ticker, or a zero slice count, is refused after the ticker alone
    ensures g.ticker(at).Raise? || slices == 0 ==> r == Run(Some(MarginVerificationError), [Ticker(symbol)])
    ensures |r.calls| == 2 <==> g.ticker(at).Ok? && slices != 0
    // a failed balance lookup is refused the same way
    ensures |r.calls| == 2 && g.spotAccount(at + 1).Raise? ==> r.out == Some(MarginVerificationError)
    ensures r.out.Some? ==> r.out.value == MarginVerificationError || r.out.value.InsufficientMargin?
    ensures r.out.None? <==>
      g.ticker(at).Ok? && slices != 0 && g.spotAccount(at + 1).Ok?
      && quantity / slices as real * g.ticker(at).value <= 0.0
    ensures r.out.Some? && r.out.value.InsufficientMargin? ==>
      g.ticker(at).Ok? && slices != 0
      && r.out.value == InsufficientMargin(quantity / slices as real * g.ticker(at).value, 0.0)
  {
    match g.ticker(at)
    case Raise(_) => Run(Some(MarginVerificationError), [Ticker(symbol)])
    case Ok(price) =>
      if slices == 0 then Run(Some(MarginVerificationError), [Ticker(symbol)])
      else
        var required := quantity / slices as real * price;
        var b := AccountBalance(g, at + 1);
        var calls := [Ticker(symbol)] + b.calls;
        if b.out.Raise? then Run(Some(MarginVerificationError), calls)
        else
          var available := Lookup(b.out.value, "USDT", "available");
          AvailableAlwaysZero(g.spotAccount(at + 1).value, "USDT");
          if available < required then Run(Some(InsufficientMargin(required, available)), calls)
          else Run(None, calls)
  }

  /** The order-type dispatch of the spot bot, run once the three checks
      have passed: the keyword arguments the type needs, then its strategy.
      The spot strategies are one create-order request each. */
  function Dispatch(g: Gateway, at: nat, symbol: string, side: string, orderType: string,
                    quantity: real, kw: Kwargs): (r: Run<Placement>)
    // the spot bot never simulates
    ensures !r.out.Simulated?
    // an unknown type is refused without a call
    ensures orderType !in {"MARKET", "LIMIT", "STOP_LIMIT", "OCO", "TWAP"} ==>
      r == Run(Refused(Unsupported(orderType)), [])
    // a missing keyword argument is refused without a call
    ensures orderType == "LIMIT" && kw.price.None? ==> r == Run(Refused(MissingPrice), [])
    ensures orderType == "STOP_LIMIT" && (kw.price.None? || kw.stopPrice.None?) ==>
      r == Run(Refused(MissingStopLimitFields), [])
    ensures orderType == "OCO" && (kw.price.None? || kw.stopPrice.None? || kw.stopLimitPrice.None?) ==>
      r == Run(Refused(MissingOcoFields), [])
    ensures orderType == "TWAP" && kw.durationMin.None? ==> r == Run(Refused(MissingDuration), [])
    // only the five known types are ever forwarded
    ensures r.calls != [] ==> orderType in {"MARKET", "LIMIT", "STOP_LIMIT", "OCO", "TWAP"}
  {
    if orderType == "MARKET" then
      var s := Submit(g, at, SpotMarketParams(symbol, side, quantity));
      Run(ReportSingle(s.out), s.calls)
    else if orderType == "LIMIT" then
      if kw.price.None? then Run(Refused(MissingPrice), [])
      else
        var s := Submit(g, at, SpotLimitParams(symbol, side, quantity, kw.price.value));
        Run(ReportSingle(s.out), s.calls)
    else if orderType == "STOP_LIMIT" then
      if kw.price.None? || kw.stopPrice.None? then Run(Refused(MissingStopLimitFields), [])
      else
        var s := Submit(g, at, SpotStopLimitParams(symbol, side, quantity, kw.price.value, kw.stopPrice.value));
        Run(ReportSingle(s.out), s.calls)
    else if orderType == "OCO" then
      if kw.price.None? || kw.stopPrice.None? || kw.stopLimitPrice.None? then Run(Refused(MissingOcoFields), [])
      else
        var o := OcoOrder(g, at, symbol, side, quantity, kw.price.value, kw.stopPrice.value, kw.stopLimitPrice.value);
        Run(ReportMany(o.out), o.calls)
    else if orderType == "TWAP" then
      if kw.durationMin.None? then Run(Refused(MissingDuration), [])
      else
        var slices := kw.slices.GetOr(DefaultSlices);
        var m := MarginCheck(g, at, symbol, quantity, slices);
        if m.out.Some? then Run(Refused(m.out.value), m.calls)
        else
          var t := TwapRun(g, at + |m.calls|, symbol, side, quantity, kw.durationMin.value, slices, true);
          Run(ReportMany(t.out), m.calls + t.calls)
    else Run(Refused(Unsupported(orderType)), [])
  }

  /** Each known order type, its keyword arguments present, runs its own
      strategy at the dispatch position and reports that strategy's
      outcome; a TWAP order reaches its slicer only through the margin
      check. */
  lemma DispatchForwards(g: Gateway, at: nat, symbol: string, side: string,
                         quantity: real, kw: Kwargs)
    // the single-request types send exactly their request
    ensures var r := Dispatch(g, at, symbol, side, "MARKET", quantity, kw);
      r.calls == [CreateOrder(SpotMarketParams(symbol, side, quantity))]
      && r.out == ReportSingle(g.createOrder(at))
    ensures kw.price.Some? ==>
      var r := Dispatch(g, at, symbol, side, "LIMIT", quantity, kw);
      r.calls == [CreateOrder(SpotLimitParams(symbol, side, quantity, kw.price.value))]
      && r.out == ReportSingle(g.createOrder(at))
    ensures kw.price.Some? && kw.stopPrice.Some? ==>
      var r := Dispatch(g, at, symbol, side, "STOP_LIMIT", quantity, kw);
      r.calls == [CreateOrder(SpotStopLimitParams(symbol, side, quantity, kw.price.value, kw.stopPrice.value))]
      && r.out == ReportSingle(g.createOrder(at))
    // the OCO strategy runs as it is
    ensures kw.price.Some? && kw.stopPrice.Some? && kw.stopLimitPrice.Some? ==>
      var r := Dispatch(g, at, symbol, side, "OCO", quantity, kw);
      var o := OcoOrder(g, at, symbol, side, quantity, kw.price.value, kw.stopPrice.value, kw.stopLimitPrice.value);
      r.calls == o.calls && r.out == ReportMany(o.out)
    // a TWAP order reaches its slicer only through the margin check
    ensures kw.durationMin.Some? ==>
      var r := Dispatch(g, at, symbol, side, "TWAP", quantity, kw);
      var m := MarginCheck(g, at, symbol, quantity, kw.slices.GetOr(DefaultSlices));
      && (m.out.Some? ==> r == Run(Refused(m.out.value), m.calls))
      && (m.out.None? ==>
            var t := TwapRun(g, at + |m.calls|, symbol, side, quantity, kw.durationMin.value, kw.slices.GetOr(DefaultSlices), true);
            r.calls == m.calls + t.calls && r.out == ReportMany(t.out))
  {
  }

  /** `place_order` of the spot bot: the checks, then the dispatch on the
      order type, starting after the validation's calls. */
  function PlaceOrder(bot: Bot, g: Gateway, at: nat, symbol: string, side: string, orderType: string,
                      quantity: real, kw: Kwargs): (r: BotRun<Placement>)
    // only the symbol validation touches the bot
    ensures r.bot == ValidateSymbol(bot, g, at, symbol).bot
    // the validation's calls come first
    ensures var pre := PreChecks(bot, g, at, symbol, side, quantity);
      && (pre.out.Some? ==> r.out == Refused(pre.out.value) && r.calls == pre.calls)
      && (pre.out.None? ==>
            var d := Dispatch(g, at + |pre.calls|, symbol, side, orderType, quantity, kw);
            r.out == d.out && r.calls == pre.calls + d.calls)
    // the futures bot's simulated success is never returned
    ensures !r.out.Simulated?
  {
    var pre := PreChecks(bot, g, at, symbol, side, quantity);
    assert pre.bot == ValidateSymbol(bot, g, at, symbol).bot;
    if pre.out.Some? then BotRun(Refused(pre.out.value), pre.bot, pre.calls)
    else
      var d := Dispatch(g, at + |pre.calls|, symbol, side, orderType, quantity, kw);
      assert !d.out.Simulated?;
      BotRun(d.out, pre.bot, pre.calls + d.calls)
  }

  /** A trace of validation calls only. */
  lemma ValidationCallsPlaceNothing(calls: seq<Call>)
    requires calls == [] || calls == [ExchangeInfo]
    ensures NoOrders(calls)
  {
  }

  /** The checks come in a fixed order, each refusing before any order call:
      symbol, then side, then quantity; an accepted order passed all three
      and has a known type. */
  lemma CheckOrder(bot: Bot, g: Gateway, at: nat, symbol: string, side: string, orderType: string,
                   quantity: real, kw: Kwargs)
    ensures var r := PlaceOrder(bot, g, at, symbol, side, orderType, quantity, kw);
      var v := ValidateSymbol(bot, g, at, symbol);
      && (v.out == Ok(false) ==> r.out == Refused(InvalidSymbol) && NoOrders(r.calls))
      && (v.out.Raise? ==> r.out == Refused(Failure(v.out.exc.message)) && NoOrders(r.calls))
      && (v.out == Ok(true) && side != "BUY" && side != "SELL" ==> r.out == Refused(InvalidSide) && NoOrders(r.calls))
      && (v.out == Ok(true) && (side == "BUY" || side == "SELL") && quantity <= 0.0 ==>
            r.out == Refused(NonPositiveQuantity) && NoOrders(r.calls))
      && (r.out.Accepted? ==>
            && v.out == Ok(true) && (side == "BUY" || side == "SELL") && quantity > 0.0
            && orderType in {"MARKET", "LIMIT", "STOP_LIMIT", "OCO", "TWAP"})
  {
    var v := ValidateSymbol(bot, g, at, symbol);
    ValidationCallsPlaceNothing(v.calls);
  }

  /** An unknown order type is refused with its name, and the only calls
      are the symbol validation's. */
  lemma UnsupportedPlacesNothing(bot: Bot, g: Gateway, at: nat, symbol: string, side: string, orderType: string,
                                 quantity: real, kw: Kwargs)
    requires orderType !in {"MARKET", "LIMIT", "STOP_LIMIT", "OCO", "TWAP"}
    requires ValidateSymbol(bot, g, at, symbol).out == Ok(true)
    requires (side == "BUY" || side == "SELL") && quantity > 0.0
    ensures var r := PlaceOrder(bot, g, at, symbol, side, orderType, quantity, kw);
      && r.out == Refused(Unsupported(orderType))
      && r.calls == ValidateSymbol(bot, g, at, symbol).calls
      && NoOrders(r.calls)
  {
    ValidationCallsPlaceNothing(ValidateSymbol(bot, g, at, symbol).calls);
  }

  /** With a positive price and at least one slice, the margin check needs
      more than the 0 it reads, so a TWAP order is always refused and no
      slice is ever placed. */
  lemma TwapAlwaysRefused(bot: Bot, g: Gateway, at: nat, symbol: string, side: string,
                          quantity: real, kw: Kwargs)
    requires quantity > 0.0
    requires kw.slices.GetOr(DefaultSlices) >= 1
    requires forall n :: g.ticker(n).Ok? ==> g.ticker(n).value > 0.0
    ensures var r := PlaceOrder(bot, g, at, symbol, side, "TWAP", quantity, kw);
      && r.out.Refused?
      && NoOrders(r.calls)
  {
    var pre := PreChecks(bot, g, at, symbol, side, quantity);
    var here := at + |pre.calls|;
    var d := Dispatch(g, here, symbol, side, "TWAP", quantity, kw);
    var r := PlaceOrder(bot, g, at, symbol, side, "TWAP", quantity, kw);
    assert NoOrders(pre.calls) by { ValidationCallsPlaceNothing(pre.calls); }
    assert pre.out.Some? ==> r.out == Refused(pre.out.value) && r.calls == pre.calls;
    assert pre.out.None? ==> r.out == d.out && r.calls == pre.calls + d.calls;
    assert pre.out.None? ==> d.out.Refused? && NoOrders(d.calls) by {
      if pre.out.None? {
        TwapDispatchRefused(g, here, symbol, side, quantity, kw);
      }
    }
    RefusedAfterChecks(pre, d, r);
  }

  /** When the checks place nothing and the dispatch, if reached, refuses
      without placing, the whole placement is a refusal that placed nothing. */
  lemma RefusedAfterChecks(pre: BotRun<Option<Refusal>>, d: Run<Placement>, r: BotRun<Placement>)
    requires NoOrders(pre.calls)
    requires pre.out.Some? ==> r.out == Refused(pre.out.value) && r.calls == pre.calls
    requires pre.out.None? ==> r.out == d.out && r.calls == pre.calls + d.calls
    requires pre.out.None? ==> d.out.Refused? && NoOrders(d.calls)
    ensures r.out.Refused? && NoOrders(r.calls)
  {
    if pre.out.None? {
      NoOrdersConcat(pre.calls, d.calls);
    }
  }

  /** The dispatch half of TwapAlwaysRefused: the margin check refuses. */
  lemma TwapDispatchRefused(g: Gateway, at: nat, symbol: string, side: string, quantity: real, kw: Kwargs)
    requires quantity > 0.0
    requires kw.slices.GetOr(DefaultSlices) >= 1
    requires g.ticker(at).Ok? ==> g.ticker(at).value > 0.0
    ensures var d := Dispatch(g, at, symbol, side, "TWAP", quantity, kw);
      d.out.Refused? && NoOrders(d.calls)
  {
    if kw.durationMin.Some? {
      var slices := kw.slices.GetOr(DefaultSlices);
      if g.ticker(at).Ok? {
        PositiveCost(quantity, slices, g.ticker(at).value);
      }
      var m := MarginCheck(g, at, symbol, quantity, slices);
      assert m.out.Some?;
    }
  }

  /** The cost of a slice is positive for a positive quantity, slice count
      and price. */
  lemma PositiveCost(quantity: real, slices: int, price: real)
    requires quantity > 0.0 && slices >= 1 && price > 0.0
    ensures quantity / slices as real * price > 0.0
  {
    assert quantity / slices as real > 0.0;
  }

  /** An explicit zero slice count fails the margin check's division after
      the ticker call: "Margin verification error", no order. */
  lemma TwapZeroSlices(g: Gateway, at: nat, symbol: string, side: string, quantity: real, kw: Kwargs)
    requires kw.durationMin.Some? && kw.slices == Some(0)
    ensures Dispatch(g, at, symbol, side, "TWAP", quantity, kw) == Run(Refused(MarginVerificationError), [Ticker(symbol)])
  {
  }

  /** A negative slice count makes the required margin negative when the
      price is positive, so the check passes and the slicer refuses with its
      own error, before any slice. */
  lemma TwapNegativeSlicesReachSlicer(g: Gateway, at: nat, symbol: string, side: string, quantity: real, kw: Kwargs)
    requires quantity > 0.0 && kw.durationMin.Some? && kw.slices.Some? && kw.slices.value < 0
    requires g.ticker(at).Ok? && g.ticker(at).value > 0.0 && g.spotAccount(at + 1).Ok?
    ensures Dispatch(g, at, symbol, side, "TWAP", quantity, kw)
         == Run(Refused(Failure(NoSlices)), [Ticker(symbol), SpotAccount])
  {
    var s := kw.slices.value;
    var price := g.ticker(at).value;
    assert quantity / s as real < 0.0;
    assert quantity / s as real * price < 0.0;
  }

  /** An API exception raised by a strategy comes back as its code and
      message; the dispatcher does not raise. */
  lemma ApiErrorsBecomeRefusals(g: Gateway, at: nat, symbol: string, side: string, quantity: real,
                                kw: Kwargs, code: int, msg: string)
    requires g.createOrder(at) == Raise(ApiError(code, msg))
    ensures Dispatch(g, at, symbol, side, "MARKET", quantity, kw).out == Refused(ApiFailure(code, msg))
    ensures kw.price.Some? ==> Dispatch(g, at, symbol, side, "LIMIT", quantity, kw).out == Refused(ApiFailure(code, msg))
  {
  }

  /** The OCO's misplaced-stop error reaches the caller as a refusal with
      its message, after the limit leg was placed. */
  lemma OcoRefusalKeepsLeg(g: Gateway, at: nat, symbol: string, quantity: real, kw: Kwargs)
    requires kw.price.Some? && kw.stopPrice.Some? && kw.stopLimitPrice.Some?
    requires g.ticker(at).Ok? && g.createOrder(at + 1).Ok?
    requires kw.stopPrice.value > g.ticker(at).value
    ensures var r := Dispatch(g, at, symbol, "BUY", "OCO", quantity, kw);
      r.out == Refused(Failure(BuyStopAbove)) && CountOrders(r.calls) == 1
  {
    OcoMisplacedStopLeavesOneLeg(g, at, symbol, "BUY", quantity, kw.price.value, kw.stopPrice.value, kw.stopLimitPrice.value);
  }

  /** The simulated success of the futures bot. */
  const SimulatedSuccess := "Order placement successful (simulated)"

  /** `place_order` of the futures bot: the same three checks, then a
      simulated success; the order type and keyword arguments are never
      looked at. */
  function SimulatedPlaceOrder(bot: Bot, g: Gateway, at: nat, symbol: string, side: string, quantity: real)
    : (r: BotRun<Placement>)
    ensures var pre := PreChecks(bot, g, at, symbol, side, quantity);
      && r.bot == pre.bot && r.calls == pre.calls
      && (r.out == Simulated <==> pre.out.None?)
      && (pre.out.Some? ==> r.out == Refused(pre.out.value))
  {
    var pre := PreChecks(bot, g, at, symbol, side, quantity);
    if pre.out.Some? then BotRun(Refused(pre.out.value), pre.bot, pre.calls)
    else BotRun(Simulated, pre.bot, pre.calls)
  }

  /** The simulated dispatcher never places an order, and whenever the spot
      dispatcher's checks pass so do its own. */
  lemma SimulatedNeverOrders(bot: Bot, g: Gateway, at: nat, symbol: string, side: string, orderType: string,
                             quantity: real, kw: Kwargs)
    ensures NoOrders(SimulatedPlaceOrder(bot, g, at, symbol, side, quantity).calls)
    ensures CountOrders(SimulatedPlaceOrder(bot, g, at, symbol, side, quantity).calls) == 0
    ensures PlaceOrder(bot, g, at, symbol, side, orderType, quantity, kw).out.Accepted? ==>
      SimulatedPlaceOrder(bot, g, at, symbol, side, quantity).out == Simulated
  {
    ValidationCallsPlaceNothing(ValidateSymbol(bot, g, at, symbol).calls);
    NoOrdersCountZero(ValidateSymbol(bot, g, at, symbol).calls);
  }
}
