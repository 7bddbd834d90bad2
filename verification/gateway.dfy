/** The exchange as the engine sees it: an oracle of scripted replies, one
    function per endpoint, and the trace of calls the engine makes.

    Every call the engine makes occupies one position of the session's
    trace. The reply to a call made at position `n` is the endpoint's
    oracle applied to `n`, so a retried call may get a different answer.
    An operation starting at position `at` returns the calls it made itself;
    the next operation starts at `at` plus their number. */
module Gateway {
  import opened Common

  /** The order types the engine sends. */
  datatype OrderKind = Market | Limit | Stop | StopLossLimit | StopMarket

  /** An order quantity as sent: either the number itself (`str(quantity)`)
      or `str(round(x, 6))`, kept symbolic because float rounding is not
      modelled. */
  datatype Amount = Exactly(value: real) | RoundedTo6(unrounded: real)

  /** The keyword arguments of one create-order request. */
  datatype OrderParams = OrderParams(
    symbol: string,
    side: string,
    kind: OrderKind,
    quantity: Amount,
    price: Option<real>,
    stopPrice: Option<real>,
    timeInForce: Option<string>)

  /** The exchange's acknowledgement of a created order. */
  datatype Ack = Ack(orderId: nat, status: string)

  /** One spot balance entry of the account endpoint. */
  datatype SpotAsset = SpotAsset(asset: string, free: real, locked: real)

  /** One entry of the futures balance endpoint; `crossUnPnl` may be absent. */
  datatype FuturesAsset = FuturesAsset(asset: string, balance: real, availableBalance: real, crossUnPnl: Option<real>)

  /** One open order as the exchange lists it; price and stop price may be absent. */
  datatype RawOrder = RawOrder(
    orderId: nat, symbol: string, side: string, orderType: string,
    origQty: real, price: Option<real>, status: string, time: int,
    stopPrice: Option<real>)

  /** One of the account's own trades as the exchange lists it. */
  datatype RawTrade = RawTrade(
    id: nat, symbol: string, isBuyer: bool, qty: real, price: real,
    commission: string, commissionAsset: string, time: int)

  /** A gateway call, as recorded in the trace. `Sleep` is the pacing delay
      of the TWAP strategy, recorded with its duration in seconds. */
  datatype Call =
    | ExchangeInfo
    | Ticker(symbol: string)
    | SpotAccount
    | FuturesBalance
    | OpenOrders(filter: Option<string>)
    | MyTrades(symbol: string)
    | CreateOrder(order: OrderParams)
    | Sleep(seconds: real)

  /** The scripted replies. `exchangeInfo` answers `None` when the response
      lacks its `symbols` key; a malformed payload elsewhere is a raised
      `OtherError`. */
  datatype Gateway = Gateway(
    exchangeInfo: nat -> Result<Option<seq<string>>>,
    ticker: nat -> Result<real>,
    spotAccount: nat -> Result<seq<SpotAsset>>,
    futuresBalance: nat -> Result<seq<FuturesAsset>>,
    openOrders: nat -> Result<seq<RawOrder>>,
    trades: nat -> Result<seq<RawTrade>>,
    createOrder: nat -> Result<Ack>)

  /** What an operation returns: its value and the calls it made. */
  datatype Run<+T> = Run(out: T, calls: seq<Call>)

  /** No create-order call appears in the trace. */
  predicate NoOrders(calls: seq<Call>) {
    forall i :: 0 <= i < |calls| ==> !calls[i].CreateOrder?
  }

  lemma NoOrdersConcat(a: seq<Call>, b: seq<Call>)
    ensures NoOrders(a + b) <==> NoOrders(a) && NoOrders(b)
  {
    if NoOrders(a + b) {
      forall i | 0 <= i < |a| ensures !a[i].CreateOrder? {
        assert a[i] == (a + b)[i];
      }
      forall i | 0 <= i < |b| ensures !b[i].CreateOrder? {
        assert b[i] == (a + b)[|a| + i];
      }
    }
    if NoOrders(a) && NoOrders(b) {
      forall i | 0 <= i < |a + b| ensures !(a + b)[i].CreateOrder? {
        if i >= |a| {
          assert (a + b)[i] == b[i - |a|];
        }
      }
    }
  }

  /** The number of create-order calls in the trace. */
  function CountOrders(calls: seq<Call>): nat {
    if |calls| == 0 then 0
    else CountOrders(calls[..|calls| - 1]) + (if calls[|calls| - 1].CreateOrder? then 1 else 0)
  }

  /** The total number of seconds slept in the trace. */
  function SleepTotal(calls: seq<Call>): real {
    if |calls| == 0 then 0.0
    else SleepTotal(calls[..|calls| - 1]) + (if calls[|calls| - 1].Sleep? then calls[|calls| - 1].seconds else 0.0)
  }

  lemma {:induction false} CountOrdersAppend(a: seq<Call>, b: seq<Call>)
    ensures CountOrders(a + b) == CountOrders(a) + CountOrders(b)
    decreases |b|
  {
    if |b| == 0 {
      assert a + b == a;
    } else {
      var b' := b[..|b| - 1];
      assert (a + b)[..|a + b| - 1] == a + b';
      CountOrdersAppend(a, b');
    }
  }

  lemma {:induction false} SleepTotalAppend(a: seq<Call>, b: seq<Call>)
    ensures SleepTotal(a + b) == SleepTotal(a) + SleepTotal(b)
    decreases |b|
  {
    if |b| == 0 {
      assert a + b == a;
    } else {
      var b' := b[..|b| - 1];
      assert (a + b)[..|a + b| - 1] == a + b';
      SleepTotalAppend(a, b');
    }
  }

  /** A trace without create-order calls counts none. */
  lemma {:induction false} NoOrdersCountZero(calls: seq<Call>)
    ensures NoOrders(calls) <==> CountOrders(calls) == 0
    decreases |calls|
  {
    if |calls| > 0 {
      var init := calls[..|calls| - 1];
      NoOrdersCountZero(init);
      if NoOrders(calls) {
        assert NoOrders(init) by {
          forall i | 0 <= i < |init| ensures !init[i].CreateOrder? {
            assert init[i] == calls[i];
          }
        }
      } else if CountOrders(init) == 0 && !calls[|calls| - 1].CreateOrder? {
        forall i | 0 <= i < |calls| ensures !calls[i].CreateOrder? {
          if i < |init| {
            assert init[i] == calls[i];
          }
        }
      }
    }
  }
}
