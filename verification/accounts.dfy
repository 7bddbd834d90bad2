/** The read-only account services: balance normalisation of both bots,
    trade history and open orders, and the maximum-position arithmetic.
    A normalised balance is a Python dict of dicts, kept here as a map from
    asset to a map from field name to number, so that a lookup of a field the
    normaliser never writes is visibly a missing key. */
module Accounts {
  import opened Common
  import opened Gateway

  type Record = map<string, real>

  /** `balances.get(asset, {}).get(field, 0)`. */
  function Lookup(balances: map<string, Record>, asset: string, field: string): real {
    if asset in balances && field in balances[asset] then balances[asset][field] else 0.0
  }

  /** The index of the last entry for asset `k` that is kept, or -1. */
  function LastKept<A>(entries: seq<A>, keep: A -> bool, asset: A -> string, k: string): (i: int)
    ensures -1 <= i < |entries|
    ensures i >= 0 ==> asset(entries[i]) == k && keep(entries[i])
    ensures forall j :: i < j < |entries| ==> !(asset(entries[j]) == k && keep(entries[j]))
  {
    if |entries| == 0 then -1
    else
      var e := entries[|entries| - 1];
      if asset(e) == k && keep(e) then |entries| - 1
      else LastKept(entries[..|entries| - 1], keep, asset, k)
  }

  /** The dict-building loop both bots use: walk the entries in order, and
      for each kept entry (over)write its asset's record, so an asset's
      record is that of its last kept entry. */
  function Tabulate<A>(entries: seq<A>, keep: A -> bool, asset: A -> string, record: A -> Record): (m: map<string, Record>)
    ensures forall k :: k in m <==> LastKept(entries, keep, asset, k) >= 0
    ensures forall k :: k in m ==> m[k] == record(entries[LastKept(entries, keep, asset, k)])
  {
    if |entries| == 0 then map[]
    else
      var init := entries[..|entries| - 1];
      var m := Tabulate(init, keep, asset, record);
      var e := entries[|entries| - 1];
      if keep(e) then m[asset(e) := record(e)] else m
  }

  /** An asset is tabulated iff some entry for it is kept. */
  lemma TabulatedIffKept<A>(entries: seq<A>, keep: A -> bool, asset: A -> string, record: A -> Record, k: string)
    ensures k in Tabulate(entries, keep, asset, record) <==>
      exists i :: 0 <= i < |entries| && asset(entries[i]) == k && keep(entries[i])
  {
    var i := LastKept(entries, keep, asset, k);
    if exists j :: 0 <= j < |entries| && asset(entries[j]) == k && keep(entries[j]) {
      var j :| 0 <= j < |entries| && asset(entries[j]) == k && keep(entries[j]);
      assert !(i < j);
    }
  }

  /** One spot balance record: free, locked and their total. */
  function SpotRecord(a: SpotAsset): Record {
    map["free" := a.free, "locked" := a.locked, "total" := a.free + a.locked]
  }

  predicate SpotHeld(a: SpotAsset) {
    a.free + a.locked > 0.0
  }

  /** `get_account_balance` of the spot bot, on the entries the account
      endpoint returned. */
  function SpotBalances(entries: seq<SpotAsset>): (m: map<string, Record>)
    ensures forall k :: k in m ==>
      && m[k].Keys == {"free", "locked", "total"}
      && m[k]["total"] == m[k]["free"] + m[k]["locked"] > 0.0
  {
    Tabulate(entries, SpotHeld, (a: SpotAsset) => a.asset, SpotRecord)
  }

  /** An asset appears in the spot balance iff one of its entries has
      free + locked > 0, and then with the figures of its last such entry. */
  lemma SpotBalancesContents(entries: seq<SpotAsset>, k: string)
    ensures k in SpotBalances(entries) <==>
      exists i :: 0 <= i < |entries| && entries[i].asset == k && entries[i].free + entries[i].locked > 0.0
    ensures k in SpotBalances(entries) ==>
      var i := LastKept(entries, SpotHeld, (a: SpotAsset) => a.asset, k);
      && SpotBalances(entries)[k]["free"] == entries[i].free
      && SpotBalances(entries)[k]["locked"] == entries[i].locked
      && forall j :: i < j < |entries| && entries[j].asset == k ==> entries[j].free + entries[j].locked <= 0.0
  {
    TabulatedIffKept(entries, SpotHeld, (a: SpotAsset) => a.asset, SpotRecord, k);
  }

  const BalanceFailed := "Failed to get balance"

  /** `get_account_balance` of the spot bot (src/bot.py). */
  function AccountBalance(g: Gateway, at: nat): (r: Run<Result<map<string, Record>>>)
    ensures r.calls == [SpotAccount]
    ensures r.out.Ok? <==> g.spotAccount(at).Ok?
    ensures r.out.Ok? ==> r.out.value == SpotBalances(g.spotAccount(at).value)
    // every failure becomes a RuntimeError; only an API error adds its message
    ensures r.out.Raise? ==> r.out.exc == RuntimeError(
      if g.spotAccount(at).exc.ApiError? then BalanceFailed + " " + g.spotAccount(at).exc.message else BalanceFailed)
  {
    match g.spotAccount(at)
    case Ok(entries) => Run(Ok(SpotBalances(entries)), [SpotAccount])
    case Raise(ApiError(_, msg)) => Run(Raise(RuntimeError(BalanceFailed + " " + msg)), [SpotAccount])
    case Raise(_) => Run(Raise(RuntimeError(BalanceFailed)), [SpotAccount])
  }

  /** The spot balance never holds an "available" field, so the margin
      check's lookup of it is always 0, whatever the account holds. */
  lemma AvailableAlwaysZero(entries: seq<SpotAsset>, asset: string)
    ensures Lookup(SpotBalances(entries), asset, "available") == 0.0
  {
    var m := SpotBalances(entries);
    if asset in m {
      assert "available" !in {"free", "locked", "total"};
    }
  }

  /** One futures balance record: balance, available balance, and the
      unrealised cross PnL as margin (0 when absent). */
  function FuturesRecord(a: FuturesAsset): Record {
    map["balance" := a.balance, "available" := a.availableBalance, "margin" := a.crossUnPnl.GetOr(0.0)]
  }

  predicate FuturesHeld(a: FuturesAsset) {
    a.balance > 0.0
  }

  /** `get_account_balance` of the futures bot on the entries returned. */
  function FuturesBalances(entries: seq<FuturesAsset>): (m: map<string, Record>)
    ensures forall k :: k in m ==> m[k].Keys == {"balance", "available", "margin"}
  {
    Tabulate(entries, FuturesHeld, (a: FuturesAsset) => a.asset, FuturesRecord)
  }

  /** An asset appears in the futures balance iff one of its entries has a
      positive balance, and then with the figures of its last such entry,
      the margin defaulting to 0. */
  lemma FuturesBalancesContents(entries: seq<FuturesAsset>, k: string)
    ensures k in FuturesBalances(entries) <==>
      exists i :: 0 <= i < |entries| && entries[i].asset == k && entries[i].balance > 0.0
    ensures k in FuturesBalances(entries) ==>
      var i := LastKept(entries, FuturesHeld, (a: FuturesAsset) => a.asset, k);
      && FuturesBalances(entries)[k]["balance"] == entries[i].balance > 0.0
      && FuturesBalances(entries)[k]["available"] == entries[i].availableBalance
      && FuturesBalances(entries)[k]["margin"] == (if entries[i].crossUnPnl.Some? then entries[i].crossUnPnl.value else 0.0)
  {
    TabulatedIffKept(entries, FuturesHeld, (a: FuturesAsset) => a.asset, FuturesRecord, k);
  }

  /** `get_account_balance` of the futures bot (bot/tradingbot.py): only an
      API error is converted; any other exception escapes unchanged. */
  function FuturesAccountBalance(g: Gateway, at: nat): (r: Run<Result<map<string, Record>>>)
    ensures r.calls == [FuturesBalance]
    ensures r.out.Ok? <==> g.futuresBalance(at).Ok?
    ensures r.out.Ok? ==> r.out.value == FuturesBalances(g.futuresBalance(at).value)
    ensures g.futuresBalance(at).Raise? && g.futuresBalance(at).exc.ApiError? ==>
      r.out == Raise(RuntimeError(BalanceFailed))
    ensures g.futuresBalance(at).Raise? && !g.futuresBalance(at).exc.ApiError? ==>
      r.out == Raise(g.futuresBalance(at).exc)
  {
    match g.futuresBalance(at)
    case Ok(entries) => Run(Ok(FuturesBalances(entries)), [FuturesBalance])
    case Raise(ApiError(_, _)) => Run(Raise(RuntimeError(BalanceFailed)), [FuturesBalance])
    case Raise(e) => Run(Raise(e), [FuturesBalance])
  }

  /** A normalised open order of the futures bot. */
  datatype OpenOrder = OpenOrder(
    orderId: nat, symbol: string, side: string, orderType: string,
    origQty: real, price: real, status: string, time: int, stopPrice: real)

  function FormatOrder(o: RawOrder): OpenOrder {
    OpenOrder(o.orderId, o.symbol, o.side, o.orderType, o.origQty,
              o.price.GetOr(0.0), o.status, o.time, o.stopPrice.GetOr(0.0))
  }

  const OrdersFailed := "Failed to get orders"

  /** The request filter: the symbol when one is given and non-empty (an
      empty string is falsy in Python, so it asks for all symbols). */
  function OrderFilter(symbol: Option<string>): Option<string> {
    if symbol.Some? && symbol.value != "" then symbol else None
  }

  /** `get_open_orders` of the futures bot. */
  function FuturesOpenOrders(g: Gateway, at: nat, symbol: Option<string>): (r: Run<Result<seq<OpenOrder>>>)
    ensures |r.calls| == 1 && r.calls[0].OpenOrders?
    ensures r.calls[0].filter.Some? <==> symbol.Some? && |symbol.value| > 0
    ensures r.calls[0].filter.Some? ==> r.calls[0].filter == symbol
    ensures r.out.Ok? <==> g.openOrders(at).Ok?
    // one record per order, in the exchange's order, absent prices read as 0
    ensures r.out.Ok? ==> var raw := g.openOrders(at).value;
      && |r.out.value| == |raw|
      && forall i :: 0 <= i < |raw| ==>
        && r.out.value[i].orderId == raw[i].orderId
        && r.out.value[i].symbol == raw[i].symbol
        && r.out.value[i].side == raw[i].side
        && r.out.value[i].orderType == raw[i].orderType
        && r.out.value[i].origQty == raw[i].origQty
        && r.out.value[i].status == raw[i].status
        && r.out.value[i].time == raw[i].time
        && r.out.value[i].price == (if raw[i].price.Some? then raw[i].price.value else 0.0)
        && r.out.value[i].stopPrice == (if raw[i].stopPrice.Some? then raw[i].stopPrice.value else 0.0)
    // every failure becomes a RuntimeError; only an API error adds its message
    ensures r.out.Raise? ==> r.out.exc == RuntimeError(
      if g.openOrders(at).exc.ApiError? then OrdersFailed + ": " + g.openOrders(at).exc.message else OrdersFailed)
  {
    var call := OpenOrders(OrderFilter(symbol));
    match g.openOrders(at)
    case Ok(raw) => Run(Ok(seq(|raw|, i requires 0 <= i < |raw| => FormatOrder(raw[i]))), [call])
    case Raise(ApiError(_, msg)) => Run(Raise(RuntimeError(OrdersFailed + ": " + msg)), [call])
    case Raise(_) => Run(Raise(RuntimeError(OrdersFailed)), [call])
  }

  /** A normalised trade of the spot bot. */
  datatype Trade = Trade(id: nat, symbol: string, side: string, qty: real, price: real, commission: string, time: int)

  function FormatTrade(t: RawTrade): Trade {
    Trade(t.id, t.symbol, if t.isBuyer then "BUY" else "SELL", t.qty, t.price,
          t.commission + " " + t.commissionAsset, t.time)
  }

  /** Where Python's slice `xs[start:]` begins on a sequence of length `n`. */
  function SliceStart(n: nat, start: int): (k: nat)
    ensures k <= n
  {
    if start < 0 then Max(0, n + start) else Min(start, n)
  }

  /** `xs[-limit:]`. */
  function LastItems<T>(xs: seq<T>, limit: int): (r: seq<T>)
    ensures |r| <= |xs| && r == xs[|xs| - |r|..]
    ensures limit > 0 ==> |r| == Min(limit, |xs|)
    // `xs[-0:]` is the whole list
    ensures limit == 0 ==> r == xs
    // a negative limit drops the first -limit items instead
    ensures limit < 0 ==> |r| == Max(0, |xs| + limit)
  {
    xs[SliceStart(|xs|, -limit)..]
  }

  const TradesFailed := "Failed to get trade history"

  /** `get_trade_history(symbol, limit)` of the spot bot. */
  function TradeHistory(g: Gateway, at: nat, symbol: string, limit: int): (r: Run<Result<seq<Trade>>>)
    ensures r.calls == [MyTrades(symbol)]
    ensures r.out.Ok? <==> g.trades(at).Ok?
    ensures r.out.Ok? ==> var raw := g.trades(at).value; var kept := LastItems(raw, limit);
      && |r.out.value| == |kept|
      && (limit > 0 ==> |r.out.value| == Min(limit, |raw|))
      && forall i :: 0 <= i < |kept| ==>
        && r.out.value[i].id == raw[|raw| - |kept| + i].id
        && r.out.value[i].symbol == raw[|raw| - |kept| + i].symbol
        && r.out.value[i].time == raw[|raw| - |kept| + i].time
        && r.out.value[i].commission
           == raw[|raw| - |kept| + i].commission + " " + raw[|raw| - |kept| + i].commissionAsset
        && r.out.value[i].qty == raw[|raw| - |kept| + i].qty
        && r.out.value[i].price == raw[|raw| - |kept| + i].price
        && (r.out.value[i].side == "BUY" <==> raw[|raw| - |kept| + i].isBuyer)
        && (r.out.value[i].side == "SELL" <==> !raw[|raw| - |kept| + i].isBuyer)
    ensures r.out.Raise? ==> r.out.exc == RuntimeError(
      if g.trades(at).exc.ApiError? then TradesFailed + ": " + g.trades(at).exc.message else TradesFailed)
  {
    match g.trades(at)
    case Ok(raw) =>
      var kept := LastItems(raw, limit);
      Run(Ok(seq(|kept|, i requires 0 <= i < |kept| => FormatTrade(kept[i]))), [MyTrades(symbol)])
    case Raise(ApiError(_, msg)) => Run(Raise(RuntimeError(TradesFailed + ": " + msg)), [MyTrades(symbol)])
    case Raise(_) => Run(Raise(RuntimeError(TradesFailed)), [MyTrades(symbol)])
  }

  lemma ScaleBack(x: real, price: real)
    requires price != 0.0
    ensures (x / price) * price == x
  {
  }

  /** `get_max_position(symbol, leverage)`: free USDT times leverage over the
      ticker price, and 0 whenever anything fails (a failed balance, no free
      USDT, a failed ticker, or a zero price dividing). */
  function MaxPosition(g: Gateway, at: nat, symbol: string, leverage: real): (r: Run<real>)
    ensures 1 <= |r.calls| <= 2 && r.calls[0] == SpotAccount
    // the ticker is asked only when there is free USDT to size
    ensures |r.calls| == 2 <==>
      g.spotAccount(at).Ok? && Lookup(SpotBalances(g.spotAccount(at).value), "USDT", "free") != 0.0
    ensures |r.calls| == 2 ==> r.calls[1] == Ticker(symbol)
    // a sized position is worth the leveraged free balance at the price
    ensures |r.calls| == 2 && g.ticker(at + 1).Ok? && g.ticker(at + 1).value != 0.0 ==>
      r.out * g.ticker(at + 1).value == Lookup(SpotBalances(g.spotAccount(at).value), "USDT", "free") * leverage
    // otherwise the answer is 0
    ensures !(|r.calls| == 2 && g.ticker(at + 1).Ok? && g.ticker(at + 1).value != 0.0) ==> r.out == 0.0
  {
    var b := AccountBalance(g, at);
    if b.out.Raise? then Run(0.0, b.calls)
    else
      var free := Lookup(b.out.value, "USDT", "free");
      if free == 0.0 then Run(0.0, b.calls)
      else
        match g.ticker(at + 1)
        case Raise(_) => Run(0.0, b.calls + [Ticker(symbol)])
        case Ok(price) =>
          if price == 0.0 then Run(0.0, b.calls + [Ticker(symbol)])
          else
            ScaleBack(free * leverage, price);
            Run(free * leverage / price, b.calls + [Ticker(symbol)])
  }
}
