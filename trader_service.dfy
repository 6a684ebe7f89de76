/**
 * The decision rules of `TraderService` (src/trade/trader/trader.service.ts):
 * market names and candle updates, order sizing and dispatch, the
 * pending-order set and its polling, and what one tick of market data does.
 * The exchange calls are parameters: the quoted price, and the report the
 * exchange returns for a placed order or an order-status request.
 */
module TraderServices {
  import opened Wrappers
  import opened Dicts
  import opened Strings
  import opened Coins
  import opened CoinDicts
  import opened Trades
  import opened Operations
  import opened Traders
  import opened Mappers

  /** `altCoinToMarket`: the coin's market against the bridge. */
  function MarketOf(code: string, bridge: string): string {
    code + bridge
  }

  /** The code of a candle symbol: `symbol.slice(0, -bridge.length)`. */
  function CodeOfSymbol(symbol: string, bridge: string): string {
    DropLast(symbol, |bridge|)
  }

  /** With a non-empty bridge code, a coin's market maps back to the coin's code. */
  lemma MarketRoundTrip(code: string, bridge: string)
    requires |bridge| > 0
    ensures CodeOfSymbol(MarketOf(code, bridge), bridge) == code
  {
    if |code| > 0 {
      assert (code + bridge)[..|code|] == code;
    }
  }

  /** With an empty bridge code every symbol maps to "" (`slice(0, -0)` is empty). */
  lemma EmptyBridgeLosesCode(symbol: string)
    ensures CodeOfSymbol(symbol, "") == ""
  {
  }

  /** A candle of the `1m` stream: its symbol and its opening and closing prices. */
  datatype Candle = Candle(coin: string, open: real, close: real)

  /** A candle becomes an update of its coin: valued at the close, trending by close minus open. */
  function CandleToUpdate(c: Candle, bridge: string): (u: CoinsUpdate)
    ensures u.valuation == c.close && u.trending == c.close - c.open
    ensures u.valuation - u.trending == c.open
    ensures u.code == CodeOfSymbol(c.coin, bridge)
  {
    CoinsUpdate(CodeOfSymbol(c.coin, bridge), c.close - c.open, c.close)
  }

  /**
   * The candle stream as written: the broker hands the callback the raw
   * `BinanceCandlestick`, which has no `coin` field, so the subject lookup
   * `rawCandleSubjects[candle.coin]` uses the key "undefined". Without a
   * market of that name `.next` is called on `undefined` and throws (the
   * socket handler catches it); with one, the candle reaches that subject
   * and the update's `val.coin.slice` throws. No candle becomes an update.
   */
  function CandleUpdateAsWritten(markets: seq<string>, e: BinanceCandlestick, bridge: string): (r: Result<CoinsUpdate, string>)
    ensures r.Failure?
    ensures "undefined" !in markets ==> r.error == "TypeError: reading 'next' of undefined"
  {
    if "undefined" !in markets then Failure("TypeError: reading 'next' of undefined")
    else Failure("TypeError: reading 'slice' of undefined")
  }

  /**
   * The intended stream: the event is first converted by the broker's
   * `prettifyKlines` (`coin` is the event's symbol, prices parsed by
   * `parse`), then routed to its market's subject; a symbol with no
   * subject still throws.
   */
  function CandleUpdate(markets: seq<string>, e: BinanceCandlestick, bridge: string, parse: string -> real): (r: Result<CoinsUpdate, string>)
    ensures r.Success? <==> e.s in markets
    ensures r.Success? ==> r.value.valuation == parse(e.k.c) && r.value.trending == parse(e.k.c) - parse(e.k.o)
    ensures r.Success? ==> r.value.code == CodeOfSymbol(e.s, bridge)
  {
    if e.s !in markets then Failure("TypeError: reading 'next' of undefined")
    else Success(CandleToUpdate(Candle(e.s, parse(e.k.o), parse(e.k.c)), bridge))
  }

  /**
   * A candle from a coin's own market: as written it never updates
   * anything; converted, it updates that coin when the bridge code is not
   * empty, and the coin "" when it is.
   */
  lemma CandleUpdatesItsCoin(markets: seq<string>, code: string, bridge: string, e: BinanceCandlestick, parse: string -> real)
    requires e.s == MarketOf(code, bridge) && e.s in markets
    ensures CandleUpdateAsWritten(markets, e, bridge).Failure?
    ensures CandleUpdate(markets, e, bridge, parse).Success?
    ensures |bridge| > 0 ==> CandleUpdate(markets, e, bridge, parse).value.code == code
    ensures |bridge| == 0 ==> CandleUpdate(markets, e, bridge, parse).value.code == ""
  {
    if |bridge| > 0 {
      MarketRoundTrip(code, bridge);
    }
  }

  // ----------------------------------------------------------- placing orders

  /** The order `executeTrade` sends: a LIMIT order on the trade's market at the quoted price. */
  datatype OrderRequest = OrderRequest(side: Side, market: string, quantity: real, price: real)

  /**
   * Sizing in `executeTrade`, inside the promise chain: a SELL sells
   * `base.checkQuantity(amount)`; a BUY buys `base.checkQuantity(amount /
   * price)`. Failures are the exceptions the chain catches: a bridge base
   * (it has no `checkQuantity`), a zero price, or a rejected quantity.
   */
  function OrderFor(side: Side, base: Coin, quote: Coin, amount: real, price: real): (r: Result<OrderRequest, string>)
    reads if base.Alt? then {base.alt} else {}
    ensures r.Success? <==> base.Alt? && (side == Buy ==> price != 0.0)
                            && base.alt.CheckQuantity(if side == Sell || price == 0.0 then amount else amount / price).Success?
    ensures r.Success? ==> r.value == OrderRequest(side, base.Code() + quote.Code(), r.value.quantity, price)
    ensures r.Success? && side == Sell ==> base.alt.CheckQuantity(amount) == Success(r.value.quantity)
    ensures r.Success? && side == Buy ==> base.alt.CheckQuantity(amount / price) == Success(r.value.quantity)
  {
    if base.Bridge? then Failure("TypeError: checkQuantity is not a function")
    else if side == Buy && price == 0.0 then Failure("quantity too large: Infinity")
    else
      var q := base.alt.CheckQuantity(if side == Sell || price == 0.0 then amount else amount / price);
      if q.Failure? then Failure("quantity rejected")
      else Success(OrderRequest(side, base.Code() + quote.Code(), q.value, price))
  }

  /**
   * A placed SELL never sells more than the trade's amount, and a placed BUY
   * at a positive price never costs more than the trade's amount.
   */
  lemma OrderWithinAmount(side: Side, base: Coin, quote: Coin, amount: real, price: real)
    requires OrderFor(side, base, quote, amount, price).Success?
    ensures var o := OrderFor(side, base, quote, amount, price).value;
            && (side == Sell ==> o.quantity <= amount)
            && (side == Buy && price > 0.0 ==> o.quantity * price <= amount)
  {
    var o := OrderFor(side, base, quote, amount, price).value;
    if side == Buy && price > 0.0 {
      assert o.quantity <= amount / price by {
        assert base.alt.CheckQuantity(amount / price) == Success(o.quantity);
      }
      CostWithinAmount(o.quantity, amount, price);
    }
  }

  /** Buying at most `amount / price` at `price` costs at most `amount`. */
  lemma CostWithinAmount(q: real, amount: real, price: real)
    requires price > 0.0 && q <= amount / price
    ensures q * price <= amount
  {
    assert q * price <= (amount / price) * price;
  }

  /** The report a failed placement turns into. */
  const FailedUpdate := TradeUpdate(-1, CANCELED, BaseQuoteAmount(0.0, 0.0), -1.0)

  /** Actions on the pending-order set. */
  datatype PendingAction = Add(trade: Trade) | Remove(trade: Trade)

  /** After the first report, CANCELED and FILLED orders are not tracked; any other status is. */
  function TrackAfterInit(t: Trade, status: TradeStatus): (a: Option<PendingAction>)
    ensures a.Some? <==> status !in {CANCELED, FILLED}
    ensures a.Some? ==> a.value == Add(t)
  {
    if status == CANCELED || status == FILLED then None else Some(Add(t))
  }

  /**
   * `executeTrade`. A trade without a market throws at once (`base.code` of
   * undefined) and nothing happens. Otherwise the quoted price (or the
   * failure to get it), the order and the exchange's report (`place`) yield
   * the first report, any failure becoming `FailedUpdate`. The trade records
   * it; the result is what its callback receives and whether the order
   * joins the pending set.
   */
  method ExecuteTrade(trade: Trade, price: Result<real, string>, place: OrderRequest -> Result<TradeUpdate, string>)
    returns (thrown: bool, n: Notification, action: Option<PendingAction>)
    modifies trade`executedAmount, trade`executedPrice, trade`id, trade`status
    ensures thrown <==> trade.base.None? || trade.quote.None?
    ensures thrown ==> unchanged(trade) && n == Silent && action.None?
    ensures !thrown ==>
              var order := if price.Success? then OrderFor(trade.side, trade.base.value, trade.quote.value, trade.amount, price.value)
                           else Failure(price.error);
              var report := if order.Success? && place(order.value).Success? then place(order.value).value else FailedUpdate;
              && trade.status == Some(report.status) && trade.id == Some(report.id)
              && trade.executedAmount == report.amount && trade.executedPrice == Some(report.price)
              && action == TrackAfterInit(trade, report.status)
              && n == HandleStatus(report.status, BaseQuoteToFromTo(trade.from, trade.to, trade.base, trade.quote, report.amount, report.price))
  {
    if trade.base.None? || trade.quote.None? {
      return true, Silent, None;
    }
    thrown := false;
    var report := FailedUpdate;
    if price.Success? {
      var order := OrderFor(trade.side, trade.base.value, trade.quote.value, trade.amount, price.value);
      if order.Success? {
        var placed := place(order.value);
        if placed.Success? {
          report := placed.value;
        }
      }
    }
    n := trade.UpdateAfterInit(report);
    action := TrackAfterInit(trade, report.status);
  }

  /** A failed placement cancels the trade, does not call back, and is not tracked. */
  lemma FailedPlacementIsCanceled(t: Trade)
    ensures TrackAfterInit(t, FailedUpdate.status).None?
    ensures HandleStatus(FailedUpdate.status, FromToAmount(0.0, 0.0, -1.0)) == Silent
  {
  }

  // ------------------------------------------------ statuses as the exchange sends them

  /** A JavaScript value compared with `===`: a string never equals a number. */
  datatype JsValue = JsString(str: string) | JsNumber(num: int)

  /** The value of a status in the numeric TypeScript enum: CANCELED = 0 up to REJECTED = 6. */
  function StatusOrdinal(t: TradeStatus): (n: int)
    ensures 0 <= n <= 6
  {
    match t
    case CANCELED => 0
    case EXPIRED => 1
    case FILLED => 2
    case NEW => 3
    case PARTIALLY_FILLED => 4
    case PENDING_CANCEL => 5
    case REJECTED => 6
  }

  /** Distinct statuses have distinct values. */
  lemma StatusOrdinalInjective(t: TradeStatus, u: TradeStatus)
    ensures StatusOrdinal(t) == StatusOrdinal(u) <==> t == u
  {
  }

  /** `BinanceAPIOrderResponse`, the exchange's answer to a placement or a status request. */
  datatype OrderResponse = OrderResponse(orderId: int, price: string, executedQty: string, status: string)

  /** What the `.then` after `executeTrade`'s `.catch` receives: the exchange's answer, or the catch's CANCELED report. */
  datatype FirstAnswer = Answered(res: OrderResponse) | Caught

  /** The `status` field of that value: the exchange's string, or the enum's number. */
  function FirstStatus(answer: FirstAnswer): JsValue {
    match answer
    case Answered(res) => JsString(res.status)
    case Caught => JsNumber(StatusOrdinal(CANCELED))
  }

  /**
   * `executeTrade`'s tests as written: `res.status === TradeStatus.CANCELED`
   * and `!== TradeStatus.FILLED` compare the exchange's string with a
   * number, so every answered placement is ADDed, FILLED ones included; only
   * the caught failure is not.
   */
  function TrackAfterInitAsWritten(t: Trade, answer: FirstAnswer): (a: Option<PendingAction>)
    ensures a.Some? <==> answer.Answered?
    ensures a.Some? ==> a.value == Add(t)
  {
    var status := FirstStatus(answer);
    if status == JsNumber(StatusOrdinal(CANCELED)) then None
    else if status != JsNumber(StatusOrdinal(FILLED)) then Some(Add(t))
    else None
  }

  /**
   * `handleStatus` as written on the stored status: the `switch` matches
   * only the enum's numbers, so a string status never calls back; a numeric
   * one behaves as the converted status does.
   */
  function HandleStatusAsWritten(status: JsValue, converted: FromToAmount): (n: Notification)
    ensures status.JsString? ==> n == Silent
    ensures forall t :: status == JsNumber(StatusOrdinal(t)) ==> n == HandleStatus(t, converted)
  {
    if status == JsNumber(StatusOrdinal(FILLED)) then Notified(Some(converted))
    else if status == JsNumber(StatusOrdinal(PARTIALLY_FILLED)) then Notified(None)
    else Silent
  }

  /** `updateTrades`' test as written: the string status never equals `TradeStatus.FILLED`. */
  function PollActionAsWritten(t: Trade, res: OrderResponse): (a: Option<PendingAction>)
    ensures a.None?
  {
    if JsString(res.status) == JsNumber(StatusOrdinal(FILLED)) then Some(Remove(t)) else None
  }

  /** The intended test: convert the status with `statusToEnum` first. */
  function PollActionConverted(t: Trade, res: OrderResponse): (a: Option<PendingAction>)
    ensures a.Some? <==> res.status == "FILLED"
    ensures a.Some? ==> a.value == Remove(t)
  {
    StatusRoundTrip(FILLED, res.status);
    match StatusToEnum(res.status)
    case Some(status) => PollAction(t, status)
    case None => None
  }

  /** The actions a sequence of status answers emits, as written. */
  function PollActionsAsWritten(t: Trade, answers: seq<OrderResponse>): seq<PendingAction> {
    if |answers| == 0 then []
    else
      var last := PollActionAsWritten(t, answers[|answers| - 1]);
      PollActionsAsWritten(t, answers[..|answers| - 1]) + (if last.Some? then [last.value] else [])
  }

  /** As written, polling never emits anything, whatever the exchange answers. */
  lemma {:induction false} PollsAsWrittenEmitNothing(t: Trade, answers: seq<OrderResponse>)
    ensures PollActionsAsWritten(t, answers) == []
  {
    if |answers| > 0 {
      PollsAsWrittenEmitNothing(t, answers[..|answers| - 1]);
    }
  }

  /**
   * As written, an answered placement stays pending for good: after its
   * ADD, actions about other trades and any number of polls of it leave it
   * in the set, so the poller never stops while it exists.
   */
  lemma PlacedOrderStaysPending(t: Trade, res: OrderResponse, before: seq<PendingAction>,
                                others: seq<PendingAction>, answers: seq<OrderResponse>)
    requires forall i :: 0 <= i < |others| ==> others[i].trade != t
    ensures var actions := before + [TrackAfterInitAsWritten(t, Answered(res)).value] + others + PollActionsAsWritten(t, answers);
            t in Pending(actions) && ShouldPoll(Pending(actions))
  {
    PollsAsWrittenEmitNothing(t, answers);
    var actions := before + [Add(t)] + others;
    assert actions + [] == actions;
    var i := |before|;
    assert actions[i] == Add(t) && forall j :: i < j < |actions| ==> actions[j].trade != t by {
      forall j | i < j < |actions| ensures actions[j].trade != t {
        assert actions[j] == others[j - i - 1];
      }
    }
    PendingIffLastAdd(actions, t);
  }

  // ------------------------------------------------------------ pending set

  /** The `scan` reducer: ADD inserts and REMOVE deletes, on a new set. */
  function ScanStep(pending: set<Trade>, a: PendingAction): (r: set<Trade>)
    ensures a.Add? ==> r == pending + {a.trade}
    ensures a.Remove? ==> r == pending - {a.trade}
  {
    match a
    case Add(t) => pending + {t}
    case Remove(t) => pending - {t}
  }

  /** The pending set after a stream of actions, from the empty set. */
  function Pending(actions: seq<PendingAction>): set<Trade> {
    if |actions| == 0 then {}
    else ScanStep(Pending(actions[..|actions| - 1]), actions[|actions| - 1])
  }

  /** Some action ADDs `t` and no later action is about `t`. */
  ghost predicate LastAdded(actions: seq<PendingAction>, t: Trade) {
    exists i :: 0 <= i < |actions| && actions[i] == Add(t) && forall j :: i < j < |actions| ==> actions[j].trade != t
  }

  /** A trade is pending exactly when its last action was ADD. */
  lemma {:induction false} PendingIffLastAdd(actions: seq<PendingAction>, t: Trade)
    ensures t in Pending(actions) <==> LastAdded(actions, t)
  {
    if |actions| > 0 {
      var n := |actions| - 1;
      PendingIffLastAdd(actions[..n], t);
      if actions[n].trade != t {
        LastAddSkipsOthers(actions, t);
      } else if actions[n].Add? {
        LastAddIsLast(actions, t);
      } else {
        NoAddAfterRemove(actions, t);
      }
    }
  }

  /** An action about another trade changes nothing about where `t`'s last ADD is. */
  lemma LastAddSkipsOthers(actions: seq<PendingAction>, t: Trade)
    requires |actions| > 0 && actions[|actions| - 1].trade != t
    ensures LastAdded(actions[..|actions| - 1], t) <==> LastAdded(actions, t)
  {
    var n := |actions| - 1;
    if i :| 0 <= i < n && actions[..n][i] == Add(t) && forall j :: i < j < n ==> actions[..n][j].trade != t {
      assert actions[i] == Add(t) && forall j :: i < j < |actions| ==> actions[j].trade != t;
    }
    if i :| 0 <= i < |actions| && actions[i] == Add(t) && forall j :: i < j < |actions| ==> actions[j].trade != t {
      assert i < n;
      assert actions[..n][i] == Add(t) && forall j :: i < j < n ==> actions[..n][j].trade != t;
    }
  }

  /** An ADD of `t` as the last action leaves `t` last added. */
  lemma LastAddIsLast(actions: seq<PendingAction>, t: Trade)
    requires |actions| > 0 && actions[|actions| - 1] == Add(t)
    ensures LastAdded(actions, t)
  {
    assert actions[|actions| - 1] == Add(t);
  }

  /** After a REMOVE of `t` as the last action, `t` is not last added. */
  lemma NoAddAfterRemove(actions: seq<PendingAction>, t: Trade)
    requires |actions| > 0 && actions[|actions| - 1] == Remove(t)
    ensures !LastAdded(actions, t)
  {
    forall i | 0 <= i < |actions| && actions[i] == Add(t)
      ensures i < |actions| - 1 && actions[|actions| - 1].trade == t
    {
    }
  }

  /** Polling emits REMOVE only for a FILLED order. */
  function PollAction(t: Trade, status: TradeStatus): (a: Option<PendingAction>)
    ensures a.Some? <==> status == FILLED
    ensures a.Some? ==> a.value == Remove(t)
  {
    if status == FILLED then Some(Remove(t)) else None
  }

  /** Polling runs only while orders are pending. */
  predicate ShouldPoll(pending: set<Trade>) {
    |pending| > 0
  }

  /** The actions a sequence of polled statuses emits. */
  function PollActions(t: Trade, statuses: seq<TradeStatus>): seq<PendingAction> {
    if |statuses| == 0 then []
    else
      var last := PollAction(t, statuses[|statuses| - 1]);
      PollActions(t, statuses[..|statuses| - 1]) + (if last.Some? then [last.value] else [])
  }

  /**
   * A pending order that the exchange keeps reporting CANCELED, EXPIRED or
   * REJECTED is never removed: its polls emit nothing, so it stays in the
   * pending set and polling goes on.
   */
  lemma {:induction false} DeadOrdersStayPending(actions: seq<PendingAction>, t: Trade, statuses: seq<TradeStatus>)
    requires t in Pending(actions)
    requires forall i :: 0 <= i < |statuses| ==> statuses[i] in {CANCELED, EXPIRED, REJECTED}
    ensures PollActions(t, statuses) == []
    ensures t in Pending(actions + PollActions(t, statuses)) && ShouldPoll(Pending(actions + PollActions(t, statuses)))
  {
    if |statuses| > 0 {
      var n := |statuses| - 1;
      DeadOrdersStayPending(actions, t, statuses[..n]);
      assert PollAction(t, statuses[n]).None?;
    }
    assert actions + [] == actions;
  }

  /**
   * One poll of a pending order: REMOVE when the report is FILLED, and the
   * report is applied to the trade either way.
   */
  method PollTrade(trade: Trade, report: TradeUpdate) returns (n: Notification, action: Option<PendingAction>)
    modifies trade`executedAmount, trade`executedPrice, trade`status
    ensures action == PollAction(trade, report.status)
    ensures trade.status == Some(report.status) && trade.id == old(trade.id)
    ensures trade.executedAmount == report.amount && trade.executedPrice == Some(report.price)
    ensures n == HandleStatus(report.status, BaseQuoteToFromTo(trade.from, trade.to, trade.base, trade.quote, report.amount, report.price))
  {
    action := PollAction(trade, report.status);
    n := trade.Update(report);
  }

  // --------------------------------------------------------------------- tick

  /**
   * `updateCoins`: all the tick's coin updates, then ONE market evaluation;
   * at most one operation is built and added (not started). When an update
   * names an unknown coin the source throws before evaluating.
   */
  method Tick(coins: CoinDict, trader: Trader, updates: seq<CoinsUpdate>, best: (Coin, real) -> (AltCoin, real))
    returns (failedAt: Option<nat>, added: Option<Operation>)
    requires coins.Valid()
    modifies coins.Stored()`trending, coins.Stored()`valuation, trader`operations
    ensures failedAt == (var n := FirstUnknown(updates, ToMap(coins.dict).Keys); if n < |updates| then Some(n) else None)
    ensures var n := FirstUnknown(updates, ToMap(coins.dict).Keys);
            forall e | e in coins.dict ::
              var u := LastUpdate(updates[..n], e.key);
              if u.Some? then e.value.trending == Some(u.value.trending) && e.value.valuation == Some(u.value.valuation)
              else e.value.trending == old(e.value.trending) && e.value.valuation == old(e.value.valuation)
    ensures forall c | c in coins.Stored() ::
              c.pairs == old(c.pairs) && c.priceFilter == old(c.priceFilter) && c.quantityFilter == old(c.quantityFilter)
    ensures failedAt.Some? ==> added.None?
    ensures added.None? ==> trader.operations == old(trader.operations)
    ensures added.Some? ==> trader.operations == old(trader.operations) + [added.value] && fresh(added.value)
    ensures failedAt.None? ==> (added.Some? <==> old(trader.EvaluateMarket(best)).Some?)
    ensures added.Some? ==>
              var c := old(trader.EvaluateMarket(best)).value;
              added.value.asset == c.asset && added.value.target == c.target
              && added.value.bridgeAsset == trader.bridgeAsset
              && added.value.amount == ComputeAmount(c.asset.balance, c.score)
              && added.value.firstTrade.None?
  {
    added := None;
    failedAt := coins.UpdateCoins(updates);
    if failedAt.Some? {
      return;
    }
    var c := trader.EvaluateMarket(best);
    if c.None? {
      return;
    }
    var op := new Operation(c.value.asset, c.value.target, trader.bridgeAsset, c.value.score);
    trader.AddOperation(op);
    added := Some(op);
  }
}
