/**
 * One order leg (src/trade/domain/trade.entity.ts). A trade converts `amount`
 * of the `from` coin into the `to` coin on the market of `base` and `quote`,
 * and records the order state reported by the exchange.
 *
 * The source passes the trade a closure to call on fills; here the trade
 * keeps which handler it was built with (`Callback`) and its updates return
 * what that handler would receive (`Notification`), for the operation to act on.
 */
module Trades {
  import opened Wrappers
  import opened Coins
  import opened Assets

  /** `TradeStatus`. */
  datatype TradeStatus = CANCELED | EXPIRED | FILLED | NEW | PARTIALLY_FILLED | PENDING_CANCEL | REJECTED

  datatype Side = Buy | Sell

  /** `TradeBaseQuoteAmount`: signed amounts of the base and quote coins. */
  datatype BaseQuoteAmount = BaseQuoteAmount(base: real, quote: real)

  /** `TradeFromToAmount`. */
  datatype FromToAmount = FromToAmount(from: real, to: real, price: real)

  /** `TradeUpdateProps`: an order report from the exchange. */
  datatype TradeUpdate = TradeUpdate(id: int, status: TradeStatus, amount: BaseQuoteAmount, price: real)

  /** The operation handler a trade notifies: the first leg through the bridge, or a last leg spending `fromAsset`. */
  datatype Callback = FirstLegFilled | LastLegFilled(fromAsset: Asset)

  /** `Silent`: the callback is not called; `Notified(a)`: it is called with `a` (`None` is no argument). */
  datatype Notification = Silent | Notified(amount: Option<FromToAmount>)

  /** Side, base and quote of a trade, as the constructor derives them. */
  datatype Orientation = Orientation(side: Side, base: Option<Coin>, quote: Option<Coin>, isDirectPair: bool)

  /**
   * The constructor's case split: from the bridge is a BUY of `to`; to the
   * bridge a SELL of `from`; otherwise the registered pair `info` (the
   * `pairInfo` of `from`, `None` when absent) decides, SELL when `from` is its base.
   */
  function Orient(from: Coin, to: Coin, info: Option<Market>): Orientation {
    if from.IsBridge() then Orientation(Buy, Some(to), Some(from), false)
    else if to.IsBridge() then Orientation(Sell, Some(from), Some(to), false)
    else
      var base := if info.Some? then Some(info.value.base) else None;
      var quote := if info.Some? then Some(info.value.quote) else None;
      Orientation(if base == Some(from) then Sell else Buy, base, quote, true)
  }

  /**
   * When the pair is known (one side is the bridge, or the registered market
   * is made of the two coins), base and quote are the two coins and the
   * trade SELLs exactly when it spends the base.
   */
  lemma OrientCoversPair(from: Coin, to: Coin, info: Option<Market>)
    requires from != to
    requires from.Alt? && to.Alt? ==> info.Some? && {info.value.base, info.value.quote} == {from, to}
    ensures var o := Orient(from, to, info);
            && o.base.Some? && o.quote.Some?
            && {o.base.value, o.quote.value} == {from, to}
            && (o.side == Sell <==> o.base.value == from)
            && (o.side == Buy <==> o.base.value == to)
            && (o.isDirectPair <==> from.Alt? && to.Alt?)
  {
    var o := Orient(from, to, info);
    if from.Alt? && to.Alt? {
      assert info.value.base in {from, to} && info.value.quote in {from, to};
      assert info.value.base != info.value.quote by {
        assert from in {info.value.base, info.value.quote};
        assert to in {info.value.base, info.value.quote};
      }
    }
  }

  /**
   * `tradeAmountBQtoFT`: the `from` amount is the base amount when `from` is
   * the base, else the quote amount; the `to` amount is the quote amount when
   * `to` is the quote, else the base amount.
   */
  function BaseQuoteToFromTo(from: Coin, to: Coin, base: Option<Coin>, quote: Option<Coin>,
                             a: BaseQuoteAmount, price: real): FromToAmount {
    FromToAmount(if base == Some(from) then a.base else a.quote,
                 if quote == Some(to) then a.quote else a.base,
                 price)
  }

  /** On a known pair, each side of the conversion is the amount of that side's own coin. */
  lemma FromToFollowsCoins(from: Coin, to: Coin, info: Option<Market>, a: BaseQuoteAmount, price: real)
    requires from != to
    requires from.Alt? && to.Alt? ==> info.Some? && {info.value.base, info.value.quote} == {from, to}
    ensures var o := Orient(from, to, info);
            var r := BaseQuoteToFromTo(from, to, o.base, o.quote, a, price);
            && r.from == (if o.base == Some(from) then a.base else a.quote)
            && r.to == (if o.base == Some(to) then a.base else a.quote)
            && r.price == price
  {
    OrientCoversPair(from, to, info);
  }

  /**
   * The expectations of the operation tests: selling 10 ADA for 20 of the
   * bridge, and buying 20 ADA with 10 of the bridge, both read as -10 spent
   * and 20 received.
   */
  lemma FromToMatchesFills(ada: AltCoin, bridge: string)
    ensures var o := Orient(Alt(ada), Bridge(bridge), None);
            BaseQuoteToFromTo(Alt(ada), Bridge(bridge), o.base, o.quote, BaseQuoteAmount(-10.0, 20.0), 2.0)
              == FromToAmount(-10.0, 20.0, 2.0)
    ensures var o := Orient(Bridge(bridge), Alt(ada), None);
            BaseQuoteToFromTo(Bridge(bridge), Alt(ada), o.base, o.quote, BaseQuoteAmount(20.0, -10.0), 0.5)
              == FromToAmount(-10.0, 20.0, 0.5)
  {
  }

  /**
   * `handleStatus`: a FILLED order calls the callback once with the
   * converted amounts, a PARTIALLY_FILLED one calls it with nothing, any
   * other status does not call it.
   */
  function HandleStatus(status: TradeStatus, converted: FromToAmount): (n: Notification)
    ensures n == Notified(Some(converted)) <==> status == FILLED
    ensures n == Notified(None) <==> status == PARTIALLY_FILLED
    ensures n == Silent <==> status !in {FILLED, PARTIALLY_FILLED}
  {
    match status
    case FILLED => Notified(Some(converted))
    case PARTIALLY_FILLED => Notified(None)
    case _ => Silent
  }

  class Trade {
    const from: Coin
    const to: Coin
    const amount: real
    const side: Side
    const base: Option<Coin>
    const quote: Option<Coin>
    const isDirectPair: bool
    const onFilled: Callback
    var status: Option<TradeStatus>
    var id: Option<int>
    var executedAmount: BaseQuoteAmount
    var executedPrice: Option<real>

    /** Side, base and quote are those `Orient` derives from the coins and `from`'s current pair. */
    ghost predicate Oriented()
      reads if from.Alt? then {from.alt} else {}
    {
      Orientation(side, base, quote, isDirectPair)
        == Orient(from, to, if from.Alt? then from.alt.PairInfo(to) else None)
    }

    /**
     * `new Trade(from, to, amount, onFilled)`: side, base and quote follow
     * `Orient`, reading `from`'s registered pair when neither coin is the bridge.
     */
    constructor (from: Coin, to: Coin, amount: real, onFilled: Callback)
      ensures this.from == from && this.to == to && this.amount == amount && this.onFilled == onFilled
      ensures Oriented()
      ensures status == None && id == None && executedPrice == None
      ensures executedAmount == BaseQuoteAmount(0.0, 0.0)
    {
      this.from := from;
      this.to := to;
      this.amount := amount;
      this.onFilled := onFilled;
      var o := Orient(from, to, if from.Alt? then from.alt.PairInfo(to) else None);
      side, base, quote, isDirectPair := o.side, o.base, o.quote, o.isDirectPair;
      status, id, executedPrice := None, None, None;
      executedAmount := BaseQuoteAmount(0.0, 0.0);
    }

    /** `marketName`: base code then quote code; `None` when there is no pair (the source throws). */
    function MarketName(): (r: Option<string>)
      ensures r.Some? <==> base.Some? && quote.Some?
      ensures r.Some? ==> r.value == base.value.Code() + quote.value.Code()
    {
      if base.Some? && quote.Some? then Some(base.value.Code() + quote.value.Code()) else None
    }

    /** `updateAfterInit`: records the report, including the order id, then handles the status. */
    method UpdateAfterInit(u: TradeUpdate) returns (n: Notification)
      modifies this`executedAmount, this`executedPrice, this`id, this`status
      ensures executedAmount == u.amount && executedPrice == Some(u.price)
      ensures status == Some(u.status) && id == Some(u.id)
      ensures n == HandleStatus(u.status, BaseQuoteToFromTo(from, to, base, quote, u.amount, u.price))
    {
      executedAmount := u.amount;
      executedPrice := Some(u.price);
      id := Some(u.id);
      status := Some(u.status);
      n := HandleStatus(u.status, BaseQuoteToFromTo(from, to, base, quote, executedAmount, u.price));
    }

    /** `update`: records the report but keeps the order id, then handles the status. */
    method Update(u: TradeUpdate) returns (n: Notification)
      modifies this`executedAmount, this`executedPrice, this`status
      ensures executedAmount == u.amount && executedPrice == Some(u.price)
      ensures status == Some(u.status) && id == old(id)
      ensures n == HandleStatus(u.status, BaseQuoteToFromTo(from, to, base, quote, u.amount, u.price))
    {
      executedAmount := u.amount;
      executedPrice := Some(u.price);
      status := Some(u.status);
      n := HandleStatus(u.status, BaseQuoteToFromTo(from, to, base, quote, executedAmount, u.price));
    }
  }
}
