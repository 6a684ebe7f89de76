/**
 * Operations (src/trade/domain/operation.entity.ts): converting part of an
 * asset into a target coin, directly when the two coins share a market,
 * otherwise through the bridge, crediting asset balances as the legs fill.
 *
 * The trades' fill callbacks are the `Callback` each trade stores; `OnFilled`
 * runs the handler it names. A handler's `onTrade(trade)` call is the trade it
 * returns, and its `onFinish(this, targetBalance)` call the balance it returns.
 */
module Operations {
  import opened Wrappers
  import opened Coins
  import opened Assets
  import opened Trades

  /** The share of the balance an operation trades, by expected ratio growth. */
  function AmountFactor(ratioGrowth: real): (f: real)
    ensures f == 0.25 <==> ratioGrowth <= 1.15
    ensures f == 0.35 <==> 1.15 < ratioGrowth <= 1.3
    ensures f == 0.5 <==> 1.3 < ratioGrowth
  {
    var f := 0.25;
    var f := if ratioGrowth > 1.15 then 0.35 else f;
    if ratioGrowth > 1.3 then 0.5 else f
  }

  /** `computeAmount`: the balance times the factor; never more than half a non-negative balance. */
  function ComputeAmount(balance: real, ratioGrowth: real): (r: real)
    ensures balance >= 0.0 ==> 0.0 <= r <= balance / 2.0
    ensures r == balance * AmountFactor(ratioGrowth)
  {
    balance * AmountFactor(ratioGrowth)
  }

  /** A larger expected growth never trades less of a non-negative balance. */
  lemma ComputeAmountMonotone(balance: real, g1: real, g2: real)
    requires balance >= 0.0 && g1 <= g2
    ensures ComputeAmount(balance, g1) <= ComputeAmount(balance, g2)
  {
    assert AmountFactor(g1) <= AmountFactor(g2);
    MulMono(AmountFactor(g1), AmountFactor(g2), balance);
  }

  lemma MulMono(a: real, b: real, c: real)
    requires a <= b && c >= 0.0
    ensures c * a <= c * b
  {
  }

  class Operation {
    const asset: Asset
    const target: AltCoin
    const bridgeAsset: Option<Asset>
    const amount: real
    var firstTrade: Option<Trade>
    var secondTrade: Option<Trade>

    /** `new Operation(props)`: the amount is fixed from the asset's balance at construction. */
    constructor (asset: Asset, target: AltCoin, bridgeAsset: Option<Asset>, ratioGrowth: real)
      ensures this.asset == asset && this.target == target && this.bridgeAsset == bridgeAsset
      ensures amount == ComputeAmount(asset.balance, ratioGrowth)
      ensures firstTrade == None && secondTrade == None
    {
      this.asset := asset;
      this.target := target;
      this.bridgeAsset := bridgeAsset;
      this.amount := ComputeAmount(asset.balance, ratioGrowth);
      firstTrade, secondTrade := None, None;
    }

    /** `assetCode`. */
    function AssetCode(): string {
      asset.coin.Code()
    }

    /**
     * `start`: a direct trade to the target when the asset pairs with it,
     * otherwise a first leg to the bridge coin; the new trade is emitted
     * through `onTrade`. Without a bridge asset the second case throws.
     */
    method Start() returns (r: Result<Trade, string>)
      modifies this`firstTrade
      ensures r.Success? ==> fresh(r.value) && firstTrade == Some(r.value)
      ensures r.Success? ==> r.value.from == asset.coin && r.value.amount == amount && r.value.Oriented()
      ensures asset.PairWith(target) ==>
                r.Success? && r.value.to == Alt(target) && r.value.onFilled == LastLegFilled(asset)
      ensures !asset.PairWith(target) && bridgeAsset.Some? ==>
                r.Success? && r.value.to == bridgeAsset.value.coin && r.value.onFilled == FirstLegFilled
      ensures !asset.PairWith(target) && bridgeAsset.None? ==> r.Failure? && firstTrade == old(firstTrade)
    {
      if asset.PairWith(target) {
        var t := new Trade(asset.coin, Alt(target), amount, LastLegFilled(asset));
        firstTrade := Some(t);
        return Success(t);
      } else if bridgeAsset.Some? {
        var t := new Trade(asset.coin, bridgeAsset.value.coin, amount, FirstLegFilled);
        firstTrade := Some(t);
        return Success(t);
      } else {
        return Failure("bridgeAsset is undefined");
      }
    }

    /**
     * `handleFirstTradeFilled`: credits the fill to the asset (`from`) and to
     * the bridge asset (`to`), then emits the second leg, from the bridge to
     * the target, spending the bridge asset's whole credited balance. A call
     * without amounts (a partial fill) does nothing.
     */
    method HandleFirstTradeFilled(a: Option<FromToAmount>) returns (next: Option<Trade>)
      requires bridgeAsset.Some?
      modifies asset, bridgeAsset.value, this`secondTrade
      ensures a.None? ==> next.None? && secondTrade == old(secondTrade)
      ensures a.None? ==> asset.balance == old(asset.balance) && bridgeAsset.value.balance == old(bridgeAsset.value.balance)
      ensures a.Some? && asset != bridgeAsset.value ==>
                asset.balance == old(asset.balance) + a.value.from
                && bridgeAsset.value.balance == old(bridgeAsset.value.balance) + a.value.to
      ensures a.Some? && asset == bridgeAsset.value ==>
                asset.balance == old(asset.balance) + a.value.from + a.value.to
      ensures a.Some? ==> next.Some? && fresh(next.value) && secondTrade == next
      ensures a.Some? ==> next.value.from == bridgeAsset.value.coin && next.value.to == Alt(target) && next.value.Oriented()
                          && next.value.amount == bridgeAsset.value.balance
                          && next.value.onFilled == LastLegFilled(bridgeAsset.value)
    {
      if a.None? {
        return None;
      }
      var b := bridgeAsset.value;
      asset.balance := asset.balance + a.value.from;
      b.balance := b.balance + a.value.to;
      var t := new Trade(b.coin, Alt(target), b.balance, LastLegFilled(b));
      secondTrade := Some(t);
      return Some(t);
    }

    /**
     * The handler `handleLastTrade(fromAsset)` returns: credits `from` to the
     * spent asset and finishes with the received amount `to`. A call without
     * amounts does nothing.
     */
    method HandleLastTrade(fromAsset: Asset, a: Option<FromToAmount>) returns (finished: Option<real>)
      modifies fromAsset
      ensures a.None? ==> finished.None? && fromAsset.balance == old(fromAsset.balance)
      ensures a.Some? ==> finished == Some(a.value.to) && fromAsset.balance == old(fromAsset.balance) + a.value.from
    {
      if a.None? {
        return None;
      }
      fromAsset.balance := fromAsset.balance + a.value.from;
      return Some(a.value.to);
    }

    /**
     * Runs the handler a trade was built with on what its update reported:
     * nothing for a silent update, otherwise the first-leg or last-leg handler.
     */
    method OnFilled(cb: Callback, n: Notification) returns (next: Option<Trade>, finished: Option<real>)
      requires cb.FirstLegFilled? ==> bridgeAsset.Some?
      modifies asset, if bridgeAsset.Some? then {bridgeAsset.value} else {}, this`secondTrade
      modifies if cb.LastLegFilled? then {cb.fromAsset} else {}
      ensures n == Silent || n == Notified(None) ==> next.None? && finished.None?
      ensures n == Silent || n == Notified(None) ==>
                asset.balance == old(asset.balance) && secondTrade == old(secondTrade)
                && (bridgeAsset.Some? ==> bridgeAsset.value.balance == old(bridgeAsset.value.balance))
                && (cb.LastLegFilled? ==> cb.fromAsset.balance == old(cb.fromAsset.balance))
      ensures cb.FirstLegFilled? ==> finished.None?
      ensures cb.LastLegFilled? ==> next.None? && secondTrade == old(secondTrade)
      ensures cb.LastLegFilled? && n.Notified? && n.amount.Some? ==>
                finished == Some(n.amount.value.to)
                && cb.fromAsset.balance == old(cb.fromAsset.balance) + n.amount.value.from
      ensures cb.LastLegFilled? && asset != cb.fromAsset ==> asset.balance == old(asset.balance)
      ensures cb.LastLegFilled? && bridgeAsset.Some? && bridgeAsset.value != cb.fromAsset ==>
                bridgeAsset.value.balance == old(bridgeAsset.value.balance)
      ensures cb.FirstLegFilled? && n.Notified? && n.amount.Some? && asset != bridgeAsset.value ==>
                asset.balance == old(asset.balance) + n.amount.value.from
                && bridgeAsset.value.balance == old(bridgeAsset.value.balance) + n.amount.value.to
      ensures cb.FirstLegFilled? && n.Notified? && n.amount.Some? ==>
                next.Some? && fresh(next.value) && next.value.from == bridgeAsset.value.coin
                && next.value.to == Alt(target) && next.value.amount == bridgeAsset.value.balance && next.value.Oriented()
                && next.value.onFilled == LastLegFilled(bridgeAsset.value)
    {
      next, finished := None, None;
      if n.Silent? {
        return;
      }
      match cb
      case FirstLegFilled =>
        next := HandleFirstTradeFilled(n.amount);
      case LastLegFilled(fromAsset) =>
        finished := HandleLastTrade(fromAsset, n.amount);
    }
  }

  /** The market names of the scenarios below. */
  lemma ScenarioMarketNames()
    ensures "from" + "bridge" == "frombridge" && "to" + "bridge" == "tobridge"
    ensures "from" + "to" == "fromto" && "to" + "from" == "tofrom"
  {
  }

  /** A filled BUY of an alt coin with the bridge reads the quote amount as spent and the base amount as received. */
  lemma BridgeToAltFill(c: AltCoin, bridge: string, a: BaseQuoteAmount, price: real)
    ensures HandleStatus(FILLED, BaseQuoteToFromTo(Bridge(bridge), Alt(c), Some(Alt(c)), Some(Bridge(bridge)), a, price))
              == Notified(Some(FromToAmount(a.quote, a.base, price)))
  {
  }

  /**
   * The bridge scenario of the operation tests: 40 `from` trade 10 to the
   * bridge for 15, then the 15 bridge buy 20 `to`; the operation finishes
   * with 20, leaving 30 `from` and an empty bridge asset.
   */
  method BridgeScenario() returns (finished: Option<real>, fromBalance: real, bridgeBalance: real, trades: nat)
    ensures finished == Some(20.0) && fromBalance == 30.0 && bridgeBalance == 0.0 && trades == 2
  {
    var fromCoin := new AltCoin("from");
    var toCoin := new AltCoin("to");
    var bridge := new Asset(Bridge("bridge"), 0.0);
    var asset := new Asset(Alt(fromCoin), 40.0);
    var op := new Operation(asset, toCoin, Some(bridge), 1.0);
    var r := op.Start();
    assert !asset.PairWith(toCoin) by {
      assert fromCoin.PairMap() == map[];
    }
    var first := r.value;
    ScenarioMarketNames();
    assert first.from == Alt(fromCoin) && first.to == Bridge("bridge");
    assert first.base == Some(Alt(fromCoin)) && first.quote == Some(Bridge("bridge"));
    assert first.side == Sell && first.MarketName() == Some("frombridge") && first.amount == 10.0;
    var n := first.UpdateAfterInit(TradeUpdate(1, FILLED, BaseQuoteAmount(-10.0, 15.0), 1.0));
    assert n == Notified(Some(FromToAmount(-10.0, 15.0, 1.0)));
    assert first.onFilled == FirstLegFilled && asset != bridge;
    var next, done := op.OnFilled(first.onFilled, n);
    assert asset.balance == 30.0 && bridge.balance == 15.0;
    var second := next.value;
    assert second.from == Bridge("bridge") && second.to == Alt(toCoin);
    assert second.base == Some(Alt(toCoin)) && second.quote == Some(Bridge("bridge"));
    assert second.side == Buy && second.MarketName() == Some("tobridge") && second.amount == 15.0;
    n := second.UpdateAfterInit(TradeUpdate(2, FILLED, BaseQuoteAmount(20.0, -15.0), 1.0));
    assert n == Notified(Some(FromToAmount(-15.0, 20.0, 1.0))) by {
      BridgeToAltFill(toCoin, "bridge", BaseQuoteAmount(20.0, -15.0), 1.0);
    }
    assert second.onFilled == LastLegFilled(bridge);
    next, done := op.OnFilled(second.onFilled, n);
    assert asset.balance == 30.0 && bridge.balance == 0.0;
    return done, asset.balance, bridge.balance, 2;
  }

  /**
   * The direct-pair scenarios of the operation tests: `from` and `to` share
   * the market `fromto` (or `tofrom` when `inverse`); 40 `from` trade 10 in
   * one leg, a SELL (or BUY) reported as -10 `from` and 20 `to`, and the
   * operation finishes with 20, leaving 30 `from`.
   */
  method DirectScenario(inverse: bool) returns (finished: Option<real>, fromBalance: real, market: Option<string>, side: Side)
    ensures finished == Some(20.0) && fromBalance == 30.0
    ensures market == Some(if inverse then "tofrom" else "fromto")
    ensures side == if inverse then Buy else Sell
  {
    var fromCoin := new AltCoin("from");
    var toCoin := new AltCoin("to");
    var m, a;
    if inverse {
      m, a := Market(Alt(toCoin), Alt(fromCoin)), BaseQuoteAmount(20.0, -10.0);
    } else {
      m, a := Market(Alt(fromCoin), Alt(toCoin)), BaseQuoteAmount(-10.0, 20.0);
    }
    fromCoin.AddPair(Alt(toCoin), m);
    var bridge := new Asset(Bridge("bridge"), 0.0);
    var asset := new Asset(Alt(fromCoin), 40.0);
    var op := new Operation(asset, toCoin, Some(bridge), 1.0);
    var r := op.Start();
    var t := r.value;
    assert t.amount == 10.0 && t.isDirectPair;
    ScenarioMarketNames();
    var n := t.UpdateAfterInit(TradeUpdate(1, FILLED, a, 1.0));
    var next, done := op.OnFilled(t.onFilled, n);
    return done, asset.balance, t.MarketName(), t.side;
  }
}
