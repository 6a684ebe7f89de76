/**
 * Coins (src/trade/domain/coin.entity.ts): the bridge coin, a constant value,
 * and alt coins, objects whose market data, exchange filters and pair
 * dictionary are updated in place. Coins are compared by identity: two `Alt`
 * values are equal exactly when they hold the same object.
 */
module Coins {
  import opened Wrappers
  import opened Dicts

  /** `CoinValueFilter`: bounds and decimal precision of a price or a quantity. */
  datatype ValueFilter = ValueFilter(min: real, max: real, precision: int)

  /** `AltCoinUpdateFiltersProps`. */
  datatype Filters = Filters(price: ValueFilter, quantity: ValueFilter)

  /** A coin: the `Bridge` (settlement coin) or an `AltCoin`. */
  datatype Coin = Bridge(bridgeCode: string) | Alt(alt: AltCoin) {
    function Code(): string {
      if Bridge? then bridgeCode else alt.code
    }

    predicate IsBridge() {
      Bridge?
    }

    /** `valuation`; `None` is an alt coin's `undefined` before its first market update. */
    function Valuation(): Option<real>
      reads if Alt? then {alt} else {}
    {
      if Bridge? then Some(1.0) else alt.valuation
    }

    function Trending(): Option<real>
      reads if Alt? then {alt} else {}
    {
      if Bridge? then Some(0.0) else alt.trending
    }
  }

  /** The market of a pair: which coin is the base and which the quote. */
  datatype Market = Market(base: Coin, quote: Coin)

  /** One element of `allPairs()`: `{ code, base, quote }`. */
  datatype PairEntry = PairEntry(code: string, base: Coin, quote: Coin)

  /** Why `checkQuantity` throws. `NoFilters`: the filters were never set (a TypeError). */
  datatype QuantityError = NoFilters | TooSmall | TooLarge

  /** The bridge is a bridge, valued 1 and not trending, whatever its code. */
  lemma BridgeConstants(code: string)
    ensures Bridge(code).IsBridge()
    ensures Bridge(code).Valuation() == Some(1.0) && Bridge(code).Trending() == Some(0.0)
  {
  }

  // ------------------------------------------------------- decimal truncation

  function Exp10(n: nat): (r: nat)
    ensures r > 0
  {
    if n == 0 then 1 else 10 * Exp10(n - 1)
  }

  /** `10 ** p` for an integer (possibly negative) precision `p`. */
  function Pow10(p: int): (r: real)
    ensures r > 0.0
  {
    if p >= 0 then Exp10(p) as real else 1.0 / Exp10(-p) as real
  }

  /** `Math.floor(q * f) / f`. */
  function TruncateBy(q: real, f: real): real
    requires f > 0.0
  {
    (q * f).Floor as real / f
  }

  /** `Math.floor(q * 10 ** p) / 10 ** p`: `q` truncated down to `p` decimals. */
  function Truncate(q: real, p: int): real {
    TruncateBy(q, Pow10(p))
  }

  /**
   * Truncation never rounds up, loses less than one step `10 ** -p`, and lands
   * on a whole number of steps.
   */
  lemma TruncateSpec(q: real, p: int)
    ensures Truncate(q, p) <= q
    ensures q - Truncate(q, p) < 1.0 / Pow10(p)
    ensures Truncate(q, p) * Pow10(p) == (q * Pow10(p)).Floor as real
  {
    TruncateByFacts(q, Pow10(p));
  }

  lemma TruncateByFacts(q: real, f: real)
    requires f > 0.0
    ensures TruncateBy(q, f) <= q
    ensures q - TruncateBy(q, f) < 1.0 / f
    ensures TruncateBy(q, f) * f == (q * f).Floor as real
  {
    var x := q * f;
    var k := x.Floor as real;
    FloorFacts(x);
    assert TruncateBy(q, f) == k / f;
    DivMul(q, f);
    DivMono(k, x, f);
    DivSub(x, k, f);
    DivStrict(x - k, 1.0, f);
    DivMul(k, f);
  }

  /**
   * When the minimum quantity is itself a whole number of precision steps, a
   * quantity that passes the checks is never truncated below the minimum.
   */
  lemma TruncatedAboveMinimum(f: ValueFilter, q: real)
    requires (f.min * Pow10(f.precision)).Floor as real == f.min * Pow10(f.precision)
    requires f.min <= q
    ensures f.min <= Truncate(q, f.precision)
  {
    TruncateByAboveMinimum(q, Pow10(f.precision), f.min);
  }

  lemma TruncateByAboveMinimum(q: real, p: real, min: real)
    requires p > 0.0 && (min * p).Floor as real == min * p && min <= q
    ensures min <= TruncateBy(q, p)
  {
    var m := min * p;
    var x := q * p;
    var k := x.Floor as real;
    assert TruncateBy(q, p) == k / p;
    MulMono(min, q, p);
    FloorFacts(x);
    var mi, ki := m.Floor, x.Floor;
    assert m == mi as real && k == ki as real;
    assert mi as real < ki as real + 1.0;
    assert mi <= ki;
    DivMono(m, k, p);
    DivMul(min, p);
  }

  /**
   * Otherwise the truncated quantity can fall below the minimum: with a
   * minimum of 0.015 and two decimals, 0.019 passes and becomes 0.01.
   */
  lemma TruncatedBelowMinimum()
    ensures var f := ValueFilter(0.015, 0.0, 2);
            f.min <= 0.019 && Truncate(0.019, f.precision) == 0.01 < f.min
  {
    assert Exp10(2) == 100;
    assert Truncate(0.019, 2) == TruncateBy(0.019, 100.0);
    assert (0.019 * 100.0).Floor == 1;
  }

  lemma FloorFacts(x: real)
    ensures x.Floor as real <= x < x.Floor as real + 1.0
  {
  }

  lemma DivMul(a: real, f: real)
    requires f > 0.0
    ensures (a / f) * f == a && (a * f) / f == a
  {
  }

  lemma DivMono(a: real, b: real, f: real)
    requires f > 0.0 && a <= b
    ensures a / f <= b / f
  {
  }

  lemma DivStrict(a: real, b: real, f: real)
    requires f > 0.0 && a < b
    ensures a / f < b / f
  {
  }

  lemma DivSub(a: real, b: real, f: real)
    requires f > 0.0
    ensures a / f - b / f == (a - b) / f
  {
  }

  lemma MulMono(a: real, b: real, p: real)
    requires a <= b && p > 0.0
    ensures a * p <= b * p
  {
  }

  // ------------------------------------------------------------------ AltCoin

  /** An alt coin: market data, exchange filters and its pair dictionary. */
  class AltCoin {
    const code: string
    var trending: Option<real>
    var valuation: Option<real>
    var priceFilter: Option<ValueFilter>
    var quantityFilter: Option<ValueFilter>
    /** `pairMarketName`: for a coin code, the market this coin shares with that coin. */
    var pairs: Dict<Market>

    ghost predicate Valid()
      reads this
    {
      DistinctKeys(pairs)
    }

    /** The pair dictionary as a map from coin code to market. */
    function PairMap(): map<string, Market>
      reads this
    {
      ToMap(pairs)
    }

    constructor (code: string)
      ensures Valid() && this.code == code
      ensures trending == None && valuation == None
      ensures priceFilter == None && quantityFilter == None
      ensures pairs == []
    {
      this.code := code;
      trending, valuation := None, None;
      priceFilter, quantityFilter := None, None;
      pairs := [];
    }

    /** `addPair`: records (or overwrites) the market shared with `coin`; only this coin changes. */
    method AddPair(coin: Coin, market: Market)
      requires Valid()
      modifies this`pairs
      ensures Valid()
      ensures PairMap() == old(PairMap())[coin.Code() := market]
      ensures Keys(pairs) == if coin.Code() in Keys(old(pairs)) then Keys(old(pairs)) else Keys(old(pairs)) + [coin.Code()]
    {
      PutSpec(pairs, coin.Code(), market);
      PutKeys(pairs, coin.Code(), market);
      pairs := Put(pairs, coin.Code(), market);
    }

    /** `hasPair`: a market is registered under the coin's code. */
    function HasPair(coin: Coin): (r: bool)
      reads this
      ensures r <==> coin.Code() in PairMap()
    {
      GetIsToMap(pairs, coin.Code());
      Get(pairs, coin.Code()).Some?
    }

    /** `pairInfo`: a copy of the registered market; `None` is the empty record `{}`. */
    function PairInfo(coin: Coin): (r: Option<Market>)
      reads this
      ensures r.Some? <==> HasPair(coin)
      ensures r.Some? ==> r.value == PairMap()[coin.Code()]
    {
      GetIsToMap(pairs, coin.Code());
      Get(pairs, coin.Code())
    }

    /** `allPairs`: one `{ code, base, quote }` per registered code, in insertion order. */
    function AllPairs(): (r: seq<PairEntry>)
      requires Valid()
      reads this
      ensures |r| == |PairMap()|
      ensures forall i :: 0 <= i < |r| ==> r[i].code in PairMap() && PairMap()[r[i].code] == Market(r[i].base, r[i].quote)
      ensures forall i, j :: 0 <= i < j < |r| ==> r[i].code != r[j].code
      ensures forall c :: c in PairMap() ==> exists i :: 0 <= i < |r| && r[i].code == c
    {
      DistinctCard(pairs);
      ToMapKeys(pairs);
      var ps := pairs;
      var r := seq(|ps|, i requires 0 <= i < |ps| => PairEntry(ps[i].key, ps[i].value.base, ps[i].value.quote));
      forall i | 0 <= i < |r|
        ensures r[i].code in PairMap() && PairMap()[r[i].code] == Market(r[i].base, r[i].quote)
      {
        ToMapAt(pairs, i);
      }
      forall c | c in PairMap() ensures exists i :: 0 <= i < |r| && r[i].code == c {
        var e :| e in pairs && e.key == c;
        var i :| 0 <= i < |pairs| && pairs[i] == e;
        assert r[i].code == c;
      }
      r
    }

    /** `updateFilters`: replaces both filters. */
    method UpdateFilters(filters: Filters)
      modifies this`priceFilter, this`quantityFilter
      ensures priceFilter == Some(filters.price) && quantityFilter == Some(filters.quantity)
    {
      priceFilter := Some(filters.price);
      quantityFilter := Some(filters.quantity);
    }

    /**
     * `checkQuantity`: throws below the minimum, and above the maximum when the
     * maximum is positive (0 means unbounded); otherwise truncates to the
     * quantity precision. The truncated value is not checked again.
     */
    function CheckQuantity(q: real): (r: Result<real, QuantityError>)
      reads this
      ensures quantityFilter.None? ==> r == Failure(NoFilters)
      ensures quantityFilter.Some? ==>
        var f := quantityFilter.value;
        && (r == Failure(TooSmall) <==> q < f.min)
        && (r == Failure(TooLarge) <==> f.min <= q && f.max > 0.0 && q > f.max)
        && (f.min <= q && !(f.max > 0.0 && q > f.max) ==> r.Success?)
        && (r.Success? ==> r.value == Truncate(q, f.precision)
                           && r.value <= q && q - r.value < 1.0 / Pow10(f.precision)
                           && (f.max > 0.0 ==> r.value <= f.max))
    {
      match quantityFilter
      case None => Failure(NoFilters)
      case Some(f) =>
        if q < f.min then Failure(TooSmall)
        else if q > f.max && f.max > 0.0 then Failure(TooLarge)
        else
          TruncateSpec(q, f.precision);
          Success(Truncate(q, f.precision))
    }

    /** `updateMarket`: sets both the trend and the valuation. */
    method UpdateMarket(trending: real, valuation: real)
      modifies this`trending, this`valuation
      ensures this.trending == Some(trending) && this.valuation == Some(valuation)
    {
      this.trending := Some(trending);
      this.valuation := Some(valuation);
    }

    /** `ratio`: this valuation over `coin`'s; `None` when the quotient is not a finite number. */
    function Ratio(coin: AltCoin): (r: Option<real>)
      reads this, coin
      ensures r.Some? <==> valuation.Some? && coin.valuation.Some? && coin.valuation.value != 0.0
      ensures r.Some? ==> r.value * coin.valuation.value == valuation.value
    {
      if valuation.Some? && coin.valuation.Some? && coin.valuation.value != 0.0
      then Some(valuation.value / coin.valuation.value)
      else None
    }
  }
}
