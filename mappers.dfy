/**
 * The exchange-to-domain mappers: src/broker/binance.orm-mapper.ts,
 * src/binance/binance.orm-mapper.ts and utils.ts. The three price folds
 * (`pricesListToDict` twice, `pricesListToObj`) have the same body and are
 * modelled once, as `PricesListToDict`.
 */
module Mappers {
  import opened Wrappers
  import opened Dicts
  import opened Strings
  import opened Trades

  /** `BinanceSymbolPrice`: prices stay the exchange's strings. */
  datatype SymbolPrice = SymbolPrice(symbol: string, price: string)

  function PriceEntries(prices: seq<SymbolPrice>): (es: seq<Entry<string>>)
    ensures |es| == |prices|
    ensures forall i :: 0 <= i < |prices| ==> es[i] == Entry(prices[i].symbol, prices[i].price)
  {
    seq(|prices|, i requires 0 <= i < |prices| => Entry(prices[i].symbol, prices[i].price))
  }

  /** `reduce((cur, acc) => ({ ...cur, [acc.symbol]: acc.price }), {})`. */
  function PricesListToDict(prices: seq<SymbolPrice>): Dict<string> {
    FromEntries(PriceEntries(prices))
  }

  /** The keys are exactly the listed symbols, each once. */
  lemma PricesKeys(prices: seq<SymbolPrice>)
    ensures DistinctKeys(PricesListToDict(prices))
    ensures ToMap(PricesListToDict(prices)).Keys == set p | p in prices :: p.symbol
  {
    var es := PriceEntries(prices);
    FromEntriesKeys(es);
    var symbols := set p | p in prices :: p.symbol;
    var keys := set e | e in es :: e.key;
    assert keys == symbols by {
      forall k | k in symbols ensures k in keys {
        var p :| p in prices && p.symbol == k;
        var i :| 0 <= i < |prices| && prices[i] == p;
        assert es[i] in es;
      }
    }
  }

  /** A repeated symbol holds the price of its last entry, unmodified. */
  lemma PricesLastWins(prices: seq<SymbolPrice>, i: nat)
    requires i < |prices| && forall j :: i < j < |prices| ==> prices[j].symbol != prices[i].symbol
    ensures prices[i].symbol in ToMap(PricesListToDict(prices))
    ensures ToMap(PricesListToDict(prices))[prices[i].symbol] == prices[i].price
  {
    FromEntriesLast(PriceEntries(prices), i);
  }

  /** An empty list gives an empty dictionary, and only an empty list does. */
  lemma PricesEmpty(prices: seq<SymbolPrice>)
    ensures PricesListToDict(prices) == [] <==> prices == []
  {
    FromEntriesEmpty(PriceEntries(prices));
  }

  // ------------------------------------------------------------ order status

  /** `statusToEnum`: the same-named status, `undefined` for any other string. */
  function StatusToEnum(s: string): Option<TradeStatus> {
    match s
    case "CANCELED" => Some(CANCELED)
    case "EXPIRED" => Some(EXPIRED)
    case "FILLED" => Some(FILLED)
    case "NEW" => Some(NEW)
    case "PARTIALLY_FILLED" => Some(PARTIALLY_FILLED)
    case "PENDING_CANCEL" => Some(PENDING_CANCEL)
    case "REJECTED" => Some(REJECTED)
    case _ => None
  }

  /** The exchange's name of a status. */
  function StatusName(t: TradeStatus): string {
    match t
    case CANCELED => "CANCELED"
    case EXPIRED => "EXPIRED"
    case FILLED => "FILLED"
    case NEW => "NEW"
    case PARTIALLY_FILLED => "PARTIALLY_FILLED"
    case PENDING_CANCEL => "PENDING_CANCEL"
    case REJECTED => "REJECTED"
  }

  /**
   * Each of the seven names maps to its status, and a string maps to a
   * status only if it is that status's name: the mapping is injective and
   * undefined elsewhere.
   */
  lemma StatusRoundTrip(t: TradeStatus, s: string)
    ensures StatusToEnum(StatusName(t)) == Some(t)
    ensures StatusToEnum(s) == Some(t) <==> s == StatusName(t)
  {
  }

  // --------------------------------------------------------------- precision

  /**
   * `stepToPrecision`: for a step starting with '1', one minus the position
   * of '.'; otherwise the position of the first '1' minus one.
   */
  function StepToPrecision(step: string): int {
    var one := IndexOf(step, '1');
    if one == 0 then 1 - IndexOf(step, '.') else one - 1
  }

  function Zeros(n: nat): (z: string)
    ensures |z| == n && forall i :: 0 <= i < n ==> z[i] == '0'
  {
    seq(n, _ => '0')
  }

  /** A step `0.0…01…` with `k` zeros after the point has precision `k + 1`: it is `10 ** -(k + 1)`. */
  lemma {:induction false} StepBelowOne(k: nat, tail: string)
    ensures StepToPrecision("0." + Zeros(k) + "1" + tail) == k + 1
  {
    var s := "0." + Zeros(k) + "1" + tail;
    assert s[0] == '0' && s[1] == '.' && s[k + 2] == '1';
    assert forall j :: 0 <= j < k + 2 ==> s[j] != '1' by {
      forall j | 2 <= j < k + 2 ensures s[j] != '1' {
        assert s[j] == Zeros(k)[j - 2];
      }
    }
  }

  /** A step `10…0.…` with `k` zeros before the point has precision `-k`: it is `10 ** k`. */
  lemma {:induction false} StepAtLeastOne(k: nat, tail: string)
    ensures StepToPrecision("1" + Zeros(k) + "." + tail) == -(k as int)
  {
    var s := "1" + Zeros(k) + "." + tail;
    assert s[0] == '1' && s[k + 1] == '.';
    assert forall j :: 0 <= j < k + 1 ==> s[j] != '.' by {
      forall j | 1 <= j < k + 1 ensures s[j] != '.' {
        assert s[j] == Zeros(k)[j - 1];
      }
    }
  }

  /** The exchange's usual steps, and the edge cases: no '1' gives -2, "1" without a point gives 2. */
  lemma StepExamples()
    ensures StepToPrecision("1.00000000") == 0
    ensures StepToPrecision("10.00") == -1
    ensures StepToPrecision("0.01000000") == 2
    ensures StepToPrecision("0.1") == 1
    ensures StepToPrecision("0.000") == -2
    ensures StepToPrecision("1") == 2
  {
    StepAtLeastOne(0, "00000000");
    assert "1.00000000" == "1" + Zeros(0) + "." + "00000000";
    StepAtLeastOne(1, "00");
    assert "10.00" == "1" + Zeros(1) + "." + "00";
    StepBelowOne(1, "000000");
    assert "0.01000000" == "0." + Zeros(1) + "1" + "000000";
    StepBelowOne(0, "");
    assert "0.1" == "0." + Zeros(0) + "1" + "";
    assert IndexOf("0.000", '1') == -1;
    assert IndexOf("1", '.') == -1;
  }

  // ------------------------------------------------------------------ klines

  /**
   * The fields of a `BinanceCandlestick` event that `prettifyKlines` reads:
   * the event time `E`, the symbol `s` and the kline's open, close, high and
   * low. The event's other fields are not modelled.
   */
  datatype KlineData = KlineData(o: string, c: string, h: string, l: string)
  datatype BinanceCandlestick = BinanceCandlestick(E: int, s: string, k: KlineData)

  /** The candlestick of src/binance/binance.orm-mapper.ts, prices left as strings. */
  datatype RawCandlestick = RawCandlestick(timestamp: int, coin: string, open: string, close: string, high: string, low: string)

  /** `prettifyKlines` (src/binance/binance.orm-mapper.ts): `E`, `s`, `k.o`, `k.c`, `k.h`, `k.l` become timestamp, coin, open, close, high, low, unparsed. */
  function PrettifyKlines(e: BinanceCandlestick): RawCandlestick {
    RawCandlestick(e.E, e.s, e.k.o, e.k.c, e.k.h, e.k.l)
  }

  /** The event a candlestick was copied from. */
  function KlineOf(c: RawCandlestick): BinanceCandlestick {
    BinanceCandlestick(c.timestamp, c.coin, KlineData(c.open, c.close, c.high, c.low))
  }

  /** Of the six fields it reads, `prettifyKlines` loses or alters none: on them the copy and `KlineOf` are inverse. */
  lemma PrettifyKlinesRoundTrip(e: BinanceCandlestick, c: RawCandlestick)
    ensures KlineOf(PrettifyKlines(e)) == e
    ensures PrettifyKlines(KlineOf(c)) == c
  {
  }
}
