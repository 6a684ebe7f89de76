/**
 * `AccountantService` (src/trade/accountant/accountant.service.ts): the
 * fixed list of supported coins, their bridge markets, and the initial ratio
 * table, one copy per broker. Reading and writing the table file is left
 * out; `prices` stands for the exchange's price list.
 */
module Accountants {
  import opened Wrappers
  import opened Dicts
  import opened Strings
  import opened Mappers
  import opened RatioTables

  /** The supported coins, in the order they are listed. */
  const SupportedCoinList: seq<string> :=
    ["XLM", "TRX", "ICX", "EOS", "IOTA", "ONT", "ADA", "XMR", "DASH", "NEO", "ATOM", "VET", "BAT", "BTT", "ALGO"]

  /** The supported codes are pairwise distinct, so the table has one row per listed coin. */
  lemma SupportedCoinsDistinct()
    ensures |SupportedCoinList| == 15
    ensures forall i, j :: 0 <= i < j < |SupportedCoinList| ==> SupportedCoinList[i] != SupportedCoinList[j]
  {
    var l := SupportedCoinList;
    forall i, j | 0 <= i < j < |l| ensures l[i] != l[j] {
      if |l[i]| == |l[j]| {
        assert l[i][0] != l[j][0] || l[i][1] != l[j][1] || l[i][2] != l[j][2];
      }
    }
  }

  /** `[...Array(n)].map(_ => table)`: `n` references to the same table. */
  function Replicate<T>(table: T, n: nat): (r: seq<T>)
    ensures |r| == n
    ensures forall i :: 0 <= i < n ==> r[i] == table
  {
    if n == 0 then [] else Replicate(table, n - 1) + [table]
  }

  class Accountant {
    const brokerCount: nat
    const bridge: string
    var ratioCoinsTable: Option<seq<Dict<Dict<real>>>>

    constructor (brokerCount: nat, bridge: string)
      ensures this.brokerCount == brokerCount && this.bridge == bridge && ratioCoinsTable.None?
    {
      this.brokerCount := brokerCount;
      this.bridge := bridge;
      ratioCoinsTable := None;
    }

    /** `coinList`: a copy of the supported list, the same codes in the same order. */
    function CoinList(): (r: seq<string>)
      ensures |r| == |SupportedCoinList| && forall i :: 0 <= i < |r| ==> r[i] == SupportedCoinList[i]
    {
      SupportedCoinList[..]
    }

    /** `coinBridgeList`: the market of each supported coin against the bridge, in order. */
    function CoinBridgeList(): (r: seq<string>)
      ensures |r| == |SupportedCoinList|
      ensures forall i :: 0 <= i < |r| ==> r[i] == SupportedCoinList[i] + bridge
    {
      seq(|SupportedCoinList|, i requires 0 <= i < |SupportedCoinList| => SupportedCoinList[i] + bridge)
    }

    /**
     * `initializeRatioCoinsTable` when no table file exists (the body of
     * `onModuleInit`): the table built from `prices`, stored once per broker.
     */
    method InitializeRatioCoinsTable(prices: seq<SymbolPrice>, ratio: (Option<string>, Option<string>) -> real)
      modifies this`ratioCoinsTable
      ensures ratioCoinsTable == Some(Replicate(RatioTable(SupportedCoinList, PricesListToDict(prices), bridge, ratio), brokerCount))
    {
      var table := RatioTable(SupportedCoinList, PricesListToDict(prices), bridge, ratio);
      ratioCoinsTable := Some(Replicate(table, brokerCount));
    }
  }

  /** With a non-empty bridge code, dropping the bridge from each market gives back the supported list. */
  lemma {:induction false} BridgeListRoundTrip(a: Accountant, i: nat)
    requires |a.bridge| > 0 && i < |SupportedCoinList|
    ensures DropLast(a.CoinBridgeList()[i], |a.bridge|) == a.CoinList()[i]
  {
    var code := SupportedCoinList[i];
    assert a.CoinBridgeList()[i] == code + a.bridge;
    assert (code + a.bridge)[..|code|] == code;
  }

  /**
   * Every broker's copy of the initial table is the same; it has a row per
   * supported coin holding the ratio to every other supported coin, and no
   * diagonal entry.
   */
  lemma InitialTableShape(prices: seq<SymbolPrice>, bridge: string, ratio: (Option<string>, Option<string>) -> real,
                          brokerCount: nat, k: nat, a: string, b: string)
    requires k < brokerCount && a in SupportedCoinList && b in SupportedCoinList && a != b
    ensures var copies := Replicate(RatioTable(SupportedCoinList, PricesListToDict(prices), bridge, ratio), brokerCount);
            var p := PricesListToDict(prices);
            && copies[k] == copies[0]
            && a in ToMap(copies[k])
            && b in ToMap(ToMap(copies[k])[a]) && a !in ToMap(ToMap(copies[k])[a])
            && ToMap(ToMap(copies[k])[a])[b] == ratio(Get(p, a + bridge), Get(p, b + bridge))
  {
    RatioTableCells(SupportedCoinList, PricesListToDict(prices), bridge, ratio, a, b);
  }
}
