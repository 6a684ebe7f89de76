/**
 * The loading logic of `RepositoryService`
 * (src/trade/repository/repository.service.ts): which coins lack stored
 * information, how the markets between those coins are registered on both
 * sides (`addPairs`), how exchange balances become asset props, the price
 * cache, and the initial ratio table. Files, the exchange and JSON are
 * parameters or left out.
 */
module Repositories {
  import opened Wrappers
  import opened Dicts
  import opened Coins
  import opened Assets
  import opened CoinDicts
  import opened Mappers
  import opened Traders

  // ------------------------------------------------------ missing coin info

  /** The coins, in order, whose code has no entry in the stored information. */
  function Missing(coins: seq<AltCoin>, known: set<string>): (r: seq<AltCoin>)
    ensures forall c :: c in r ==> c in coins && c.code !in known
    ensures forall c :: c in coins && c.code !in known ==> c in r
    ensures |r| <= |coins|
  {
    if |coins| == 0 then []
    else
      var n := |coins| - 1;
      assert forall c :: c in coins ==> c in coins[..n] || c == coins[n];
      Missing(coins[..n], known) + (if coins[n].code in known then [] else [coins[n]])
  }

  /** The partition loop of `loadCoinInfos`: the coins without stored information are pushed in order. */
  method CollectMissing(coins: seq<AltCoin>, known: set<string>) returns (missing: seq<AltCoin>)
    ensures missing == Missing(coins, known)
  {
    missing := [];
    for k := 0 to |coins|
      invariant missing == Missing(coins[..k], known)
    {
      assert coins[..k + 1][..k] == coins[..k];
      if coins[k].code !in known {
        missing := missing + [coins[k]];
      }
    }
    assert coins[..|coins|] == coins;
  }

  // ---------------------------------------------------------------- markets

  /**
   * The inner search of `addPairs`: the first listed symbol that is `a`
   * followed by `b` makes `a` the base, or `b` followed by `a` makes `b` the
   * base (checked in that order at each symbol).
   */
  function PairMarket(a: AltCoin, b: AltCoin, symbols: seq<string>): (r: Option<Market>)
    ensures r.Some? ==> r.value == Market(Alt(a), Alt(b)) || r.value == Market(Alt(b), Alt(a))
  {
    if |symbols| == 0 then None
    else if symbols[0] == a.code + b.code then Some(Market(Alt(a), Alt(b)))
    else if symbols[0] == b.code + a.code then Some(Market(Alt(b), Alt(a)))
    else PairMarket(a, b, symbols[1..])
  }

  /**
   * A market is found exactly when one of the two concatenations is listed,
   * and the earliest listed one decides it: `a` is the base when `a`
   * followed by `b` comes first, `b` when `b` followed by `a` does.
   */
  lemma {:induction false} PairMarketSpec(a: AltCoin, b: AltCoin, symbols: seq<string>)
    ensures var r := PairMarket(a, b, symbols);
            && (r.Some? <==> a.code + b.code in symbols || b.code + a.code in symbols)
            && (r == Some(Market(Alt(a), Alt(b))) ==>
                  exists i :: 0 <= i < |symbols| && symbols[i] == a.code + b.code
                              && forall j :: 0 <= j < i ==> symbols[j] != a.code + b.code && symbols[j] != b.code + a.code)
            && (r == Some(Market(Alt(b), Alt(a))) ==>
                  exists i :: 0 <= i < |symbols| && symbols[i] == b.code + a.code
                              && forall j :: 0 <= j < i ==> symbols[j] != a.code + b.code && symbols[j] != b.code + a.code)
  {
    if |symbols| > 0 {
      PairMarketSpec(a, b, symbols[1..]);
      assert symbols == [symbols[0]] + symbols[1..];
      var r := PairMarket(a, b, symbols);
      if symbols[0] != a.code + b.code && symbols[0] != b.code + a.code && r.Some? {
        var t := symbols[1..];
        var i :| 0 <= i < |t| && (t[i] == a.code + b.code || t[i] == b.code + a.code)
                 && (r == Some(Market(Alt(a), Alt(b))) ==> t[i] == a.code + b.code)
                 && (r == Some(Market(Alt(b), Alt(a))) ==> t[i] == b.code + a.code)
                 && forall j :: 0 <= j < i ==> t[j] != a.code + b.code && t[j] != b.code + a.code;
        assert symbols[i + 1] == t[i];
        assert forall j :: 0 <= j < i + 1 ==> symbols[j] != a.code + b.code && symbols[j] != b.code + a.code by {
          forall j | 0 <= j < i + 1 ensures symbols[j] != a.code + b.code && symbols[j] != b.code + a.code {
            if j > 0 { assert symbols[j] == t[j - 1]; }
          }
        }
      }
    }
  }

  /** When the two concatenations differ, both sides find the same market. */
  lemma {:induction false} PairMarketSymmetric(a: AltCoin, b: AltCoin, symbols: seq<string>)
    requires a.code + b.code != b.code + a.code
    ensures PairMarket(a, b, symbols) == PairMarket(b, a, symbols)
  {
    if |symbols| > 0 && symbols[0] != a.code + b.code && symbols[0] != b.code + a.code {
      PairMarketSymmetric(a, b, symbols[1..]);
    }
  }

  /** The market `addPairs` registers for `coin` after scanning `list[lo..hi]`: the last one found. */
  function LastMatch(coin: AltCoin, list: seq<AltCoin>, lo: nat, hi: nat, symbols: seq<string>): (r: Option<Market>)
    requires hi <= |list|
    decreases hi
  {
    if hi <= lo then None
    else if PairMarket(coin, list[hi - 1], symbols).Some? then PairMarket(coin, list[hi - 1], symbols)
    else LastMatch(coin, list, lo, hi - 1, symbols)
  }

  /** The surviving market is the one of the last partner with a market; none survives when no partner has one. */
  lemma {:induction false} LastMatchSpec(coin: AltCoin, list: seq<AltCoin>, lo: nat, hi: nat, symbols: seq<string>)
    requires hi <= |list|
    ensures var r := LastMatch(coin, list, lo, hi, symbols);
            && (r.Some? ==> exists j :: lo <= j < hi && PairMarket(coin, list[j], symbols) == r
                                        && forall k :: j < k < hi ==> PairMarket(coin, list[k], symbols).None?)
            && (r.None? ==> forall j :: lo <= j < hi ==> PairMarket(coin, list[j], symbols).None?)
    decreases hi
  {
    if hi > lo && PairMarket(coin, list[hi - 1], symbols).None? {
      LastMatchSpec(coin, list, lo, hi - 1, symbols);
    }
  }

  /** The two `addPair` calls of one match: `market` on `coin` under `other`'s code, then on `other` under `coin`'s. */
  method RegisterPair(coin: AltCoin, other: AltCoin, market: Market)
    requires coin.Valid() && other.Valid()
    modifies coin`pairs, other`pairs
    ensures coin.Valid() && other.Valid()
    ensures other.PairMap() == old(other.PairMap())[coin.code := market]
    ensures coin != other ==> coin.PairMap() == old(coin.PairMap())[other.code := market]
  {
    coin.AddPair(Alt(other), market);
    other.AddPair(Alt(coin), market);
  }

  /**
   * `addPairs(coin, i, list, symbolList)` as written: for every later coin
   * with a market it registers that market on `coin` under `list[i]`'s code
   * and on `list[i]` under `coin`'s code, instead of between `coin` and
   * `list[index]`. Only the last market found survives.
   */
  method AddPairsAsWritten(coin: AltCoin, i: nat, list: seq<AltCoin>, symbols: seq<string>)
    requires i < |list| && coin.Valid() && list[i].Valid()
    modifies coin`pairs, {list[i]}`pairs
    ensures coin.Valid() && list[i].Valid()
    ensures LastMatch(coin, list, i, |list|, symbols).None? ==>
              coin.PairMap() == old(coin.PairMap()) && list[i].PairMap() == old(list[i].PairMap())
    ensures LastMatch(coin, list, i, |list|, symbols).Some? ==>
              list[i].PairMap() == old(list[i].PairMap())[coin.code := LastMatch(coin, list, i, |list|, symbols).value]
    ensures LastMatch(coin, list, i, |list|, symbols).Some? && coin != list[i] ==>
              coin.PairMap() == old(coin.PairMap())[list[i].code := LastMatch(coin, list, i, |list|, symbols).value]
  {
    var other := list[i];
    ghost var coinPairs, otherPairs := coin.PairMap(), other.PairMap();
    var index := i;
    ghost var last: Option<Market> := None;
    while index < |list|
      invariant i <= index <= |list|
      invariant last == LastMatch(coin, list, i, index, symbols)
      invariant coin.Valid() && other.Valid()
      invariant last.None? ==> coin.PairMap() == coinPairs && other.PairMap() == otherPairs
      invariant last.Some? ==> other.PairMap() == otherPairs[coin.code := last.value]
      invariant last.Some? && coin != other ==> coin.PairMap() == coinPairs[other.code := last.value]
    {
      var market := PairMarket(coin, list[index], symbols);
      if market.Some? {
        RegisterPair(coin, other, market.value);
        last := market;
      }
      index := index + 1;
    }
  }

  /** The codes of a list are pairwise distinct (a list drawn from a `CoinDict`). */
  ghost predicate DistinctCodes(list: seq<AltCoin>) {
    forall a, b :: 0 <= a < b < |list| ==> list[a].code != list[b].code
  }

  /**
   * How many missing coins the exchange-information loop of `loadCoinInfos`
   * gets through: it looks up `code + bridge` among the listed markets and
   * reads that market's PRICE_FILTER and LOT_SIZE filters, so the first coin
   * whose bridge market is unlisted, or lacks one of the two filters, throws
   * and no coin from it on is paired. `filtered` holds the markets whose
   * information carries both filters.
   */
  function InfoPrefix(list: seq<AltCoin>, bridge: string, symbols: seq<string>, filtered: set<string>): (n: nat)
    ensures n <= |list|
  {
    if |list| == 0 || list[0].code + bridge !in symbols || list[0].code + bridge !in filtered then 0
    else 1 + InfoPrefix(list[1..], bridge, symbols, filtered)
  }

  /** Every coin before `InfoPrefix` has its bridge market's information, and the coin at it does not. */
  lemma {:induction false} InfoPrefixSpec(list: seq<AltCoin>, bridge: string, symbols: seq<string>, filtered: set<string>)
    ensures var n := InfoPrefix(list, bridge, symbols, filtered);
            && (forall j :: 0 <= j < n ==> list[j].code + bridge in symbols && list[j].code + bridge in filtered)
            && (n < |list| ==> list[n].code + bridge !in symbols || list[n].code + bridge !in filtered)
  {
    if |list| > 0 && list[0].code + bridge in symbols && list[0].code + bridge in filtered {
      InfoPrefixSpec(list[1..], bridge, symbols, filtered);
      var n := InfoPrefix(list, bridge, symbols, filtered);
      forall j | 0 <= j < n ensures list[j].code + bridge in symbols && list[j].code + bridge in filtered {
        if j > 0 { assert list[j] == list[1..][j - 1]; }
      }
      assert n < |list| ==> list[n] == list[1..][n - 1];
    }
  }

  /**
   * The missing-info loop of `loadCoinInfos` as written: `addPairs(coin, i,
   * list, symbols)` for each coin until the first one whose bridge market
   * information is missing, where `list[i]` is `coin` itself. Each coin
   * reached gains at most one entry, under its OWN code, no coin learns of
   * another, and the coins not reached are untouched.
   */
  method LoadPairsAsWritten(list: seq<AltCoin>, bridge: string, symbols: seq<string>, filtered: set<string>)
    requires DistinctCodes(list) && forall j :: 0 <= j < |list| ==> list[j].Valid()
    modifies (set j | 0 <= j < |list| :: list[j])`pairs
    ensures forall j :: 0 <= j < |list| ==> list[j].Valid()
    ensures forall j :: 0 <= j < InfoPrefix(list, bridge, symbols, filtered) ==>
              var m := LastMatch(list[j], list, j, |list|, symbols);
              list[j].PairMap() == if m.Some? then old(list[j].PairMap())[list[j].code := m.value] else old(list[j].PairMap())
    ensures forall j :: InfoPrefix(list, bridge, symbols, filtered) <= j < |list| ==> list[j].PairMap() == old(list[j].PairMap())
  {
    var n := InfoPrefix(list, bridge, symbols, filtered);
    for i := 0 to n
      invariant forall j :: 0 <= j < |list| ==> list[j].Valid()
      invariant forall j :: 0 <= j < i ==>
                  var m := LastMatch(list[j], list, j, |list|, symbols);
                  list[j].PairMap() == if m.Some? then old(list[j].PairMap())[list[j].code := m.value] else old(list[j].PairMap())
      invariant forall j :: i <= j < |list| ==> list[j].PairMap() == old(list[j].PairMap())
    {
      AddPairsAsWritten(list[i], i, list, symbols);
    }
  }

  /** The markets `coin` learns from `list[lo..hi]`, each under the partner's code. */
  function Partners(coin: AltCoin, list: seq<AltCoin>, lo: nat, hi: nat, symbols: seq<string>): map<string, Market>
    requires hi <= |list|
    decreases hi
  {
    if hi <= lo then map[]
    else
      var m := Partners(coin, list, lo, hi - 1, symbols);
      var p := PairMarket(coin, list[hi - 1], symbols);
      if p.Some? then m[list[hi - 1].code := p.value] else m
  }

  /** `coin` learns exactly the partners with a market, and with distinct codes each under its own market. */
  lemma {:induction false} PartnersSpec(coin: AltCoin, list: seq<AltCoin>, lo: nat, hi: nat, symbols: seq<string>)
    requires hi <= |list| && DistinctCodes(list)
    ensures forall k :: k in Partners(coin, list, lo, hi, symbols) <==>
              exists j :: lo <= j < hi && list[j].code == k && PairMarket(coin, list[j], symbols).Some?
    ensures forall j :: lo <= j < hi && PairMarket(coin, list[j], symbols).Some? ==>
              Partners(coin, list, lo, hi, symbols)[list[j].code] == PairMarket(coin, list[j], symbols).value
    decreases hi
  {
    if hi > lo {
      PartnersSpec(coin, list, lo, hi - 1, symbols);
    }
  }

  /** The markets the coins of `list[..hi]` give `coin` when each pairs with the coins after it: each one's market with `coin`, under its code. */
  function Pairers(coin: AltCoin, list: seq<AltCoin>, hi: nat, symbols: seq<string>): map<string, Market>
    requires hi <= |list|
  {
    if hi == 0 then map[]
    else
      var m := Pairers(coin, list, hi - 1, symbols);
      var p := PairMarket(list[hi - 1], coin, symbols);
      if p.Some? then m[list[hi - 1].code := p.value] else m
  }

  /** One more round of pairing adds `list[i]`'s market with `coin`, if any, over what was given before. */
  lemma PairersStep(base: map<string, Market>, coin: AltCoin, list: seq<AltCoin>, i: nat, symbols: seq<string>)
    requires i < |list|
    ensures var m := PairMarket(list[i], coin, symbols);
            (if m.Some? then (base + Pairers(coin, list, i, symbols))[list[i].code := m.value]
             else base + Pairers(coin, list, i, symbols))
            == base + Pairers(coin, list, i + 1, symbols)
  {
  }

  /** `coin` is given exactly the earlier coins with a market, each under its code with that coin's market. */
  lemma {:induction false} PairersSpec(coin: AltCoin, list: seq<AltCoin>, hi: nat, symbols: seq<string>)
    requires hi <= |list| && DistinctCodes(list)
    ensures forall k :: k in Pairers(coin, list, hi, symbols) <==>
              exists j :: 0 <= j < hi && list[j].code == k && PairMarket(list[j], coin, symbols).Some?
    ensures forall j :: 0 <= j < hi && PairMarket(list[j], coin, symbols).Some? ==>
              Pairers(coin, list, hi, symbols)[list[j].code] == PairMarket(list[j], coin, symbols).value
  {
    if hi > 0 {
      PairersSpec(coin, list, hi - 1, symbols);
    }
  }

  /**
   * `addPairs` as evidently intended: for each coin of `list[from..]` with a
   * market, that market is registered on `coin` under the partner's code
   * and on the partner under `coin`'s code.
   */
  method AddPairs(coin: AltCoin, from: nat, list: seq<AltCoin>, symbols: seq<string>)
    requires from <= |list| && DistinctCodes(list)
    requires coin.Valid() && forall j :: from <= j < |list| ==> list[j].Valid() && list[j] != coin
    modifies coin`pairs, (set j | from <= j < |list| :: list[j])`pairs
    ensures coin.Valid() && forall j :: from <= j < |list| ==> list[j].Valid()
    ensures coin.PairMap() == old(coin.PairMap()) + Partners(coin, list, from, |list|, symbols)
    ensures forall j :: from <= j < |list| ==>
              var m := PairMarket(coin, list[j], symbols);
              list[j].PairMap() == if m.Some? then old(list[j].PairMap())[coin.code := m.value] else old(list[j].PairMap())
  {
    for index := from to |list|
      invariant coin.Valid() && forall j :: from <= j < |list| ==> list[j].Valid()
      invariant coin.PairMap() == old(coin.PairMap()) + Partners(coin, list, from, index, symbols)
      invariant forall j :: from <= j < index ==>
                  var m := PairMarket(coin, list[j], symbols);
                  list[j].PairMap() == if m.Some? then old(list[j].PairMap())[coin.code := m.value] else old(list[j].PairMap())
      invariant forall j :: index <= j < |list| ==> list[j].PairMap() == old(list[j].PairMap())
    {
      PairWith(coin, from, index, list, symbols, old(coin.PairMap()));
    }
  }

  /** One step of `AddPairs`: `coin` and `list[index]` register their market, if any; no other coin changes. */
  method PairWith(coin: AltCoin, from: nat, index: nat, list: seq<AltCoin>, symbols: seq<string>, ghost init: map<string, Market>)
    requires from <= index < |list| && DistinctCodes(list)
    requires coin.Valid() && forall j :: from <= j < |list| ==> list[j].Valid() && list[j] != coin
    requires coin.PairMap() == init + Partners(coin, list, from, index, symbols)
    modifies coin`pairs, {list[index]}`pairs
    ensures coin.Valid() && forall j :: from <= j < |list| ==> list[j].Valid()
    ensures coin.PairMap() == init + Partners(coin, list, from, index + 1, symbols)
    ensures var m := PairMarket(coin, list[index], symbols);
            list[index].PairMap() == if m.Some? then old(list[index].PairMap())[coin.code := m.value] else old(list[index].PairMap())
    ensures forall j :: from <= j < |list| && j != index ==> list[j].PairMap() == old(list[j].PairMap())
  {
    var market := PairMarket(coin, list[index], symbols);
    if market.Some? {
      RegisterPair(coin, list[index], market.value);
      UnionUpdate(init, Partners(coin, list, from, index, symbols), list[index].code, market.value);
    }
    forall j | from <= j < |list| && j != index
      ensures list[j].Valid() && list[j].PairMap() == old(list[j].PairMap())
    {
      assert list[j].code != list[index].code;
    }
  }

  /**
   * The missing-info loop of `loadCoinInfos` with the corrected `addPairs`
   * (each coin against the coins after it), up to the first coin whose
   * bridge market information is missing: every market between a reached
   * coin and a later coin ends up registered on BOTH coins, each under the
   * other's code, and a coin not reached holds only what the reached coins
   * gave it.
   */
  method LoadPairs(list: seq<AltCoin>, bridge: string, symbols: seq<string>, filtered: set<string>)
    requires DistinctCodes(list) && forall j :: 0 <= j < |list| ==> list[j].Valid()
    modifies (set j | 0 <= j < |list| :: list[j])`pairs
    ensures forall j :: 0 <= j < |list| ==> list[j].Valid()
    ensures forall a, b :: 0 <= a < InfoPrefix(list, bridge, symbols, filtered) && a < b < |list|
                           && PairMarket(list[a], list[b], symbols).Some? ==>
              Reciprocal(list[a], list[b], PairMarket(list[a], list[b], symbols).value)
    ensures forall k :: 0 <= k < InfoPrefix(list, bridge, symbols, filtered) ==>
              list[k].PairMap() == old(list[k].PairMap()) + Pairers(list[k], list, k, symbols)
                                   + Partners(list[k], list, k + 1, |list|, symbols)
    ensures var n := InfoPrefix(list, bridge, symbols, filtered);
            forall k :: n <= k < |list| ==> list[k].PairMap() == old(list[k].PairMap()) + Pairers(list[k], list, n, symbols)
  {
    ghost var init := map k | 0 <= k < |list| :: list[k].PairMap();
    var n := InfoPrefix(list, bridge, symbols, filtered);
    for i := 0 to n
      invariant forall j :: 0 <= j < |list| ==> list[j].Valid()
      invariant forall k :: 0 <= k < |list| ==> list[k].PairMap() == init[k] + Rounds(list, k, i, symbols)
    {
      PairRound(list, i, symbols, init);
    }
    LoadedPairs(list, n, symbols, init);
  }

  /** Round `i` of `LoadPairs`: `list[i]` pairs with the coins after it, and every coin's gains grow by that round. */
  method PairRound(list: seq<AltCoin>, i: nat, symbols: seq<string>, ghost init: map<nat, map<string, Market>>)
    requires DistinctCodes(list) && i < |list| && forall j :: 0 <= j < |list| ==> list[j].Valid()
    requires forall k :: 0 <= k < |list| ==> k in init && list[k].PairMap() == init[k] + Rounds(list, k, i, symbols)
    modifies (set j | i <= j < |list| :: list[j])`pairs
    ensures forall j :: 0 <= j < |list| ==> list[j].Valid()
    ensures forall k :: 0 <= k < |list| ==> list[k].PairMap() == init[k] + Rounds(list, k, i + 1, symbols)
  {
    PairCoin(list, i, symbols);
    forall k | 0 <= k < |list|
      ensures list[k].PairMap() == init[k] + Rounds(list, k, i + 1, symbols)
    {
      RoundStep(list, k, i, symbols, init[k], old(list[k].PairMap()), list[k].PairMap());
    }
  }

  /**
   * After the rounds of the first `n` coins: each of them holds its earlier
   * and later partners' markets, each later coin the markets of the first
   * `n`, and every market made is on both coins.
   */
  lemma LoadedPairs(list: seq<AltCoin>, n: nat, symbols: seq<string>, init: map<nat, map<string, Market>>)
    requires DistinctCodes(list) && n <= |list|
    requires forall k :: 0 <= k < |list| ==> k in init && list[k].PairMap() == init[k] + Rounds(list, k, n, symbols)
    ensures forall a, b :: 0 <= a < n && a < b < |list| && PairMarket(list[a], list[b], symbols).Some? ==>
              Reciprocal(list[a], list[b], PairMarket(list[a], list[b], symbols).value)
    ensures forall k :: 0 <= k < n ==>
              list[k].PairMap() == init[k] + Pairers(list[k], list, k, symbols) + Partners(list[k], list, k + 1, |list|, symbols)
    ensures forall k :: n <= k < |list| ==> list[k].PairMap() == init[k] + Pairers(list[k], list, n, symbols)
  {
    forall k | 0 <= k < n
      ensures list[k].PairMap() == init[k] + Pairers(list[k], list, k, symbols) + Partners(list[k], list, k + 1, |list|, symbols)
    {
      UnionAssoc(init[k], Pairers(list[k], list, k, symbols), Partners(list[k], list, k + 1, |list|, symbols));
    }
    forall a, b | 0 <= a < n && a < b < |list| && PairMarket(list[a], list[b], symbols).Some?
      ensures Reciprocal(list[a], list[b], PairMarket(list[a], list[b], symbols).value)
    {
      if b < n {
        PairedBothWays(list, a, b, symbols, init[a], init[b]);
      } else {
        PairedWithUnreached(list, a, b, n, symbols, init[a], init[b]);
      }
    }
  }

  /** What `list[k]` has gained after the first `i` rounds of `LoadPairs`. */
  function Rounds(list: seq<AltCoin>, k: nat, i: nat, symbols: seq<string>): map<string, Market>
    requires k < |list| && i <= |list|
  {
    if i <= k then Pairers(list[k], list, i, symbols)
    else Pairers(list[k], list, k, symbols) + Partners(list[k], list, k + 1, |list|, symbols)
  }

  /** Round `i` turns `list[k]`'s gains after `i` rounds into its gains after `i + 1`. */
  lemma RoundStep(list: seq<AltCoin>, k: nat, i: nat, symbols: seq<string>,
                  init: map<string, Market>, before: map<string, Market>, after: map<string, Market>)
    requires k < |list| && i < |list|
    requires before == init + Rounds(list, k, i, symbols)
    requires k < i ==> after == before
    requires k == i ==> after == before + Partners(list[i], list, i + 1, |list|, symbols)
    requires k > i ==> var m := PairMarket(list[i], list[k], symbols);
                       after == if m.Some? then before[list[i].code := m.value] else before
    ensures after == init + Rounds(list, k, i + 1, symbols)
  {
    if k > i {
      PairersStep(init, list[k], list, i, symbols);
    } else if k == i {
      UnionAssoc(init, Pairers(list[k], list, k, symbols), Partners(list[k], list, k + 1, |list|, symbols));
    }
  }

  /** After `LoadPairs`, the market of two coins is in both coins' maps, each under the other's code. */
  lemma PairedBothWays(list: seq<AltCoin>, a: nat, b: nat, symbols: seq<string>, initA: map<string, Market>, initB: map<string, Market>)
    requires DistinctCodes(list) && a < b < |list| && PairMarket(list[a], list[b], symbols).Some?
    ensures var m := PairMarket(list[a], list[b], symbols).value;
            var ma := initA + Pairers(list[a], list, a, symbols) + Partners(list[a], list, a + 1, |list|, symbols);
            var mb := initB + Pairers(list[b], list, b, symbols) + Partners(list[b], list, b + 1, |list|, symbols);
            list[b].code in ma && ma[list[b].code] == m && list[a].code in mb && mb[list[a].code] == m
  {
    PartnerFound(list[a], list, a + 1, |list|, b, symbols);
    PairerFound(list[b], list, b, a, symbols);
    EarlierNotPartner(list[b], list, a, b + 1, |list|, symbols);
  }

  /** A partner in `list[lo..hi]` with a market is found under its code with that market. */
  lemma {:induction false} PartnerFound(coin: AltCoin, list: seq<AltCoin>, lo: nat, hi: nat, j: nat, symbols: seq<string>)
    requires DistinctCodes(list) && lo <= j < hi <= |list| && PairMarket(coin, list[j], symbols).Some?
    ensures list[j].code in Partners(coin, list, lo, hi, symbols)
    ensures Partners(coin, list, lo, hi, symbols)[list[j].code] == PairMarket(coin, list[j], symbols).value
    decreases hi
  {
    if j < hi - 1 {
      PartnerFound(coin, list, lo, hi - 1, j, symbols);
      assert list[hi - 1].code != list[j].code;
    }
  }

  /** An earlier coin of `list[..hi]` with a market gives it under its code. */
  lemma {:induction false} PairerFound(coin: AltCoin, list: seq<AltCoin>, hi: nat, j: nat, symbols: seq<string>)
    requires DistinctCodes(list) && j < hi <= |list| && PairMarket(list[j], coin, symbols).Some?
    ensures list[j].code in Pairers(coin, list, hi, symbols)
    ensures Pairers(coin, list, hi, symbols)[list[j].code] == PairMarket(list[j], coin, symbols).value
  {
    if j < hi - 1 {
      PairerFound(coin, list, hi - 1, j, symbols);
      assert list[hi - 1].code != list[j].code;
    }
  }

  /** With distinct codes, a coin before `lo` is never among the partners found in `list[lo..hi]`. */
  lemma {:induction false} EarlierNotPartner(coin: AltCoin, list: seq<AltCoin>, a: nat, lo: nat, hi: nat, symbols: seq<string>)
    requires DistinctCodes(list) && a < lo <= hi <= |list|
    ensures list[a].code !in Partners(coin, list, lo, hi, symbols)
    decreases hi
  {
    if hi > lo {
      EarlierNotPartner(coin, list, a, lo, hi - 1, symbols);
      assert list[hi - 1].code != list[a].code;
    }
  }

  /** After `LoadPairs`, a reached coin and a later coin that was not reached each hold their market under the other's code. */
  lemma PairedWithUnreached(list: seq<AltCoin>, a: nat, b: nat, n: nat, symbols: seq<string>,
                            initA: map<string, Market>, initB: map<string, Market>)
    requires DistinctCodes(list) && a < n <= b < |list| && PairMarket(list[a], list[b], symbols).Some?
    ensures var m := PairMarket(list[a], list[b], symbols).value;
            var ma := initA + Pairers(list[a], list, a, symbols) + Partners(list[a], list, a + 1, |list|, symbols);
            var mb := initB + Pairers(list[b], list, n, symbols);
            list[b].code in ma && ma[list[b].code] == m && list[a].code in mb && mb[list[a].code] == m
  {
    PartnerFound(list[a], list, a + 1, |list|, b, symbols);
    PairerFound(list[b], list, n, a, symbols);
  }

  /**
   * One round of `LoadPairs`: `list[i]` gains exactly its markets with the
   * coins after it, each of those coins gains its market with `list[i]`, and
   * the coins before `i` are untouched; every pair made this round is
   * reciprocal.
   */
  method PairCoin(list: seq<AltCoin>, i: nat, symbols: seq<string>)
    requires DistinctCodes(list) && i < |list| && forall j :: 0 <= j < |list| ==> list[j].Valid()
    modifies (set j | i <= j < |list| :: list[j])`pairs
    ensures forall j :: 0 <= j < |list| ==> list[j].Valid()
    ensures forall b :: i < b < |list| && PairMarket(list[i], list[b], symbols).Some? ==>
              Reciprocal(list[i], list[b], PairMarket(list[i], list[b], symbols).value)
    ensures forall j :: 0 <= j < i ==> list[j].PairMap() == old(list[j].PairMap())
    ensures list[i].PairMap() == old(list[i].PairMap()) + Partners(list[i], list, i + 1, |list|, symbols)
    ensures forall j :: i < j < |list| ==>
              var m := PairMarket(list[i], list[j], symbols);
              list[j].PairMap() == if m.Some? then old(list[j].PairMap())[list[i].code := m.value] else old(list[j].PairMap())
  {
    AddPairs(list[i], i + 1, list, symbols);
    PartnersSpec(list[i], list, i + 1, |list|, symbols);
    forall a | 0 <= a < i ensures list[a].PairMap() == old(list[a].PairMap()) && list[a].Valid() {
      Untouched(list, a, i);
    }
    forall b | i < b < |list| && PairMarket(list[i], list[b], symbols).Some?
      ensures Reciprocal(list[i], list[b], PairMarket(list[i], list[b], symbols).value)
    {
      assert list[b].code in Partners(list[i], list, i + 1, |list|, symbols);
    }
  }

  /** With distinct codes, a coin before position `i` is neither `list[i]` nor one of the coins after it. */
  lemma Untouched(list: seq<AltCoin>, a: nat, i: nat)
    requires DistinctCodes(list) && a < i < |list|
    ensures list[a] != list[i] && list[a] !in (set j | i + 1 <= j < |list| :: list[j])
  {
    assert list[a].code != list[i].code;
    forall j | i + 1 <= j < |list| ensures list[j] != list[a] {
      assert list[a].code != list[j].code;
    }
  }

  /** `market` is registered on `a` under `b`'s code and on `b` under `a`'s code. */
  ghost predicate Reciprocal(a: AltCoin, b: AltCoin, market: Market)
    reads a, b
  {
    && b.code in a.PairMap() && a.PairMap()[b.code] == market
    && a.code in b.PairMap() && b.PairMap()[a.code] == market
  }

  /** The market names of the ADA/DASH scenario, with USDT as the bridge. */
  lemma AdaDashMarkets()
    ensures "ADA" + "DASH" == "ADADASH" && "DASH" + "ADA" != "ADADASH"
    ensures "ADA" + "USDT" == "ADAUSDT" && "DASH" + "USDT" == "DASHUSDT"
    ensures "ADA" + "ADA" !in ["ADADASH", "ADAUSDT", "DASHUSDT"]
    ensures "DASH" + "DASH" !in ["ADADASH", "ADAUSDT", "DASHUSDT"]
  {
    assert ("DASH" + "ADA")[0] != "ADADASH"[0];
    assert |"ADA" + "ADA"| == 6;
    assert ("DASH" + "DASH")[4] != "DASHUSDT"[4];
  }

  /**
   * ADA and DASH lack stored information; the exchange lists `ADADASH` and
   * both bridge markets, each with its filters. As written, ADA records the
   * market under its own code and neither coin learns of the other;
   * corrected, both do, with ADA as base.
   */
  method MissingPairsScenario() returns (adaKnowsDash: bool, dashKnowsAda: bool, adaKnowsItself: bool,
                                        fixedAdaKnowsDash: bool, fixedDashKnowsAda: bool)
    ensures !adaKnowsDash && !dashKnowsAda && adaKnowsItself
    ensures fixedAdaKnowsDash && fixedDashKnowsAda
  {
    var symbols := ["ADADASH", "ADAUSDT", "DASHUSDT"];
    var filtered := {"ADAUSDT", "DASHUSDT"};
    AdaDashMarkets();

    var ada := new AltCoin("ADA");
    var dash := new AltCoin("DASH");
    assert [ada, dash][0].code != [ada, dash][1].code;
    assert PairMarket(ada, dash, symbols) == Some(Market(Alt(ada), Alt(dash)));
    PairMarketSpec(ada, ada, symbols);
    PairMarketSpec(dash, dash, symbols);
    assert InfoPrefix([ada, dash], "USDT", symbols, filtered) == 2;
    LoadPairsAsWritten([ada, dash], "USDT", symbols, filtered);
    assert LastMatch(ada, [ada, dash], 0, 2, symbols) == Some(Market(Alt(ada), Alt(dash)));
    assert LastMatch(dash, [ada, dash], 1, 2, symbols).None?;
    adaKnowsDash := ada.HasPair(Alt(dash));
    dashKnowsAda := dash.HasPair(Alt(ada));
    adaKnowsItself := ada.HasPair(Alt(ada));

    var ada2 := new AltCoin("ADA");
    var dash2 := new AltCoin("DASH");
    assert [ada2, dash2][0].code != [ada2, dash2][1].code;
    assert PairMarket(ada2, dash2, symbols) == Some(Market(Alt(ada2), Alt(dash2)));
    assert InfoPrefix([ada2, dash2], "USDT", symbols, filtered) == 2;
    LoadPairs([ada2, dash2], "USDT", symbols, filtered);
    fixedAdaKnowsDash := ada2.HasPair(Alt(dash2));
    fixedDashKnowsAda := dash2.HasPair(Alt(ada2));
  }

  // ----------------------------------------------------------------- assets

  /** One exchange balance: the asset's code and its free amount (as parsed). */
  datatype Balance = Balance(asset: string, free: JsNumber)

  /** A balance's props: the registered coin, else the bridge when the code is the bridge's, else no coin. */
  function BalanceProps(coins: CoinDict, bridge: string, b: Balance): AssetProps
    requires coins.Valid()
    reads coins
  {
    var c := coins.Get(b.asset);
    AssetProps(if c.Some? then Some(Alt(c.value)) else if b.asset == bridge then Some(Bridge(bridge)) else None, b.free)
  }

  /** The props of all balances, in order. */
  function BalancesProps(coins: CoinDict, bridge: string, balances: seq<Balance>): (r: seq<AssetProps>)
    requires coins.Valid()
    reads coins
    ensures |r| == |balances| && forall i :: 0 <= i < |r| ==> r[i] == BalanceProps(coins, bridge, balances[i])
  {
    if |balances| == 0 then [] else [BalanceProps(coins, bridge, balances[0])] + BalancesProps(coins, bridge, balances[1..])
  }

  /**
   * `loadAssets`: the props of the balances, then a zero bridge balance
   * when no balance is of the bridge, so the bridge is always held.
   */
  function LoadAssets(coins: CoinDict, bridge: string, balances: seq<Balance>): (r: seq<AssetProps>)
    requires coins.Valid()
    reads coins
    ensures |balances| <= |r| <= |balances| + 1
    ensures forall i :: 0 <= i < |balances| ==>
              && r[i].balance == balances[i].free
              && (r[i].coin.Some? <==> balances[i].asset in ToMap(coins.dict) || balances[i].asset == bridge)
              && (r[i].coin.Some? ==> r[i].coin.value.Code() == balances[i].asset)
              && (r[i].coin == Some(Bridge(bridge)) <==> balances[i].asset !in ToMap(coins.dict) && balances[i].asset == bridge)
    ensures |r| == |balances| + 1 <==> forall i :: 0 <= i < |balances| ==> r[i].coin != Some(Bridge(bridge))
    ensures |r| == |balances| + 1 ==> r[|balances|] == AssetProps(Some(Bridge(bridge)), Num(0.0))
    ensures exists i :: 0 <= i < |r| && r[i].coin == Some(Bridge(bridge))
  {
    var props := BalancesProps(coins, bridge, balances);
    if forall i :: 0 <= i < |props| ==> props[i].coin != Some(Bridge(bridge)) then
      var r := props + [AssetProps(Some(Bridge(bridge)), Num(0.0))];
      assert r[|props|].coin == Some(Bridge(bridge));
      r
    else props
  }

  /** A list holding an accepted bridge asset has a last one. */
  lemma {:induction false} LastBridgeFound(props: seq<AssetProps>, i: nat)
    requires i < |props| && Validate(props[i]).None? && props[i].coin.value.Bridge?
    ensures LastBridge(props).Some?
  {
    var n := |props| - 1;
    if i < n && !(Validate(props[n]).None? && props[n].coin.value.Bridge?) {
      LastBridgeFound(props[..n], i);
    }
  }

  /** With every balance a number, the loaded props build a trader, and it has a bridge asset. */
  lemma LoadedAssetsMakeTrader(coins: CoinDict, bridge: string, balances: seq<Balance>)
    requires coins.Valid()
    requires forall b :: b in balances ==> b.free.Num?
    ensures FirstError(LoadAssets(coins, bridge, balances)).None?
    ensures LastBridge(LoadAssets(coins, bridge, balances)).Some?
  {
    var r := LoadAssets(coins, bridge, balances);
    forall p | p in r ensures p.balance.Num? {
      var i :| 0 <= i < |r| && r[i] == p;
      if i < |balances| {
        assert balances[i] in balances;
      }
    }
    var i :| 0 <= i < |r| && r[i].coin == Some(Bridge(bridge));
    assert r[i] in r;
    LastBridgeFound(r, i);
  }

  // ------------------------------------------------------------------ prices

  /** The `prices` getter: the first request's dictionary is cached and served from then on. */
  class PriceCache {
    var cached: Option<Dict<string>>

    constructor ()
      ensures cached.None?
    {
      cached := None;
    }

    /** `fetched` is what the exchange would answer; it is used only when nothing is cached. */
    method Prices(fetched: seq<SymbolPrice>) returns (prices: Dict<string>)
      modifies this
      ensures old(cached).Some? ==> prices == old(cached).value && cached == old(cached)
      ensures old(cached).None? ==> prices == PricesListToDict(fetched) && cached == Some(prices)
    {
      if cached.Some? {
        return cached.value;
      }
      prices := PricesListToDict(fetched);
      cached := Some(prices);
    }
  }

  /** Two reads of the cache give the first fetch's prices, whatever the second fetch would answer. */
  method PricesFetchedOnce(first: seq<SymbolPrice>, second: seq<SymbolPrice>) returns (p1: Dict<string>, p2: Dict<string>)
    ensures p1 == p2 == PricesListToDict(first)
  {
    var cache := new PriceCache();
    p1 := cache.Prices(first);
    p2 := cache.Prices(second);
  }
}
