/**
 * The coin registry (src/trade/domain/coin-dict.entity.ts): supported alt
 * coins keyed by code, with batch market updates applied to the stored coins.
 */
module CoinDicts {
  import opened Wrappers
  import opened Dicts
  import opened Coins

  /** `CoinsUpdate`: new market data for the coin with `code`. */
  datatype CoinsUpdate = CoinsUpdate(code: string, trending: real, valuation: real)

  /** The entries `[code]: coin` that the constructor folds, in list order. */
  function CodeEntries(coins: seq<AltCoin>): (es: seq<Entry<AltCoin>>)
    ensures |es| == |coins|
    ensures forall i :: 0 <= i < |coins| ==> es[i] == Entry(coins[i].code, coins[i])
  {
    seq(|coins|, i requires 0 <= i < |coins| => Entry(coins[i].code, coins[i]))
  }

  /** The registry the constructor's `reduce` builds. */
  function Registry(coins: seq<AltCoin>): Dict<AltCoin> {
    FromEntries(CodeEntries(coins))
  }

  /** Every registered coin is stored under its own code, once. */
  lemma RegistryWellKeyed(coins: seq<AltCoin>)
    ensures DistinctKeys(Registry(coins))
    ensures forall e :: e in Registry(coins) ==> e.value.code == e.key && e.value in coins
  {
    var es := CodeEntries(coins);
    FromEntriesKeys(es);
    FromEntriesSubset(es);
    forall e | e in Registry(coins) ensures e.value.code == e.key && e.value in coins {
      assert e in es;
    }
  }

  /** A code maps to the LAST listed coin with that code. */
  lemma RegistryLastWins(coins: seq<AltCoin>, i: nat)
    requires i < |coins| && forall j :: i < j < |coins| ==> coins[j].code != coins[i].code
    ensures coins[i].code in ToMap(Registry(coins)) && ToMap(Registry(coins))[coins[i].code] == coins[i]
  {
    FromEntriesLast(CodeEntries(coins), i);
  }

  /** The registered codes are exactly the codes of the listed coins. */
  lemma RegistryCodes(coins: seq<AltCoin>)
    ensures ToMap(Registry(coins)).Keys == set c | c in coins :: c.code
  {
    var es := CodeEntries(coins);
    FromEntriesKeys(es);
    var codes := set c | c in coins :: c.code;
    var keys := set e | e in es :: e.key;
    assert keys == codes by {
      forall k | k in codes ensures k in keys {
        var c :| c in coins && c.code == k;
        var i :| 0 <= i < |coins| && coins[i] == c;
        assert es[i] in es;
      }
    }
  }

  /** Index of the first update whose code is not registered, or `|updates|`. */
  function FirstUnknown(updates: seq<CoinsUpdate>, known: set<string>): (n: nat)
    ensures n <= |updates|
    ensures forall j :: 0 <= j < n ==> updates[j].code in known
    ensures n < |updates| ==> updates[n].code !in known
  {
    if |updates| == 0 || updates[0].code !in known then 0
    else 1 + FirstUnknown(updates[1..], known)
  }

  /** The last update for `code`, which is the one that ends up applied. */
  function LastUpdate(updates: seq<CoinsUpdate>, code: string): (r: Option<CoinsUpdate>)
    ensures r.Some? ==> r.value in updates && r.value.code == code
    ensures r.None? ==> forall u :: u in updates ==> u.code != code
  {
    if |updates| == 0 then None
    else if updates[|updates| - 1].code == code then Some(updates[|updates| - 1])
    else
      var r := LastUpdate(updates[..|updates| - 1], code);
      assert forall u :: u in updates ==> u in updates[..|updates| - 1] || u == updates[|updates| - 1];
      r
  }

  /** A later update for the same code replaces any earlier one; other codes keep theirs. */
  lemma LastUpdateSnoc(updates: seq<CoinsUpdate>, u: CoinsUpdate, code: string)
    ensures LastUpdate(updates + [u], code) == if u.code == code then Some(u) else LastUpdate(updates, code)
  {
    assert (updates + [u])[..|updates|] == updates;
  }

  class CoinDict {
    var dict: Dict<AltCoin>

    ghost predicate Valid()
      reads this
    {
      DistinctKeys(dict) && forall e :: e in dict ==> e.value.code == e.key
    }

    /** The registered coin objects. */
    ghost function Stored(): set<AltCoin>
      reads this
    {
      set e | e in dict :: e.value
    }

    /** `new CoinDict(coins)`. */
    constructor (coins: seq<AltCoin>)
      ensures Valid() && dict == Registry(coins)
    {
      RegistryWellKeyed(coins);
      dict := Registry(coins);
    }

    /** `get(code)`: the coin registered under `code`, or `undefined`. */
    function Get(code: string): (r: Option<AltCoin>)
      requires Valid()
      reads this
      ensures r.Some? <==> code in ToMap(dict)
      ensures r.Some? ==> r.value == ToMap(dict)[code] && r.value.code == code && r.value in Stored()
    {
      GetIsToMap(dict, code);
      Dicts.Get(dict, code)
    }

    /** `toList()`: one coin per registered code, in registration order. */
    function ToList(): (r: seq<AltCoin>)
      requires Valid()
      reads this
      ensures |r| == |ToMap(dict)|
      ensures forall i :: 0 <= i < |r| ==> Get(r[i].code) == Some(r[i])
      ensures forall i, j :: 0 <= i < j < |r| ==> r[i].code != r[j].code
      ensures forall code :: code in ToMap(dict) ==> exists i :: 0 <= i < |r| && r[i].code == code
    {
      DistinctCard(dict);
      ToMapKeys(dict);
      var r := Values(dict);
      forall i | 0 <= i < |r| ensures Get(r[i].code) == Some(r[i]) {
        ToMapAt(dict, i);
        assert dict[i] in dict;
      }
      forall i, j | 0 <= i < j < |r| ensures r[i].code != r[j].code {
        assert dict[i] in dict && dict[j] in dict;
      }
      forall code | code in ToMap(dict) ensures exists i :: 0 <= i < |r| && r[i].code == code {
        var e :| e in dict && e.key == code;
        var i :| 0 <= i < |dict| && dict[i] == e;
        assert r[i].code == code;
      }
      r
    }

    /** `toDict()`: a copy associating each code with its coin; later changes to it do not reach the registry. */
    function ToDict(): (r: map<string, AltCoin>)
      requires Valid()
      reads this
      ensures forall code :: code in r <==> Get(code).Some?
      ensures forall code :: code in r ==> Get(code) == Some(r[code])
    {
      ToMap(dict)
    }

    /**
     * `updateCoins(updates)`: applies the updates in order to the stored
     * coins. An unknown code throws at that update (`failedAt`); the updates
     * before it stay applied. Each coin ends with its last applied update,
     * and coins without one are unchanged.
     */
    method UpdateCoins(updates: seq<CoinsUpdate>) returns (failedAt: Option<nat>)
      requires Valid()
      modifies Stored()`trending, Stored()`valuation
      ensures forall c | c in Stored() ::
                c.pairs == old(c.pairs) && c.priceFilter == old(c.priceFilter) && c.quantityFilter == old(c.quantityFilter)
      ensures var n := FirstUnknown(updates, ToMap(dict).Keys);
              && failedAt == (if n < |updates| then Some(n) else None)
              && forall e | e in dict ::
                   var u := LastUpdate(updates[..n], e.key);
                   if u.Some? then e.value.trending == Some(u.value.trending) && e.value.valuation == Some(u.value.valuation)
                   else e.value.trending == old(e.value.trending) && e.value.valuation == old(e.value.valuation)
    {
      ghost var m := ToMap(dict);
      ghost var n := FirstUnknown(updates, m.Keys);
      forall e | e in dict ensures e.key in m && m[e.key] == e.value {
        var i :| 0 <= i < |dict| && dict[i] == e;
        ToMapAt(dict, i);
      }
      var k := 0;
      while k < |updates|
        invariant k <= n
        invariant forall e | e in dict ::
                    var u := LastUpdate(updates[..k], e.key);
                    if u.Some? then e.value.trending == Some(u.value.trending) && e.value.valuation == Some(u.value.valuation)
                    else e.value.trending == old(e.value.trending) && e.value.valuation == old(e.value.valuation)
      {
        var u := updates[k];
        var coin := Get(u.code);
        if coin.None? {
          assert k == n by {
            assert updates[k].code !in m.Keys;
          }
          return Some(k);
        }
        assert k < n by {
          assert updates[k].code in m.Keys;
        }
        var c := coin.value;
        c.UpdateMarket(u.trending, u.valuation);
        assert updates[..k + 1] == updates[..k] + [u];
        forall e | e in dict
          ensures var v := LastUpdate(updates[..k + 1], e.key);
                  if v.Some? then e.value.trending == Some(v.value.trending) && e.value.valuation == Some(v.value.valuation)
                  else e.value.trending == old(e.value.trending) && e.value.valuation == old(e.value.valuation)
        {
          LastUpdateSnoc(updates[..k], u, e.key);
          assert e.value == c <==> e.key == u.code;
        }
        k := k + 1;
      }
      return None;
    }
  }
}
