/**
 * The trader (src/trade/domain/trader.entity.ts): the held assets, the bridge
 * asset, and the operations in progress; it proposes the best opportunity
 * and settles finished operations.
 *
 * `Threshold.findBestTrade` is not part of this model: `best` stands for it,
 * an arbitrary function from a coin and a fee to a target coin and a score.
 */
module Traders {
  import opened Wrappers
  import opened Coins
  import opened Assets
  import opened Operations

  /** The fee `evaluateMarket` passes to `findBestTrade`. */
  const Fee: real := 0.001

  /** A proposed operation: `{ asset, target, ratioGrowth }`. */
  datatype Candidate = Candidate(asset: Asset, target: AltCoin, score: real)

  /** An element of the `assets` getter: `{ coin, balance }`. */
  datatype AssetView = AssetView(coin: Coin, balance: real)

  // ------------------------------------------------------------ construction

  /** The props `new Asset` accepts, in order. */
  function Kept(props: seq<AssetProps>): (r: seq<AssetProps>)
    ensures forall p :: p in r ==> p in props && Validate(p).None?
    ensures forall p :: p in props && Validate(p).None? ==> p in r
  {
    if |props| == 0 then []
    else
      var n := |props| - 1;
      assert forall p :: p in props ==> p in props[..n] || p == props[n];
      Kept(props[..n]) + if Validate(props[n]).None? then [props[n]] else []
  }

  /** The first rejection for another reason than a missing coin: the error the constructor rethrows. */
  function FirstError(props: seq<AssetProps>): (r: Option<InvalidProps>)
    ensures r.Some? ==> exists p :: p in props && Validate(p) == r && r.value.prop != "coin"
    ensures r.None? ==> forall p :: p in props && Validate(p).Some? ==> Validate(p).value.prop == "coin"
  {
    if |props| == 0 then None
    else
      var n := |props| - 1;
      assert forall p :: p in props ==> p in props[..n] || p == props[n];
      var e := FirstError(props[..n]);
      if e.Some? then e
      else if Validate(props[n]).Some? && Validate(props[n]).value.prop != "coin" then Validate(props[n])
      else None
  }

  /** The props of the last accepted bridge asset: the one the constructor keeps as `bridgeAsset`. */
  function LastBridge(props: seq<AssetProps>): (r: Option<AssetProps>)
    ensures r.Some? ==> r.value in Kept(props) && r.value.coin.value.Bridge?
    ensures r.None? <==> forall p :: p in Kept(props) ==> !p.coin.value.Bridge?
  {
    if |props| == 0 then None
    else
      var n := |props| - 1;
      if Validate(props[n]).None? && props[n].coin.value.Bridge? then Some(props[n])
      else LastBridge(props[..n])
  }

  /**
   * Where the corrected construction departs from the program: it rethrows
   * exactly when some props hold a coin and a NaN balance, and keeps exactly
   * the props the validation as written keeps except those. As written,
   * `new Asset` never rejects for another reason than a missing coin, so
   * the constructor rethrows nothing.
   */
  lemma {:induction false} FirstErrorIffNaN(props: seq<AssetProps>)
    ensures FirstError(props).Some? <==> exists p :: p in props && p.coin.Some? && p.balance.NaN?
    ensures forall p :: p in props ==> (p in Kept(props) <==> ValidateAsWritten(p).None? && !p.balance.NaN?)
    ensures forall p :: p in props && ValidateAsWritten(p).Some? ==> ValidateAsWritten(p).value.prop == "coin"
  {
    if |props| > 0 {
      var n := |props| - 1;
      FirstErrorIffNaN(props[..n]);
      assert forall p :: p in props <==> p in props[..n] || p == props[n];
    }
  }

  /** An error found in a prefix is the error of the whole list. */
  lemma {:induction false} FirstErrorPrefix(props: seq<AssetProps>, k: nat)
    requires k <= |props| && FirstError(props[..k]).Some?
    ensures FirstError(props) == FirstError(props[..k])
  {
    if k < |props| {
      var n := |props| - 1;
      assert props[..n][..k] == props[..k];
      FirstErrorPrefix(props[..n], k);
    } else {
      assert props[..k] == props;
    }
  }

  /**
   * The bridge asset is also among the accepted props, so the `assets`
   * getter, which lists the rebuilt assets and then the bridge asset, shows
   * the bridge coin twice.
   */
  lemma BridgeListedTwice(props: seq<AssetProps>)
    requires LastBridge(props).Some?
    ensures exists i :: 0 <= i < |Kept(props)| && Kept(props)[i] == LastBridge(props).value
  {
    var b := LastBridge(props).value;
    var i :| 0 <= i < |Kept(props)| && Kept(props)[i] == b;
  }

  // ------------------------------------------------------------- evaluation

  /**
   * The `filter`/`map`/`filter` pipeline: each asset whose coin code is not
   * the asset code of an active operation, scored by `best`, kept when the
   * score exceeds 1; in asset order.
   */
  function Candidates(assets: seq<Asset>, active: set<string>, best: (Coin, real) -> (AltCoin, real)): (r: seq<Candidate>)
    ensures forall c :: c in r ==> c.asset in assets && c.asset.coin.Code() !in active
                                   && c.score > 1.0 && best(c.asset.coin, Fee) == (c.target, c.score)
    ensures forall a :: a in assets && a.coin.Code() !in active && best(a.coin, Fee).1 > 1.0 ==>
                          exists c :: c in r && c.asset == a
  {
    if |assets| == 0 then []
    else
      var a := assets[0];
      var t := best(a.coin, Fee);
      assert forall x :: x in assets ==> x == a || x in assets[1..];
      var rest := Candidates(assets[1..], active, best);
      if a.coin.Code() !in active && t.1 > 1.0 then
        assert Candidate(a, t.0, t.1) in [Candidate(a, t.0, t.1)] + rest;
        [Candidate(a, t.0, t.1)] + rest
      else rest
  }

  /**
   * The candidates keep the asset order: those of a list of assets are those
   * of its first part followed by those of the rest, and one asset yields
   * itself exactly when it is free and scores above 1.
   */
  lemma {:induction false} CandidatesInAssetOrder(xs: seq<Asset>, ys: seq<Asset>, active: set<string>, best: (Coin, real) -> (AltCoin, real))
    ensures Candidates(xs + ys, active, best) == Candidates(xs, active, best) + Candidates(ys, active, best)
    ensures forall a :: Candidates([a], active, best) ==
              if a.coin.Code() !in active && best(a.coin, Fee).1 > 1.0
              then [Candidate(a, best(a.coin, Fee).0, best(a.coin, Fee).1)] else []
  {
    if |xs| > 0 {
      assert (xs + ys)[1..] == xs[1..] + ys;
      CandidatesInAssetOrder(xs[1..], ys, active, best);
    } else {
      assert xs + ys == ys;
    }
  }

  /**
   * The intended `reduce`: the candidate with the highest score; among equal
   * scores the later one wins, as `acc.score > cur.score ? acc : cur` keeps
   * the accumulator only when strictly greater.
   */
  function BestOf(cs: seq<Candidate>): (r: Candidate)
    requires |cs| > 0
    ensures r in cs
    ensures forall c :: c in cs ==> c.score <= r.score
    ensures exists i :: 0 <= i < |cs| && cs[i] == r && forall j :: i < j < |cs| ==> cs[j].score < r.score
  {
    if |cs| == 1 then cs[0]
    else
      var n := |cs| - 1;
      var acc := BestOf(cs[..n]);
      assert forall c :: c in cs ==> c in cs[..n] || c == cs[n];
      if acc.score > cs[n].score then
        var i :| 0 <= i < n && cs[..n][i] == acc && forall j :: i < j < n ==> cs[..n][j].score < acc.score;
        assert cs[i] == acc && forall j :: i < j < |cs| ==> cs[j].score < acc.score by {
          forall j | i < j < |cs| ensures cs[j].score < acc.score {
            if j < n {
              assert cs[..n][j] == cs[j];
            }
          }
        }
        acc
      else
        cs[n]
  }

  /**
   * The source's `reduce(f, undefined)`: the accumulator starts undefined
   * and the first step reads `acc.trade` on it.
   */
  function ReduceFromUndefined(acc: Option<Candidate>, cs: seq<Candidate>): Result<Option<Candidate>, string>
    decreases |cs|
  {
    if |cs| == 0 then Success(acc)
    else if acc.None? then Failure("TypeError: cannot read properties of undefined (reading 'trade')")
    else ReduceFromUndefined(Some(if acc.value.score > cs[0].score then acc.value else cs[0]), cs[1..])
  }

  /** As written, any surviving candidate makes `evaluateMarket` throw; with none it returns nothing. */
  lemma ReduceFromUndefinedThrows(cs: seq<Candidate>)
    ensures ReduceFromUndefined(None, cs).Failure? <==> |cs| > 0
    ensures |cs| == 0 ==> ReduceFromUndefined(None, cs) == Success(None)
  {
  }

  // ---------------------------------------------------------------- settling

  /** `findIndex((o) => o === x)`. */
  function FindIndex<T(==)>(s: seq<T>, x: T): (i: int)
    ensures -1 <= i < |s|
    ensures 0 <= i ==> s[i] == x && forall j :: 0 <= j < i ==> s[j] != x
    ensures i < 0 ==> x !in s
  {
    if |s| == 0 then -1
    else if s[0] == x then 0
    else
      var r := FindIndex(s[1..], x);
      if r < 0 then -1 else r + 1
  }

  /** `s.splice(start, 1)` on a copy: a negative start counts from the end. */
  function SpliceOne<T>(s: seq<T>, start: int): seq<T> {
    var st := if start < 0 then (if |s| + start < 0 then 0 else |s| + start)
              else if start > |s| then |s| else start;
    if st < |s| then s[..st] + s[st + 1..] else s
  }

  /** Removing a listed operation takes out its first occurrence and keeps the others in order. */
  lemma SpliceFound<T>(s: seq<T>, x: T)
    requires x in s
    ensures var i := FindIndex(s, x);
            SpliceOne(s, i) == s[..i] + s[i + 1..] && |SpliceOne(s, i)| == |s| - 1
    ensures (forall i, j :: 0 <= i < j < |s| ==> s[i] != s[j]) ==> x !in SpliceOne(s, FindIndex(s, x))
  {
    var i := FindIndex(s, x);
    if forall i, j :: 0 <= i < j < |s| ==> s[i] != s[j] {
      forall k | 0 <= k < |SpliceOne(s, i)| ensures SpliceOne(s, i)[k] != x {
        if k >= i {
          assert SpliceOne(s, i)[k] == s[k + 1];
        }
      }
    }
  }

  /** Settling an operation that is not listed drops the LAST operation instead (`splice(-1, 1)`). */
  lemma SpliceMissingDropsLast<T>(s: seq<T>, x: T)
    requires x !in s
    ensures SpliceOne(s, FindIndex(s, x)) == if |s| == 0 then s else s[..|s| - 1]
  {
  }

  /** `_assets.find((a) => a.coin === coin)`, as an index (-1: not held). */
  function FindAsset(assets: seq<Asset>, coin: Coin): (i: int)
    ensures -1 <= i < |assets|
    ensures 0 <= i ==> assets[i].coin == coin && forall j :: 0 <= j < i ==> assets[j].coin != coin
    ensures i < 0 ==> forall j :: 0 <= j < |assets| ==> assets[j].coin != coin
  {
    if |assets| == 0 then -1
    else if assets[0].coin == coin then 0
    else
      var r := FindAsset(assets[1..], coin);
      if r < 0 then -1 else r + 1
  }

  class Trader {
    var assets: seq<Asset>
    var bridgeAsset: Option<Asset>
    /** Active operations; the source never initialises this list, here it starts empty. */
    var operations: seq<Operation>

    constructor (assets: seq<Asset>, bridgeAsset: Option<Asset>)
      ensures this.assets == assets && this.bridgeAsset == bridgeAsset && operations == []
    {
      this.assets := assets;
      this.bridgeAsset := bridgeAsset;
      operations := [];
    }

    /** The asset codes of the active operations. */
    function ActiveCodes(): set<string>
      reads this
    {
      set op | op in operations :: op.AssetCode()
    }

    /**
     * `evaluateMarket`, with the `reduce` as intended: nothing when no free
     * asset scores above 1, otherwise the best-scoring candidate, the later
     * one on a tie.
     */
    function EvaluateMarket(best: (Coin, real) -> (AltCoin, real)): (r: Option<Candidate>)
      reads this
      ensures var cs := Candidates(assets, ActiveCodes(), best);
              && (r.None? <==> |cs| == 0)
              && (r.Some? ==> r.value in cs && forall c :: c in cs ==> c.score <= r.value.score)
              && (r.Some? ==> exists i :: 0 <= i < |cs| && cs[i] == r.value
                                          && forall j :: i < j < |cs| ==> cs[j].score < r.value.score)
      ensures r.Some? ==> r.value.asset in assets && r.value.score > 1.0
                          && forall op :: op in operations ==> op.AssetCode() != r.value.asset.coin.Code()
      ensures r.Some? ==> best(r.value.asset.coin, Fee) == (r.value.target, r.value.score)
    {
      var cs := Candidates(assets, ActiveCodes(), best);
      if |cs| == 0 then None else Some(BestOf(cs))
    }

    /** `evaluateMarket` as written: the candidates go through `reduce(f, undefined)`. */
    function EvaluateMarketAsWritten(best: (Coin, real) -> (AltCoin, real)): (r: Result<Option<Candidate>, string>)
      reads this
      ensures r.Failure? <==> EvaluateMarket(best).Some?
      ensures r.Success? ==> r.value.None?
    {
      var cs := Candidates(assets, ActiveCodes(), best);
      ReduceFromUndefinedThrows(cs);
      ReduceFromUndefined(None, cs)
    }

    /** `addOperation`: appends the operation (and installs `Settle` as its finish handler); it is not started. */
    method AddOperation(op: Operation)
      modifies this`operations
      ensures operations == old(operations) + [op]
    {
      operations := operations + [op];
    }

    /**
     * The finish handler: removes the operation found by identity (with
     * `splice`, so a missing one removes the last), then OVERWRITES the
     * balance of the first held asset of the target coin with
     * `targetBalance`. When the target coin is not held, the asset the
     * source creates is never stored, so no balance changes.
     */
    method Settle(op: Operation, targetBalance: real)
      modifies this`operations, assets
      ensures operations == SpliceOne(old(operations), FindIndex(old(operations), op))
      ensures var i := FindAsset(assets, Alt(op.target));
              forall j :: 0 <= j < |assets| ==>
                assets[j].balance == if 0 <= i && assets[j] == assets[i] then targetBalance else old(assets[j].balance)
    {
      var i := FindIndex(operations, op);
      operations := SpliceOne(operations, i);
      var k := FindAsset(assets, Alt(op.target));
      if 0 <= k {
        assets[k].balance := targetBalance;
      }
    }

    /** The `assets` getter: the held assets, then the bridge asset; `None` when there is no bridge asset (the source throws). */
    function AssetsView(): (r: Option<seq<AssetView>>)
      reads this, assets, if bridgeAsset.Some? then {bridgeAsset.value} else {}
      ensures r.Some? <==> bridgeAsset.Some?
      ensures r.Some? ==> |r.value| == |assets| + 1
                          && (forall i :: 0 <= i < |assets| ==> r.value[i] == AssetView(assets[i].coin, assets[i].balance))
                          && r.value[|assets|] == AssetView(bridgeAsset.value.coin, bridgeAsset.value.balance)
    {
      if bridgeAsset.None? then None
      else
        var a := assets;
        Some(seq(|a|, i reads a requires 0 <= i < |a| => AssetView(a[i].coin, a[i].balance))
             + [AssetView(bridgeAsset.value.coin, bridgeAsset.value.balance)])
    }
  }

  /**
   * `new Trader(props)`: rethrows the first rejection other than a missing
   * coin; otherwise keeps the last accepted bridge asset as `bridgeAsset` and
   * rebuilds the list of assets, as new objects, from every accepted prop,
   * the bridge included.
   */
  method NewTrader(props: seq<AssetProps>) returns (r: Result<Trader, InvalidProps>)
    ensures r.Failure? <==> FirstError(props).Some?
    ensures r.Failure? ==> r.error == FirstError(props).value
    ensures r.Success? ==>
              var t := r.value;
              && fresh(t) && t.operations == []
              && |t.assets| == |Kept(props)|
              && (forall i :: 0 <= i < |t.assets| ==>
                    fresh(t.assets[i]) && Kept(props)[i].coin == Some(t.assets[i].coin)
                    && Kept(props)[i].balance == Num(t.assets[i].balance))
              && (t.bridgeAsset.Some? <==> LastBridge(props).Some?)
              && (t.bridgeAsset.Some? ==>
                    fresh(t.bridgeAsset.value) && t.bridgeAsset.value !in t.assets
                    && LastBridge(props).value.coin == Some(t.bridgeAsset.value.coin)
                    && LastBridge(props).value.balance == Num(t.bridgeAsset.value.balance))
  {
    var bridge :- ScanBridge(props);
    var assets := RebuildAssets(props);
    var t := new Trader(assets, bridge);
    return Success(t);
  }

  /** The constructor's first loop: `createAsset` on each prop, remembering the last bridge asset. */
  method ScanBridge(props: seq<AssetProps>) returns (r: Result<Option<Asset>, InvalidProps>)
    ensures r.Failure? <==> FirstError(props).Some?
    ensures r.Failure? ==> r.error == FirstError(props).value
    ensures r.Success? ==>
              && (r.value.Some? <==> LastBridge(props).Some?)
              && (r.value.Some? ==>
                    fresh(r.value.value)
                    && LastBridge(props).value.coin == Some(r.value.value.coin)
                    && LastBridge(props).value.balance == Num(r.value.value.balance))
  {
    var bridge: Option<Asset> := None;
    var k := 0;
    while k < |props|
      invariant 0 <= k <= |props|
      invariant FirstError(props[..k]).None?
      invariant bridge.Some? <==> LastBridge(props[..k]).Some?
      invariant bridge.Some? ==>
                  fresh(bridge.value)
                  && LastBridge(props[..k]).value.coin == Some(bridge.value.coin)
                  && LastBridge(props[..k]).value.balance == Num(bridge.value.balance)
    {
      var p := props[k];
      assert props[..k + 1][..k] == props[..k];
      var a := NewAsset(p);
      if a.Failure? {
        if a.error.prop != "coin" {
          FirstErrorPrefix(props, k + 1);
          return Failure(a.error);
        }
      } else if a.value.IsBridge() {
        bridge := Some(a.value);
      }
      k := k + 1;
    }
    assert props[..|props|] == props;
    return Success(bridge);
  }

  /** The constructor's rebuild: a new asset for every accepted prop, in order. */
  method RebuildAssets(props: seq<AssetProps>) returns (assets: seq<Asset>)
    requires FirstError(props).None?
    ensures |assets| == |Kept(props)|
    ensures forall i :: 0 <= i < |assets| ==>
              fresh(assets[i]) && Kept(props)[i].coin == Some(assets[i].coin)
              && Kept(props)[i].balance == Num(assets[i].balance)
  {
    assets := [];
    var k := 0;
    while k < |props|
      invariant 0 <= k <= |props|
      invariant |assets| == |Kept(props[..k])|
      invariant forall i :: 0 <= i < |assets| ==>
                  fresh(assets[i]) && Kept(props[..k])[i].coin == Some(assets[i].coin)
                  && Kept(props[..k])[i].balance == Num(assets[i].balance)
    {
      assert props[..k + 1][..k] == props[..k];
      assert props[k] in props;
      var a := NewAsset(props[k]);
      if a.Success? {
        assets := assets + [a.value];
      }
      k := k + 1;
    }
    assert props[..|props|] == props;
  }
}
