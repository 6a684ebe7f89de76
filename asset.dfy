/**
 * Assets (src/trade/domain/asset.value-object.ts): a balance held in one coin.
 * The source exposes `balance` through a getter only, yet operations and the
 * trader assign it, so here it is a mutable field.
 */
module Assets {
  import opened Wrappers
  import opened Coins

  /** A JavaScript number: a finite value or NaN. */
  datatype JsNumber = Num(value: real) | NaN

  /** `AssetProps`, with the coin possibly null or undefined. */
  datatype AssetProps = AssetProps(coin: Option<Coin>, balance: JsNumber)

  /** The `InvalidProps` exception: a message and the name of the offending property. */
  datatype InvalidProps = InvalidProps(message: string, prop: string)

  /** JavaScript `a == b` on numbers: NaN equals nothing, not even NaN. */
  function LooseEquals(a: JsNumber, b: JsNumber): (r: bool)
    ensures r <==> a.Num? && b.Num? && a.value == b.value
  {
    match (a, b)
    case (Num(x), Num(y)) => x == y
    case _ => false
  }

  /**
   * `validate()` as written: the balance test `balance == NaN` can never be
   * true, so the only rejected props are those without a coin.
   */
  function ValidateAsWritten(p: AssetProps): (r: Option<InvalidProps>)
    ensures r.Some? <==> p.coin.None?
    ensures r.Some? ==> r.value.prop == "coin"
  {
    if p.coin.None? then Some(InvalidProps("coin not defined", "coin"))
    else if LooseEquals(p.balance, NaN) then Some(InvalidProps("balance not a number", "balance"))
    else None
  }

  /** A NaN balance passes the validation as written. */
  lemma NaNBalanceAccepted(c: Coin)
    ensures ValidateAsWritten(AssetProps(Some(c), NaN)).None?
  {
  }

  /** The validation as evidently intended: a missing coin, then a NaN balance, is rejected. */
  function Validate(p: AssetProps): (r: Option<InvalidProps>)
    ensures r.Some? <==> p.coin.None? || p.balance.NaN?
    ensures r.Some? ==> r.value.prop == (if p.coin.None? then "coin" else "balance")
  {
    if p.coin.None? then Some(InvalidProps("coin not defined", "coin"))
    else if p.balance.NaN? then Some(InvalidProps("balance not a number", "balance"))
    else None
  }

  /** The corrected validation rejects a superset of what the written one rejects, and NaN besides. */
  lemma ValidateRefinesAsWritten(p: AssetProps)
    ensures ValidateAsWritten(p).Some? ==> Validate(p) == ValidateAsWritten(p)
    ensures Validate(p).Some? && ValidateAsWritten(p).None? <==> p.coin.Some? && p.balance.NaN?
  {
  }

  class Asset {
    const coin: Coin
    var balance: real

    constructor (coin: Coin, balance: real)
      ensures this.coin == coin && this.balance == balance
    {
      this.coin := coin;
      this.balance := balance;
    }

    /** `isBridge`: the held coin is the bridge. */
    function IsBridge(): (r: bool)
      ensures r <==> coin.Bridge?
    {
      coin.IsBridge()
    }

    /** `pairWith`: the bridge pairs with every coin; an alt coin only with its registered pairs. */
    function PairWith(target: AltCoin): (r: bool)
      reads if coin.Alt? then {coin.alt} else {}
      ensures coin.Bridge? ==> r
      ensures coin.Alt? ==> (r <==> target.code in coin.alt.PairMap())
    {
      coin.IsBridge() || coin.alt.HasPair(Alt(target))
    }
  }

  /**
   * `new Asset(props)`: fails with the validation's error, otherwise a fresh
   * asset whose getters return exactly the props.
   */
  method NewAsset(p: AssetProps) returns (r: Result<Asset, InvalidProps>)
    ensures r.Failure? <==> Validate(p).Some?
    ensures r.Failure? ==> r.error == Validate(p).value
    ensures r.Success? ==> fresh(r.value) && p.coin == Some(r.value.coin) && p.balance == Num(r.value.balance)
  {
    var err := Validate(p);
    if err.Some? {
      return Failure(err.value);
    }
    var a := new Asset(p.coin.value, p.balance.value);
    return Success(a);
  }
}
