/**
 * The request and stream helpers of the two Binance exchange clients: the
 * Node client `BinanceApiClient` and the Deno client `Binance`. Both carry the
 * same `queryStringify`, `requireApiSecret`, `order` and stream-name code, so
 * each helper is modelled once. A request parameter object is an
 * insertion-ordered `Dict`, as JavaScript objects with string keys are.
 */
module ApiClients {
  import opened Wrappers
  import opened Dicts
  import opened Strings

  // ---------------------------------------------------------------- options

  /** The client options the helpers read; `None` is an option left undefined. */
  datatype Options = Options(
    apiKey: Option<string>,
    apiSecret: Option<string>,
    test: Option<bool>,
    reconnect: Option<bool>,
    recvWindow: Option<real>)

  /** The Node client's exported `defaultOptions`: no keys, live endpoints. */
  const NodeDefaults := Options(None, None, Some(false), Some(false), Some(5000.0))

  /** The Deno client's `defaultOptions`: empty keys and the test endpoints. */
  const DenoDefaults := Options(Some(""), Some(""), Some(true), Some(false), Some(5000.0))

  /** JavaScript truthiness of an optional string option. */
  predicate Present(s: Option<string>) {
    s.Some? && s.value != ""
  }

  /**
   * `requireApiSecret(source, fatalError)`: `Failure` is the thrown error,
   * `Success(b)` the returned boolean.
   */
  function RequireApiSecret(o: Options, source: string, fatal: bool): (r: Result<bool, string>)
    ensures r == Success(true) <==> Present(o.apiKey) && Present(o.apiSecret)
    ensures r.Failure? <==> fatal && !(Present(o.apiKey) && Present(o.apiSecret))
    ensures r.Failure? && !Present(o.apiKey) ==> r.error == source + ": Invalid API Key!"
    ensures r.Failure? && Present(o.apiKey) ==> r.error == source + ": Invalid API Secret!"
  {
    if !Present(o.apiKey) then
      if fatal then Failure(source + ": Invalid API Key!") else Success(false)
    else if !Present(o.apiSecret) then
      if fatal then Failure(source + ": Invalid API Secret!") else Success(false)
    else Success(true)
  }

  /** With its own defaults the Deno client cannot sign: its API key is empty. */
  lemma DenoDefaultsCannotSign(source: string)
    ensures RequireApiSecret(DenoDefaults, source, true) == Failure(source + ": Invalid API Key!")
    ensures RequireApiSecret(DenoDefaults, source, false) == Success(false)
  {
  }

  // ----------------------------------------------------------- query string

  /** A scalar request value. */
  datatype Scalar = Text(s: string) | Number(n: real)

  /** A request parameter: `undefined`, one scalar, or an array of scalars. */
  datatype Param = Undefined | One(v: Scalar) | Many(vs: seq<Scalar>)

  /** The `key=value` pieces one parameter contributes; `enc` is `encodeURIComponent`. */
  function EntryParts(key: string, p: Param, enc: Scalar -> string): seq<string> {
    match p
    case Undefined => []
    case One(v) => [key + "=" + enc(v)]
    case Many(vs) => seq(|vs|, i requires 0 <= i < |vs| => key + "=" + enc(vs[i]))
  }

  /** The pieces of a whole parameter object, in key order. */
  function QueryParts(q: Dict<Param>, enc: Scalar -> string): seq<string> {
    if |q| == 0 then []
    else QueryParts(q[..|q| - 1], enc) + EntryParts(q[|q| - 1].key, q[|q| - 1].value, enc)
  }

  /** `queryStringify(q)`: the pieces pushed one by one, then joined by '&'. */
  method QueryStringify(q: Dict<Param>, enc: Scalar -> string) returns (s: string)
    ensures s == Join(QueryParts(q, enc), "&")
  {
    var res: seq<string> := [];
    for i := 0 to |q|
      invariant res == QueryParts(q[..i], enc)
    {
      ghost var before := res;
      var key := q[i].key;
      match q[i].value {
        case Many(vs) =>
          for j := 0 to |vs|
            invariant res == before + EntryParts(key, Many(vs[..j]), enc)
          {
            ManyStep(key, vs, j, enc);
            res := res + [key + "=" + enc(vs[j])];
          }
          assert vs[..|vs|] == vs;
        case One(v) =>
          res := res + [key + "=" + enc(v)];
        case Undefined =>
      }
      assert q[..i + 1] == q[..i] + [q[i]];
      QueryPartsSnoc(q[..i], q[i], enc);
    }
    assert q[..|q|] == q;
    s := Join(res, "&");
  }

  /** One more array element adds one piece. */
  lemma ManyStep(key: string, vs: seq<Scalar>, j: nat, enc: Scalar -> string)
    requires j < |vs|
    ensures EntryParts(key, Many(vs[..j + 1]), enc) == EntryParts(key, Many(vs[..j]), enc) + [key + "=" + enc(vs[j])]
  {
    assert vs[..j + 1][j] == vs[j];
    assert forall k :: 0 <= k < j ==> vs[..j + 1][k] == vs[..j][k];
  }

  /** Serialising one more parameter appends its pieces. */
  lemma QueryPartsSnoc(q: Dict<Param>, e: Entry<Param>, enc: Scalar -> string)
    ensures QueryParts(q + [e], enc) == QueryParts(q, enc) + EntryParts(e.key, e.value, enc)
  {
    assert (q + [e])[..|q|] == q;
  }

  lemma ConcatAssoc<T>(x: seq<T>, y: seq<T>, z: seq<T>)
    ensures (x + y) + z == x + (y + z)
  {
  }

  /** One more parameter after `a + init` keeps the split into `a`'s pieces and the rest. */
  lemma AppendStep(a: Dict<Param>, init: Dict<Param>, e: Entry<Param>, enc: Scalar -> string)
    requires QueryParts(a + init, enc) == QueryParts(a, enc) + QueryParts(init, enc)
    ensures QueryParts(a + (init + [e]), enc) == QueryParts(a, enc) + QueryParts(init + [e], enc)
  {
    assert a + (init + [e]) == (a + init) + [e];
    QueryPartsSnoc(a + init, e, enc);
    QueryPartsSnoc(init, e, enc);
    ConcatAssoc(QueryParts(a, enc), QueryParts(init, enc), EntryParts(e.key, e.value, enc));
  }

  /** Serialising a concatenation keeps the order: all of `a`'s pieces, then `b`'s. */
  lemma {:induction false} QueryPartsAppend(a: Dict<Param>, b: Dict<Param>, enc: Scalar -> string)
    ensures QueryParts(a + b, enc) == QueryParts(a, enc) + QueryParts(b, enc)
  {
    if |b| == 0 {
      assert a + b == a;
    } else {
      var init, e := b[..|b| - 1], b[|b| - 1];
      QueryPartsAppend(a, init, enc);
      AppendStep(a, init, e, enc);
      assert b == init + [e];
    }
  }

  /** Every piece starts with a key and '=', so no piece is empty. */
  lemma {:induction false} QueryPartsNonEmpty(q: Dict<Param>, enc: Scalar -> string)
    ensures forall p :: p in QueryParts(q, enc) ==> |p| > 0
  {
    if |q| > 0 {
      QueryPartsNonEmpty(q[..|q| - 1], enc);
    }
  }

  lemma {:induction false} JoinEmpty(parts: seq<string>, sep: string)
    requires forall p :: p in parts ==> |p| > 0
    ensures Join(parts, sep) == "" <==> parts == []
  {
    if |parts| > 1 {
      assert parts[0] in parts;
    } else if |parts| == 1 {
      assert parts[0] in parts;
    }
  }

  /**
   * The query string is empty exactly when every parameter is `undefined` or
   * an empty array; in particular `{}` gives ''.
   */
  lemma {:induction false} QueryEmptyIff(q: Dict<Param>, enc: Scalar -> string)
    ensures Join(QueryParts(q, enc), "&") == "" <==>
      forall i :: 0 <= i < |q| ==> q[i].value == Undefined || q[i].value == Many([])
  {
    QueryPartsNonEmpty(q, enc);
    JoinEmpty(QueryParts(q, enc), "&");
    SilentIff(q, enc);
  }

  lemma {:induction false} SilentIff(q: Dict<Param>, enc: Scalar -> string)
    ensures QueryParts(q, enc) == [] <==>
      forall i :: 0 <= i < |q| ==> q[i].value == Undefined || q[i].value == Many([])
  {
    if |q| > 0 {
      var n := |q| - 1;
      SilentIff(q[..n], enc);
      var last := EntryParts(q[n].key, q[n].value, enc);
      assert last == [] <==> q[n].value == Undefined || q[n].value == Many([]) by {
        if q[n].value.Many? && |q[n].value.vs| > 0 {
          assert |last| == |q[n].value.vs|;
        }
      }
      if QueryParts(q, enc) == [] {
        assert QueryParts(q[..n], enc) == [] && last == [];
        forall i | 0 <= i < n
          ensures q[i].value == Undefined || q[i].value == Many([])
        {
          assert q[..n][i] == q[i];
        }
      } else {
        forall i | 0 <= i < n
          ensures q[..n][i].value == Undefined || q[..n][i].value == Many([]) <==>
                  q[i].value == Undefined || q[i].value == Many([])
        {
          assert q[..n][i] == q[i];
        }
      }
    }
  }

  // ----------------------------------------------------------------- orders

  const Base := "https://api.binance.com/api/"

  /** The values the typed `BinanceOrderFlags.type` admits. */
  predicate TypeValue(p: Param) {
    p == Undefined || p in [One(Text("LIMIT")), One(Text("MARKET")), One(Text("STOP_LOSS")),
                            One(Text("LIMIT_MAKER")), One(Text("OCO"))]
  }

  /** A flags object as the typed interface admits it: distinct keys, a known `type`. */
  ghost predicate WellTypedFlags(flags: Dict<Param>) {
    DistinctKeys(flags) && forall i :: 0 <= i < |flags| && flags[i].key == "type" ==> TypeValue(flags[i].value)
  }

  /** The endpoint an order is sent to. */
  function OrderEndpoint(flags: Dict<Param>, o: Options): (e: string)
    ensures |e| >= 8 && e[..8] == "v3/order"
    ensures |e| >= 12 && e[8..12] == "/oco" <==> Get(flags, "type") == Some(One(Text("OCO")))
    ensures e[|e| - 5..] == "/test" <==> o.test == Some(true)
  {
    var oco := Get(flags, "type") == Some(One(Text("OCO")));
    if oco && o.test == Some(true) then
      assert "v3/order/oco/test"[8..12] == "/oco";
      "v3/order/oco/test"
    else if oco then
      assert "v3/order/oco"[8..12] == "/oco";
      assert "v3/order/oco"[7..][0] != "/test"[0];
      "v3/order/oco"
    else if o.test == Some(true) then
      assert "v3/order/test"[8..12][1] != "/oco"[1];
      "v3/order/test"
    else
      assert "v3/order"[3..][0] != "/test"[0];
      "v3/order"
  }

  /** Built with its own defaults, the Deno client orders on the test endpoint; the Node client does not. */
  lemma DefaultEndpoints(flags: Dict<Param>)
    ensures OrderEndpoint(flags, DenoDefaults)[|OrderEndpoint(flags, DenoDefaults)| - 5..] == "/test"
    ensures OrderEndpoint(flags, NodeDefaults)[|OrderEndpoint(flags, NodeDefaults)| - 5..] != "/test"
  {
  }

  /** `{ symbol, side, type: 'LIMIT', quantity }`, before the flags are spread over it. */
  function DefaultParams(symbol: string, side: string, quantity: real): Dict<Param> {
    [Entry("symbol", One(Text(symbol))), Entry("side", One(Text(side))),
     Entry("type", One(Text("LIMIT"))), Entry("quantity", One(Number(quantity)))]
  }

  /** The contents of `{ symbol, side, type: 'LIMIT', quantity, ...flags }`: a flag wins over a default. */
  ghost function Merged(symbol: string, side: string, quantity: real, flags: Dict<Param>): map<string, Param> {
    map["symbol" := One(Text(symbol)), "side" := One(Text(side)),
        "type" := One(Text("LIMIT")), "quantity" := One(Number(quantity))] + ToMap(flags)
  }

  /** `opt.type?.includes('LIMIT')`. */
  predicate IsLimitType(t: Param) {
    t.One? && t.v.Text? && Includes(t.v.s, "LIMIT")
  }

  /**
   * Of the typed order types, LIMIT and LIMIT_MAKER take a price; MARKET,
   * STOP_LOSS and OCO (which gets its price separately) do not.
   */
  lemma LimitTypes()
    ensures IsLimitType(One(Text("LIMIT"))) && IsLimitType(One(Text("LIMIT_MAKER")))
    ensures !IsLimitType(One(Text("MARKET"))) && !IsLimitType(One(Text("STOP_LOSS")))
    ensures !IsLimitType(One(Text("OCO"))) && !IsLimitType(Undefined)
  {
    assert OccursAt("LIMIT", "LIMIT", 0);
    assert OccursAt("LIMIT_MAKER", "LIMIT", 0) by {
      assert "LIMIT_MAKER"[0..5] == "LIMIT";
    }
    NoLimitIn("MARKET");
    NoLimitIn("STOP_LOSS");
  }

  /** A word with no 'L' where "LIMIT" could start cannot contain it. */
  lemma NoLimitIn(s: string)
    requires forall i :: 0 <= i <= |s| - 5 ==> s[i] != 'L'
    ensures !Includes(s, "LIMIT")
  {
    forall i | OccursAt(s, "LIMIT", i)
      ensures false
    {
      LimitStartsWithL(s, i);
    }
  }

  lemma LimitStartsWithL(s: string, i: int)
    requires OccursAt(s, "LIMIT", i)
    ensures s[i] == 'L'
  {
    assert s[i..i + 5][0] == s[i];
  }

  /** `typeof flags[key] !== 'undefined'`. */
  predicate Given(flags: Dict<Param>, key: string) {
    Get(flags, key).Some? && Get(flags, key).value != Undefined
  }

  /** Parameter `k` of `p` is that of `m`: present in both or in neither, and equal. */
  ghost predicate Kept(p: map<string, Param>, m: map<string, Param>, k: string) {
    (k in p <==> k in m) && (k in p && k in m ==> p[k] == m[k])
  }

  const StopPriceError := "stopPrice: Must set \"type\" to one of the following: STOP_LOSS, STOP_LOSS_LIMIT, TAKE_PROFIT, TAKE_PROFIT_LIMIT"

  datatype OrderRequest = OrderRequest(url: string, params: Dict<Param>)

  /**
   * The parameter object `order` sends, entry by entry: the spread of the
   * defaults and the flags, then the LIMIT and OCO rewrites in the order the
   * source applies them.
   */
  function OrderParams(symbol: string, side: string, quantity: real, price: real, flags: Dict<Param>): Dict<Param> {
    var opt := FromEntries(DefaultParams(symbol, side, quantity) + flags);
    var t := Get(opt, "type");
    var limited :=
      if t.Some? && IsLimitType(t.value) then
        var priced := Put(opt, "price", One(Number(price)));
        if t.value != One(Text("LIMIT_MAKER")) then Put(priced, "timeInForce", One(Text("GTC"))) else priced
      else opt;
    if t == Some(One(Text("OCO")))
    then Remove(Put(Put(limited, "price", One(Number(price))), "stopLimitTimeInForce", One(Text("GTC"))), "type")
    else limited
  }

  /**
   * The synchronous part of `order(side, symbol, quantity, price, flags)`: the
   * endpoint and the parameter object `opt`, updated in place, or the error
   * thrown before any request.
   */
  method BuildOrder(o: Options, side: string, symbol: string, quantity: real, price: real, flags: Dict<Param>)
    returns (r: Result<OrderRequest, string>)
    requires WellTypedFlags(flags)
    ensures var t := Merged(symbol, side, quantity, flags)["type"];
      r.Failure? <==> Given(flags, "stopPrice") && t == One(Text("LIMIT"))
    ensures r.Failure? ==> r.error == StopPriceError
    ensures r.Success? ==> r.value.url == Base + OrderEndpoint(flags, o)
    ensures r.Success? ==> r.value.params == OrderParams(symbol, side, quantity, price, flags)
    ensures r.Success? ==> DistinctKeys(r.value.params)
    ensures r.Success? ==>
      var m := Merged(symbol, side, quantity, flags);
      var t := m["type"];
      var p := ToMap(r.value.params);
      && (if t == One(Text("OCO")) then "type" !in p else "type" in p && p["type"] == t)
      && (if IsLimitType(t) || t == One(Text("OCO"))
          then "price" in p && p["price"] == One(Number(price))
          else Kept(p, m, "price"))
      && (if IsLimitType(t) && t != One(Text("LIMIT_MAKER"))
          then "timeInForce" in p && p["timeInForce"] == One(Text("GTC"))
          else Kept(p, m, "timeInForce"))
      && (if t == One(Text("OCO"))
          then "stopLimitTimeInForce" in p && p["stopLimitTimeInForce"] == One(Text("GTC"))
          else Kept(p, m, "stopLimitTimeInForce"))
      && (forall k :: k in m && k !in Rewritten ==> k in p && p[k] == m[k])
      && (forall k :: k in p && k !in Rewritten ==> k in m)
  {
    var endpoint := OrderEndpoint(flags, o);
    var opt := FromEntries(DefaultParams(symbol, side, quantity) + flags);
    MergedParams(symbol, side, quantity, flags);
    GetIsToMap(opt, "type");
    var t := Get(opt, "type").value;
    if IsLimitType(t) {
      opt := Put(opt, "price", One(Number(price)));
      if t != One(Text("LIMIT_MAKER")) {
        opt := Put(opt, "timeInForce", One(Text("GTC")));
      }
    }
    if t == One(Text("OCO")) {
      opt := Put(opt, "price", One(Number(price)));
      opt := Put(opt, "stopLimitTimeInForce", One(Text("GTC")));
      opt := Remove(opt, "type");
    }
    assert opt == OrderParams(symbol, side, quantity, price, flags);
    OrderParamsMap(symbol, side, quantity, price, flags);
    LimitTypes();
    ParamsMapSpec(Merged(symbol, side, quantity, flags), t, t == One(Text("OCO")), IsLimitType(t), t == One(Text("LIMIT_MAKER")), price);
    GetIsToMap(opt, "type");
    if Given(flags, "stopPrice") && Get(opt, "type") == Some(One(Text("LIMIT"))) {
      r := Failure(StopPriceError);
    } else {
      r := Success(OrderRequest(Base + endpoint, opt));
    }
  }

  /**
   * The contents of the parameter object after the rewrites, given the
   * merged contents `m`: whether its type is OCO, a LIMIT type, LIMIT_MAKER.
   */
  ghost function ParamsMap(m: map<string, Param>, oco: bool, limit: bool, maker: bool, price: real): map<string, Param> {
    if oco then m["price" := One(Number(price))]["stopLimitTimeInForce" := One(Text("GTC"))] - {"type"}
    else if limit && !maker then m["price" := One(Number(price))]["timeInForce" := One(Text("GTC"))]
    else if limit then m["price" := One(Number(price))]
    else m
  }

  /** The parameter object has distinct keys, and its contents are `ParamsMap` of the merged contents. */
  lemma OrderParamsMap(symbol: string, side: string, quantity: real, price: real, flags: Dict<Param>)
    requires DistinctKeys(flags)
    ensures DistinctKeys(OrderParams(symbol, side, quantity, price, flags))
    ensures var m := Merged(symbol, side, quantity, flags);
            var t := m["type"];
            ToMap(OrderParams(symbol, side, quantity, price, flags))
              == ParamsMap(m, t == One(Text("OCO")), IsLimitType(t), t == One(Text("LIMIT_MAKER")), price)
  {
    var opt := FromEntries(DefaultParams(symbol, side, quantity) + flags);
    MergedParams(symbol, side, quantity, flags);
    GetIsToMap(opt, "type");
    var t := Get(opt, "type").value;
    var priced := Put(opt, "price", One(Number(price)));
    PutSpec(opt, "price", One(Number(price)));
    if t == One(Text("OCO")) {
      LimitTypes();
      var slPriced := Put(priced, "stopLimitTimeInForce", One(Text("GTC")));
      PutSpec(priced, "stopLimitTimeInForce", One(Text("GTC")));
      RemoveSpec(slPriced, "type");
    } else if IsLimitType(t) && t != One(Text("LIMIT_MAKER")) {
      PutSpec(priced, "timeInForce", One(Text("GTC")));
    }
  }

  /** What the rewrites do to each key: `ParamsMap` against the merged contents `m`, whose type is `t`. */
  lemma ParamsMapSpec(m: map<string, Param>, t: Param, oco: bool, limit: bool, maker: bool, price: real)
    requires "type" in m && m["type"] == t
    requires oco ==> !limit
    ensures var p := ParamsMap(m, oco, limit, maker, price);
      && (if oco then "type" !in p else "type" in p && p["type"] == t)
      && (if limit || oco
          then "price" in p && p["price"] == One(Number(price))
          else Kept(p, m, "price"))
      && (if limit && !maker
          then "timeInForce" in p && p["timeInForce"] == One(Text("GTC"))
          else Kept(p, m, "timeInForce"))
      && (if oco
          then "stopLimitTimeInForce" in p && p["stopLimitTimeInForce"] == One(Text("GTC"))
          else Kept(p, m, "stopLimitTimeInForce"))
      && (forall k :: k in m && k !in Rewritten ==> k in p && p[k] == m[k])
      && (forall k :: k in p && k !in Rewritten ==> k in m)
  {
  }

  /** The keys `order` may rewrite after the spread. */
  const Rewritten: set<string> := {"type", "price", "timeInForce", "stopLimitTimeInForce"}

  /** The spread `{ ...defaults, ...flags }` built entry by entry has the contents of `Merged`. */
  lemma MergedParams(symbol: string, side: string, quantity: real, flags: Dict<Param>)
    requires DistinctKeys(flags)
    ensures DistinctKeys(FromEntries(DefaultParams(symbol, side, quantity) + flags))
    ensures ToMap(FromEntries(DefaultParams(symbol, side, quantity) + flags)) == Merged(symbol, side, quantity, flags)
    ensures "type" in Merged(symbol, side, quantity, flags)
  {
    var d := DefaultParams(symbol, side, quantity);
    FromEntriesKeys(d + flags);
    FromEntriesAppend(d, flags);
    DefaultsMap(symbol, side, quantity);
    FromEntriesDistinct(flags);
  }

  lemma DefaultsMap(symbol: string, side: string, quantity: real)
    ensures ToMap(FromEntries(DefaultParams(symbol, side, quantity))) ==
      map["symbol" := One(Text(symbol)), "side" := One(Text(side)),
          "type" := One(Text("LIMIT")), "quantity" := One(Number(quantity))]
  {
    var d := DefaultParams(symbol, side, quantity);
    assert DistinctKeys(d) by {
      assert d[0].key == "symbol" && d[1].key == "side" && d[2].key == "type" && d[3].key == "quantity";
    }
    FromEntriesDistinct(d);
    assert ToMap(d[3..]) == map["quantity" := One(Number(quantity))] by {
      assert d[3..][1..] == [];
    }
    assert ToMap(d[2..]) == ToMap(d[3..])["type" := One(Text("LIMIT"))] by {
      assert d[2..][1..] == d[3..];
    }
    assert ToMap(d[1..]) == ToMap(d[2..])["side" := One(Text(side))] by {
      assert d[1..][1..] == d[2..];
    }
  }

  // ---------------------------------------------------------------- signing

  /** `options.recvWindow` as a parameter value. */
  function OptionWindow(o: Options): Param {
    if o.recvWindow.Some? then One(Number(o.recvWindow.value)) else Undefined
  }

  /** `data.recvWindow ?? options.recvWindow`. */
  function RecvWindow(data: Dict<Param>, o: Options): Param {
    var p := Get(data, "recvWindow");
    if p.Some? && p.value != Undefined then p.value else OptionWindow(o)
  }

  /** `data` after `signedRequest` sets `timestamp` and `recvWindow` on it. */
  function Stamped(data: Dict<Param>, now: real, o: Options): Dict<Param> {
    var d := Put(data, "timestamp", One(Number(now)));
    Put(d, "recvWindow", RecvWindow(d, o))
  }

  /**
   * Stamping keeps every other parameter, sets the timestamp, keeps a given
   * `recvWindow` and otherwise takes the client's; the two keys are appended
   * when they are new.
   */
  lemma StampedSpec(data: Dict<Param>, now: real, o: Options)
    requires DistinctKeys(data)
    ensures DistinctKeys(Stamped(data, now, o))
    ensures var m := ToMap(data);
      ToMap(Stamped(data, now, o)) ==
        m["timestamp" := One(Number(now))]
         ["recvWindow" := if "recvWindow" in m && m["recvWindow"] != Undefined then m["recvWindow"] else OptionWindow(o)]
    ensures Keys(data) <= Keys(Stamped(data, now, o))
  {
    var d := Put(data, "timestamp", One(Number(now)));
    PutSpec(data, "timestamp", One(Number(now)));
    PutSpec(d, "recvWindow", RecvWindow(d, o));
    GetIsToMap(d, "recvWindow");
    PutKeys(data, "timestamp", One(Number(now)));
    PutKeys(d, "recvWindow", RecvWindow(d, o));
  }

  /** A parameter object holding one scalar has a non-empty query string. */
  lemma QueryNotEmpty(q: Dict<Param>, k: string, enc: Scalar -> string)
    requires DistinctKeys(q) && k in ToMap(q) && ToMap(q)[k].One?
    ensures QueryParts(q, enc) != []
  {
    ToMapKeys(q);
    var e :| e in q && e.key == k;
    var i :| 0 <= i < |q| && q[i] == e;
    ToMapAt(q, i);
    SilentIff(q, enc);
  }

  datatype PostRequest = PostRequest(url: string, body: string, apiKey: string)

  /**
   * `signedRequest(url, data, callback, 'POST')` up to the network: the key
   * check, the stamped query, its signature and the form body. `sign(secret,
   * query)` is the HMAC-SHA256 signature in hex.
   */
  method SignedPost(o: Options, url: string, data: Dict<Param>, now: real,
                    sign: (string, string) -> string, enc: Scalar -> string)
    returns (r: Result<PostRequest, string>)
    requires DistinctKeys(data)
    ensures r.Failure? <==> !(Present(o.apiKey) && Present(o.apiSecret))
    ensures r.Failure? ==> r.error == RequireApiSecret(o, "signedRequest", true).error
    ensures r.Success? ==>
      var query := Join(QueryParts(Stamped(data, now, o), enc), "&");
      && r.value.url == url
      && r.value.apiKey == o.apiKey.value
      && (Get(data, "signature") == None ==>
            r.value.body == query + "&" + ("signature" + "=" + enc(Text(sign(o.apiSecret.value, query)))))
  {
    var check := RequireApiSecret(o, "signedRequest", true);
    if check.Failure? {
      r := Failure(check.error);
      return;
    }
    var d := Put(data, "timestamp", One(Number(now)));
    d := Put(d, "recvWindow", RecvWindow(d, o));
    var query := QueryStringify(d, enc);
    var signature := sign(o.apiSecret.value, query);
    var signed := Put(d, "signature", One(Text(signature)));
    var body := QueryStringify(signed, enc);
    if Get(data, "signature") == None {
      SignatureAppended(data, now, o, signature, enc);
    }
    r := Success(PostRequest(url, body, o.apiKey.value));
  }

  /** The form body is the signed query followed by `&signature=`. */
  lemma SignatureAppended(data: Dict<Param>, now: real, o: Options, signature: string, enc: Scalar -> string)
    requires DistinctKeys(data) && Get(data, "signature") == None
    ensures var s := Stamped(data, now, o);
      Join(QueryParts(Put(s, "signature", One(Text(signature))), enc), "&") ==
      Join(QueryParts(s, enc), "&") + "&" + ("signature" + "=" + enc(Text(signature)))
  {
    var s := Stamped(data, now, o);
    var e := Entry("signature", One(Text(signature)));
    var piece := "signature" + "=" + enc(Text(signature));
    SignatureIsNew(data, now, o, One(Text(signature)));
    QueryPartsSnoc(s, e, enc);
    assert EntryParts(e.key, e.value, enc) == [piece];
    StampedQueryNotEmpty(data, now, o, enc);
    JoinSnoc(QueryParts(s, enc), piece, "&");
  }

  lemma SignatureIsNew(data: Dict<Param>, now: real, o: Options, v: Param)
    requires DistinctKeys(data) && Get(data, "signature") == None
    ensures Put(Stamped(data, now, o), "signature", v) == Stamped(data, now, o) + [Entry("signature", v)]
  {
    StampedSpec(data, now, o);
    GetIsToMap(data, "signature");
    GetIsToMap(Stamped(data, now, o), "signature");
  }

  /** A stamped query always carries its timestamp. */
  lemma StampedQueryNotEmpty(data: Dict<Param>, now: real, o: Options, enc: Scalar -> string)
    requires DistinctKeys(data)
    ensures QueryParts(Stamped(data, now, o), enc) != []
  {
    StampedSpec(data, now, o);
    QueryNotEmpty(Stamped(data, now, o), "timestamp", enc);
  }

  /** Building an order adds no `signature` parameter the flags do not hold. */
  lemma NoSignatureAdded(symbol: string, side: string, quantity: real, flags: Dict<Param>, params: Dict<Param>)
    requires Get(flags, "signature") == None
    requires forall k :: k in ToMap(params) && k !in Rewritten ==> k in Merged(symbol, side, quantity, flags)
    ensures Get(params, "signature") == None
  {
    GetIsToMap(flags, "signature");
    GetIsToMap(params, "signature");
  }

  /**
   * `order(...)` up to the network: the parameter object is built, then
   * signed and sent as a POST form body.
   */
  method Order(o: Options, side: string, symbol: string, quantity: real, price: real, flags: Dict<Param>,
               now: real, sign: (string, string) -> string, enc: Scalar -> string)
    returns (r: Result<PostRequest, string>)
    requires WellTypedFlags(flags)
    ensures var stopped := Given(flags, "stopPrice") && Merged(symbol, side, quantity, flags)["type"] == One(Text("LIMIT"));
      && (r.Failure? <==> stopped || !(Present(o.apiKey) && Present(o.apiSecret)))
      && (stopped ==> r == Failure(StopPriceError))
      && (!stopped && r.Failure? ==> r.error == RequireApiSecret(o, "signedRequest", true).error)
    ensures r.Success? ==> r.value.url == Base + OrderEndpoint(flags, o) && r.value.apiKey == o.apiKey.value
    ensures r.Success? && Get(flags, "signature") == None ==>
      var query := Join(QueryParts(Stamped(OrderParams(symbol, side, quantity, price, flags), now, o), enc), "&");
      r.value.body == query + "&" + ("signature" + "=" + enc(Text(sign(o.apiSecret.value, query))))
  {
    var built := BuildOrder(o, side, symbol, quantity, price, flags);
    if built.Failure? {
      r := Failure(built.error);
      return;
    }
    if Get(flags, "signature") == None {
      NoSignatureAdded(symbol, side, quantity, flags, built.value.params);
    }
    r := SignedPost(o, built.value.url, built.value.params, now, sign, enc);
  }

  // ---------------------------------------------------------------- streams

  const StreamBase := "wss://stream.binance.com:9443/ws/"
  const CombinedBase := "wss://stream.binance.com:9443/stream?streams="

  /** The kline stream of one symbol. */
  function KlineStream(symbol: string, interval: string): string {
    Lower(symbol) + "@kline_" + interval
  }

  /** The book-ticker stream of one symbol. */
  function BookTickerStream(symbol: string): string {
    Lower(symbol) + "@bookTicker"
  }

  /** A symbol argument of `candlesticks`: one string or an array. */
  datatype Symbols = OneSymbol(symbol: string) | SymbolList(symbols: seq<string>)

  /** A socket on one stream, or a combined socket on several. */
  datatype Subscription = Single(stream: string) | Combined(streams: seq<string>)

  /** The subscription `candlesticks(symbols, interval, cb)` opens. */
  function Candlesticks(symbols: Symbols, interval: string): (r: Subscription)
    ensures r.Single? <==> symbols.OneSymbol?
    ensures r.Single? ==> r.stream == KlineStream(symbols.symbol, interval)
    ensures r.Combined? ==> |r.streams| == |symbols.symbols|
    ensures r.Combined? ==> forall i :: 0 <= i < |r.streams| ==> r.streams[i] == KlineStream(symbols.symbols[i], interval)
  {
    match symbols
    case OneSymbol(s) => Single(KlineStream(s, interval))
    case SymbolList(ss) => Combined(seq(|ss|, i requires 0 <= i < |ss| => KlineStream(ss[i], interval)))
  }

  /** The URL `subscribe` / `subscribeCombined` open and `candlesticks` returns. */
  function SubscriptionUrl(s: Subscription): string {
    match s
    case Single(stream) => StreamBase + stream
    case Combined(streams) => CombinedBase + Join(streams, "/")
  }

  /** A one-element array asks for the same stream as the bare symbol, over the combined socket. */
  lemma OneElementList(symbol: string, interval: string)
    ensures Candlesticks(SymbolList([symbol]), interval).streams == [Candlesticks(OneSymbol(symbol), interval).stream]
    ensures SubscriptionUrl(Candlesticks(SymbolList([symbol]), interval)) ==
      CombinedBase + Candlesticks(OneSymbol(symbol), interval).stream
  {
  }

  lemma LowerIdempotent(s: string)
    ensures Lower(Lower(s)) == Lower(s)
  {
    assert forall i :: 0 <= i < |s| ==> LowerChar(LowerChar(s[i])) == LowerChar(s[i]);
  }

  /** Lowering the suffixed name cancels: equal stream names mean equal lowered symbols. */
  lemma {:induction false} SuffixCancel(a: string, b: string, suffix: string)
    ensures a + suffix == b + suffix <==> a == b
  {
    if a + suffix == b + suffix {
      assert |a| == |b|;
      assert forall i :: 0 <= i < |a| ==> a[i] == (a + suffix)[i] == (b + suffix)[i] == b[i];
    }
  }

  /**
   * Stream names ignore the case of the symbol and tell lowered symbols apart:
   * two symbols share a kline stream exactly when they lower to the same string.
   */
  lemma KlineStreamCase(a: string, b: string, interval: string)
    ensures KlineStream(a, interval) == KlineStream(b, interval) <==> Lower(a) == Lower(b)
    ensures KlineStream(Lower(a), interval) == KlineStream(a, interval)
  {
    LowerIdempotent(a);
    assert KlineStream(a, interval) == Lower(a) + ("@kline_" + interval);
    assert KlineStream(b, interval) == Lower(b) + ("@kline_" + interval);
    if KlineStream(a, interval) == KlineStream(b, interval) {
      assert |Lower(a)| == |Lower(b)|;
    }
    SuffixCancel(Lower(a), Lower(b), "@kline_" + interval);
  }

  /** The same for book-ticker streams. */
  lemma BookTickerStreamCase(a: string, b: string)
    ensures BookTickerStream(a) == BookTickerStream(b) <==> Lower(a) == Lower(b)
    ensures BookTickerStream(Lower(a)) == BookTickerStream(a)
  {
    LowerIdempotent(a);
    if BookTickerStream(a) == BookTickerStream(b) {
      assert |Lower(a)| == |Lower(b)|;
    }
    SuffixCancel(Lower(a), Lower(b), "@bookTicker");
  }

  // ----------------------------------------------------------- book tickers

  /** A book-ticker message as the exchange sends it. */
  datatype RawBookTicker = RawBookTicker(u: int, s: string, b: string, B: string, a: string, A: string)

  /** The book ticker the client hands to its callback. */
  datatype BookTicker = BookTicker(
    updateId: int, symbol: string, bestBid: string, bestBidQty: string, bestAsk: string, bestAskQty: string)

  /** `fBookTickerConvertData`: each short field under its long name. */
  function ConvertBookTicker(d: RawBookTicker): BookTicker {
    BookTicker(d.u, d.s, d.b, d.B, d.a, d.A)
  }

  /** The message a book ticker came from. */
  function RawOf(t: BookTicker): RawBookTicker {
    RawBookTicker(t.updateId, t.symbol, t.bestBid, t.bestBidQty, t.bestAsk, t.bestAskQty)
  }

  /** The conversion loses nothing and invents nothing. */
  lemma ConvertRoundTrip(d: RawBookTicker, t: BookTicker)
    ensures RawOf(ConvertBookTicker(d)) == d
    ensures ConvertBookTicker(RawOf(t)) == t
  {
  }
}
