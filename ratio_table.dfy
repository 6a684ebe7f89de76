/**
 * The shape of the initial ratio table, built the same way in
 * src/trade/repository/repository.service.ts and
 * src/trade/accountant/accountant.service.ts: a nested `reduce` giving, for
 * each coin A, a row holding a cell for every OTHER coin B. What a cell holds
 * (a price ratio) is the parameter `cell`.
 */
module RatioTables {
  import opened Wrappers
  import opened Dicts

  /** The inner `reduce` for coin `a`: `[b]: cell(a, b)` for each listed `b` other than `a`, in order. */
  function RowEntries<R>(codes: seq<string>, a: string, cell: (string, string) -> R): (es: seq<Entry<R>>)
    ensures forall e :: e in es ==> e.key in codes && e.key != a && e.value == cell(a, e.key)
    ensures forall b :: b in codes && b != a ==> exists e :: e in es && e.key == b
  {
    if |codes| == 0 then []
    else
      var n := |codes| - 1;
      assert forall b :: b in codes ==> b in codes[..n] || b == codes[n];
      var es := RowEntries(codes[..n], a, cell);
      if codes[n] == a then es
      else
        var e := Entry(codes[n], cell(a, codes[n]));
        assert e in es + [e];
        es + [e]
  }

  function Row<R>(codes: seq<string>, a: string, cell: (string, string) -> R): Dict<R> {
    FromEntries(RowEntries(codes, a, cell))
  }

  /** The outer `reduce`: `[a]: Row(a)` for each listed coin `a`. */
  function Table<R>(codes: seq<string>, cell: (string, string) -> R): Dict<Dict<R>> {
    FromEntries(seq(|codes|, i requires 0 <= i < |codes| => Entry(codes[i], Row(codes, codes[i], cell))))
  }

  /** One row per listed coin; a row holds exactly the other coins, with their cells, and no diagonal entry. */
  lemma TableShape<R>(codes: seq<string>, cell: (string, string) -> R, a: string)
    requires a in codes
    ensures a in ToMap(Table(codes, cell))
    ensures var row := ToMap(ToMap(Table(codes, cell))[a]);
            && row.Keys == (set b | b in codes && b != a)
            && a !in row
            && forall b :: b in row ==> row[b] == cell(a, b)
  {
    var es := seq(|codes|, i requires 0 <= i < |codes| => Entry(codes[i], Row(codes, codes[i], cell)));
    var i :| 0 <= i < |codes| && codes[i] == a;
    assert es[i] in es;
    FromEntriesUniform(es, a, Row(codes, a, cell));
    var res := RowEntries(codes, a, cell);
    FromEntriesKeys(res);
    FromEntriesSubset(res);
    var row := ToMap(Row(codes, a, cell));
    forall b | b in row ensures row[b] == cell(a, b) {
      var e :| e in res && e.key == b;
      FromEntriesUniform(res, b, cell(a, b));
    }
  }

  /** The table lists exactly the given coins. */
  lemma TableKeys<R>(codes: seq<string>, cell: (string, string) -> R)
    ensures ToMap(Table(codes, cell)).Keys == set a | a in codes
  {
    var es := seq(|codes|, i requires 0 <= i < |codes| => Entry(codes[i], Row(codes, codes[i], cell)));
    FromEntriesKeys(es);
    var keys := set e | e in es :: e.key;
    var listed := set a | a in codes;
    assert keys == listed by {
      forall a | a in listed ensures a in keys {
        var i :| 0 <= i < |codes| && codes[i] == a;
        assert es[i] in es;
      }
    }
  }

  /**
   * The table both services build: for each pair of distinct listed coins,
   * `ratio` of their prices against the bridge (undefined when not quoted).
   */
  function RatioTable<R>(codes: seq<string>, prices: Dict<string>, bridge: string,
                         ratio: (Option<string>, Option<string>) -> R): Dict<Dict<R>>
  {
    Table(codes, (a, b) => ratio(Get(prices, a + bridge), Get(prices, b + bridge)))
  }

  /** Each listed coin has a row; it holds every other listed coin, with the ratio of their two bridge prices. */
  lemma RatioTableCells<R>(codes: seq<string>, prices: Dict<string>, bridge: string,
                           ratio: (Option<string>, Option<string>) -> R, a: string, b: string)
    requires a in codes && b in codes && a != b
    ensures a in ToMap(RatioTable(codes, prices, bridge, ratio))
    ensures var row := ToMap(ToMap(RatioTable(codes, prices, bridge, ratio))[a]);
            && b in row && a !in row
            && row[b] == ratio(Get(prices, a + bridge), Get(prices, b + bridge))
  {
    TableShape(codes, (a, b) => ratio(Get(prices, a + bridge), Get(prices, b + bridge)), a);
  }
}
