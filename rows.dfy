/** The row tuples that etl.py, etl_v2.py and etl_p1.py build from filtered records: one
    16-column tuple per price record and one 14-column tuple per deal record. */
module Rows {
  import opened Wrappers
  import opened Json
  import opened Coerce
  import opened Store

  /** The column list of `REPLACE INTO symbol_price`. */
  const PriceColumns: seq<string> :=
    ["symbol_id", "date", "time", "tno", "tvol", "tval", "pmin", "pmax", "py", "pf", "pl",
     "plc", "plp", "pc", "pcc", "pcp"]

  /** The column list of `REPLACE INTO symbol_deals`. */
  const DealColumns: seq<string> :=
    ["symbol_id", "date", "Buy_CountI", "Buy_CountN", "Sell_CountI", "Sell_CountN",
     "Buy_I_Volume", "Buy_N_Volume", "Sell_I_Volume", "Sell_N_Volume",
     "Buy_I_Value", "Buy_N_Value", "Sell_I_Value", "Sell_N_Value"]

  /** The price columns cast with `float` rather than `int`. */
  const FloatColumns: set<string> := {"plp", "pcp"}

  /** `num(v)` as a statement parameter: the integer, or NULL. */
  function NumParam(v: JsonValue): Param {
    match Num(v)
    case Some(n) => Value(JInt(n))
    case None => Value(JNull)
  }

  /** The parameter a numeric column receives for the field value `v`. */
  function Coerced(column: string, v: JsonValue): Param {
    if column in FloatColumns then FloatOf(v) else NumParam(v)
  }

  /** The symbol id as a statement parameter: whatever value the id mapping holds. */
  function SidParam(sid: JsonValue): Param {
    Value(sid)
  }

  /** The price tuple for one record: `symbol_id`, then `date` and `time` as they came, then
      every other column the coercion of the record's field of the same name. */
  function PriceRow(sid: JsonValue, r: Record): (row: Row)
    ensures |row| == |PriceColumns| == Width(SymbolPrice)
    ensures row[0] == SidParam(sid)
    ensures forall k :: 1 <= k < 3 ==> row[k] == Value(Get(r, PriceColumns[k]))
    ensures forall k :: 3 <= k < |row| ==> row[k] == Coerced(PriceColumns[k], Get(r, PriceColumns[k]))
  {
    [SidParam(sid), Value(Get(r, "date")), Value(Get(r, "time")),
     NumParam(Get(r, "tno")), NumParam(Get(r, "tvol")), NumParam(Get(r, "tval")),
     NumParam(Get(r, "pmin")), NumParam(Get(r, "pmax")), NumParam(Get(r, "py")),
     NumParam(Get(r, "pf")), NumParam(Get(r, "pl")), NumParam(Get(r, "plc")),
     FloatOf(Get(r, "plp")), NumParam(Get(r, "pc")), NumParam(Get(r, "pcc")),
     FloatOf(Get(r, "pcp"))]
  }

  /** The deal tuple for one record: `symbol_id`, then `date` as it came, then every other
      column `num` of the record's field of the same name. */
  function DealRow(sid: JsonValue, r: Record): (row: Row)
    ensures |row| == |DealColumns| == Width(SymbolDeals)
    ensures row[0] == SidParam(sid)
    ensures row[1] == Value(Get(r, "date"))
    ensures forall k :: 2 <= k < |row| ==> row[k] == NumParam(Get(r, DealColumns[k]))
  {
    [SidParam(sid), Value(Get(r, "date")),
     NumParam(Get(r, "Buy_CountI")), NumParam(Get(r, "Buy_CountN")),
     NumParam(Get(r, "Sell_CountI")), NumParam(Get(r, "Sell_CountN")),
     NumParam(Get(r, "Buy_I_Volume")), NumParam(Get(r, "Buy_N_Volume")),
     NumParam(Get(r, "Sell_I_Volume")), NumParam(Get(r, "Sell_N_Volume")),
     NumParam(Get(r, "Buy_I_Value")), NumParam(Get(r, "Buy_N_Value")),
     NumParam(Get(r, "Sell_I_Value")), NumParam(Get(r, "Sell_N_Value"))]
  }

  /** `[(sid, r.get("date"), ...) for r in rows]` for prices. */
  function BuildPrices(sid: JsonValue, rows: seq<Record>): (out: seq<Row>)
    ensures |out| == |rows|
    ensures forall i :: 0 <= i < |rows| ==> out[i] == PriceRow(sid, rows[i])
    ensures Fits(SymbolPrice, out)
  {
    seq(|rows|, i requires 0 <= i < |rows| => PriceRow(sid, rows[i]))
  }

  /** `[(sid, r.get("date"), ...) for r in rows]` for deals. */
  function BuildDeals(sid: JsonValue, rows: seq<Record>): (out: seq<Row>)
    ensures |out| == |rows|
    ensures forall i :: 0 <= i < |rows| ==> out[i] == DealRow(sid, rows[i])
    ensures Fits(SymbolDeals, out)
  {
    seq(|rows|, i requires 0 <= i < |rows| => DealRow(sid, rows[i]))
  }

  /** Every built price row carries `sid` as its symbol id and sits under the key
      `(sid, date, time)` of its record. */
  lemma BuildPricesKeys(sid: JsonValue, rows: seq<Record>)
    ensures forall i :: 0 <= i < |rows| ==>
      KeyOf(SymbolPrice, BuildPrices(sid, rows)[i])
        == [SidParam(sid), Value(Get(rows[i], "date")), Value(Get(rows[i], "time"))]
  {
    forall i | 0 <= i < |rows|
      ensures KeyOf(SymbolPrice, BuildPrices(sid, rows)[i])
        == [SidParam(sid), Value(Get(rows[i], "date")), Value(Get(rows[i], "time"))]
    {
      var row := PriceRow(sid, rows[i]);
      assert row[..3] == [row[0], row[1], row[2]];
    }
  }

  /** Every built deal row sits under the key `(sid, date)` of its record. */
  lemma BuildDealsKeys(sid: JsonValue, rows: seq<Record>)
    ensures forall i :: 0 <= i < |rows| ==>
      KeyOf(SymbolDeals, BuildDeals(sid, rows)[i]) == [SidParam(sid), Value(Get(rows[i], "date"))]
  {
    forall i | 0 <= i < |rows|
      ensures KeyOf(SymbolDeals, BuildDeals(sid, rows)[i]) == [SidParam(sid), Value(Get(rows[i], "date"))]
    {
      var row := DealRow(sid, rows[i]);
      assert row[..2] == [row[0], row[1]];
    }
  }

  /** The row a record gives for table `t`. */
  function RowFor(t: TableName, sid: JsonValue, r: Record): Row {
    if t == SymbolPrice then PriceRow(sid, r) else DealRow(sid, r)
  }

  /** The rows built for table `t`, one per record, in order. */
  function BuildRows(t: TableName, sid: JsonValue, rows: seq<Record>): (out: seq<Row>)
    ensures |out| == |rows|
    ensures forall i :: 0 <= i < |rows| ==> out[i] == RowFor(t, sid, rows[i])
    ensures Fits(t, out)
  {
    if t == SymbolPrice then BuildPrices(sid, rows) else BuildDeals(sid, rows)
  }

  /** The fetch that feeds table `t`: `type=0` for prices, `type=1` for deals. */
  function Feed(f: SymbolFetch, t: TableName): FetchResult {
    if t == SymbolPrice then f.prices else f.deals
  }
}
