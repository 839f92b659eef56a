/** insert_symbol_data.py: load one symbol's saved price and deal histories and write the
    records of the configured year as they are, with no coercion. */
module InsertSymbolData {
  import opened Wrappers
  import opened Json
  import opened Text
  import opened Sequences
  import opened Store
  import opened Rows
  import opened Filters

  /** `SYMBOL_ID`: the id every row is written under. */
  const SymbolId: int := 1

  /** `YEAR_FILTER`: the date prefix of the records written. */
  const YearPrefix: string := "1404"

  /** The columns of the table's `REPLACE INTO` statement, `symbol_id` first. */
  function Columns(t: TableName): (cols: seq<string>)
    ensures |cols| == Width(t) && cols[0] == "symbol_id"
  {
    if t == SymbolPrice then PriceColumns else DealColumns
  }

  /** What the comprehension does with one record: `r["date"]` raises KeyError when there is
      no date and `.startswith` raises when the date is not a string; a date of another
      year is skipped; otherwise the tuple is built, and `r[c]` raises KeyError for any
      missing column `c`. */
  function RawVerdict(r: Record, columns: seq<string>): Verdict {
    if "date" !in r || !r["date"].JStr? then Raise
    else if !StartsWith(r["date"].s, YearPrefix) then Drop
    else if forall k :: 1 <= k < |columns| ==> columns[k] in r then Keep
    else Raise
  }

  function RawVerdictOf(columns: seq<string>): Record -> Verdict {
    r => RawVerdict(r, columns)
  }

  /** The tuple `(symbol_id, r[c1], r[c2], ...)`: every field exactly as the record holds it. */
  function RawRow(sid: int, r: Record, columns: seq<string>): (row: Row)
    requires |columns| >= 1
    requires forall k :: 1 <= k < |columns| ==> columns[k] in r
    ensures |row| == |columns|
    ensures row[0] == Value(JInt(sid))
    ensures forall k :: 1 <= k < |columns| ==> row[k] == Value(r[columns[k]])
  {
    [Value(JInt(sid))] + seq(|columns| - 1, k requires 0 <= k < |columns| - 1 => Value(r[columns[k + 1]]))
  }

  /** The tuples of records the comprehension keeps. */
  function RawRows(sid: int, kept: seq<Record>, columns: seq<string>): (rows: seq<Row>)
    requires |columns| >= 1
    requires forall i :: 0 <= i < |kept| ==> forall k :: 1 <= k < |columns| ==> columns[k] in kept[i]
    ensures |rows| == |kept|
    ensures forall i :: 0 <= i < |kept| ==> rows[i] == RawRow(sid, kept[i], columns)
  {
    seq(|kept|, i requires 0 <= i < |kept| => RawRow(sid, kept[i], columns))
  }

  /** When no record raises, the records the comprehension keeps are exactly the records of
      the year, in order. */
  lemma {:induction false} KeptIsYearFilter(records: seq<Record>, columns: seq<string>)
    requires SelectOrRaise(records, RawVerdictOf(columns)).Some?
    ensures SelectOrRaise(records, RawVerdictOf(columns)).value == FilterByYear(records, YearPrefix)
  {
    if records != [] {
      var init := records[..|records| - 1];
      var last := records[|records| - 1];
      LastSplit(records);
      var v := RawVerdictOf(columns);
      assert v(last) != Raise by {
        assert records[|records| - 1] == last;
      }
      assert SelectOrRaise(init, v).Some?;
      KeptIsYearFilter(init, columns);
      assert v(last) == Keep <==> DatedIn(last, YearPrefix);
      assert FilterByYear(records, YearPrefix)
        == if DatedIn(last, YearPrefix) then FilterByYear(init, YearPrefix) + [last] else FilterByYear(init, YearPrefix);
    }
  }

  /** The batch `insert_prices` / `insert_deals` builds, or `None` when building it raises:
      one tuple per record of the year, in order, each holding `sid` and then the record's
      fields unchanged. */
  function Batch(t: TableName, sid: int, records: seq<Record>): (b: Option<seq<Row>>)
    ensures b.Some? <==> forall i :: 0 <= i < |records| ==> RawVerdict(records[i], Columns(t)) != Raise
    ensures b.Some? ==> Fits(t, b.value)
    ensures b.Some? ==>
      var year := FilterByYear(records, YearPrefix);
      && |b.value| == |year|
      && forall i :: 0 <= i < |year| ==>
          && (forall k :: 1 <= k < |Columns(t)| ==> Columns(t)[k] in year[i])
          && b.value[i] == RawRow(sid, year[i], Columns(t))
  {
    var cols := Columns(t);
    match SelectOrRaise(records, RawVerdictOf(cols))
    case None => None
    case Some(kept) =>
      assert forall i :: 0 <= i < |kept| ==> forall k :: 1 <= k < |cols| ==> cols[k] in kept[i] by {
        forall i | 0 <= i < |kept| ensures forall k :: 1 <= k < |cols| ==> cols[k] in kept[i] {
          assert kept[i] in kept;
          assert RawVerdict(kept[i], cols) == Keep;
        }
      }
      KeptIsYearFilter(records, cols);
      Some(RawRows(sid, kept, cols))
  }

  /** Every written tuple is the symbol id followed by one record's date, which begins with
      the year, and by its other fields unchanged. */
  lemma BatchRowsDated(t: TableName, sid: int, records: seq<Record>, i: nat)
    requires Batch(t, sid, records).Some? && i < |Batch(t, sid, records).value|
    ensures var row := Batch(t, sid, records).value[i];
      && row[0] == Value(JInt(sid))
      && row[1].Value? && row[1].v.JStr? && StartsWith(row[1].v.s, YearPrefix)
      && exists r :: r in records && forall k :: 1 <= k < |Columns(t)| ==> Columns(t)[k] in r && row[k] == Value(r[Columns(t)[k]])
  {
    var cols := Columns(t);
    var year := FilterByYear(records, YearPrefix);
    var row := Batch(t, sid, records).value[i];
    var r := year[i];
    assert forall k :: 1 <= k < |cols| ==> cols[k] in r;
    assert row == RawRow(sid, r, cols);
    assert r in year;
    assert r in records && DatedIn(r, YearPrefix);
    assert cols[1] == "date";
    assert row[1] == Value(r["date"]);
    assert forall k :: 1 <= k < |cols| ==> cols[k] in r && row[k] == Value(r[cols[k]]);
  }

  /** `insert_prices(conn, symbol_id, records)` or `insert_deals(...)`: the batch is sent
      and committed only when it is not empty; `raised` when building it raises, in which
      case nothing is sent. */
  method InsertRecords(db: Database, t: TableName, sid: int, records: seq<Record>) returns (raised: bool)
    requires db.Valid()
    modifies db
    ensures db.Valid()
    ensures raised <==> Batch(t, sid, records).None?
    ensures db.log == old(db.log) + (if raised then [] else WriteCommit(t, Batch(t, sid, records).value))
  {
    var batch := Batch(t, sid, records);
    if batch.None? {
      assert db.log + [] == db.log;
      return true;
    }
    if batch.value != [] {
      db.ExecuteMany(t, batch.value);
      db.Commit();
    } else {
      assert db.log + [] == db.log;
    }
    return false;
  }

  /** `load_json`: the saved list, or `[]` when the file does not exist. */
  function LoadJson(file: Option<seq<Record>>): seq<Record> {
    if file.Some? then file.value else []
  }

  /** What the script sends: the price batch, then, unless building the price batch raised,
      the deal batch. */
  function ScriptOps(pricesFile: Option<seq<Record>>, dealsFile: Option<seq<Record>>): seq<Statement> {
    match Batch(SymbolPrice, SymbolId, LoadJson(pricesFile))
    case None => []
    case Some(p) =>
      WriteCommit(SymbolPrice, p)
      + match Batch(SymbolDeals, SymbolId, LoadJson(dealsFile))
        case None => []
        case Some(d) => WriteCommit(SymbolDeals, d)
  }

  /** Whether the script ends with an exception. */
  function ScriptRaises(pricesFile: Option<seq<Record>>, dealsFile: Option<seq<Record>>): bool {
    Batch(SymbolPrice, SymbolId, LoadJson(pricesFile)).None?
    || Batch(SymbolDeals, SymbolId, LoadJson(dealsFile)).None?
  }

  /** The script's effect: when both batches build, each table gets its batch replaced in,
      under `SYMBOL_ID`; when only the deal batch raises, the prices are already replaced
      in and committed and the deals are untouched; when the price batch raises, nothing
      changes; nothing is ever left uncommitted. */
  lemma ScriptEffect(s: Tables, pricesFile: Option<seq<Record>>, dealsFile: Option<seq<Record>>)
    ensures Committed(ScriptOps(pricesFile, dealsFile))
    ensures Batch(SymbolPrice, SymbolId, LoadJson(pricesFile)).None? ==> ApplyAll(s, ScriptOps(pricesFile, dealsFile)) == s
    ensures !ScriptRaises(pricesFile, dealsFile) ==>
      ApplyAll(s, ScriptOps(pricesFile, dealsFile))
        == Tables(ReplaceAll(SymbolPrice, s.prices, Batch(SymbolPrice, SymbolId, LoadJson(pricesFile)).value),
                  ReplaceAll(SymbolDeals, s.deals, Batch(SymbolDeals, SymbolId, LoadJson(dealsFile)).value))
    ensures
      (&& Batch(SymbolPrice, SymbolId, LoadJson(pricesFile)).Some?
       && Batch(SymbolDeals, SymbolId, LoadJson(dealsFile)).None?)
      ==> ApplyAll(s, ScriptOps(pricesFile, dealsFile))
            == Tables(ReplaceAll(SymbolPrice, s.prices, Batch(SymbolPrice, SymbolId, LoadJson(pricesFile)).value), s.deals)
  {
    var ops := ScriptOps(pricesFile, dealsFile);
    var pb := Batch(SymbolPrice, SymbolId, LoadJson(pricesFile));
    var db := Batch(SymbolDeals, SymbolId, LoadJson(dealsFile));
    if pb.Some? {
      var a := WriteCommit(SymbolPrice, pb.value);
      var b := if db.Some? then WriteCommit(SymbolDeals, db.value) else [];
      assert ops == a + b;
      ApplyAllWritten(s, ops);
      WrittenAppend(SymbolPrice, a, b);
      WrittenAppend(SymbolDeals, a, b);
      WriteCommitFacts(SymbolPrice, pb.value, SymbolPrice);
      WriteCommitFacts(SymbolPrice, pb.value, SymbolDeals);
      if db.Some? {
        WriteCommitFacts(SymbolDeals, db.value, SymbolPrice);
        WriteCommitFacts(SymbolDeals, db.value, SymbolDeals);
        assert pb.value + [] == pb.value;
        assert Written(SymbolPrice, ops) == pb.value;
        assert Written(SymbolDeals, ops) == db.value;
      } else {
        assert Written(SymbolPrice, ops) == pb.value;
        assert Written(SymbolDeals, ops) == [];
      }
      CommittedAppend(a, b);
    } else {
      assert ops == [];
    }
  }

  /** The script's `__main__` block, with the two saved files as inputs; `raised` when it
      ends with an exception. */
  method RunScript(db: Database, pricesFile: Option<seq<Record>>, dealsFile: Option<seq<Record>>)
    returns (raised: bool)
    requires db.Valid()
    modifies db
    ensures db.Valid()
    ensures raised == ScriptRaises(pricesFile, dealsFile)
    ensures db.log == old(db.log) + ScriptOps(pricesFile, dealsFile)
  {
    var prices := LoadJson(pricesFile);
    var deals := LoadJson(dealsFile);
    ghost var start := db.log;
    raised := InsertRecords(db, SymbolPrice, SymbolId, prices);
    if raised {
      return;
    }
    ghost var mid := db.log;
    raised := InsertRecords(db, SymbolDeals, SymbolId, deals);
    ConcatAssoc(start, mid[|start|..], db.log[|mid|..]);
  }
}
