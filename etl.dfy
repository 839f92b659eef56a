/** etl.py: fetch every symbol, keep the records of the configured year, and write each
    symbol's prices and deals right away, committing after each non-empty insert. */
module Etl {
  import opened Wrappers
  import opened Json
  import opened Text
  import opened Sequences
  import opened Store
  import opened Rows
  import opened Symbols
  import opened Filters

  /** The variable `main` consults when the mapping has no usable id: `SYMBOL_ID_<sym>`. */
  function SymbolIdVar(sym: string): string {
    "SYMBOL_ID_" + sym
  }

  /** The id `main` settles on for a symbol, or `None` when it skips the symbol: a truthy
      `mapping.get(sym)` is used as it is; otherwise a non-empty `SYMBOL_ID_<sym>` is read
      with `int()`, where a ValueError ends the symbol's `try` block and a zero fails
      `if not sid`. */
  function ResolveSid(mapping: Mapping, env: Env, sym: string): (sid: Option<JsonValue>)
    ensures sid.Some? ==> Truthy(sid.value)
    ensures Truthy(Get(mapping, sym)) ==> sid == Some(Get(mapping, sym))
    ensures !Truthy(Get(mapping, sym)) && sid.Some? ==>
      && SymbolIdVar(sym) in env
      && sid.value.JInt?
      && ParseInt(env[SymbolIdVar(sym)]) == Some(sid.value.i)
    ensures !Truthy(Get(mapping, sym)) && SymbolIdVar(sym) !in env ==> sid == None
    ensures
      (&& !Truthy(Get(mapping, sym))
       && SymbolIdVar(sym) in env
       && ParseInt(env[SymbolIdVar(sym)]).Some?
       && ParseInt(env[SymbolIdVar(sym)]).value != 0)
      ==> sid == Some(JInt(ParseInt(env[SymbolIdVar(sym)]).value))
  {
    var m := Get(mapping, sym);
    if Truthy(m) then Some(m)
    else if SymbolIdVar(sym) in env && env[SymbolIdVar(sym)] != [] then
      match ParseInt(env[SymbolIdVar(sym)])
      case None => None
      case Some(n) => if n != 0 then Some(JInt(n)) else None
    else None
  }

  /** A symbol missing from the mapping still gets the non-zero id written in its
      `SYMBOL_ID_<sym>` variable. */
  lemma EnvIdFallback(mapping: Mapping, env: Env, sym: string, n: int)
    requires !Truthy(Get(mapping, sym)) && n != 0
    requires SymbolIdVar(sym) in env && env[SymbolIdVar(sym)] == ShowInt(n)
    ensures ResolveSid(mapping, env, sym) == Some(JInt(n))
  {
    ParseShowInt(n);
    ShowIntShape(n);
  }

  /** `insert_prices(conn, sid, rows)`: nothing for no rows, otherwise one `executemany`
      and, with `BATCH_COMMIT` on, a commit. */
  method InsertPrices(db: Database, sid: JsonValue, records: seq<Record>)
    requires db.Valid()
    modifies db
    ensures db.Valid()
    ensures db.log == old(db.log) + WriteCommit(SymbolPrice, BuildPrices(sid, records))
  {
    if records == [] {
      return;
    }
    var p := BuildPrices(sid, records);
    db.ExecuteMany(SymbolPrice, p);
    db.Commit();
  }

  /** `insert_deals(conn, sid, rows)`, likewise. */
  method InsertDeals(db: Database, sid: JsonValue, records: seq<Record>)
    requires db.Valid()
    modifies db
    ensures db.Valid()
    ensures db.log == old(db.log) + WriteCommit(SymbolDeals, BuildDeals(sid, records))
  {
    if records == [] {
      return;
    }
    var p := BuildDeals(sid, records);
    db.ExecuteMany(SymbolDeals, p);
    db.Commit();
  }

  /** The id the symbol is written under, when both fetches return a list and an id is
      found; `None` when the symbol is skipped. */
  function WrittenSid(sym: string, mapping: Mapping, env: Env, fetch: string -> SymbolFetch): Option<JsonValue> {
    var f := fetch(sym);
    if f.prices.Ok? && f.deals.Ok? then ResolveSid(mapping, env, sym) else None
  }

  /** The rows the loop body writes into `t` for one symbol. */
  function Inserted(t: TableName, sym: string, mapping: Mapping, env: Env, fetch: string -> SymbolFetch, year: string): seq<Row> {
    match WrittenSid(sym, mapping, env, fetch)
    case None => []
    case Some(sid) => BuildRows(t, sid, FilterByYear(Feed(fetch(sym), t).records, year))
  }

  /** The statements the loop body sends for one symbol. */
  function SymbolOps(sym: string, mapping: Mapping, env: Env, fetch: string -> SymbolFetch, year: string): seq<Statement> {
    WriteCommit(SymbolPrice, Inserted(SymbolPrice, sym, mapping, env, fetch, year))
    + WriteCommit(SymbolDeals, Inserted(SymbolDeals, sym, mapping, env, fetch, year))
  }

  function SymbolOpsOf(mapping: Mapping, env: Env, fetch: string -> SymbolFetch, year: string): string -> seq<Statement> {
    sym => SymbolOps(sym, mapping, env, fetch, year)
  }

  function InsertedOf(t: TableName, mapping: Mapping, env: Env, fetch: string -> SymbolFetch, year: string): string -> seq<Row> {
    sym => Inserted(t, sym, mapping, env, fetch, year)
  }

  /** The mapping `main` reads: `symbol_ids.json` when it exists, otherwise `{}`. */
  function StoredMapping(storedIds: Option<Mapping>): Mapping {
    if storedIds.Some? then storedIds.value else map[]
  }

  /** The statements `main` sends: nothing without symbols, otherwise each symbol's
      statements in list order. */
  function RunOps(env: Env, symbolsFile: Option<seq<string>>, storedIds: Option<Mapping>, fetch: string -> SymbolFetch): seq<Statement> {
    var symbols := LoadSymbols(env, symbolsFile);
    if symbols == [] then []
    else FlatMap(symbols, SymbolOpsOf(StoredMapping(storedIds), env, fetch, YearFilter(env)))
  }

  /** One symbol's statements write its rows and end with a commit. */
  lemma SymbolOpsWritten(sym: string, mapping: Mapping, env: Env, fetch: string -> SymbolFetch, year: string, t: TableName)
    ensures Written(t, SymbolOps(sym, mapping, env, fetch, year)) == Inserted(t, sym, mapping, env, fetch, year)
    ensures Committed(SymbolOps(sym, mapping, env, fetch, year))
  {
    var pa := Inserted(SymbolPrice, sym, mapping, env, fetch, year);
    var pb := Inserted(SymbolDeals, sym, mapping, env, fetch, year);
    var a, b := WriteCommit(SymbolPrice, pa), WriteCommit(SymbolDeals, pb);
    WriteCommitFacts(SymbolPrice, pa, t);
    WriteCommitFacts(SymbolDeals, pb, t);
    WrittenAppend(t, a, b);
    CommittedAppend(a, b);
    AppendEmpty(pa);
    AppendEmpty(pb);
  }

  /** The loop writes into each table the symbols' rows in list order, and leaves nothing
      uncommitted. */
  lemma {:induction false} LoopWritten(symbols: seq<string>, mapping: Mapping, env: Env, fetch: string -> SymbolFetch, year: string, t: TableName)
    ensures Written(t, FlatMap(symbols, SymbolOpsOf(mapping, env, fetch, year)))
      == FlatMap(symbols, InsertedOf(t, mapping, env, fetch, year))
    ensures Committed(FlatMap(symbols, SymbolOpsOf(mapping, env, fetch, year)))
  {
    if symbols != [] {
      var init := symbols[..|symbols| - 1];
      var sym := symbols[|symbols| - 1];
      LoopWritten(init, mapping, env, fetch, year, t);
      var ops := FlatMap(init, SymbolOpsOf(mapping, env, fetch, year));
      var last := SymbolOps(sym, mapping, env, fetch, year);
      assert FlatMap(symbols, SymbolOpsOf(mapping, env, fetch, year)) == ops + last;
      assert FlatMap(symbols, InsertedOf(t, mapping, env, fetch, year))
        == FlatMap(init, InsertedOf(t, mapping, env, fetch, year)) + Inserted(t, sym, mapping, env, fetch, year);
      SymbolOpsWritten(sym, mapping, env, fetch, year, t);
      WrittenAppend(t, ops, last);
      CommittedAppend(ops, last);
    }
  }

  /** What a run does to the tables: every row written replaces the row under its key, in
      the order of the symbols; and the run ends with everything committed. */
  lemma RunEffect(s: Tables, env: Env, symbolsFile: Option<seq<string>>, storedIds: Option<Mapping>, fetch: string -> SymbolFetch)
    ensures var symbols := LoadSymbols(env, symbolsFile);
      var mapping := StoredMapping(storedIds);
      var year := YearFilter(env);
      ApplyAll(s, RunOps(env, symbolsFile, storedIds, fetch))
        == Tables(ReplaceAll(SymbolPrice, s.prices, FlatMap(symbols, InsertedOf(SymbolPrice, mapping, env, fetch, year))),
                  ReplaceAll(SymbolDeals, s.deals, FlatMap(symbols, InsertedOf(SymbolDeals, mapping, env, fetch, year))))
    ensures Committed(RunOps(env, symbolsFile, storedIds, fetch))
  {
    var symbols := LoadSymbols(env, symbolsFile);
    var mapping := StoredMapping(storedIds);
    var year := YearFilter(env);
    ApplyAllWritten(s, RunOps(env, symbolsFile, storedIds, fetch));
    LoopWritten(symbols, mapping, env, fetch, year, SymbolPrice);
    LoopWritten(symbols, mapping, env, fetch, year, SymbolDeals);
  }

  /** `row` is the row of a record of `sym`'s feed for `t` dated in `year`, under the id the
      symbol is written with. */
  ghost predicate RowFromSymbol(t: TableName, sym: string, mapping: Mapping, env: Env, fetch: string -> SymbolFetch, year: string, row: Row) {
    && WrittenSid(sym, mapping, env, fetch).Some?
    && exists r ::
      && r in Feed(fetch(sym), t).records && DatedIn(r, year)
      && row == RowFor(t, WrittenSid(sym, mapping, env, fetch).value, r)
  }

  /** A row one symbol writes is the row of one of its fetched records of the year. */
  lemma InsertedMember(t: TableName, sym: string, mapping: Mapping, env: Env, fetch: string -> SymbolFetch, year: string, row: Row)
    requires row in Inserted(t, sym, mapping, env, fetch, year)
    ensures RowFromSymbol(t, sym, mapping, env, fetch, year, row)
  {
    var sid := WrittenSid(sym, mapping, env, fetch);
    var kept := FilterByYear(Feed(fetch(sym), t).records, year);
    var built := BuildRows(t, sid.value, kept);
    var j :| 0 <= j < |built| && built[j] == row;
    assert kept[j] in kept;
  }

  /** Every price or deal row written is the row of a record of the configured year,
      under the symbol's resolved id. */
  lemma InsertedSound(t: TableName, symbols: seq<string>, mapping: Mapping, env: Env, fetch: string -> SymbolFetch, year: string, row: Row)
    requires row in FlatMap(symbols, InsertedOf(t, mapping, env, fetch, year))
    ensures exists i :: 0 <= i < |symbols| && RowFromSymbol(t, symbols[i], mapping, env, fetch, year, row)
  {
    var f := InsertedOf(t, mapping, env, fetch, year);
    FlatMapMember(symbols, f, row);
    var i :| 0 <= i < |symbols| && row in f(symbols[i]);
    InsertedMember(t, symbols[i], mapping, env, fetch, year, row);
  }

  /** A symbol that is skipped (a failed fetch, or no id) sends nothing: removing it from
      the list changes no statement. */
  lemma SkippedSendsNothing(a: seq<string>, sym: string, b: seq<string>, mapping: Mapping, env: Env, fetch: string -> SymbolFetch, year: string)
    requires WrittenSid(sym, mapping, env, fetch).None?
    ensures FlatMap(a + [sym] + b, SymbolOpsOf(mapping, env, fetch, year)) == FlatMap(a + b, SymbolOpsOf(mapping, env, fetch, year))
  {
    FlatMapSkip(a, sym, b, SymbolOpsOf(mapping, env, fetch, year));
  }

  /** The body of the loop of `main` for one symbol. */
  method ProcessSymbol(db: Database, sym: string, mapping: Mapping, env: Env, fetch: string -> SymbolFetch, year: string)
    requires db.Valid()
    modifies db
    ensures db.Valid()
    ensures db.log == old(db.log) + SymbolOps(sym, mapping, env, fetch, year)
  {
    var f := fetch(sym);
    if !f.prices.Ok? || !f.deals.Ok? {
      return;
    }
    var prices := FilterByYear(f.prices.records, year);
    var deals := FilterByYear(f.deals.records, year);
    var sid := ResolveSid(mapping, env, sym);
    if sid.None? {
      return;
    }
    ghost var start := db.log;
    InsertPrices(db, sid.value, prices);
    InsertDeals(db, sid.value, deals);
    ConcatAssoc(start, WriteCommit(SymbolPrice, BuildPrices(sid.value, prices)),
                WriteCommit(SymbolDeals, BuildDeals(sid.value, deals)));
  }

  /** The loop of `main` over the symbols. */
  method ProcessAll(db: Database, symbols: seq<string>, mapping: Mapping, env: Env, fetch: string -> SymbolFetch, year: string)
    requires db.Valid()
    modifies db
    ensures db.Valid()
    ensures db.log == old(db.log) + FlatMap(symbols, SymbolOpsOf(mapping, env, fetch, year))
  {
    ghost var start := db.log;
    ghost var body := SymbolOpsOf(mapping, env, fetch, year);
    for i := 0 to |symbols|
      invariant db.Valid()
      invariant db.log == start + FlatMap(symbols[..i], body)
    {
      assert symbols[..i + 1][..i] == symbols[..i];
      ProcessSymbol(db, symbols[i], mapping, env, fetch, year);
      assert FlatMap(symbols[..i + 1], body) == FlatMap(symbols[..i], body) + body(symbols[i]);
      ConcatAssoc(start, FlatMap(symbols[..i], body), body(symbols[i]));
    }
    assert symbols[..|symbols|] == symbols;
  }

  /** `main()` with the environment, the symbols file, `symbol_ids.json` and the API as
      inputs. */
  method Run(db: Database, env: Env, symbolsFile: Option<seq<string>>, storedIds: Option<Mapping>, fetch: string -> SymbolFetch)
    requires db.Valid()
    modifies db
    ensures db.Valid()
    ensures db.log == old(db.log) + RunOps(env, symbolsFile, storedIds, fetch)
  {
    var symbols := LoadSymbols(env, symbolsFile);
    if symbols == [] {
      assert db.log + [] == db.log;
      return;
    }
    ProcessAll(db, symbols, StoredMapping(storedIds), env, fetch, YearFilter(env));
  }
}
