/** etl_v2.py: fetch every symbol, keep the records of recent months, gather all rows in
    memory and write them at the end in batches of 5000, committing after each batch. */
module EtlV2 {
  import opened Wrappers
  import opened Json
  import opened Sequences
  import opened Store
  import opened Rows
  import opened Symbols
  import opened Filters

  /** `BATCH_COMMIT_SIZE`: rows per `executemany` and commit. */
  const BatchCommitSize: nat := 5000

  /** `main` calls `filter_by_recent_months(..., last_months=4)`. */
  const LastMonths: int := 4

  // ---------------------------------------------------------------------------------------
  // insert_batch

  /** The statements of `insert_batch`: one `executemany` and one commit per chunk. */
  function BatchOps(t: TableName, chunks: seq<seq<Row>>): seq<Statement> {
    if chunks == [] then [] else [ExecMany(t, chunks[0]), Commit] + BatchOps(t, chunks[1..])
  }

  lemma {:induction false} BatchOpsAppend(t: TableName, a: seq<seq<Row>>, b: seq<seq<Row>>)
    ensures BatchOps(t, a + b) == BatchOps(t, a) + BatchOps(t, b)
  {
    if a == [] {
      assert a + b == b;
    } else {
      assert (a + b)[0] == a[0] && (a + b)[1..] == a[1..] + b;
      BatchOpsAppend(t, a[1..], b);
    }
  }

  /** The batches write the chunks into `t`, in order, and nothing into the other table. */
  lemma {:induction false} BatchOpsWritten(t: TableName, chunks: seq<seq<Row>>, u: TableName)
    ensures Written(u, BatchOps(t, chunks)) == if u == t then Flatten(chunks) else []
    ensures CountCommits(BatchOps(t, chunks)) == |chunks|
  {
    if chunks != [] {
      var ops := BatchOps(t, chunks);
      BatchOpsWritten(t, chunks[1..], u);
      assert ops[1..][1..] == BatchOps(t, chunks[1..]);
    }
  }

  /** Cutting the rows into batches changes nothing: the tables end up as after one
      `executemany` of all the rows; and there is one commit per batch. */
  lemma BatchEffect(s: Tables, t: TableName, rows: seq<Row>, size: nat)
    requires size > 0
    ensures ApplyAll(s, BatchOps(t, Chunks(rows, size))) == Apply(s, ExecMany(t, rows))
    ensures CountCommits(BatchOps(t, Chunks(rows, size))) == |Chunks(rows, size)|
  {
    var ops := BatchOps(t, Chunks(rows, size));
    ChunksFlatten(rows, size);
    ApplyAllWritten(s, ops);
    BatchOpsWritten(t, Chunks(rows, size), SymbolPrice);
    BatchOpsWritten(t, Chunks(rows, size), SymbolDeals);
  }

  /** One pass of the loop of `insert_batch`: `cur.executemany(q, batch)`, then
      `conn.commit()`. */
  method WriteBatch(db: Database, t: TableName, batch: seq<Row>)
    requires db.Valid() && Fits(t, batch)
    modifies db
    ensures db.Valid()
    ensures db.log == old(db.log) + [ExecMany(t, batch), Commit]
  {
    db.ExecuteMany(t, batch);
    db.Commit();
  }

  /** The slice written next, `rows[i:i+size]`, is the next chunk, fits the table, and
      adds one `executemany` and one commit. */
  lemma BatchStep(t: TableName, rows: seq<Row>, i: nat, size: nat, done: seq<seq<Row>>)
    requires size > 0 && i < |rows| && Fits(t, rows)
    requires done + Chunks(rows[i..], size) == Chunks(rows, size)
    ensures var end := if i + size < |rows| then i + size else |rows|;
      && Fits(t, rows[i..end])
      && (done + [rows[i..end]]) + Chunks(rows[end..], size) == Chunks(rows, size)
      && BatchOps(t, done + [rows[i..end]]) == BatchOps(t, done) + [ExecMany(t, rows[i..end]), Commit]
  {
    var end := if i + size < |rows| then i + size else |rows|;
    var batch := rows[i..end];
    forall k | 0 <= k < |batch| ensures |batch[k]| == Width(t) {
      assert batch[k] == rows[i + k];
    }
    ChunksFrom(rows, i, size);
    ConcatAssoc(done, [batch], Chunks(rows[end..], size));
    BatchOpsAppend(t, done, [batch]);
    assert [batch][1..] == [];
  }

  /** `insert_batch(conn, t, rows, size)`: nothing when `rows` is empty, otherwise for each
      slice `rows[i:i+size]` an `executemany` followed by a commit. */
  method InsertBatch(db: Database, t: TableName, rows: seq<Row>, size: nat)
    requires db.Valid() && Fits(t, rows) && size > 0
    modifies db
    ensures db.Valid()
    ensures db.log == old(db.log) + BatchOps(t, Chunks(rows, size))
  {
    if |rows| == 0 {
      assert Chunks(rows, size) == [];
      assert BatchOps(t, []) == [];
      return;
    }
    var i := 0;
    ghost var pos := 0;
    ghost var done: seq<seq<Row>> := [];
    while i < |rows|
      invariant pos == if i < |rows| then i else |rows|
      invariant done + Chunks(rows[pos..], size) == Chunks(rows, size)
      invariant db.Valid()
      invariant db.log == old(db.log) + BatchOps(t, done)
    {
      var end := if i + size < |rows| then i + size else |rows|;
      var batch := rows[i..end];
      BatchStep(t, rows, i, size, done);
      WriteBatch(db, t, batch);
      ConcatAssoc(old(db.log), BatchOps(t, done), [ExecMany(t, batch), Commit]);
      done := done + [batch];
      i := i + size;
      pos := end;
    }
    assert rows[pos..] == [];
    assert done == Chunks(rows, size) by {
      assert Chunks(rows[pos..], size) == [];
      assert done + [] == done;
    }
  }

  // ---------------------------------------------------------------------------------------
  // main

  /** The symbol gets through the `try` block: both fetches return a list, neither filter
      raises, and `mapping.get(sym)` is truthy. */
  predicate Processed(sym: string, mapping: Mapping, fetch: string -> SymbolFetch, year: string, cm: int) {
    var f := fetch(sym);
    && f.prices.Ok?
    && f.deals.Ok?
    && RecentMonthsFilter(f.prices.records, year, cm, LastMonths).Some?
    && RecentMonthsFilter(f.deals.records, year, cm, LastMonths).Some?
    && Truthy(Get(mapping, sym))
  }

  /** The rows `main` adds to `all_prices` (or `all_deals`) for one symbol. */
  function Contribution(t: TableName, sym: string, mapping: Mapping, fetch: string -> SymbolFetch, year: string, cm: int): seq<Row> {
    if Processed(sym, mapping, fetch, year, cm) then
      BuildRows(t, Get(mapping, sym), RecentMonthsFilter(Feed(fetch(sym), t).records, year, cm, LastMonths).value)
    else []
  }

  function ContributionOf(t: TableName, mapping: Mapping, fetch: string -> SymbolFetch, year: string, cm: int): string -> seq<Row> {
    sym => Contribution(t, sym, mapping, fetch, year, cm)
  }

  /** `all_prices` (or `all_deals`) after the loop over `symbols`. */
  function Collected(t: TableName, symbols: seq<string>, mapping: Mapping, fetch: string -> SymbolFetch, year: string, cm: int): seq<Row> {
    FlatMap(symbols, ContributionOf(t, mapping, fetch, year, cm))
  }

  /** Every collected row is the row of a recent record of a processed symbol, under that
      symbol's id. */
  lemma CollectedSound(t: TableName, symbols: seq<string>, mapping: Mapping, fetch: string -> SymbolFetch, year: string, cm: int, row: Row)
    requires row in Collected(t, symbols, mapping, fetch, year, cm)
    ensures exists i, r ::
      && 0 <= i < |symbols| && Processed(symbols[i], mapping, fetch, year, cm)
      && r in Feed(fetch(symbols[i]), t).records && RecentVerdict(r, year, cm, LastMonths) == Keep
      && row == RowFor(t, Get(mapping, symbols[i]), r)
  {
    var f := ContributionOf(t, mapping, fetch, year, cm);
    FlatMapMember(symbols, f, row);
    var i :| 0 <= i < |symbols| && row in f(symbols[i]);
    var sym := symbols[i];
    var kept := RecentMonthsFilter(Feed(fetch(sym), t).records, year, cm, LastMonths).value;
    var built := BuildRows(t, Get(mapping, sym), kept);
    var j :| 0 <= j < |built| && built[j] == row;
    assert kept[j] in kept;
  }

  /** Every recent record of a processed symbol gives a collected row. */
  lemma CollectedComplete(t: TableName, symbols: seq<string>, mapping: Mapping, fetch: string -> SymbolFetch, year: string, cm: int, i: nat, r: Record)
    requires i < |symbols| && Processed(symbols[i], mapping, fetch, year, cm)
    requires r in Feed(fetch(symbols[i]), t).records && RecentVerdict(r, year, cm, LastMonths) == Keep
    ensures RowFor(t, Get(mapping, symbols[i]), r) in Collected(t, symbols, mapping, fetch, year, cm)
  {
    var f := ContributionOf(t, mapping, fetch, year, cm);
    var sym := symbols[i];
    var kept := RecentMonthsFilter(Feed(fetch(sym), t).records, year, cm, LastMonths).value;
    var j :| 0 <= j < |kept| && kept[j] == r;
    assert BuildRows(t, Get(mapping, sym), kept)[j] == RowFor(t, Get(mapping, sym), r);
    FlatMapMember(symbols, f, RowFor(t, Get(mapping, sym), r));
  }

  /** A symbol that fails anywhere in the `try` block, or has no truthy id, leaves no row
      behind: removing it from the list changes nothing. */
  lemma SkippedContributesNothing(t: TableName, a: seq<string>, sym: string, b: seq<string>, mapping: Mapping, fetch: string -> SymbolFetch, year: string, cm: int)
    requires !Processed(sym, mapping, fetch, year, cm)
    ensures Collected(t, a + [sym] + b, mapping, fetch, year, cm) == Collected(t, a + b, mapping, fetch, year, cm)
  {
    FlatMapSkip(a, sym, b, ContributionOf(t, mapping, fetch, year, cm));
  }

  /** With a fresh mapping (no `symbol_ids.json`), no symbol is skipped for want of an id. */
  lemma FreshMappingProcessesAll(symbols: seq<string>, fetch: string -> SymbolFetch, year: string, cm: int, sym: string)
    requires sym in symbols
    requires fetch(sym).prices.Ok? && fetch(sym).deals.Ok?
    requires RecentMonthsFilter(fetch(sym).prices.records, year, cm, LastMonths).Some?
    requires RecentMonthsFilter(fetch(sym).deals.records, year, cm, LastMonths).Some?
    ensures Processed(sym, EnsureIdsV2(None, symbols), fetch, year, cm)
  {
  }

  /** The statements the end of `main` sends for the collected rows: the batches of all
      price rows followed by the batches of all deal rows. */
  function WriteOps(symbols: seq<string>, mapping: Mapping, fetch: string -> SymbolFetch, year: string, cm: int): seq<Statement> {
    BatchOps(SymbolPrice, Chunks(Collected(SymbolPrice, symbols, mapping, fetch, year, cm), BatchCommitSize))
    + BatchOps(SymbolDeals, Chunks(Collected(SymbolDeals, symbols, mapping, fetch, year, cm), BatchCommitSize))
  }

  /** The statements `main` sends: nothing without symbols, otherwise `WriteOps`. */
  function RunOps(env: Env, symbolsFile: Option<seq<string>>, storedIds: Option<Mapping>, fetch: string -> SymbolFetch, cm: int): seq<Statement> {
    var symbols := LoadSymbols(env, symbolsFile);
    if symbols == [] then []
    else WriteOps(symbols, EnsureIdsV2(storedIds, symbols), fetch, YearFilter(env), cm)
  }

  /** What a run does to the tables: every collected row replaces the row under its key, in
      collection order; and it commits once per batch of at most 5000 rows. */
  lemma RunEffect(s: Tables, env: Env, symbolsFile: Option<seq<string>>, storedIds: Option<Mapping>, fetch: string -> SymbolFetch, cm: int)
    ensures var symbols := LoadSymbols(env, symbolsFile);
      var mapping := EnsureIdsV2(storedIds, symbols);
      var year := YearFilter(env);
      var prices := Collected(SymbolPrice, symbols, mapping, fetch, year, cm);
      var deals := Collected(SymbolDeals, symbols, mapping, fetch, year, cm);
      && ApplyAll(s, RunOps(env, symbolsFile, storedIds, fetch, cm))
         == Tables(ReplaceAll(SymbolPrice, s.prices, prices), ReplaceAll(SymbolDeals, s.deals, deals))
      && CountCommits(RunOps(env, symbolsFile, storedIds, fetch, cm))
         == |Chunks(prices, BatchCommitSize)| + |Chunks(deals, BatchCommitSize)|
  {
    var symbols := LoadSymbols(env, symbolsFile);
    if symbols != [] {
      var mapping := EnsureIdsV2(storedIds, symbols);
      var year := YearFilter(env);
      var prices := Collected(SymbolPrice, symbols, mapping, fetch, year, cm);
      var deals := Collected(SymbolDeals, symbols, mapping, fetch, year, cm);
      var a := BatchOps(SymbolPrice, Chunks(prices, BatchCommitSize));
      var b := BatchOps(SymbolDeals, Chunks(deals, BatchCommitSize));
      ApplyAllAppend(s, a, b);
      BatchEffect(s, SymbolPrice, prices, BatchCommitSize);
      BatchEffect(ApplyAll(s, a), SymbolDeals, deals, BatchCommitSize);
      CountCommitsAppend(a, b);
    }
  }

  /** The loop of `main` that gathers `all_prices` and `all_deals`. */
  method CollectRows(symbols: seq<string>, mapping: Mapping, fetch: string -> SymbolFetch, year: string, currentMonth: int)
    returns (allPrices: seq<Row>, allDeals: seq<Row>)
    ensures allPrices == Collected(SymbolPrice, symbols, mapping, fetch, year, currentMonth)
    ensures allDeals == Collected(SymbolDeals, symbols, mapping, fetch, year, currentMonth)
    ensures Fits(SymbolPrice, allPrices) && Fits(SymbolDeals, allDeals)
  {
    allPrices, allDeals := [], [];
    for i := 0 to |symbols|
      invariant allPrices == Collected(SymbolPrice, symbols[..i], mapping, fetch, year, currentMonth)
      invariant allDeals == Collected(SymbolDeals, symbols[..i], mapping, fetch, year, currentMonth)
      invariant Fits(SymbolPrice, allPrices) && Fits(SymbolDeals, allDeals)
    {
      var sym := symbols[i];
      assert symbols[..i + 1][..i] == symbols[..i];
      var f := fetch(sym);
      if f.prices.Ok? && f.deals.Ok? {
        var prices := FilterByRecentMonths(f.prices.records, year, currentMonth, LastMonths);
        if prices.Some? {
          var deals := FilterByRecentMonths(f.deals.records, year, currentMonth, LastMonths);
          if deals.Some? {
            var sid := Get(mapping, sym);
            if Truthy(sid) {
              allPrices := allPrices + BuildPrices(sid, prices.value);
              allDeals := allDeals + BuildDeals(sid, deals.value);
            }
          }
        }
      }
    }
    assert symbols[..|symbols|] == symbols;
  }

  /** `main()` with the environment, the symbols file, `symbol_ids.json`, the API and the
      current calendar month as inputs. */
  method Run(db: Database, env: Env, symbolsFile: Option<seq<string>>, storedIds: Option<Mapping>,
             fetch: string -> SymbolFetch, currentMonth: int)
    requires db.Valid()
    modifies db
    ensures db.Valid()
    ensures db.log == old(db.log) + RunOps(env, symbolsFile, storedIds, fetch, currentMonth)
  {
    var symbols := LoadSymbols(env, symbolsFile);
    if symbols == [] {
      return;
    }
    var mapping := EnsureIdsV2(storedIds, symbols);
    var year := YearFilter(env);
    var allPrices, allDeals := CollectRows(symbols, mapping, fetch, year, currentMonth);
    ghost var start := db.log;
    ghost var priceOps := BatchOps(SymbolPrice, Chunks(allPrices, BatchCommitSize));
    ghost var dealOps := BatchOps(SymbolDeals, Chunks(allDeals, BatchCommitSize));
    InsertBatch(db, SymbolPrice, allPrices, BatchCommitSize);
    InsertBatch(db, SymbolDeals, allDeals, BatchCommitSize);
    ConcatAssoc(start, priceOps, dealOps);
  }
}
