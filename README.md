# ETL transform-and-load core, in Dafny

This project models the transform-and-load layer of four ETL scripts. Each script fetches a
symbol's price history (data type 0) and deal history (data type 1) from the history API.
It keeps the records of the configured period and turns each record into a fixed-width row
tuple. The rows go into `symbol_price` (16 columns, keyed by `symbol_id, date, time`) and
`symbol_deals` (14 columns, keyed by `symbol_id, date`) with `REPLACE INTO`.

The network and the database are replaced by values:

- Each symbol's fetches are given by a function `fetch: string -> SymbolFetch`. Each of the
  two results is `Ok(records)`, `Rejected400` or `Failed`.
- A record is a `map<string, JsonValue>`.
- The connection is the class `Store.Database`. It holds both tables, as maps from natural
  key to row, and the log of statements sent (`ExecMany(table, rows)` and `Commit`).
  `Valid()` ties the tables to the initial tables with the log applied.
- `REPLACE INTO` is `Store.ReplaceAll`, a map update per row in order.
- Environment variables are a `map<string, string>`.
- Files and `symbol_ids.json` are `Option` inputs.
- `datetime.now().month` is an `int` parameter.

Modules, one per file:

- `Wrappers`, `Json`: `Option`/`Result` and decoded JSON values.
- `Text`: Python's `strip`, `split`, `startswith` and `int(str)` on strings.
- `Coerce`: `num`.
- `Sequences`: guarded comprehensions, loops that may raise, and `extend` accumulation.
- `Store`: tables, `REPLACE INTO`, chunking and the connection.
- `Rows`: the 16- and 14-column tuples.
- `Symbols`: `load_symbols` and `ensure_symbol_ids`.
- `Filters`: `filter_by_year`, `filter_by_recent_months` and `filt`.
- `EtlV2`, `Etl`, `EtlP1`, `InsertSymbolData`: the four scripts' `main` loops and inserts.

Each script's `main` is an imperative method on a `Database`. Its `ensures` ties the new
log to a function of the inputs. Lemmas then state what that log does to the tables: rows
replaced in, in order, and commits.

Behaviour of the code worth knowing:

- `int()` does not skip the separators U+001C to U+001F, although `strip()` removes them: `num("\x1f42")` is `None`, `SYMBOL_ID_<sym>="\x1c7"` gives no id, and a date such as `"1404-\x1c6-01"` makes etl_v2.py's filter raise (`Text.ParseInt`).
- `num("12.5")` is `None`: `int("12.5")` raises and the code has no float fallback (`Coerce.NumRejectsDecimalPoint`).
- Only etl_p1.py treats HTTP 400 specially, as `SystemExit`, which the retry decorator does not catch. In etl.py and etl_v2.py a 400 is an `HTTPError` like any other. Either way the symbol is skipped, so those models treat `Rejected400` like `Failed`.
- etl_p1.py can end the whole run:
  - `ids[s]` is read outside the `try`, so a symbol missing from an existing `symbol_ids.json` raises KeyError;
  - `filt` also runs outside the `try`, so a record whose `date` is `None`, a number or a dict of seven or more entries raises (TypeError; for the dict, KeyError on Python 3.12 and later, where slices are hashable).

  In both cases the run ends, and `EtlP1` models this as `Abort`.
- etl_p1.py commits after every symbol that gets past the fetches, even when both filtered lists are empty.
- The recent-months window of etl_v2.py, with its four months, keeps the month after the current one, the current one and the two before it (`Filters.FourMonthWindow`). It does not keep the four months up to the current one. The current month is taken from the Gregorian calendar while dates are compared as written.

## Model

| member | source | states |
|---|---|---|
| Text.StripFacts | src/etl_v2.py:36 | `s.strip()` has no whitespace at either end, is empty exactly when `s` is all whitespace, and keeps only characters of `s` |
| Text.Split | src/etl_v2.py:36 | `split(",")` gives at least one piece, no piece contains the separator, and joining the pieces gives the input back |
| Text.SplitJoin | src/etl_v2.py:36 | splitting a join of separator-free pieces gives back exactly those pieces |
| Text.ParseInt | src/etl.py:170 | `int(str)` raises (None) on blank text, and on any text holding one of the separators U+001C to U+001F, which `strip()` removes but `int()` does not skip |
| Text.ParseIntIgnoresSpace | src/etl.py:170 | `int()` reads a string without separators and its stripped form alike |
| Text.ParseShowInt | src/etl.py:170 | `int(str(i)) == i` for every integer `i` whose decimal form is within CPython's digit limit (see Left out) |
| Coerce.Truncate | src/etl_v2.py:75-79 | a float cast to int truncates toward zero and stays within one of the float |
| Coerce.Num | src/etl_v2.py:75-79 | `num` never raises: it is `Some` exactly when `int(v)` succeeds, with that value |
| Coerce.NumReadsIntegers | src/etl.py:67-71 | integers and their decimal strings come back unchanged |
| Coerce.NumRejectsNonNumbers | src/etl.py:67-71 | missing fields, null, lists, dicts and blank strings give None |
| Coerce.NumRejectsSeparators | src/etl_v2.py:75-79 | a string holding a separator U+001C to U+001F, even next to the numeral, gives `None`, as `int()` raises on it |
| Coerce.ParseIntRejectsStray | src/etl_p1.py:59-61 | a stray non-digit inside a numeral makes the cast fail |
| Coerce.NumRejectsDecimalPoint | src/etl_p1.py:59-61 | a string with a decimal point gives None: there is no float fallback |
| Coerce.NumTruncatesFloats | src/etl_v2.py:75-79 | a JSON float always converts, toward zero, within one of its value |
| Sequences.Select | src/etl.py:64 | a guarded comprehension gives an order-preserving subsequence whose elements are exactly the inputs passing the guard, each as many times as it occurs in the input |
| Sequences.SelectOrRaise | src/etl_v2.py:64-73 | a filtering loop that may raise succeeds iff no element raises, and then keeps an order-preserving subsequence of exactly the kept elements, each as many times as it occurs in the input |
| Sequences.SelectAll | src/etl.py:64 | a guard every element passes keeps the whole list |
| Sequences.FlatMapMember | src/etl_v2.py:152-168 | a row is in the `extend`-accumulated list iff it is in the list of some input element |
| Sequences.FlatMapSkip | src/etl_v2.py:146-149 | an element whose list is empty can be removed without changing the accumulation |
| Store.ReplaceAllUntouched | src/etl_v2.py:85-90 | `REPLACE INTO` leaves every key no written row has, and its row, as it was |
| Store.ReplaceAllLastWins | src/etl_v2.py:85-90 | after `REPLACE INTO` the row under a written key is the last row written with that key |
| Store.ReplaceAllKeys | src/etl_v2.py:85-90 | the keys afterwards are the old keys plus the keys of the written rows |
| Store.ReplaceAllAppend | src/etl_v2.py:104-107 | replacing `a + b` is replacing `a`, then `b` |
| Store.ReplaceAllIdempotent | src/etl.py:77-92 | sending the same rows twice leaves the table as sending them once |
| Store.ReplaceAllWellKeyed | src/etl.py:77-92 | rows of the table's width keep every row stored under its own natural key |
| Store.Chunks | src/etl_v2.py:104-105 | chunks are non-empty, at most `batch_size` long, and all but the last are full |
| Store.ChunksFlatten | src/etl_v2.py:104-105 | the chunks concatenate to the rows, in order |
| Store.ChunksFrom | src/etl_v2.py:104-105 | the chunks from offset `i` are `rows[i:i+batch_size]` followed by the chunks from `i + batch_size` |
| Store.ApplyAllWritten | src/etl_v2.py:106-107 | whatever the interleaving with commits, each table ends up with all rows written into it replaced in, in order |
| Store.WriteCommitFacts | src/etl.py:91-94 | a non-empty conditional write writes its rows into its table only and commits once |
| Store.Database.constructor | src/etl.py:141 | a connection to the given tables starts with no statements sent |
| Store.Database.ExecuteMany | src/etl_v2.py:106 | `executemany` replaces the rows into the table and logs the statement |
| Store.Database.Commit | src/etl_v2.py:107 | `commit` logs a commit and changes neither table |
| Rows.PriceRow | src/etl.py:84-89 | a 16-column tuple: `sid`, `date` and `time` as given, then `num` of each integer column and the float casts of `plp`/`pcp` |
| Rows.DealRow | src/etl.py:111-117 | a 14-column tuple: `sid`, `date` as given, then `num` of each count, volume and value column |
| Rows.BuildPrices | src/etl.py:84-89 | one price tuple per record, in order, each fitting the 16 placeholders |
| Rows.BuildDeals | src/etl.py:111-117 | one deal tuple per record, in order, each fitting the 14 placeholders |
| Rows.BuildPricesKeys | src/etl.py:78-89 | every price tuple sits under the key `(sid, date, time)` of its record |
| Rows.BuildDealsKeys | src/etl.py:102-117 | every deal tuple sits under the key `(sid, date)` of its record |
| Rows.BuildRows | src/etl_v2.py:152-168 | the rows built for either table: one per record, in order, of the table's width |
| Symbols.StripAll | src/etl_v2.py:36 | each entry stripped, in order |
| Symbols.NonBlank | src/etl.py:48-50 | the non-blank stripped entries, in input order; each non-empty with no surrounding whitespace; a non-empty stripped entry is listed as many times as it occurs, and nothing else is listed |
| Symbols.StrippedClean | src/etl.py:48-50 | a stripped entry that is not blank neither begins nor ends with whitespace |
| Symbols.NonBlankClean | src/etl.py:48-50 | a list of clean symbols comes back unchanged |
| Symbols.ParseSymbolListJoin | src/etl_v2.py:35-36 | `SYMBOLS=a,b,c` written from clean comma-free symbols parses back to the same list |
| Symbols.LoadSymbols | src/etl_v2.py:34-40 | every symbol loaded is clean; a non-empty `SYMBOLS` wins and is split at commas; otherwise the non-blank lines of the symbols file; with neither the list is empty |
| Symbols.FreshIds | src/etl_v2.py:48 | the fresh mapping has exactly the listed symbols; each id is an int in 1..len, at a position holding that symbol and after which the symbol does not recur |
| Symbols.FreshIdsDistinct | src/etl_p1.py:37 | with distinct symbols, the `i`-th symbol gets id `i + 1` |
| Symbols.FreshIdsTruthy | src/etl_v2.py:147 | every fresh id passes `if not sid` |
| Symbols.EnsureIdsV2 | src/etl_v2.py:42-53 | a non-empty stored mapping is returned as it is; a missing or empty one is replaced by `FreshIds(symbols)`, which gives every symbol a truthy id |
| Symbols.EnsureIdsP1 | src/etl_p1.py:34-39 | an existing file is used as it is, even when empty; otherwise the mapping is `FreshIds(symbols)`, giving every symbol a truthy id |
| Filters.FilterByYear | src/etl.py:63-64 | an order-preserving subsequence holding exactly the records whose `date` is a string starting with `year`, each as many times as it occurs |
| Filters.FilterByYearIdempotent | src/etl.py:63-64 | filtering twice is filtering once |
| Filters.AnyMonthClosedForm | src/etl_v2.py:71 | the `any(...)` window test holds iff `(cm - month + 1) mod 12 < last_months` |
| Filters.FourMonthWindow | src/etl_v2.py:71 | with four months the window is the month after `cm`, `cm` and the two months before it |
| Filters.RecentMonthsFilter | src/etl_v2.py:63-73 | the filter succeeds iff no record raises, and then keeps an order-preserving subsequence of exactly the records in the window, each as many times as it occurs |
| Filters.RecentKeeps | src/etl_v2.py:67-72 | a record is kept iff its date is a string starting with `year` whose second `-` piece parses to a month in the window |
| Filters.RecentWithinYear | src/etl_v2.py:68 | every record kept by the recent-months filter starts with `year` |
| Filters.FilterByRecentMonths | src/etl_v2.py:63-73 | the loop, with its inner `any` loop, computes the recent-months filter, or None when it raises |
| Filters.RecentStep | src/etl_v2.py:66-72 | the loop body on one record skips, keeps or raises exactly as the recent-months verdict says |
| Filters.InWindow | src/etl_v2.py:71 | the generator inside `any` is evaluated to the window test, whose closed form `AnyMonthClosedForm` gives |
| Filters.FiltKeeps | src/etl_p1.py:51-57 | `filt` keeps a record iff its date is a string of length at least 7, starting with `1404`, with characters 5-6 in the month set |
| Filters.Filt | src/etl_p1.py:51-57 | the loop computes `filt`, or None when it raises; every kept record is also kept by the year filter |
| EtlV2.BatchOpsWritten | src/etl_v2.py:104-107 | the chunk loop writes exactly the concatenated chunks into its table and commits once per chunk |
| EtlV2.BatchEffect | src/etl_v2.py:104-107 | chunked writes leave the tables as one `REPLACE` of all rows, with one commit per chunk |
| EtlV2.WriteBatch | src/etl_v2.py:105-107 | one chunk is written and then committed |
| EtlV2.InsertBatch | src/etl_v2.py:81-108 | `insert_batch` sends exactly one `executemany` plus commit per chunk, in order, and nothing for no rows |
| EtlV2.CollectedSound | src/etl_v2.py:143-168 | every accumulated row is the row of a recent record of a processed symbol, under that symbol's id |
| EtlV2.CollectedComplete | src/etl_v2.py:143-168 | every recent record of a processed symbol gives an accumulated row |
| EtlV2.SkippedContributesNothing | src/etl_v2.py:146-149 | a symbol without a truthy id, or failing in the `try`, can be removed without changing the accumulated rows |
| EtlV2.FreshMappingProcessesAll | src/etl_v2.py:47-48 | with a fresh mapping a symbol whose fetches and filters succeed is processed |
| EtlV2.RunEffect | src/etl_v2.py:118-175 | a run replaces all accumulated price rows, then all deal rows, into the tables, with one commit per chunk of at most 5000 rows |
| EtlV2.CollectRows | src/etl_v2.py:130-171 | the loop accumulates exactly the collected price and deal rows, each fitting its table |
| EtlV2.Run | src/etl_v2.py:118-175 | `main` sends exactly the chunked writes of the collected rows, and nothing without symbols |
| Etl.ResolveSid | src/etl.py:167-173 | a resolved id is truthy; a truthy mapping id is used as is; otherwise a non-zero `int()` of `SYMBOL_ID_<sym>` is the id (any numeral `int()` accepts), and a failed or zero parse gives no id; with neither there is no id |
| Etl.EnvIdFallback | src/etl.py:168-170 | a symbol without a mapping id gets the non-zero id written in `SYMBOL_ID_<sym>` |
| Etl.InsertPrices | src/etl.py:74-95 | nothing for no rows, otherwise one `executemany` of the built price rows and a commit |
| Etl.InsertDeals | src/etl.py:98-123 | nothing for no rows, otherwise one `executemany` of the built deal rows and a commit |
| Etl.SymbolOpsWritten | src/etl.py:175-176 | one symbol's statements write exactly its rows and end committed |
| Etl.LoopWritten | src/etl.py:151-179 | the loop writes each table's rows symbol by symbol, in list order, and leaves nothing uncommitted |
| Etl.RunEffect | src/etl.py:135-179 | a run replaces every written row into its table in symbol order and ends committed |
| Etl.InsertedMember | src/etl.py:164-176 | a row one symbol writes is the row of a fetched record of the year under the resolved id |
| Etl.InsertedSound | src/etl.py:151-179 | every row written is the row of a fetched record of the year of some symbol with a resolved id |
| Etl.SkippedSendsNothing | src/etl.py:171-173 | a symbol with a failed fetch or no id can be removed without changing the statements sent |
| Etl.ProcessSymbol | src/etl.py:154-179 | the loop body sends exactly that symbol's statements |
| Etl.ProcessAll | src/etl.py:151-179 | the loop sends each symbol's statements in order |
| Etl.Run | src/etl.py:135-186 | `main` sends exactly the planned statements, and nothing without symbols |
| EtlP1.FetchAttempt | src/etl_p1.py:41-49 | a 400 is the rejection (`SystemExit`) and nothing else is; any other 4xx/5xx is retried; otherwise the list, or `[]` for a non-list |
| EtlP1.StepOf | src/etl_p1.py:84-99 | a symbol missing from `ids` aborts; it is skipped iff it has an id and a fetch fails; a write carries `ids[s]` and both filtered lists |
| EtlP1.RejectedSkips | src/etl_p1.py:88-93 | a 400 on either fetch skips the symbol |
| EtlP1.StepOpsFacts | src/etl_p1.py:101-126 | a step writes exactly its rows, only into tables whose filtered list is non-empty, and commits once iff it writes |
| EtlP1.FirstAbort | src/etl_p1.py:84-99 | the first symbol whose step aborts, with no abort before it |
| EtlP1.RunOutcomeSpec | src/etl_p1.py:84-126 | the run is the steps before the first abort, and it aborts iff some step aborts |
| EtlP1.AbortIsFinal | src/etl_p1.py:86 | after an abort no further symbol is processed |
| EtlP1.SkippedChangesNothing | src/etl_p1.py:91-96 | a skipped symbol can be removed without changing the run |
| EtlP1.StepsFacts | src/etl_p1.py:101-126 | consecutive steps write their rows in order, commit once per written symbol, and leave nothing uncommitted |
| EtlP1.MainEffect | src/etl_p1.py:78-126 | a run replaces the rows of the symbols before the first abort into the tables, commits once per written symbol, and ends committed even when it aborts |
| EtlP1.FreshIdsNeverMissing | src/etl_p1.py:35-39 | without `symbol_ids.json` every symbol has an id |
| EtlP1.ProcessSymbol | src/etl_p1.py:85-126 | the loop body sends exactly the step's statements and reports an abort exactly when the step aborts |
| EtlP1.WriteStep | src/etl_p1.py:99-124 | a symbol that got through sends one `executemany` per non-empty list, prices first, then one commit |
| EtlP1.ProcessNext | src/etl_p1.py:84-124 | one turn of the loop extends the run over the symbols before it by that symbol's step |
| EtlP1.ProcessAll | src/etl_p1.py:84-126 | the loop sends the run's statements and stops exactly when the run aborts |
| EtlP1.Run | src/etl_p1.py:78-130 | `main` sends exactly the run's statements and reports whether it ended with an exception |
| InsertSymbolData.Columns | src/insert_symbol_data.py:19-29 | each statement has one column per placeholder, `symbol_id` first |
| InsertSymbolData.RawRow | src/insert_symbol_data.py:34-51 | a tuple of `symbol_id` and then each column's field exactly as the record holds it |
| InsertSymbolData.RawRows | src/insert_symbol_data.py:33-54 | one raw tuple per kept record, in order |
| InsertSymbolData.KeptIsYearFilter | src/insert_symbol_data.py:52-53 | when the comprehension does not raise it keeps exactly the year filter's records |
| InsertSymbolData.Batch | src/insert_symbol_data.py:33-54 | the batch builds iff no record raises, and then holds one uncoerced tuple per record of the year, in order |
| InsertSymbolData.BatchRowsDated | src/insert_symbol_data.py:33-54 | every tuple has `symbol_id` first, a date starting with `1404`, and the fields of one input record unchanged |
| InsertSymbolData.InsertRecords | src/insert_symbol_data.py:18-60 | write and commit only for a non-empty batch; nothing when building it raises |
| InsertSymbolData.ScriptEffect | src/insert_symbol_data.py:108-117 | the script replaces both batches into the tables; when only the deal batch raises, the prices are replaced and the deals untouched; nothing changes when the price batch raises; it always ends committed |
| InsertSymbolData.RunScript | src/insert_symbol_data.py:108-117 | the script sends the price write, then the deal write unless the price batch raised |

## Left out

- HTTP: requests, URLs, headers, timeouts and the `backoff` retries are outside the model. Each fetch is an input result. In etl_p1.py the retry has no attempt limit, so a server that keeps failing is retried forever; `EtlP1.FetchAttempt` models one exchange only.
- `time.sleep` and logging have no effect on the tables and are left out.
- `save_json` is left out: the model assumes `SAVE_JSON` is off or the write succeeds. With `SAVE_JSON` set, an `OSError` from the write (an unwritable data directory, a symbol containing `/`) happens inside the per-symbol `try` of etl.py and etl_v2.py and skips a symbol whose fetches succeeded.
- EtlV2.Run: takes one `currentMonth` for the whole run, while `filter_by_recent_months` reads `datetime.now().month` at every call, twice per symbol; a run that crosses a month boundary is not represented.
- EtlP1.Run: takes the lines of the symbols file as given; etl_p1.py's `load_symbols` opens the file unconditionally, so with no symbols file `main` ends with FileNotFoundError, which the model does not express.
- File I/O: the symbols file is given as its lines, and `symbol_ids.json` and the saved JSON files as values. Writing a fresh `symbol_ids.json` is not modelled.
- A `symbol_ids.json` that is not a JSON object, and API lists holding non-objects, are left out: records are always maps.
- The database connection code (db.py, db_connection.py, db_connection_ci.py, utils_db.py, test_connection.py) is not part of this model. `if not conn: return` is left out, as are statement failures and MySQL's own coercion of parameters.
- The float casts of `plp`/`pcp` are kept as the uninterpreted parameter `FloatOf(v)`.
- Text.ParseInt: does not accept non-ASCII Unicode digits, which Python's `int()` also reads.
- Text.ParseInt: does not model CPython 3.11's limit of 4300 digits on `int(str)`, above which `int()` raises ValueError; the model reads numerals of any length.
- Text.ParseShowInt: holds for every integer in the model, while CPython 3.11 and later raise in `str(i)` and `int(s)` beyond 4300 digits.
- Coerce.Num: returns the parsed value for numerals over 4300 digits, where CPython 3.11 and later raise and `num` gives `None`.
- Coerce.Num: `JReal` holds only finite numbers; the `NaN` and `Infinity` that `json` accepts, for which `int()` raises and `num` gives `None`, are not represented.
- A symbol listed twice gets the same fetch answer both times, since fetches are a function of the symbol.
- EtlV2.InsertBatch: requires a batch size above zero, as `range` with step 0 raises; `main` always passes 5000.
- The one-off scripts (fetch_br_test.py, fetch_br_api.py, fetch_single_symbol.py, fetch_br_deals_test.py) are not part of this model.
- etl.py has its own `load_symbols`, identical to the one in etl_v2.py. Both are `Symbols.LoadSymbols`.
- insert_symbol_data.py's `SYMBOL` only names the saved files, so it is left out with them.
