/** etl_p1.py: read the symbols file, fetch each symbol's price and deal history, keep the
    records of months 06-12 of 1404, write them and commit once per symbol. */
module EtlP1 {
  import opened Wrappers
  import opened Json
  import opened Sequences
  import opened Store
  import opened Rows
  import opened Symbols
  import opened Filters

  // ---------------------------------------------------------------------------------------
  // fetch

  /** What one HTTP exchange of `fetch` leads to: a value handed back to the caller, or an
      exception the `backoff` decorator catches and answers with another request. */
  datatype Attempt = Returned(result: FetchResult) | Retried

  /** One response, with status `status` and a body that decodes to a list of records
      (`Some`) or to a value that is not a list (`None`): a 400 raises `SystemExit(400)`,
      which `backoff` does not catch; any other 4xx or 5xx status makes `raise_for_status`
      raise an `HTTPError`, which it retries; otherwise the list, or `[]` for a non-list. */
  function FetchAttempt(status: int, body: Option<seq<Record>>): (a: Attempt)
    ensures a == Returned(Rejected400) <==> status == 400
    ensures a == Retried <==> 400 < status < 600
    ensures a.Returned? && a.result.Ok? ==> a.result.records == (if body.Some? then body.value else [])
    ensures a.Returned? ==> a.result.Ok? || a.result.Rejected400?
  {
    if status == 400 then Returned(Rejected400)
    else if 400 <= status < 600 then Retried
    else Returned(Ok(if body.Some? then body.value else []))
  }

  // ---------------------------------------------------------------------------------------
  // One iteration of the loop of `main`

  /** What one iteration does: `Abort` when an exception escapes the loop body (`ids[s]`
      raises KeyError, or `filt` raises, both outside the `try`), `Skip` when a fetch raises
      (`SystemExit` for a 400 or any other exception; the `continue`), or `Write` the
      filtered price and deal records under `sid`. */
  datatype Step = Abort | Skip | Write(sid: JsonValue, prices: seq<Record>, deals: seq<Record>)

  /** The step taken for symbol `sym`. */
  function StepOf(sym: string, ids: Mapping, fetch: string -> SymbolFetch): (step: Step)
    ensures step.Skip? <==> sym in ids && (!fetch(sym).prices.Ok? || !fetch(sym).deals.Ok?)
    ensures sym !in ids ==> step == Abort
    ensures step.Write? ==>
      && sym in ids && step.sid == ids[sym]
      && fetch(sym).prices.Ok? && fetch(sym).deals.Ok?
      && SelectOrRaise(fetch(sym).prices.records, FiltVerdict) == Some(step.prices)
      && SelectOrRaise(fetch(sym).deals.records, FiltVerdict) == Some(step.deals)
    ensures step == Abort && sym in ids ==>
      || SelectOrRaise(fetch(sym).prices.records, FiltVerdict).None?
      || SelectOrRaise(fetch(sym).deals.records, FiltVerdict).None?
  {
    if sym !in ids then Abort
    else
      var f := fetch(sym);
      if !f.prices.Ok? || !f.deals.Ok? then Skip
      else
        match SelectOrRaise(f.prices.records, FiltVerdict)
        case None => Abort
        case Some(p) =>
          match SelectOrRaise(f.deals.records, FiltVerdict)
          case None => Abort
          case Some(d) => Write(ids[sym], p, d)
  }

  /** A 400 on either fetch skips the symbol. */
  lemma RejectedSkips(sym: string, ids: Mapping, fetch: string -> SymbolFetch)
    requires sym in ids
    requires fetch(sym).prices == Rejected400 || fetch(sym).deals == Rejected400
    ensures StepOf(sym, ids, fetch) == Skip
  {
  }

  /** The statements one step sends: an `executemany` into `symbol_price` when the filtered
      price list is not empty, one into `symbol_deals` when the filtered deal list is not
      empty, then a commit; nothing for `Skip` and `Abort`. */
  function StepOps(step: Step): seq<Statement> {
    match step
    case Write(sid, p, d) =>
      (if p != [] then [ExecMany(SymbolPrice, BuildPrices(sid, p))] else [])
      + (if d != [] then [ExecMany(SymbolDeals, BuildDeals(sid, d))] else [])
      + [Commit]
    case _ => []
  }

  /** The rows a step writes into table `t`. */
  function StepRows(t: TableName, step: Step): seq<Row> {
    if step.Write? then BuildRows(t, step.sid, if t == SymbolPrice then step.prices else step.deals)
    else []
  }

  /** A step writes exactly its rows, commits once when it writes and never otherwise, and
      leaves nothing uncommitted. */
  lemma StepOpsFacts(step: Step, t: TableName)
    ensures Written(t, StepOps(step)) == StepRows(t, step)
    ensures CountCommits(StepOps(step)) == (if step.Write? then 1 else 0)
    ensures Committed(StepOps(step))
  {
    if step.Write? {
      var ea := ExecMany(SymbolPrice, BuildPrices(step.sid, step.prices));
      var eb := ExecMany(SymbolDeals, BuildDeals(step.sid, step.deals));
      var a := if step.prices != [] then [ea] else [];
      var b := if step.deals != [] then [eb] else [];
      var c: seq<Statement> := [Commit];
      assert StepOps(step) == a + b + c;
      WriteOpsWritten(step, t, ea, eb, a, b, c);
      WriteOpsCommits(t, ea, eb, a, b, c);
    }
  }

  lemma WriteOpsCommits(t: TableName, ea: Statement, eb: Statement, a: seq<Statement>, b: seq<Statement>, c: seq<Statement>)
    requires ea.ExecMany? && eb.ExecMany?
    requires (a == [] || a == [ea]) && (b == [] || b == [eb]) && c == [Commit]
    ensures CountCommits(a + b + c) == 1
    ensures Committed(a + b + c)
  {
    CountCommitsAppend(a + b, c);
    CountCommitsAppend(a, b);
    SingleFacts(ea, t);
    SingleFacts(eb, t);
    SingleFacts(Commit, t);
  }

  lemma WriteOpsWritten(step: Step, t: TableName, ea: Statement, eb: Statement, a: seq<Statement>, b: seq<Statement>, c: seq<Statement>)
    requires step.Write?
    requires ea == ExecMany(SymbolPrice, BuildPrices(step.sid, step.prices))
    requires eb == ExecMany(SymbolDeals, BuildDeals(step.sid, step.deals))
    requires a == (if step.prices != [] then [ea] else []) && b == (if step.deals != [] then [eb] else [])
    requires c == [Commit]
    ensures Written(t, a + b + c) == StepRows(t, step)
  {
    WrittenAppend(t, a + b, c);
    WrittenAppend(t, a, b);
    SingleFacts(ea, t);
    SingleFacts(eb, t);
    SingleFacts(Commit, t);
    var wa, wb := Written(t, a), Written(t, b);
    AppendEmpty(wa + wb);
    AppendEmpty(wa);
    AppendEmpty(wb);
    if t == SymbolPrice {
      assert wb == [];
      assert wa == StepRows(t, step);
    } else {
      assert wa == [];
      assert wb == StepRows(t, step);
    }
  }

  function SymbolOps(sym: string, ids: Mapping, fetch: string -> SymbolFetch): seq<Statement> {
    StepOps(StepOf(sym, ids, fetch))
  }

  function SymbolOpsOf(ids: Mapping, fetch: string -> SymbolFetch): string -> seq<Statement> {
    sym => SymbolOps(sym, ids, fetch)
  }

  function RowsOf(t: TableName, ids: Mapping, fetch: string -> SymbolFetch): string -> seq<Row> {
    sym => StepRows(t, StepOf(sym, ids, fetch))
  }

  function WroteOf(ids: Mapping, fetch: string -> SymbolFetch): string -> bool {
    sym => StepOf(sym, ids, fetch).Write?
  }

  // ---------------------------------------------------------------------------------------
  // The loop of `main`

  /** The statements sent so far, and whether an exception has ended the run. */
  datatype Outcome = Outcome(ops: seq<Statement>, aborted: bool)

  /** The loop over `symbols`, one step after the other until a step aborts. */
  function RunOutcome(symbols: seq<string>, ids: Mapping, fetch: string -> SymbolFetch): Outcome
    decreases |symbols|
  {
    if symbols == [] then Outcome([], false)
    else
      var prev := RunOutcome(symbols[..|symbols| - 1], ids, fetch);
      if prev.aborted then prev
      else
        var step := StepOf(symbols[|symbols| - 1], ids, fetch);
        Outcome(prev.ops + StepOps(step), step == Abort)
  }

  /** Running one more symbol: unless the run has already aborted, that symbol's step. */
  lemma RunOutcomeSnoc(xs: seq<string>, x: string, ids: Mapping, fetch: string -> SymbolFetch)
    ensures var prev := RunOutcome(xs, ids, fetch);
      RunOutcome(xs + [x], ids, fetch)
        == if prev.aborted then prev
           else Outcome(prev.ops + StepOps(StepOf(x, ids, fetch)), StepOf(x, ids, fetch) == Abort)
  {
    assert (xs + [x])[..|xs|] == xs;
  }

  /** The position of the first symbol whose step aborts, or the number of symbols. */
  function FirstAbort(symbols: seq<string>, ids: Mapping, fetch: string -> SymbolFetch): (k: nat)
    ensures k <= |symbols|
    ensures forall i :: 0 <= i < k ==> StepOf(symbols[i], ids, fetch) != Abort
    ensures k < |symbols| ==> StepOf(symbols[k], ids, fetch) == Abort
    decreases |symbols|
  {
    if symbols == [] then 0
    else
      var init := symbols[..|symbols| - 1];
      var k0 := FirstAbort(init, ids, fetch);
      assert forall i :: 0 <= i < |init| ==> symbols[i] == init[i];
      if k0 < |init| then k0
      else if StepOf(symbols[|symbols| - 1], ids, fetch) == Abort then |init|
      else |symbols|
  }

  /** The run is the steps of the symbols before the first abort; it is aborted exactly when
      some symbol's step aborts. */
  lemma RunOutcomeSpec(symbols: seq<string>, ids: Mapping, fetch: string -> SymbolFetch)
    ensures RunOutcome(symbols, ids, fetch).aborted <==> FirstAbort(symbols, ids, fetch) < |symbols|
    ensures RunOutcome(symbols, ids, fetch).ops
      == FlatMap(symbols[..FirstAbort(symbols, ids, fetch)], SymbolOpsOf(ids, fetch))
  {
    RunOutcomeAborted(symbols, ids, fetch);
    RunOutcomeOps(symbols, ids, fetch);
  }

  lemma {:induction false} RunOutcomeAborted(symbols: seq<string>, ids: Mapping, fetch: string -> SymbolFetch)
    ensures RunOutcome(symbols, ids, fetch).aborted <==> FirstAbort(symbols, ids, fetch) < |symbols|
    decreases |symbols|
  {
    if symbols != [] {
      RunOutcomeAborted(symbols[..|symbols| - 1], ids, fetch);
    }
  }

  lemma {:induction false} RunOutcomeOps(symbols: seq<string>, ids: Mapping, fetch: string -> SymbolFetch)
    ensures RunOutcome(symbols, ids, fetch).ops
      == FlatMap(symbols[..FirstAbort(symbols, ids, fetch)], SymbolOpsOf(ids, fetch))
    decreases |symbols|
  {
    if symbols != [] {
      var init := symbols[..|symbols| - 1];
      var last := symbols[|symbols| - 1];
      RunOutcomeAborted(init, ids, fetch);
      RunOutcomeOps(init, ids, fetch);
      var k0 := FirstAbort(init, ids, fetch);
      var body := SymbolOpsOf(ids, fetch);
      var prev := RunOutcome(init, ids, fetch);
      var k := FirstAbort(symbols, ids, fetch);
      var out := RunOutcome(symbols, ids, fetch);
      if k0 < |init| {
        assert k == k0 && out == prev;
        TakeTake(symbols, |init|, k0);
      } else {
        TakeAll(init);
        var step := StepOf(last, ids, fetch);
        assert out == Outcome(prev.ops + StepOps(step), step == Abort);
        if step == Abort {
          assert k == |init|;
          AppendEmpty(prev.ops);
        } else {
          assert k == |symbols|;
          TakeAll(symbols);
          assert body(last) == StepOps(step);
          assert FlatMap(symbols, body) == FlatMap(init, body) + body(last);
        }
      }
    }
  }

  /** Once a step aborts, nothing after it runs. */
  lemma {:induction false} AbortIsFinal(a: seq<string>, b: seq<string>, ids: Mapping, fetch: string -> SymbolFetch)
    requires RunOutcome(a, ids, fetch).aborted
    ensures RunOutcome(a + b, ids, fetch) == RunOutcome(a, ids, fetch)
    decreases |b|
  {
    if b == [] {
      assert a + b == a;
    } else {
      var ab := a + b;
      assert ab[..|ab| - 1] == a + b[..|b| - 1];
      AbortIsFinal(a, b[..|b| - 1], ids, fetch);
    }
  }

  /** A run that has aborted on a prefix ends there. */
  lemma AbortedPrefix(symbols: seq<string>, i: nat, ids: Mapping, fetch: string -> SymbolFetch)
    requires i <= |symbols| && RunOutcome(symbols[..i], ids, fetch).aborted
    ensures RunOutcome(symbols, ids, fetch) == RunOutcome(symbols[..i], ids, fetch)
  {
    AbortIsFinal(symbols[..i], symbols[i..], ids, fetch);
    assert symbols[..i] + symbols[i..] == symbols;
  }

  /** A skipped symbol leaves the run as if it were not in the list. */
  lemma {:induction false} SkippedChangesNothing(a: seq<string>, sym: string, b: seq<string>, ids: Mapping, fetch: string -> SymbolFetch)
    requires StepOf(sym, ids, fetch) == Skip
    ensures RunOutcome(a + [sym] + b, ids, fetch) == RunOutcome(a + b, ids, fetch)
    decreases |b|
  {
    if b == [] {
      assert a + [sym] + b == a + [sym];
      assert a + b == a;
      RunOutcomeSnoc(a, sym, ids, fetch);
      assert RunOutcome(a, ids, fetch).ops + [] == RunOutcome(a, ids, fetch).ops;
    } else {
      var b0 := b[..|b| - 1];
      var x := b[|b| - 1];
      assert a + [sym] + b == (a + [sym] + b0) + [x];
      assert a + b == (a + b0) + [x];
      SkippedChangesNothing(a, sym, b0, ids, fetch);
      RunOutcomeSnoc(a + [sym] + b0, x, ids, fetch);
      RunOutcomeSnoc(a + b0, x, ids, fetch);
    }
  }

  /** The statements of consecutive steps write the steps' rows in order, commit once per
      step that writes, and leave nothing uncommitted. */
  lemma {:induction false} StepsFacts(symbols: seq<string>, ids: Mapping, fetch: string -> SymbolFetch, t: TableName)
    ensures Written(t, FlatMap(symbols, SymbolOpsOf(ids, fetch))) == FlatMap(symbols, RowsOf(t, ids, fetch))
    ensures CountCommits(FlatMap(symbols, SymbolOpsOf(ids, fetch))) == |Select(symbols, WroteOf(ids, fetch))|
    ensures Committed(FlatMap(symbols, SymbolOpsOf(ids, fetch)))
  {
    if symbols != [] {
      var init := symbols[..|symbols| - 1];
      var last := symbols[|symbols| - 1];
      StepsFacts(init, ids, fetch, t);
      var ops := FlatMap(init, SymbolOpsOf(ids, fetch));
      var step := StepOps(StepOf(last, ids, fetch));
      assert FlatMap(symbols, SymbolOpsOf(ids, fetch)) == ops + step;
      assert FlatMap(symbols, RowsOf(t, ids, fetch))
        == FlatMap(init, RowsOf(t, ids, fetch)) + StepRows(t, StepOf(last, ids, fetch));
      StepOpsFacts(StepOf(last, ids, fetch), t);
      WrittenAppend(t, ops, step);
      CountCommitsAppend(ops, step);
      CommittedAppend(ops, step);
    }
  }

  /** `main()` with the lines of the symbols file, `symbol_ids.json` and the API as inputs. */
  function MainOutcome(lines: seq<string>, storedIds: Option<Mapping>, fetch: string -> SymbolFetch): Outcome {
    var symbols := NonBlank(lines);
    RunOutcome(symbols, EnsureIdsP1(storedIds, symbols), fetch)
  }

  /** What a run does: the symbols before the first abort are processed, each table
      receives their rows in order, one commit is made per symbol written, and nothing is
      left uncommitted, whether the run finishes or aborts. */
  lemma MainEffect(s: Tables, lines: seq<string>, storedIds: Option<Mapping>, fetch: string -> SymbolFetch)
    ensures var symbols := NonBlank(lines);
      var ids := EnsureIdsP1(storedIds, symbols);
      var k := FirstAbort(symbols, ids, fetch);
      var o := MainOutcome(lines, storedIds, fetch);
      && (o.aborted <==> k < |symbols|)
      && ApplyAll(s, o.ops)
        == Tables(ReplaceAll(SymbolPrice, s.prices, FlatMap(symbols[..k], RowsOf(SymbolPrice, ids, fetch))),
                  ReplaceAll(SymbolDeals, s.deals, FlatMap(symbols[..k], RowsOf(SymbolDeals, ids, fetch))))
      && CountCommits(o.ops) == |Select(symbols[..k], WroteOf(ids, fetch))|
      && Committed(o.ops)
  {
    var symbols := NonBlank(lines);
    var ids := EnsureIdsP1(storedIds, symbols);
    var k := FirstAbort(symbols, ids, fetch);
    var o := MainOutcome(lines, storedIds, fetch);
    RunOutcomeSpec(symbols, ids, fetch);
    ApplyAllWritten(s, o.ops);
    StepsFacts(symbols[..k], ids, fetch, SymbolPrice);
    StepsFacts(symbols[..k], ids, fetch, SymbolDeals);
  }

  /** Without `symbol_ids.json` every symbol has an id, so only `filt` can abort the run. */
  lemma FreshIdsNeverMissing(lines: seq<string>, i: nat)
    requires i < |NonBlank(lines)|
    ensures NonBlank(lines)[i] in EnsureIdsP1(None, NonBlank(lines))
  {
  }

  // ---------------------------------------------------------------------------------------
  // The imperative loop

  /** The body of the loop for symbol `sym`; `aborted` when an exception leaves `main`. */
  method ProcessSymbol(db: Database, sym: string, ids: Mapping, fetch: string -> SymbolFetch)
    returns (aborted: bool)
    requires db.Valid()
    modifies db
    ensures db.Valid()
    ensures aborted <==> StepOf(sym, ids, fetch) == Abort
    ensures db.log == old(db.log) + StepOps(StepOf(sym, ids, fetch))
  {
    if sym !in ids {
      assert db.log + [] == db.log;
      return true;
    }
    var sid := ids[sym];
    var f := fetch(sym);
    if !f.prices.Ok? || !f.deals.Ok? {
      assert db.log + [] == db.log;
      return false;
    }
    var p := Filt(f.prices.records);
    if p.None? {
      assert db.log + [] == db.log;
      return true;
    }
    var d := Filt(f.deals.records);
    if d.None? {
      assert db.log + [] == db.log;
      return true;
    }
    assert StepOf(sym, ids, fetch) == Write(sid, p.value, d.value);
    WriteStep(db, sid, p.value, d.value);
    return false;
  }

  /** The writes of a symbol that got through: `executemany` for the prices when there are
      any, then for the deals when there are any, then `conn.commit()`. */
  method WriteStep(db: Database, sid: JsonValue, p: seq<Record>, d: seq<Record>)
    requires db.Valid()
    modifies db
    ensures db.Valid()
    ensures db.log == old(db.log) + StepOps(Write(sid, p, d))
  {
    ghost var start := db.log;
    ghost var a: seq<Statement> := [];
    AppendEmpty(start);
    if p != [] {
      a := [ExecMany(SymbolPrice, BuildPrices(sid, p))];
      db.ExecuteMany(SymbolPrice, BuildPrices(sid, p));
    }
    ghost var b: seq<Statement> := [];
    AppendEmpty(start + a);
    if d != [] {
      b := [ExecMany(SymbolDeals, BuildDeals(sid, d))];
      db.ExecuteMany(SymbolDeals, BuildDeals(sid, d));
    }
    db.Commit();
    ConcatAssoc(start, a + b, [Commit]);
    ConcatAssoc(start, a, b);
  }

  /** One turn of the loop of `main`: the run over `done` extended by `sym`. */
  method ProcessNext(db: Database, ghost start: seq<Statement>, ghost done: seq<string>, sym: string,
                     ids: Mapping, fetch: string -> SymbolFetch)
    returns (aborted: bool)
    requires db.Valid() && !RunOutcome(done, ids, fetch).aborted
    requires db.log == start + RunOutcome(done, ids, fetch).ops
    modifies db
    ensures db.Valid()
    ensures aborted == RunOutcome(done + [sym], ids, fetch).aborted
    ensures db.log == start + RunOutcome(done + [sym], ids, fetch).ops
  {
    ghost var prev := RunOutcome(done, ids, fetch);
    RunOutcomeSnoc(done, sym, ids, fetch);
    aborted := ProcessSymbol(db, sym, ids, fetch);
    ConcatAssoc(start, prev.ops, StepOps(StepOf(sym, ids, fetch)));
  }

  /** The loop of `main` over `symbols`. */
  method ProcessAll(db: Database, symbols: seq<string>, ids: Mapping, fetch: string -> SymbolFetch)
    returns (aborted: bool)
    requires db.Valid()
    modifies db
    ensures db.Valid()
    ensures aborted == RunOutcome(symbols, ids, fetch).aborted
    ensures db.log == old(db.log) + RunOutcome(symbols, ids, fetch).ops
  {
    ghost var start := db.log;
    var i := 0;
    while i < |symbols|
      invariant 0 <= i <= |symbols|
      invariant db.Valid()
      invariant !RunOutcome(symbols[..i], ids, fetch).aborted
      invariant db.log == start + RunOutcome(symbols[..i], ids, fetch).ops
    {
      var stop := ProcessNext(db, start, symbols[..i], symbols[i], ids, fetch);
      TakeSnoc(symbols, i);
      if stop {
        AbortedPrefix(symbols, i + 1, ids, fetch);
        return true;
      }
      i := i + 1;
    }
    assert symbols[..i] == symbols;
    return false;
  }

  /** `main()`: the symbols file's lines, `symbol_ids.json` when it exists and the API are
      the inputs; `aborted` when an exception ends the run. */
  method Run(db: Database, lines: seq<string>, storedIds: Option<Mapping>, fetch: string -> SymbolFetch)
    returns (aborted: bool)
    requires db.Valid()
    modifies db
    ensures db.Valid()
    ensures aborted == MainOutcome(lines, storedIds, fetch).aborted
    ensures db.log == old(db.log) + MainOutcome(lines, storedIds, fetch).ops
  {
    var symbols := NonBlank(lines);
    var ids := EnsureIdsP1(storedIds, symbols);
    aborted := ProcessAll(db, symbols, ids, fetch);
  }
}
