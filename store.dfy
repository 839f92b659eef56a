/** The two target tables, `REPLACE INTO` as a keyed map update, chunked batch writes and
    the connection the scripts write through. */
module Store {
  import opened Json
  import opened Sequences

  /** One statement parameter as the driver receives it: a Python scalar (`None` is NULL),
      or the result of `num(v, float)`, kept uninterpreted. */
  datatype Param = Value(v: JsonValue) | FloatOf(arg: JsonValue)

  /** One row tuple, in the column order of the `REPLACE INTO` statement. */
  type Row = seq<Param>

  datatype TableName = SymbolPrice | SymbolDeals

  /** Number of columns of the table's `REPLACE INTO` statement. */
  function Width(t: TableName): nat {
    match t
    case SymbolPrice => 16
    case SymbolDeals => 14
  }

  /** Number of leading columns forming the natural key: `(symbol_id, date, time)` for
      prices and `(symbol_id, date)` for deals. */
  function KeyWidth(t: TableName): nat {
    match t
    case SymbolPrice => 3
    case SymbolDeals => 2
  }

  /** A table: for each natural key, the one row stored under it. */
  type Table = map<Row, Row>

  function KeyOf(t: TableName, row: Row): Row {
    if |row| <= KeyWidth(t) then row else row[..KeyWidth(t)]
  }

  /** Every row has the table's width and is stored under its own key. */
  ghost predicate WellKeyed(t: TableName, table: Table) {
    forall k :: k in table ==> |table[k]| == Width(t) && KeyOf(t, table[k]) == k
  }

  /** Rows that match the statement's placeholders. */
  ghost predicate Fits(t: TableName, rows: seq<Row>) {
    forall i :: 0 <= i < |rows| ==> |rows[i]| == Width(t)
  }

  /** `executemany("REPLACE INTO ...", rows)`: each row, in order, deletes the row holding
      its key (if any) and is inserted in its place. */
  function ReplaceAll(t: TableName, table: Table, rows: seq<Row>): Table
    decreases |rows|
  {
    if rows == [] then table
    else ReplaceAll(t, table[KeyOf(t, rows[0]) := rows[0]], rows[1..])
  }

  /** Keys no row writes keep their old contents (present or absent). */
  lemma {:induction false} ReplaceAllUntouched(t: TableName, table: Table, rows: seq<Row>, k: Row)
    requires forall j :: 0 <= j < |rows| ==> KeyOf(t, rows[j]) != k
    ensures k in ReplaceAll(t, table, rows) <==> k in table
    ensures k in table ==> ReplaceAll(t, table, rows)[k] == table[k]
    decreases |rows|
  {
    if rows != [] {
      ReplaceAllUntouched(t, table[KeyOf(t, rows[0]) := rows[0]], rows[1..], k);
    }
  }

  /** The last row written under a key is the one the table holds afterwards. */
  lemma {:induction false} ReplaceAllLastWins(t: TableName, table: Table, rows: seq<Row>, i: nat)
    requires i < |rows|
    requires forall j :: i < j < |rows| ==> KeyOf(t, rows[j]) != KeyOf(t, rows[i])
    ensures KeyOf(t, rows[i]) in ReplaceAll(t, table, rows)
    ensures ReplaceAll(t, table, rows)[KeyOf(t, rows[i])] == rows[i]
    decreases |rows|
  {
    var next := table[KeyOf(t, rows[0]) := rows[0]];
    if i == 0 {
      ReplaceAllUntouched(t, next, rows[1..], KeyOf(t, rows[0]));
    } else {
      ReplaceAllLastWins(t, next, rows[1..], i - 1);
    }
  }

  /** The keys afterwards are the old keys and the keys of the rows written. */
  lemma {:induction false} ReplaceAllKeys(t: TableName, table: Table, rows: seq<Row>)
    ensures ReplaceAll(t, table, rows).Keys == table.Keys + set j | 0 <= j < |rows| :: KeyOf(t, rows[j])
    decreases |rows|
  {
    if rows != [] {
      ReplaceAllKeys(t, table[KeyOf(t, rows[0]) := rows[0]], rows[1..]);
      var s1 := set j | 0 <= j < |rows[1..]| :: KeyOf(t, rows[1..][j]);
      var s := set j | 0 <= j < |rows| :: KeyOf(t, rows[j]);
      assert s == {KeyOf(t, rows[0])} + s1 by {
        forall x | x in s ensures x in {KeyOf(t, rows[0])} + s1 {
          var j :| 0 <= j < |rows| && KeyOf(t, rows[j]) == x;
          if j > 0 { assert rows[1..][j - 1] == rows[j]; }
        }
        forall x | x in s1 ensures x in s {
          var j :| 0 <= j < |rows[1..]| && KeyOf(t, rows[1..][j]) == x;
          assert rows[j + 1] == rows[1..][j];
        }
      }
    }
  }

  /** Writing `a` and then `b` is writing `a + b`: one `executemany` may be cut into
      batches without changing the outcome. */
  lemma {:induction false} ReplaceAllAppend(t: TableName, table: Table, a: seq<Row>, b: seq<Row>)
    ensures ReplaceAll(t, table, a + b) == ReplaceAll(t, ReplaceAll(t, table, a), b)
    decreases |a|
  {
    if a == [] {
      assert a + b == b;
    } else {
      assert (a + b)[0] == a[0] && (a + b)[1..] == a[1..] + b;
      ReplaceAllAppend(t, table[KeyOf(t, a[0]) := a[0]], a[1..], b);
    }
  }

  /** Replaying the same rows a second time changes nothing: the upsert is idempotent. */
  lemma ReplaceAllIdempotent(t: TableName, table: Table, rows: seq<Row>)
    ensures ReplaceAll(t, ReplaceAll(t, table, rows), rows) == ReplaceAll(t, table, rows)
  {
    var once := ReplaceAll(t, table, rows);
    var twice := ReplaceAll(t, once, rows);
    ReplaceAllKeys(t, table, rows);
    ReplaceAllKeys(t, once, rows);
    forall k | k in once
      ensures k in twice && twice[k] == once[k]
    {
      if i :| 0 <= i < |rows| && KeyOf(t, rows[i]) == k {
        var last := LastWith(t, rows, k, i);
        ReplaceAllLastWins(t, table, rows, last);
        ReplaceAllLastWins(t, once, rows, last);
      } else {
        ReplaceAllUntouched(t, once, rows, k);
      }
    }
  }

  /** The index of the last row written under key `k`, given one such row at `i`. */
  lemma {:induction false} LastWith(t: TableName, rows: seq<Row>, k: Row, i: nat) returns (last: nat)
    requires i < |rows| && KeyOf(t, rows[i]) == k
    ensures i <= last < |rows| && KeyOf(t, rows[last]) == k
    ensures forall j :: last < j < |rows| ==> KeyOf(t, rows[j]) != k
    decreases |rows| - i
  {
    if j :| i < j < |rows| && KeyOf(t, rows[j]) == k {
      last := LastWith(t, rows, k, j);
    } else {
      last := i;
    }
  }

  /** Writing rows that fit the table keeps every row stored under its own key. */
  lemma {:induction false} ReplaceAllWellKeyed(t: TableName, table: Table, rows: seq<Row>)
    requires WellKeyed(t, table) && Fits(t, rows)
    ensures WellKeyed(t, ReplaceAll(t, table, rows))
    decreases |rows|
  {
    if rows != [] {
      ReplaceAllWellKeyed(t, table[KeyOf(t, rows[0]) := rows[0]], rows[1..]);
    }
  }

  /** `rows[i:i+size] for i in range(0, len(rows), size)`: non-empty slices of `size` rows,
      the last one possibly shorter. */
  function Chunks(rows: seq<Row>, size: nat): (chunks: seq<seq<Row>>)
    requires size > 0
    ensures forall i :: 0 <= i < |chunks| ==> 0 < |chunks[i]| <= size
    ensures forall i :: 0 <= i < |chunks| - 1 ==> |chunks[i]| == size
    decreases |rows|
  {
    if rows == [] then []
    else if |rows| <= size then [rows]
    else
      var rest := Chunks(rows[size..], size);
      assert ([rows[..size]] + rest)[1..] == rest;
      [rows[..size]] + rest
  }

  /** The chunks, put back together, are the rows: nothing is lost, repeated or reordered. */
  lemma {:induction false} ChunksFlatten(rows: seq<Row>, size: nat)
    requires size > 0
    ensures Flatten(Chunks(rows, size)) == rows
    decreases |rows|
  {
    var c := Chunks(rows, size);
    if |rows| > size {
      ChunksFlatten(rows[size..], size);
      assert c[0] == rows[..size] && c[1..] == Chunks(rows[size..], size);
      assert rows == rows[..size] + rows[size..];
    } else if rows != [] {
      assert c[1..] == [];
    }
  }

  /** The chunks from position `i` on: the slice `rows[i:i+size]`, then the chunks after it. */
  lemma ChunksFrom(rows: seq<Row>, i: nat, size: nat)
    requires size > 0 && i < |rows|
    ensures var end := if i + size < |rows| then i + size else |rows|;
      Chunks(rows[i..], size) == [rows[i..end]] + Chunks(rows[end..], size)
  {
    var end := if i + size < |rows| then i + size else |rows|;
    var rest := rows[i..];
    if |rest| > size {
      assert rest[..size] == rows[i..end];
      assert rest[size..] == rows[end..];
    } else {
      assert rest == rows[i..end];
      assert rows[end..] == [];
    }
  }

  /** A statement sent on the connection. */
  datatype Statement = ExecMany(table: TableName, rows: seq<Row>) | Commit

  /** The contents of both tables. */
  datatype Tables = Tables(prices: Table, deals: Table)

  function Apply(s: Tables, st: Statement): Tables {
    match st
    case Commit => s
    case ExecMany(t, rows) =>
      if t == SymbolPrice then s.(prices := ReplaceAll(t, s.prices, rows))
      else s.(deals := ReplaceAll(t, s.deals, rows))
  }

  /** The tables after running the statements in order. */
  function ApplyAll(s: Tables, sts: seq<Statement>): Tables
    decreases |sts|
  {
    if sts == [] then s else ApplyAll(Apply(s, sts[0]), sts[1..])
  }

  lemma {:induction false} ApplyAllAppend(s: Tables, a: seq<Statement>, b: seq<Statement>)
    ensures ApplyAll(s, a + b) == ApplyAll(ApplyAll(s, a), b)
    decreases |a|
  {
    if a == [] {
      assert a + b == b;
    } else {
      assert (a + b)[0] == a[0] && (a + b)[1..] == a[1..] + b;
      ApplyAllAppend(Apply(s, a[0]), a[1..], b);
    }
  }

  /** Number of commits among the statements. */
  function CountCommits(sts: seq<Statement>): nat {
    if sts == [] then 0 else (if sts[0].Commit? then 1 else 0) + CountCommits(sts[1..])
  }

  lemma {:induction false} CountCommitsAppend(a: seq<Statement>, b: seq<Statement>)
    ensures CountCommits(a + b) == CountCommits(a) + CountCommits(b)
  {
    if a == [] {
      AppendEmpty(b);
    } else {
      ConsAppend(a, b);
      CountCommitsAppend(a[1..], b);
    }
  }

  /** The rows the statements write into table `t`, in the order they are sent. */
  function Written(t: TableName, sts: seq<Statement>): seq<Row> {
    if sts == [] then []
    else (if sts[0].ExecMany? && sts[0].table == t then sts[0].rows else []) + Written(t, sts[1..])
  }

  lemma {:induction false} WrittenAppend(t: TableName, a: seq<Statement>, b: seq<Statement>)
    ensures Written(t, a + b) == Written(t, a) + Written(t, b)
  {
    if a == [] {
      AppendEmpty(b);
    } else {
      ConsAppend(a, b);
      WrittenAppend(t, a[1..], b);
      var x := a[0];
      ConcatAssoc(if x.ExecMany? && x.table == t then x.rows else [], Written(t, a[1..]), Written(t, b));
    }
  }

  /** Whatever the interleaving of statements and commits, each table ends up as if all the
      rows written into it had been sent in one `executemany`, in the order they were sent. */
  lemma {:induction false} ApplyAllWritten(s: Tables, sts: seq<Statement>)
    ensures ApplyAll(s, sts) == Tables(ReplaceAll(SymbolPrice, s.prices, Written(SymbolPrice, sts)),
                                       ReplaceAll(SymbolDeals, s.deals, Written(SymbolDeals, sts)))
    decreases |sts|
  {
    if sts != [] {
      var st := sts[0];
      ApplyAllWritten(Apply(s, st), sts[1..]);
      assert ApplyAll(s, sts) == ApplyAll(Apply(s, st), sts[1..]);
      if st.ExecMany? {
        if st.table == SymbolPrice {
          assert Written(SymbolPrice, sts) == st.rows + Written(SymbolPrice, sts[1..]);
          assert Written(SymbolDeals, sts) == Written(SymbolDeals, sts[1..]);
          ReplaceAllAppend(SymbolPrice, s.prices, st.rows, Written(SymbolPrice, sts[1..]));
        } else {
          assert Written(SymbolDeals, sts) == st.rows + Written(SymbolDeals, sts[1..]);
          assert Written(SymbolPrice, sts) == Written(SymbolPrice, sts[1..]);
          ReplaceAllAppend(SymbolDeals, s.deals, st.rows, Written(SymbolDeals, sts[1..]));
        }
      } else {
        assert Written(SymbolPrice, sts) == Written(SymbolPrice, sts[1..]);
        assert Written(SymbolDeals, sts) == Written(SymbolDeals, sts[1..]);
      }
    }
  }

  /** What one statement writes and commits. */
  lemma SingleFacts(x: Statement, u: TableName)
    ensures Written(u, [x]) == if x.ExecMany? && x.table == u then x.rows else []
    ensures CountCommits([x]) == if x.Commit? then 1 else 0
  {
    assert [x][1..] == [];
    AppendEmpty(if x.ExecMany? && x.table == u then x.rows else []);
  }

  /** Nothing is left uncommitted: the last statement, if any, is a commit. */
  predicate Committed(sts: seq<Statement>) {
    sts == [] || sts[|sts| - 1] == Commit
  }

  lemma CommittedAppend(a: seq<Statement>, b: seq<Statement>)
    requires Committed(a) && Committed(b)
    ensures Committed(a + b)
  {
    if b == [] {
      assert a + b == a;
    }
  }

  /** A write that is skipped when there is nothing to write: no statement for no rows,
      otherwise one `executemany` followed by a commit. */
  function WriteCommit(t: TableName, rows: seq<Row>): seq<Statement> {
    if rows == [] then [] else [ExecMany(t, rows), Commit]
  }

  /** A conditional write writes its rows into its own table only, and commits them. */
  lemma WriteCommitFacts(t: TableName, rows: seq<Row>, u: TableName)
    ensures Written(u, WriteCommit(t, rows)) == if u == t then rows else []
    ensures CountCommits(WriteCommit(t, rows)) == if rows == [] then 0 else 1
    ensures Committed(WriteCommit(t, rows))
  {
    if rows != [] {
      var ops := WriteCommit(t, rows);
      assert ops[1..] == [Commit] && ops[1..][1..] == [];
      assert Written(u, ops[1..]) == [];
      assert CountCommits(ops[1..]) == 1;
    }
  }

  /** Every statement writes rows that fit its table. */
  ghost predicate WellFormed(sts: seq<Statement>) {
    forall i :: 0 <= i < |sts| && sts[i].ExecMany? ==> Fits(sts[i].table, sts[i].rows)
  }

  /** The connection: both tables and the statements sent so far. */
  class Database {
    var prices: Table
    var deals: Table
    var log: seq<Statement>
    ghost const initial: Tables

    function State(): Tables
      reads this
    {
      Tables(prices, deals)
    }

    /** The tables are the initial tables with the log replayed, and every stored row sits
        under its own key. */
    ghost predicate Valid()
      reads this
    {
      && State() == ApplyAll(initial, log)
      && WellKeyed(SymbolPrice, prices)
      && WellKeyed(SymbolDeals, deals)
    }

    constructor (s: Tables)
      requires WellKeyed(SymbolPrice, s.prices) && WellKeyed(SymbolDeals, s.deals)
      ensures Valid() && State() == s && log == []
    {
      prices, deals, log := s.prices, s.deals, [];
      initial := s;
    }

    /** `cursor.executemany(REPLACE INTO t ..., rows)`. */
    method ExecuteMany(t: TableName, rows: seq<Row>)
      requires Valid() && Fits(t, rows)
      modifies this
      ensures Valid()
      ensures State() == Apply(old(State()), ExecMany(t, rows))
      ensures log == old(log) + [ExecMany(t, rows)]
    {
      ApplyAllAppend(initial, log, [ExecMany(t, rows)]);
      if t == SymbolPrice {
        ReplaceAllWellKeyed(t, prices, rows);
        prices := ReplaceAll(t, prices, rows);
      } else {
        ReplaceAllWellKeyed(t, deals, rows);
        deals := ReplaceAll(t, deals, rows);
      }
      log := log + [ExecMany(t, rows)];
    }

    /** `conn.commit()`. */
    method Commit()
      requires Valid()
      modifies this
      ensures Valid()
      ensures State() == old(State())
      ensures log == old(log) + [Statement.Commit]
    {
      ApplyAllAppend(initial, log, [Statement.Commit]);
      log := log + [Statement.Commit];
    }
  }
}
