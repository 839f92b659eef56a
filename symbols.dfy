/** Where the scripts get their symbol list and the symbol-id mapping from. */
module Symbols {
  import opened Wrappers
  import opened Json
  import opened Text
  import opened Sequences

  /** Environment variables, by name; a variable that is unset is absent. */
  type Env = map<string, string>

  /** The symbol-to-id mapping as loaded from `symbol_ids.json` or created afresh. */
  type Mapping = map<string, JsonValue>

  predicate NonEmpty(s: string) {
    s != []
  }

  /** A usable symbol: not blank and without surrounding whitespace. */
  predicate Clean(s: string) {
    s != [] && !IsSpace(s[0]) && !IsSpace(s[|s| - 1])
  }

  /** Each entry stripped of surrounding whitespace. */
  function StripAll(items: seq<string>): (out: seq<string>)
    ensures |out| == |items|
    ensures forall i :: 0 <= i < |items| ==> out[i] == Strip(items[i])
  {
    seq(|items|, i requires 0 <= i < |items| => Strip(items[i]))
  }

  /** `[s.strip() for s in items if s.strip()]`: the stripped entries that are not blank, in
      their original order, each as often as it occurs. */
  function NonBlank(items: seq<string>): (r: seq<string>)
    ensures forall i :: 0 <= i < |r| ==> Clean(r[i])
    ensures IsSubseq(r, StripAll(items))
    ensures forall x :: x in r <==> x in StripAll(items) && x != []
    ensures forall x {:trigger multiset(r)[x]} :: multiset(r)[x] == if x != [] then multiset(StripAll(items))[x] else 0
  {
    var stripped := StripAll(items);
    var r := Select(stripped, NonEmpty);
    forall i | 0 <= i < |r|
      ensures Clean(r[i])
    {
      StrippedClean(items, r[i]);
    }
    r
  }

  /** A stripped entry that is not blank is clean. */
  lemma StrippedClean(items: seq<string>, x: string)
    requires x in StripAll(items) && x != []
    ensures Clean(x)
  {
    var stripped := StripAll(items);
    var j :| 0 <= j < |stripped| && stripped[j] == x;
    StripFacts(items[j]);
  }

  /** A symbol list that is already clean comes back unchanged. */
  lemma NonBlankClean(items: seq<string>)
    requires forall i :: 0 <= i < |items| ==> Clean(items[i])
    ensures NonBlank(items) == items
  {
    var stripped := StripAll(items);
    forall i | 0 <= i < |items| ensures stripped[i] == items[i] {
      StripUnchanged(items[i]);
    }
    assert stripped == items;
    SelectAll(stripped, NonEmpty);
  }

  /** The value of `SYMBOLS`, split at commas. */
  function ParseSymbolList(value: string): seq<string> {
    NonBlank(Split(value, ','))
  }

  /** Writing clean symbols as `SYMBOLS=a,b,c` and reading them back gives the same list. */
  lemma ParseSymbolListJoin(symbols: seq<string>)
    requires symbols != []
    requires forall i :: 0 <= i < |symbols| ==> Clean(symbols[i]) && ',' !in symbols[i]
    ensures ParseSymbolList(Join(symbols, ',')) == symbols
  {
    SplitJoin(symbols, ',');
    NonBlankClean(symbols);
  }

  /** `load_symbols()` of etl.py and etl_v2.py: a non-empty `SYMBOLS` variable wins, even if
      it names no symbol; otherwise the lines of the symbols file when it exists; otherwise
      nothing. */
  function LoadSymbols(env: Env, file: Option<seq<string>>): (r: seq<string>)
    ensures forall i :: 0 <= i < |r| ==> Clean(r[i])
    ensures "SYMBOLS" in env && env["SYMBOLS"] != [] ==> r == ParseSymbolList(env["SYMBOLS"])
    ensures ("SYMBOLS" !in env || env["SYMBOLS"] == []) && file.Some? ==> r == NonBlank(file.value)
    ensures ("SYMBOLS" !in env || env["SYMBOLS"] == []) && file.None? ==> r == []
  {
    if "SYMBOLS" in env && env["SYMBOLS"] != [] then ParseSymbolList(env["SYMBOLS"])
    else if file.Some? then NonBlank(file.value)
    else []
  }

  /** `{s: i + 1 for i, s in enumerate(symbols)}`: ids from 1 in list order; a symbol
      listed twice keeps the id of its last occurrence. */
  function FreshIds(symbols: seq<string>): (m: Mapping)
    ensures forall s :: s in m <==> s in symbols
    ensures forall s :: s in m ==> m[s].JInt? && 1 <= m[s].i <= |symbols| && symbols[m[s].i - 1] == s
    ensures forall s :: s in m ==> s !in symbols[m[s].i..]
  {
    if symbols == [] then map[]
    else
      var m0 := FreshIds(symbols[..|symbols| - 1]);
      FreshIdsExtend(symbols, m0);
      m0[symbols[|symbols| - 1] := JInt(|symbols|)]
  }

  /** The ids of `FreshIds` stay good when one more symbol gets the next id. */
  lemma FreshIdsExtend(symbols: seq<string>, m0: Mapping)
    requires symbols != []
    requires var init := symbols[..|symbols| - 1];
      && (forall s :: s in m0 <==> s in init)
      && (forall s :: s in m0 ==> m0[s].JInt? && 1 <= m0[s].i <= |init| && init[m0[s].i - 1] == s)
      && (forall s :: s in m0 ==> s !in init[m0[s].i..])
    ensures var m := m0[symbols[|symbols| - 1] := JInt(|symbols|)];
      && (forall s :: s in m <==> s in symbols)
      && (forall s :: s in m ==> m[s].JInt? && 1 <= m[s].i <= |symbols| && symbols[m[s].i - 1] == s)
      && (forall s :: s in m ==> s !in symbols[m[s].i..])
  {
    var n := |symbols|;
    var init := symbols[..n - 1];
    var last := symbols[n - 1];
    var m := m0[last := JInt(n)];
    LastSplit(symbols);
    forall s | s in m
      ensures m[s].JInt? && 1 <= m[s].i <= n && symbols[m[s].i - 1] == s && s !in symbols[m[s].i..]
    {
      if s != last {
        var id := m0[s].i;
        assert symbols[id - 1] == init[id - 1];
        DropSnoc(init, last, id);
      }
    }
  }

  /** With no repeated symbol, the `i`-th symbol (from 0) gets id `i + 1`. */
  lemma FreshIdsDistinct(symbols: seq<string>, i: nat)
    requires i < |symbols|
    requires forall j, k :: 0 <= j < k < |symbols| ==> symbols[j] != symbols[k]
    ensures symbols[i] in FreshIds(symbols) && FreshIds(symbols)[symbols[i]] == JInt(i + 1)
  {
    var m := FreshIds(symbols);
    var id := m[symbols[i]].i;
    assert symbols[id - 1] == symbols[i];

  }

  /** Every fresh id passes `if not sid`: no listed symbol is skipped for want of an id. */
  lemma FreshIdsTruthy(symbols: seq<string>, s: string)
    requires s in symbols
    ensures s in FreshIds(symbols) && Truthy(FreshIds(symbols)[s])
  {
  }

  /** `ensure_symbol_ids` of etl_v2.py: the stored mapping unless it is missing or empty,
      in which case the fresh one. */
  function EnsureIdsV2(stored: Option<Mapping>, symbols: seq<string>): (m: Mapping)
    ensures m == map[] ==> symbols == []
    ensures stored.Some? && stored.value != map[] ==> m == stored.value
    ensures stored.None? || stored.value == map[] ==> m == FreshIds(symbols)
    ensures stored.None? || stored.value == map[] ==> forall s :: s in symbols ==> s in m && Truthy(m[s])
  {
    if stored.Some? && stored.value != map[] then stored.value
    else
      assert forall s :: s in symbols ==> s in FreshIds(symbols) && Truthy(FreshIds(symbols)[s]) by {
        forall s | s in symbols ensures s in FreshIds(symbols) && Truthy(FreshIds(symbols)[s]) {
          FreshIdsTruthy(symbols, s);
        }
      }
      if symbols != [] then
        assert symbols[0] in FreshIds(symbols);
        FreshIds(symbols)
      else FreshIds(symbols)
  }

  /** `ensure_symbol_ids` of etl_p1.py: the stored mapping whenever the file exists, even
      if it is empty, otherwise the fresh one. */
  function EnsureIdsP1(stored: Option<Mapping>, symbols: seq<string>): (m: Mapping)
    ensures stored.Some? ==> m == stored.value
    ensures stored.None? ==> m == FreshIds(symbols)
    ensures stored.None? ==> forall s :: s in symbols ==> s in m && Truthy(m[s])
  {
    if stored.Some? then stored.value
    else
      assert forall s :: s in symbols ==> s in FreshIds(symbols) && Truthy(FreshIds(symbols)[s]) by {
        forall s | s in symbols ensures s in FreshIds(symbols) && Truthy(FreshIds(symbols)[s]) {
          FreshIdsTruthy(symbols, s);
        }
      }
      FreshIds(symbols)
  }
}
