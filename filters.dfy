/** The date filters the scripts apply to fetched records before building rows. */
module Filters {
  import opened Wrappers
  import opened Json
  import opened Text
  import opened Sequences

  /** `YEAR_FILTER = os.getenv("YEAR_FILTER", "1404")` of etl.py and etl_v2.py. */
  function YearFilter(env: map<string, string>): string {
    if "YEAR_FILTER" in env then env["YEAR_FILTER"] else "1404"
  }

  // ---------------------------------------------------------------------------------------
  // etl.py: filter_by_year

  /** The record's `date` is a string beginning with `year`. */
  predicate DatedIn(r: Record, year: string) {
    Get(r, "date").JStr? && StartsWith(Get(r, "date").s, year)
  }

  /** `[r for r in rows if isinstance(r.get("date"), str) and r["date"].startswith(year)]`:
      the records dated in `year`, in their original order, each as often as it occurs;
      never raises. */
  function FilterByYear(rows: seq<Record>, year: string): (out: seq<Record>)
    ensures IsSubseq(out, rows)
    ensures forall r :: r in out <==> r in rows && DatedIn(r, year)
    ensures forall r {:trigger multiset(out)[r]} :: multiset(out)[r] == if DatedIn(r, year) then multiset(rows)[r] else 0
  {
    Select(rows, r => DatedIn(r, year))
  }

  /** Filtering twice is filtering once. */
  lemma FilterByYearIdempotent(rows: seq<Record>, year: string)
    ensures FilterByYear(FilterByYear(rows, year), year) == FilterByYear(rows, year)
  {
    var once := FilterByYear(rows, year);
    assert forall i :: 0 <= i < |once| ==> once[i] in once;
    SelectAll(once, r => DatedIn(r, year));
  }

  // ---------------------------------------------------------------------------------------
  // etl_v2.py: filter_by_recent_months

  /** `any(((cm - m) % 12) == ((month - 1) % 12) for m in range(k))`. */
  function AnyMonth(cm: int, month: int, k: int): bool
    decreases k
  {
    if k <= 0 then false
    else AnyMonth(cm, month, k - 1) || (cm - (k - 1)) % 12 == (month - 1) % 12
  }

  lemma ModEq(a: int, b: int)
    ensures a % 12 == b % 12 <==> (a - b) % 12 == 0
  {
  }

  lemma ModShift(cm: int, month: int, j: int)
    ensures (cm - j) % 12 == (month - 1) % 12 <==> j % 12 == (cm - month + 1) % 12
  {
    ModEq(cm - j, month - 1);
    ModEq(cm - month + 1, j);
    ModEq(cm - month + 1 - j, 0);
    ModEq(0, cm - month + 1 - j);
  }

  /** The window test in closed form: a month is kept exactly when it lies fewer than `k`
      months before the month that follows `cm`, counting cyclically. */
  lemma {:induction false} AnyMonthClosedForm(cm: int, month: int, k: int)
    ensures AnyMonth(cm, month, k) <==> (cm - month + 1) % 12 < k
    decreases k
  {
    if k > 0 {
      AnyMonthClosedForm(cm, month, k - 1);
      ModShift(cm, month, k - 1);
    }
  }

  /** With the four-month window of `main`, the months kept are the month after `cm`, `cm`
      itself and the two months before it: the window reaches one month ahead and only two
      months back. */
  lemma FourMonthWindow(cm: int, month: int)
    ensures AnyMonth(cm, month, 4) <==>
      || (cm + 1 - month) % 12 == 0
      || (cm - month) % 12 == 0
      || (cm - 1 - month) % 12 == 0
      || (cm - 2 - month) % 12 == 0
  {
    AnyMonthClosedForm(cm, month, 4);
    ModEq(cm - month + 1, 0);
    ModEq(cm - month + 1, 1);
    ModEq(cm - month + 1, 2);
    ModEq(cm - month + 1, 3);
  }

  /** What the loop of `filter_by_recent_months` does with one record: a missing or falsy
      date is skipped; a truthy date that is not a string raises (it has no `startswith`);
      a date of another year is skipped; a date with no `-` raises IndexError, a second
      piece that is not an integer raises ValueError; otherwise the window decides. */
  function RecentVerdict(r: Record, year: string, cm: int, n: int): Verdict {
    var d := Get(r, "date");
    if !Truthy(d) then Drop
    else if !d.JStr? then Raise
    else if !StartsWith(d.s, year) then Drop
    else
      var parts := Split(d.s, '-');
      if |parts| < 2 then Raise
      else
        match ParseInt(parts[1])
        case None => Raise
        case Some(month) => if AnyMonth(cm, month, n) then Keep else Drop
  }

  /** The result of `filter_by_recent_months(rows, year, n)` run in calendar month `cm`:
      the kept records in order, or `None` when the call raises. */
  function RecentMonthsFilter(rows: seq<Record>, year: string, cm: int, n: int): (out: Option<seq<Record>>)
    ensures out.Some? <==> forall i :: 0 <= i < |rows| ==> RecentVerdict(rows[i], year, cm, n) != Raise
    ensures out.Some? ==> IsSubseq(out.value, rows)
    ensures out.Some? ==> forall r :: r in out.value <==> r in rows && RecentVerdict(r, year, cm, n) == Keep
    ensures out.Some? ==> forall r {:trigger multiset(out.value)[r]} :: multiset(out.value)[r] == if RecentVerdict(r, year, cm, n) == Keep then multiset(rows)[r] else 0
  {
    SelectOrRaise(rows, RecentVerdictOf(year, cm, n))
  }

  function RecentVerdictOf(year: string, cm: int, n: int): Record -> Verdict {
    r => RecentVerdict(r, year, cm, n)
  }

  /** A record is kept exactly when its date is a `year-month-...` string whose month falls
      in the window. */
  lemma RecentKeeps(r: Record, year: string, cm: int, n: int)
    ensures RecentVerdict(r, year, cm, n) == Keep <==>
      && Get(r, "date").JStr?
      && StartsWith(Get(r, "date").s, year)
      && |Split(Get(r, "date").s, '-')| >= 2
      && ParseInt(Split(Get(r, "date").s, '-')[1]).Some?
      && (cm - ParseInt(Split(Get(r, "date").s, '-')[1]).value + 1) % 12 < n
  {
    var d := Get(r, "date");
    if d.JStr? && StartsWith(d.s, year) {
      var parts := Split(d.s, '-');
      if |parts| >= 2 {
        assert Truthy(d);
        var parsed := ParseInt(parts[1]);
        if parsed.Some? {
          AnyMonthClosedForm(cm, parsed.value, n);
          assert RecentVerdict(r, year, cm, n) == if AnyMonth(cm, parsed.value, n) then Keep else Drop;
        } else {
          assert RecentVerdict(r, year, cm, n) == Raise;
        }
      } else {
        assert RecentVerdict(r, year, cm, n) != Keep;
      }
    } else {
      assert RecentVerdict(r, year, cm, n) != Keep;
    }
  }

  /** Every record the recent-months filter keeps, the plain year filter keeps too. */
  lemma RecentWithinYear(rows: seq<Record>, year: string, cm: int, n: int)
    requires RecentMonthsFilter(rows, year, cm, n).Some?
    ensures forall r :: r in RecentMonthsFilter(rows, year, cm, n).value ==> r in FilterByYear(rows, year)
  {
  }

  /** The inner `any(...)` of the loop, evaluated term by term. */
  method InWindow(currentMonth: int, month: int, lastMonths: int) returns (found: bool)
    ensures found == AnyMonth(currentMonth, month, lastMonths)
  {
    found := false;
    var m := 0;
    while m < lastMonths
      invariant m <= lastMonths || m == 0
      invariant found == AnyMonth(currentMonth, month, m)
    {
      found := found || (currentMonth - m) % 12 == (month - 1) % 12;
      m := m + 1;
    }
  }

  /** One pass of the loop body of `filter_by_recent_months` on record `r`. */
  method RecentStep(r: Record, year: string, currentMonth: int, lastMonths: int) returns (v: Verdict)
    ensures v == RecentVerdict(r, year, currentMonth, lastMonths)
  {
    var dateStr := Get(r, "date");
    if !Truthy(dateStr) {
      return Drop;
    }
    if !dateStr.JStr? {
      return Raise;
    }
    if !StartsWith(dateStr.s, year) {
      return Drop;
    }
    var parts := Split(dateStr.s, '-');
    if |parts| < 2 {
      return Raise;
    }
    var parsed := ParseInt(parts[1]);
    if parsed.None? {
      return Raise;
    }
    var found := InWindow(currentMonth, parsed.value, lastMonths);
    v := if found then Keep else Drop;
  }

  /** `filter_by_recent_months(rows, year, last_months)` with `datetime.now().month` passed
      in as `currentMonth`: `None` when the loop raises. */
  method FilterByRecentMonths(rows: seq<Record>, year: string, currentMonth: int, lastMonths: int)
    returns (out: Option<seq<Record>>)
    ensures out == RecentMonthsFilter(rows, year, currentMonth, lastMonths)
  {
    var filtered: seq<Record> := [];
    var i := 0;
    while i < |rows|
      invariant 0 <= i <= |rows|
      invariant RecentMonthsFilter(rows[..i], year, currentMonth, lastMonths) == Some(filtered)
    {
      var v := RecentStep(rows[i], year, currentMonth, lastMonths);
      if v == Raise {
        return None;
      }
      TakeSnoc(rows, i);
      SelectOrRaiseSnoc(rows[..i], rows[i], RecentVerdictOf(year, currentMonth, lastMonths));
      if v == Keep {
        filtered := filtered + [rows[i]];
      }
      i := i + 1;
    }
    assert rows[..i] == rows;
    return Some(filtered);
  }

  // ---------------------------------------------------------------------------------------
  // etl_p1.py: filt

  /** The year `filt` keeps. */
  const Year: string := "1404"

  /** The months `filt` keeps, as the two characters after `YYYY-`. */
  const Months: set<string> := {"06", "07", "08", "09", "10", "11", "12"}

  /** What the loop of `filt` does with one record, `d = r.get("date", "")`: a missing date
      is the empty string and is skipped; a string is kept when it is at least seven
      characters long, begins with the year and has a listed month at positions 5-6; a list
      never equals the year string and is skipped; a dict of seven or more entries raises
      at the slice (TypeError; KeyError on Python 3.12 and later), a smaller one is skipped; `None`, a bool or a number raises
      TypeError at `len`. */
  function FiltVerdict(r: Record): Verdict {
    if "date" !in r then Drop
    else
      match r["date"]
      case JStr(d) => if |d| >= 7 && d[..4] == Year && d[5..7] in Months then Keep else Drop
      case JArray(_) => Drop
      case JObject(m) => if |m| >= 7 then Raise else Drop
      case JNull => Raise
      case JBool(_) => Raise
      case JInt(_) => Raise
      case JReal(_) => Raise
  }

  /** The records `filt` keeps are exactly those dated in the months of the year. */
  lemma FiltKeeps(r: Record)
    ensures FiltVerdict(r) == Keep <==>
      "date" in r && r["date"].JStr? && |r["date"].s| >= 7 && StartsWith(r["date"].s, Year)
      && r["date"].s[5..7] in Months
  {
  }

  /** `filt(rows)`: the kept records in order, or `None` when the loop raises. Every record
      kept by `filt` is also kept by the plain year filter. */
  method Filt(rows: seq<Record>) returns (out: Option<seq<Record>>)
    ensures out == SelectOrRaise(rows, FiltVerdict)
    ensures out.Some? ==> forall r :: r in out.value ==> r in FilterByYear(rows, Year)
  {
    var kept: seq<Record> := [];
    var i := 0;
    while i < |rows|
      invariant 0 <= i <= |rows|
      invariant SelectOrRaise(rows[..i], FiltVerdict) == Some(kept)
    {
      var r := rows[i];
      assert rows[..i + 1][..i] == rows[..i];
      var d := if "date" in r then r["date"] else JStr("");
      match d {
        case JStr(s) =>
          if |s| >= 7 && s[..4] == Year && s[5..7] in Months {
            kept := kept + [r];
          }
        case JArray(_) =>
        case JObject(m) =>
          if |m| >= 7 {
            return None;
          }
        case _ =>
          return None;
      }
      i := i + 1;
    }
    assert rows[..i] == rows;
    out := Some(kept);
    forall x | x in kept ensures x in FilterByYear(rows, Year) {
      FiltKeeps(x);
    }
  }
}
