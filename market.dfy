/** The market data store (TradeReplay/data_loader.py): the cleaned table of rows, sorted
    by date, and the sorted index of distinct trading dates with its navigation queries. */
module MarketData {
  import opened Wrappers

  /** One row of the input table: a symbol's bar for one date. `extra` holds the remaining
      numeric columns by name (for instance precomputed indicator columns). */
  datatype Row = Row(
    date: int,
    instrument: string,
    open: real,
    high: real,
    low: real,
    close: real,
    volume: real,
    extra: map<string, real>)

  /** The numeric columns every row has, stored as typed fields rather than in `extra`. */
  const PriceColumns: set<string> := {"open", "high", "low", "close", "volume"}

  /** `row.get(name)`: the value of a price column or of an extra column, None when the row has
      no such column (or when the column name itself is None). */
  function Column(row: Row, name: Option<string>): (r: Option<real>)
    ensures r.Some? <==> name.Some? && (name.value in PriceColumns || name.value in row.extra)
    ensures name == Some("open") ==> r == Some(row.open)
    ensures name == Some("high") ==> r == Some(row.high)
    ensures name == Some("low") ==> r == Some(row.low)
    ensures name == Some("close") ==> r == Some(row.close)
    ensures name == Some("volume") ==> r == Some(row.volume)
    ensures name.Some? && name.value !in PriceColumns && name.value in row.extra ==> r == Some(row.extra[name.value])
  {
    match name
    case None => None
    case Some(n) =>
      if n == "open" then Some(row.open)
      else if n == "high" then Some(row.high)
      else if n == "low" then Some(row.low)
      else if n == "close" then Some(row.close)
      else if n == "volume" then Some(row.volume)
      else if n in row.extra then Some(row.extra[n])
      else None
  }

  // ---------------------------------------------------------------------------
  // Column-name cleanup
  // ---------------------------------------------------------------------------

  /** Python's `sub in s` on strings: `sub` occurs in `s` at some position. */
  predicate Contains(s: string, sub: string)
    decreases |s|
  {
    |sub| <= |s| && (s[..|sub|] == sub || Contains(s[1..], sub))
  }

  /** A string without the first character of `sub` does not contain `sub`. */
  lemma {:induction false} NotContains(s: string, sub: string)
    requires sub != [] && sub[0] !in s
    ensures !Contains(s, sub)
    decreases |s|
  {
    if |sub| <= |s| {
      assert s[..|sub|][0] == s[0];
      NotContains(s[1..], sub);
    }
  }

  /** Drops every column whose name contains "Unnamed", keeping the order of the rest. */
  function DropUnnamed(cols: seq<string>): (r: seq<string>)
    ensures forall c :: c in r <==> c in cols && !Contains(c, "Unnamed")
    ensures |r| <= |cols|
  {
    if cols == [] then []
    else (if Contains(cols[0], "Unnamed") then [] else [cols[0]]) + DropUnnamed(cols[1..])
  }

  /** Renames the misspelt column "instrumnet" to "instrument". */
  function RenameInstrument(cols: seq<string>): (r: seq<string>)
    ensures |r| == |cols|
    ensures forall i :: 0 <= i < |cols| ==> r[i] == (if cols[i] == "instrumnet" then "instrument" else cols[i])
  {
    if cols == [] then []
    else [if cols[0] == "instrumnet" then "instrument" else cols[0]] + RenameInstrument(cols[1..])
  }

  function CleanColumns(cols: seq<string>): seq<string> {
    RenameInstrument(DropUnnamed(cols))
  }

  /** After cleanup no column name contains "Unnamed", the misspelt "instrumnet" is gone and
      has become "instrument", and every other column survives under its own name. */
  lemma CleanColumnsSpec(cols: seq<string>)
    ensures forall c :: c in CleanColumns(cols) ==> !Contains(c, "Unnamed")
    ensures "instrumnet" !in CleanColumns(cols)
    ensures "instrumnet" in cols ==> "instrument" in CleanColumns(cols)
    ensures forall c :: c in cols && !Contains(c, "Unnamed") && c != "instrumnet" ==> c in CleanColumns(cols)
  {
    CleanColumnsDrop(cols);
    CleanColumnsKeep(cols);
    NotContains("instrumnet", "Unnamed");
  }

  /** No cleaned column is unnamed or misspelt. */
  lemma CleanColumnsDrop(cols: seq<string>)
    ensures forall c :: c in CleanColumns(cols) ==> !Contains(c, "Unnamed") && c != "instrumnet"
  {
    var kept := DropUnnamed(cols);
    var r := CleanColumns(cols);
    NotContains("instrument", "Unnamed");
    forall c | c in r
      ensures !Contains(c, "Unnamed") && c != "instrumnet"
    {
      var i :| 0 <= i < |r| && r[i] == c;
      assert kept[i] in kept;
    }
  }

  /** Every named column survives cleanup, the misspelt one under its corrected name. */
  lemma CleanColumnsKeep(cols: seq<string>)
    ensures forall c :: c in cols && !Contains(c, "Unnamed") ==> (if c == "instrumnet" then "instrument" else c) in CleanColumns(cols)
  {
    var kept := DropUnnamed(cols);
    var r := CleanColumns(cols);
    forall c | c in cols && !Contains(c, "Unnamed")
      ensures (if c == "instrumnet" then "instrument" else c) in r
    {
      var i :| 0 <= i < |kept| && kept[i] == c;
      assert r[i] == (if c == "instrumnet" then "instrument" else c);
    }
  }

  /** The extra columns of one row once the "Unnamed" columns are dropped. */
  function DropUnnamedExtra(extra: map<string, real>): (r: map<string, real>)
    ensures forall k :: k in r <==> k in extra && !Contains(k, "Unnamed")
    ensures forall k :: k in r ==> r[k] == extra[k]
  {
    map k | k in extra && !Contains(k, "Unnamed") :: extra[k]
  }

  /** Dropping the "Unnamed" columns from the table, row by row: every row keeps its date,
      symbol and prices, and loses exactly its "Unnamed" extra columns. */
  function CleanRows(rows: seq<Row>): (r: seq<Row>)
    ensures |r| == |rows|
    ensures forall i :: 0 <= i < |rows| ==> r[i] == rows[i].(extra := DropUnnamedExtra(rows[i].extra))
  {
    seq(|rows|, i requires 0 <= i < |rows| => rows[i].(extra := DropUnnamedExtra(rows[i].extra)))
  }

  /** After cleanup no row has a column whose name contains "Unnamed", while every other column
      of every row keeps its value. */
  lemma CleanRowsColumns(rows: seq<Row>, i: int, name: string)
    requires 0 <= i < |rows|
    ensures Contains(name, "Unnamed") ==> Column(CleanRows(rows)[i], Some(name)) == None
    ensures !Contains(name, "Unnamed") ==> Column(CleanRows(rows)[i], Some(name)) == Column(rows[i], Some(name))
  {
    NotContains("open", "Unnamed");
    NotContains("high", "Unnamed");
    NotContains("low", "Unnamed");
    NotContains("close", "Unnamed");
    NotContains("volume", "Unnamed");
  }

  // ---------------------------------------------------------------------------
  // Sorting rows by date
  // ---------------------------------------------------------------------------

  predicate SortedByDate(rows: seq<Row>) {
    forall i, j :: 0 <= i < j < |rows| ==> rows[i].date <= rows[j].date
  }

  /** A row no later than the head of a sorted sequence can go in front of it. */
  lemma SortedCons(a: Row, rows: seq<Row>)
    requires SortedByDate(rows) && (rows != [] ==> a.date <= rows[0].date)
    ensures SortedByDate([a] + rows)
  {
    var r := [a] + rows;
    forall i, j | 0 <= i < j < |r| ensures r[i].date <= r[j].date {
      if i == 0 {
        assert r[j] == rows[j - 1];
      } else {
        assert r[i] == rows[i - 1] && r[j] == rows[j - 1];
      }
    }
  }

  /** Inserts `x` before the first row dated no earlier than it. */
  function InsertByDate(x: Row, rows: seq<Row>): (r: seq<Row>)
    requires SortedByDate(rows)
    ensures SortedByDate(r)
    ensures multiset(r) == multiset(rows) + multiset{x}
    ensures |r| == |rows| + 1
    ensures r[0] == x || (rows != [] && r[0] == rows[0])
  {
    if rows == [] || x.date <= rows[0].date then
      SortedCons(x, rows);
      [x] + rows
    else
      var rest := InsertByDate(x, rows[1..]);
      assert rows == [rows[0]] + rows[1..];
      SortedCons(rows[0], rest);
      [rows[0]] + rest
  }

  /** A stable sort of the rows by date. */
  function SortByDate(rows: seq<Row>): (r: seq<Row>)
    ensures SortedByDate(r)
    ensures multiset(r) == multiset(rows)
    ensures |r| == |rows|
  {
    if rows == [] then []
    else
      assert rows == [rows[0]] + rows[1..];
      InsertByDate(rows[0], SortByDate(rows[1..]))
  }

  /** Sorting rows that are already in date order leaves them as they are. */
  lemma {:induction false} SortSorted(rows: seq<Row>)
    requires SortedByDate(rows)
    ensures SortByDate(rows) == rows
  {
    if rows != [] {
      SortSorted(rows[1..]);
    }
  }

  /** The date column. */
  function DatesOf(rows: seq<Row>): (r: seq<int>)
    ensures |r| == |rows|
    ensures forall i :: 0 <= i < |rows| ==> r[i] == rows[i].date
  {
    seq(|rows|, i requires 0 <= i < |rows| => rows[i].date)
  }

  // ---------------------------------------------------------------------------
  // The date index
  // ---------------------------------------------------------------------------

  predicate Sorted(s: seq<int>) {
    forall i, j :: 0 <= i < j < |s| ==> s[i] <= s[j]
  }

  predicate StrictlyIncreasing(s: seq<int>) {
    forall i, j :: 0 <= i < j < |s| ==> s[i] < s[j]
  }

  /** `unique()`: the distinct values in order of first appearance. */
  function Unique(ds: seq<int>): (r: seq<int>)
    ensures forall x :: x in r <==> x in ds
    ensures forall i, j :: 0 <= i < j < |r| ==> r[i] != r[j]
    decreases |ds|
  {
    if ds == [] then []
    else
      var u := Unique(ds[..|ds| - 1]);
      assert forall x :: x in ds <==> x in ds[..|ds| - 1] || x == ds[|ds| - 1];
      if ds[|ds| - 1] in u then u else u + [ds[|ds| - 1]]
  }

  /** The distinct values of a sorted sequence come out strictly increasing. */
  lemma {:induction false} UniqueOfSorted(ds: seq<int>)
    requires Sorted(ds)
    ensures StrictlyIncreasing(Unique(ds))
    decreases |ds|
  {
    if ds != [] {
      var init := ds[..|ds| - 1];
      var last := ds[|ds| - 1];
      UniqueOfSorted(init);
      var u := Unique(init);
      if last !in u {
        forall i | 0 <= i < |u|
          ensures u[i] < last
        {
          assert u[i] in init;
        }
      }
    }
  }

  /** `list.index`: the first position of `x` in `s`, None where Python raises ValueError. */
  function IndexOf(s: seq<int>, x: int): (r: Option<nat>)
    ensures r.None? <==> x !in s
    ensures r.Some? ==> r.value < |s| && s[r.value] == x && x !in s[..r.value]
  {
    if s == [] then None
    else if s[0] == x then Some(0)
    else
      match IndexOf(s[1..], x)
      case None => None
      case Some(i) =>
        assert s[1..][..i] == s[1..i + 1];
        Some(i + 1)
  }

  lemma IndexOfStrict(s: seq<int>, i: int)
    requires StrictlyIncreasing(s) && 0 <= i < |s|
    ensures IndexOf(s, s[i]) == Some(i)
  {
  }

  /** The rows dated `d`, in stored order. */
  function RowsOn(rows: seq<Row>, d: int): (r: seq<Row>)
    ensures forall x :: x in r <==> x in rows && x.date == d
    ensures |r| <= |rows|
  {
    if rows == [] then []
    else (if rows[0].date == d then [rows[0]] else []) + RowsOn(rows[1..], d)
  }

  /** A single row is kept exactly when it has the date. */
  lemma RowsOnSingle(x: Row, d: int)
    ensures RowsOn([x], d) == if x.date == d then [x] else []
  {
    assert [x][1..] == [];
  }

  /** The date filter keeps the stored order, duplicates included: it distributes over concatenation. */
  lemma {:induction false} RowsOnAppend(a: seq<Row>, b: seq<Row>, d: int)
    ensures RowsOn(a + b, d) == RowsOn(a, d) + RowsOn(b, d)
  {
    if a == [] {
      assert a + b == b;
    } else {
      assert (a + b)[0] == a[0];
      assert (a + b)[1..] == a[1..] + b;
      RowsOnAppend(a[1..], b, d);
    }
  }

  class DataLoader {
    const columns: seq<string>
    const df: seq<Row>
    const dates: seq<int>

    /** The rows are in date order; the index is strictly increasing and holds exactly the row dates. */
    ghost predicate Valid() {
      && SortedByDate(df)
      && StrictlyIncreasing(dates)
      && (forall d :: d in dates <==> d in DatesOf(df))
    }

    /** Cleans the column names, drops the "Unnamed" columns from every row, sorts the rows by
        date and builds the date index.
        (Reading the file is left to the caller, who passes its header and rows.) */
    constructor (rawColumns: seq<string>, rawRows: seq<Row>)
      ensures Valid()
      ensures columns == CleanColumns(rawColumns)
      ensures df == SortByDate(CleanRows(rawRows)) && multiset(df) == multiset(CleanRows(rawRows))
      ensures dates == Unique(DatesOf(df))
    {
      columns := CleanColumns(rawColumns);
      var sorted := SortByDate(CleanRows(rawRows));
      df := sorted;
      dates := Unique(DatesOf(sorted));
      UniqueOfSorted(DatesOf(sorted));
    }

    /** All rows for date `d` (none when `d` is not a trading date). */
    function GetDataForDate(d: int): (r: seq<Row>)
      ensures forall x :: x in r <==> x in df && x.date == d
      ensures r == RowsOn(df, d)
    {
      RowsOn(df, d)
    }

    /** The next trading date, None after the last one; ValueError for a date not in the index. */
    function GetNextDate(d: int): (r: Result<Option<int>>)
      requires Valid()
      ensures r.Err? <==> d !in dates
      ensures r.Err? ==> r.error == ValueError
      ensures r.Ok? && r.value.Some? ==>
        var n := r.value.value;
        n in dates && d < n && forall x :: x in dates && d < x ==> n <= x
      ensures r == Ok(None) ==> d in dates && forall x :: x in dates ==> x <= d
    {
      match IndexOf(dates, d)
      case None => Err(ValueError)
      case Some(i) => Ok(if i + 1 < |dates| then Some(dates[i + 1]) else None)
    }

    /** The previous trading date, None before the first one; ValueError for a date not in the index. */
    function GetPrevDate(d: int): (r: Result<Option<int>>)
      requires Valid()
      ensures r.Err? <==> d !in dates
      ensures r.Err? ==> r.error == ValueError
      ensures r.Ok? && r.value.Some? ==>
        var p := r.value.value;
        p in dates && p < d && forall x :: x in dates && x < d ==> x <= p
      ensures r == Ok(None) ==> d in dates && forall x :: x in dates ==> d <= x
    {
      match IndexOf(dates, d)
      case None => Err(ValueError)
      case Some(i) => Ok(if i > 0 then Some(dates[i - 1]) else None)
    }

    /** The first trading date; IndexError when there is no data. */
    function GetMinDate(): (r: Result<int>)
      requires Valid()
      ensures r.Err? <==> dates == []
      ensures r.Err? ==> r.error == IndexError
      ensures r.Ok? ==> r.value in dates && forall x :: x in dates ==> r.value <= x
    {
      if dates == [] then Err(IndexError) else Ok(dates[0])
    }

    /** The last trading date; IndexError when there is no data. */
    function GetMaxDate(): (r: Result<int>)
      requires Valid()
      ensures r.Err? <==> dates == []
      ensures r.Err? ==> r.error == IndexError
      ensures r.Ok? ==> r.value in dates && forall x :: x in dates ==> x <= r.value
    {
      if dates == [] then Err(IndexError) else Ok(dates[|dates| - 1])
    }

    /** Stepping forward and then back returns to the start date. */
    lemma PrevOfNext(d: int)
      requires Valid()
      requires GetNextDate(d).Ok? && GetNextDate(d).value.Some?
      ensures GetPrevDate(GetNextDate(d).value.value) == Ok(Some(d))
    {
      var i := IndexOf(dates, d).value;
      IndexOfStrict(dates, i + 1);
    }

    /** Stepping back and then forward returns to the start date. */
    lemma NextOfPrev(d: int)
      requires Valid()
      requires GetPrevDate(d).Ok? && GetPrevDate(d).value.Some?
      ensures GetNextDate(GetPrevDate(d).value.value) == Ok(Some(d))
    {
      var i := IndexOf(dates, d).value;
      IndexOfStrict(dates, i - 1);
    }

    /** Every trading date has at least one row. */
    lemma TradingDateHasRows(d: int)
      requires Valid() && d in dates
      ensures GetDataForDate(d) != []
    {
      var i :| 0 <= i < |df| && DatesOf(df)[i] == d;
      assert df[i] in GetDataForDate(d);
    }
  }
}
