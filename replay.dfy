/** The replay session (TradeReplay/session.py): resolves the date range, walks the trading dates
    with the loader's next-date step and hands each day's rows to the strategy. */
module Replay {
  import opened Wrappers
  import opened Ledger
  import opened Accounts
  import opened MarketData
  import opened Indicators
  import opened Crossover

  /** The Portfolio's default depository charge, which the session does not override. */
  const DpCharge: real := 15.93
  /** The TradeBook's default output path. */
  const TradebookPath: string := "Data/tradebook.csv"

  /** The values of `s` lying in [lo, hi], in order. */
  function Window(s: seq<int>, lo: int, hi: int): (r: seq<int>)
    ensures forall x :: x in r <==> x in s && lo <= x <= hi
  {
    if s == [] then []
    else (if lo <= s[0] <= hi then [s[0]] else []) + Window(s[1..], lo, hi)
  }

  /** `s` is split at j <= k into values below lo, values in [lo, hi] and values above hi. */
  ghost predicate SplitAt(s: seq<int>, lo: int, hi: int, j: int, k: int) {
    && 0 <= j <= k <= |s|
    && (forall i :: 0 <= i < j ==> s[i] < lo)
    && (forall i :: j <= i < k ==> lo <= s[i] <= hi)
    && (forall i :: k <= i < |s| ==> s[i] > hi)
  }

  /** A slice that holds exactly the in-range values, with smaller values before it and larger
      after it, is the window. */
  lemma {:induction false} WindowSlice(s: seq<int>, lo: int, hi: int, j: int, k: int)
    requires SplitAt(s, lo, hi, j, k)
    ensures Window(s, lo, hi) == s[j..k]
  {
    if s != [] {
      var j', k' := if j > 0 then j - 1 else 0, if k > 0 then k - 1 else 0;
      SplitTail(s, lo, hi, j, k);
      WindowSlice(s[1..], lo, hi, j', k');
      WindowHead(s, lo, hi, j, k);
    }
  }

  /** Dropping the head of a split sequence moves both split points down by one (not below 0). */
  lemma SplitTail(s: seq<int>, lo: int, hi: int, j: int, k: int)
    requires SplitAt(s, lo, hi, j, k) && s != []
    ensures SplitAt(s[1..], lo, hi, if j > 0 then j - 1 else 0, if k > 0 then k - 1 else 0)
  {
  }

  /** The window of a split sequence is the head (when in range) followed by the tail's slice. */
  lemma WindowHead(s: seq<int>, lo: int, hi: int, j: int, k: int)
    requires SplitAt(s, lo, hi, j, k) && s != []
    requires Window(s[1..], lo, hi) == s[1..][if j > 0 then j - 1 else 0..if k > 0 then k - 1 else 0]
    ensures Window(s, lo, hi) == s[j..k]
  {
    var t := s[1..];
    if j > 0 {
      assert s[0] < lo;
      assert t[j - 1..k - 1] == s[j..k];
    } else if k > 0 {
      assert lo <= s[0] <= hi;
      assert s[..k] == [s[0]] + t[..k - 1];
    } else {
      assert s[0] > hi;
    }
  }

  /** The number of values of a strictly increasing `s` below `x`: they all come first. */
  function CountBelow(s: seq<int>, x: int): (r: nat)
    requires StrictlyIncreasing(s)
    ensures r <= |s|
    ensures forall i :: 0 <= i < r ==> s[i] < x
    ensures forall i :: r <= i < |s| ==> s[i] >= x
  {
    if s == [] || s[0] >= x then 0 else 1 + CountBelow(s[1..], x)
  }

  /** Over strictly increasing values the window is one contiguous slice. */
  lemma WindowIsSlice(s: seq<int>, lo: int, hi: int)
    requires StrictlyIncreasing(s)
    ensures var j := CountBelow(s, lo);
      var k := if CountBelow(s, hi + 1) < j then j else CountBelow(s, hi + 1);
      Window(s, lo, hi) == s[j..k]
  {
    var j := CountBelow(s, lo);
    var k := if CountBelow(s, hi + 1) < j then j else CountBelow(s, hi + 1);
    WindowSlice(s, lo, hi, j, k);
  }

  /** In a valid loader the next date of the k-th trading date is the (k+1)-th, or None for the last. */
  lemma NextAt(loader: DataLoader, k: int)
    requires loader.Valid() && 0 <= k < |loader.dates|
    ensures loader.GetNextDate(loader.dates[k]) == Ok(if k + 1 < |loader.dates| then Some(loader.dates[k + 1]) else None)
  {
    IndexOfStrict(loader.dates, k);
  }

  /** Consecutive elements of a slice of the trading dates are related by the next date. */
  lemma SliceNext(loader: DataLoader, j: int, k: int, i: int)
    requires loader.Valid() && 0 <= j <= k <= |loader.dates| && 0 <= i < k - j - 1
    ensures var w := loader.dates[j..k];
      loader.GetNextDate(w[i]) == Ok(Some(w[i + 1]))
  {
    NextAt(loader, j + i);
  }

  /** The dates a walk from `start` to `end` visits are strictly increasing, and each one after
      the first is the loader's next date of the one before it. */
  lemma DateWalk(loader: DataLoader, start: int, end: int)
    requires loader.Valid()
    ensures var w := Window(loader.dates, start, end);
      && StrictlyIncreasing(w)
      && (forall x :: x in w <==> x in loader.dates && start <= x <= end)
      && forall i :: 0 <= i < |w| - 1 ==> loader.GetNextDate(w[i]) == Ok(Some(w[i + 1]))
  {
    var s := loader.dates;
    WindowIsSlice(s, start, end);
    var j := CountBelow(s, start);
    var k := if CountBelow(s, end + 1) < j then j else CountBelow(s, end + 1);
    var w := Window(s, start, end);
    assert w == s[j..k] && |w| == k - j;
    forall i | 0 <= i < |w| - 1
      ensures loader.GetNextDate(w[i]) == Ok(Some(w[i + 1]))
    {
      SliceNext(loader, j, k, i);
    }
  }

  /** The state of the date walk: nothing collected yet and `d` at the start, or the trading dates
      from the start (the j0-th) up to the k-th collected, all within the end, and `d` at the k-th. */
  ghost predicate Walked(dates: seq<int>, start: int, end: int, all: seq<int>, d: Option<int>, j0: int, k: int) {
    && (all == [] ==> d == Some(start))
    && (all != [] ==> start in dates && 0 <= j0 < k <= |dates| && dates[j0] == start)
    && (all != [] ==> all == dates[j0..k] && d == (if k < |dates| then Some(dates[k]) else None))
    && (forall x :: x in all ==> x <= end)
  }

  /** One step of the walk from a date within the end: the next date is found unless the walk is
      at its start and the start is not a trading date. */
  lemma WalkAdvance(loader: DataLoader, start: int, end: int, all: seq<int>, d: Option<int>, j0: int, k: int)
    requires loader.Valid() && Walked(loader.dates, start, end, all, d, j0, k)
    requires start in loader.dates ==> j0 == IndexOf(loader.dates, start).value
    requires d.Some? && d.value <= end
    ensures loader.GetNextDate(d.value).Err? <==> all == [] && start !in loader.dates
    ensures loader.GetNextDate(d.value).Ok? ==>
      Walked(loader.dates, start, end, all + [d.value], loader.GetNextDate(d.value).value, j0, if all == [] then j0 + 1 else k + 1)
  {
    if all == [] {
      WalkFirst(loader, start, end, j0);
    } else {
      WalkNext(loader, start, end, all, j0, k);
    }
  }

  /** The first step of the walk, from the start itself. */
  lemma WalkFirst(loader: DataLoader, start: int, end: int, j0: int)
    requires loader.Valid() && start <= end
    requires start in loader.dates ==> j0 == IndexOf(loader.dates, start).value
    ensures loader.GetNextDate(start).Err? <==> start !in loader.dates
    ensures loader.GetNextDate(start).Ok? ==>
      Walked(loader.dates, start, end, [start], loader.GetNextDate(start).value, j0, j0 + 1)
  {
    var dates := loader.dates;
    if start in dates {
      NextAt(loader, j0);
      assert [start] == dates[j0..j0 + 1];
    }
  }

  /** A later step of the walk, from the k-th trading date. */
  lemma WalkNext(loader: DataLoader, start: int, end: int, all: seq<int>, j0: int, k: int)
    requires loader.Valid() && all != [] && 0 <= k < |loader.dates| && loader.dates[k] <= end
    requires Walked(loader.dates, start, end, all, Some(loader.dates[k]), j0, k)
    ensures loader.GetNextDate(loader.dates[k]).Ok?
    ensures Walked(loader.dates, start, end, all + [loader.dates[k]], loader.GetNextDate(loader.dates[k]).value, j0, k + 1)
  {
    var dates := loader.dates;
    NextAt(loader, k);
    assert all + [dates[k]] == dates[j0..k + 1];
  }

  /** Where the date walk stops, what it collected is the window. */
  lemma WalkEnd(dates: seq<int>, start: int, end: int, all: seq<int>, d: Option<int>, j0: int, k: int)
    requires StrictlyIncreasing(dates)
    requires !(d.Some? && d.value <= end)
    requires Walked(dates, start, end, all, d, j0, k)
    ensures all == Window(dates, start, end)
  {
    if all != [] {
      forall i | k <= i < |dates| ensures dates[i] > end { }
      forall i | j0 <= i < k ensures start <= dates[i] <= end {
        assert dates[i] == all[i - j0] && all[i - j0] in all;
      }
      WindowSlice(dates, start, end, j0, k);
    }
  }

  /** The strategy's state after deciding each of `ds` in turn. */
  ghost function RunDays(p: Params, fees: Fees, st: State, loader: DataLoader, ds: seq<int>): (r: State)
    requires loader.Valid() && WellFormed(st.acct.holdings)
    ensures WellFormed(r.acct.holdings)
    decreases |ds|
  {
    if ds == [] then st
    else
      var today := ds[|ds| - 1];
      DaySteps(p, fees, RunDays(p, fees, st, loader, ds[..|ds| - 1]), PrevRows(loader, today), today, loader.GetDataForDate(today))
  }

  lemma RunDaysSnoc(p: Params, fees: Fees, st: State, loader: DataLoader, ds: seq<int>, i: int)
    requires loader.Valid() && WellFormed(st.acct.holdings) && 0 <= i < |ds|
    ensures ds[..i + 1] == ds[..i] + [ds[i]]
    ensures RunDays(p, fees, st, loader, ds[..i + 1])
      == DaySteps(p, fees, RunDays(p, fees, st, loader, ds[..i]), PrevRows(loader, ds[i]), ds[i], loader.GetDataForDate(ds[i]))
  {
    assert ds[..i + 1][..i] == ds[..i];
  }

  class Session {
    const loader: DataLoader
    var current: int
    const endDate: int
    const tradebook: TradeBook
    const portfolio: Portfolio
    const engine: IndicatorEngine
    /** The dates handed to `decide`, in order. */
    ghost var decided: seq<int>

    ghost predicate Valid()
      reads this, portfolio
    {
      loader.Valid() && portfolio.Valid() && portfolio.tradebook == tradebook
    }

    /** Wires up the components once the date range is known. */
    constructor (loader: DataLoader, current: int, endDate: int, brokerage: real, investment: real, talib: Option<set<string>>)
      requires loader.Valid()
      ensures Valid()
      ensures this.loader == loader && this.current == current && this.endDate == endDate
      ensures fresh(tradebook) && tradebook.filepath == TradebookPath && tradebook.trades == []
      ensures fresh(portfolio) && portfolio.cash == investment && portfolio.holdings == map[]
      ensures portfolio.fees == Fees(brokerage, DpCharge)
      ensures fresh(engine) && engine.loader == loader && engine.custom == map[] && engine.cache == map[]
      ensures decided == []
    {
      this.loader := loader;
      this.current := current;
      this.endDate := endDate;
      var tb := new TradeBook(TradebookPath);
      tradebook := tb;
      portfolio := new Portfolio(investment, brokerage, DpCharge, tb);
      engine := new IndicatorEngine(loader, map[], talib);
      decided := [];
    }

    /** `__init__`: loads the data and defaults a missing start to the first trading date and a
        missing end to the last; with no data, asking for either default raises IndexError. */
    static method Open(rawColumns: seq<string>, rawRows: seq<Row>, start: Option<int>, end: Option<int>,
                       brokerage: real, investment: real, talib: Option<set<string>>)
      returns (r: Result<Session>)
      ensures r.Err? <==> (start.None? || end.None?) && rawRows == []
      ensures r.Err? ==> r.error == IndexError
      ensures r.Ok? ==> var s := r.value;
        && s.Valid()
        && s.loader.df == SortByDate(CleanRows(rawRows))
        && (start.Some? ==> s.current == start.value)
        && (start.None? ==> s.current in s.loader.dates && forall x :: x in s.loader.dates ==> s.current <= x)
        && (end.Some? ==> s.endDate == end.value)
        && (end.None? ==> s.endDate in s.loader.dates && forall x :: x in s.loader.dates ==> x <= s.endDate)
        && s.portfolio.cash == investment && s.portfolio.holdings == map[]
        && s.tradebook.trades == [] && s.decided == []
    {
      var loader := new DataLoader(rawColumns, rawRows);
      assert loader.dates == [] <==> rawRows == [] by {
        if rawRows != [] {
          assert CleanRows(rawRows)[0] in multiset(loader.df);
          assert loader.df[0].date == DatesOf(loader.df)[0];
          assert loader.df[0].date in loader.dates;
        }
      }
      var current: int;
      if start.Some? {
        current := start.value;
      } else {
        var min := loader.GetMinDate();
        if min.Err? {
          return Err(min.error);
        }
        current := min.value;
      }
      var endDate: int;
      if end.Some? {
        endDate := end.value;
      } else {
        var max := loader.GetMaxDate();
        if max.Err? {
          return Err(max.error);
        }
        endDate := max.value;
      }
      var s := new Session(loader, current, endDate, brokerage, investment, talib);
      return Ok(s);
    }

    /** Step 2 of `run`: the dates from `current` while they do not pass `end_date`, each the next
        trading date of the one before; ValueError when the start is not a trading date. */
    method CollectDates() returns (r: Result<seq<int>>)
      requires loader.Valid()
      ensures r.Err? <==> current <= endDate && current !in loader.dates
      ensures r.Err? ==> r.error == ValueError
      ensures r.Ok? ==> r.value == Window(loader.dates, current, endDate)
    {
      var dates := loader.dates;
      ghost var j0 := if current in dates then IndexOf(dates, current).value else 0;
      ghost var k := 0;
      var all: seq<int> := [];
      var d: Option<int> := Some(current);
      while d.Some? && d.value <= endDate
        invariant Walked(dates, current, endDate, all, d, j0, k)
        decreases if all == [] then |dates| + 1 else |dates| - k
      {
        var next := loader.GetNextDate(d.value);
        if next.Err? {
          return Err(next.error);
        }
        WalkAdvance(loader, current, endDate, all, d, j0, k);
        k := if all == [] then j0 + 1 else k + 1;
        all := all + [d.value];
        d := next.value;
      }
      WalkEnd(dates, current, endDate, all, d, j0, k);
      return Ok(all);
    }

    /** One date of `run`: `current` is set to it first, then its rows go to the strategy. `st` is
        the strategy's state so far, with everything it logged since `before`. */
    method DecideDay(strategy: EMACrossoverStrategy, today: int, ghost st: State, ghost before: seq<Trade>)
      requires Valid() && today in loader.dates && WellFormed(st.acct.holdings)
      requires strategy.positions == st.positions && portfolio.Acct() == st.acct
      requires tradebook.trades == before + st.log
      modifies this, strategy, portfolio, tradebook
      ensures Valid()
      ensures current == today && decided == old(decided) + [today]
      ensures var next := DaySteps(strategy.params, portfolio.fees, st, PrevRows(loader, today), today, loader.GetDataForDate(today));
        && strategy.positions == next.positions && portfolio.Acct() == next.acct
        && tradebook.trades == before + next.log
    {
      current := today;
      var daily := loader.GetDataForDate(today);
      DayStepsAppends(strategy.params, portfolio.fees, st, PrevRows(loader, today), today, daily);
      strategy.Decide(loader, portfolio, today, daily);
      decided := decided + [today];
      ghost var r0 := DaySteps(strategy.params, portfolio.fees, State(st.positions, st.acct, []), PrevRows(loader, today), today, daily);
      AppendAssoc(before, st.log, r0.log);
    }

    /** Step 3 of `run`: decides each of `ds` in order. */
    method DecideAll(strategy: EMACrossoverStrategy, ds: seq<int>)
      requires Valid() && forall d :: d in ds ==> d in loader.dates
      modifies this, strategy, portfolio, tradebook
      ensures Valid()
      ensures decided == old(decided) + ds
      ensures current == (if ds == [] then old(current) else ds[|ds| - 1])
      ensures var st := RunDays(strategy.params, portfolio.fees, State(old(strategy.positions), old(portfolio.Acct()), []), loader, ds);
        && strategy.positions == st.positions
        && portfolio.Acct() == st.acct
        && tradebook.trades == old(tradebook.trades) + st.log
    {
      ghost var st0 := State(strategy.positions, portfolio.Acct(), []);
      ghost var st := st0;
      for i := 0 to |ds|
        invariant Valid()
        invariant decided == old(decided) + ds[..i]
        invariant current == (if i == 0 then old(current) else ds[i - 1])
        invariant WellFormed(st.acct.holdings)
        invariant st == RunDays(strategy.params, portfolio.fees, st0, loader, ds[..i])
        invariant strategy.positions == st.positions && portfolio.Acct() == st.acct
        invariant tradebook.trades == old(tradebook.trades) + st.log
      {
        assert ds[i] in ds;
        RunDaysSnoc(strategy.params, portfolio.fees, st0, loader, ds, i);
        AppendAssoc(old(decided), ds[..i], [ds[i]]);
        DecideDay(strategy, ds[i], st, old(tradebook.trades));
        st := RunDays(strategy.params, portfolio.fees, st0, loader, ds[..i + 1]);
      }
      assert ds[..|ds|] == ds;
    }

    /** `run`: decides every collected date in order, with `current` set to it first, then saves
        the trade book once. A failed date walk stops the run before any decision. */
    method Run(strategy: EMACrossoverStrategy) returns (r: Result<Option<CsvFile>>)
      requires Valid()
      modifies this, strategy, portfolio, tradebook
      ensures Valid()
      ensures r.Err? <==> old(current) <= endDate && old(current) !in loader.dates
      ensures r.Err? ==> r.error == ValueError && current == old(current) && decided == old(decided)
      ensures r.Err? ==> strategy.positions == old(strategy.positions) && portfolio.Acct() == old(portfolio.Acct())
      ensures r.Err? ==> tradebook.trades == old(tradebook.trades)
      ensures r.Ok? ==> var ds := Window(loader.dates, old(current), endDate);
        var st := RunDays(strategy.params, portfolio.fees, State(old(strategy.positions), old(portfolio.Acct()), []), loader, ds);
        && decided == old(decided) + ds
        && current == (if ds == [] then old(current) else ds[|ds| - 1])
        && strategy.positions == st.positions
        && portfolio.Acct() == st.acct
        && tradebook.trades == old(tradebook.trades) + st.log
        && r.value == SavedFile(tradebook.trades)
    {
      var all := CollectDates();
      if all.Err? {
        return Err(all.error);
      }
      DateWalk(loader, current, endDate);
      DecideAll(strategy, all.value);
      var file := tradebook.Save();
      return Ok(file);
    }
  }
}
