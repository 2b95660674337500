/** The EMA-crossover strategy (Strategies/EMACrossoverShift.py): a per-symbol state machine
    that is flat or holds one open trade with a stop and a target. The pure RowStep says what
    one row of the day does; the class performs it in place against a Portfolio. */
module Crossover {
  import opened Wrappers
  import opened Ledger
  import opened Accounts
  import opened MarketData

  /** `{entry_price, stop_price, target_price}` of an open trade. */
  datatype OpenTrade = OpenTrade(entryPrice: real, stopPrice: real, targetPrice: real)

  /** The constructor arguments the decision uses, and the names of the fast and slow EMA
      columns (given, since the engine offers no way to create them). */
  datatype Params = Params(
    stopLossPct: real,
    targetMultiple: real,
    quantity: int,
    fastCol: Option<string>,
    slowCol: Option<string>)

  function StopPrice(entry: real, pct: real): real {
    entry * (1.0 - pct)
  }

  function TargetPrice(entry: real, stop: real, multiple: real): real {
    entry + (entry - stop) * multiple
  }

  /** For a positive entry price, 0 < pct < 1 and a positive multiple, the stop lies below the
      entry and the target above it, `multiple` stop-distances away. */
  lemma StopBelowTargetAbove(entry: real, pct: real, multiple: real)
    requires entry > 0.0 && 0.0 < pct < 1.0 && multiple > 0.0
    ensures var stop := StopPrice(entry, pct);
      && 0.0 < stop < entry < TargetPrice(entry, stop, multiple)
      && TargetPrice(entry, stop, multiple) - entry == (entry - stop) * multiple
  {
    var stop := StopPrice(entry, pct);
    MulPos(entry, pct);
    MulPos(entry, 1.0 - pct);
    MulPos(entry - stop, multiple);
  }

  lemma MulPos(a: real, b: real)
    requires a > 0.0 && b > 0.0
    ensures a * b > 0.0
  {
  }

  /** `prev_df[prev_df["instrument"] == sym].iloc[0]`, None when the symbol has no row. */
  function FirstRowOf(rows: seq<Row>, sym: string): (r: Option<Row>)
    ensures r.None? <==> forall x :: x in rows ==> x.instrument != sym
    ensures r.Some? ==> r.value in rows && r.value.instrument == sym
    ensures r.Some? ==> exists i :: 0 <= i < |rows| && rows[i] == r.value && forall j :: 0 <= j < i ==> rows[j].instrument != sym
  {
    if rows == [] then None
    else if rows[0].instrument == sym then Some(rows[0])
    else FirstRowOf(rows[1..], sym)
  }

  /** Yesterday's and today's fast and slow EMA of one symbol. */
  datatype Signal = Signal(prevFast: real, prevSlow: real, fast: real, slow: real)

  /** The values the entry rule compares, or None when the entry is skipped: no previous day, an
      empty previous day, a missing value today, no row for the symbol yesterday, or a missing
      value yesterday. */
  function EntrySignal(p: Params, prevRows: Option<seq<Row>>, row: Row): (r: Option<Signal>)
    ensures r.None? <==>
      || prevRows.None? || prevRows.value == []
      || Column(row, p.fastCol).None? || Column(row, p.slowCol).None?
      || FirstRowOf(prevRows.value, row.instrument).None?
      || Column(FirstRowOf(prevRows.value, row.instrument).value, p.fastCol).None?
      || Column(FirstRowOf(prevRows.value, row.instrument).value, p.slowCol).None?
    ensures r.Some? ==> Column(row, p.fastCol) == Some(r.value.fast) && Column(row, p.slowCol) == Some(r.value.slow)
    ensures r.Some? ==>
      var prevRow := FirstRowOf(prevRows.value, row.instrument).value;
      Column(prevRow, p.fastCol) == Some(r.value.prevFast) && Column(prevRow, p.slowCol) == Some(r.value.prevSlow)
  {
    var fast := Column(row, p.fastCol);
    var slow := Column(row, p.slowCol);
    if prevRows.None? || prevRows.value == [] || fast.None? || slow.None? then None
    else
      match FirstRowOf(prevRows.value, row.instrument)
      case None => None
      case Some(prevRow) =>
        var prevFast := Column(prevRow, p.fastCol);
        var prevSlow := Column(prevRow, p.slowCol);
        if prevFast.None? || prevSlow.None? then None
        else Some(Signal(prevFast.value, prevSlow.value, fast.value, slow.value))
  }

  /** A strict crossover: fast below slow yesterday and above it today. */
  predicate Crosses(s: Signal) {
    s.prevFast < s.prevSlow && s.fast > s.slow
  }

  /** The strategy's open trades, the account, and the trades logged so far. */
  datatype State = State(positions: map<string, OpenTrade>, acct: Account, log: seq<Trade>)

  ghost predicate Open(st: State, sym: string) {
    sym in st.acct.holdings && st.acct.holdings[sym].quantity > 0
  }

  /** Closes the trade of `sym` by selling `qty` at `price` and forgetting the trade. */
  ghost function Exit(fees: Fees, st: State, sym: string, price: real, today: int, qty: int): (r: State)
    requires WellFormed(st.acct.holdings)
    ensures WellFormed(r.acct.holdings)
  {
    SellKeepsWellFormed(st.acct, fees, sym, price, qty);
    State(st.positions - {sym},
          SellStep(st.acct, fees, sym, price, qty),
          st.log + SellLog(st.acct, fees, sym, price, today, qty))
  }

  /** What one row of the day does. A flat symbol may enter on a strict crossover, at the close,
      whether or not the portfolio accepts the buy; an open one is dropped without trading when the
      portfolio holds none of it, and otherwise exits, target first, with inclusive bounds. */
  ghost function RowStep(p: Params, fees: Fees, st: State, prevRows: Option<seq<Row>>, today: int, row: Row): (r: State)
    requires WellFormed(st.acct.holdings)
    ensures WellFormed(r.acct.holdings)
    // entry happens only for a flat symbol on a strict crossover, with the stop and target computed from the close
    ensures var sym := row.instrument;
      sym !in st.positions ==>
        var sig := EntrySignal(p, prevRows, row);
        if sig.Some? && Crosses(sig.value) then
          var stop := StopPrice(row.close, p.stopLossPct);
          && r.positions == st.positions[sym := OpenTrade(row.close, stop, TargetPrice(row.close, stop, p.targetMultiple))]
          && r.acct == BuyStep(st.acct, fees, sym, row.close, p.quantity)
          && r.log == st.log + BuyLog(st.acct, fees, sym, row.close, today, p.quantity)
        else r == st
    // an open trade whose symbol the portfolio no longer holds is dropped without trading
    ensures var sym := row.instrument;
      sym in st.positions && !Open(st, sym) ==> r == State(st.positions - {sym}, st.acct, st.log)
    // an exit sells the whole holding at the target (checked first) or at the stop
    ensures var sym := row.instrument;
      sym in st.positions && Open(st, sym) ==>
        var pos := st.positions[sym];
        var qty := st.acct.holdings[sym].quantity;
        if row.high >= pos.targetPrice then
          r == Exit(fees, st, sym, pos.targetPrice, today, qty) && sym !in r.acct.holdings && sym !in r.positions
        else if row.low <= pos.stopPrice then
          r == Exit(fees, st, sym, pos.stopPrice, today, qty) && sym !in r.acct.holdings && sym !in r.positions
        else r == st
  {
    var sym := row.instrument;
    if sym !in st.positions then
      var sig := EntrySignal(p, prevRows, row);
      if sig.Some? && Crosses(sig.value) then
        var entry := row.close;
        var stop := StopPrice(entry, p.stopLossPct);
        var target := TargetPrice(entry, stop, p.targetMultiple);
        BuyKeepsWellFormed(st.acct, fees, sym, entry, p.quantity);
        State(st.positions[sym := OpenTrade(entry, stop, target)],
              BuyStep(st.acct, fees, sym, entry, p.quantity),
              st.log + BuyLog(st.acct, fees, sym, entry, today, p.quantity))
      else st
    else
      var pos := st.positions[sym];
      if !Open(st, sym) then State(st.positions - {sym}, st.acct, st.log)
      else
        var qty := st.acct.holdings[sym].quantity;
        if row.high >= pos.targetPrice then Exit(fees, st, sym, pos.targetPrice, today, qty)
        else if row.low <= pos.stopPrice then Exit(fees, st, sym, pos.stopPrice, today, qty)
        else st
  }

  /** A row of one symbol leaves every other symbol's trade, holding and logged sells alone. */
  lemma RowStepFrame(p: Params, fees: Fees, st: State, prevRows: Option<seq<Row>>, today: int, row: Row, t: string)
    requires WellFormed(st.acct.holdings) && t != row.instrument
    ensures var r := RowStep(p, fees, st, prevRows, today, row);
      && (t in r.positions <==> t in st.positions)
      && (t in st.positions ==> r.positions[t] == st.positions[t])
      && Held(r.acct.holdings, t) == Held(st.acct.holdings, t)
      && Sold(r.log, t) == Sold(st.log, t)
  {
    var sym := row.instrument;
    if sym !in st.positions {
      var sig := EntrySignal(p, prevRows, row);
      if sig.Some? && Crosses(sig.value) {
        BuyStepFrame(st.acct, fees, sym, row.close, p.quantity, t);
        BuyLogOther(st.acct, fees, sym, row.close, today, p.quantity, t);
        QuantitiesAppend(st.log, BuyLog(st.acct, fees, sym, row.close, today, p.quantity), t);
      }
    } else if Open(st, sym) {
      var pos := st.positions[sym];
      var qty := st.acct.holdings[sym].quantity;
      if row.high >= pos.targetPrice {
        SellStepFrame(st.acct, fees, sym, pos.targetPrice, qty, t);
        SellLogOther(st.acct, fees, sym, pos.targetPrice, today, qty, t);
        QuantitiesAppend(st.log, SellLog(st.acct, fees, sym, pos.targetPrice, today, qty), t);
      } else if row.low <= pos.stopPrice {
        SellStepFrame(st.acct, fees, sym, pos.stopPrice, qty, t);
        SellLogOther(st.acct, fees, sym, pos.stopPrice, today, qty, t);
        QuantitiesAppend(st.log, SellLog(st.acct, fees, sym, pos.stopPrice, today, qty), t);
      }
    }
  }

  /** A row's effect on the log is an append that does not depend on what was logged before. */
  lemma RowStepAppends(p: Params, fees: Fees, st: State, prevRows: Option<seq<Row>>, today: int, row: Row)
    requires WellFormed(st.acct.holdings)
    ensures var r0 := RowStep(p, fees, State(st.positions, st.acct, []), prevRows, today, row);
      RowStep(p, fees, st, prevRows, today, row) == State(r0.positions, r0.acct, st.log + r0.log)
  {
    assert st.log + [] == st.log;
    var sym := row.instrument;
    if sym !in st.positions {
      var sig := EntrySignal(p, prevRows, row);
      if sig.Some? && Crosses(sig.value) {
        assert [] + BuyLog(st.acct, fees, sym, row.close, today, p.quantity) == BuyLog(st.acct, fees, sym, row.close, today, p.quantity);
      }
    } else if Open(st, sym) {
      var pos := st.positions[sym];
      var qty := st.acct.holdings[sym].quantity;
      assert [] + SellLog(st.acct, fees, sym, pos.targetPrice, today, qty) == SellLog(st.acct, fees, sym, pos.targetPrice, today, qty);
      assert [] + SellLog(st.acct, fees, sym, pos.stopPrice, today, qty) == SellLog(st.acct, fees, sym, pos.stopPrice, today, qty);
    }
  }

  /** A flat symbol's row never sells it: its holding cannot shrink and no sell of it is logged. */
  lemma FlatRowNeverSells(p: Params, fees: Fees, st: State, prevRows: Option<seq<Row>>, today: int, row: Row)
    requires WellFormed(st.acct.holdings) && row.instrument !in st.positions
    ensures var r := RowStep(p, fees, st, prevRows, today, row);
      Held(r.acct.holdings, row.instrument) >= Held(st.acct.holdings, row.instrument)
      && Sold(r.log, row.instrument) == Sold(st.log, row.instrument)
  {
    var sym := row.instrument;
    var sig := EntrySignal(p, prevRows, row);
    if sig.Some? && Crosses(sig.value) {
      var log := BuyLog(st.acct, fees, sym, row.close, today, p.quantity);
      LedgerSumsAppend(st.log, log, sym);
    }
  }

  /** All rows of one day, in order. */
  ghost function DaySteps(p: Params, fees: Fees, st: State, prevRows: Option<seq<Row>>, today: int, rows: seq<Row>): (r: State)
    requires WellFormed(st.acct.holdings)
    ensures WellFormed(r.acct.holdings)
    decreases |rows|
  {
    if rows == [] then st
    else RowStep(p, fees, DaySteps(p, fees, st, prevRows, today, rows[..|rows| - 1]), prevRows, today, rows[|rows| - 1])
  }

  /** A day's effect on the log is an append that does not depend on what was logged before. */
  lemma {:induction false} DayStepsAppends(p: Params, fees: Fees, st: State, prevRows: Option<seq<Row>>, today: int, rows: seq<Row>)
    requires WellFormed(st.acct.holdings)
    ensures var r0 := DaySteps(p, fees, State(st.positions, st.acct, []), prevRows, today, rows);
      DaySteps(p, fees, st, prevRows, today, rows) == State(r0.positions, r0.acct, st.log + r0.log)
    decreases |rows|
  {
    if rows == [] {
      assert st.log + [] == st.log;
    } else {
      var init := rows[..|rows| - 1];
      var last := rows[|rows| - 1];
      DayStepsAppends(p, fees, st, prevRows, today, init);
      var m0 := DaySteps(p, fees, State(st.positions, st.acct, []), prevRows, today, init);
      var m := DaySteps(p, fees, st, prevRows, today, init);
      RowStepAppends(p, fees, m, prevRows, today, last);
      RowStepAppends(p, fees, m0, prevRows, today, last);
      assert State(m.positions, m.acct, []) == State(m0.positions, m0.acct, []);
      var r1 := RowStep(p, fees, State(m0.positions, m0.acct, []), prevRows, today, last);
      assert st.log + (m0.log + r1.log) == (st.log + m0.log) + r1.log;
    }
  }

  lemma AppendAssoc<T>(a: seq<T>, b: seq<T>, c: seq<T>)
    ensures a + (b + c) == (a + b) + c
  {
  }

  lemma DayStepsSnoc(p: Params, fees: Fees, st: State, prevRows: Option<seq<Row>>, today: int, rows: seq<Row>, i: int)
    requires WellFormed(st.acct.holdings) && 0 <= i < |rows|
    ensures DaySteps(p, fees, st, prevRows, today, rows[..i + 1])
      == RowStep(p, fees, DaySteps(p, fees, st, prevRows, today, rows[..i]), prevRows, today, rows[i])
  {
    assert rows[..i + 1][..i] == rows[..i];
  }

  ghost function CountRows(rows: seq<Row>, sym: string): nat {
    if rows == [] then 0 else (if rows[0].instrument == sym then 1 else 0) + CountRows(rows[1..], sym)
  }

  lemma {:induction false} CountRowsLast(rows: seq<Row>, sym: string)
    requires rows != []
    ensures CountRows(rows, sym) == CountRows(rows[..|rows| - 1], sym) + (if rows[|rows| - 1].instrument == sym then 1 else 0)
  {
    if |rows| > 1 {
      CountRowsLast(rows[1..], sym);
      assert rows[1..][..|rows[1..]| - 1] == rows[..|rows| - 1][1..];
    }
  }

  /** Rows of other symbols leave `sym`'s state alone for the whole day. */
  lemma {:induction false} OtherRowsFrame(p: Params, fees: Fees, st: State, prevRows: Option<seq<Row>>, today: int, rows: seq<Row>, sym: string)
    requires WellFormed(st.acct.holdings) && CountRows(rows, sym) == 0
    ensures var r := DaySteps(p, fees, st, prevRows, today, rows);
      && (sym in r.positions <==> sym in st.positions)
      && Held(r.acct.holdings, sym) == Held(st.acct.holdings, sym)
      && Sold(r.log, sym) == Sold(st.log, sym)
    decreases |rows|
  {
    if rows != [] {
      CountRowsLast(rows, sym);
      OtherRowsFrame(p, fees, st, prevRows, today, rows[..|rows| - 1], sym);
      RowStepFrame(p, fees, DaySteps(p, fees, st, prevRows, today, rows[..|rows| - 1]), prevRows, today, rows[|rows| - 1], sym);
    }
  }

  /** With at most one row per symbol per day, a symbol that is flat at the start of the day is not
      exit-checked that day: it is never sold and its holding never shrinks. */
  lemma {:induction false} FlatSymbolNotExited(p: Params, fees: Fees, st: State, prevRows: Option<seq<Row>>, today: int, rows: seq<Row>, sym: string)
    requires WellFormed(st.acct.holdings) && sym !in st.positions && CountRows(rows, sym) <= 1
    ensures var r := DaySteps(p, fees, st, prevRows, today, rows);
      Held(r.acct.holdings, sym) >= Held(st.acct.holdings, sym) && Sold(r.log, sym) == Sold(st.log, sym)
    decreases |rows|
  {
    if rows != [] {
      var init := rows[..|rows| - 1];
      var last := rows[|rows| - 1];
      var mid := DaySteps(p, fees, st, prevRows, today, init);
      CountRowsLast(rows, sym);
      if last.instrument == sym {
        OtherRowsFrame(p, fees, st, prevRows, today, init, sym);
        FlatRowNeverSells(p, fees, mid, prevRows, today, last);
      } else {
        FlatSymbolNotExited(p, fees, st, prevRows, today, init, sym);
        RowStepFrame(p, fees, mid, prevRows, today, last, sym);
      }
    }
  }

  /** The previous trading day's rows, or None on the first trading day. */
  function PrevRows(loader: DataLoader, today: int): (r: Option<seq<Row>>)
    requires loader.Valid()
    ensures r.Some? <==> today in loader.dates && exists x :: x in loader.dates && x < today
    ensures r.Some? ==> exists p :: p in loader.dates && p < today && (forall x :: x in loader.dates && x < today ==> x <= p)
                                    && r.value == RowsOn(loader.df, p)
  {
    var prevDate := loader.GetPrevDate(today);
    if prevDate.Ok? && prevDate.value.Some? then Some(loader.GetDataForDate(prevDate.value.value)) else None
  }

  class EMACrossoverStrategy {
    const short: int
    const long: int
    const params: Params
    var positions: map<string, OpenTrade>

    constructor (short: int, long: int, stopLossPct: real, targetMultiple: real, quantity: int,
                 fastCol: Option<string>, slowCol: Option<string>)
      ensures this.short == short && this.long == long
      ensures params == Params(stopLossPct, targetMultiple, quantity, fastCol, slowCol)
      ensures positions == map[]
    {
      this.short := short;
      this.long := long;
      params := Params(stopLossPct, targetMultiple, quantity, fastCol, slowCol);
      positions := map[];
    }

    /** Called once per trading date with that day's rows. */
    method Decide(loader: DataLoader, portfolio: Portfolio, today: int, daily: seq<Row>)
      requires loader.Valid() && portfolio.Valid() && today in loader.dates
      modifies this, portfolio, portfolio.tradebook
      ensures portfolio.Valid()
      ensures var st := DaySteps(params, portfolio.fees, State(old(positions), old(portfolio.Acct()), []),
                                 PrevRows(loader, today), today, daily);
        && positions == st.positions
        && portfolio.Acct() == st.acct
        && (portfolio.tradebook != null ==> portfolio.tradebook.trades == old(portfolio.tradebook.trades) + st.log)
    {
      var prevDate := loader.GetPrevDate(today);
      var prevRows := if prevDate.Ok? && prevDate.value.Some? then Some(loader.GetDataForDate(prevDate.value.value)) else None;
      assert prevRows == PrevRows(loader, today);
      var tb := portfolio.tradebook;
      ghost var base := if tb != null then tb.trades else [];
      ghost var st0 := State(positions, portfolio.Acct(), []);
      ghost var st := st0;
      for i := 0 to |daily|
        invariant portfolio.Valid()
        invariant WellFormed(st.acct.holdings)
        invariant st == DaySteps(params, portfolio.fees, st0, prevRows, today, daily[..i])
        invariant positions == st.positions && portfolio.Acct() == st.acct
        invariant tb != null ==> tb.trades == base + st.log
      {
        DayStepsSnoc(params, portfolio.fees, st0, prevRows, today, daily, i);
        AdvanceRow(portfolio, prevRows, today, daily[i], st, base);
        st := RowStep(params, portfolio.fees, st, prevRows, today, daily[i]);
      }
      assert daily[..|daily|] == daily;
    }

    /** The body of the per-row loop of `decide`. `st` is the state so far, with everything
        logged since `before`. */
    method AdvanceRow(portfolio: Portfolio, prevRows: Option<seq<Row>>, today: int, row: Row, ghost st: State, ghost before: seq<Trade>)
      requires portfolio.Valid() && WellFormed(st.acct.holdings)
      requires positions == st.positions && portfolio.Acct() == st.acct
      requires portfolio.tradebook != null ==> portfolio.tradebook.trades == before + st.log
      modifies this, portfolio, portfolio.tradebook
      ensures portfolio.Valid()
      ensures var next := RowStep(params, portfolio.fees, st, prevRows, today, row);
        && positions == next.positions
        && portfolio.Acct() == next.acct
        && (portfolio.tradebook != null ==> portfolio.tradebook.trades == before + next.log)
    {
      RowStepAppends(params, portfolio.fees, st, prevRows, today, row);
      ghost var r0 := RowStep(params, portfolio.fees, State(st.positions, st.acct, []), prevRows, today, row);
      AppendAssoc(before, st.log, r0.log);
      DecideRow(portfolio, prevRows, today, row);
    }

    /** The decision for one row, against the strategy's and portfolio's current state. */
    method DecideRow(portfolio: Portfolio, prevRows: Option<seq<Row>>, today: int, row: Row)
      requires portfolio.Valid()
      modifies this, portfolio, portfolio.tradebook
      ensures portfolio.Valid()
      ensures var st := RowStep(params, portfolio.fees, State(old(positions), old(portfolio.Acct()), []), prevRows, today, row);
        && positions == st.positions
        && portfolio.Acct() == st.acct
        && (portfolio.tradebook != null ==> portfolio.tradebook.trades == old(portfolio.tradebook.trades) + st.log)
    {
      var sym := row.instrument;
      if sym !in positions {
        var emaFast := Column(row, params.fastCol);
        var emaSlow := Column(row, params.slowCol);
        if prevRows.None? || prevRows.value == [] || emaFast.None? || emaSlow.None? {
          return;
        }
        var prevRow := FirstRowOf(prevRows.value, sym);
        if prevRow.None? {
          return;
        }
        var prevFast := Column(prevRow.value, params.fastCol);
        var prevSlow := Column(prevRow.value, params.slowCol);
        if prevFast.None? || prevSlow.None? {
          return;
        }
        assert EntrySignal(params, prevRows, row) == Some(Signal(prevFast.value, prevSlow.value, emaFast.value, emaSlow.value));
        if prevFast.value < prevSlow.value && emaFast.value > emaSlow.value {
          var entryPrice := row.close;
          var stopPrice := entryPrice * (1.0 - params.stopLossPct);
          var profitDist := entryPrice - stopPrice;
          var targetPrice := entryPrice + profitDist * params.targetMultiple;
          assert OpenTrade(entryPrice, stopPrice, targetPrice)
            == OpenTrade(row.close, StopPrice(row.close, params.stopLossPct), TargetPrice(row.close, StopPrice(row.close, params.stopLossPct), params.targetMultiple));
          portfolio.Buy(sym, entryPrice, today, params.quantity);
          assert positions == old(positions);
          positions := positions[sym := OpenTrade(entryPrice, stopPrice, targetPrice)];
        }
      } else {
        var pos := positions[sym];
        if !(sym in portfolio.holdings && portfolio.holdings[sym].quantity > 0) {
          positions := positions - {sym};
          return;
        }
        var qty := portfolio.holdings[sym].quantity;
        if row.high >= pos.targetPrice {
          portfolio.Sell(sym, pos.targetPrice, today, qty);
          positions := positions - {sym};
        } else if row.low <= pos.stopPrice {
          portfolio.Sell(sym, pos.stopPrice, today, qty);
          positions := positions - {sym};
        }
      }
    }
  }
}
