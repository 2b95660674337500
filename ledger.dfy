/** The append-only trade ledger (TradeReplay/tradebook.py). */
module Ledger {
  import opened Wrappers

  datatype Action = Buy | Sell

  /** One executed order together with the account snapshot taken right after it. */
  datatype Trade = Trade(
    symbol: string,
    action: Action,
    date: int,
    price: real,
    quantity: int,
    netAmount: real,
    cashAfter: real,
    investedAfter: real)

  /** The keys of every trade record, in the order the record literal inserts them. */
  const FieldNames: seq<string> :=
    ["symbol", "action", "date", "price", "quantity", "net_amount", "cash_after", "invested_after"]

  /** What `save` writes: a header line and one row per trade. */
  datatype CsvFile = CsvFile(header: seq<string>, rows: seq<Trade>)

  /** The file that saving `trades` produces, or None when nothing is written. */
  function SavedFile(trades: seq<Trade>): (r: Option<CsvFile>)
    ensures r.None? <==> trades == []
    ensures r.Some? ==> r.value.header == FieldNames && r.value.rows == trades
  {
    if trades == [] then None else Some(CsvFile(FieldNames, trades))
  }

  class TradeBook {
    const filepath: string
    var trades: seq<Trade>

    constructor (filepath: string)
      ensures this.filepath == filepath
      ensures trades == []
    {
      this.filepath := filepath;
      trades := [];
    }

    /** Appends exactly one record, built field by field from the arguments. */
    method RegisterTrade(symbol: string, action: Action, date: int, price: real, quantity: int,
                         netAmount: real, cashAfter: real, investedAfter: real)
      modifies this
      ensures trades == old(trades) + [Trade(symbol, action, date, price, quantity, netAmount, cashAfter, investedAfter)]
      ensures |trades| == |old(trades)| + 1 && trades[..|old(trades)|] == old(trades)
    {
      trades := trades + [Trade(symbol, action, date, price, quantity, netAmount, cashAfter, investedAfter)];
    }

    /** Writes nothing when no trade was registered; otherwise the header (the first
        record's keys) and then every record, row by row, in append order. */
    method Save() returns (file: Option<CsvFile>)
      ensures file == SavedFile(trades)
    {
      if trades == [] {
        return None;
      }
      var header := FieldNames;
      var written: seq<Trade> := [];
      var i := 0;
      while i < |trades|
        invariant 0 <= i <= |trades|
        invariant written == trades[..i]
      {
        written := written + [trades[i]];
        i := i + 1;
      }
      assert trades[..i] == trades;
      file := Some(CsvFile(header, written));
    }
  }
}
