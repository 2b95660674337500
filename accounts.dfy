/** Cash and position bookkeeping (TradeReplay/portfolio.py). The pure functions
    BuyStep and SellStep say what one order does to an Account; class Portfolio
    performs the same change in place and logs it to its TradeBook. */
module Accounts {
  import opened Wrappers
  import opened Ledger

  /** One holdings entry: {'quantity': int, 'avg_price': float}. */
  datatype Position = Position(quantity: int, avgPrice: real)

  type Holdings = map<string, Position>

  /** The part of a portfolio that orders change. */
  datatype Account = Account(cash: real, holdings: Holdings)

  /** The proportional brokerage rate and the flat depository charge of every order. */
  datatype Fees = Fees(brokerage: real, dpCharge: real)

  /** Every holdings entry is an open position: a closed one is deleted, never kept at zero. */
  ghost predicate WellFormed(h: Holdings) {
    forall s :: s in h ==> h[s].quantity > 0
  }

  /** The quantity held of `s` (0 when absent). */
  function Held(h: Holdings, s: string): int {
    if s in h then h[s].quantity else 0
  }

  /** The cost basis of `s`: quantity times average entry price (0 when absent). */
  function Basis(h: Holdings, s: string): real {
    if s in h then h[s].avgPrice * h[s].quantity as real else 0.0
  }

  // ---------------------------------------------------------------------------
  // Valuation: the sums in _invested_amount and total_value
  // ---------------------------------------------------------------------------

  ghost function Pick(keys: set<string>): string
    requires keys != {}
  {
    var k :| k in keys; k
  }

  /** One entry's value: quantity times its mark price, or its average price when unmarked. */
  function Mark(h: Holdings, marks: map<string, real>, k: string): real
    requires k in h
  {
    h[k].quantity as real * (if k in marks then marks[k] else h[k].avgPrice)
  }

  /** The sum of Mark over `keys`, in no particular order. */
  ghost function Value(h: Holdings, marks: map<string, real>, keys: set<string>): real
    requires keys <= h.Keys
    decreases keys
  {
    if keys == {} then 0.0
    else
      var k := Pick(keys);
      Mark(h, marks, k) + Value(h, marks, keys - {k})
  }

  /** Sum of quantity * avg_price over all holdings. */
  ghost function Invested(h: Holdings): real {
    Value(h, map[], h.Keys)
  }

  /** Sum of quantity * (mark if given, else avg_price) over all holdings. */
  ghost function MarketValue(h: Holdings, marks: map<string, real>): real {
    Value(h, marks, h.Keys)
  }

  /** The sum does not depend on the order of summation: any key can be taken first. */
  lemma {:induction false} ValuePick(h: Holdings, marks: map<string, real>, keys: set<string>, k: string)
    requires keys <= h.Keys && k in keys
    ensures Value(h, marks, keys) == Mark(h, marks, k) + Value(h, marks, keys - {k})
    decreases keys
  {
    var j := Pick(keys);
    if j != k {
      ValuePick(h, marks, keys - {j}, k);
      ValuePick(h, marks, keys - {k}, j);
      assert keys - {j} - {k} == keys - {k} - {j};
    }
  }

  /** The sum over `keys` only reads the entries of `keys`. */
  lemma {:induction false} ValueFrame(h1: Holdings, h2: Holdings, marks: map<string, real>, keys: set<string>)
    requires keys <= h1.Keys && keys <= h2.Keys
    requires forall k :: k in keys ==> h1[k] == h2[k]
    ensures Value(h1, marks, keys) == Value(h2, marks, keys)
    decreases keys
  {
    if keys != {} {
      var k := Pick(keys);
      ValueFrame(h1, h2, marks, keys - {k});
    }
  }

  /** Replacing or adding the entry of `s` changes the invested amount by the change of its cost basis. */
  lemma InvestedUpdate(h: Holdings, s: string, p: Position)
    ensures Invested(h[s := p]) == Invested(h) - Basis(h, s) + p.avgPrice * p.quantity as real
  {
    InvestedWithout(h[s := p], s);
    assert h[s := p].Keys - {s} == h.Keys - {s};
    ValueFrame(h[s := p], h, map[], h.Keys - {s});
    InvestedWithout(h, s);
  }

  /** The invested amount is the basis of `s` plus the sum over the other entries. */
  lemma InvestedWithout(h: Holdings, s: string)
    ensures Invested(h) == Basis(h, s) + Value(h, map[], h.Keys - {s})
  {
    if s in h {
      ValuePick(h, map[], h.Keys, s);
      assert Mark(h, map[], s) == Basis(h, s);
    } else {
      assert h.Keys - {s} == h.Keys;
    }
  }

  /** Deleting the entry of `s` lowers the invested amount by its cost basis. */
  lemma InvestedRemove(h: Holdings, s: string)
    requires s in h
    ensures Invested(h - {s}) == Invested(h) - Basis(h, s)
  {
    var h' := h - {s};
    ValuePick(h, map[], h.Keys, s);
    assert h'.Keys == h.Keys - {s};
    ValueFrame(h', h, map[], h'.Keys);
  }

  // ---------------------------------------------------------------------------
  // Buying
  // ---------------------------------------------------------------------------

  /** `charges` of an order with gross amount `gross`. */
  function Charges(fees: Fees, gross: real): real {
    gross * fees.brokerage + fees.dpCharge
  }

  /** `total` of a buy: cost plus charges. */
  function BuyTotal(fees: Fees, price: real, quantity: int): real {
    var cost := price * quantity as real;
    cost + Charges(fees, cost)
  }

  /** A buy goes through unless the quantity is not positive or cash is short of the total. */
  predicate BuyAccepted(a: Account, fees: Fees, price: real, quantity: int) {
    quantity > 0 && !(a.cash < BuyTotal(fees, price, quantity))
  }

  /** The entry of `s` after buying: a new symbol gets (quantity, price); a held one the
      summed quantity at the quantity-weighted average price. */
  function BoughtPosition(h: Holdings, s: string, price: real, quantity: int): (p: Position)
    requires WellFormed(h) && quantity > 0
    ensures p.quantity == Held(h, s) + quantity
    ensures p.avgPrice * p.quantity as real == Basis(h, s) + price * quantity as real
  {
    if s in h then
      var held := h[s];
      var newQty := held.quantity + quantity;
      Position(newQty, (held.avgPrice * held.quantity as real + price * quantity as real) / newQty as real)
    else
      Position(quantity, price)
  }

  /** What `buy` does to cash and holdings. */
  function BuyStep(a: Account, fees: Fees, s: string, price: real, quantity: int): (r: Account)
    requires WellFormed(a.holdings)
    ensures !BuyAccepted(a, fees, price, quantity) ==> r == a
    ensures BuyAccepted(a, fees, price, quantity) ==>
      && r.cash == a.cash - BuyTotal(fees, price, quantity)
      && r.cash >= 0.0
      && r.holdings.Keys == a.holdings.Keys + {s}
      && Held(r.holdings, s) == Held(a.holdings, s) + quantity
  {
    if BuyAccepted(a, fees, price, quantity) then
      Account(a.cash - BuyTotal(fees, price, quantity), a.holdings[s := BoughtPosition(a.holdings, s, price, quantity)])
    else
      a
  }

  /** A buy keeps every entry open: the bought entry holds a positive quantity. */
  lemma BuyKeepsWellFormed(a: Account, fees: Fees, s: string, price: real, quantity: int)
    requires WellFormed(a.holdings)
    ensures WellFormed(BuyStep(a, fees, s, price, quantity).holdings)
  {
    if BuyAccepted(a, fees, price, quantity) {
      var h := BuyStep(a, fees, s, price, quantity).holdings;
      forall t | t in h
        ensures h[t].quantity > 0
      {
        if t != s {
          assert t in a.holdings;
        }
      }
    }
  }

  /** A buy of `s` leaves the entry of every other symbol `t` as it was. */
  lemma BuyStepFrame(a: Account, fees: Fees, s: string, price: real, quantity: int, t: string)
    requires WellFormed(a.holdings) && t != s
    ensures var r := BuyStep(a, fees, s, price, quantity);
      && (t in r.holdings <==> t in a.holdings)
      && (t in a.holdings ==> r.holdings[t] == a.holdings[t])
  {
  }

  /** Cash plus cost basis is conserved by an accepted buy, except for the charges. */
  lemma BuyConservesValue(a: Account, fees: Fees, s: string, price: real, quantity: int)
    requires WellFormed(a.holdings) && BuyAccepted(a, fees, price, quantity)
    ensures var r := BuyStep(a, fees, s, price, quantity);
      r.cash + Invested(r.holdings) == a.cash + Invested(a.holdings) - Charges(fees, price * quantity as real)
  {
    var p := BoughtPosition(a.holdings, s, price, quantity);
    BuyStepAdds(a, fees, s, price, quantity);
    AddedConservesValue(a, fees, s, price, quantity, p);
  }

  /** An accepted buy pays the total and stores the bought position. */
  lemma BuyStepAdds(a: Account, fees: Fees, s: string, price: real, quantity: int)
    requires WellFormed(a.holdings) && BuyAccepted(a, fees, price, quantity)
    ensures BuyStep(a, fees, s, price, quantity)
      == Account(a.cash - BuyTotal(fees, price, quantity), a.holdings[s := BoughtPosition(a.holdings, s, price, quantity)])
  {
  }

  lemma AddedConservesValue(a: Account, fees: Fees, s: string, price: real, quantity: int, p: Position)
    requires p.avgPrice * p.quantity as real == Basis(a.holdings, s) + price * quantity as real
    ensures var r := Account(a.cash - BuyTotal(fees, price, quantity), a.holdings[s := p]);
      r.cash + Invested(r.holdings) == a.cash + Invested(a.holdings) - Charges(fees, price * quantity as real)
  {
    InvestedUpdate(a.holdings, s, p);
  }

  // ---------------------------------------------------------------------------
  // Selling
  // ---------------------------------------------------------------------------

  /** A sell does something only for a held symbol and a positive quantity. */
  predicate SellAccepted(a: Account, s: string, quantity: int) {
    s in a.holdings && quantity > 0
  }

  /** The executed quantity: the request clamped to the quantity held. */
  function SoldQuantity(h: Holdings, s: string, quantity: int): (q: int)
    requires s in h
    ensures q <= quantity && q <= h[s].quantity
    ensures q == quantity || q == h[s].quantity
  {
    if quantity < h[s].quantity then quantity else h[s].quantity
  }

  /** `net` of a sell: proceeds minus charges. */
  function SellNet(fees: Fees, price: real, qty: int): real {
    var proceeds := price * qty as real;
    proceeds - Charges(fees, proceeds)
  }

  /** The holdings after taking `qty` of `s` away: the entry is deleted when all of it goes. */
  function Reduced(h: Holdings, s: string, qty: int): Holdings
    requires s in h
  {
    if qty == h[s].quantity then h - {s} else h[s := Position(h[s].quantity - qty, h[s].avgPrice)]
  }

  /** What `sell` does to cash and holdings. There is no cash check: a negative net lowers cash. */
  function SellStep(a: Account, fees: Fees, s: string, price: real, quantity: int): (r: Account)
    requires WellFormed(a.holdings)
    ensures !SellAccepted(a, s, quantity) ==> r == a
    ensures SellAccepted(a, s, quantity) ==>
      var qty := SoldQuantity(a.holdings, s, quantity);
      && 0 < qty <= Held(a.holdings, s)
      && Held(r.holdings, s) == Held(a.holdings, s) - qty
      && r.cash == a.cash + SellNet(fees, price, qty)
    ensures SellAccepted(a, s, quantity) && quantity >= Held(a.holdings, s) ==> s !in r.holdings
    ensures s in r.holdings ==> s in a.holdings && r.holdings[s].avgPrice == a.holdings[s].avgPrice
  {
    if !SellAccepted(a, s, quantity) then a
    else
      var qty := SoldQuantity(a.holdings, s, quantity);
      Account(a.cash + SellNet(fees, price, qty), Reduced(a.holdings, s, qty))
  }

  /** A sell of `s` leaves the entry of every other symbol `t` as it was. */
  lemma SellStepFrame(a: Account, fees: Fees, s: string, price: real, quantity: int, t: string)
    requires WellFormed(a.holdings) && t != s
    ensures var r := SellStep(a, fees, s, price, quantity);
      && (t in r.holdings <==> t in a.holdings)
      && (t in a.holdings ==> r.holdings[t] == a.holdings[t])
  {
  }

  /** A sell keeps every remaining entry open: a position sold down to zero is deleted. */
  lemma SellKeepsWellFormed(a: Account, fees: Fees, s: string, price: real, quantity: int)
    requires WellFormed(a.holdings)
    ensures WellFormed(SellStep(a, fees, s, price, quantity).holdings)
  {
    if SellAccepted(a, s, quantity) {
      var qty := SoldQuantity(a.holdings, s, quantity);
      var h := Reduced(a.holdings, s, qty);
      forall t | t in h
        ensures h[t].quantity > 0
      {
        assert t in a.holdings;
      }
    }
  }

  /** An accepted sell turns qty * avg_price of cost basis into the net proceeds:
      cash plus cost basis changes by the realised gain minus the charges. */
  lemma SellConservesValue(a: Account, fees: Fees, s: string, price: real, quantity: int)
    requires WellFormed(a.holdings) && SellAccepted(a, s, quantity)
    ensures var r := SellStep(a, fees, s, price, quantity);
      var qty := SoldQuantity(a.holdings, s, quantity);
      r.cash + Invested(r.holdings)
        == a.cash + Invested(a.holdings) + (price - a.holdings[s].avgPrice) * qty as real - Charges(fees, price * qty as real)
  {
    var qty := SoldQuantity(a.holdings, s, quantity);
    SellStepReduces(a, fees, s, price, quantity);
    ReducedConservesValue(a, fees, s, price, qty);
  }

  /** An accepted sell credits the net proceeds and takes the executed quantity out of the holdings. */
  lemma SellStepReduces(a: Account, fees: Fees, s: string, price: real, quantity: int)
    requires WellFormed(a.holdings) && SellAccepted(a, s, quantity)
    ensures var qty := SoldQuantity(a.holdings, s, quantity);
      SellStep(a, fees, s, price, quantity) == Account(a.cash + SellNet(fees, price, qty), Reduced(a.holdings, s, qty))
  {
  }

  lemma ReducedConservesValue(a: Account, fees: Fees, s: string, price: real, qty: int)
    requires s in a.holdings
    ensures var r := Account(a.cash + SellNet(fees, price, qty), Reduced(a.holdings, s, qty));
      r.cash + Invested(r.holdings)
        == a.cash + Invested(a.holdings) + (price - a.holdings[s].avgPrice) * qty as real - Charges(fees, price * qty as real)
  {
    var proceeds := price * qty as real;
    ReducedInvested(a.holdings, s, qty);
    Realise(a.cash, Invested(a.holdings), a.cash + SellNet(fees, price, qty), Invested(Reduced(a.holdings, s, qty)),
            price, a.holdings[s].avgPrice, qty, Charges(fees, proceeds));
  }

  /** Cash gains the proceeds net of charges while the basis loses avg * qty: together they
      move by the realised gain minus the charges. */
  lemma Realise(cash: real, invested: real, cash': real, invested': real, price: real, avg: real, qty: int, charges: real)
    requires cash' == cash + (price * qty as real - charges)
    requires invested' == invested - avg * qty as real
    ensures cash' + invested' == cash + invested + (price - avg) * qty as real - charges
  {
    DiffMul(price, avg, qty);
  }

  lemma ReducedInvested(h: Holdings, s: string, qty: int)
    requires s in h
    ensures Invested(Reduced(h, s, qty)) == Invested(h) - h[s].avgPrice * qty as real
  {
    var held := h[s].quantity;
    if qty == held {
      InvestedRemove(h, s);
    } else {
      InvestedUpdate(h, s, Position(held - qty, h[s].avgPrice));
      MulDiff(h[s].avgPrice, held, qty);
    }
  }

  lemma MulDiff(x: real, m: int, n: int)
    ensures x * (m - n) as real == x * m as real - x * n as real
  {
  }

  lemma DiffMul(x: real, y: real, n: int)
    ensures (x - y) * n as real == x * n as real - y * n as real
  {
  }

  // ---------------------------------------------------------------------------
  // The ledger entries and sequences of orders
  // ---------------------------------------------------------------------------

  /** The trade a buy logs: none when rejected; otherwise the request with the new snapshot. */
  ghost function BuyLog(a: Account, fees: Fees, s: string, price: real, date: int, quantity: int): (r: seq<Trade>)
    requires WellFormed(a.holdings)
    ensures |r| <= 1
    ensures |r| == 1 <==> BuyAccepted(a, fees, price, quantity)
    ensures |r| == 1 ==> r[0].symbol == s && r[0].action == Action.Buy && r[0].date == date
                         && r[0].price == price && r[0].quantity == quantity
  {
    if BuyAccepted(a, fees, price, quantity) then
      var r := BuyStep(a, fees, s, price, quantity);
      [Trade(s, Action.Buy, date, price, quantity, BuyTotal(fees, price, quantity), r.cash, Invested(r.holdings))]
    else []
  }

  /** The trade a sell logs: none when ignored; otherwise the executed quantity, net and snapshot. */
  ghost function SellLog(a: Account, fees: Fees, s: string, price: real, date: int, quantity: int): (r: seq<Trade>)
    requires WellFormed(a.holdings)
    ensures |r| <= 1
    ensures |r| == 1 <==> SellAccepted(a, s, quantity)
    ensures |r| == 1 ==> r[0].symbol == s && r[0].action == Action.Sell && r[0].date == date
                         && r[0].price == price && r[0].quantity == SoldQuantity(a.holdings, s, quantity)
  {
    if SellAccepted(a, s, quantity) then
      var r := SellStep(a, fees, s, price, quantity);
      var qty := SoldQuantity(a.holdings, s, quantity);
      [Trade(s, Action.Sell, date, price, qty, SellNet(fees, price, qty), r.cash, Invested(r.holdings))]
    else []
  }

  /** A buy or sell request as a strategy issues it. */
  datatype Order = Order(action: Action, symbol: string, price: real, date: int, quantity: int)

  function Apply(a: Account, fees: Fees, o: Order): (r: Account)
    requires WellFormed(a.holdings)
    ensures WellFormed(r.holdings)
  {
    match o.action
    case Buy =>
      BuyKeepsWellFormed(a, fees, o.symbol, o.price, o.quantity);
      BuyStep(a, fees, o.symbol, o.price, o.quantity)
    case Sell =>
      SellKeepsWellFormed(a, fees, o.symbol, o.price, o.quantity);
      SellStep(a, fees, o.symbol, o.price, o.quantity)
  }

  ghost function OrderLog(a: Account, fees: Fees, o: Order): seq<Trade>
    requires WellFormed(a.holdings)
  {
    match o.action
    case Buy => BuyLog(a, fees, o.symbol, o.price, o.date, o.quantity)
    case Sell => SellLog(a, fees, o.symbol, o.price, o.date, o.quantity)
  }

  /** The final account and the trades logged by a sequence of orders. */
  ghost function Execute(a: Account, fees: Fees, orders: seq<Order>): (r: (Account, seq<Trade>))
    requires WellFormed(a.holdings)
    ensures WellFormed(r.0.holdings)
    decreases |orders|
  {
    if orders == [] then (a, [])
    else
      var next := Execute(Apply(a, fees, orders[0]), fees, orders[1..]);
      (next.0, OrderLog(a, fees, orders[0]) + next.1)
  }

  /** Quantity bought of `s` according to a ledger. */
  function Bought(ts: seq<Trade>, s: string): int {
    if ts == [] then 0
    else (if ts[0].symbol == s && ts[0].action == Action.Buy then ts[0].quantity else 0) + Bought(ts[1..], s)
  }

  /** Quantity sold of `s` according to a ledger. */
  function Sold(ts: seq<Trade>, s: string): int {
    if ts == [] then 0
    else (if ts[0].symbol == s && ts[0].action == Action.Sell then ts[0].quantity else 0) + Sold(ts[1..], s)
  }

  /** Sum of price * quantity over the buys of `s` in a ledger. */
  function BoughtCost(ts: seq<Trade>, s: string): real {
    if ts == [] then 0.0
    else (if ts[0].symbol == s && ts[0].action == Action.Buy then ts[0].price * ts[0].quantity as real else 0.0)
         + BoughtCost(ts[1..], s)
  }

  /** Signed cash flow of a ledger: sells add their net, buys subtract their total. */
  function CashFlow(ts: seq<Trade>): real {
    if ts == [] then 0.0
    else (if ts[0].action == Action.Buy then -ts[0].netAmount else ts[0].netAmount) + CashFlow(ts[1..])
  }

  lemma {:induction false} QuantitiesAppend(x: seq<Trade>, y: seq<Trade>, s: string)
    ensures Bought(x + y, s) == Bought(x, s) + Bought(y, s)
    ensures Sold(x + y, s) == Sold(x, s) + Sold(y, s)
  {
    if x != [] {
      assert (x + y)[0] == x[0];
      assert (x + y)[1..] == x[1..] + y;
      QuantitiesAppend(x[1..], y, s);
    } else {
      assert x + y == y;
    }
  }

  lemma {:induction false} CostAppend(x: seq<Trade>, y: seq<Trade>, s: string)
    ensures BoughtCost(x + y, s) == BoughtCost(x, s) + BoughtCost(y, s)
  {
    if x != [] {
      assert (x + y)[0] == x[0];
      assert (x + y)[1..] == x[1..] + y;
      CostAppend(x[1..], y, s);
    } else {
      assert x + y == y;
    }
  }

  lemma {:induction false} CashFlowAppend(x: seq<Trade>, y: seq<Trade>)
    ensures CashFlow(x + y) == CashFlow(x) + CashFlow(y)
  {
    if x != [] {
      assert (x + y)[0] == x[0];
      assert (x + y)[1..] == x[1..] + y;
      CashFlowAppend(x[1..], y);
    } else {
      assert x + y == y;
    }
  }

  /** Every ledger sum splits over a concatenation of ledgers. */
  lemma LedgerSumsAppend(x: seq<Trade>, y: seq<Trade>, s: string)
    ensures Bought(x + y, s) == Bought(x, s) + Bought(y, s)
    ensures Sold(x + y, s) == Sold(x, s) + Sold(y, s)
    ensures BoughtCost(x + y, s) == BoughtCost(x, s) + BoughtCost(y, s)
    ensures CashFlow(x + y) == CashFlow(x) + CashFlow(y)
  {
    QuantitiesAppend(x, y, s);
    CostAppend(x, y, s);
    CashFlowAppend(x, y);
  }

  /** A single order changes the held quantity of `s` by exactly what it logs for `s`, changes
      cash by exactly its logged net, and changes nothing when it logs nothing. */
  lemma OrderBookkeeping(a: Account, fees: Fees, o: Order, s: string)
    requires WellFormed(a.holdings)
    ensures var r := Apply(a, fees, o);
      var log := OrderLog(a, fees, o);
      && Held(r.holdings, s) == Held(a.holdings, s) + Bought(log, s) - Sold(log, s)
      && r.cash == a.cash + CashFlow(log)
      && (log == [] ==> r == a)
      && (log != [] ==> |log| == 1 && log[0].cashAfter == r.cash && log[0].investedAfter == Invested(r.holdings))
  {
  }

  /** No oversell, over any sequence of orders: the final quantity of `s` is the initial one plus
      the logged buys minus the logged sells, so cumulative sells never exceed what was held plus bought. */
  lemma {:induction false} NoOversell(a: Account, fees: Fees, orders: seq<Order>, s: string)
    requires WellFormed(a.holdings)
    ensures var (z, ts) := Execute(a, fees, orders);
      && Held(z.holdings, s) == Held(a.holdings, s) + Bought(ts, s) - Sold(ts, s)
      && Sold(ts, s) <= Held(a.holdings, s) + Bought(ts, s)
    decreases |orders|
  {
    if orders != [] {
      var a1 := Apply(a, fees, orders[0]);
      OrderBookkeeping(a, fees, orders[0], s);
      NoOversell(a1, fees, orders[1..], s);
      LedgerSumsAppend(OrderLog(a, fees, orders[0]), Execute(a1, fees, orders[1..]).1, s);
    }
  }

  /** Cash conservation: the final cash is the initial cash plus the signed nets of the logged
      trades; the last logged trade carries the final cash and invested amount. */
  lemma {:induction false} CashMatchesLedger(a: Account, fees: Fees, orders: seq<Order>)
    requires WellFormed(a.holdings)
    ensures var (z, ts) := Execute(a, fees, orders);
      && z.cash == a.cash + CashFlow(ts)
      && (ts != [] ==> ts[|ts| - 1].cashAfter == z.cash && ts[|ts| - 1].investedAfter == Invested(z.holdings))
      && (ts == [] ==> z == a)
    decreases |orders|
  {
    if orders != [] {
      var a1 := Apply(a, fees, orders[0]);
      OrderBookkeeping(a, fees, orders[0], "");
      CashMatchesLedger(a1, fees, orders[1..]);
      var log := OrderLog(a, fees, orders[0]);
      var rest := Execute(a1, fees, orders[1..]).1;
      LedgerSumsAppend(log, rest, "");
      if rest == [] {
        assert log + rest == log;
      } else {
        assert (log + rest)[|log + rest| - 1] == rest[|rest| - 1];
      }
    }
  }

  /** An order that is not a sell of `s` adds to the cost basis of `s` exactly the price *
      quantity it logs as a buy of `s`, and logs no sell of `s`. */
  lemma OrderBasis(a: Account, fees: Fees, o: Order, s: string)
    requires WellFormed(a.holdings)
    requires o.symbol == s ==> o.action == Action.Buy
    ensures var log := OrderLog(a, fees, o);
      && Basis(Apply(a, fees, o).holdings, s) == Basis(a.holdings, s) + BoughtCost(log, s)
      && Sold(log, s) == 0
  {
    if o.symbol != s {
      OtherSymbolBasis(a, fees, o, s);
    } else {
      BuyBasis(a, fees, s, o.price, o.date, o.quantity);
    }
  }

  /** A buy of `s` adds to its basis exactly the cost it logs, and logs no sell. */
  lemma BuyBasis(a: Account, fees: Fees, s: string, price: real, date: int, quantity: int)
    requires WellFormed(a.holdings)
    ensures var log := BuyLog(a, fees, s, price, date, quantity);
      && Basis(BuyStep(a, fees, s, price, quantity).holdings, s) == Basis(a.holdings, s) + BoughtCost(log, s)
      && Sold(log, s) == 0
  {
    BuyStepBasis(a, fees, s, price, quantity);
    BuyLogTotals(a, fees, s, price, date, quantity);
  }

  /** An accepted buy of `s` adds price * quantity to its basis; a rejected one adds nothing. */
  lemma BuyStepBasis(a: Account, fees: Fees, s: string, price: real, quantity: int)
    requires WellFormed(a.holdings)
    ensures Basis(BuyStep(a, fees, s, price, quantity).holdings, s)
      == Basis(a.holdings, s) + (if BuyAccepted(a, fees, price, quantity) then price * quantity as real else 0.0)
  {
    if BuyAccepted(a, fees, price, quantity) {
      var h := BuyStep(a, fees, s, price, quantity).holdings;
      assert s in h && h[s] == BoughtPosition(a.holdings, s, price, quantity);
    }
  }

  /** The buy log of `s` records price * quantity bought when accepted, and never a sell. */
  lemma BuyLogTotals(a: Account, fees: Fees, s: string, price: real, date: int, quantity: int)
    requires WellFormed(a.holdings)
    ensures var log := BuyLog(a, fees, s, price, date, quantity);
      && BoughtCost(log, s) == (if BuyAccepted(a, fees, price, quantity) then price * quantity as real else 0.0)
      && Sold(log, s) == 0
  {
    var log := BuyLog(a, fees, s, price, date, quantity);
    if BuyAccepted(a, fees, price, quantity) {
      var r := BuyStep(a, fees, s, price, quantity);
      var t := Trade(s, Action.Buy, date, price, quantity, BuyTotal(fees, price, quantity), r.cash, Invested(r.holdings));
      assert log == [t];
      SingleTrade(t, s);
    }
  }

  /** The ledger totals of a ledger holding the single trade `t`. */
  lemma SingleTrade(t: Trade, s: string)
    ensures Bought([t], s) == (if t.symbol == s && t.action == Action.Buy then t.quantity else 0)
    ensures Sold([t], s) == (if t.symbol == s && t.action == Action.Sell then t.quantity else 0)
    ensures BoughtCost([t], s) == (if t.symbol == s && t.action == Action.Buy then t.price * t.quantity as real else 0.0)
    ensures CashFlow([t]) == (if t.action == Action.Buy then -t.netAmount else t.netAmount)
  {
    assert [t][1..] == [];
  }

  /** The buy log of `s` records no quantity of any other symbol. */
  lemma BuyLogOther(a: Account, fees: Fees, s: string, price: real, date: int, quantity: int, t: string)
    requires WellFormed(a.holdings) && t != s
    ensures var log := BuyLog(a, fees, s, price, date, quantity);
      Bought(log, t) == 0 && Sold(log, t) == 0
  {
    var log := BuyLog(a, fees, s, price, date, quantity);
    if log != [] {
      assert log == [log[0]];
      SingleTrade(log[0], t);
    }
  }

  /** The sell log of `s` records no quantity of any other symbol. */
  lemma SellLogOther(a: Account, fees: Fees, s: string, price: real, date: int, quantity: int, t: string)
    requires WellFormed(a.holdings) && t != s
    ensures var log := SellLog(a, fees, s, price, date, quantity);
      Bought(log, t) == 0 && Sold(log, t) == 0
  {
    var log := SellLog(a, fees, s, price, date, quantity);
    if log != [] {
      assert log == [log[0]];
      SingleTrade(log[0], t);
    }
  }

  /** An order of another symbol leaves the basis of `s` alone and logs nothing about `s`. */
  lemma OtherSymbolBasis(a: Account, fees: Fees, o: Order, s: string)
    requires WellFormed(a.holdings) && o.symbol != s
    ensures var log := OrderLog(a, fees, o);
      && Basis(Apply(a, fees, o).holdings, s) == Basis(a.holdings, s)
      && BoughtCost(log, s) == 0.0 && Sold(log, s) == 0
  {
    var r := Apply(a, fees, o);
    var log := OrderLog(a, fees, o);
    assert s in r.holdings <==> s in a.holdings;
    assert log != [] ==> log[0].symbol == o.symbol && log[1..] == [];
  }

  /** Weighted-average price: while `s` is only bought, its cost basis grows by price * quantity
      of every logged buy of `s`, and no sell of `s` is logged. */
  lemma {:induction false} CostBasisOfBuys(a: Account, fees: Fees, orders: seq<Order>, s: string)
    requires WellFormed(a.holdings)
    requires forall i :: 0 <= i < |orders| ==> orders[i].symbol == s ==> orders[i].action == Action.Buy
    ensures var (z, ts) := Execute(a, fees, orders);
      Basis(z.holdings, s) == Basis(a.holdings, s) + BoughtCost(ts, s) && Sold(ts, s) == 0
    decreases |orders|
  {
    if orders != [] {
      var o := orders[0];
      var a1 := Apply(a, fees, o);
      OrderBasis(a, fees, o, s);
      CostBasisOfBuys(a1, fees, orders[1..], s);
      LedgerSumsAppend(OrderLog(a, fees, o), Execute(a1, fees, orders[1..]).1, s);
    }
  }

  /** After N buys of a symbol not held before (and no sells of it), its average price is
      sum(p_i * q_i) / sum(q_i) over the accepted buys. */
  lemma {:induction false} AveragePriceOfBuys(a: Account, fees: Fees, orders: seq<Order>, s: string)
    requires WellFormed(a.holdings) && s !in a.holdings
    requires forall i :: 0 <= i < |orders| ==> orders[i].symbol == s ==> orders[i].action == Action.Buy
    ensures var (z, ts) := Execute(a, fees, orders);
      s in z.holdings ==>
        && z.holdings[s].quantity == Bought(ts, s)
        && z.holdings[s].avgPrice == BoughtCost(ts, s) / Bought(ts, s) as real
  {
    NoOversell(a, fees, orders, s);
    CostBasisOfBuys(a, fees, orders, s);
    var r := Execute(a, fees, orders);
    if s in r.0.holdings {
      AverageFromBasis(r.0.holdings, s, Bought(r.1, s), BoughtCost(r.1, s));
    }
  }

  /** A positive quantity with a known cost basis fixes the average price. */
  lemma AverageFromBasis(h: Holdings, s: string, bought: int, cost: real)
    requires s in h && h[s].quantity == bought && bought > 0 && Basis(h, s) == cost
    ensures h[s].avgPrice == cost / bought as real
  {
  }

  // ---------------------------------------------------------------------------
  // The portfolio object
  // ---------------------------------------------------------------------------

  class Portfolio {
    var cash: real
    var holdings: Holdings
    const fees: Fees
    const tradebook: TradeBook?

    ghost predicate Valid()
      reads this
    {
      WellFormed(holdings)
    }

    function Acct(): Account
      reads this
    {
      Account(cash, holdings)
    }

    constructor (initialCash: real, brokerage: real, dpCharge: real, tradebook: TradeBook?)
      ensures Valid()
      ensures cash == initialCash && holdings == map[]
      ensures fees == Fees(brokerage, dpCharge) && this.tradebook == tradebook
    {
      cash := initialCash;
      holdings := map[];
      fees := Fees(brokerage, dpCharge);
      this.tradebook := tradebook;
    }

    /** Sum of quantity * (mark or avg_price) over the holdings, one entry at a time. */
    method SumHoldings(marks: map<string, real>) returns (v: real)
      ensures v == MarketValue(holdings, marks)
    {
      v := 0.0;
      var keys := holdings.Keys;
      while keys != {}
        invariant keys <= holdings.Keys
        invariant v + Value(holdings, marks, keys) == MarketValue(holdings, marks)
        decreases keys
      {
        var k :| k in keys;
        ValuePick(holdings, marks, keys, k);
        v := v + Mark(holdings, marks, k);
        keys := keys - {k};
      }
    }

    method InvestedAmount() returns (v: real)
      ensures v == Invested(holdings)
    {
      v := SumHoldings(map[]);
    }

    /** Appends one trade with the current cash and invested amount; nothing without a tradebook. */
    method Log(date: int, symbol: string, action: Action, quantity: int, price: real, netAmount: real)
      modifies tradebook
      ensures tradebook != null ==>
        tradebook.trades == old(tradebook.trades) + [Trade(symbol, action, date, price, quantity, netAmount, cash, Invested(holdings))]
    {
      if tradebook == null {
        return;
      }
      var cashAfter := cash;
      var investedAfter := InvestedAmount();
      tradebook.RegisterTrade(symbol, action, date, price, quantity, netAmount, cashAfter, investedAfter);
    }

    /** True when more than zero shares of `symbol` are held; under the invariant,
        exactly when `symbol` has a holdings entry. */
    function HasPosition(symbol: string): (r: bool)
      reads this
      ensures r ==> symbol in holdings && Held(holdings, symbol) > 0
      ensures Valid() ==> (r <==> symbol in holdings)
    {
      symbol in holdings && holdings[symbol].quantity > 0
    }

    method Buy(symbol: string, price: real, date: int, quantity: int)
      requires Valid()
      modifies this, tradebook
      ensures Valid()
      ensures Acct() == BuyStep(old(Acct()), fees, symbol, price, quantity)
      ensures tradebook != null ==>
        tradebook.trades == old(tradebook.trades) + BuyLog(old(Acct()), fees, symbol, price, date, quantity)
    {
      if quantity <= 0 {
        return;
      }
      var cost := price * quantity as real;
      var charges := cost * fees.brokerage + fees.dpCharge;
      var total := cost + charges;
      assert total == BuyTotal(fees, price, quantity);
      if cash < total {
        return;  // insufficient funds: a silent reject
      }
      cash := cash - total;
      var newQty, newAvg;
      if symbol in holdings {
        var held := holdings[symbol];
        newQty := held.quantity + quantity;
        newAvg := (held.avgPrice * held.quantity as real + price * quantity as real) / newQty as real;
      } else {
        newQty, newAvg := quantity, price;
      }
      holdings := holdings[symbol := Position(newQty, newAvg)];
      assert Position(newQty, newAvg) == BoughtPosition(old(holdings), symbol, price, quantity);
      assert Acct() == BuyStep(old(Acct()), fees, symbol, price, quantity);
      BuyKeepsWellFormed(old(Acct()), fees, symbol, price, quantity);
      Log(date, symbol, Action.Buy, quantity, price, total);
    }

    method Sell(symbol: string, price: real, date: int, quantity: int)
      requires Valid()
      modifies this, tradebook
      ensures Valid()
      ensures Acct() == SellStep(old(Acct()), fees, symbol, price, quantity)
      ensures tradebook != null ==>
        tradebook.trades == old(tradebook.trades) + SellLog(old(Acct()), fees, symbol, price, date, quantity)
    {
      if symbol !in holdings || quantity <= 0 {
        return;
      }
      var held := holdings[symbol].quantity;
      var qty := if quantity < held then quantity else held;
      assert qty == SoldQuantity(holdings, symbol, quantity);
      var proceeds := price * qty as real;
      var charges := proceeds * fees.brokerage + fees.dpCharge;
      var net := proceeds - charges;
      assert net == SellNet(fees, price, qty);
      cash := cash + net;
      if qty == held {
        holdings := holdings - {symbol};
      } else {
        holdings := holdings[symbol := Position(held - qty, holdings[symbol].avgPrice)];
      }
      assert Acct() == SellStep(old(Acct()), fees, symbol, price, quantity);
      SellKeepsWellFormed(old(Acct()), fees, symbol, price, quantity);
      Log(date, symbol, Action.Sell, qty, price, net);
    }

    /** Cash plus every holding valued at its latest price, or at its average price when no
        latest price is given. */
    method TotalValue(latestPrices: map<string, real>) returns (v: real)
      ensures v == cash + MarketValue(holdings, latestPrices)
      ensures latestPrices == map[] ==> v == cash + Invested(holdings)
    {
      var invested := SumHoldings(latestPrices);
      v := cash + invested;
    }
  }
}
