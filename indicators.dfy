/** Trailing-window indicators with a memo cache and a registry of custom indicators
    (TradeReplay/indicators.py). */
module Indicators {
  import opened Wrappers
  import opened MarketData

  // ---------------------------------------------------------------------------
  // The trailing window of closes
  // ---------------------------------------------------------------------------

  /** The rows of `symbol` dated no later than `d`, in stored order. */
  function Select(rows: seq<Row>, symbol: string, d: int): (r: seq<Row>)
    ensures forall x :: x in r <==> x in rows && x.instrument == symbol && x.date <= d
    ensures |r| <= |rows|
  {
    if rows == [] then []
    else (if rows[0].instrument == symbol && rows[0].date <= d then [rows[0]] else []) + Select(rows[1..], symbol, d)
  }

  lemma {:induction false} SelectAppend(a: seq<Row>, b: seq<Row>, symbol: string, d: int)
    ensures Select(a + b, symbol, d) == Select(a, symbol, d) + Select(b, symbol, d)
  {
    if a == [] {
      assert a + b == b;
    } else {
      assert (a + b)[0] == a[0];
      assert (a + b)[1..] == a[1..] + b;
      SelectAppend(a[1..], b, symbol, d);
    }
  }

  /** Selecting from date-sorted rows keeps them date-sorted. */
  lemma {:induction false} SelectSorted(rows: seq<Row>, symbol: string, d: int)
    requires SortedByDate(rows)
    ensures SortedByDate(Select(rows, symbol, d))
  {
    if rows != [] {
      SelectSorted(rows[1..], symbol, d);
      var rest := Select(rows[1..], symbol, d);
      assert forall k :: 0 <= k < |rest| ==> rest[k] in rows[1..];
    }
  }

  function Closes(rows: seq<Row>): (r: seq<real>)
    ensures |r| == |rows|
    ensures forall i :: 0 <= i < |rows| ==> r[i] == rows[i].close
  {
    seq(|rows|, i requires 0 <= i < |rows| => rows[i].close)
  }

  /** Python's `xs[-w:]`: the last `w` items for w >= 1; note that w == 0 gives `xs[0:]`,
      the whole sequence, and a negative w drops the first -w items. */
  function TakeLast(xs: seq<real>, w: int): (r: seq<real>)
    ensures |r| <= |xs| && r == xs[|xs| - |r|..]
    ensures w >= 1 ==> |r| == Min(w, |xs|)
    ensures w == 0 ==> r == xs
  {
    if w > 0 then xs[|xs| - Min(w, |xs|)..] else xs[Min(-w, |xs|)..]
  }

  /** `_get_history`: the closes of the last `window` rows of `symbol` dated up to `d`, in date order. */
  function History(rows: seq<Row>, symbol: string, d: int, window: int): (r: seq<real>)
    ensures |r| <= |Select(rows, symbol, d)|
    ensures window >= 1 ==> |r| == Min(window, |Select(rows, symbol, d)|)
    ensures window == 0 ==> |r| == |Select(rows, symbol, d)|
  {
    TakeLast(Closes(SortByDate(Select(rows, symbol, d))), window)
  }

  /** On date-sorted rows (as the loader keeps them) the history is the tail of the selected
      rows' closes in stored order: at most `window` of them for window >= 1, and exactly
      `window` when that many exist. */
  lemma HistoryOfSorted(rows: seq<Row>, symbol: string, d: int, window: int)
    requires SortedByDate(rows)
    ensures History(rows, symbol, d, window) == TakeLast(Closes(Select(rows, symbol, d)), window)
  {
    SelectSorted(rows, symbol, d);
    SortSorted(Select(rows, symbol, d));
  }

  /** Causality: rows of other symbols, and rows dated after `d`, inserted anywhere, do not change
      the history at `d`. */
  lemma HistoryIgnoresIrrelevantRows(pre: seq<Row>, extra: seq<Row>, post: seq<Row>, symbol: string, d: int, window: int)
    requires forall x :: x in extra ==> x.instrument != symbol || x.date > d
    ensures History(pre + extra + post, symbol, d, window) == History(pre + post, symbol, d, window)
  {
    SelectIgnoresIrrelevantRows(pre, extra, post, symbol, d);
  }

  lemma SelectIgnoresIrrelevantRows(pre: seq<Row>, extra: seq<Row>, post: seq<Row>, symbol: string, d: int)
    requires forall x :: x in extra ==> x.instrument != symbol || x.date > d
    ensures Select(pre + extra + post, symbol, d) == Select(pre + post, symbol, d)
  {
    SelectAppend(pre + extra, post, symbol, d);
    SelectAppend(pre, extra, symbol, d);
    SelectAppend(pre, post, symbol, d);
    SelectNone(extra, symbol, d);
    var sp := Select(pre, symbol, d);
    assert sp + [] == sp;
  }

  lemma {:induction false} SelectNone(rows: seq<Row>, symbol: string, d: int)
    requires forall x :: x in rows ==> x.instrument != symbol || x.date > d
    ensures Select(rows, symbol, d) == []
  {
    if rows != [] {
      SelectNone(rows[1..], symbol, d);
    }
  }

  // ---------------------------------------------------------------------------
  // SMA and EMA
  // ---------------------------------------------------------------------------

  function Sum(xs: seq<real>): real {
    if xs == [] then 0.0 else Sum(xs[..|xs| - 1]) + xs[|xs| - 1]
  }

  /** `Series.mean()`; None stands for the NaN of an empty series. */
  function Mean(xs: seq<real>): (r: Option<real>)
    ensures r.None? <==> xs == []
  {
    if xs == [] then None else Some(Sum(xs) / |xs| as real)
  }

  ghost predicate Within(xs: seq<real>, lo: real, hi: real) {
    forall i :: 0 <= i < |xs| ==> lo <= xs[i] <= hi
  }

  lemma {:induction false} SumBounds(xs: seq<real>, lo: real, hi: real)
    requires Within(xs, lo, hi)
    ensures |xs| as real * lo <= Sum(xs) <= |xs| as real * hi
  {
    if xs != [] {
      var init := xs[..|xs| - 1];
      var last := xs[|xs| - 1];
      assert Within(init, lo, hi);
      SumBounds(init, lo, hi);
      assert Sum(xs) == Sum(init) + last;
      StepBounds(|init| as real, Sum(init), last, lo, hi);
    }
  }

  /** Adding one value in [lo, hi] to a sum of n values in [n*lo, n*hi]. */
  lemma StepBounds(n: real, sum: real, x: real, lo: real, hi: real)
    requires n * lo <= sum <= n * hi && lo <= x <= hi
    ensures (n + 1.0) * lo <= sum + x <= (n + 1.0) * hi
  {
  }

  /** The mean of values in [lo, hi] lies in [lo, hi]. */
  lemma MeanBounds(xs: seq<real>, lo: real, hi: real)
    requires xs != [] && Within(xs, lo, hi)
    ensures lo <= Mean(xs).value <= hi
  {
    SumBounds(xs, lo, hi);
    var n := |xs| as real;
    assert Mean(xs).value == Sum(xs) / n;
    assert n * lo / n == lo && n * hi / n == hi;
  }

  /** `ewm(span, adjust=False)` smoothing factor. */
  function Alpha(span: int): (a: real)
    requires span >= 1
    ensures 0.0 < a <= 1.0
  {
    2.0 / (span as real + 1.0)
  }

  /** The last value of y0 = x0, yi = a*xi + (1 - a)*y(i-1). */
  function Ewm(xs: seq<real>, alpha: real): real
    requires |xs| > 0
    decreases |xs|
  {
    if |xs| == 1 then xs[0]
    else alpha * xs[|xs| - 1] + (1.0 - alpha) * Ewm(xs[..|xs| - 1], alpha)
  }

  lemma Convex(alpha: real, x: real, y: real, lo: real, hi: real)
    requires 0.0 < alpha <= 1.0 && lo <= x <= hi && lo <= y <= hi
    ensures lo <= alpha * x + (1.0 - alpha) * y <= hi
  {
    var b := 1.0 - alpha;
    MulNonneg(alpha, x - lo);
    MulNonneg(alpha, hi - x);
    MulNonneg(b, y - lo);
    MulNonneg(b, hi - y);
    assert alpha * (x - lo) + b * (y - lo) == alpha * x + b * y - lo;
    assert alpha * (hi - x) + b * (hi - y) == hi - (alpha * x + b * y);
  }

  lemma MulNonneg(a: real, b: real)
    requires a >= 0.0 && b >= 0.0
    ensures a * b >= 0.0
  {
  }

  /** An exponential average of values in [lo, hi] lies in [lo, hi]. */
  lemma {:induction false} EwmBounds(xs: seq<real>, alpha: real, lo: real, hi: real)
    requires |xs| > 0 && 0.0 < alpha <= 1.0 && Within(xs, lo, hi)
    ensures lo <= Ewm(xs, alpha) <= hi
    decreases |xs|
  {
    if |xs| > 1 {
      EwmBounds(xs[..|xs| - 1], alpha, lo, hi);
      Convex(alpha, xs[|xs| - 1], Ewm(xs[..|xs| - 1], alpha), lo, hi);
    }
  }

  /** `sma`: the mean of the history; None (NaN) only when the history is empty. */
  function SmaValue(rows: seq<Row>, symbol: string, d: int, window: int): (r: Option<real>)
    ensures r.None? <==> History(rows, symbol, d, window) == []
  {
    Mean(History(rows, symbol, d, window))
  }

  /** `ema`: pandas refuses a span below 1 (ValueError); an empty history has no last value
      (IndexError); otherwise the exponential average over the trailing window only. */
  function EmaValue(rows: seq<Row>, symbol: string, d: int, window: int): (r: Result<real>)
    ensures window < 1 ==> r == Err(ValueError)
    ensures window >= 1 ==> (r.Err? <==> History(rows, symbol, d, window) == [])
    ensures r.Err? && window >= 1 ==> r.error == IndexError
  {
    if window < 1 then Err(ValueError)
    else
      var h := History(rows, symbol, d, window);
      if h == [] then Err(IndexError) else Ok(Ewm(h, Alpha(window)))
  }

  /** Both averages stay within the range of the closes they are computed from. */
  lemma AveragesWithinRange(rows: seq<Row>, symbol: string, d: int, window: int, lo: real, hi: real)
    requires Within(History(rows, symbol, d, window), lo, hi)
    ensures SmaValue(rows, symbol, d, window).Some? ==> lo <= SmaValue(rows, symbol, d, window).value <= hi
    ensures EmaValue(rows, symbol, d, window).Ok? ==> lo <= EmaValue(rows, symbol, d, window).value <= hi
  {
    var h := History(rows, symbol, d, window);
    if h != [] {
      MeanBounds(h, lo, hi);
      if window >= 1 {
        EwmBounds(h, Alpha(window), lo, hi);
      }
    }
  }

  /** A custom indicator, called through `__getattr__`: the function applied to the history
      (never cached). */
  function CustomValue(rows: seq<Row>, fn: seq<real> -> real, symbol: string, d: int, window: int): real {
    fn(History(rows, symbol, d, window))
  }

  /** Causality for the indicators: inserting rows of other symbols or of later dates anywhere
      changes neither the SMA, the EMA nor any custom indicator at `d`. */
  lemma IndicatorsIgnoreIrrelevantRows(pre: seq<Row>, extra: seq<Row>, post: seq<Row>, symbol: string, d: int, window: int)
    requires forall x :: x in extra ==> x.instrument != symbol || x.date > d
    ensures SmaValue(pre + extra + post, symbol, d, window) == SmaValue(pre + post, symbol, d, window)
    ensures EmaValue(pre + extra + post, symbol, d, window) == EmaValue(pre + post, symbol, d, window)
    ensures forall fn: seq<real> -> real ::
      CustomValue(pre + extra + post, fn, symbol, d, window) == CustomValue(pre + post, fn, symbol, d, window)
  {
    HistoryIgnoresIrrelevantRows(pre, extra, post, symbol, d, window);
  }

  // ---------------------------------------------------------------------------
  // The cache and the name registry
  // ---------------------------------------------------------------------------

  datatype Kind = SmaKind | EmaKind

  /** `(kind, symbol, date, window)`: every parameter that affects the value. */
  datatype CacheKey = CacheKey(kind: Kind, symbol: string, date: int, window: int)

  /** Every cached value is what computing it afresh from `rows` gives (an SMA may be NaN, shown
      as None; an EMA is cached only when it was computed). */
  ghost predicate CacheSound(rows: seq<Row>, cache: map<CacheKey, Option<real>>) {
    forall k :: k in cache ==>
      match k.kind
      case SmaKind => cache[k] == SmaValue(rows, k.symbol, k.date, k.window)
      case EmaKind =>
        var e := EmaValue(rows, k.symbol, k.date, k.window);
        e.Ok? && cache[k] == Some(e.value)
  }

  /** Storing a freshly computed value keeps the cache sound. */
  lemma CacheStore(rows: seq<Row>, cache: map<CacheKey, Option<real>>, k: CacheKey, v: Option<real>)
    requires CacheSound(rows, cache)
    requires k.kind == SmaKind ==> v == SmaValue(rows, k.symbol, k.date, k.window)
    requires k.kind == EmaKind ==> EmaValue(rows, k.symbol, k.date, k.window).Ok? && v == Some(EmaValue(rows, k.symbol, k.date, k.window).value)
    ensures CacheSound(rows, cache[k := v])
  {
  }

  function LowerChar(c: char): char {
    if 'A' <= c <= 'Z' then (c as int + 32) as char else c
  }

  function UpperChar(c: char): char {
    if 'a' <= c <= 'z' then (c as int - 32) as char else c
  }

  /** `str.lower()` on ASCII letters. */
  function Lower(s: string): (r: string)
    ensures |r| == |s|
    ensures forall i :: 0 <= i < |s| ==> r[i] == LowerChar(s[i])
  {
    seq(|s|, i requires 0 <= i < |s| => LowerChar(s[i]))
  }

  /** `str.upper()` on ASCII letters. */
  function Upper(s: string): (r: string)
    ensures |r| == |s|
    ensures forall i :: 0 <= i < |s| ==> r[i] == UpperChar(s[i])
  {
    seq(|s|, i requires 0 <= i < |s| => UpperChar(s[i]))
  }

  lemma LowerIdempotent(s: string)
    ensures Lower(Lower(s)) == Lower(s)
  {
  }

  /** The engine's own attributes: those `__init__` sets and the methods its class defines. */
  const EngineAttributes: set<string> :=
    {"loader", "custom", "_cache", "_talib", "__init__", "register", "_get_history", "sma", "ema", "__getattr__"}

  /** The attributes every instance of a Python 3 class gets from `object` and from its class. */
  const ObjectAttributes: set<string> :=
    {"__class__", "__delattr__", "__dict__", "__dir__", "__doc__", "__eq__", "__format__", "__ge__",
     "__getattribute__", "__getstate__", "__gt__", "__hash__", "__init_subclass__", "__le__", "__lt__",
     "__module__", "__ne__", "__new__", "__reduce__", "__reduce_ex__", "__repr__", "__setattr__",
     "__sizeof__", "__str__", "__subclasshook__", "__weakref__"}

  /** Names that ordinary attribute lookup finds on the engine, so `__getattr__` is never consulted for them. */
  const OwnAttributes: set<string> := EngineAttributes + ObjectAttributes

  /** What an attribute name resolves to. */
  datatype Indicator =
    | Builtin(name: string)
    | Custom(fn: seq<real> -> real)
    | TaLib(function_name: string)

  /** Attribute lookup on the engine: its own members first, then the custom registry by the
      lower-cased name, then the TA-Lib function named by the upper-cased name when TA-Lib is
      installed; AttributeError otherwise. */
  function Resolve(custom: map<string, seq<real> -> real>, talib: Option<set<string>>, name: string): (r: Result<Indicator>)
    ensures r.Err? <==> name !in OwnAttributes && Lower(name) !in custom && !(talib.Some? && Upper(name) in talib.value)
    ensures r.Err? ==> r.error == AttributeError
    ensures name in OwnAttributes ==> r == Ok(Builtin(name))
    ensures name !in OwnAttributes && Lower(name) in custom ==> r == Ok(Custom(custom[Lower(name)]))
  {
    if name in OwnAttributes then Ok(Builtin(name))
    else
      var low := Lower(name);
      if low in custom then Ok(Custom(custom[low]))
      else if talib.Some? && Upper(name) in talib.value then Ok(TaLib(Upper(name)))
      else Err(AttributeError)
  }

  /** Registration is case-insensitive: after registering under `name`, any spelling that
      lower-cases the same way (and is not one of the engine's own members) finds the new
      indicator, whatever TA-Lib offers. */
  lemma RegisteredIsFound(custom: map<string, seq<real> -> real>, talib: Option<set<string>>,
                          name: string, fn: seq<real> -> real, alias: string)
    requires Lower(alias) == Lower(name) && alias !in OwnAttributes
    ensures Resolve(custom[Lower(name) := fn], talib, alias) == Ok(Custom(fn))
  {
  }

  class IndicatorEngine {
    const loader: DataLoader
    const talib: Option<set<string>>
    var custom: map<string, seq<real> -> real>
    var cache: map<CacheKey, Option<real>>

    ghost predicate Valid()
      reads this
    {
      loader.Valid() && CacheSound(loader.df, cache)
    }

    /** `talib` is the set of function names TA-Lib exports, or None when it is not installed. */
    constructor (loader: DataLoader, customIndicators: map<string, seq<real> -> real>, talib: Option<set<string>>)
      requires loader.Valid()
      ensures Valid()
      ensures this.loader == loader && this.talib == talib
      ensures custom == customIndicators && cache == map[]
    {
      this.loader := loader;
      this.talib := talib;
      custom := customIndicators;
      cache := map[];
    }

    method Register(name: string, fn: seq<real> -> real)
      requires Valid()
      modifies this
      ensures Valid()
      ensures custom == old(custom)[Lower(name) := fn]
      ensures cache == old(cache)
    {
      custom := custom[Lower(name) := fn];
    }

    function GetHistory(symbol: string, date: int, window: int): seq<real> {
      History(loader.df, symbol, date, window)
    }

    /** The memoised SMA: a repeat call returns the stored value, which is always the value
        computed afresh; the cache only gains this key. */
    method Sma(symbol: string, date: int, window: int) returns (v: Option<real>)
      requires Valid()
      modifies this
      ensures Valid()
      ensures v == SmaValue(loader.df, symbol, date, window)
      ensures CacheKey(SmaKind, symbol, date, window) in old(cache) ==> v == old(cache)[CacheKey(SmaKind, symbol, date, window)]
      ensures cache == old(cache)[CacheKey(SmaKind, symbol, date, window) := v]
      ensures custom == old(custom)
    {
      var key := CacheKey(SmaKind, symbol, date, window);
      if key in cache {
        return cache[key];
      }
      var closes := GetHistory(symbol, date, window);
      v := Mean(closes);
      CacheStore(loader.df, cache, key, v);
      cache := cache[key := v];
    }

    /** The memoised EMA: a repeat call returns the stored value; a failed computation raises
        and caches nothing. */
    method Ema(symbol: string, date: int, window: int) returns (v: Result<real>)
      requires Valid()
      modifies this
      ensures Valid()
      ensures v == EmaValue(loader.df, symbol, date, window)
      ensures CacheKey(EmaKind, symbol, date, window) in old(cache) ==> v == Ok(old(cache)[CacheKey(EmaKind, symbol, date, window)].value)
      ensures cache == if v.Ok? then old(cache)[CacheKey(EmaKind, symbol, date, window) := Some(v.value)] else old(cache)
      ensures custom == old(custom)
    {
      var key := CacheKey(EmaKind, symbol, date, window);
      if key in cache {
        return Ok(cache[key].value);
      }
      if window < 1 {
        return Err(ValueError);  // pandas rejects a span below 1
      }
      var closes := GetHistory(symbol, date, window);
      if closes == [] {
        return Err(IndexError);  // iloc[-1] of an empty series
      }
      var val := Ewm(closes, Alpha(window));
      assert EmaValue(loader.df, symbol, date, window) == Ok(val);
      CacheStore(loader.df, cache, key, Some(val));
      cache := cache[key := Some(val)];
      v := Ok(val);
    }
  }
}
