/** Splitting the symbol list into one chunk per worker process
    (`MultiSession._make_symbol_chunks`, TradeReplay/multi_session.py). */
module Sharding {
  import opened Wrappers

  /** `math.ceil(a / b)` over the exact quotient. */
  function CeilDiv(a: nat, b: int): (r: int)
    requires b != 0
    ensures b > 0 ==> (r - 1) * b < a <= r * b
    ensures b < 0 ==> r * b <= a < (r - 1) * b
  {
    if b > 0 then
      CeilDivPositive(a, b);
      (a + b - 1) / b
    else
      CeilDivNegative(a, -b);
      -(a / -b)
  }

  /** The ceiling of a / b for b > 0, as integer division rounding up. */
  lemma CeilDivPositive(a: nat, b: int)
    requires b > 0
    ensures var q := (a + b - 1) / b;
      (q - 1) * b < a <= q * b
  {
    var q := (a + b - 1) / b;
    assert q * b <= a + b - 1 < q * b + b;
    assert (q - 1) * b == q * b - b;
  }

  /** The ceiling of a / -m for m > 0 is minus the floor of a / m. */
  lemma CeilDivNegative(a: nat, m: int)
    requires m > 0
    ensures var r := -(a / m);
      r * -m <= a < (r - 1) * -m
  {
    var f := a / m;
    assert f * m <= a < f * m + m;
    assert -f * -m == f * m;
    assert (-f - 1) * -m == f * m + m;
  }

  /** The sign of the chunk size: for a positive divisor it is zero exactly for an empty list and
      positive otherwise; for a negative one it is never positive, and zero exactly when the
      list is shorter than the divisor's magnitude. */
  lemma CeilDivSign(a: nat, b: int)
    requires b != 0
    ensures b > 0 ==> CeilDiv(a, b) >= 0 && (CeilDiv(a, b) == 0 <==> a == 0)
    ensures b < 0 ==> CeilDiv(a, b) <= 0 && (CeilDiv(a, b) == 0 <==> a < -b)
  {
    var r := CeilDiv(a, b);
    if b > 0 {
      if r < 0 {
        MulLe(r, -1, b);
      } else if r == 0 {
        assert r * b == 0;
      } else if a == 0 {
        MulLe(1, r - 1 + 1, b);
      }
    } else {
      var m := -b;
      assert r == -(a / m);
      if a < m {
        assert a / m == 0;
      } else {
        assert a / m >= 1;
      }
    }
  }

  /** Python's `xs[i:j]` for non-negative bounds: both ends clipped to the length, empty when
      `j <= i`. */
  function PySlice<T>(xs: seq<T>, i: nat, j: nat): (r: seq<T>)
    ensures i <= j <= |xs| ==> r == xs[i..j]
    ensures i <= |xs| < j ==> r == xs[i..]
    ensures |xs| <= i || j <= i ==> r == []
  {
    var lo := Min(i, |xs|);
    var hi := if j < lo then lo else Min(j, |xs|);
    xs[lo..hi]
  }

  /** `_make_symbol_chunks(n_procs)`: chunks of `ceil(len(symbols) / n_procs)` symbols, one per
      start index in `range(0, len(symbols), chunk_size)`. A zero `n_procs` divides by zero; a
      zero chunk size is a zero range step (ValueError); a negative one is an empty range. */
  function MakeSymbolChunks(symbols: seq<string>, nProcs: int): (r: Result<seq<seq<string>>>)
    ensures r == Err(ZeroDivisionError) <==> nProcs == 0
    ensures r == Err(ValueError) <==>
      || (nProcs > 0 && symbols == [])
      || (nProcs < 0 && |symbols| < -nProcs)
    ensures r == Ok([]) <==> nProcs < 0 && |symbols| >= -nProcs
  {
    if nProcs == 0 then Err(ZeroDivisionError)
    else
      var size := CeilDiv(|symbols|, nProcs);
      CeilDivSign(|symbols|, nProcs);
      if size == 0 then Err(ValueError)
      else if size < 0 then Ok([])
      else
        var count := CeilDiv(|symbols|, size);
        CeilDivSign(|symbols|, size);
        Ok(seq(count, k requires 0 <= k < count => PySlice(symbols, k * size, k * size + size)))
  }

  /** The chunks laid end to end. */
  function Concat<T>(ss: seq<seq<T>>): seq<T> {
    if ss == [] then [] else Concat(ss[..|ss| - 1]) + ss[|ss| - 1]
  }

  lemma MulLe(a: int, b: int, c: int)
    requires a <= b && c >= 0
    ensures a * c <= b * c
  {
  }

  /** With a positive worker count and at least one symbol the chunk size is positive. */
  lemma ChunkSizePositive(symbols: seq<string>, nProcs: int)
    requires nProcs > 0 && symbols != []
    ensures CeilDiv(|symbols|, nProcs) > 0
  {
    var size := CeilDiv(|symbols|, nProcs);
    if size <= 0 {
      MulLe(size, 0, nProcs);
    }
  }

  /** The k-th chunk starts at k * size, strictly inside the list. */
  lemma ChunkStart(n: nat, size: int, k: int)
    requires size > 0 && 0 <= k < CeilDiv(n, size)
    ensures 0 <= k * size < n
    ensures k < CeilDiv(n, size) - 1 ==> k * size + size < n
  {
    var count := CeilDiv(n, size);
    MulLe(k, count - 1, size);
    MulLe(0, k, size);
    if k < count - 1 {
      MulLe(k + 1, count - 1, size);
    }
  }

  lemma ChunkAt(symbols: seq<string>, size: int, k: int)
    requires size > 0 && 0 <= k < CeilDiv(|symbols|, size)
    ensures var c := PySlice(symbols, k * size, k * size + size);
      c != [] && (k < CeilDiv(|symbols|, size) - 1 ==> |c| == size)
  {
    ChunkStart(|symbols|, size, k);
  }

  /** Concatenating the chunks gives back the symbol list, in order. */
  lemma ChunksConcat(symbols: seq<string>, nProcs: int)
    requires nProcs > 0 && symbols != []
    ensures MakeSymbolChunks(symbols, nProcs).Ok?
    ensures Concat(MakeSymbolChunks(symbols, nProcs).value) == symbols
  {
    ChunkSizePositive(symbols, nProcs);
    var size := CeilDiv(|symbols|, nProcs);
    ConcatSlices(symbols, size, MakeSymbolChunks(symbols, nProcs).value);
  }

  /** Slices of `size` symbols starting at 0, size, 2 * size, ... cover the list exactly. */
  lemma {:induction false} ConcatSlices(symbols: seq<string>, size: int, chunks: seq<seq<string>>)
    requires size > 0 && |chunks| == CeilDiv(|symbols|, size)
    requires forall k :: 0 <= k < |chunks| ==> chunks[k] == PySlice(symbols, k * size, k * size + size)
    ensures Concat(chunks) == symbols
  {
    var count := |chunks|;
    var j := 0;
    while j < count
      invariant 0 <= j <= count
      invariant Concat(chunks[..j]) == symbols[..Min(j * size, |symbols|)]
    {
      ChunkStart(|symbols|, size, j);
      ConcatStep(symbols, size, chunks, j);
      j := j + 1;
    }
    assert chunks[..count] == chunks;
    assert (count - 1) * size < |symbols| <= count * size;
  }

  /** Appending the chunk that starts at j * size extends the covered prefix by that chunk. */
  lemma ConcatStep(symbols: seq<string>, size: int, chunks: seq<seq<string>>, j: int)
    requires size > 0 && 0 <= j < |chunks| && 0 <= j * size < |symbols|
    requires chunks[j] == PySlice(symbols, j * size, j * size + size)
    requires Concat(chunks[..j]) == symbols[..Min(j * size, |symbols|)]
    ensures Concat(chunks[..j + 1]) == symbols[..Min((j + 1) * size, |symbols|)]
  {
    assert chunks[..j + 1][..j] == chunks[..j];
    assert (j + 1) * size == j * size + size;
    assert symbols[..Min((j + 1) * size, |symbols|)] == symbols[..j * size] + chunks[j];
  }

  /** Every chunk is non-empty, every chunk but the last holds exactly `chunk_size` symbols, and
      there are at most `n_procs` chunks. */
  lemma ChunksShape(symbols: seq<string>, nProcs: int)
    requires nProcs > 0 && symbols != []
    ensures var chunks := MakeSymbolChunks(symbols, nProcs).value;
      && 0 < |chunks| <= nProcs
      && (forall k :: 0 <= k < |chunks| ==> chunks[k] != [])
      && (forall k :: 0 <= k < |chunks| - 1 ==> |chunks[k]| == CeilDiv(|symbols|, nProcs))
  {
    ChunkSizePositive(symbols, nProcs);
    var size := CeilDiv(|symbols|, nProcs);
    var chunks := MakeSymbolChunks(symbols, nProcs).value;
    var count := |chunks|;
    forall k | 0 <= k < count ensures chunks[k] != [] && (k < count - 1 ==> |chunks[k]| == size) {
      ChunkAt(symbols, size, k);
    }
    ChunkCount(|symbols|, nProcs, size);
  }

  /** ceil(n / ceil(n / p)) <= p. */
  lemma ChunkCount(n: nat, nProcs: int, size: int)
    requires nProcs > 0 && size > 0 && size == CeilDiv(n, nProcs)
    ensures CeilDiv(n, size) <= nProcs
  {
    var count := CeilDiv(n, size);
    if count > nProcs {
      MulLe(nProcs, count - 1, size);
    }
  }
}
