/** The two indicator passes of services/stockData.ts, which annotate a candle
    array in place: the trailing simple moving average (`calculateSMA`) and the
    VWAP anchored at the first loaded candle (`calculateVWAP`). Each method is
    specified by a function on the sequence of candles; the lemmas state what
    those functions promise. */
module Indicators {
  import opened Seqs
  import opened StockTypes

  // ---------------------------------------------------------------------------
  // Simple moving average

  /** Sum of the closes of `s`. */
  function SumCloses(s: seq<Candle>): real {
    if s == [] then 0.0 else s[0].close + SumCloses(s[1..])
  }

  /** The mean close of the `w` candles ending at index `i`. */
  function TrailingMean(s: seq<Candle>, i: nat, w: nat): real
    requires 1 <= w && w - 1 <= i < |s|
  {
    SumCloses(s[i - w + 1..i + 1]) / w as real
  }

  /** Candle `i` after one `calculateSMA(data, w)` pass: the source computes the
      trailing mean wherever `w - 1` earlier candles exist, but stores it only for
      the windows 50 (in `ma50`) and 200 (in `ma200`). */
  function SmaAt(s: seq<Candle>, w: int, i: nat): Candle
    requires i < |s|
  {
    if i < w - 1 then s[i]
    else if w == 50 then s[i].(ma50 := Some(TrailingMean(s, i, 50)))
    else if w == 200 then s[i].(ma200 := Some(TrailingMean(s, i, 200)))
    else s[i]
  }

  function WithSMA(s: seq<Candle>, w: int): (r: seq<Candle>)
    ensures |r| == |s|
  {
    seq(|s|, i requires 0 <= i < |s| => SmaAt(s, w, i))
  }

  /** `calculateSMA`: for each index with enough history, sum the closes of the
      window by walking back from the index, and store the mean. */
  method CalculateSMA(data: array<Candle>, window: int)
    modifies data
    ensures data[..] == WithSMA(old(data[..]), window)
  {
    ghost var orig := data[..];
    var i := 0;
    while i < data.Length
      invariant 0 <= i <= data.Length
      invariant forall k :: 0 <= k < i ==> data[k] == SmaAt(orig, window, k)
      invariant forall k :: i <= k < data.Length ==> data[k] == orig[k]
    {
      if i < window - 1 {
        i := i + 1;
        continue;
      }
      var sum := 0.0;
      var j := 0;
      while j < window
        invariant 0 <= j <= i + 1
        invariant window >= 0 ==> j <= window
        invariant sum == SumCloses(orig[i - j + 1..i + 1])
      {
        assert data[i - j].close == orig[i - j].close;
        assert orig[i - j..i + 1][1..] == orig[i - j + 1..i + 1];
        sum := sum + data[i - j].close;
        j := j + 1;
      }
      var candle := data[i];
      if window == 50 {
        candle := candle.(ma50 := Some(sum / window as real));
      }
      if window == 200 {
        candle := candle.(ma200 := Some(sum / window as real));
      }
      assert candle == SmaAt(orig, window, i);
      data[i] := candle;
      i := i + 1;
    }
    assert forall k :: 0 <= k < data.Length ==> data[..][k] == WithSMA(orig, window)[k];
  }

  /** What one pass writes: for the windows 50 and 200, index `i` receives the
      trailing mean exactly when `i >= w - 1`, earlier indices keep their
      previous value, and no other field changes; any other window writes
      nothing. */
  lemma SmaWrites(s: seq<Candle>, w: int, i: nat)
    requires i < |s|
    ensures w == 50 ==> WithSMA(s, w)[i].ma50 == (if i >= 49 then Some(TrailingMean(s, i, 50)) else s[i].ma50)
    ensures w == 200 ==> WithSMA(s, w)[i].ma200 == (if i >= 199 then Some(TrailingMean(s, i, 200)) else s[i].ma200)
    ensures WithSMA(s, w)[i].(ma50 := s[i].ma50, ma200 := s[i].ma200) == s[i]
    ensures w != 50 ==> WithSMA(s, w)[i].ma50 == s[i].ma50
    ensures w != 200 ==> WithSMA(s, w)[i].ma200 == s[i].ma200
    ensures w != 50 && w != 200 ==> WithSMA(s, w) == s
  {
  }

  /** The sum of closes depends on nothing but the closes. */
  lemma {:induction false} SumClosesOfSameCloses(s: seq<Candle>, t: seq<Candle>)
    requires |s| == |t|
    requires forall k :: 0 <= k < |s| ==> s[k].close == t[k].close
    ensures SumCloses(s) == SumCloses(t)
  {
    if s != [] {
      SumClosesOfSameCloses(s[1..], t[1..]);
    }
  }

  /** A window of identical closes averages to that close. */
  lemma {:induction false} SumOfConstantCloses(s: seq<Candle>, c: real)
    requires forall k :: 0 <= k < |s| ==> s[k].close == c
    ensures SumCloses(s) == |s| as real * c
  {
    if s != [] {
      SumOfConstantCloses(s[1..], c);
    }
  }

  lemma SmaOfConstantCloses(s: seq<Candle>, w: int, c: real, i: nat)
    requires w == 50 || w == 200
    requires forall k :: 0 <= k < |s| ==> s[k].close == c
    requires w - 1 <= i < |s|
    ensures TrailingMean(s, i, w) == c
  {
    SumOfConstantCloses(s[i - w + 1..i + 1], c);
  }

  /** Running a pass again reproduces the same values: the pass reads only the
      closes, which it never writes. */
  lemma SmaIdempotent(s: seq<Candle>, w: int)
    ensures WithSMA(WithSMA(s, w), w) == WithSMA(s, w)
  {
    var r := WithSMA(s, w);
    forall i | 0 <= i < |s| && w - 1 <= i && (w == 50 || w == 200)
      ensures TrailingMean(r, i, w) == TrailingMean(s, i, w)
    {
      SumClosesOfSameCloses(r[i - w + 1..i + 1], s[i - w + 1..i + 1]);
    }
    assert forall i :: 0 <= i < |s| ==> WithSMA(r, w)[i] == r[i];
  }

  // ---------------------------------------------------------------------------
  // Anchored VWAP

  /** The typical price of a candle, the mean of its high, low and close. */
  function TypicalPrice(c: Candle): real {
    (c.high + c.low + c.close) / 3.0
  }

  /** Sum of typical price times volume over the first `n` candles. */
  function CumulativeTPV(s: seq<Candle>, n: nat): real
    requires n <= |s|
  {
    if n == 0 then 0.0 else CumulativeTPV(s, n - 1) + TypicalPrice(s[n - 1]) * s[n - 1].volume
  }

  /** Sum of the volumes of the first `n` candles. */
  function CumulativeVolume(s: seq<Candle>, n: nat): real
    requires n <= |s|
  {
    if n == 0 then 0.0 else CumulativeVolume(s, n - 1) + s[n - 1].volume
  }

  /** Candle `i` after `calculateVWAP`: it receives the volume-weighted mean of
      the typical prices since the first candle, unless the volume so far is not
      positive, in which case it is left as it was. */
  function VwapAt(s: seq<Candle>, i: nat): Candle
    requires i < |s|
  {
    var volume := CumulativeVolume(s, i + 1);
    if volume > 0.0 then s[i].(vwap := Some(CumulativeTPV(s, i + 1) / volume)) else s[i]
  }

  function WithVWAP(s: seq<Candle>): (r: seq<Candle>)
    ensures |r| == |s|
  {
    seq(|s|, i requires 0 <= i < |s| => VwapAt(s, i))
  }

  /** `calculateVWAP`: one pass with the two running accumulators. */
  method CalculateVWAP(data: array<Candle>)
    modifies data
    ensures data[..] == WithVWAP(old(data[..]))
  {
    ghost var orig := data[..];
    var cumulativeTPV := 0.0;
    var cumulativeVolume := 0.0;
    var i := 0;
    while i < data.Length
      invariant 0 <= i <= data.Length
      invariant cumulativeTPV == CumulativeTPV(orig, i)
      invariant cumulativeVolume == CumulativeVolume(orig, i)
      invariant forall k :: 0 <= k < i ==> data[k] == VwapAt(orig, k)
      invariant forall k :: i <= k < data.Length ==> data[k] == orig[k]
    {
      var typicalPrice := (data[i].high + data[i].low + data[i].close) / 3.0;
      var volume := data[i].volume;
      cumulativeTPV := cumulativeTPV + typicalPrice * volume;
      cumulativeVolume := cumulativeVolume + volume;
      if cumulativeVolume > 0.0 {
        data[i] := data[i].(vwap := Some(cumulativeTPV / cumulativeVolume));
      }
      i := i + 1;
    }
    assert forall k :: 0 <= k < data.Length ==> data[..][k] == WithVWAP(orig)[k];
  }

  /** What the pass writes: index `i` receives the running VWAP exactly when the
      cumulative volume up to and including it is positive, and nothing but the
      `vwap` field ever changes. */
  lemma VwapWrites(s: seq<Candle>, i: nat)
    requires i < |s|
    ensures CumulativeVolume(s, i + 1) > 0.0 ==>
      WithVWAP(s)[i].vwap == Some(CumulativeTPV(s, i + 1) / CumulativeVolume(s, i + 1))
    ensures CumulativeVolume(s, i + 1) <= 0.0 ==> WithVWAP(s)[i] == s[i]
    ensures WithVWAP(s)[i].(vwap := s[i].vwap) == s[i]
  {
  }

  /** When every candle trades at a single price `p`, each accumulated
      typical-price-times-volume is `p` times the accumulated volume. */
  lemma {:induction false} CumulativeAtSinglePrice(s: seq<Candle>, p: real, n: nat)
    requires n <= |s|
    requires forall k :: 0 <= k < |s| ==> s[k].high == p && s[k].low == p && s[k].close == p
    ensures CumulativeTPV(s, n) == p * CumulativeVolume(s, n)
  {
    if n > 0 {
      CumulativeAtSinglePrice(s, p, n - 1);
      assert TypicalPrice(s[n - 1]) == p;
    }
  }

  /** If every candle has high = low = close = `p`, every VWAP written is `p`. */
  lemma VwapAtSinglePrice(s: seq<Candle>, p: real, i: nat)
    requires i < |s|
    requires forall k :: 0 <= k < |s| ==> s[k].high == p && s[k].low == p && s[k].close == p
    requires CumulativeVolume(s, i + 1) > 0.0
    ensures WithVWAP(s)[i].vwap == Some(p)
  {
    CumulativeAtSinglePrice(s, p, i + 1);
    var v := CumulativeVolume(s, i + 1);
    assert CumulativeTPV(s, i + 1) == p * v;
    assert (p * v) / v == p;
    assert WithVWAP(s)[i] == VwapAt(s, i);
  }

  /** A leading run of candles without volume accumulates nothing. */
  lemma {:induction false} CumulativeOverZeroVolume(s: seq<Candle>, m: nat)
    requires m <= |s|
    requires forall k :: 0 <= k < m ==> s[k].volume == 0.0
    ensures CumulativeVolume(s, m) == 0.0 && CumulativeTPV(s, m) == 0.0
  {
    if m > 0 {
      CumulativeOverZeroVolume(s, m - 1);
    }
  }

  /** A leading run of zero-volume candles gets no VWAP, and the first candle
      with positive volume after it gets its own typical price. */
  lemma VwapAfterZeroVolume(s: seq<Candle>, m: nat)
    requires m <= |s|
    requires forall k :: 0 <= k < m ==> s[k].volume == 0.0
    ensures forall k :: 0 <= k < m ==> WithVWAP(s)[k] == s[k]
    ensures m < |s| && s[m].volume > 0.0 ==> WithVWAP(s)[m].vwap == Some(TypicalPrice(s[m]))
  {
    forall k | 0 <= k < m ensures WithVWAP(s)[k] == s[k] {
      CumulativeOverZeroVolume(s, k + 1);
    }
    CumulativeOverZeroVolume(s, m);
    if m < |s| && s[m].volume > 0.0 {
      var v := s[m].volume;
      assert CumulativeVolume(s, m + 1) == v;
      assert CumulativeTPV(s, m + 1) == TypicalPrice(s[m]) * v;
      assert (TypicalPrice(s[m]) * v) / v == TypicalPrice(s[m]);
    }
  }

  /** The accumulators read only high, low, close and volume. */
  lemma {:induction false} CumulativeOfSameMarket(s: seq<Candle>, t: seq<Candle>, n: nat)
    requires n <= |s| == |t|
    requires forall k :: 0 <= k < |s| ==>
      s[k].high == t[k].high && s[k].low == t[k].low && s[k].close == t[k].close && s[k].volume == t[k].volume
    ensures CumulativeTPV(s, n) == CumulativeTPV(t, n) && CumulativeVolume(s, n) == CumulativeVolume(t, n)
  {
    if n > 0 {
      CumulativeOfSameMarket(s, t, n - 1);
      assert TypicalPrice(s[n - 1]) == TypicalPrice(t[n - 1]);
    }
  }

  /** Annotating an already annotated series reproduces the same VWAP values. */
  lemma VwapIdempotent(s: seq<Candle>)
    ensures WithVWAP(WithVWAP(s)) == WithVWAP(s)
  {
    var r := WithVWAP(s);
    forall i | 0 <= i < |s| ensures WithVWAP(r)[i] == r[i] {
      CumulativeOfSameMarket(r, s, i + 1);
    }
  }

  /** The two annotators are independent: running them in either order gives
      the same series. */
  lemma SmaVwapCommute(s: seq<Candle>, w: int)
    ensures WithVWAP(WithSMA(s, w)) == WithSMA(WithVWAP(s), w)
  {
    var a := WithSMA(s, w);
    var b := WithVWAP(s);
    forall i | 0 <= i < |s| ensures WithVWAP(a)[i] == WithSMA(b, w)[i] {
      CumulativeOfSameMarket(a, s, i + 1);
      if w - 1 <= i && (w == 50 || w == 200) {
        assert forall k :: 0 <= k < |s| ==> b[k].close == s[k].close;
        SumClosesOfSameCloses(b[i - w + 1..i + 1], s[i - w + 1..i + 1]);
      }
    }
  }
}
