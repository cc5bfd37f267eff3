/**
 * The indicator library (`utils/indicadores_tecnicos.py`) over exact real arithmetic. A price series
 * is a `seq<real>` of close values (the data feed never yields NaN). Each indicator returns the last
 * value of its rolling or exponentially weighted series, or `None` when the series is too short, when
 * pandas raises on a bad window or span (caught and turned into `None`), or when that last value is NaN.
 */
module Indicators {
  import opened Wrappers

  const RSI_DEFAULT_PERIOD := 14
  const MACD_DEFAULT_FAST := 12
  const MACD_DEFAULT_SLOW := 26
  const MACD_DEFAULT_SIGNAL := 9
  const BBANDS_DEFAULT_PERIOD := 20
  const BBANDS_DEFAULT_STD_DEV := 2

  function Sum(xs: seq<real>): real {
    if |xs| == 0 then 0.0 else xs[0] + Sum(xs[1..])
  }

  /** The last `n` values: the final window of `series.rolling(window=n)`. */
  function Window(xs: seq<real>, n: nat): seq<real>
    requires n <= |xs|
  {
    xs[|xs| - n..]
  }

  function Mean(xs: seq<real>): real
    requires |xs| > 0
  {
    Sum(xs) / |xs| as real
  }

  predicate Between(xs: seq<real>, lo: real, hi: real) {
    forall i | 0 <= i < |xs| :: lo <= xs[i] <= hi
  }

  // Simple moving average

  /** `calcular_sma(series, periodo)`. */
  function Sma(closes: seq<real>, period: int): (r: Option<real>)
    ensures r.Some? <==> 0 < period <= |closes|
  {
    if |closes| == 0 || |closes| < period then None
    else if period <= 0 then None  // a negative window raises, a zero window gives NaN
    else Some(Sum(Window(closes, period)) / period as real)
  }

  // Relative strength index

  function Gain(d: real): real { if d > 0.0 then d else 0.0 }

  function Loss(d: real): real { if d < 0.0 then -d else 0.0 }

  /** Sum of the positive price changes of `xs` (`delta.where(delta > 0, 0)` summed). */
  function GainSum(xs: seq<real>): (r: real)
    ensures r >= 0.0
  {
    if |xs| < 2 then 0.0 else GainSum(xs[..|xs| - 1]) + Gain(xs[|xs| - 1] - xs[|xs| - 2])
  }

  /** Sum of the magnitudes of the negative price changes of `xs`. */
  function LossSum(xs: seq<real>): (r: real)
    ensures r >= 0.0
  {
    if |xs| < 2 then 0.0 else LossSum(xs[..|xs| - 1]) + Loss(xs[|xs| - 1] - xs[|xs| - 2])
  }

  /** The `period + 1` last closes, whose `period` changes the last rolling window of `diff()` covers. */
  function RsiWindow(closes: seq<real>, period: nat): seq<real>
    requires period < |closes|
  {
    closes[|closes| - period - 1..]
  }

  /**
   * `calcular_rsi(series, periodo)`: `100 - 100 / (1 + avgGain / avgLoss)`. With no losses the IEEE
   * ratio is infinite and the index is 100, unless there are no gains either (0/0 is NaN, so `None`).
   */
  function Rsi(closes: seq<real>, period: int := RSI_DEFAULT_PERIOD): (r: Option<real>)
    ensures r.Some? ==> 0 < period && period + 1 <= |closes|
    ensures r.Some? ==> 0.0 <= r.value <= 100.0
  {
    if |closes| == 0 || |closes| < period + 1 then None
    else if period <= 0 then None  // a negative window raises, a zero window gives NaN
    else
      var w := RsiWindow(closes, period);
      var avgGain := GainSum(w) / period as real;
      var avgLoss := LossSum(w) / period as real;
      if avgLoss == 0.0 then
        if avgGain == 0.0 then None else Some(100.0)
      else
        var rs := avgGain / avgLoss;
        assert rs >= 0.0;
        assert 100.0 / (1.0 + rs) <= 100.0;
        Some(100.0 - 100.0 / (1.0 + rs))
  }

  // Moving average convergence/divergence

  /** The smoothing factor of `ewm(span=span)`. */
  function Alpha(span: int): real
    requires span >= 1
  {
    2.0 / (span as real + 1.0)
  }

  /** Last value of `ewm(alpha, adjust=False).mean()`: `e0 = x0`, `et = alpha * xt + (1 - alpha) * e(t-1)`. */
  function EmaLast(xs: seq<real>, alpha: real): real
    requires |xs| > 0
  {
    if |xs| == 1 then xs[0]
    else alpha * xs[|xs| - 1] + (1.0 - alpha) * EmaLast(xs[..|xs| - 1], alpha)
  }

  /** The MACD line: at each point, the short-span EMA minus the long-span EMA of the closes so far. */
  function MacdLine(closes: seq<real>, short: int, long: int): (line: seq<real>)
    requires short >= 1 && long >= 1
    ensures |line| == |closes|
  {
    seq(|closes|, i requires 0 <= i < |closes| =>
      EmaLast(closes[..i + 1], Alpha(short)) - EmaLast(closes[..i + 1], Alpha(long)))
  }

  /** The dictionary `calcular_macd` returns; its keys are `"macd"`, `"señal"` and `"histograma"`. */
  datatype MacdReading = MacdReading(macd: real, senal: real, histograma: real)

  /** `calcular_macd(series, periodo_corto, periodo_largo, periodo_señal)`. */
  function Macd(closes: seq<real>, short: int := MACD_DEFAULT_FAST, long: int := MACD_DEFAULT_SLOW,
                signal: int := MACD_DEFAULT_SIGNAL): (r: Option<MacdReading>)
    ensures r.Some? <==> |closes| > 0 && |closes| >= long + signal && short >= 1 && long >= 1 && signal >= 1
    ensures r.Some? ==> r.value.histograma == r.value.macd - r.value.senal
  {
    if |closes| == 0 || |closes| < long + signal then None
    else if short < 1 || long < 1 || signal < 1 then None  // ewm raises on a span below 1
    else
      var line := MacdLine(closes, short, long);
      var macd := line[|line| - 1];
      var senal := EmaLast(line, Alpha(signal));
      Some(MacdReading(macd, senal, macd - senal))
  }

  /** `dict.get(key)` on the MACD result. */
  function MacdGet(r: MacdReading, key: string): (v: Option<real>)
    ensures v.Some? <==> key == "macd" || key == "señal" || key == "histograma"
  {
    if key == "macd" then Some(r.macd)
    else if key == "señal" then Some(r.senal)
    else if key == "histograma" then Some(r.histograma)
    else None
  }

  // Bollinger bands

  /** The dictionary `calcular_bandas_bollinger` returns; a NaN entry is `None`. */
  datatype Bands = Bands(media: Option<real>, superior: Option<real>, inferior: Option<real>)

  /** `dict.get(key)` on the Bollinger result. */
  function BandsGet(b: Bands, key: string): (v: Option<real>)
    ensures key == "media" ==> v == b.media
    ensures key == "superior" ==> v == b.superior
    ensures key == "inferior" ==> v == b.inferior
    ensures key != "media" && key != "superior" && key != "inferior" ==> v.None?
  {
    if key == "media" then b.media
    else if key == "superior" then b.superior
    else if key == "inferior" then b.inferior
    else None
  }

  /** `std` is a standard deviation: it is never negative (how it is computed is not modelled). */
  ghost predicate NonNegativeStd(std: seq<real> -> real) {
    forall w: seq<real> :: std(w) >= 0.0
  }

  /**
   * `calcular_bandas_bollinger(series, periodo, num_std_dev)`, with `std` standing for pandas' rolling
   * standard deviation. A one-point window has a NaN deviation, so only its `media` is present; a zero
   * window makes every entry NaN.
   */
  function Bollinger(std: seq<real> -> real, closes: seq<real>, period: int := BBANDS_DEFAULT_PERIOD,
                     numStdDev: int := BBANDS_DEFAULT_STD_DEV): (r: Option<Bands>)
    ensures r.Some? <==> 0 <= period <= |closes| && |closes| > 0
    ensures r.Some? ==> (r.value.superior.Some? <==> period >= 2) && (r.value.inferior.Some? <==> period >= 2)
  {
    if |closes| == 0 || |closes| < period then None
    else if period < 0 then None  // a negative window raises
    else if period == 0 then Some(Bands(None, None, None))
    else
      var w := Window(closes, period);
      var m := Mean(w);
      if period == 1 then Some(Bands(Some(m), None, None))
      else
        var width := std(w) * numStdDev as real;
        Some(Bands(Some(m), Some(m + width), Some(m - width)))
  }

  // Lemmas

  lemma {:induction false} SumBounds(xs: seq<real>, lo: real, hi: real)
    requires Between(xs, lo, hi)
    ensures lo * |xs| as real <= Sum(xs) <= hi * |xs| as real
  {
    if |xs| > 0 {
      SumBounds(xs[1..], lo, hi);
    }
  }

  /** The simple moving average lies within the range of the values of its window. */
  lemma SmaWithinWindow(closes: seq<real>, period: int, lo: real, hi: real)
    requires 0 < period <= |closes| && Between(Window(closes, period), lo, hi)
    ensures lo <= Sma(closes, period).value <= hi
  {
    var w := Window(closes, period);
    SumBounds(w, lo, hi);
    var p := period as real;
    assert lo * p <= Sum(w) <= hi * p;
    assert lo == lo * p / p && hi == hi * p / p;
  }

  /** A window of equal values `v` averages to `v`. */
  lemma SmaConstantWindow(closes: seq<real>, period: int, v: real)
    requires 0 < period <= |closes| && Between(Window(closes, period), v, v)
    ensures Sma(closes, period) == Some(v)
  {
    SmaWithinWindow(closes, period, v, v);
  }

  /** The price changes telescope: total gains minus total losses is the net change. */
  lemma {:induction false} GainsMinusLosses(xs: seq<real>)
    requires |xs| >= 1
    ensures GainSum(xs) - LossSum(xs) == xs[|xs| - 1] - xs[0]
  {
    if |xs| >= 2 {
      var init := xs[..|xs| - 1];
      GainsMinusLosses(init);
      assert init[|init| - 1] == xs[|xs| - 2] && init[0] == xs[0];
    }
  }

  predicate NonDecreasing(xs: seq<real>) {
    forall i | 0 < i < |xs| :: xs[i - 1] <= xs[i]
  }

  predicate NonIncreasing(xs: seq<real>) {
    forall i | 0 < i < |xs| :: xs[i - 1] >= xs[i]
  }

  lemma {:induction false} NoDropNoLoss(xs: seq<real>)
    requires NonDecreasing(xs)
    ensures LossSum(xs) == 0.0
  {
    if |xs| >= 2 {
      NoDropNoLoss(xs[..|xs| - 1]);
    }
  }

  lemma {:induction false} NoRiseNoGain(xs: seq<real>)
    requires NonIncreasing(xs)
    ensures GainSum(xs) == 0.0
  {
    if |xs| >= 2 {
      NoRiseNoGain(xs[..|xs| - 1]);
    }
  }

  /** Only gains over the window (and at least one): the index is 100. */
  lemma RsiOnlyGains(closes: seq<real>, period: int)
    requires 0 < period < |closes|
    requires NonDecreasing(RsiWindow(closes, period))
    requires closes[|closes| - period - 1] < closes[|closes| - 1]
    ensures Rsi(closes, period) == Some(100.0)
  {
    var w := RsiWindow(closes, period);
    NoDropNoLoss(w);
    GainsMinusLosses(w);
  }

  /** Only losses over the window (and at least one): the index is 0. */
  lemma RsiOnlyLosses(closes: seq<real>, period: int)
    requires 0 < period < |closes|
    requires NonIncreasing(RsiWindow(closes, period))
    requires closes[|closes| - period - 1] > closes[|closes| - 1]
    ensures Rsi(closes, period) == Some(0.0)
  {
    var w := RsiWindow(closes, period);
    NoRiseNoGain(w);
    GainsMinusLosses(w);
    var p := period as real;
    assert LossSum(w) / p != 0.0;
    assert GainSum(w) / p / (LossSum(w) / p) == 0.0;
  }

  /** A flat window has no gains and no losses: 0/0 is NaN and the index is `None`. */
  lemma RsiFlatWindow(closes: seq<real>, period: int)
    requires 0 < period < |closes|
    requires NonDecreasing(RsiWindow(closes, period)) && NonIncreasing(RsiWindow(closes, period))
    ensures Rsi(closes, period).None?
  {
    var w := RsiWindow(closes, period);
    NoDropNoLoss(w);
    NoRiseNoGain(w);
  }

  /** The exponential average of a constant series is that constant. */
  lemma {:induction false} EmaConstant(xs: seq<real>, alpha: real, v: real)
    requires |xs| > 0 && Between(xs, v, v)
    ensures EmaLast(xs, alpha) == v
  {
    if |xs| > 1 {
      EmaConstant(xs[..|xs| - 1], alpha, v);
    }
  }

  lemma MulMonotone(a: real, x: real, y: real)
    requires a >= 0.0 && x <= y
    ensures a * x <= a * y
  {
    assert a * y - a * x == a * (y - x);
  }

  lemma AddMonotone(a1: real, a2: real, b1: real, b2: real)
    requires a1 <= a2 && b1 <= b2
    ensures a1 + b1 <= a2 + b2
  {
  }

  /** One smoothing step keeps the average within `[lo, hi]`. */
  lemma ConvexStep(alpha: real, x: real, prev: real, lo: real, hi: real)
    requires 0.0 < alpha <= 1.0 && lo <= x <= hi && lo <= prev <= hi
    ensures lo <= alpha * x + (1.0 - alpha) * prev <= hi
  {
    var beta := 1.0 - alpha;
    MulMonotone(alpha, lo, x);
    MulMonotone(beta, lo, prev);
    assert alpha * lo + beta * lo == lo;
    AddMonotone(alpha * lo, alpha * x, beta * lo, beta * prev);
    MulMonotone(alpha, x, hi);
    MulMonotone(beta, prev, hi);
    assert alpha * hi + beta * hi == hi;
    AddMonotone(alpha * x, alpha * hi, beta * prev, beta * hi);
  }

  /** With a smoothing factor in (0, 1] the exponential average stays within the range of its inputs. */
  lemma {:induction false} EmaWithinRange(xs: seq<real>, alpha: real, lo: real, hi: real)
    requires |xs| > 0 && Between(xs, lo, hi) && 0.0 < alpha <= 1.0
    ensures lo <= EmaLast(xs, alpha) <= hi
  {
    if |xs| > 1 {
      EmaWithinRange(xs[..|xs| - 1], alpha, lo, hi);
      ConvexStep(alpha, xs[|xs| - 1], EmaLast(xs[..|xs| - 1], alpha), lo, hi);
    }
  }

  lemma AlphaInRange(span: int)
    requires span >= 1
    ensures 0.0 < Alpha(span) <= 1.0
  {
  }

  /** A constant series has no convergence or divergence: line, signal and histogram are all 0. */
  lemma MacdConstantSeries(closes: seq<real>, v: real, short: int, long: int, signal: int)
    requires Between(closes, v, v)
    requires Macd(closes, short, long, signal).Some?
    ensures Macd(closes, short, long, signal) == Some(MacdReading(0.0, 0.0, 0.0))
  {
    var line := MacdLine(closes, short, long);
    forall i | 0 <= i < |line| ensures line[i] == 0.0 {
      EmaConstant(closes[..i + 1], Alpha(short), v);
      EmaConstant(closes[..i + 1], Alpha(long), v);
    }
    EmaConstant(line, Alpha(signal), 0.0);
  }

  /** The middle band is the simple moving average of the same period. */
  lemma BollingerMediaIsSma(std: seq<real> -> real, closes: seq<real>, period: int, numStdDev: int)
    requires Bollinger(std, closes, period, numStdDev).Some?
    ensures Bollinger(std, closes, period, numStdDev).value.media == Sma(closes, period)
  {
  }

  /** The bands lie `numStdDev` standard deviations either side of the middle band. */
  lemma BollingerSymmetric(std: seq<real> -> real, closes: seq<real>, period: int, numStdDev: int)
    requires 2 <= period <= |closes|
    ensures var b := Bollinger(std, closes, period, numStdDev).value;
      && b.superior.value - b.media.value == b.media.value - b.inferior.value
      == numStdDev as real * std(Window(closes, period))
  {
  }

  /** With a non-negative deviation and multiplier the lower band never exceeds the upper one. */
  lemma BollingerOrdered(std: seq<real> -> real, closes: seq<real>, period: int, numStdDev: int)
    requires NonNegativeStd(std) && numStdDev >= 0
    requires 2 <= period <= |closes|
    ensures var b := Bollinger(std, closes, period, numStdDev).value;
      b.inferior.value <= b.media.value <= b.superior.value
  {
    BollingerSymmetric(std, closes, period, numStdDev);
    var w := Window(closes, period);
    assert std(w) >= 0.0;
    assert std(w) * numStdDev as real >= 0.0;
  }
}
