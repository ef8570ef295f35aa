/** The metric arithmetic of `fetch_asset_data`: from the closing prices the
    provider returns, in date order, the latest price, the change against the
    previous close in percent and the mean of the last seven closes. */
module PriceMetrics {
  import opened Models

  /** `iloc[-7:]`: how many of the most recent closes the average uses. */
  const AverageWindow := 7

  /** The dictionary `fetch_asset_data` returns. */
  datatype MetricData = MetricData(
    symbol: string,
    latestPrice: real,
    changePercent24h: real,
    averagePrice7d: real)

  /** Python's `round(x, 2)` on the exact value: to the nearest multiple of
      0.01, ties to the even multiple. */
  function Round2(x: real): (r: real)
    ensures -1.0 / 200.0 <= r - x <= 1.0 / 200.0
  {
    var y := x * 100.0;
    var f := y.Floor;
    var frac := y - f as real;
    var n := if frac < 0.5 then f
             else if frac > 0.5 then f + 1
             else if f % 2 == 0 then f else f + 1;
    n as real / 100.0
  }

  /** A value already at two decimals is left alone, so rounding twice is rounding once. */
  lemma Round2Idempotent(x: real)
    ensures Round2(Round2(x)) == Round2(x)
  {
    var y := x * 100.0;
    var f := y.Floor;
    var frac := y - f as real;
    var n := if frac < 0.5 then f
             else if frac > 0.5 then f + 1
             else if f % 2 == 0 then f else f + 1;
    assert Round2(x) == n as real / 100.0;
    assert (n as real / 100.0) * 100.0 == n as real;
    assert (n as real).Floor == n;
  }

  /** The rounded value is a whole number of hundredths, and an exact tie
      goes to the even one. */
  lemma Round2Hundredths(x: real)
    ensures (Round2(x) * 100.0).Floor as real == Round2(x) * 100.0
    ensures x * 100.0 - (x * 100.0).Floor as real == 0.5 ==> (Round2(x) * 100.0).Floor % 2 == 0
  {
    var y := x * 100.0;
    var f := y.Floor;
    var frac := y - f as real;
    var n := if frac < 0.5 then f
             else if frac > 0.5 then f + 1
             else if f % 2 == 0 then f else f + 1;
    assert Round2(x) == n as real / 100.0;
    assert (n as real / 100.0) * 100.0 == n as real;
    assert (n as real).Floor == n;
  }

  function Abs(a: real): real {
    if a < 0.0 then -a else a
  }

  /** Rounding `y` up from a fraction of at least a half, or down from at most
      a half, lands on a nearest whole number. */
  lemma NearestWhole(y: real, n: int, k: int)
    requires y.Floor <= n <= y.Floor + 1
    requires n == y.Floor ==> y - y.Floor as real <= 0.5
    requires n == y.Floor + 1 ==> y - y.Floor as real >= 0.5
    ensures Abs(n as real - y) <= Abs(k as real - y)
  {
    var f := y.Floor;
    assert f as real <= y < f as real + 1.0;
    if k <= f {
      assert k as real <= f as real;
    } else {
      assert k as real >= f as real + 1.0;
    }
  }

  /** No whole number of hundredths is nearer to `x` than the rounded value. */
  lemma Round2Nearest(x: real, k: int)
    ensures Abs(Round2(x) - x) <= Abs(k as real / 100.0 - x)
  {
    var y := x * 100.0;
    var f := y.Floor;
    var frac := y - f as real;
    var n := if frac < 0.5 then f
             else if frac > 0.5 then f + 1
             else if f % 2 == 0 then f else f + 1;
    NearestWhole(y, n, k);
    assert Round2(x) - x == (n as real - y) / 100.0;
    assert k as real / 100.0 - x == (k as real - y) / 100.0;
  }

  function Sum(s: seq<real>): real {
    if s == [] then 0.0 else s[0] + Sum(s[1..])
  }

  function Min(s: seq<real>): (m: real)
    requires |s| > 0
    ensures m in s && forall i :: 0 <= i < |s| ==> m <= s[i]
  {
    if |s| == 1 then s[0]
    else var r := Min(s[1..]); if s[0] <= r then s[0] else r
  }

  function Max(s: seq<real>): (m: real)
    requires |s| > 0
    ensures m in s && forall i :: 0 <= i < |s| ==> s[i] <= m
  {
    if |s| == 1 then s[0]
    else var r := Max(s[1..]); if s[0] >= r then s[0] else r
  }

  lemma AddOne(n: real, x: real)
    ensures (n + 1.0) * x == n * x + x
  {
  }

  /** The sum of `n` values lies between `n` times the smallest and `n` times the largest. */
  lemma {:induction false} SumBetween(s: seq<real>, lo: real, hi: real)
    requires forall i :: 0 <= i < |s| ==> lo <= s[i] <= hi
    ensures |s| as real * lo <= Sum(s) <= |s| as real * hi
  {
    if s != [] {
      var t := s[1..];
      assert forall i :: 0 <= i < |t| ==> lo <= t[i] <= hi by {
        forall i | 0 <= i < |t| ensures lo <= t[i] <= hi {
          assert t[i] == s[i + 1];
        }
      }
      SumBetween(t, lo, hi);
      var n := |t| as real;
      var rest := Sum(t);
      assert n * lo <= rest <= n * hi;
      assert Sum(s) == s[0] + rest;
      var m := |s| as real;
      assert m == n + 1.0;
      AddOne(n, lo);
      AddOne(n, hi);
      assert m * lo == n * lo + lo;
      assert m * hi == n * hi + hi;
    }
  }

  /** Dividing a bound on `n * b` by a positive `n`. */
  lemma DivideBounds(a: real, n: real, lo: real, hi: real)
    requires n > 0.0 && n * lo <= a <= n * hi
    ensures lo <= a / n <= hi
  {
    assert (a / n) * n == a;
  }

  function Mean(s: seq<real>): real
    requires |s| > 0
  {
    Sum(s) / |s| as real
  }

  /** A mean of values within bounds is within the same bounds. */
  lemma MeanBetween(s: seq<real>, lo: real, hi: real)
    requires |s| > 0
    requires forall i :: 0 <= i < |s| ==> lo <= s[i] <= hi
    ensures lo <= Mean(s) <= hi
  {
    SumBetween(s, lo, hi);
    DivideBounds(Sum(s), |s| as real, lo, hi);
  }

  /** An arithmetic mean lies between the smallest and the largest value. */
  lemma MeanBetweenMinAndMax(s: seq<real>)
    requires |s| > 0
    ensures Min(s) <= Mean(s) <= Max(s)
  {
    MeanBetween(s, Min(s), Max(s));
  }

  /** The most recent `min(7, |prices|)` closes. */
  function LastPrices(prices: seq<real>): (w: seq<real>)
    ensures |w| == if |prices| < AverageWindow then |prices| else AverageWindow
    ensures w == prices[|prices| - |w|..]
  {
    if |prices| < AverageWindow then prices else prices[|prices| - AverageWindow..]
  }

  /** `fetch_asset_data` divides by the previous close without a guard; with floats a
      zero divisor gives inf or nan rather than an exception, which this model
      does not represent, so a zero previous close is excluded. */
  predicate BaselineNonZero(prices: seq<real>) {
    |prices| >= 2 ==> prices[|prices| - 2] != 0.0
  }

  /** The unrounded percentage change between the previous and the latest close. */
  function RelativeChange(prices: seq<real>): real
    requires |prices| >= 2 && BaselineNonZero(prices)
  {
    var last := prices[|prices| - 1];
    var prev := prices[|prices| - 2];
    (last - prev) / prev * 100.0
  }

  /** The arithmetic of `fetch_asset_data`: no rows is "no data"; a single row
      fails on the previous close and the caught error is also "no data". */
  function ComputeMetrics(symbol: string, prices: seq<real>): (r: Option<MetricData>)
    requires BaselineNonZero(prices)
    ensures r.None? <==> |prices| < 2
    ensures r.Some? ==> r.value.symbol == symbol && r.value.latestPrice == prices[|prices| - 1]
  {
    if |prices| == 0 then None
    else if |prices| == 1 then None
    else
      Some(MetricData(
        symbol,
        prices[|prices| - 1],
        Round2(RelativeChange(prices)),
        Round2(Mean(LastPrices(prices)))))
  }

  /** The reported change is the relative difference of the last two closes,
      times 100, within the rounding to two decimals. */
  lemma ChangeIsRelativeDifference(symbol: string, prices: seq<real>)
    requires |prices| >= 2 && BaselineNonZero(prices)
    ensures var last, prev := prices[|prices| - 1], prices[|prices| - 2];
      var c := ComputeMetrics(symbol, prices).value.changePercent24h;
      && c == Round2(RelativeChange(prices))
      && -1.0 / 200.0 <= c - (last - prev) / prev * 100.0 <= 1.0 / 200.0
  {
  }

  /** The reported average lies between the smallest and the largest of the
      last `min(7, n)` closes, up to the rounding to two decimals. */
  lemma AverageWithinRecentRange(symbol: string, prices: seq<real>)
    requires |prices| >= 2 && BaselineNonZero(prices)
    ensures var w := LastPrices(prices);
      var a := ComputeMetrics(symbol, prices).value.averagePrice7d;
      && a == Round2(Mean(w))
      && Min(w) - 1.0 / 200.0 <= a <= Max(w) + 1.0 / 200.0
  {
    MeanBetweenMinAndMax(LastPrices(prices));
  }

  /** Only the last seven closes matter: closes before them change nothing. */
  lemma OnlyRecentPricesMatter(symbol: string, older: seq<real>, recent: seq<real>)
    requires |recent| >= AverageWindow && BaselineNonZero(recent)
    ensures BaselineNonZero(older + recent)
    ensures ComputeMetrics(symbol, older + recent) == ComputeMetrics(symbol, recent)
  {
    var all := older + recent;
    assert all[|all| - 1] == recent[|recent| - 1];
    assert all[|all| - 2] == recent[|recent| - 2];
    assert LastPrices(all) == LastPrices(recent);
  }

  /** With seven closes or fewer, the average is over all of them. */
  lemma ShortSeriesAveragesEverything(symbol: string, prices: seq<real>)
    requires 2 <= |prices| <= AverageWindow && BaselineNonZero(prices)
    ensures ComputeMetrics(symbol, prices).value.averagePrice7d == Round2(Mean(prices))
  {
  }

  /** The fifteen closes of the ingestion test. */
  const TestPrices: seq<real> := [
    48000.0, 49000.0, 49500.0, 50000.0, 50500.0, 51000.0, 50000.0, 49000.0, 48000.0, 50000.0,
    49500.0, 50000.0, 49000.0, 48000.0, 47000.0]

  /** On the test's closes: latest 47000, change -1000/48000*100 = -2.08 after
      rounding, average 341500/7 = 48785.71 after rounding. */
  lemma TestPricesMetrics()
    ensures BaselineNonZero(TestPrices)
    ensures RelativeChange(TestPrices) == -1000.0 / 48000.0 * 100.0
    ensures Mean(LastPrices(TestPrices)) == 341500.0 / 7.0
    ensures ComputeMetrics("BTC-USD", TestPrices)
      == Some(MetricData("BTC-USD", 47000.0, -2.08, 48785.71))
  {
    var w := LastPrices(TestPrices);
    assert w == [48000.0, 50000.0, 49500.0, 50000.0, 49000.0, 48000.0, 47000.0];
    assert Sum(w) == 341500.0 by {
      assert Sum(w[6..]) == 47000.0;
      assert Sum(w[5..]) == 48000.0 + Sum(w[6..]);
      assert Sum(w[4..]) == 49000.0 + Sum(w[5..]);
      assert Sum(w[3..]) == 50000.0 + Sum(w[4..]);
      assert Sum(w[2..]) == 49500.0 + Sum(w[3..]);
      assert Sum(w[1..]) == 50000.0 + Sum(w[2..]);
      assert Sum(w) == 48000.0 + Sum(w[1..]);
    }
    var c := -1000.0 / 48000.0 * 100.0;
    assert (c * 100.0).Floor == -209;
    assert Round2(c) == -2.08;
    var a := 341500.0 / 7.0;
    assert (a * 100.0).Floor == 4878571;
    assert Round2(a) == 48785.71;
  }
}
