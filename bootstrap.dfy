/**
 * `bootstrap_confidence_interval` and `bootstrap_sample_size_cohen_kappa`.
 *
 * The random stream is a parameter.  The sampler's draws come from the
 * chooser of Questionnaire.  Bootstrap iteration number `it` draws rater A's
 * rows with sampler call 2 * it and rater B's rows with call 2 * it + 1.  In
 * the sample-size search, iteration i at grid position g is number
 * Draw(g, i, B), so every iteration of the sweep has its own calls.
 * `make_reliable` is the oracle `reliable`.
 *
 * Each procedure is a loop method proved equal to a function that states the
 * whole computation (ConfidenceInterval, SampleSize).  The properties the
 * procedures promise are lemmas about those functions.
 */
module Bootstrap {
  import opened Results
  import opened Tables
  import opened Questionnaire
  import opened PooledKappa
  import opened Sorting
  import opened Builtins
  import opened Counts

  /** `CIInfo`; the standard deviation is represented by its square, the population variance. */
  datatype CIInfo = CIInfo(mean: real, lowerbound: real, upperbound: real, variance: real)

  /** One row of `power_by_n`. */
  datatype SweepRow = SweepRow(n: int, power: real, upperBoundCi: real, meanKappaH0: real, meanKappaH1: real)

  /** `SSInfo`: the selected sample size, if any, and the rows of the sweep. */
  datatype SSInfo = SSInfo(sampleSize: Option<int>, rows: seq<SweepRow>)

  /** The exceptions the procedures raise. */
  datatype BootstrapError =
    | KappaFailed(cause: KappaError)  // raised inside pooled_cohen_kappa
    | IndexOutOfRange                 // a percentile rank outside the kappa array
    | ZeroStep                        // range() with n_step == 0

  /** `make_reliable(samples_a, samples_b, reliability)` at bootstrap iteration `it`. */
  type Reliable<!V> = (seq<seq<V>>, seq<seq<V>>, real, nat) -> (seq<seq<V>>, seq<seq<V>>)

  /** The statistic each iteration computes from its two response matrices. */
  type Statistic<!V> = (seq<seq<V>>, seq<seq<V>>) -> Result<real, KappaError>

  /** `pooled_cohen_kappa(samples_a, samples_b, weight_type=weight_type, questions=questions)`. */
  function KappaOf<V(==)>(w: Option<string>, qs: seq<Question<V>>): Statistic<V>
  {
    (a: seq<seq<V>>, b: seq<seq<V>>) => PooledCohenKappa(a, b, w, Some(qs))
  }

  // ---------------------------------------------------------------------------
  // One bootstrap iteration.

  /**
   * bootstrap.py, lines 33-36 and 88-91: the kappa of the two matrices that
   * sampler calls 2 * it and 2 * it + 1 draw (the null hypothesis: unrelated raters).
   */
  function NullKappa<V>(qs: seq<Question<V>>, n: int, kappa: Statistic<V>, choose: Chooser<V>, it: nat): Result<real, KappaError>
  {
    kappa(Sampled(qs, n, choose, 2 * it), Sampled(qs, n, choose, 2 * it + 1))
  }

  /**
   * bootstrap.py, lines 93-95: the kappa of the same two matrices after
   * `make_reliable` (the alternative hypothesis).
   */
  function AltKappa<V>(qs: seq<Question<V>>, n: int, kappa: Statistic<V>, rel: real, choose: Chooser<V>,
                      reliable: Reliable<V>, it: nat): Result<real, KappaError>
  {
    var pair := reliable(Sampled(qs, n, choose, 2 * it), Sampled(qs, n, choose, 2 * it + 1), rel, it);
    kappa(pair.0, pair.1)
  }

  /** Whatever two matrices sampler calls 2 * it and 2 * it + 1 draw, the null kappa is their kappa. */
  lemma {:induction false} NullKappaDrawn<V>(qs: seq<Question<V>>, n: int, kappa: Statistic<V>, choose: Chooser<V>, it: nat,
                                            sa: seq<seq<V>>, sb: seq<seq<V>>)
    requires Drawn(sa, qs, n, choose, 2 * it) && Drawn(sb, qs, n, choose, 2 * it + 1)
    ensures NullKappa(qs, n, kappa, choose, it) == kappa(sa, sb)
  {
    SampledOnly(qs, n, choose, 2 * it);
    SampledOnly(qs, n, choose, 2 * it + 1);
  }

  /** Whatever two matrices those calls draw, the alternative kappa is the kappa of `make_reliable` applied to them. */
  lemma {:induction false} AltKappaDrawn<V>(qs: seq<Question<V>>, n: int, kappa: Statistic<V>, rel: real, choose: Chooser<V>,
                                           reliable: Reliable<V>, it: nat, sa: seq<seq<V>>, sb: seq<seq<V>>)
    requires Drawn(sa, qs, n, choose, 2 * it) && Drawn(sb, qs, n, choose, 2 * it + 1)
    ensures AltKappa(qs, n, kappa, rel, choose, reliable, it) == kappa(reliable(sa, sb, rel, it).0, reliable(sa, sb, rel, it).1)
  {
    SampledOnly(qs, n, choose, 2 * it);
    SampledOnly(qs, n, choose, 2 * it + 1);
  }

  /** The kappas of iterations 0 .. k-1 of the confidence-interval loop, or the first exception. */
  function NullKappas<V>(qs: seq<Question<V>>, n: int, kappa: Statistic<V>, choose: Chooser<V>, k: nat): (r: Result<seq<real>, BootstrapError>)
    ensures r.Ok? ==> |r.value| == k
    ensures r.Err? ==> r.error.KappaFailed?
  {
    if k == 0 then Ok([])
    else match NullKappas(qs, n, kappa, choose, k - 1)
      case Err(e) => Err(e)
      case Ok(ks) =>
        match NullKappa(qs, n, kappa, choose, k - 1)
        case Err(e) => Err(KappaFailed(e))
        case Ok(x) => Ok(ks + [x])
  }

  /** The null and alternative kappas of iterations 0 .. k-1 at grid position g, or the first exception. */
  function Trials<V>(qs: seq<Question<V>>, n: int, kappa: Statistic<V>, rel: real, choose: Chooser<V>,
                        reliable: Reliable<V>, g: nat, b: nat, k: nat): (r: Result<(seq<real>, seq<real>), BootstrapError>)
    ensures r.Ok? ==> |r.value.0| == k && |r.value.1| == k
    ensures r.Err? ==> r.error.KappaFailed?
  {
    if k == 0 then Ok(([], []))
    else match Trials(qs, n, kappa, rel, choose, reliable, g, b, k - 1)
      case Err(e) => Err(e)
      case Ok(pair) =>
        match NullKappa(qs, n, kappa, choose, Draw(g, k - 1, b))
        case Err(e) => Err(KappaFailed(e))
        case Ok(x) =>
          match AltKappa(qs, n, kappa, rel, choose, reliable, Draw(g, k - 1, b))
          case Err(e) => Err(KappaFailed(e))
          case Ok(y) => Ok((pair.0 + [x], pair.1 + [y]))
  }

  // ---------------------------------------------------------------------------
  // Statistics over the collected kappas.

  /** The least element. */
  function Least(s: seq<real>): (r: real)
    requires |s| > 0
    ensures r in s
    ensures forall i :: 0 <= i < |s| ==> r <= s[i]
  {
    if |s| == 1 then s[0]
    else
      var m := Least(s[..|s| - 1]);
      assert forall i :: 0 <= i < |s| - 1 ==> s[..|s| - 1][i] == s[i];
      if s[|s| - 1] < m then s[|s| - 1] else m
  }

  /** The greatest element. */
  function Greatest(s: seq<real>): (r: real)
    requires |s| > 0
    ensures r in s
    ensures forall i :: 0 <= i < |s| ==> s[i] <= r
  {
    if |s| == 1 then s[0]
    else
      var m := Greatest(s[..|s| - 1]);
      assert forall i :: 0 <= i < |s| - 1 ==> s[..|s| - 1][i] == s[i];
      if s[|s| - 1] > m then s[|s| - 1] else m
  }

  function Squared(x: real): (r: real)
    ensures r >= 0.0
  {
    x * x
  }

  /** `np.var`: the mean squared deviation from the mean (the square of `np.std`). */
  function Variance(s: seq<real>): (v: real)
    requires |s| > 0
    ensures v >= 0.0
  {
    var m := Mean(s);
    Mean(seq(|s|, i requires 0 <= i < |s| => Squared(s[i] - m)))
  }

  /** The rank int(B * q) of the q-quantile of B sorted values. */
  function Percentile(b: int, q: real): int
  {
    Trunc(Scale(b as real, q))
  }

  /** The rank int(B * alpha / 2) of the lower confidence bound. */
  function LowerRank(b: int, alpha: real): int
  {
    Percentile(b, alpha / 2.0)
  }

  /** The rank int(B * (1 - alpha / 2)) of the upper confidence bound. */
  function UpperRank(b: int, alpha: real): int
  {
    Percentile(b, 1.0 - alpha / 2.0)
  }

  /** The rank int(B * (1 - alpha)) of the one-sided threshold. */
  function ThresholdRank(b: int, alpha: real): int
  {
    Percentile(b, 1.0 - alpha)
  }

  /** bootstrap.py, lines 37-44: sort, take the two percentile ranks, the mean and the spread. */
  function Interval(ks: seq<real>, b: int, alpha: real): (r: Result<CIInfo, BootstrapError>)
    ensures r.Err? ==> r.error == IndexOutOfRange
  {
    var sorted := Sort(ks);
    var lower, upper := Index(sorted, LowerRank(b, alpha)), Index(sorted, UpperRank(b, alpha));
    if lower.None? || upper.None? then Err(IndexOutOfRange)
    else Ok(CIInfo(Mean(sorted), lower.value, upper.value, Variance(sorted)))
  }

  /** The number of alternative kappas strictly above the threshold. */
  function CountAbove(s: seq<real>, t: real): (k: nat)
    ensures k <= |s|
    ensures k == |s| <==> forall i :: 0 <= i < |s| ==> s[i] > t
    ensures k == 0 <==> forall i :: 0 <= i < |s| ==> s[i] <= t
  {
    if |s| == 0 then 0
    else
      var rest := s[..|s| - 1];
      assert forall i :: 0 <= i < |s| - 1 ==> rest[i] == s[i];
      CountAbove(rest, t) + (if s[|s| - 1] > t then 1 else 0)
  }

  /**
   * `np.mean(alternatives > threshold)`: a fraction, 1 exactly when every
   * kappa is above the threshold and 0 exactly when none is.
   */
  function Power(alts: seq<real>, t: real): (p: real)
    requires |alts| > 0
    ensures 0.0 <= p <= 1.0
    ensures p == 1.0 <==> forall i :: 0 <= i < |alts| ==> alts[i] > t
    ensures p == 0.0 <==> forall i :: 0 <= i < |alts| ==> alts[i] <= t
  {
    Fraction(CountAbove(alts, t), |alts|);
    CountAbove(alts, t) as real / |alts| as real
  }

  /** bootstrap.py, lines 97-115: one row of the sweep from the kappas collected at sample size n. */
  function RowOf(n: int, nulls: seq<real>, alts: seq<real>, b: int, alpha: real): (r: Result<SweepRow, BootstrapError>)
    requires |alts| == |nulls|
    ensures r.Err? ==> r.error == IndexOutOfRange
    ensures r.Ok? ==> r.value.n == n && 0.0 <= r.value.power <= 1.0
  {
    var sorted := Sort(nulls);
    var threshold := Index(sorted, ThresholdRank(b, alpha));
    if threshold.None? then Err(IndexOutOfRange)
    else
      Ok(SweepRow(n, Power(alts, threshold.value), threshold.value, Mean(sorted), Mean(alts)))
  }

  // ---------------------------------------------------------------------------
  // The two procedures, as functions.

  /** `bootstrap_confidence_interval(questions, n, weight_type, n_bootstrap, alpha)`. */
  function ConfidenceInterval<V(==)>(qs: seq<Question<V>>, n: int, w: Option<string>, b: int, alpha: real,
                                    choose: Chooser<V>): (r: Result<CIInfo, BootstrapError>)
    ensures r.Err? ==> r.error.KappaFailed? || r.error == IndexOutOfRange
  {
    match NullKappas(qs, n, KappaOf(w, qs), choose, Rows(b))
    case Err(e) => Err(e)
    case Ok(ks) => Interval(ks, b, alpha)
  }

  /** The row of grid position g: its B trials, then the row from their kappas; or the exception raised. */
  function RowAt<V>(qs: seq<Question<V>>, grid: seq<int>, kappa: Statistic<V>, rel: real, b: int, alpha: real,
                       choose: Chooser<V>, reliable: Reliable<V>, g: nat): (r: Result<SweepRow, BootstrapError>)
    requires g < |grid|
    ensures r.Ok? ==> r.value.n == grid[g] && 0.0 <= r.value.power <= 1.0
    ensures r.Err? ==> r.error != ZeroStep
  {
    match Trials(qs, grid[g], kappa, rel, choose, reliable, g, Rows(b), Rows(b))
    case Err(e) => Err(e)
    case Ok(pair) => RowOf(grid[g], pair.0, pair.1, b, alpha)
  }

  /**
   * The results of successive iterations in order: all their values, or the
   * first exception, which ends the loop that produces them.
   */
  function Gather<T>(rs: seq<Result<T, BootstrapError>>): (r: Result<seq<T>, BootstrapError>)
    ensures r.Ok? <==> forall g :: 0 <= g < |rs| ==> rs[g].Ok?
    ensures r.Ok? ==> |r.value| == |rs| && forall g :: 0 <= g < |rs| ==> rs[g] == Ok(r.value[g])
    ensures r.Err? ==> exists g :: 0 <= g < |rs| && rs[g] == Err(r.error) && forall h :: 0 <= h < g ==> rs[h].Ok?
  {
    if |rs| == 0 then Ok([])
    else
      var front := rs[..|rs| - 1];
      assert forall g :: 0 <= g < |front| ==> front[g] == rs[g];
      match Gather(front)
      case Err(e) => Err(e)
      case Ok(vs) =>
        match rs[|rs| - 1]
        case Err(e) => Err(e)
        case Ok(v) => Ok(vs + [v])
  }

  /** What each grid position yields: its row, or the exception raised there. */
  function RowsAt<V>(qs: seq<Question<V>>, grid: seq<int>, kappa: Statistic<V>, rel: real, b: int, alpha: real,
                     choose: Chooser<V>, reliable: Reliable<V>): (rs: seq<Result<SweepRow, BootstrapError>>)
    ensures |rs| == |grid|
    ensures forall g :: 0 <= g < |grid| ==> rs[g] == RowAt(qs, grid, kappa, rel, b, alpha, choose, reliable, g)
  {
    seq(|grid|, g requires 0 <= g < |grid| => RowAt(qs, grid, kappa, rel, b, alpha, choose, reliable, g))
  }

  /** The rows of the whole grid, or the first exception. */
  function Sweep<V>(qs: seq<Question<V>>, grid: seq<int>, kappa: Statistic<V>, rel: real, b: int, alpha: real,
                    choose: Chooser<V>, reliable: Reliable<V>): (r: Result<seq<SweepRow>, BootstrapError>)
    ensures r.Ok? ==> |r.value| == |grid|
    ensures r.Ok? ==> forall g :: 0 <= g < |grid| ==> r.value[g].n == grid[g]
    ensures r.Ok? ==> forall g :: 0 <= g < |grid| ==> 0.0 <= r.value[g].power <= 1.0
    ensures r.Err? ==> r.error != ZeroStep
  {
    var rs := RowsAt(qs, grid, kappa, rel, b, alpha, choose, reliable);
    var r := Gather(rs);
    assert r.Ok? ==> forall g :: 0 <= g < |grid| ==> rs[g] == Ok(r.value[g]);
    r
  }

  /** bootstrap.py, lines 117-123: the least n among the rows whose power reaches beta, if there is one. */
  function Select(rows: seq<SweepRow>, beta: real): (r: Option<int>)
    ensures r.None? <==> forall k :: 0 <= k < |rows| ==> rows[k].power < beta
    ensures r.Some? ==> exists k :: 0 <= k < |rows| && rows[k].power >= beta && rows[k].n == r.value
    ensures r.Some? ==> forall k :: 0 <= k < |rows| && rows[k].power >= beta ==> r.value <= rows[k].n
  {
    if |rows| == 0 then None
    else
      var init, last := rows[..|rows| - 1], rows[|rows| - 1];
      assert forall k :: 0 <= k < |rows| - 1 ==> init[k] == rows[k];
      var rest := Select(init, beta);
      if last.power >= beta && (rest.None? || last.n < rest.value) then Some(last.n) else rest
  }

  /** `bootstrap_sample_size_cohen_kappa(questions, max_n, weight_type, start_n, n_step, reliability, n_bootstrap, alpha, beta)`. */
  function SampleSize<V(==)>(qs: seq<Question<V>>, maxN: int, w: Option<string>, startN: int, nStep: int, rel: real,
                            b: int, alpha: real, beta: real, choose: Chooser<V>, reliable: Reliable<V>): (r: Result<SSInfo, BootstrapError>)
    ensures r == Err(ZeroStep) <==> nStep == 0
  {
    match Range(startN, maxN + 1, nStep)
    case None => Err(ZeroStep)
    case Some(grid) =>
      match Sweep(qs, grid, KappaOf(w, qs), rel, b, alpha, choose, reliable)
      case Err(e) => Err(e)
      case Ok(rows) => Ok(SSInfo(Select(rows, beta), rows))
  }

  // ---------------------------------------------------------------------------
  // Properties.

  /** Quantile ranks are monotone in q and, for 0 <= q < 1, index one of the B values. */
  lemma {:induction false} PercentileMono(b: int, p: real, q: real)
    requires b >= 1 && 0.0 <= p <= q < 1.0
    ensures 0 <= Percentile(b, p) <= Percentile(b, q) < b
  {
    ScaledOrder(b as real, p, q);
    RankOrder(Scale(b as real, p), Scale(b as real, q), b);
  }

  lemma {:induction false} ScaledOrder(n: real, p: real, q: real)
    requires n >= 1.0 && 0.0 <= p <= q < 1.0
    ensures 0.0 <= Scale(n, p) <= Scale(n, q) < n
  {
    assert n * q < n * 1.0;
  }

  /** Truncating two ordered values below b gives two ordered ranks below b. */
  lemma {:induction false} RankOrder(x: real, y: real, b: int)
    requires 0.0 <= x <= y < b as real
    ensures 0 <= Trunc(x) <= Trunc(y) < b
  {
    TruncMono(x, y);
  }

  /** For B >= 1 and 0 < alpha <= 1 the two percentile ranks are in range and ordered. */
  lemma {:induction false} RanksInRange(b: int, alpha: real)
    requires b >= 1 && 0.0 < alpha <= 1.0
    ensures 0 <= LowerRank(b, alpha) <= UpperRank(b, alpha) < b
  {
    PercentileMono(b, alpha / 2.0, 1.0 - alpha / 2.0);
  }

  /** For B >= 1 and 0 < alpha <= 1 the threshold rank is in range. */
  lemma {:induction false} ThresholdInRange(b: int, alpha: real)
    requires b >= 1 && 0.0 < alpha <= 1.0
    ensures 0 <= ThresholdRank(b, alpha) < b
  {
    PercentileMono(b, 1.0 - alpha, 1.0 - alpha);
  }

  /** The sum of values between lo and hi lies between |s| lo and |s| hi. */
  lemma {:induction false} SumBetween(s: seq<real>, lo: real, hi: real)
    requires forall i :: 0 <= i < |s| ==> lo <= s[i] <= hi
    ensures Scale(|s| as real, lo) <= SumSeq(s) <= Scale(|s| as real, hi)
  {
    if |s| > 0 {
      var init := s[..|s| - 1];
      assert forall i :: 0 <= i < |init| ==> init[i] == s[i];
      SumBetween(init, lo, hi);
      assert s == init + [s[|s| - 1]];
      SumSeqSnoc(init, s[|s| - 1]);
      ScaleAdd(lo, |init| as real, 1.0);
      ScaleAdd(hi, |init| as real, 1.0);
      ScaleSwap(lo, |s| as real);
      ScaleSwap(hi, |s| as real);
      ScaleSwap(lo, |init| as real);
      ScaleSwap(hi, |init| as real);
    }
  }

  /** The mean lies between the least and the greatest value. */
  lemma {:induction false} MeanBetween(s: seq<real>)
    requires |s| > 0
    ensures Least(s) <= Mean(s) <= Greatest(s)
  {
    var lo, hi, n := Least(s), Greatest(s), |s| as real;
    SumBetween(s, lo, hi);
    ScaleSwap(n, lo);
    ScaleSwap(n, hi);
    QuotientBetween(SumSeq(s), n, lo, hi);
  }

  lemma {:induction false} QuotientBetween(x: real, n: real, lo: real, hi: real)
    requires n > 0.0 && Scale(lo, n) <= x <= Scale(hi, n)
    ensures lo <= x / n <= hi
  {
  }

  /** Sorting does not change the mean. */
  lemma {:induction false} MeanSorted(s: seq<real>)
    requires |s| > 0
    ensures Mean(Sort(s)) == Mean(s)
  {
    SumSeqPermutation(Sort(s), s);
  }

  /**
   * The interval from B collected kappas, for B >= 1 and 0 < alpha <= 1:
   * defined, its bounds two of the kappas with lower <= upper, the mean between
   * the least and the greatest kappa, the variance non-negative.
   */
  lemma {:induction false} IntervalSound(ks: seq<real>, b: int, alpha: real)
    requires |ks| == b >= 1 && 0.0 < alpha <= 1.0
    ensures Interval(ks, b, alpha).Ok?
    ensures Interval(ks, b, alpha).value.lowerbound <= Interval(ks, b, alpha).value.upperbound
    ensures Interval(ks, b, alpha).value.lowerbound in multiset(ks)
    ensures Interval(ks, b, alpha).value.upperbound in multiset(ks)
    ensures Least(ks) <= Interval(ks, b, alpha).value.mean <= Greatest(ks)
    ensures Interval(ks, b, alpha).value.variance >= 0.0
  {
    var sorted := Sort(ks);
    var lo, hi := LowerRank(b, alpha), UpperRank(b, alpha);
    RanksInRange(b, alpha);
    assert Index(sorted, lo) == Some(sorted[lo]) && Index(sorted, hi) == Some(sorted[hi]);
    var r := CIInfo(Mean(sorted), sorted[lo], sorted[hi], Variance(sorted));
    assert Interval(ks, b, alpha) == Ok(r);
    assert sorted[lo] <= sorted[hi] || lo == hi;
    assert sorted[lo] in multiset(sorted) && sorted[hi] in multiset(sorted);
    MeanSorted(ks);
    MeanBetween(ks);
  }

  /**
   * `bootstrap_confidence_interval` for B >= 1 and 0 < alpha <= 1: it fails only
   * when pooled_cohen_kappa raises; otherwise exactly B kappas are collected and
   * the interval is sound for them.
   */
  lemma {:induction false} ConfidenceIntervalSound<V>(qs: seq<Question<V>>, n: int, w: Option<string>, b: int, alpha: real,
                                                         choose: Chooser<V>)
    requires b >= 1 && 0.0 < alpha <= 1.0
    ensures var ks := NullKappas(qs, n, KappaOf(w, qs), choose, b);
      var r := ConfidenceInterval(qs, n, w, b, alpha, choose);
      && (r.Ok? <==> ks.Ok?)
      && (r.Err? ==> r.error.KappaFailed?)
      && (r.Ok? ==> && |ks.value| == b
                    && r.value.lowerbound <= r.value.upperbound
                    && r.value.lowerbound in multiset(ks.value) && r.value.upperbound in multiset(ks.value)
                    && Least(ks.value) <= r.value.mean <= Greatest(ks.value)
                    && r.value.variance >= 0.0)
  {
    var ks := NullKappas(qs, n, KappaOf(w, qs), choose, b);
    if ks.Ok? {
      IntervalSound(ks.value, b, alpha);
    }
  }

  /**
   * A row of the sweep from B null and B alternative kappas, for B >= 1 and
   * 0 < alpha <= 1: defined, its threshold one of the null kappas, its mean
   * null kappa between their least and greatest.
   */
  lemma {:induction false} RowOfDefined(n: int, nulls: seq<real>, alts: seq<real>, b: int, alpha: real)
    requires |nulls| == |alts| == b >= 1 && 0.0 < alpha <= 1.0
    ensures RowOf(n, nulls, alts, b, alpha).Ok?
    ensures RowOf(n, nulls, alts, b, alpha).value.upperBoundCi in multiset(nulls)
    ensures Least(nulls) <= RowOf(n, nulls, alts, b, alpha).value.meanKappaH0 <= Greatest(nulls)
  {
    var sorted := Sort(nulls);
    ThresholdInRange(b, alpha);
    assert sorted[ThresholdRank(b, alpha)] in multiset(sorted);
    MeanSorted(nulls);
    MeanBetween(nulls);
  }

  /** For B >= 1 and 0 < alpha <= 1 the sweep fails only when pooled_cohen_kappa raises. */
  lemma {:induction false} SweepFailsInKappa<V>(qs: seq<Question<V>>, grid: seq<int>, kappa: Statistic<V>, rel: real, b: int,
                                               alpha: real, choose: Chooser<V>, reliable: Reliable<V>)
    requires b >= 1 && 0.0 < alpha <= 1.0
    ensures Sweep(qs, grid, kappa, rel, b, alpha, choose, reliable).Err? ==>
              Sweep(qs, grid, kappa, rel, b, alpha, choose, reliable).error.KappaFailed?
  {
    var rs := RowsAt(qs, grid, kappa, rel, b, alpha, choose, reliable);
    var r := Gather(rs);
    if r.Err? {
      var g :| 0 <= g < |rs| && rs[g] == Err(r.error) && forall h :: 0 <= h < g ==> rs[h].Ok?;
      RowAtFailsInKappa(qs, grid, kappa, rel, b, alpha, choose, reliable, g);
    }
  }

  /** For B >= 1 and 0 < alpha <= 1 a grid position fails only when pooled_cohen_kappa raises. */
  lemma {:induction false} RowAtFailsInKappa<V>(qs: seq<Question<V>>, grid: seq<int>, kappa: Statistic<V>, rel: real, b: int,
                                               alpha: real, choose: Chooser<V>, reliable: Reliable<V>, g: nat)
    requires g < |grid| && b >= 1 && 0.0 < alpha <= 1.0
    ensures RowAt(qs, grid, kappa, rel, b, alpha, choose, reliable, g).Err? ==>
              RowAt(qs, grid, kappa, rel, b, alpha, choose, reliable, g).error.KappaFailed?
  {
    var trials := Trials(qs, grid[g], kappa, rel, choose, reliable, g, Rows(b), Rows(b));
    if trials.Ok? {
      RowOfDefined(grid[g], trials.value.0, trials.value.1, b, alpha);
    }
  }

  /**
   * `bootstrap_sample_size_cohen_kappa` for B >= 1 and 0 < alpha <= 1: it raises
   * only for a zero step or from inside pooled_cohen_kappa.
   */
  lemma {:induction false} SampleSizeErrors<V>(qs: seq<Question<V>>, maxN: int, w: Option<string>, startN: int, nStep: int,
                                                  rel: real, b: int, alpha: real, beta: real, choose: Chooser<V>, reliable: Reliable<V>)
    requires b >= 1 && 0.0 < alpha <= 1.0
    ensures var r := SampleSize(qs, maxN, w, startN, nStep, rel, b, alpha, beta, choose, reliable);
      r.Err? ==> r.error == ZeroStep || r.error.KappaFailed?
  {
    if nStep != 0 {
      var grid := Range(startN, maxN + 1, nStep).value;
      SweepFailsInKappa(qs, grid, KappaOf(w, qs), rel, b, alpha, choose, reliable);
    }
  }

  /** A larger threshold never gives more power. */
  lemma {:induction false} CountAboveMono(s: seq<real>, t: real, u: real)
    requires t <= u
    ensures CountAbove(s, u) <= CountAbove(s, t)
  {
    if |s| > 0 {
      CountAboveMono(s[..|s| - 1], t, u);
    }
  }

  lemma {:induction false} Fraction(k: nat, n: nat)
    requires 0 < n && k <= n
    ensures 0.0 <= k as real / n as real <= 1.0
    ensures k as real / n as real == 1.0 <==> k == n
    ensures k as real / n as real == 0.0 <==> k == 0
  {
  }

  /** Raising the threshold never raises the power. */
  lemma {:induction false} PowerMono(alts: seq<real>, t: real, u: real)
    requires |alts| > 0 && t <= u
    ensures Power(alts, u) <= Power(alts, t)
  {
    CountAboveMono(alts, t, u);
    FractionMono(CountAbove(alts, u), CountAbove(alts, t), |alts|);
  }

  lemma {:induction false} FractionMono(j: nat, k: nat, n: nat)
    requires 0 < n && j <= k
    ensures j as real / n as real <= k as real / n as real
  {
  }

  /**
   * Rows that follow the grid range(start_n, max_n + 1, n_step), with a positive step and
   * start_n <= max_n: 1 + (max_n - start_n) / n_step of them, row k at
   * start_n + k * n_step <= max_n, strictly increasing.
   */
  lemma {:induction false} GridRows(rows: seq<SweepRow>, startN: int, maxN: int, nStep: int)
    requires nStep > 0 && startN <= maxN
    requires |rows| == RangeLength(startN, maxN + 1, nStep)
    requires forall k :: 0 <= k < |rows| ==> rows[k].n == Range(startN, maxN + 1, nStep).value[k]
    ensures |rows| == 1 + (maxN - startN) / nStep
    ensures forall k :: 0 <= k < |rows| ==> rows[k].n == Nth(startN, nStep, k) <= maxN
    ensures forall j, k :: 0 <= j < k < |rows| ==> rows[j].n < rows[k].n
  {
    InclusiveRangeLength(startN, maxN, nStep);
    RangeAscending(startN, maxN + 1, nStep);
    forall j, k | 0 <= j < k < |rows|
      ensures rows[j].n < rows[k].n
    {
      assert rows[j].n == Nth(startN, nStep, j) && rows[k].n == Nth(startN, nStep, k);
      NthMono(startN, nStep, j, k);
    }
  }

  /** The sweep of the search: its rows follow the grid, and every power lies in [0, 1]. */
  lemma {:induction false} SweepGrid<V>(qs: seq<Question<V>>, maxN: int, w: Option<string>, startN: int, nStep: int,
                                       rel: real, b: int, alpha: real, beta: real, choose: Chooser<V>, reliable: Reliable<V>)
    requires nStep > 0 && startN <= maxN
    requires SampleSize(qs, maxN, w, startN, nStep, rel, b, alpha, beta, choose, reliable).Ok?
    ensures var rows := SampleSize(qs, maxN, w, startN, nStep, rel, b, alpha, beta, choose, reliable).value.rows;
      && |rows| == 1 + (maxN - startN) / nStep
      && (forall k :: 0 <= k < |rows| ==> rows[k].n == Nth(startN, nStep, k) <= maxN)
      && (forall j, k :: 0 <= j < k < |rows| ==> rows[j].n < rows[k].n)
      && (forall k :: 0 <= k < |rows| ==> 0.0 <= rows[k].power <= 1.0)
  {
    var grid := Range(startN, maxN + 1, nStep).value;
    var sweep := Sweep(qs, grid, KappaOf(w, qs), rel, b, alpha, choose, reliable);
    assert SampleSize(qs, maxN, w, startN, nStep, rel, b, alpha, beta, choose, reliable).value.rows == sweep.value;
    GridRows(sweep.value, startN, maxN, nStep);
  }

  /** The selected sample size: None exactly when no row reaches beta, otherwise the least n that does. */
  lemma {:induction false} SelectedSize<V>(qs: seq<Question<V>>, maxN: int, w: Option<string>, startN: int, nStep: int,
                                              rel: real, b: int, alpha: real, beta: real, choose: Chooser<V>, reliable: Reliable<V>)
    requires SampleSize(qs, maxN, w, startN, nStep, rel, b, alpha, beta, choose, reliable).Ok?
    ensures var info := SampleSize(qs, maxN, w, startN, nStep, rel, b, alpha, beta, choose, reliable).value;
      && (info.sampleSize.None? <==> forall k :: 0 <= k < |info.rows| ==> info.rows[k].power < beta)
      && (info.sampleSize.Some? ==> exists k :: 0 <= k < |info.rows| && info.rows[k].power >= beta && info.rows[k].n == info.sampleSize.value)
      && (info.sampleSize.Some? ==> forall k :: 0 <= k < |info.rows| && info.rows[k].power >= beta ==> info.sampleSize.value <= info.rows[k].n)
  {
    var grid := Range(startN, maxN + 1, nStep).value;
    var rows := Sweep(qs, grid, KappaOf(w, qs), rel, b, alpha, choose, reliable).value;
    assert SampleSize(qs, maxN, w, startN, nStep, rel, b, alpha, beta, choose, reliable).value == SSInfo(Select(rows, beta), rows);
  }

  /**
   * A sampled bootstrap pair with at least one row and one question: every
   * guard of pooled_cohen_kappa passes, and it yields a number unless mean
   * chance agreement is 1.
   */
  lemma {:induction false} SampledKappaDefined<V>(qs: seq<Question<V>>, n: int, w: Option<string>, choose: Chooser<V>, it: nat)
    requires n > 0 && |qs| > 0
    requires SchemeOf(w, Some(qs)).Ok?
    requires w.Some? ==> forall c :: 0 <= c < |qs| ==> |qs[c].values| != 1
    ensures NullKappa(qs, n, KappaOf(w, qs), choose, it).Ok? || NullKappa(qs, n, KappaOf(w, qs), choose, it) == Err(DegenerateChance)
  {
    var a, b := Sampled(qs, n, choose, 2 * it), Sampled(qs, n, choose, 2 * it + 1);
    assert |a[0]| == |qs| == |b[0]|;
    assert WellFormed(a, b, w, Some(qs));
    KappaDefined(a, b, w, Some(qs));
  }

  /** With fewer than one row the sampled matrices are empty and pooled_cohen_kappa fails on them. */
  lemma {:induction false} SampledKappaEmpty<V>(qs: seq<Question<V>>, n: int, w: Option<string>, choose: Chooser<V>, it: nat)
    requires n <= 0
    ensures NullKappa(qs, n, KappaOf(w, qs), choose, it) == Err(EmptySamples)
  {
    assert |Sampled(qs, n, choose, 2 * it)| == 0;
  }

  /** Each collected kappa is at most 1 when the values of every weighted item are distinct. */
  lemma {:induction false} NullKappasAtMostOne<V>(qs: seq<Question<V>>, n: int, w: Option<string>, choose: Chooser<V>, k: nat)
    requires w.Some? ==> forall c :: 0 <= c < |qs| ==> Distinct(qs[c].values)
    requires NullKappas(qs, n, KappaOf(w, qs), choose, k).Ok?
    ensures forall i :: 0 <= i < k ==> NullKappas(qs, n, KappaOf(w, qs), choose, k).value[i] <= 1.0
  {
    var kappa := KappaOf(w, qs);
    forall sa, sb
      ensures kappa(sa, sb).Ok? ==> kappa(sa, sb).value <= 1.0
    {
      KappaAtMostOne(sa, sb, w, Some(qs));
    }
    NullKappasBounded(qs, n, kappa, choose, k);
  }

  /** When no kappa the statistic can give exceeds 1, no collected kappa does. */
  lemma {:induction false} NullKappasBounded<V>(qs: seq<Question<V>>, n: int, kappa: Statistic<V>, choose: Chooser<V>, k: nat)
    requires forall sa, sb :: kappa(sa, sb).Ok? ==> kappa(sa, sb).value <= 1.0
    requires NullKappas(qs, n, kappa, choose, k).Ok?
    ensures forall i :: 0 <= i < k ==> NullKappas(qs, n, kappa, choose, k).value[i] <= 1.0
  {
    if k > 0 {
      var last := NullKappa(qs, n, kappa, choose, k - 1);
      assert NullKappas(qs, n, kappa, choose, k - 1).Ok? && last.Ok?;
      assert NullKappas(qs, n, kappa, choose, k).value == NullKappas(qs, n, kappa, choose, k - 1).value + [last.value];
      NullKappasBounded(qs, n, kappa, choose, k - 1);
    }
  }

  /** The first exception ends the loop: every longer run reports it. */
  lemma {:induction false} NullKappasStop<V>(qs: seq<Question<V>>, n: int, kappa: Statistic<V>, choose: Chooser<V>, k: nat, j: nat)
    requires k <= j && NullKappas(qs, n, kappa, choose, k).Err?
    ensures NullKappas(qs, n, kappa, choose, j) == NullKappas(qs, n, kappa, choose, k)
    decreases j - k
  {
    if k < j {
      NullKappasStop(qs, n, kappa, choose, k, j - 1);
    }
  }

  lemma {:induction false} TrialsStop<V>(qs: seq<Question<V>>, n: int, kappa: Statistic<V>, rel: real, choose: Chooser<V>,
                                            reliable: Reliable<V>, g: nat, b: nat, k: nat, j: nat)
    requires k <= j && Trials(qs, n, kappa, rel, choose, reliable, g, b, k).Err?
    ensures Trials(qs, n, kappa, rel, choose, reliable, g, b, j) == Trials(qs, n, kappa, rel, choose, reliable, g, b, k)
    decreases j - k
  {
    if k < j {
      TrialsStop(qs, n, kappa, rel, choose, reliable, g, b, k, j - 1);
    }
  }

  /** Once a prefix of the iterations has raised, the whole run reports that exception. */
  lemma {:induction false} GatherStop<T>(rs: seq<Result<T, BootstrapError>>, k: nat)
    requires k <= |rs| && Gather(rs[..k]).Err?
    ensures Gather(rs) == Gather(rs[..k])
  {
    var e := Gather(rs[..k]).error;
    var g :| 0 <= g < k && rs[..k][g] == Err(e) && forall h :: 0 <= h < g ==> rs[..k][h].Ok?;
    assert rs[g] == Err(e);
    assert forall h :: 0 <= h < g ==> rs[h] == rs[..k][h];
  }

  /** One more iteration appends its value, or reports its exception. */
  lemma {:induction false} GatherStep<T>(rs: seq<Result<T, BootstrapError>>, k: nat, vs: seq<T>)
    requires k < |rs| && Gather(rs[..k]) == Ok(vs)
    ensures rs[k].Ok? ==> Gather(rs[..k + 1]) == Ok(vs + [rs[k].value])
    ensures rs[k].Err? ==> Gather(rs[..k + 1]) == Err(rs[k].error)
  {
    assert rs[..k + 1][..k] == rs[..k];
  }

  // ---------------------------------------------------------------------------
  // The loops.

  /** bootstrap.py, lines 26-44: B iterations, each sampling two matrices and appending their kappa; then the interval. */
  method BootstrapConfidenceInterval<V(==)>(questions: seq<Question<V>>, n: int, weightType: Option<string>,
                                           nBootstrap: int, alpha: real, choose: Chooser<V>) returns (r: Result<CIInfo, BootstrapError>)
    ensures r == ConfidenceInterval(questions, n, weightType, nBootstrap, alpha, choose)
  {
    var kappas := CollectKappas(questions, n, weightType, nBootstrap, choose);
    if kappas.Err? {
      return Err(kappas.error);
    }
    r := Interval(kappas.value, nBootstrap, alpha);
  }

  /** The loop of `bootstrap_confidence_interval`: B kappas appended one iteration at a time, or the first exception. */
  method CollectKappas<V(==)>(questions: seq<Question<V>>, n: int, weightType: Option<string>,
                              nBootstrap: int, choose: Chooser<V>) returns (r: Result<seq<real>, BootstrapError>)
    ensures r == NullKappas(questions, n, KappaOf(weightType, questions), choose, Rows(nBootstrap))
  {
    var kappas: seq<real> := [];
    var i := 0;
    while i < nBootstrap
      invariant 0 <= i <= Rows(nBootstrap)
      invariant NullKappas(questions, n, KappaOf(weightType, questions), choose, i) == Ok(kappas)
    {
      var kappa := SampledKappa(questions, n, weightType, choose, i);
      if kappa.Err? {
        NullKappasStop(questions, n, KappaOf(weightType, questions), choose, i + 1, Rows(nBootstrap));
        return Err(KappaFailed(kappa.error));
      }
      kappas := kappas + [kappa.value];
      i := i + 1;
    }
    assert i == Rows(nBootstrap);
    r := Ok(kappas);
  }

  /** One iteration's two sampler calls and the kappa of the pair. */
  method SampledKappa<V(==)>(questions: seq<Question<V>>, n: int, weightType: Option<string>, choose: Chooser<V>, it: nat)
      returns (kappa: Result<real, KappaError>)
    ensures kappa == NullKappa(questions, n, KappaOf(weightType, questions), choose, it)
  {
    var samplesA, samplesB := SampleA(questions, n, choose, it);
    kappa := ComputePooledCohenKappa(samplesA, samplesB, weightType, Some(questions));
  }

  /** `samples_a = sample_questionnaire(questions, n)` and then the same for `samples_b`. */
  method SampleA<V>(questions: seq<Question<V>>, n: int, choose: Chooser<V>, it: nat)
      returns (samplesA: seq<seq<V>>, samplesB: seq<seq<V>>)
    ensures samplesA == Sampled(questions, n, choose, 2 * it)
    ensures samplesB == Sampled(questions, n, choose, 2 * it + 1)
  {
    samplesA := SampleQuestionnaire(questions, n, choose, 2 * it);
    samplesB := SampleQuestionnaire(questions, n, choose, 2 * it + 1);
    DrawnUnique(samplesA, Sampled(questions, n, choose, 2 * it), questions, n, choose, 2 * it);
    DrawnUnique(samplesB, Sampled(questions, n, choose, 2 * it + 1), questions, n, choose, 2 * it + 1);
  }

  /** bootstrap.py, lines 85-95: the B iterations at one sample size, each appending a null and an alternative kappa. */
  method RunTrials<V(==)>(questions: seq<Question<V>>, n: int, weightType: Option<string>, reliability: real,
                         nBootstrap: int, g: nat, choose: Chooser<V>, reliable: Reliable<V>)
      returns (r: Result<(seq<real>, seq<real>), BootstrapError>)
    ensures r == Trials(questions, n, KappaOf(weightType, questions), reliability, choose, reliable, g, Rows(nBootstrap), Rows(nBootstrap))
  {
    var b := Rows(nBootstrap);
    var nulls: seq<real> := [];
    var alts: seq<real> := [];
    for i := 0 to b
      invariant Trials(questions, n, KappaOf(weightType, questions), reliability, choose, reliable, g, b, i) == Ok((nulls, alts))
    {
      var kappa, kappaReliable := Trial(questions, n, weightType, reliability, choose, reliable, Draw(g, i, b));
      if kappa.Err? {
        TrialsStop(questions, n, KappaOf(weightType, questions), reliability, choose, reliable, g, b, i + 1, b);
        return Err(KappaFailed(kappa.error));
      }
      nulls := nulls + [kappa.value];
      if kappaReliable.Err? {
        TrialsStop(questions, n, KappaOf(weightType, questions), reliability, choose, reliable, g, b, i + 1, b);
        return Err(KappaFailed(kappaReliable.error));
      }
      alts := alts + [kappaReliable.value];
    }
    r := Ok((nulls, alts));
  }

  /** bootstrap.py, lines 88-95: one iteration of the search, its null kappa and, when that succeeds, its alternative kappa. */
  method Trial<V(==)>(questions: seq<Question<V>>, n: int, weightType: Option<string>, reliability: real,
                     choose: Chooser<V>, reliable: Reliable<V>, it: nat)
      returns (kappa: Result<real, KappaError>, kappaReliable: Result<real, KappaError>)
    ensures kappa == NullKappa(questions, n, KappaOf(weightType, questions), choose, it)
    ensures kappa.Ok? ==> kappaReliable == AltKappa(questions, n, KappaOf(weightType, questions), reliability, choose, reliable, it)
  {
    var samplesA, samplesB := SampleA(questions, n, choose, it);
    kappa := ComputePooledCohenKappa(samplesA, samplesB, weightType, Some(questions));
    kappaReliable := kappa;
    if kappa.Ok? {
      var pair := reliable(samplesA, samplesB, reliability, it);
      kappaReliable := ComputePooledCohenKappa(pair.0, pair.1, weightType, Some(questions));
    }
  }

  /** bootstrap.py, lines 74-123: the sweep over range(start_n, max_n + 1, n_step), one row per sample size, then the selection. */
  method BootstrapSampleSize<V(==)>(questions: seq<Question<V>>, maxN: int, weightType: Option<string>, startN: int,
                                   nStep: int, reliability: real, nBootstrap: int, alpha: real, beta: real,
                                   choose: Chooser<V>, reliable: Reliable<V>) returns (r: Result<SSInfo, BootstrapError>)
    ensures r == SampleSize(questions, maxN, weightType, startN, nStep, reliability, nBootstrap, alpha, beta, choose, reliable)
  {
    var range := Range(startN, maxN + 1, nStep);
    if range.None? {
      return Err(ZeroStep);
    }
    var grid := range.value;
    var rows := RunSweep(questions, grid, weightType, reliability, nBootstrap, alpha, choose, reliable);
    if rows.Err? {
      return Err(rows.error);
    }
    r := Ok(SSInfo(Select(rows.value, beta), rows.value));
  }

  /** The loop over the grid: one row per sample size, or the first exception. */
  method RunSweep<V(==)>(questions: seq<Question<V>>, grid: seq<int>, weightType: Option<string>, reliability: real,
                         nBootstrap: int, alpha: real, choose: Chooser<V>, reliable: Reliable<V>)
      returns (r: Result<seq<SweepRow>, BootstrapError>)
    ensures r == Sweep(questions, grid, KappaOf(weightType, questions), reliability, nBootstrap, alpha, choose, reliable)
  {
    ghost var rs := RowsAt(questions, grid, KappaOf(weightType, questions), reliability, nBootstrap, alpha, choose, reliable);
    var rows: seq<SweepRow> := [];
    for g := 0 to |grid|
      invariant Gather(rs[..g]) == Ok(rows)
    {
      var row := SweepRowAt(questions, grid, weightType, reliability, nBootstrap, alpha, choose, reliable, g);
      assert rs[g] == row;
      GatherStep(rs, g, rows);
      if row.Err? {
        GatherStop(rs, g + 1);
        return Err(row.error);
      }
      rows := rows + [row.value];
    }
    assert rs[..|grid|] == rs;
    r := Ok(rows);
  }

  /** One pass of the grid loop: the B trials at `n = grid[g]`, then power and interval of their kappas. */
  method SweepRowAt<V(==)>(questions: seq<Question<V>>, grid: seq<int>, weightType: Option<string>, reliability: real,
                           nBootstrap: int, alpha: real, choose: Chooser<V>, reliable: Reliable<V>, g: nat)
      returns (row: Result<SweepRow, BootstrapError>)
    requires g < |grid|
    ensures row == RowAt(questions, grid, KappaOf(weightType, questions), reliability, nBootstrap, alpha, choose, reliable, g)
  {
    var n := grid[g];
    var trials := RunTrials(questions, n, weightType, reliability, nBootstrap, g, choose, reliable);
    if trials.Err? {
      return Err(trials.error);
    }
    row := RowOf(n, trials.value.0, trials.value.1, nBootstrap, alpha);
  }
}
