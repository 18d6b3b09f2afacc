/**
 * `pooled_cohen_kappa(samples_a, samples_b, weight_type, questions)`: the
 * pooled kappa of De Vries et al. (2008).  Each column gets an observed
 * agreement and an expected chance agreement; both are averaged over the
 * columns, and the result is (mean observed - mean chance) / (1 - mean chance).
 *
 * The function PooledCohenKappa states the whole computation, guards and
 * exceptions included; the method ComputePooledCohenKappa is the column loop
 * that fills the `accuracies` and `marg_probabilities` arrays.
 */
module PooledKappa {
  import opened Results
  import opened Tables
  import opened Counts
  import opened ColumnAgreement
  import opened ColumnLoops
  import opened Questionnaire

  /** What `pooled_cohen_kappa` raises, or the non-finite value it returns. */
  datatype KappaError =
    | EmptySamples      // IndexError: samples_a[0] of an empty list
    | ShapeMismatch     // "samples_a and samples_b must have the same length"
    | InvalidWeighting  // "weights must be None, 'linear' or 'quadratic'"
    | Ragged            // np.array refuses rows of unequal length
    | MissingQuestion   // IndexError: questions[col] past the end of questions
    | SingleValue       // ZeroDivisionError: a weight divides by c - 1 = 0
    | DegenerateChance  // mean chance agreement 1: numpy divides by zero (nan or -inf)

  /** The weighting named by `weight_type`; a weighting needs `questions`. */
  function SchemeOf<V>(weightType: Option<string>, questions: Option<seq<Question<V>>>): (r: Result<Scheme, KappaError>)
    ensures r.Ok? <==> weightType.None? || (questions.Some? && weightType.value in {"linear", "quadratic"})
    ensures r.Err? ==> r.error == InvalidWeighting
    ensures r == Ok(Identity) <==> weightType.None?
    ensures r == Ok(Linear) <==> weightType == Some("linear") && questions.Some?
    ensures r == Ok(Quadratic) <==> weightType == Some("quadratic") && questions.Some?
  {
    match weightType
    case None => Ok(Identity)
    case Some(w) =>
      if questions.None? then Err(InvalidWeighting)
      else if w == "linear" then Ok(Linear)
      else if w == "quadratic" then Ok(Quadratic)
      else Err(InvalidWeighting)
  }

  /** Every row has `m` answers (what `np.array` needs to build a matrix). */
  predicate Rectangular<V>(rows: seq<seq<V>>, m: nat)
  {
    forall r :: 0 <= r < |rows| ==> |rows[r]| == m
  }

  /** Every row has more than `j` answers. */
  predicate Wide<V>(rows: seq<seq<V>>, j: nat)
  {
    forall r :: 0 <= r < |rows| ==> j <= |rows[r]|
  }

  /** Column j of a matrix, `samples[:, j]`. */
  function Column<V>(rows: seq<seq<V>>, j: nat): (col: seq<V>)
    requires Wide(rows, j + 1)
    ensures |col| == |rows| && forall r :: 0 <= r < |rows| ==> col[r] == rows[r][j]
  {
    seq(|rows|, r requires 0 <= r < |rows| => rows[r][j])
  }

  /** The `values` handed to the per-column helpers: none when unweighted, else questions[col].values. */
  function ValuesOf<V>(s: Scheme, qs: seq<Question<V>>, col: nat): (vals: seq<V>)
    ensures !s.Identity? && col < |qs| ==> vals == qs[col].values
    ensures ColumnOk(s, qs, col) ==> s.Identity? || |vals| != 1
  {
    if s.Identity? || col >= |qs| then [] else qs[col].values
  }

  /** Column `col` can be scored: unweighted, or its question exists and has other than one value. */
  predicate ColumnOk<V>(s: Scheme, qs: seq<Question<V>>, col: nat)
  {
    s.Identity? || (col < |qs| && |qs[col].values| != 1)
  }

  /** The exception a column that cannot be scored raises. */
  function ColumnFault<V>(qs: seq<Question<V>>, col: nat): (e: KappaError)
    ensures e == MissingQuestion <==> col >= |qs|
    ensures e == SingleValue <==> col < |qs|
  {
    if col < |qs| then SingleValue else MissingQuestion
  }

  /** The first column from `from` on that cannot be scored, or `m` when there is none. */
  function FirstFault<V>(s: Scheme, qs: seq<Question<V>>, from: nat, m: nat): (k: nat)
    requires from <= m
    ensures from <= k <= m
    ensures forall c :: from <= c < k ==> ColumnOk(s, qs, c)
    ensures k < m ==> !ColumnOk(s, qs, k)
    decreases m - from
  {
    if from == m then m
    else if !ColumnOk(s, qs, from) then from
    else FirstFault(s, qs, from + 1, m)
  }

  /** Observed agreement of column c. */
  function ColumnObserved<V(==)>(s: Scheme, A: seq<seq<V>>, B: seq<seq<V>>, qs: seq<Question<V>>, c: nat): real
    requires |A| == |B| > 0 && Wide(A, c + 1) && Wide(B, c + 1) && ColumnOk(s, qs, c)
  {
    Observed(s, Column(A, c), Column(B, c), ValuesOf(s, qs, c))
  }

  /** Chance agreement of column c. */
  function ColumnChance<V(==)>(s: Scheme, A: seq<seq<V>>, B: seq<seq<V>>, qs: seq<Question<V>>, c: nat): real
    requires |A| == |B| > 0 && Wide(A, c + 1) && Wide(B, c + 1) && ColumnOk(s, qs, c)
  {
    Chance(s, Column(A, c), Column(B, c), ValuesOf(s, qs, c))
  }

  /** The per-column observed agreements of the first k columns (`accuracies`). */
  function Agreements<V(==)>(s: Scheme, A: seq<seq<V>>, B: seq<seq<V>>, qs: seq<Question<V>>, k: nat): (t: seq<real>)
    requires |A| == |B| > 0 && Wide(A, k) && Wide(B, k)
    requires forall c :: 0 <= c < k ==> ColumnOk(s, qs, c)
    ensures |t| == k
  {
    seq(k, c requires 0 <= c < k => ColumnObserved(s, A, B, qs, c))
  }

  /** The per-column chance agreements of the first k columns (`marg_probabilities`). */
  function Chances<V(==)>(s: Scheme, A: seq<seq<V>>, B: seq<seq<V>>, qs: seq<Question<V>>, k: nat): (t: seq<real>)
    requires |A| == |B| > 0 && Wide(A, k) && Wide(B, k)
    requires forall c :: 0 <= c < k ==> ColumnOk(s, qs, c)
    ensures |t| == k
  {
    seq(k, c requires 0 <= c < k => ColumnChance(s, A, B, qs, c))
  }

  /** `np.mean`: a mean of nonnegative values is nonnegative, and a mean of proportions is a proportion. */
  function Mean(s: seq<real>): (r: real)
    requires |s| > 0
    ensures (forall i :: 0 <= i < |s| ==> 0.0 <= s[i]) ==> 0.0 <= r
    ensures (forall i :: 0 <= i < |s| ==> 0.0 <= s[i] <= 1.0) ==> r <= 1.0
  {
    SumSeqSign(s);
    SumSeq(s) / |s| as real
  }

  /** The pooling formula over the per-column agreements. */
  function Pool(acc: seq<real>, marg: seq<real>): (r: Result<real, KappaError>)
    requires |acc| > 0 && |marg| > 0
    ensures r.Err? <==> Mean(marg) == 1.0
    ensures r.Err? ==> r.error == DegenerateChance
  {
    var abar, ebar := Mean(acc), Mean(marg);
    if ebar == 1.0 then Err(DegenerateChance) else Ok((abar - ebar) / (1.0 - ebar))
  }

  /**
   * The pooled kappa, with each guard and exception of the source in its order:
   * each guard's exception is raised exactly when its condition holds and every
   * earlier guard has passed, and the column loop raises none of them.
   */
  function PooledCohenKappa<V(==)>(A: seq<seq<V>>, B: seq<seq<V>>, weightType: Option<string>,
                                  questions: Option<seq<Question<V>>>): (r: Result<real, KappaError>)
    ensures r == Err(EmptySamples) <==> |A| == 0
    ensures |A| > 0 && |A[0]| == 0 ==> r == Ok(0.0)
    ensures r == Err(ShapeMismatch) <==> |A| > 0 && |A[0]| > 0 && (|A| != |B| || |A[0]| != |B[0]|)
    ensures r == Err(InvalidWeighting) <==>
              |A| > 0 && |A[0]| > 0 && |A| == |B| && |A[0]| == |B[0]| && SchemeOf(weightType, questions).Err?
    ensures r == Err(Ragged) <==>
              |A| > 0 && |A[0]| > 0 && |A| == |B| && |A[0]| == |B[0]| && SchemeOf(weightType, questions).Ok?
              && !(Rectangular(A, |A[0]|) && Rectangular(B, |A[0]|))
  {
    if |A| == 0 then Err(EmptySamples)
    else if |A[0]| == 0 then Ok(0.0)
    else if |A| != |B| || |A[0]| != |B[0]| then Err(ShapeMismatch)
    else
      match SchemeOf(weightType, questions)
      case Err(e) => Err(e)
      case Ok(s) =>
        var m := |A[0]|;
        if !Rectangular(A, m) || !Rectangular(B, m) then Err(Ragged)
        else
          Scored(s, A, B, if questions.Some? then questions.value else [], m)
  }

  /** `pooled_cohen_kappa`: the guards in order, then the column loop. */
  method ComputePooledCohenKappa<V(==)>(A: seq<seq<V>>, B: seq<seq<V>>, weightType: Option<string>,
                                       questions: Option<seq<Question<V>>>) returns (r: Result<real, KappaError>)
    ensures r == PooledCohenKappa(A, B, weightType, questions)
  {
    if |A| == 0 {
      return Err(EmptySamples);
    }
    var n, ncols := |A|, |A[0]|;
    if ncols == 0 {
      return Ok(0.0);
    }
    if n != |B| || ncols != |B[0]| {
      return Err(ShapeMismatch);
    }
    var scheme := SchemeOf(weightType, questions);
    if scheme.Err? {
      return Err(scheme.error);
    }
    if !Rectangular(A, ncols) || !Rectangular(B, ncols) {
      return Err(Ragged);
    }
    var s, qs := scheme.value, if questions.Some? then questions.value else [];
    ghost var obs := (c: nat) =>
      if c < ncols && ColumnOk(s, qs, c) then ColumnObserved(s, A, B, qs, c) else 0.0;
    ghost var chs := (c: nat) =>
      if c < ncols && ColumnOk(s, qs, c) then ColumnChance(s, A, B, qs, c) else 0.0;
    r := PoolColumns(s, A, B, qs, ncols, obs, chs);
  }

  /** What the column loop and the pooling produce, once the guards have passed. */
  function Scored<V(==)>(s: Scheme, A: seq<seq<V>>, B: seq<seq<V>>, qs: seq<Question<V>>, m: nat): Result<real, KappaError>
    requires |A| == |B| > 0 && m > 0 && Rectangular(A, m) && Rectangular(B, m)
  {
    var k := FirstFault(s, qs, 0, m);
    if k < m then Err(ColumnFault(qs, k))
    else Pool(Agreements(s, A, B, qs, m), Chances(s, A, B, qs, m))
  }

  /**
   * `obs` and `chs` name the observed and chance agreement of every column that
   * can be scored, so that the column loop can speak of them one column at a time.
   */
  ghost predicate Named<V>(s: Scheme, A: seq<seq<V>>, B: seq<seq<V>>, qs: seq<Question<V>>, m: nat,
                               obs: nat -> real, chs: nat -> real)
    requires |A| == |B| > 0 && Wide(A, m) && Wide(B, m)
  {
    forall c {:trigger ColumnObserved(s, A, B, qs, c)} {:trigger ColumnChance(s, A, B, qs, c)} ::
      0 <= c < m && ColumnOk(s, qs, c) ==>
        obs(c) == ColumnObserved(s, A, B, qs, c) && chs(c) == ColumnChance(s, A, B, qs, c)
  }

  /**
   * The loop over columns: `accuracies[col]` and `marg_probabilities[col]` are the
   * observed and chance agreement of column col; then the pooling formula.
   */
  method PoolColumns<V(==)>(s: Scheme, A: seq<seq<V>>, B: seq<seq<V>>, qs: seq<Question<V>>, ncols: nat,
                            ghost obs: nat -> real, ghost chs: nat -> real)
      returns (r: Result<real, KappaError>)
    requires |A| == |B| > 0 && ncols > 0 && Rectangular(A, ncols) && Rectangular(B, ncols)
    requires Named(s, A, B, qs, ncols, obs, chs)
    ensures r == Scored(s, A, B, qs, ncols)
  {
    var accuracies := new real[ncols];
    var margProbabilities := new real[ncols];
    for col := 0 to ncols
      invariant forall c :: 0 <= c < col ==> ColumnOk(s, qs, c)
      invariant forall c :: 0 <= c < col ==> accuracies[c] == obs(c) && margProbabilities[c] == chs(c)
    {
      if !s.Identity? && col >= |qs| {
        FirstFaultAt(s, qs, col, ncols);
        return Err(MissingQuestion);
      }
      var values := ValuesOf(s, qs, col);
      if !s.Identity? && |values| == 1 {
        FirstFaultAt(s, qs, col, ncols);
        return Err(SingleValue);
      }
      var a, e := ScoreColumn(s, A, B, qs, ncols, col, values, obs, chs);
      accuracies[col] := a;
      margProbabilities[col] := e;
    }
    FirstFaultNone(s, qs, ncols);
    NamedScores(s, A, B, qs, ncols, obs, chs, accuracies[..], margProbabilities[..]);
    r := Pool(accuracies[..], margProbabilities[..]);
  }

  /** `agreement` and `expected_random_agreement` on column `col`. */
  method ScoreColumn<V(==)>(s: Scheme, A: seq<seq<V>>, B: seq<seq<V>>, qs: seq<Question<V>>, m: nat, col: nat,
                            values: seq<V>, ghost obs: nat -> real, ghost chs: nat -> real)
      returns (a: real, e: real)
    requires |A| == |B| > 0 && col < m && Wide(A, m) && Wide(B, m)
    requires ColumnOk(s, qs, col) && values == ValuesOf(s, qs, col)
    requires Named(s, A, B, qs, m, obs, chs)
    ensures a == obs(col) && e == chs(col)
  {
    var colA, colB := Column(A, col), Column(B, col);
    a := Agreement(s, colA, colB, values);
    e := ExpectedRandomAgreement(s, colA, colB, values);
    assert a == ColumnObserved(s, A, B, qs, col) && e == ColumnChance(s, A, B, qs, col);
  }

  /** Sequences that agree with the named scores on every column are the per-column agreements. */
  lemma {:induction false} NamedScores<V>(s: Scheme, A: seq<seq<V>>, B: seq<seq<V>>, qs: seq<Question<V>>, m: nat,
                                          obs: nat -> real, chs: nat -> real, acc: seq<real>, marg: seq<real>)
    requires |A| == |B| > 0 && Wide(A, m) && Wide(B, m)
    requires forall c :: 0 <= c < m ==> ColumnOk(s, qs, c)
    requires Named(s, A, B, qs, m, obs, chs)
    requires |acc| == m && |marg| == m
    requires forall c :: 0 <= c < m ==> acc[c] == obs(c) && marg[c] == chs(c)
    ensures acc == Agreements(s, A, B, qs, m) && marg == Chances(s, A, B, qs, m)
  {
    var ag, ch := Agreements(s, A, B, qs, m), Chances(s, A, B, qs, m);
    forall c | 0 <= c < m
      ensures acc[c] == ag[c] && marg[c] == ch[c]
    {
      assert ag[c] == ColumnObserved(s, A, B, qs, c);
      assert ch[c] == ColumnChance(s, A, B, qs, c);
    }
  }

  /** A column that cannot be scored, after columns that can, is the first fault. */
  lemma {:induction false} FirstFaultAt<V>(s: Scheme, qs: seq<Question<V>>, col: nat, m: nat)
    requires col < m && !ColumnOk(s, qs, col)
    requires forall c :: 0 <= c < col ==> ColumnOk(s, qs, c)
    ensures FirstFault(s, qs, 0, m) == col
  {
  }

  /** When every column can be scored, there is no fault. */
  lemma {:induction false} FirstFaultNone<V>(s: Scheme, qs: seq<Question<V>>, m: nat)
    requires forall c :: 0 <= c < m ==> ColumnOk(s, qs, c)
    ensures FirstFault(s, qs, 0, m) == m
  {
  }

  // ---------------------------------------------------------------------------
  // Properties of the pooled kappa.

  /** The pooling formula: kappa times (1 - mean chance) is mean observed minus mean chance. */
  lemma {:induction false} PoolFormula(acc: seq<real>, marg: seq<real>)
    requires |acc| > 0 && |marg| > 0 && Pool(acc, marg).Ok?
    ensures Pool(acc, marg).value * (1.0 - Mean(marg)) == Mean(acc) - Mean(marg)
  {
    var d := 1.0 - Mean(marg);
    assert d != 0.0;
    assert Pool(acc, marg).value == (Mean(acc) - Mean(marg)) / d;
  }

  /** A mean of ones is one. */
  lemma {:induction false} MeanOnes(s: seq<real>)
    requires |s| > 0 && forall i :: 0 <= i < |s| ==> s[i] == 1.0
    ensures Mean(s) == 1.0
  {
    SumOnes(s);
  }

  lemma {:induction false} SumOnes(s: seq<real>)
    requires forall i :: 0 <= i < |s| ==> s[i] == 1.0
    ensures SumSeq(s) == |s| as real
  {
    if |s| > 0 {
      SumOnes(s[..|s| - 1]);
    }
  }

  /** With mean observed agreement at most 1 and mean chance below 1, kappa is at most 1. */
  lemma {:induction false} PoolAtMostOne(acc: seq<real>, marg: seq<real>)
    requires |acc| > 0 && |marg| > 0
    requires Mean(acc) <= 1.0 && Mean(marg) <= 1.0
    ensures Pool(acc, marg).Ok? ==> Pool(acc, marg).value <= 1.0
  {
    if Pool(acc, marg).Ok? {
      var a, e := Mean(acc), Mean(marg);
      var d := 1.0 - e;
      RatioAtMostOne(a - e, d);
    }
  }

  lemma {:induction false} RatioAtMostOne(x: real, d: real)
    requires 0.0 < d && x <= d
    ensures x / d <= 1.0
  {
  }

  /** Full agreement on every column with chance below 1 gives kappa 1. */
  lemma {:induction false} PoolPerfect(acc: seq<real>, marg: seq<real>)
    requires |acc| > 0 && |marg| > 0 && Mean(acc) == 1.0
    ensures Pool(acc, marg).Ok? ==> Pool(acc, marg).value == 1.0
  {
    if Pool(acc, marg).Ok? {
      var d := 1.0 - Mean(marg);
      assert Pool(acc, marg).value == d / d;
      SelfQuotient(d);
    }
  }

  lemma {:induction false} SelfQuotient(d: real)
    requires d != 0.0
    ensures d / d == 1.0
  {
  }

  /** The guards have passed and every column can be scored: the kappa is a number unless chance agreement is 1. */
  ghost predicate WellFormed<V>(A: seq<seq<V>>, B: seq<seq<V>>, weightType: Option<string>, questions: Option<seq<Question<V>>>)
  {
    && |A| == |B| > 0 && |A[0]| > 0 && |A[0]| == |B[0]|
    && Rectangular(A, |A[0]|) && Rectangular(B, |A[0]|)
    && SchemeOf(weightType, questions).Ok?
    && ColumnsOk(SchemeOf(weightType, questions).value, if questions.Some? then questions.value else [], |A[0]|)
  }

  /** Every column below m can be scored under scheme s. */
  ghost predicate ColumnsOk<V>(s: Scheme, qs: seq<Question<V>>, m: nat)
  {
    forall c :: 0 <= c < m ==> ColumnOk(s, qs, c)
  }

  /** Given at least one row and one column, kappa is computed (or only its final division fails) exactly for well-formed input. */
  lemma {:induction false} KappaDefined<V>(A: seq<seq<V>>, B: seq<seq<V>>, weightType: Option<string>, questions: Option<seq<Question<V>>>)
    requires |A| > 0 && |A[0]| > 0
    ensures WellFormed(A, B, weightType, questions)
        <==> (PooledCohenKappa(A, B, weightType, questions).Ok?
             || PooledCohenKappa(A, B, weightType, questions) == Err(DegenerateChance))
  {
    var m := |A[0]|;
    var qs := if questions.Some? then questions.value else [];
    if |A| == |B| && m == |B[0]| && SchemeOf(weightType, questions).Ok? && Rectangular(A, m) && Rectangular(B, m) {
      var s := SchemeOf(weightType, questions).value;
      var k := FirstFault(s, qs, 0, m);
      if k == m {
        assert forall c :: 0 <= c < m ==> ColumnOk(s, qs, c);
        assert WellFormed(A, B, weightType, questions);
      } else {
        assert !ColumnOk(s, qs, k);
        assert !WellFormed(A, B, weightType, questions);
      }
    }
  }

  /** With no column, kappa is 0 (once there is a first row to count the columns of). */
  lemma {:induction false} KappaNoColumns<V>(A: seq<seq<V>>, B: seq<seq<V>>, weightType: Option<string>, questions: Option<seq<Question<V>>>)
    requires |A| > 0 && |A[0]| == 0
    ensures PooledCohenKappa(A, B, weightType, questions) == Ok(0.0)
  {
  }

  /** Swapping the raters leaves every column's observed and chance agreement unchanged. */
  lemma {:induction false} ScoresSwap<V>(s: Scheme, A: seq<seq<V>>, B: seq<seq<V>>, qs: seq<Question<V>>, m: nat)
    requires |A| == |B| > 0 && Wide(A, m) && Wide(B, m)
    requires forall c :: 0 <= c < m ==> ColumnOk(s, qs, c)
    ensures Agreements(s, A, B, qs, m) == Agreements(s, B, A, qs, m)
    ensures Chances(s, A, B, qs, m) == Chances(s, B, A, qs, m)
  {
    forall c | 0 <= c < m
      ensures Agreements(s, A, B, qs, m)[c] == Agreements(s, B, A, qs, m)[c]
      ensures Chances(s, A, B, qs, m)[c] == Chances(s, B, A, qs, m)[c]
    {
      assert Wide(A, c + 1) && Wide(B, c + 1);
      ColumnSwap(s, A, B, qs, c);
    }
  }

  /** Column c scores the same with the raters swapped. */
  lemma {:induction false} ColumnSwap<V>(s: Scheme, A: seq<seq<V>>, B: seq<seq<V>>, qs: seq<Question<V>>, c: nat)
    requires |A| == |B| > 0 && Wide(A, c + 1) && Wide(B, c + 1) && ColumnOk(s, qs, c)
    ensures ColumnObserved(s, A, B, qs, c) == ColumnObserved(s, B, A, qs, c)
    ensures ColumnChance(s, A, B, qs, c) == ColumnChance(s, B, A, qs, c)
  {
    var vals := ValuesOf(s, qs, c);
    ObservedSwap(s, Column(A, c), Column(B, c), vals);
    ChanceSwap(s, Column(A, c), Column(B, c), vals);
  }

  /**
   * Kappa is symmetric in the two raters, whenever the guards that look at the
   * first rater only (an empty list, an empty first row) treat both alike.
   */
  lemma {:induction false} KappaSymmetric<V>(A: seq<seq<V>>, B: seq<seq<V>>, weightType: Option<string>, questions: Option<seq<Question<V>>>)
    requires (|A| == 0) == (|B| == 0)
    requires |A| > 0 && |B| > 0 ==> (|A[0]| == 0) == (|B[0]| == 0)
    ensures PooledCohenKappa(A, B, weightType, questions) == PooledCohenKappa(B, A, weightType, questions)
  {
    if |A| > 0 && |A[0]| > 0 && |A| == |B| && |A[0]| == |B[0]| {
      var m := |A[0]|;
      var qs := if questions.Some? then questions.value else [];
      if SchemeOf(weightType, questions).Ok? && Rectangular(A, m) && Rectangular(B, m) {
        var s := SchemeOf(weightType, questions).value;
        if FirstFault(s, qs, 0, m) == m {
          ScoresSwap(s, A, B, qs, m);
        }
      }
    }
  }

  /** Every answer of column c lies among the values of question c, which are distinct and at least two. */
  ghost predicate Conforms<V>(A: seq<seq<V>>, qs: seq<Question<V>>)
  {
    && (forall c :: 0 <= c < |qs| ==> |qs[c].values| >= 2 && Distinct(qs[c].values))
    && (forall r :: 0 <= r < |A| ==> |A[r]| <= |qs|)
    && (forall r, c :: 0 <= r < |A| && 0 <= c < |A[r]| && c < |qs| ==> A[r][c] in qs[c].values)
  }

  /** A rater compared with itself scores 1 on every column. */
  lemma {:induction false} ScoresSelf<V>(s: Scheme, A: seq<seq<V>>, qs: seq<Question<V>>, m: nat)
    requires |A| > 0 && Rectangular(A, m) && (!s.Identity? ==> Conforms(A, qs))
    requires forall c :: 0 <= c < m ==> ColumnOk(s, qs, c)
    ensures forall c :: 0 <= c < m ==> Agreements(s, A, A, qs, m)[c] == 1.0
  {
    forall c | 0 <= c < m
      ensures Agreements(s, A, A, qs, m)[c] == 1.0
    {
      var col, vals := Column(A, c), ValuesOf(s, qs, c);
      if !s.Identity? {
        assert |A[0]| == m;
        assert c < |qs|;
        forall r | 0 <= r < |col|
          ensures col[r] in vals
        {
          assert col[r] == A[r][c];
        }
      }
      ObservedSelf(s, col, vals);
    }
  }

  /** Two identical response matrices have kappa 1, unless chance agreement is 1 and the division fails. */
  lemma {:induction false} KappaSelf<V>(A: seq<seq<V>>, weightType: Option<string>, questions: Option<seq<Question<V>>>)
    requires |A| > 0 && |A[0]| > 0 && Rectangular(A, |A[0]|)
    requires SchemeOf(weightType, questions).Ok?
    requires weightType.Some? ==> Conforms(A, questions.value)
    ensures PooledCohenKappa(A, A, weightType, questions) == Ok(1.0)
         || PooledCohenKappa(A, A, weightType, questions) == Err(DegenerateChance)
  {
    var m := |A[0]|;
    var s := SchemeOf(weightType, questions).value;
    var qs := if questions.Some? then questions.value else [];
    forall c | 0 <= c < m
      ensures ColumnOk(s, qs, c)
    {
      if !s.Identity? {
        assert A[0][c] in qs[c].values;
      }
    }
    FirstFaultNone(s, qs, m);
    ScoresSelf(s, A, qs, m);
    MeanOnes(Agreements(s, A, A, qs, m));
    PoolPerfect(Agreements(s, A, A, qs, m), Chances(s, A, A, qs, m));
  }

  /** Each column scores in [0, 1], both observed and chance, when a weighting's values are distinct. */
  lemma {:induction false} ScoresUnit<V>(s: Scheme, A: seq<seq<V>>, B: seq<seq<V>>, qs: seq<Question<V>>, m: nat)
    requires |A| == |B| > 0 && Wide(A, m) && Wide(B, m)
    requires forall c :: 0 <= c < m ==> ColumnOk(s, qs, c)
    requires !s.Identity? ==> forall c :: 0 <= c < |qs| ==> Distinct(qs[c].values)
    ensures forall c :: 0 <= c < m ==> 0.0 <= Agreements(s, A, B, qs, m)[c] <= 1.0
    ensures forall c :: 0 <= c < m ==> 0.0 <= Chances(s, A, B, qs, m)[c] <= 1.0
  {
    forall c | 0 <= c < m
      ensures 0.0 <= Agreements(s, A, B, qs, m)[c] <= 1.0
      ensures 0.0 <= Chances(s, A, B, qs, m)[c] <= 1.0
    {
      var vals := ValuesOf(s, qs, c);
      ObservedBounds(s, Column(A, c), Column(B, c), vals);
      ChanceBounds(s, Column(A, c), Column(B, c), vals);
    }
  }

  /** Kappa is at most 1, provided the values of a weighted item are distinct. */
  lemma {:induction false} KappaAtMostOne<V>(A: seq<seq<V>>, B: seq<seq<V>>, weightType: Option<string>, questions: Option<seq<Question<V>>>)
    requires weightType.Some? && questions.Some? ==>
               forall c :: 0 <= c < |questions.value| ==> Distinct(questions.value[c].values)
    ensures PooledCohenKappa(A, B, weightType, questions).Ok? ==> PooledCohenKappa(A, B, weightType, questions).value <= 1.0
  {
    if |A| > 0 && |A[0]| > 0 && |A| == |B| && |A[0]| == |B[0]| {
      var m := |A[0]|;
      var qs := if questions.Some? then questions.value else [];
      if SchemeOf(weightType, questions).Ok? && Rectangular(A, m) && Rectangular(B, m) {
        var s := SchemeOf(weightType, questions).value;
        if FirstFault(s, qs, 0, m) == m {
          var acc, marg := Agreements(s, A, B, qs, m), Chances(s, A, B, qs, m);
          ScoresUnit(s, A, B, qs, m);
          PoolAtMostOne(acc, marg);
        }
      }
    }
  }
}
