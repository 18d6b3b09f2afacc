/**
 * `sample_questionnaire`: n rows of answers, one per question in list order,
 * each drawn by `random.choices(question.values, question.probabilities)`.
 * The random chooser is a parameter: `choose(q, call, t)` is the answer the
 * t-th draw of sampler call number `call` picks for question q.
 */
module Questionnaire {

  /** The `Question` record: the answers of one item and their relative weights. */
  datatype Question<V> = Question(values: seq<V>, probabilities: seq<real>)

  /** A draw of the weighted chooser: the answer it returns for a question, a call and a draw number. */
  type Chooser<!V> = (Question<V>, nat, nat) -> V

  /** Python's `range(n)` has max(n, 0) elements. */
  function Rows(n: int): (k: nat)
    ensures n >= 0 ==> k == n
    ensures n < 0 ==> k == 0
  {
    if n < 0 then 0 else n
  }

  /** Draw number of answer j in row i, with `m` answers to a row: the rows are drawn one after the other. */
  function Draw(i: nat, j: nat, m: nat): (t: nat)
    ensures j < m ==> i * m <= t < (i + 1) * m
  {
    i * m + j
  }

  /**
   * What a sampler call returns: `Rows(n)` rows of `|questions|` answers, and
   * answer j of row i is draw number Draw(i, j, |questions|), taken for questions[j].
   */
  ghost predicate Drawn<V>(samples: seq<seq<V>>, questions: seq<Question<V>>, n: int, choose: Chooser<V>, call: nat)
  {
    && |samples| == Rows(n)
    && (forall i :: 0 <= i < |samples| ==> |samples[i]| == |questions|)
    && (forall i, j :: 0 <= i < |samples| && 0 <= j < |questions| ==>
          samples[i][j] == choose(questions[j], call, Draw(i, j, |questions|)))
  }

  /** The rows a sampler call draws, as a value; SampleQuestionnaire returns exactly these (DrawnUnique). */
  function Sampled<V>(questions: seq<Question<V>>, n: int, choose: Chooser<V>, call: nat): (samples: seq<seq<V>>)
    ensures Drawn(samples, questions, n, choose, call)
  {
    seq(Rows(n), i requires 0 <= i < Rows(n) =>
      seq(|questions|, j requires 0 <= j < |questions| => choose(questions[j], call, Draw(i, j, |questions|))))
  }

  /** The chooser returns a member of the population it is given, for every question asked. */
  ghost predicate ChooserSound<V>(choose: Chooser<V>, questions: seq<Question<V>>)
  {
    forall j, call: nat, t: nat :: 0 <= j < |questions| ==> choose(questions[j], call, t) in questions[j].values
  }

  /** The nested loops of `sample_questionnaire`: rows appended to `samples`, answers to `sample`. */
  method SampleQuestionnaire<V>(questions: seq<Question<V>>, n: int, choose: Chooser<V>, call: nat)
      returns (samples: seq<seq<V>>)
    ensures |samples| == Rows(n)
    ensures forall i :: 0 <= i < |samples| ==> |samples[i]| == |questions|
    ensures forall i, j :: 0 <= i < |samples| && 0 <= j < |questions| ==>
              samples[i][j] == choose(questions[j], call, Draw(i, j, |questions|))
  {
    samples := [];
    var i := 0;
    while i < n
      invariant 0 <= i && |samples| == i
      invariant i <= Rows(n)
      invariant forall p :: 0 <= p < i ==> |samples[p]| == |questions|
      invariant forall p, j :: 0 <= p < i && 0 <= j < |questions| ==>
                  samples[p][j] == choose(questions[j], call, Draw(p, j, |questions|))
    {
      var sample: seq<V> := [];
      var j := 0;
      while j < |questions|
        invariant 0 <= j <= |questions| && |sample| == j
        invariant forall q :: 0 <= q < j ==> sample[q] == choose(questions[q], call, Draw(i, q, |questions|))
      {
        var question := questions[j];
        sample := sample + [choose(question, call, Draw(i, j, |questions|))];
        j := j + 1;
      }
      samples := samples + [sample];
      i := i + 1;
    }
  }

  /** With a sound chooser, answer j of every row is one of questions[j].values. */
  lemma {:induction false} DrawnInDomain<V>(samples: seq<seq<V>>, questions: seq<Question<V>>, n: int, choose: Chooser<V>, call: nat)
    requires Drawn(samples, questions, n, choose, call) && ChooserSound(choose, questions)
    ensures forall i, j :: 0 <= i < |samples| && 0 <= j < |questions| ==> samples[i][j] in questions[j].values
  {
    forall i, j | 0 <= i < |samples| && 0 <= j < |questions|
      ensures samples[i][j] in questions[j].values
    {
      assert samples[i][j] == choose(questions[j], call, Draw(i, j, |questions|));
    }
  }

  /** Two calls with the same draws give the same rows: the sampler is a function of the random stream. */
  lemma {:induction false} DrawnUnique<V>(s1: seq<seq<V>>, s2: seq<seq<V>>, questions: seq<Question<V>>, n: int, choose: Chooser<V>, call: nat)
    requires Drawn(s1, questions, n, choose, call) && Drawn(s2, questions, n, choose, call)
    ensures s1 == s2
  {
    forall i | 0 <= i < |s1|
      ensures s1[i] == s2[i]
    {
      forall j | 0 <= j < |questions|
        ensures s1[i][j] == s2[i][j]
      {
        assert s1[i][j] == choose(questions[j], call, Draw(i, j, |questions|));
      }
    }
  }

  /** Sampled is the only output a sampler call can have. */
  lemma {:induction false} SampledOnly<V>(questions: seq<Question<V>>, n: int, choose: Chooser<V>, call: nat)
    ensures forall s :: Drawn(s, questions, n, choose, call) ==> s == Sampled(questions, n, choose, call)
  {
    forall s | Drawn(s, questions, n, choose, call)
      ensures s == Sampled(questions, n, choose, call)
    {
      DrawnUnique(s, Sampled(questions, n, choose, call), questions, n, choose, call);
    }
  }
}
