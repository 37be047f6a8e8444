/**
 * The severity scorer shared by both variants: score = sum of weight x min(count, 3)
 * over the categories, then a risk level by a strict priority chain in which any
 * suicidal mention forces the top level.
 */
module Severity {
  import opened Detector

  /** `risk_level`: 'low' < 'moderate' < 'high' < 'critical'. */
  datatype RiskLevel = Low | Moderate | High | Critical

  /** Position of a level in the order low < moderate < high < critical. */
  function Rank(level: RiskLevel): nat {
    match level
    case Low => 0
    case Moderate => 1
    case High => 2
    case Critical => 3
  }

  /** Mentions of one category beyond this many add nothing to the score. */
  const Cap: nat := 3
  /** `SEVERITY_WEIGHTS.get(symptom, 3)`: the weight of a category missing from the table. */
  const DefaultWeight: nat := 3
  const CriticalScore: nat := 25
  const HighScore: nat := 15
  const ModerateScore: nat := 8

  function Min(a: nat, b: nat): nat {
    if a <= b then a else b
  }

  /** `SEVERITY_WEIGHTS.get(c, 3)`. */
  function WeightOf<C(==)>(weights: map<C, nat>, c: C): nat {
    if c in weights then weights[c] else DefaultWeight
  }

  /** What one category adds to the score: its weight times its count capped at three. */
  function Contribution<C(==)>(weights: map<C, nat>, counts: map<C, nat>, c: C): nat {
    WeightOf(weights, c) * Min(Count(counts, c), Cap)
  }

  /** The score summed over a list of categories. */
  function Score<C(==)>(categories: seq<C>, weights: map<C, nat>, counts: map<C, nat>): nat
    decreases |categories|
  {
    if categories == [] then 0
    else Score(categories[..|categories| - 1], weights, counts)
         + Contribution(weights, counts, categories[|categories| - 1])
  }

  /** How many of the thresholds 8, 15 and 25 the score has reached. */
  function ThresholdsReached(score: nat): nat {
    (if score >= ModerateScore then 1 else 0)
    + (if score >= HighScore then 1 else 0)
    + (if score >= CriticalScore then 1 else 0)
  }

  /**
   * The risk level of a score and a suicidal-mention count, first rule wins:
   * critical (score >= 25 or any suicidal mention), high (>= 15), moderate (>= 8), low.
   */
  function LevelFor(score: nat, suicidalCount: nat): (level: RiskLevel)
    ensures suicidalCount > 0 ==> level == Critical
    ensures suicidalCount == 0 ==> Rank(level) == ThresholdsReached(score)
  {
    if score >= CriticalScore || suicidalCount > 0 then Critical
    else if score >= HighScore then High
    else if score >= ModerateScore then Moderate
    else Low
  }

  /** A higher score, or a suicidal mention appearing, never lowers the level. */
  lemma LevelMonotone(score1: nat, score2: nat, suicidal1: nat, suicidal2: nat)
    requires score1 <= score2
    requires suicidal1 > 0 ==> suicidal2 > 0
    ensures Rank(LevelFor(score1, suicidal1)) <= Rank(LevelFor(score2, suicidal2))
  {
  }

  /**
   * The loop of `calculate_severity`: accumulates weight x min(count, 3) over
   * the categories.
   */
  method SumScore<C(==)>(categories: seq<C>, weights: map<C, nat>, counts: map<C, nat>) returns (score: nat)
    ensures score == Score(categories, weights, counts)
  {
    score := 0;
    var i := 0;
    while i < |categories|
      invariant 0 <= i <= |categories|
      invariant score == Score(categories[..i], weights, counts)
    {
      assert categories[..i + 1][..i] == categories[..i];
      score := score + WeightOf(weights, categories[i]) * Min(Count(counts, categories[i]), Cap);
      i := i + 1;
    }
    assert categories[..i] == categories;
  }

  /** With no mention recorded the score is zero. */
  lemma {:induction false} ScoreOfNoCounts<C>(categories: seq<C>, weights: map<C, nat>)
    ensures Score(categories, weights, map[]) == 0
    decreases |categories|
  {
    if categories != [] {
      ScoreOfNoCounts(categories[..|categories| - 1], weights);
    }
  }

  /** When only one category has been counted, the score is that category's weight times its capped count. */
  lemma {:induction false} ScoreOfOne<C>(categories: seq<C>, weights: map<C, nat>, c: C, n: nat)
    requires c in categories
    requires forall i, j | 0 <= i < j < |categories| :: categories[i] != categories[j]
    ensures Score(categories, weights, map[c := n]) == WeightOf(weights, c) * Min(n, Cap)
    decreases |categories|
  {
    var init := categories[..|categories| - 1];
    if categories[|categories| - 1] == c {
      assert c !in init;
      ScoreIgnoresOthers(init, weights, map[], c, n);
      ScoreOfNoCounts(init, weights);
    } else {
      assert c in init;
      ScoreOfOne(init, weights, c, n);
    }
  }

  /** Changing the count of a category the list does not mention leaves the score alone. */
  lemma {:induction false} ScoreIgnoresOthers<C>(categories: seq<C>, weights: map<C, nat>, counts: map<C, nat>, c: C, n: nat)
    requires c !in categories
    ensures Score(categories, weights, counts[c := n]) == Score(categories, weights, counts)
    decreases |categories|
  {
    if categories != [] {
      ScoreIgnoresOthers(categories[..|categories| - 1], weights, counts, c, n);
    }
  }

  /** Saturation: once a count has reached three, raising it further leaves the score unchanged. */
  lemma {:induction false} ScoreSaturates<C>(categories: seq<C>, weights: map<C, nat>, counts: map<C, nat>, c: C, n: nat)
    requires Count(counts, c) >= Cap && n >= Cap
    ensures Score(categories, weights, counts[c := n]) == Score(categories, weights, counts)
    decreases |categories|
  {
    if categories != [] {
      ScoreSaturates(categories[..|categories| - 1], weights, counts, c, n);
    }
  }

  lemma MulMonotone(w: nat, x: nat, y: nat)
    requires x <= y
    ensures w * x <= w * y
  {
  }

  /** Raising one category's count never lowers the score. */
  lemma {:induction false} ScoreMonotone<C>(categories: seq<C>, weights: map<C, nat>, counts: map<C, nat>, c: C, n: nat)
    requires Count(counts, c) <= n
    ensures Score(categories, weights, counts) <= Score(categories, weights, counts[c := n])
    decreases |categories|
  {
    if categories != [] {
      var d := categories[|categories| - 1];
      ScoreMonotone(categories[..|categories| - 1], weights, counts, c, n);
      MulMonotone(WeightOf(weights, d), Min(Count(counts, d), Cap), Min(Count(counts[c := n], d), Cap));
    }
  }

  /**
   * Below the cap, one more mention of a category listed once adds exactly
   * that category's weight to the score.
   */
  lemma {:induction false} ScoreIncrement<C>(categories: seq<C>, weights: map<C, nat>, counts: map<C, nat>, c: C)
    requires Count(counts, c) < Cap
    requires c in categories
    requires forall i, j | 0 <= i < j < |categories| :: categories[i] != categories[j]
    ensures Score(categories, weights, counts[c := Count(counts, c) + 1])
         == Score(categories, weights, counts) + WeightOf(weights, c)
    decreases |categories|
  {
    var init := categories[..|categories| - 1];
    var d := categories[|categories| - 1];
    var bumped := counts[c := Count(counts, c) + 1];
    if d == c {
      assert c !in init;
      ScoreIgnoresOthers(init, weights, counts, c, Count(counts, c) + 1);
      calc {
        Contribution(weights, bumped, c);
        WeightOf(weights, c) * (Count(counts, c) + 1);
        WeightOf(weights, c) * Count(counts, c) + WeightOf(weights, c);
        Contribution(weights, counts, c) + WeightOf(weights, c);
      }
    } else {
      assert c in init;
      ScoreIncrement(init, weights, counts, c);
    }
  }

  /** No category is listed twice, as with the keys of a dict. */
  predicate Distinct<C(==)>(categories: seq<C>) {
    forall i, j | 0 <= i < j < |categories| :: categories[i] != categories[j]
  }

  /** Categories none of which has been counted score nothing. */
  lemma {:induction false} ScoreOfUncounted<C>(categories: seq<C>, weights: map<C, nat>, counts: map<C, nat>)
    requires forall c | c in categories :: Count(counts, c) == 0
    ensures Score(categories, weights, counts) == 0
    decreases |categories|
  {
    if categories != [] {
      ScoreOfUncounted(categories[..|categories| - 1], weights, counts);
    }
  }

  /** Taking one category out of the list takes exactly its contribution out of the score. */
  lemma {:induction false} ScoreWithout<C>(categories: seq<C>, weights: map<C, nat>, counts: map<C, nat>, k: nat)
    requires k < |categories|
    ensures Score(categories, weights, counts)
         == Score(categories[..k] + categories[k + 1..], weights, counts) + Contribution(weights, counts, categories[k])
    decreases |categories|
  {
    var n := |categories|;
    var init := categories[..n - 1];
    if k == n - 1 {
      assert categories[..k] + categories[k + 1..] == init;
    } else {
      var rest := categories[..k] + categories[k + 1..];
      ScoreWithout(init, weights, counts, k);
      assert rest[..|rest| - 1] == init[..k] + init[k + 1..];
      assert rest[|rest| - 1] == categories[n - 1];
    }
  }

  /** Dropping the last category of a list without repeats drops exactly that category. */
  lemma DistinctInit<C>(xs: seq<C>)
    requires Distinct(xs) && xs != []
    ensures Distinct(xs[..|xs| - 1])
    ensures forall c :: c in xs[..|xs| - 1] <==> c in xs && c != xs[|xs| - 1]
  {
    var init := xs[..|xs| - 1];
    forall c | c in xs && c != xs[|xs| - 1]
      ensures c in init
    {
      var i :| 0 <= i < |xs| && xs[i] == c;
      assert init[i] == c;
    }
  }

  /** Removing one entry of a list without repeats removes exactly that category. */
  lemma DistinctWithout<C>(ys: seq<C>, k: nat)
    requires Distinct(ys) && k < |ys|
    ensures Distinct(ys[..k] + ys[k + 1..])
    ensures forall c :: c in ys[..k] + ys[k + 1..] <==> c in ys && c != ys[k]
  {
    var rest := ys[..k] + ys[k + 1..];
    assert forall i | 0 <= i < |rest| :: rest[i] == if i < k then ys[i] else ys[i + 1];
    forall c | c in ys && c != ys[k]
      ensures c in rest
    {
      var i :| 0 <= i < |ys| && ys[i] == c;
      if i < k {
        assert rest[i] == c;
      } else {
        assert rest[i - 1] == c;
      }
    }
  }

  /**
   * The score does not depend on the order of the categories summed, nor on
   * categories with no mention: two lists without repeats that hold the same
   * counted categories give the same score. Summing over the keys of
   * `symptom_counts`, in insertion order, therefore gives the score summed
   * over any fixed list of all categories.
   */
  lemma {:induction false} ScoreOrderFree<C>(xs: seq<C>, ys: seq<C>, weights: map<C, nat>, counts: map<C, nat>)
    requires Distinct(xs) && Distinct(ys)
    requires forall c | Count(counts, c) > 0 :: c in xs <==> c in ys
    ensures Score(xs, weights, counts) == Score(ys, weights, counts)
    decreases |xs|
  {
    if xs == [] {
      ScoreOfUncounted(ys, weights, counts);
    } else {
      var init := xs[..|xs| - 1];
      var d := xs[|xs| - 1];
      DistinctInit(xs);
      if Count(counts, d) == 0 {
        ScoreOrderFree(init, ys, weights, counts);
      } else {
        var k :| 0 <= k < |ys| && ys[k] == d;
        ScoreWithout(ys, weights, counts, k);
        DistinctWithout(ys, k);
        ScoreOrderFree(init, ys[..k] + ys[k + 1..], weights, counts);
      }
    }
  }
}
