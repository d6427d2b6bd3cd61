/** The utility-based candidate selector (mixins/utility_function.py):
    U = α·R − β·C, where R scores a reply on engagement, helpfulness and
    character adherence, and C charges it for typing time, sentence complexity
    and risky topics. The evaluation and cost dimension lists are fixed, so
    the three slots of each score vector are always filled in the same order. */
module Utility {
  import opened Wrappers
  import opened Text

  const DefaultAlpha: seq<real> := [1.0, 0.8, 0.6]
  const DefaultBeta: seq<real> := [0.5, 0.3, 0.2]
  const EvaluationDimensions: seq<string> := ["engagement", "helpfulness", "character_adherence"]
  const CostDimensions: seq<string> := ["response_time", "complexity", "risk"]

  const StructureMarkers: seq<string> := ["- ", "1. ", "* "]
  const RiskyTopics: seq<string> :=
    ["政治", "宗教", "賭博", "成人向け", "politics", "religion", "gambling", "adult"]

  function Min(a: real, b: real): real {
    if a <= b then a else b
  }

  function Dot(a: seq<real>, b: seq<real>): real
    requires |a| == |b|
  {
    if a == [] then 0.0 else Dot(a[..|a| - 1], b[..|b| - 1]) + a[|a| - 1] * b[|b| - 1]
  }

  /** `np.resize(a, n)`: `a` repeated cyclically to length `n`, zeros when `a`
      is empty. */
  function Resize(a: seq<real>, n: nat): (r: seq<real>)
    ensures |r| == n
    ensures |a| == n ==> r == a
    ensures a != [] ==> forall i :: 0 <= i < n ==> r[i] == a[i % |a|]
  {
    if a == [] then seq(n, i => 0.0)
    else
      var r := seq(n, i requires 0 <= i < n => a[i % |a|]);
      assert |a| == n ==> r == a by {
        if |a| == n {
          forall i | 0 <= i < n ensures r[i] == a[i] {
            ModOfSmaller(i, n);
          }
        }
      }
      r
  }

  lemma ModOfSmaller(i: nat, n: nat)
    requires i < n
    ensures i % n == i
  {
  }

  /** `length_score`: rises to 1 at 500 characters, then falls, and is
      negative past 1000. */
  function LengthScore(n: nat): real {
    if n < 500 then Min(n as real / 500.0, 1.0) else 2.0 - n as real / 500.0
  }

  /** The engagement score of a reply. */
  function Engagement(response: string): real {
    var questionScore := if Contains(response, "?") then 0.2 else 0.0;
    Min(0.7 * LengthScore(|response|) + 0.3 * questionScore, 1.0)
  }

  lemma EngagementBounds(response: string)
    ensures Engagement(response) <= 1.0
    ensures |response| <= 1000 ==> Engagement(response) >= 0.0
    ensures |response| >= 1500 ==> Engagement(response) < 0.0
  {
  }

  predicate HasStructureMarker(response: string) {
    exists m | m in StructureMarkers :: Contains(response, m)
  }

  function Helpfulness(response: string): real {
    var structureScore := if HasStructureMarker(response) then 0.3 else 0.0;
    var detailScore := Min(|response| as real / 800.0, 0.7);
    Min(structureScore + detailScore, 1.0)
  }

  lemma HelpfulnessBounds(response: string)
    ensures 0.0 <= Helpfulness(response) <= 1.0
  {
  }

  /** The keywords that occur in the reply, both sides lower-cased. */
  function MatchedKeywords(response: string, keywords: set<string>): set<string> {
    set k | k in keywords && Contains(Lower(response), Lower(k))
  }

  function Adherence(response: string, keywords: set<string>): real {
    var k := |keywords|;
    var matches := |MatchedKeywords(response, keywords)|;
    var keywordScore := Min(matches as real / (if k >= 1 then k as real else 1.0), 0.8);
    Min(0.7 + keywordScore, 1.0)
  }

  lemma MatchedKeywordsBound(response: string, keywords: set<string>)
    ensures |MatchedKeywords(response, keywords)| <= |keywords|
  {
    assert MatchedKeywords(response, keywords) <= keywords;
    SubsetCardinality(MatchedKeywords(response, keywords), keywords);
  }

  lemma SubsetCardinality<T>(a: set<T>, b: set<T>)
    requires a <= b
    ensures |a| <= |b|
  {
    if a != {} {
      var x :| x in a;
      SubsetCardinality(a - {x}, b - {x});
    }
  }

  /** Adherence is at least 0.7 whatever the reply, and reaches 1.0 once at
      least 30% of the keywords occur in it. */
  lemma AdherenceBounds(response: string, keywords: set<string>)
    ensures 0.7 <= Adherence(response, keywords) <= 1.0
    ensures 10 * |MatchedKeywords(response, keywords)| >= 3 * |keywords| && keywords != {} ==>
              Adherence(response, keywords) == 1.0
  {
    var m := |MatchedKeywords(response, keywords)|;
    var k := |keywords|;
    if 10 * m >= 3 * k && k >= 1 {
      assert m as real / k as real >= 0.3 by {
        assert m as real >= 0.3 * k as real;
      }
    }
  }

  /** `estimate_response_evaluation`: [engagement, helpfulness, adherence]. */
  function Evaluation(response: string, keywords: set<string>): (r: seq<real>)
    ensures |r| == |EvaluationDimensions|
  {
    [Engagement(response), Helpfulness(response), Adherence(response, keywords)]
  }

  /** Typing-time cost at 900 characters per minute, full after two minutes. */
  function ResponseTimeCost(response: string): real {
    Min(|response| as real / 900.0 / 2.0, 1.0)
  }

  function SentenceBreaks(response: string): nat {
    Count(response, ". ") + Count(response, "! ") + Count(response, "? ")
  }

  function ComplexityCost(response: string): real {
    var breaks := SentenceBreaks(response);
    var averageSentenceLength := |response| as real / (if breaks >= 1 then breaks as real else 1.0);
    Min(averageSentenceLength / 50.0, 0.8)
  }

  /** How many of `topics` occur in the lower-cased reply. */
  function TopicHits(lowered: string, topics: seq<string>): (n: nat)
    ensures n <= |topics|
  {
    if topics == [] then 0
    else TopicHits(lowered, topics[..|topics| - 1])
         + (if Contains(lowered, topics[|topics| - 1]) then 1 else 0)
  }

  lemma {:induction false} TopicHitsZero(lowered: string, topics: seq<string>)
    ensures TopicHits(lowered, topics) == 0 <==> forall t | t in topics :: !Contains(lowered, t)
  {
    if topics != [] {
      var init := topics[..|topics| - 1];
      TopicHitsZero(lowered, init);
      assert forall t | t in topics :: t in init || t == topics[|topics| - 1];
      assert forall t | t in init :: t in topics;
    }
  }

  function RiskCost(response: string): real {
    Min(0.2 * TopicHits(Lower(response), RiskyTopics) as real, 1.0)
  }

  /** The three costs lie in [0, 1] (complexity in [0, 0.8]), and the risk cost
      is zero exactly when no listed topic occurs in the lower-cased reply. */
  lemma CostBounds(response: string)
    ensures 0.0 <= ResponseTimeCost(response) <= 1.0
    ensures 0.0 <= ComplexityCost(response) <= 0.8
    ensures 0.0 <= RiskCost(response) <= 1.0
    ensures RiskCost(response) == 0.0 <==> forall t | t in RiskyTopics :: !Contains(Lower(response), t)
  {
    TopicHitsZero(Lower(response), RiskyTopics);
  }

  /** `estimate_response_cost`: [response time, complexity, risk]. */
  function Cost(response: string): (r: seq<real>)
    ensures |r| == |CostDimensions|
  {
    [ResponseTimeCost(response), ComplexityCost(response), RiskCost(response)]
  }

  /** `i` is the first position of a greatest value of `us`. */
  predicate IsFirstMax(us: seq<real>, i: int) {
    && 0 <= i < |us|
    && (forall j | 0 <= j < |us| :: us[j] <= us[i])
    && (forall j | 0 <= j < i :: us[j] < us[i])
  }

  /** The position of the first greatest value, found by one scan from the left. */
  function FirstMaxIndex(us: seq<real>): (i: nat)
    requires us != []
    ensures IsFirstMax(us, i)
  {
    if |us| == 1 then 0
    else
      var k := FirstMaxIndex(us[..|us| - 1]);
      if us[|us| - 1] > us[k] then |us| - 1 else k
  }

  /** Extending the scan by one value moves the answer to that value exactly
      when it is strictly greater. */
  lemma FirstMaxStep(us: seq<real>, k: nat)
    requires 0 < k < |us|
    ensures var m := FirstMaxIndex(us[..k]);
            FirstMaxIndex(us[..k + 1]) == if us[k] > us[m] then k else m
  {
    assert us[..k + 1][..k] == us[..k];
  }

  /** The scan of `select_optimal_response`: the best utility starts at
      minus infinity (`None`) and only a strictly greater utility replaces
      it, so the first of equal maxima is kept. */
  method FirstMaxScan(us: seq<real>) returns (bestIndex: nat)
    requires us != []
    ensures bestIndex == FirstMaxIndex(us)
  {
    var bestUtility: Option<real> := None;
    bestIndex := 0;
    var k := 0;
    while k < |us|
      invariant 0 <= k <= |us|
      invariant k == 0 <==> bestUtility.None?
      invariant 0 <= bestIndex < |us|
      invariant k > 0 ==> bestIndex == FirstMaxIndex(us[..k]) && bestUtility == Some(us[bestIndex])
    {
      if k > 0 {
        FirstMaxStep(us, k);
      }
      if bestUtility.None? || us[k] > bestUtility.value {
        bestUtility := Some(us[k]);
        bestIndex := k;
      }
      k := k + 1;
    }
    assert us[..|us|] == us;
  }

  class UtilityFunction {
    var alpha: seq<real>
    var beta: seq<real>

    /** One weight per evaluation dimension and one per cost dimension. */
    predicate Valid()
      reads this
    {
      |alpha| == |EvaluationDimensions| && |beta| == |CostDimensions|
    }

    /** `initialize_utility_function`. */
    constructor ()
      ensures alpha == DefaultAlpha && beta == DefaultBeta
      ensures Valid()
    {
      alpha := DefaultAlpha;
      beta := DefaultBeta;
    }

    /** `calculate_utility`: both vectors are first resized to their weights' length. */
    function CalculateUtility(scores: seq<real>, costs: seq<real>): real
      reads this
    {
      var scores' := if |scores| != |alpha| then Resize(scores, |alpha|) else scores;
      var costs' := if |costs| != |beta| then Resize(costs, |beta|) else costs;
      Dot(alpha, scores') - Dot(beta, costs')
    }

    /** The utility of one candidate reply. */
    function UtilityOf(response: string, keywords: set<string>): real
      reads this
    {
      CalculateUtility(Evaluation(response, keywords), Cost(response))
    }

    /** The utilities of `candidates`, position by position. */
    function Utilities(candidates: seq<string>, keywords: set<string>): (us: seq<real>)
      reads this
      ensures |us| == |candidates|
      ensures forall j :: 0 <= j < |candidates| ==> us[j] == UtilityOf(candidates[j], keywords)
    {
      seq(|candidates|, j reads this requires 0 <= j < |candidates| => UtilityOf(candidates[j], keywords))
    }

    /** `select_optimal_response`: the candidate of strictly greatest utility,
        the earliest one on ties, and "" when there is none. The utilities
        are pure, so they are computed before the scan. */
    method SelectOptimalResponse(candidates: seq<string>, keywords: set<string>) returns (best: string)
      requires Valid()
      ensures candidates == [] ==> best == ""
      ensures candidates != [] ==> best == candidates[FirstMaxIndex(Utilities(candidates, keywords))]
    {
      if candidates == [] {
        return "";
      }
      var us := Utilities(candidates, keywords);
      var i := FirstMaxScan(us);
      best := candidates[i];
    }

    /** `update_utility_weights`: a weight vector is replaced only by one of
        the same length. */
    method UpdateUtilityWeights(newAlpha: Option<seq<real>>, newBeta: Option<seq<real>>)
      modifies this
      ensures alpha == if newAlpha.Some? && |newAlpha.value| == |old(alpha)| then newAlpha.value else old(alpha)
      ensures beta == if newBeta.Some? && |newBeta.value| == |old(beta)| then newBeta.value else old(beta)
      ensures old(Valid()) ==> Valid()
    {
      if newAlpha.Some? {
        if |newAlpha.value| == |alpha| {
          alpha := newAlpha.value;
        }
      }
      if newBeta.Some? {
        if |newBeta.value| == |beta| {
          beta := newBeta.value;
        }
      }
    }
  }

  /** With matching lengths no resizing happens and the utility is α·R − β·C. */
  lemma UtilityIsWeightedDifference(u: UtilityFunction, scores: seq<real>, costs: seq<real>)
    requires |scores| == |u.alpha| && |costs| == |u.beta|
    ensures u.CalculateUtility(scores, costs) == Dot(u.alpha, scores) - Dot(u.beta, costs)
  {
  }

  /** A three-slot dot product written out. */
  lemma Dot3(a: seq<real>, b: seq<real>)
    requires |a| == 3 && |b| == 3
    ensures Dot(a, b) == a[0] * b[0] + a[1] * b[1] + a[2] * b[2]
  {
    assert Dot(a[..1], b[..1]) == a[0] * b[0] by {
      assert a[..1][..0] == [] && b[..1][..0] == [];
    }
    assert Dot(a[..2], b[..2]) == a[0] * b[0] + a[1] * b[1] by {
      assert a[..2][..1] == a[..1] && b[..2][..1] == b[..1];
    }
    assert a[..3] == a && b[..3] == b;
  }

  /** With the default weights R = [0.9, 0.5, 0.8] and C = [0.1, 0.2, 0.3]
      give 1.78 − 0.17 = 1.61. */
  lemma DefaultWeightsExample(u: UtilityFunction)
    requires u.alpha == DefaultAlpha && u.beta == DefaultBeta
    ensures u.CalculateUtility([0.9, 0.5, 0.8], [0.1, 0.2, 0.3]) == 1.61
  {
    Dot3(DefaultAlpha, [0.9, 0.5, 0.8]);
    Dot3(DefaultBeta, [0.1, 0.2, 0.3]);
  }

  /** The utility of a reply under the default weights, slot by slot. */
  lemma DefaultUtilityExpanded(u: UtilityFunction, response: string, keywords: set<string>)
    requires u.alpha == DefaultAlpha && u.beta == DefaultBeta
    ensures u.UtilityOf(response, keywords)
            == 1.0 * Engagement(response) + 0.8 * Helpfulness(response) + 0.6 * Adherence(response, keywords)
               - (0.5 * ResponseTimeCost(response) + 0.3 * ComplexityCost(response) + 0.2 * RiskCost(response))
  {
    Dot3(DefaultAlpha, Evaluation(response, keywords));
    Dot3(DefaultBeta, Cost(response));
  }

  /** Under the default weights no reply is worth more than 2.4 (every score
      is at most 1 and every cost non-negative), while a reply of 2000
      characters or more is worth less than nothing. */
  lemma DefaultUtilityBounds(u: UtilityFunction, response: string, keywords: set<string>)
    requires u.alpha == DefaultAlpha && u.beta == DefaultBeta
    ensures u.UtilityOf(response, keywords) <= 2.4
    ensures |response| >= 2000 ==> u.UtilityOf(response, keywords) < 0.0
  {
    DefaultUtilityExpanded(u, response, keywords);
    var e, h, a := Engagement(response), Helpfulness(response), Adherence(response, keywords);
    var t, c, r := ResponseTimeCost(response), ComplexityCost(response), RiskCost(response);
    EngagementBounds(response);
    HelpfulnessBounds(response);
    AdherenceBounds(response, keywords);
    CostBounds(response);
    if |response| >= 2000 {
      assert e <= -1.34 by {
        assert LengthScore(|response|) <= -2.0;
      }
      assert t == 1.0;
    }
  }
}
