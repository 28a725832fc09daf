/**
  The mood prediction engine of the `/api/ml/predict` route: the gate that
  accepts only integer nutrition levels in 0..3, and the rule cascade that
  maps four levels to one of four moods with a fixed confidence and a fixed
  one-item food recommendation.
 */
module MoodEngine {

  /** One nutrition field as it arrives in the JSON body of the request.
      JSON numbers are finite, so a number is a real; a string, a boolean,
      null, an object or a missing key is `NotNumber`. */
  datatype Field = Number(value: real) | NotNumber

  /** JavaScript's `Number.isInteger`: a number with no fractional part. */
  predicate IsInteger(f: Field) {
    f.Number? && f.value.Floor as real == f.value
  }

  /** What the gate accepts for one field: an integer between 0 and 3 inclusive. */
  predicate IsLevel(f: Field) {
    IsInteger(f) && 0.0 <= f.value <= 3.0
  }

  type Level = x: int | 0 <= x <= 3

  /** A request that passed the gate. */
  datatype NutritionInput = NutritionInput(
    calorieLevel: Level, proteinLevel: Level, fatLevel: Level, carbLevel: Level)

  const LevelError: string := "All nutrition levels must be integers between 0 and 3"

  datatype Validated = Accepted(input: NutritionInput) | Rejected(message: string)

  /** The field as a level, for a field the gate has already accepted. */
  function ToLevel(f: Field): (l: Level)
    requires IsLevel(f)
    ensures l as real == f.value
  {
    f.value.Floor
  }

  /** The gate in front of the classifier: the first violated test (not an
      integer, below 0, above 3) on any of the four fields rejects the
      request with the one fixed message. */
  function Validate(calorie: Field, protein: Field, fat: Field, carb: Field): (r: Validated)
    ensures r.Accepted? <==> IsLevel(calorie) && IsLevel(protein) && IsLevel(fat) && IsLevel(carb)
    ensures r.Accepted? ==>
      && r.input.calorieLevel as real == calorie.value
      && r.input.proteinLevel as real == protein.value
      && r.input.fatLevel as real == fat.value
      && r.input.carbLevel as real == carb.value
    ensures r.Rejected? ==> r.message == LevelError
  {
    if || !IsInteger(calorie) || calorie.value < 0.0 || calorie.value > 3.0
       || !IsInteger(protein) || protein.value < 0.0 || protein.value > 3.0
       || !IsInteger(fat) || fat.value < 0.0 || fat.value > 3.0
       || !IsInteger(carb) || carb.value < 0.0 || carb.value > 3.0
    then
      Rejected(LevelError)
    else
      Accepted(NutritionInput(ToLevel(calorie), ToLevel(protein), ToLevel(fat), ToLevel(carb)))
  }

  /** The inputs the gate is meant to turn away. */
  lemma ValidateRejectsExamples()
    ensures Validate(Number(4.0), Number(0.0), Number(0.0), Number(0.0)) == Rejected(LevelError)
    ensures Validate(Number(0.0), Number(-1.0), Number(0.0), Number(0.0)) == Rejected(LevelError)
    ensures Validate(Number(1.5), Number(0.0), Number(0.0), Number(0.0)) == Rejected(LevelError)
    ensures Validate(Number(0.0), Number(0.0), NotNumber, Number(0.0)) == Rejected(LevelError)
    ensures Validate(Number(3.0), Number(0.0), Number(0.0), Number(0.0)).Accepted?
  {
  }

  // ---------------------------------------------------------------------
  // Classification

  datatype Mood = Energizing | Calming | Focused | Balanced

  /** The label the route writes into its JSON response and into the database. */
  function Label(m: Mood): (s: string)
    ensures s != ""
  {
    match m
    case Energizing => "energizing"
    case Calming => "calming"
    case Focused => "focused"
    case Balanced => "balanced"
  }

  lemma LabelInjective(a: Mood, b: Mood)
    ensures Label(a) == Label(b) <==> a == b
  {
    if a != b {
      assert Label(a)[0] != Label(b)[0];
    }
  }

  /** The confidence reported with every prediction. */
  const Confidence: real := 0.85

  /** Rule 1: high calories with at least moderate protein. */
  predicate EnergizingRule(n: NutritionInput) {
    n.calorieLevel > 2 && n.proteinLevel > 1
  }

  /** Rule 2: high fat with high carbohydrates. */
  predicate CalmingRule(n: NutritionInput) {
    n.fatLevel > 2 && n.carbLevel > 2
  }

  /** Rule 3: high protein with low carbohydrates. */
  predicate FocusedRule(n: NutritionInput) {
    n.proteinLevel > 2 && n.carbLevel < 2
  }

  /** The priority cascade of the classifier: the first rule that holds
      decides the mood, and `Balanced` is the default. */
  function PredictMood(n: NutritionInput): (m: Mood)
    ensures m == Energizing <==> EnergizingRule(n)
    ensures m == Calming <==> !EnergizingRule(n) && CalmingRule(n)
    ensures m == Focused <==> !EnergizingRule(n) && !CalmingRule(n) && FocusedRule(n)
    ensures m == Balanced <==> !EnergizingRule(n) && !CalmingRule(n) && !FocusedRule(n)
  {
    if n.calorieLevel > 2 && n.proteinLevel > 1 then Energizing
    else if n.fatLevel > 2 && n.carbLevel > 2 then Calming
    else if n.proteinLevel > 2 && n.carbLevel < 2 then Focused
    else Balanced
  }

  // ---------------------------------------------------------------------
  // The cascade as a table of rules read in order, first match wins

  datatype Nutrient = Calorie | Protein | Fat | Carb

  /** A strict threshold test on one nutrient. */
  datatype Comparison = Above(nutrient: Nutrient, bound: int) | Below(nutrient: Nutrient, bound: int)

  datatype Rule = Rule(conditions: seq<Comparison>, mood: Mood)

  function LevelOf(n: NutritionInput, which: Nutrient): Level {
    match which
    case Calorie => n.calorieLevel
    case Protein => n.proteinLevel
    case Fat => n.fatLevel
    case Carb => n.carbLevel
  }

  predicate Holds(c: Comparison, n: NutritionInput) {
    match c
    case Above(which, bound) => LevelOf(n, which) > bound
    case Below(which, bound) => LevelOf(n, which) < bound
  }

  /** A rule fires when all of its conditions hold. */
  predicate Fires(r: Rule, n: NutritionInput) {
    forall c :: c in r.conditions ==> Holds(c, n)
  }

  /** The three rules of the classifier, in priority order. */
  const Rules: seq<Rule> := [
    Rule([Above(Calorie, 2), Above(Protein, 1)], Energizing),
    Rule([Above(Fat, 2), Above(Carb, 2)], Calming),
    Rule([Above(Protein, 2), Below(Carb, 2)], Focused)
  ]

  /** The mood of the first rule that fires, or `fallback` when none does. */
  function FirstMatch(rules: seq<Rule>, n: NutritionInput, fallback: Mood): Mood {
    if rules == [] then fallback
    else if Fires(rules[0], n) then rules[0].mood
    else FirstMatch(rules[1..], n, fallback)
  }

  /** First match wins: the result is the mood of the earliest rule that fires. */
  lemma {:induction false} FirstMatchIsEarliest(rules: seq<Rule>, n: NutritionInput, fallback: Mood, k: nat)
    requires k < |rules| && Fires(rules[k], n)
    requires forall j :: 0 <= j < k ==> !Fires(rules[j], n)
    ensures FirstMatch(rules, n, fallback) == rules[k].mood
  {
    if k > 0 {
      assert !Fires(rules[0], n);
      forall j | 0 <= j < k - 1
        ensures !Fires(rules[1..][j], n)
      {
        assert rules[1..][j] == rules[j + 1];
      }
      FirstMatchIsEarliest(rules[1..], n, fallback, k - 1);
    }
  }

  /** When no rule fires, the fallback is the result. */
  lemma {:induction false} FirstMatchFallback(rules: seq<Rule>, n: NutritionInput, fallback: Mood)
    requires forall j :: 0 <= j < |rules| ==> !Fires(rules[j], n)
    ensures FirstMatch(rules, n, fallback) == fallback
  {
    if rules != [] {
      assert !Fires(rules[0], n);
      forall j | 0 <= j < |rules| - 1
        ensures !Fires(rules[1..][j], n)
      {
        assert rules[1..][j] == rules[j + 1];
      }
      FirstMatchFallback(rules[1..], n, fallback);
    }
  }

  /** The classifier's if/else-if chain is exactly the rule table read in
      order with `Balanced` as the fallback. */
  lemma CascadeIsFirstMatch(n: NutritionInput)
    ensures PredictMood(n) == FirstMatch(Rules, n, Balanced)
  {
    var r1, r2, r3 := Rules[0], Rules[1], Rules[2];
    assert Fires(r1, n) <==> EnergizingRule(n) by {
      assert r1.conditions[0] in r1.conditions && r1.conditions[1] in r1.conditions;
    }
    assert Fires(r2, n) <==> CalmingRule(n) by {
      assert r2.conditions[0] in r2.conditions && r2.conditions[1] in r2.conditions;
    }
    assert Fires(r3, n) <==> FocusedRule(n) by {
      assert r3.conditions[0] in r3.conditions && r3.conditions[1] in r3.conditions;
    }
    if EnergizingRule(n) {
      FirstMatchIsEarliest(Rules, n, Balanced, 0);
    } else if CalmingRule(n) {
      FirstMatchIsEarliest(Rules, n, Balanced, 1);
    } else if FocusedRule(n) {
      FirstMatchIsEarliest(Rules, n, Balanced, 2);
    } else {
      FirstMatchFallback(Rules, n, Balanced);
    }
  }

  /** Comparisons are strict: a level equal to a rule's bound does not fire it. */
  lemma StrictBoundaries(n: NutritionInput)
    ensures n.calorieLevel == 2 ==> PredictMood(n) != Energizing
    ensures n.proteinLevel == 1 ==> PredictMood(n) != Energizing
    ensures n.fatLevel == 2 ==> PredictMood(n) != Calming
    ensures n.carbLevel == 2 ==> PredictMood(n) != Calming && PredictMood(n) != Focused
    ensures n.proteinLevel == 2 ==> PredictMood(n) != Focused
  {
  }

  /** Inputs that pin down the rule order and the strict comparisons. */
  lemma PredictMoodExamples()
    ensures PredictMood(NutritionInput(3, 2, 3, 3)) == Energizing
    ensures PredictMood(NutritionInput(2, 2, 0, 0)) == Balanced
    ensures PredictMood(NutritionInput(0, 3, 0, 1)) == Focused
    ensures PredictMood(NutritionInput(0, 0, 0, 0)) == Balanced
    ensures PredictMood(NutritionInput(3, 3, 0, 0)) == Energizing
  {
  }

  // ---------------------------------------------------------------------
  // The response of the model call

  datatype MoodPrediction = MoodPrediction(mood: Mood, confidence: real)

  datatype FoodRecommendation = FoodRecommendation(
    foodName: string, calories: int, proteins: int, fats: int, carbohydrates: int,
    similarityScore: real, moodCategory: Mood)

  datatype MLResponse = MLResponse(prediction: MoodPrediction, recommendations: seq<FoodRecommendation>)

  /** The one catalogue entry the route recommends, tagged with the predicted mood. */
  function NasiGoreng(mood: Mood): FoodRecommendation {
    FoodRecommendation("Nasi Goreng", 350, 12, 15, 45, 0.9, mood)
  }

  /** Recommendations are ordered by non-increasing similarity. */
  predicate SortedBySimilarity(recs: seq<FoodRecommendation>) {
    forall i, j :: 0 <= i < j < |recs| ==> recs[i].similarityScore >= recs[j].similarityScore
  }

  /** The model call: the predicted mood with the fixed confidence, and a
      non-empty, similarity-ordered list of recommendations in [0, 1] that
      all support the predicted mood. */
  function CallMLModel(n: NutritionInput): (r: MLResponse)
    ensures r.prediction.mood == PredictMood(n)
    ensures r.prediction.confidence == Confidence && 0.0 < r.prediction.confidence <= 1.0
    ensures r.recommendations == [NasiGoreng(r.prediction.mood)]
    ensures |r.recommendations| >= 1 && SortedBySimilarity(r.recommendations)
    ensures forall f :: f in r.recommendations ==>
      f.moodCategory == r.prediction.mood && 0.0 <= f.similarityScore <= 1.0
  {
    var mood := PredictMood(n);
    MLResponse(MoodPrediction(mood, Confidence), [NasiGoreng(mood)])
  }
}
