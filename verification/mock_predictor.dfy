/**
 The point scorer of the single-page variant: it adds weighted points for
 each risk it finds, lists the contributing factors in a fixed order, and
 turns the points into a probability that a bounded jitter perturbs and a
 clamp keeps away from 0 and 1.
 */
module MockPredictor {
  import opened Wrappers
  import opened Lists
  import opened BodyMass

  /**
   The row the scorer reads. Every value is the integer the form produced:
   gender 1 (female) or 2 (male), levels 1 to 3, and 0/1 lifestyle flags.
   */
  datatype PredictData = PredictData(
    age: int,          // years
    gender: int,
    height: int,       // cm
    weight: int,       // kg
    apHi: int,
    apLo: int,
    cholesterol: int,
    gluc: int,
    smoke: int,
    alco: int,
    active: int)

  /** The contributing factors the scorer can list. */
  datatype Factor =
    | AgeOver50                    // "Age > 50"
    | Obesity(bmi: real)           // "Obesity", quoting the BMI
    | Hypertension
    | CriticallyHighCholesterol
    | ElevatedCholesterol
    | ElevatedGlucose
    | Smoker
    | SedentaryLifestyle

  /**
   The slot of each factor in the list. The two cholesterol factors share a
   slot: they come from one if/elif and never appear together.
   */
  function FactorRank(x: Factor): int {
    match x
    case AgeOver50 => 0
    case Obesity(_) => 1
    case Hypertension => 2
    case CriticallyHighCholesterol => 3
    case ElevatedCholesterol => 3
    case ElevatedGlucose => 4
    case Smoker => 5
    case SedentaryLifestyle => 6
  }

  /** The BMI of the row, weight over the square of the height in metres. */
  function DataBmi(d: PredictData): real
    requires d.height != 0
  {
    Bmi(d.weight as real, d.height)
  }

  /**
   When a factor is listed: age strictly above 50, BMI strictly above 30,
   systolic strictly above 140 or diastolic strictly above 90, cholesterol
   3 (critical) or 2 (elevated), glucose above 1, a smoker, an inactive
   patient.
   */
  predicate FactorFires(x: Factor, d: PredictData)
    requires d.height != 0
  {
    match x
    case AgeOver50 => d.age > 50
    case Obesity(b) => DataBmi(d) > 30.0 && b == DataBmi(d)
    case Hypertension => d.apHi > 140 || d.apLo > 90
    case CriticallyHighCholesterol => d.cholesterol == 3
    case ElevatedCholesterol => d.cholesterol == 2
    case ElevatedGlucose => d.gluc > 1
    case Smoker => d.smoke == 1
    case SedentaryLifestyle => d.active == 0
  }

  /** A list holding exactly the factors that fire, each once, in slot order. */
  ghost predicate IsFactorList(s: seq<Factor>, d: PredictData)
    requires d.height != 0
  {
    && StrictlyRanked(s, FactorRank)
    && forall x :: x in s <==> FactorFires(x, d)
  }

  /** `n` points when `c` holds, none otherwise. */
  function Points(c: bool, n: int): (p: int)
    ensures 0 <= n ==> 0 <= p <= n
  {
    if c then n else 0
  }

  /**
   The points of the row: 15 for age above 50, 5 for a male, 15 for a BMI
   above 30 or else 5 for one above 25, 20 for hypertension, 25 for
   cholesterol 3 or else 10 for cholesterol 2, 10 for glucose above 1,
   10 for a smoker, 5 for alcohol, 10 for an inactive patient.
   */
  function RiskScore(d: PredictData): (score: int)
    requires d.height != 0
    ensures 0 <= score <= 115
  {
    var bmi := DataBmi(d);
    Points(d.age > 50, 15)
    + Points(d.gender == 2, 5)
    + Points(bmi > 30.0, 15) + Points(!(bmi > 30.0) && bmi > 25.0, 5)
    + Points(d.apHi > 140 || d.apLo > 90, 20)
    + Points(d.cholesterol == 3, 25) + Points(d.cholesterol == 2, 10)
    + Points(d.gluc > 1, 10)
    + Points(d.smoke == 1, 10)
    + Points(d.alco == 1, 5)
    + Points(d.active == 0, 10)
  }

  /** The smaller of two numbers, as the builtin `min` gives it. */
  function Min(a: real, b: real): (m: real)
    ensures m <= a && m <= b
    ensures m == a || m == b
  {
    if b < a then b else a
  }

  /** The larger of two numbers, as the builtin `max` gives it. */
  function Max(a: real, b: real): (m: real)
    ensures a <= m && b <= m
    ensures m == a || m == b
  {
    if b > a then b else a
  }

  /** The points normalised to a probability, capped at 0.95. */
  function BaseProb(score: int): (p: real)
    ensures p <= 0.95
    ensures p == score as real / 100.0 || p == 0.95
    ensures score as real / 100.0 <= 0.95 ==> p == score as real / 100.0
    ensures 0 <= score ==> 0.0 <= p
  {
    Min(score as real / 100.0, 0.95)
  }

  /**
   The clamp into [0.02, 0.98]. It leaves a probability already inside
   untouched, never moves a probability across one half, and at or below
   0.98 only lifts a probability up to 0.02.
   */
  function ClampProb(p: real): (c: real)
    ensures 0.02 <= c <= 0.98
    ensures 0.02 <= p <= 0.98 ==> c == p
    ensures c > 0.5 <==> p > 0.5
    ensures p <= 0.98 ==> c == Max(p, 0.02)
  {
    Min(Max(p, 0.02), 0.98)
  }

  /**
   The scorer. `jitter` stands for the uniform draw in [-0.02, 0.02] the
   source adds to the base probability.
   */
  method MockPredict(data: PredictData, jitter: real) returns (finalProb: real, factors: seq<Factor>)
    requires data.height != 0
    requires -0.02 <= jitter <= 0.02
    ensures finalProb == ClampProb(BaseProb(RiskScore(data)) + jitter)
    ensures 0.02 <= finalProb <= 0.98
    ensures finalProb <= 0.97
    ensures IsFactorList(factors, data)
  {
    var score := 0;
    factors := [];

    // 1. age
    score := score + Points(data.age > 50, 15);
    FactorStep(factors, 0, data, data.age > 50, AgeOver50);
    factors := factors + When(data.age > 50, AgeOver50);

    // 2. gender: points, no factor
    score := score + Points(data.gender == 2, 5);

    // 3. body-mass index: above 30, else above 25
    var bmi := Bmi(data.weight as real, data.height);
    score := score + Points(bmi > 30.0, 15) + Points(!(bmi > 30.0) && bmi > 25.0, 5);
    FactorStep(factors, 1, data, bmi > 30.0, Obesity(bmi));
    factors := factors + When(bmi > 30.0, Obesity(bmi));

    // 4. blood pressure
    score := score + Points(data.apHi > 140 || data.apLo > 90, 20);
    FactorStep(factors, 2, data, data.apHi > 140 || data.apLo > 90, Hypertension);
    factors := factors + When(data.apHi > 140 || data.apLo > 90, Hypertension);

    // 5. cholesterol: 3, else 2
    score := score + Points(data.cholesterol == 3, 25) + Points(data.cholesterol == 2, 10);
    CholesterolStep(factors, data);
    factors := factors + When(data.cholesterol == 3, CriticallyHighCholesterol)
                       + When(data.cholesterol == 2, ElevatedCholesterol);

    // 6. glucose
    score := score + Points(data.gluc > 1, 10);
    FactorStep(factors, 4, data, data.gluc > 1, ElevatedGlucose);
    factors := factors + When(data.gluc > 1, ElevatedGlucose);

    // 7. lifestyle
    score := score + Points(data.smoke == 1, 10);
    FactorStep(factors, 5, data, data.smoke == 1, Smoker);
    factors := factors + When(data.smoke == 1, Smoker);

    score := score + Points(data.alco == 1, 5);

    score := score + Points(data.active == 0, 10);
    FactorStep(factors, 6, data, data.active == 0, SedentaryLifestyle);
    factors := factors + When(data.active == 0, SedentaryLifestyle);
    FactorListDone(factors, data);
    assert score == RiskScore(data);

    // normalise, perturb, clamp
    var baseProb := BaseProb(score);
    finalProb := baseProb + jitter;
    assert finalProb <= 0.97;
    finalProb := ClampProb(finalProb);
  }

  /** The factor in slot `k`, when it fires. */
  function FactorDue(k: int, d: PredictData): Option<Factor>
    requires d.height != 0
  {
    if k == 0 then (if d.age > 50 then Some(AgeOver50) else None)
    else if k == 1 then (if DataBmi(d) > 30.0 then Some(Obesity(DataBmi(d))) else None)
    else if k == 2 then (if d.apHi > 140 || d.apLo > 90 then Some(Hypertension) else None)
    else if k == 3 then
      (if d.cholesterol == 3 then Some(CriticallyHighCholesterol)
       else if d.cholesterol == 2 then Some(ElevatedCholesterol) else None)
    else if k == 4 then (if d.gluc > 1 then Some(ElevatedGlucose) else None)
    else if k == 5 then (if d.smoke == 1 then Some(Smoker) else None)
    else if k == 6 then (if d.active == 0 then Some(SedentaryLifestyle) else None)
    else None
  }

  /** FactorDue(k, d) names exactly the firing factor of slot k. */
  lemma FactorDueExact(k: int, d: PredictData, y: Factor)
    requires d.height != 0
    requires FactorRank(y) == k
    ensures FactorFires(y, d) <==> FactorDue(k, d) == Some(y)
  {
  }

  /** `s` is the correct list as far as the slots below `k`. */
  ghost predicate FactorStage(s: seq<Factor>, k: int, d: PredictData)
    requires d.height != 0
  {
    && StrictlyRanked(s, FactorRank)
    && forall x :: x in s <==> FactorFires(x, d) && FactorRank(x) < k
  }

  /**
   Appending the factor of slot `k` exactly when it is due extends the stage
   by one slot.
   */
  lemma FactorStep(s: seq<Factor>, k: int, d: PredictData, due: bool, x: Factor)
    requires d.height != 0
    requires FactorStage(s, k, d)
    requires FactorDue(k, d) == if due then Some(x) else None
    ensures FactorStage(s + When(due, x), k + 1, d)
  {
    var t := s + When(due, x);
    forall y ensures y in t <==> FactorFires(y, d) && FactorRank(y) < k + 1 {
      if FactorRank(y) == k {
        FactorDueExact(k, d, y);
      }
    }
    forall i, j | 0 <= i < j < |t| ensures FactorRank(t[i]) < FactorRank(t[j]) {
      if j >= |s| {
        assert FactorDue(k, d) == Some(t[j]);
        if i < |s| { assert t[i] in s; }
      }
    }
  }

  /**
   The if/elif of slot 3 appends the critical factor for cholesterol 3 and
   the elevated one for cholesterol 2; the two guards exclude each other.
   */
  lemma CholesterolStep(s: seq<Factor>, d: PredictData)
    requires d.height != 0
    requires FactorStage(s, 3, d)
    ensures FactorStage(s + When(d.cholesterol == 3, CriticallyHighCholesterol)
                          + When(d.cholesterol == 2, ElevatedCholesterol), 4, d)
  {
    if d.cholesterol == 3 {
      FactorStep(s, 3, d, true, CriticallyHighCholesterol);
      assert s + [CriticallyHighCholesterol] + [] == s + [CriticallyHighCholesterol];
    } else {
      FactorStep(s, 3, d, d.cholesterol == 2, ElevatedCholesterol);
      assert s + [] == s;
    }
  }

  /** After slot 6 the list is complete: there is no further slot. */
  lemma FactorListDone(s: seq<Factor>, d: PredictData)
    requires d.height != 0
    requires FactorStage(s, 7, d)
    ensures IsFactorList(s, d)
  {
    forall x ensures FactorRank(x) < 7 {
    }
  }

  /** The row determines the factor list completely. */
  lemma FactorListUnique(s: seq<Factor>, t: seq<Factor>, d: PredictData)
    requires d.height != 0
    requires IsFactorList(s, d) && IsFactorList(t, d)
    ensures s == t
  {
    RankedUnique(s, t, FactorRank);
  }

  /**
   Whatever the row, the list holds at most seven factors; the two
   cholesterol factors never appear together; an obesity factor appears
   exactly when the BMI exceeds 30 and quotes that BMI; and the list starts
   with the age factor whenever that one fires.
   */
  lemma FactorListShape(s: seq<Factor>, d: PredictData)
    requires d.height != 0
    requires IsFactorList(s, d)
    ensures |s| <= 7
    ensures !(CriticallyHighCholesterol in s && ElevatedCholesterol in s)
    ensures (exists b :: Obesity(b) in s) <==> DataBmi(d) > 30.0
    ensures forall b :: Obesity(b) in s ==> b == DataBmi(d)
    ensures d.age > 50 ==> |s| > 0 && s[0] == AgeOver50
  {
    forall x | x in s ensures 0 <= FactorRank(x) < 7 {
    }
    RankedLength(s, FactorRank, 0, 7);
    if DataBmi(d) > 30.0 {
      assert Obesity(DataBmi(d)) in s;
    }
    if d.age > 50 {
      RankedHead(s, FactorRank, AgeOver50);
    }
  }

  /** The weight a listed factor carries in the points. */
  function FactorWeight(x: Factor): (w: int)
    ensures 10 <= w <= 25
  {
    match x
    case AgeOver50 => 15
    case Obesity(_) => 15
    case Hypertension => 20
    case CriticallyHighCholesterol => 25
    case ElevatedCholesterol => 10
    case ElevatedGlucose => 10
    case Smoker => 10
    case SedentaryLifestyle => 10
  }

  /** The total weight of a list of factors. */
  function Weights(s: seq<Factor>): (w: int)
    ensures 0 <= w
  {
    if |s| == 0 then 0 else Weights(s[..|s| - 1]) + FactorWeight(s[|s| - 1])
  }

  /** The weight of a concatenation is the sum of the weights of its parts. */
  lemma {:induction false} WeightsAppend(a: seq<Factor>, b: seq<Factor>)
    ensures Weights(a + b) == Weights(a) + Weights(b)
    decreases |b|
  {
    if b != [] {
      var b' := b[..|b| - 1];
      assert (a + b)[..|a + b| - 1] == a + b';
      WeightsAppend(a, b');
    } else {
      assert a + b == a;
    }
  }

  /** A factor listed when it is due weighs its weight when it is due. */
  lemma WeightsWhen(due: bool, x: Factor)
    ensures Weights(When(due, x)) == Points(due, FactorWeight(x))
  {
    if due {
      assert [x][..0] == [];
    }
  }

  /** Four factors appended when due add their weights when due. */
  lemma WeightsOfFour(a: seq<Factor>, c1: bool, x1: Factor, c2: bool, x2: Factor,
                      c3: bool, x3: Factor, c4: bool, x4: Factor)
    ensures Weights(a + When(c1, x1) + When(c2, x2) + When(c3, x3) + When(c4, x4))
         == Weights(a) + Points(c1, FactorWeight(x1)) + Points(c2, FactorWeight(x2))
          + Points(c3, FactorWeight(x3)) + Points(c4, FactorWeight(x4))
  {
    var w1, w2, w3, w4 := When(c1, x1), When(c2, x2), When(c3, x3), When(c4, x4);
    assert Weights(a + w1 + w2 + w3 + w4)
        == Weights(a) + Weights(w1) + Weights(w2) + Weights(w3) + Weights(w4) by {
      WeightsAppend(a, w1);
      WeightsAppend(a + w1, w2);
      WeightsAppend(a + w1 + w2, w3);
      WeightsAppend(a + w1 + w2 + w3, w4);
    }
    WeightsWhen(c1, x1);
    WeightsWhen(c2, x2);
    WeightsWhen(c3, x3);
    WeightsWhen(c4, x4);
  }

  /**
   The points not backed by a listed factor: 5 for a male, 5 for a BMI in
   (25, 30], 5 for alcohol.
   */
  function UnlistedPoints(d: PredictData): (p: int)
    requires d.height != 0
    ensures 0 <= p <= 15
  {
    var bmi := DataBmi(d);
    Points(d.gender == 2, 5) + Points(!(bmi > 30.0) && bmi > 25.0, 5) + Points(d.alco == 1, 5)
  }

  /** The factor list written out slot by slot, as a proof device. */
  ghost function ListedFactors(d: PredictData): seq<Factor>
    requires d.height != 0
  {
    var bmi := DataBmi(d);
    []
    + When(d.age > 50, AgeOver50)
    + When(bmi > 30.0, Obesity(bmi))
    + When(d.apHi > 140 || d.apLo > 90, Hypertension)
    + When(d.cholesterol == 3, CriticallyHighCholesterol)
    + When(d.cholesterol == 2, ElevatedCholesterol)
    + When(d.gluc > 1, ElevatedGlucose)
    + When(d.smoke == 1, Smoker)
    + When(d.active == 0, SedentaryLifestyle)
  }

  /** The written-out list is the factor list of the row. */
  lemma ListedFactorsListed(d: PredictData)
    requires d.height != 0
    ensures IsFactorList(ListedFactors(d), d)
  {
    var bmi := DataBmi(d);
    var c0: seq<Factor> := [];
    var c1 := c0 + When(d.age > 50, AgeOver50);
    var c2 := c1 + When(bmi > 30.0, Obesity(bmi));
    var c3 := c2 + When(d.apHi > 140 || d.apLo > 90, Hypertension);
    var c4 := c3 + When(d.cholesterol == 3, CriticallyHighCholesterol)
                 + When(d.cholesterol == 2, ElevatedCholesterol);
    var c5 := c4 + When(d.gluc > 1, ElevatedGlucose);
    var c6 := c5 + When(d.smoke == 1, Smoker);
    var c7 := c6 + When(d.active == 0, SedentaryLifestyle);
    FactorStep(c0, 0, d, d.age > 50, AgeOver50);
    FactorStep(c1, 1, d, bmi > 30.0, Obesity(bmi));
    FactorStep(c2, 2, d, d.apHi > 140 || d.apLo > 90, Hypertension);
    CholesterolStep(c3, d);
    FactorStep(c4, 4, d, d.gluc > 1, ElevatedGlucose);
    FactorStep(c5, 5, d, d.smoke == 1, Smoker);
    FactorStep(c6, 6, d, d.active == 0, SedentaryLifestyle);
    FactorListDone(c7, d);
  }

  /** A list written out slot by slot weighs the weights of its due slots. */
  lemma SlotWeights(s: seq<Factor>, b1: bool, b2: bool, b3: bool, b4: bool,
                    b5: bool, b6: bool, b7: bool, b8: bool, bmi: real)
    requires s == [] + When(b1, AgeOver50) + When(b2, Obesity(bmi)) + When(b3, Hypertension)
                     + When(b4, CriticallyHighCholesterol) + When(b5, ElevatedCholesterol)
                     + When(b6, ElevatedGlucose) + When(b7, Smoker) + When(b8, SedentaryLifestyle)
    ensures Weights(s) == Points(b1, 15) + Points(b2, 15) + Points(b3, 20) + Points(b4, 25)
                        + Points(b5, 10) + Points(b6, 10) + Points(b7, 10) + Points(b8, 10)
  {
    var firstFour := [] + When(b1, AgeOver50) + When(b2, Obesity(bmi)) + When(b3, Hypertension)
                        + When(b4, CriticallyHighCholesterol);
    WeightsOfFour([], b1, AgeOver50, b2, Obesity(bmi), b3, Hypertension, b4, CriticallyHighCholesterol);
    WeightsOfFour(firstFour, b5, ElevatedCholesterol, b6, ElevatedGlucose, b7, Smoker, b8, SedentaryLifestyle);
  }

  /** The written-out list weighs the points its factors stand for. */
  lemma ListedFactorsWeight(d: PredictData)
    requires d.height != 0
    ensures Weights(ListedFactors(d)) + UnlistedPoints(d) == RiskScore(d)
  {
    var bmi := DataBmi(d);
    SlotWeights(ListedFactors(d), d.age > 50, bmi > 30.0, d.apHi > 140 || d.apLo > 90, d.cholesterol == 3,
                d.cholesterol == 2, d.gluc > 1, d.smoke == 1, d.active == 0, bmi);
  }

  /**
   The points are the weights of the listed factors plus the points gender,
   an overweight BMI and alcohol add without any listed factor.
   */
  lemma ScoreFromFactors(s: seq<Factor>, d: PredictData)
    requires d.height != 0
    requires IsFactorList(s, d)
    ensures RiskScore(d) == Weights(s) + UnlistedPoints(d)
  {
    ListedFactorsListed(d);
    ListedFactorsWeight(d);
    FactorListUnique(s, ListedFactors(d), d);
  }

  /**
   Gender and alcohol only add points: changing either leaves the factor
   list as it is, and moves the points by the 5 each one is worth.
   */
  lemma GenderAndAlcoholUnlisted(s: seq<Factor>, d: PredictData, gender: int, alco: int)
    requires d.height != 0
    ensures var e := d.(gender := gender, alco := alco);
      && (IsFactorList(s, d) <==> IsFactorList(s, e))
      && RiskScore(e) - Points(gender == 2, 5) - Points(alco == 1, 5)
         == RiskScore(d) - Points(d.gender == 2, 5) - Points(d.alco == 1, 5)
  {
    var e := d.(gender := gender, alco := alco);
    assert DataBmi(e) == DataBmi(d);
    assert forall x :: FactorFires(x, e) == FactorFires(x, d);
  }

  /** Whether the result is shown as a high risk. */
  predicate ShowsHighRisk(prob: real) {
    prob > 0.5
  }

  /**
   The jitter decides the verdict only at exactly 50 points: above 50 the
   result is always shown as high risk, below 50 never, and at 50 exactly
   when the jitter is positive.
   */
  lemma VerdictByScore(d: PredictData, jitter: real)
    requires d.height != 0
    requires -0.02 <= jitter <= 0.02
    ensures var p := ClampProb(BaseProb(RiskScore(d)) + jitter);
      && (RiskScore(d) > 50 ==> ShowsHighRisk(p))
      && (RiskScore(d) < 50 ==> !ShowsHighRisk(p))
      && (RiskScore(d) == 50 ==> (ShowsHighRisk(p) <==> jitter > 0.0))
  {
    var s := RiskScore(d);
    if s > 50 {
      assert s >= 55;
      assert BaseProb(s) >= 0.55;
    } else if s < 50 {
      assert s <= 45;
      assert BaseProb(s) <= 0.45;
    }
  }

  /**
   The thresholds are strict: 140/90 adds no hypertension points or factor,
   while 141/90 or 140/91 adds both.
   */
  lemma HypertensionBoundary(d: PredictData)
    requires d.height != 0
    ensures !FactorFires(Hypertension, d.(apHi := 140, apLo := 90))
    ensures FactorFires(Hypertension, d.(apHi := 141, apLo := 90))
    ensures FactorFires(Hypertension, d.(apHi := 140, apLo := 91))
    ensures RiskScore(d.(apHi := 141, apLo := 90)) == RiskScore(d.(apHi := 140, apLo := 90)) + 20
  {
  }

  /** The highest score, 115, needs every trigger to hold, and every trigger gives it. */
  lemma MaximumScore(d: PredictData)
    requires d.height != 0
    ensures RiskScore(d) == 115
        <==> d.age > 50 && d.gender == 2 && DataBmi(d) > 30.0 && (d.apHi > 140 || d.apLo > 90)
             && d.cholesterol == 3 && d.gluc > 1 && d.smoke == 1 && d.alco == 1 && d.active == 0
  {
  }
}
