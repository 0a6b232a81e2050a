/**
 The dynamic health insights of the dashboard variant: an ordered list of
 advice messages chosen from the predicted label and the patient's values.
 Each message is a constructor here; the numbers a message quotes (the BMI,
 the enhancer count) are its arguments.
 */
module Insights {
  import opened Wrappers
  import opened Lists

  datatype Insight =
    | HighRisk                        // HIGH RISK: consult a professional immediately
    | QuitSmoking                     // QUIT SMOKING
    | ManageBp                        // MANAGE BP
    | WeightManagement(bmi: real)     // WEIGHT MANAGEMENT, quoting the BMI
    | LowerCholesterol                // LOWER CHOLESTEROL
    | ControlGlucose                  // CONTROL GLUCOSE
    | Exercise                        // EXERCISE: 150 minutes a week
    | ReduceAlcohol                   // REDUCE ALCOHOL
    | AdditionalRiskFactors(count: nat) // ADDITIONAL RISK FACTORS, quoting how many
    | LowRisk                         // LOW RISK: maintain your lifestyle
    | MaintainWeight                  // consider maintaining optimal weight
    | AddActivity                     // add regular physical activity

  /** The fixed position of each message in the list. */
  function InsightRank(x: Insight): int {
    match x
    case HighRisk => 0
    case QuitSmoking => 1
    case ManageBp => 2
    case WeightManagement(_) => 3
    case LowerCholesterol => 4
    case ControlGlucose => 5
    case Exercise => 6
    case ReduceAlcohol => 7
    case AdditionalRiskFactors(_) => 8
    case LowRisk => 9
    case MaintainWeight => 10
    case AddActivity => 11
  }

  /** The values a message may depend on. */
  datatype Findings = Findings(prediction: int, bmi: real, apHi: int, apLo: int, chol: int, gluc: int,
                               smoke: bool, alco: bool, active: bool, enhancers: nat)

  /**
   When a message belongs in the list. A high-risk label (1) opens with the
   urgent message and adds each finding whose own trigger holds: smoking,
   blood pressure at or above 140 systolic or 90 diastolic, BMI above 25,
   cholesterol or glucose above normal, inactivity, alcohol, and any risk
   enhancer. Any other label opens with the maintenance message and may add
   weight (BMI above 24.9) and activity suggestions.
   */
  predicate Fires(x: Insight, f: Findings) {
    match x
    case HighRisk => f.prediction == 1
    case QuitSmoking => f.prediction == 1 && f.smoke
    case ManageBp => f.prediction == 1 && (f.apHi >= 140 || f.apLo >= 90)
    case WeightManagement(b) => f.prediction == 1 && f.bmi > 25.0 && b == f.bmi
    case LowerCholesterol => f.prediction == 1 && f.chol > 1
    case ControlGlucose => f.prediction == 1 && f.gluc > 1
    case Exercise => f.prediction == 1 && !f.active
    case ReduceAlcohol => f.prediction == 1 && f.alco
    case AdditionalRiskFactors(n) => f.prediction == 1 && f.enhancers > 0 && n == f.enhancers
    case LowRisk => f.prediction != 1
    case MaintainWeight => f.prediction != 1 && f.bmi > 24.9
    case AddActivity => f.prediction != 1 && !f.active
  }

  /** A list holding exactly the messages that fire, each once, in rank order. */
  ghost predicate IsInsightList(s: seq<Insight>, f: Findings) {
    && StrictlyRanked(s, InsightRank)
    && forall x :: x in s <==> Fires(x, f)
  }

  /** The generator: appends the messages one by one, in the source's order. */
  method GetHealthInsights(prediction: int, age: int, bmi: real, apHi: int, apLo: int,
                           chol: int, gluc: int, smoke: bool, alco: bool, active: bool,
                           riskEnhancers: seq<string>)
    returns (insights: seq<Insight>)
    ensures IsInsightList(insights, Findings(prediction, bmi, apHi, apLo, chol, gluc,
                                             smoke, alco, active, |riskEnhancers|))
  {
    ghost var f := Findings(prediction, bmi, apHi, apLo, chol, gluc, smoke, alco, active, |riskEnhancers|);
    insights := [];
    if prediction == 1 {
      Step(insights, 0, f, true, HighRisk);
      insights := insights + [HighRisk];
      Step(insights, 1, f, smoke, QuitSmoking);
      insights := insights + When(smoke, QuitSmoking);
      Step(insights, 2, f, apHi >= 140 || apLo >= 90, ManageBp);
      insights := insights + When(apHi >= 140 || apLo >= 90, ManageBp);
      Step(insights, 3, f, bmi > 25.0, WeightManagement(bmi));
      insights := insights + When(bmi > 25.0, WeightManagement(bmi));
      Step(insights, 4, f, chol > 1, LowerCholesterol);
      insights := insights + When(chol > 1, LowerCholesterol);
      Step(insights, 5, f, gluc > 1, ControlGlucose);
      insights := insights + When(gluc > 1, ControlGlucose);
      Step(insights, 6, f, !active, Exercise);
      insights := insights + When(!active, Exercise);
      Step(insights, 7, f, alco, ReduceAlcohol);
      insights := insights + When(alco, ReduceAlcohol);
      Step(insights, 8, f, |riskEnhancers| > 0, AdditionalRiskFactors(|riskEnhancers|));
      insights := insights + When(|riskEnhancers| > 0, AdditionalRiskFactors(|riskEnhancers|));
      HighRiskDone(insights, f);
    } else {
      LowRiskBegin(f);
      Step(insights, 9, f, true, LowRisk);
      insights := insights + [LowRisk];
      Step(insights, 10, f, bmi > 24.9, MaintainWeight);
      insights := insights + When(bmi > 24.9, MaintainWeight);
      Step(insights, 11, f, !active, AddActivity);
      insights := insights + When(!active, AddActivity);
      LowRiskDone(insights, f);
    }
  }

  /** The message of rank `k`, when it fires. */
  function Due(k: int, f: Findings): Option<Insight> {
    var high := f.prediction == 1;
    if k == 0 then (if high then Some(HighRisk) else None)
    else if k == 1 then (if high && f.smoke then Some(QuitSmoking) else None)
    else if k == 2 then (if high && (f.apHi >= 140 || f.apLo >= 90) then Some(ManageBp) else None)
    else if k == 3 then (if high && f.bmi > 25.0 then Some(WeightManagement(f.bmi)) else None)
    else if k == 4 then (if high && f.chol > 1 then Some(LowerCholesterol) else None)
    else if k == 5 then (if high && f.gluc > 1 then Some(ControlGlucose) else None)
    else if k == 6 then (if high && !f.active then Some(Exercise) else None)
    else if k == 7 then (if high && f.alco then Some(ReduceAlcohol) else None)
    else if k == 8 then (if high && f.enhancers > 0 then Some(AdditionalRiskFactors(f.enhancers)) else None)
    else if k == 9 then (if !high then Some(LowRisk) else None)
    else if k == 10 then (if !high && f.bmi > 24.9 then Some(MaintainWeight) else None)
    else if k == 11 then (if !high && !f.active then Some(AddActivity) else None)
    else None
  }

  /** Due(k, f) names exactly the firing message of rank k. */
  lemma DueExact(k: int, f: Findings, y: Insight)
    requires InsightRank(y) == k
    ensures Fires(y, f) <==> Due(k, f) == Some(y)
  {
  }

  /** `s` is the correct list as far as the messages ranked below `k`. */
  ghost predicate Stage(s: seq<Insight>, k: int, f: Findings) {
    && StrictlyRanked(s, InsightRank)
    && forall x :: x in s <==> Fires(x, f) && InsightRank(x) < k
  }

  /**
   Appending the message of rank `k` exactly when it is due extends the
   stage by one rank.
   */
  lemma Step(s: seq<Insight>, k: int, f: Findings, due: bool, x: Insight)
    requires Stage(s, k, f)
    requires Due(k, f) == if due then Some(x) else None
    ensures Stage(s + When(due, x), k + 1, f)
  {
    var t := s + When(due, x);
    forall y ensures y in t <==> Fires(y, f) && InsightRank(y) < k + 1 {
      if InsightRank(y) == k {
        DueExact(k, f, y);
      }
    }
    forall i, j | 0 <= i < j < |t| ensures InsightRank(t[i]) < InsightRank(t[j]) {
      if j >= |s| {
        assert Due(k, f) == Some(t[j]);
        if i < |s| { assert t[i] in s; }
      }
    }
  }

  /** A low-risk list starts empty with every high-risk rank settled. */
  lemma LowRiskBegin(f: Findings)
    requires f.prediction != 1
    ensures Stage([], 9, f)
  {
  }

  /** After rank 8 the high-risk list is complete: nothing ranked higher fires. */
  lemma HighRiskDone(s: seq<Insight>, f: Findings)
    requires f.prediction == 1
    requires Stage(s, 9, f)
    ensures IsInsightList(s, f)
  {
  }

  /** After rank 11 the low-risk list is complete. */
  lemma LowRiskDone(s: seq<Insight>, f: Findings)
    requires Stage(s, 12, f)
    ensures IsInsightList(s, f)
  {
  }

  /** The inputs determine the list completely: two lists meeting the description are equal. */
  lemma InsightListUnique(s: seq<Insight>, t: seq<Insight>, f: Findings)
    requires IsInsightList(s, f) && IsInsightList(t, f)
    ensures s == t
  {
    RankedUnique(s, t, InsightRank);
  }

  /**
   For a high-risk label the list opens with the urgent message, holds between
   1 and 9 messages, and reports the risk enhancers exactly when there are any,
   quoting their number.
   */
  lemma HighRiskInsights(s: seq<Insight>, f: Findings)
    requires f.prediction == 1
    requires IsInsightList(s, f)
    ensures |s| > 0 && s[0] == HighRisk
    ensures 1 <= |s| <= 9
    ensures (exists n :: AdditionalRiskFactors(n) in s) <==> f.enhancers > 0
    ensures forall n :: AdditionalRiskFactors(n) in s ==> n == f.enhancers
  {
    assert HighRisk in s;
    RankedHead(s, InsightRank, HighRisk);
    forall x | x in s ensures 0 <= InsightRank(x) < 9 {
      assert Fires(x, f);
    }
    RankedLength(s, InsightRank, 0, 9);
    if f.enhancers > 0 {
      assert AdditionalRiskFactors(f.enhancers) in s;
    }
  }

  /**
   For any other label the list opens with the maintenance message, holds
   between 1 and 3 messages, and none of the high-risk advice appears.
   */
  lemma LowRiskInsights(s: seq<Insight>, f: Findings)
    requires f.prediction != 1
    requires IsInsightList(s, f)
    ensures |s| > 0 && s[0] == LowRisk
    ensures 1 <= |s| <= 3
    ensures forall x :: x in s ==> x.LowRisk? || x.MaintainWeight? || x.AddActivity?
  {
    assert LowRisk in s;
    forall x | x in s ensures 9 <= InsightRank(x) < 12 {
      assert Fires(x, f);
    }
    RankedHead(s, InsightRank, LowRisk);
    RankedLength(s, InsightRank, 9, 12);
  }

  /**
   The worked high-risk example: a smoker at 150/95 with BMI 28, cholesterol
   3, glucose 2, inactive, drinking and without enhancers gets the urgent
   message followed by all seven findings in priority order.
   */
  lemma ReferenceHighRiskProfile(s: seq<Insight>)
    requires IsInsightList(s, Findings(1, 28.0, 150, 95, 3, 2, true, true, false, 0))
    ensures s == [HighRisk, QuitSmoking, ManageBp, WeightManagement(28.0), LowerCholesterol,
                  ControlGlucose, Exercise, ReduceAlcohol]
  {
    var expected := [HighRisk, QuitSmoking, ManageBp, WeightManagement(28.0), LowerCholesterol,
                     ControlGlucose, Exercise, ReduceAlcohol];
    forall x ensures x in expected <==> Fires(x, Findings(1, 28.0, 150, 95, 3, 2, true, true, false, 0)) {
    }
    RankedUnique(s, expected, InsightRank);
  }
}
