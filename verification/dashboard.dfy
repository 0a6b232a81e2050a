/**
 The assessment flow of the dashboard variant: the "analyze" action runs the
 classifier and the three scorers on the form and stores the outcome in the
 session; the export action lays out the report of the stored outcome.
 */
module Dashboard {
  import opened Wrappers
  import opened Lists
  import opened BodyMass
  import opened Features
  import opened HeartScore
  import opened Insights
  import opened Enhancers
  import opened Report

  /** The whole assessment form: the clinical values and the four enhancer boxes. */
  datatype ClinicalForm = ClinicalForm(
    vitals: Vitals,
    familyHistory: bool,
    kidneyDisease: bool,
    metabolicSyndrome: bool,
    inflammatoryConditions: bool)

  /** The enhancer boxes in form order. */
  function EnhancerFlags(form: ClinicalForm): (flags: seq<bool>)
    ensures |flags| == |EnhancerNames|
  {
    [form.familyHistory, form.kidneyDisease, form.metabolicSyndrome, form.inflammatoryConditions]
  }

  /** What the session keeps after an analysis. */
  datatype Assessment = Assessment(
    prediction: int,
    score: int,
    bmi: real,
    insights: seq<Insight>,
    riskEnhancers: seq<string>)

  /**
   The outcome of loading the trained classifier: the classifier itself (a
   map from the feature row to a label), a missing model file, or any other
   failure while loading.
   */
  datatype ModelLoad = Loaded(classify: seq<real> -> int) | FileMissing | LoadFailed

  /** The two error messages the analysis can show. */
  datatype AnalysisError = ModelNotFound | Failed

  /**
   `a` is the assessment of `form` under `classify`: the label the classifier
   gives the encoded row, the BMI, the heart score of the seven checks, the
   ticked enhancer names in form order, and the insight list of that label.
   */
  ghost predicate Assessed(a: Assessment, form: ClinicalForm, classify: seq<real> -> int) {
    var v := form.vitals;
    && v.height != 0
    && a.prediction == classify(EncodeFeatures(v))
    && a.bmi == Bmi(v.weight, v.height)
    && a.score == Count(HeartChecks(a.bmi, v.apHi, v.apLo, v.cholesterol, v.glucose, v.smoke, v.alco, v.active))
    && a.riskEnhancers == Select(EnhancerNames, EnhancerFlags(form))
    && IsInsightList(a.insights, Findings(a.prediction, a.bmi, v.apHi, v.apLo, v.cholesterol, v.glucose,
                                          v.smoke, v.alco, v.active, |a.riskEnhancers|))
  }

  /** The label printed for a cholesterol or glucose level of the form. */
  function LevelLabel(level: int): (text: string)
    requires 1 <= level <= 3
    ensures text in {"Normal", "Above Normal", "High"}
  {
    if level == 1 then "Normal" else if level == 2 then "Above Normal" else "High"
  }

  /** Reads a printed level label back; None for any other text. */
  function LevelOfLabel(text: string): (level: Option<int>)
    ensures level.Some? ==> 1 <= level.value <= 3 && LevelLabel(level.value) == text
  {
    if text == "Normal" then Some(1)
    else if text == "Above Normal" then Some(2)
    else if text == "High" then Some(3)
    else None
  }

  /** Distinct levels print distinct labels: reading a label back gives the level. */
  lemma LevelLabelRoundTrip(level: int)
    requires 1 <= level <= 3
    ensures LevelOfLabel(LevelLabel(level)) == Some(level)
  {
  }

  /** The gender as the select box shows it. */
  function GenderLabel(g: Gender): (text: string)
    ensures text == "Female" <==> GenderCode(g) == 1
    ensures text == "Female" || text == "Male"
  {
    if g == Female then "Female" else "Male"
  }

  /**
   The patient values the report prints: the form's current values, with the
   BMI of the stored assessment and the level labels.
   */
  function UserDataOf(form: ClinicalForm, bmi: real): (u: UserData)
    requires 1 <= form.vitals.cholesterol <= 3 && 1 <= form.vitals.glucose <= 3
    ensures u.bmi == bmi
    ensures u.gender == "Female" <==> form.vitals.gender == Female
    ensures LevelOfLabel(u.cholesterol) == Some(form.vitals.cholesterol)
    ensures LevelOfLabel(u.glucose) == Some(form.vitals.glucose)
  {
    var v := form.vitals;
    UserData(v.ageYears, GenderLabel(v.gender), v.height, v.weight, bmi, v.apHi, v.apLo,
             LevelLabel(v.cholesterol), LevelLabel(v.glucose), v.smoke, v.alco, v.active)
  }

  /** The session state of one dashboard user. */
  class Session {
    /** The stored outcome of the last successful analysis, if any. */
    var predictionResult: Option<Assessment>

    /** A fresh session has no result to show. */
    constructor()
      ensures predictionResult == None
    {
      predictionResult := None;
    }

    /**
     The analyze action. With the classifier loaded and a non-zero height it
     encodes the form, classifies it, scores it, derives the insights and
     stores the assessment. A missing model file, a failed load, or the
     division by a zero height shows an error and keeps the earlier result.
     */
    method Analyze(form: ClinicalForm, model: ModelLoad) returns (error: Option<AnalysisError>)
      modifies this
      ensures model.FileMissing? ==> error == Some(ModelNotFound)
      ensures model.LoadFailed? ==> error == Some(Failed)
      ensures model.Loaded? && form.vitals.height == 0 ==> error == Some(Failed)
      ensures error.Some? ==> predictionResult == old(predictionResult)
      ensures error.None? <==> model.Loaded? && form.vitals.height != 0
      ensures error.None? ==> predictionResult.Some? && Assessed(predictionResult.value, form, model.classify)
    {
      var riskEnhancers := CollectRiskEnhancers(form.familyHistory, form.kidneyDisease,
                                                form.metabolicSyndrome, form.inflammatoryConditions);
      match model {
        case FileMissing =>
          return Some(ModelNotFound);
        case LoadFailed =>
          return Some(Failed);
        case Loaded(classify) =>
          var v := form.vitals;
          var inputData := EncodeFeatures(v);
          var prediction := classify(inputData);
          if v.height == 0 {
            return Some(Failed);
          }
          var heartScore, bmi := CalculateHeartScore(v.ageYears, GenderCode(v.gender), v.height, v.weight,
                                                     v.apHi, v.apLo, v.cholesterol, v.glucose,
                                                     v.smoke, v.alco, v.active);
          var insights := GetHealthInsights(prediction, v.ageYears, bmi, v.apHi, v.apLo,
                                            v.cholesterol, v.glucose, v.smoke, v.alco, v.active,
                                            riskEnhancers);
          predictionResult := Some(Assessment(prediction, heartScore, bmi, insights, riskEnhancers));
          return None;
      }
    }

    /**
     The export action: with a stored result, the report of that result with
     the form's current patient values; without one, nothing.
     */
    method ExportReport(form: ClinicalForm, timestamp: string) returns (report: Option<seq<Line>>)
      requires 1 <= form.vitals.cholesterol <= 3 && 1 <= form.vitals.glucose <= 3
      ensures report.Some? <==> predictionResult.Some?
      ensures predictionResult.Some? ==>
        var a := predictionResult.value;
        report.value == ReportLines(UserDataOf(form, a.bmi), a.prediction, a.score, a.insights,
                                    a.riskEnhancers, timestamp)
    {
      if predictionResult.None? {
        return None;
      }
      var a := predictionResult.value;
      var userData := UserDataOf(form, a.bmi);
      var lines := GeneratePdf(userData, a.prediction, a.score, a.insights, a.riskEnhancers, timestamp);
      return Some(lines);
    }
  }

  /**
   The form and the classifier determine the stored assessment completely:
   two assessments of the same form under the same classifier are equal.
   */
  lemma AssessmentUnique(a: Assessment, b: Assessment, form: ClinicalForm, classify: seq<real> -> int)
    requires Assessed(a, form, classify) && Assessed(b, form, classify)
    ensures a == b
  {
    InsightListUnique(a.insights, b.insights,
                      Findings(a.prediction, a.bmi, form.vitals.apHi, form.vitals.apLo, form.vitals.cholesterol,
                               form.vitals.glucose, form.vitals.smoke, form.vitals.alco, form.vitals.active,
                               |a.riskEnhancers|));
  }

  /**
   The report of an assessment agrees with it: the high-risk headline exactly
   when the classifier said 1, the score of the seven checks (0 to 7), every
   ticked enhancer in form order, the first eight insights, which open with
   the urgent message for label 1 and with the maintenance message otherwise.
   */
  lemma AssessmentReport(a: Assessment, form: ClinicalForm, classify: seq<real> -> int, timestamp: string)
    requires Assessed(a, form, classify)
    requires 1 <= form.vitals.cholesterol <= 3 && 1 <= form.vitals.glucose <= 3
    ensures var r := ReportLines(UserDataOf(form, a.bmi), a.prediction, a.score, a.insights,
                                 a.riskEnhancers, timestamp);
      && (r[2] == Headline(HighCardiovascularRisk) <==> classify(EncodeFeatures(form.vitals)) == 1)
      && r[3] == ScoreLine(a.score) && 0 <= a.score <= 7
      && EnhancersOf(r) == Select(EnhancerNames, EnhancerFlags(form))
      && RecommendationsOf(r) == Shown(a.insights)
      && RecommendationsOf(r) != []
      && RecommendationsOf(r)[0] == (if a.prediction == 1 then HighRisk else LowRisk)
  {
    var v := form.vitals;
    var f := Findings(a.prediction, a.bmi, v.apHi, v.apLo, v.cholesterol, v.glucose,
                      v.smoke, v.alco, v.active, |a.riskEnhancers|);
    var u := UserDataOf(form, a.bmi);
    ReportHeader(u, a.prediction, a.score, a.insights, a.riskEnhancers, timestamp);
    ReportEnhancers(u, a.prediction, a.score, a.insights, a.riskEnhancers, timestamp);
    ReportRecommendations(u, a.prediction, a.score, a.insights, a.riskEnhancers, timestamp);
    if a.prediction == 1 {
      HighRiskInsights(a.insights, f);
    } else {
      LowRiskInsights(a.insights, f);
    }
  }

  /** Without any ticked box the assessment reports no enhancer. */
  lemma NoEnhancerAssessment(a: Assessment, form: ClinicalForm, classify: seq<real> -> int)
    requires Assessed(a, form, classify)
    requires !form.familyHistory && !form.kidneyDisease && !form.metabolicSyndrome && !form.inflammatoryConditions
    ensures a.riskEnhancers == []
    ensures forall n :: AdditionalRiskFactors(n) !in a.insights
  {
    NoEnhancers();
  }
}
