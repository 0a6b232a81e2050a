/**
 The form of the single-page variant and the mappings that turn its
 choices into the integer row the point scorer reads: the gender and the
 two level select boxes go through lookup tables, the three lifestyle
 select boxes become 0/1 flags.
 */
module InputMapping {
  import opened MockPredictor

  /** The cholesterol lookup table. */
  const CholMap: map<string, int> := map["Normal" := 1, "Above Normal" := 2, "Well Above Normal" := 3]

  /** The glucose lookup table, a table of its own with the same entries. */
  const GlucMap: map<string, int> := map["Normal" := 1, "Above Normal" := 2, "Well Above Normal" := 3]

  /** The gender lookup table. */
  const GenderMap: map<string, int> := map["Female" := 1, "Male" := 2]

  /** The choices as the widgets hand them over. */
  datatype FormInput = FormInput(
    age: int,
    gender: string,
    height: int,
    weight: int,
    apHi: int,
    apLo: int,
    cholesterol: string,
    gluc: string,
    smoke: string,
    alco: string,
    active: string)

  /**
   What the widgets can produce: the number inputs within their bounds and
   each select box on one of its options.
   */
  predicate WidgetValues(f: FormInput) {
    && 10 <= f.age <= 100
    && f.gender in ["Female", "Male"]
    && 50 <= f.height <= 250
    && 30 <= f.weight <= 200
    && 60 <= f.apHi <= 240
    && 40 <= f.apLo <= 160
    && f.cholesterol in ["Normal", "Above Normal", "Well Above Normal"]
    && f.gluc in ["Normal", "Above Normal", "Well Above Normal"]
    && f.smoke in ["Non-Smoker", "Smoker"]
    && f.alco in ["No", "Yes"]
    && f.active in ["Active", "Inactive"]
  }

  /** A lifestyle choice as a flag: 1 for the one option named, 0 for anything else. */
  function FlagOf(choice: string, yes: string): (v: int)
    ensures v == 0 || v == 1
    ensures v == 1 <==> choice == yes
  {
    if choice == yes then 1 else 0
  }

  /**
   The row of the form. The three table lookups fail on a label the table
   lacks, so the labels must be keys; every other value passes through.
   */
  function BuildData(f: FormInput): (d: PredictData)
    requires f.gender in GenderMap && f.cholesterol in CholMap && f.gluc in GlucMap
    ensures d.age == f.age && d.height == f.height && d.weight == f.weight
    ensures d.apHi == f.apHi && d.apLo == f.apLo
    ensures d.gender == 1 <==> f.gender == "Female"
    ensures d.gender == 2 <==> f.gender == "Male"
    ensures 1 <= d.cholesterol <= 3 && 1 <= d.gluc <= 3
    ensures d.smoke == 1 <==> f.smoke == "Smoker"
    ensures d.alco == 1 <==> f.alco == "Yes"
    ensures d.active == 1 <==> f.active == "Active"
    ensures d.smoke in {0, 1} && d.alco in {0, 1} && d.active in {0, 1}
  {
    PredictData(
      f.age,
      GenderMap[f.gender],
      f.height,
      f.weight,
      f.apHi,
      f.apLo,
      CholMap[f.cholesterol],
      GlucMap[f.gluc],
      FlagOf(f.smoke, "Smoker"),
      FlagOf(f.alco, "Yes"),
      FlagOf(f.active, "Active"))
  }

  /** The option a level comes from. */
  function LevelName(level: int): (name: string)
    requires 1 <= level <= 3
    ensures name in CholMap && CholMap[name] == level
    ensures name in GlucMap && GlucMap[name] == level
  {
    if level == 1 then "Normal" else if level == 2 then "Above Normal" else "Well Above Normal"
  }

  /** Looking an option up and naming the level gives the option back. */
  lemma LevelNameOfLookup(name: string)
    requires name in CholMap
    ensures LevelName(CholMap[name]) == name
    ensures name in GlucMap && GlucMap[name] == CholMap[name]
  {
  }

  /** A row the form can produce: the codes within the tables and the flags 0/1. */
  predicate FormRow(d: PredictData) {
    && (d.gender == 1 || d.gender == 2)
    && 1 <= d.cholesterol <= 3 && 1 <= d.gluc <= 3
    && (d.smoke == 0 || d.smoke == 1)
    && (d.alco == 0 || d.alco == 1)
    && (d.active == 0 || d.active == 1)
  }

  /** The form choices a row comes from: the inverse of the mappings. */
  function FormOf(d: PredictData): (f: FormInput)
    requires FormRow(d)
    ensures f.gender in GenderMap && f.cholesterol in CholMap && f.gluc in GlucMap
  {
    FormInput(
      d.age,
      if d.gender == 1 then "Female" else "Male",
      d.height,
      d.weight,
      d.apHi,
      d.apLo,
      LevelName(d.cholesterol),
      LevelName(d.gluc),
      if d.smoke == 1 then "Smoker" else "Non-Smoker",
      if d.alco == 1 then "Yes" else "No",
      if d.active == 1 then "Active" else "Inactive")
  }

  /** Every row the mappings produce is a form row, and the choices behind it can be read back. */
  lemma BuildDataRoundTrip(f: FormInput)
    requires WidgetValues(f)
    ensures f.gender in GenderMap && f.cholesterol in CholMap && f.gluc in GlucMap
    ensures FormRow(BuildData(f))
    ensures FormOf(BuildData(f)) == f
  {
    LevelNameOfLookup(f.cholesterol);
    LevelNameOfLookup(f.gluc);
  }

  /** Every form row is the row of exactly the choices FormOf names. */
  lemma FormOfRoundTrip(d: PredictData)
    requires FormRow(d)
    ensures WidgetValues(FormOf(d))
        <==> (&& 10 <= d.age <= 100 && 50 <= d.height <= 250 && 30 <= d.weight <= 200
              && 60 <= d.apHi <= 240 && 40 <= d.apLo <= 160)
    ensures BuildData(FormOf(d)) == d
  {
  }

  /** Two widget choices giving the same row are the same choices. */
  lemma BuildDataInjective(f: FormInput, g: FormInput)
    requires WidgetValues(f) && WidgetValues(g)
    requires BuildData(f) == BuildData(g)
    ensures f == g
  {
    BuildDataRoundTrip(f);
    BuildDataRoundTrip(g);
  }

  /**
   The scan button: maps the choices to a row and scores it. Any choice the
   widgets allow has a height of at least 50 cm, so the scorer never divides
   by zero.
   */
  method DiagnosticScan(f: FormInput, jitter: real) returns (prob: real, factors: seq<Factor>)
    requires WidgetValues(f)
    requires -0.02 <= jitter <= 0.02
    ensures f.gender in GenderMap && f.cholesterol in CholMap && f.gluc in GlucMap
    ensures BuildData(f).height != 0
    ensures prob == ClampProb(BaseProb(RiskScore(BuildData(f))) + jitter)
    ensures IsFactorList(factors, BuildData(f))
  {
    var data := BuildData(f);
    prob, factors := MockPredict(data, jitter);
  }

  /** The form as it first appears. */
  const DefaultForm: FormInput :=
    FormInput(50, "Female", 165, 75, 120, 80, "Normal", "Normal", "Non-Smoker", "No", "Active")

  /**
   The untouched form scores 5 points, only for its BMI of about 27.5,
   lists no factor and is shown as a low risk whatever the jitter.
   */
  lemma DefaultScan(jitter: real)
    requires -0.02 <= jitter <= 0.02
    ensures WidgetValues(DefaultForm)
    ensures RiskScore(BuildData(DefaultForm)) == 5
    ensures IsFactorList([], BuildData(DefaultForm))
    ensures !ShowsHighRisk(ClampProb(BaseProb(RiskScore(BuildData(DefaultForm))) + jitter))
  {
    var d := BuildData(DefaultForm);
    assert d == PredictData(50, 1, 165, 75, 120, 80, 1, 1, 0, 0, 1);
    assert (165 as real / 100.0) * (165 as real / 100.0) == 2.7225;
    var bmi := DataBmi(d);
    assert bmi * 2.7225 == 75.0;
    assert 25.0 < bmi <= 30.0;
    assert forall x :: !FactorFires(x, d);
    assert BaseProb(5) == 0.05;
  }
}
