/**
 The clinical report of the dashboard variant, reduced to its ordered lines:
 which lines the document holds and in what order. Fonts, colours, cell
 geometry and the byte encoding are not part of this model.
 */
module Report {
  import opened Insights

  /** The values the report prints about the patient. */
  datatype UserData = UserData(
    age: int,
    gender: string,
    height: int,
    weight: real,
    bmi: real,
    systolic: int,
    diastolic: int,
    cholesterol: string,   // level label
    glucose: string,       // level label
    smoking: bool,
    alcohol: bool,
    active: bool)

  /** One printed line of the report. */
  datatype Line =
    | Title                                        // report title
    | Generated(timestamp: string)                 // generation time
    | Headline(verdict: Verdict)                   // risk verdict
    | ScoreLine(score: int)                        // heart health score, "{score}/7"
    | PatientHeader
    | AgeLine(age: int)
    | GenderLine(gender: string)
    | HeightWeightLine(height: int, weight: real)
    | BmiLine(bmi: real)
    | BloodPressureLine(systolic: int, diastolic: int)
    | CholesterolGlucoseLine(cholesterol: string, glucose: string)
    | EnhancersHeader
    | EnhancerLine(name: string)                   // one bullet per risk enhancer
    | RecommendationsHeader
    | RecommendationLine(insight: Insight)         // one bullet per recommendation
    | Disclaimer

  /** The two verdict headlines: HIGH or LOW CARDIOVASCULAR RISK. */
  datatype Verdict = HighCardiovascularRisk | LowCardiovascularRisk

  /** At most this many recommendations reach the report. */
  const MaxRecommendations: nat := 8

  /** The document being written: the lines placed so far. */
  class Pdf {
    var lines: seq<Line>

    /** A new document with one empty page. */
    constructor()
      ensures lines == []
    {
      lines := [];
    }

    /** Writes one line below the previous ones. */
    method Cell(line: Line)
      modifies this
      ensures lines == old(lines) + [line]
    {
      lines := lines + [line];
    }
  }

  /** The verdict printed for a predicted label. */
  function HeadlineText(prediction: int): (v: Verdict)
    ensures v == HighCardiovascularRisk <==> prediction == 1
  {
    if prediction == 1 then HighCardiovascularRisk else LowCardiovascularRisk
  }

  /** The recommendations that fit the report: the first eight, or all when fewer. */
  function Shown(suggestions: seq<Insight>): (shown: seq<Insight>)
    ensures |shown| <= MaxRecommendations
    ensures |shown| == if |suggestions| <= MaxRecommendations then |suggestions| else MaxRecommendations
    ensures forall i :: 0 <= i < |shown| ==> shown[i] == suggestions[i]
  {
    if |suggestions| <= MaxRecommendations then suggestions else suggestions[..MaxRecommendations]
  }

  /** One bullet line per enhancer, in list order. */
  function EnhancerLines(names: seq<string>): seq<Line> {
    if names == [] then []
    else EnhancerLines(names[..|names| - 1]) + [EnhancerLine(names[|names| - 1])]
  }

  /** One bullet line per recommendation, in list order. */
  function RecommendationLines(items: seq<Insight>): seq<Line> {
    if items == [] then []
    else RecommendationLines(items[..|items| - 1]) + [RecommendationLine(items[|items| - 1])]
  }

  /** The patient block: a header and six value lines. */
  function PatientLines(u: UserData): seq<Line> {
    [ PatientHeader, AgeLine(u.age), GenderLine(u.gender), HeightWeightLine(u.height, u.weight),
      BmiLine(u.bmi), BloodPressureLine(u.systolic, u.diastolic),
      CholesterolGlucoseLine(u.cholesterol, u.glucose) ]
  }

  /** The enhancer block, present only for a non-empty list. */
  function EnhancerBlock(riskEnhancers: seq<string>): seq<Line> {
    if riskEnhancers == [] then [] else [EnhancersHeader] + EnhancerLines(riskEnhancers)
  }

  /** The recommendation block, present only for a non-empty list. */
  function RecommendationBlock(suggestions: seq<Insight>): seq<Line> {
    if suggestions == [] then [] else [RecommendationsHeader] + RecommendationLines(Shown(suggestions))
  }

  /** The title, the generation time, the verdict and the score. */
  function HeaderLines(prediction: int, score: int, timestamp: string): seq<Line> {
    [Title, Generated(timestamp), Headline(HeadlineText(prediction)), ScoreLine(score)]
  }

  /** The lines every report opens with: the header and the patient block. */
  function FixedLines(u: UserData, prediction: int, score: int, timestamp: string): seq<Line> {
    HeaderLines(prediction, score, timestamp) + PatientLines(u)
  }

  /** The layout of the whole report, block by block. */
  function ReportLines(u: UserData, prediction: int, score: int, suggestions: seq<Insight>,
                       riskEnhancers: seq<string>, timestamp: string): (r: seq<Line>)
    ensures |r| >= 12
    ensures r[0] == Title && r[|r| - 1] == Disclaimer
  {
    FixedLines(u, prediction, score, timestamp)
      + EnhancerBlock(riskEnhancers)
      + RecommendationBlock(suggestions)
      + [Disclaimer]
  }

  /**
   The writer: places the lines one cell at a time, the enhancer and
   recommendation bullets in loops, and returns what was written.
   */
  method GeneratePdf(u: UserData, prediction: int, score: int, suggestions: seq<Insight>,
                     riskEnhancers: seq<string>, timestamp: string)
    returns (lines: seq<Line>)
    ensures lines == ReportLines(u, prediction, score, suggestions, riskEnhancers, timestamp)
  {
    var pdf := new Pdf();
    WriteHeader(pdf, prediction, score, timestamp);
    WritePatient(pdf, u);
    assert pdf.lines == FixedLines(u, prediction, score, timestamp);
    WriteEnhancers(pdf, riskEnhancers);
    WriteRecommendations(pdf, suggestions);
    pdf.Cell(Disclaimer);
    lines := pdf.lines;
  }

  /** The title, the generation time, the verdict for the label and the score. */
  method WriteHeader(pdf: Pdf, prediction: int, score: int, timestamp: string)
    modifies pdf
    ensures pdf.lines == old(pdf.lines) + HeaderLines(prediction, score, timestamp)
  {
    pdf.Cell(Title);
    pdf.Cell(Generated(timestamp));
    var resultText := if prediction == 1 then HighCardiovascularRisk else LowCardiovascularRisk;
    pdf.Cell(Headline(resultText));
    pdf.Cell(ScoreLine(score));
  }

  /** The patient block: a header and the six value lines. */
  method WritePatient(pdf: Pdf, u: UserData)
    modifies pdf
    ensures pdf.lines == old(pdf.lines) + PatientLines(u)
  {
    pdf.Cell(PatientHeader);
    pdf.Cell(AgeLine(u.age));
    pdf.Cell(GenderLine(u.gender));
    pdf.Cell(HeightWeightLine(u.height, u.weight));
    pdf.Cell(BmiLine(u.bmi));
    pdf.Cell(BloodPressureLine(u.systolic, u.diastolic));
    pdf.Cell(CholesterolGlucoseLine(u.cholesterol, u.glucose));
  }

  /** The enhancer block: a header and one bullet per enhancer, only when there are any. */
  method WriteEnhancers(pdf: Pdf, riskEnhancers: seq<string>)
    modifies pdf
    ensures pdf.lines == old(pdf.lines) + EnhancerBlock(riskEnhancers)
  {
    if riskEnhancers != [] {
      pdf.Cell(EnhancersHeader);
      ghost var before := pdf.lines;
      for i := 0 to |riskEnhancers|
        invariant pdf.lines == before + EnhancerLines(riskEnhancers[..i])
      {
        EnhancerLinesSnoc(before, riskEnhancers, i);
        pdf.Cell(EnhancerLine(riskEnhancers[i]));
      }
      assert riskEnhancers[..|riskEnhancers|] == riskEnhancers;
      assert before + EnhancerLines(riskEnhancers) == old(pdf.lines) + EnhancerBlock(riskEnhancers);
    }
  }

  /**
   The recommendation block: a header and one bullet for each of the first
   eight suggestions, only when there are any.
   */
  method WriteRecommendations(pdf: Pdf, suggestions: seq<Insight>)
    modifies pdf
    ensures pdf.lines == old(pdf.lines) + RecommendationBlock(suggestions)
  {
    if suggestions != [] {
      pdf.Cell(RecommendationsHeader);
      ghost var before := pdf.lines;
      var shown := if |suggestions| <= MaxRecommendations then suggestions else suggestions[..MaxRecommendations];
      for i := 0 to |shown|
        invariant pdf.lines == before + RecommendationLines(shown[..i])
      {
        RecommendationLinesSnoc(before, shown, i);
        pdf.Cell(RecommendationLine(shown[i]));
      }
      assert shown[..|shown|] == shown;
      assert before + RecommendationLines(shown) == old(pdf.lines) + RecommendationBlock(suggestions);
    }
  }

  /** One more bullet extends the bullet lines of a prefix by one. */
  lemma EnhancerLinesSnoc(before: seq<Line>, names: seq<string>, i: int)
    requires 0 <= i < |names|
    ensures before + EnhancerLines(names[..i]) + [EnhancerLine(names[i])] == before + EnhancerLines(names[..i + 1])
  {
    assert names[..i + 1][..i] == names[..i];
  }

  /** One more bullet extends the bullet lines of a prefix by one. */
  lemma RecommendationLinesSnoc(before: seq<Line>, items: seq<Insight>, i: int)
    requires 0 <= i < |items|
    ensures before + RecommendationLines(items[..i]) + [RecommendationLine(items[i])]
         == before + RecommendationLines(items[..i + 1])
  {
    assert items[..i + 1][..i] == items[..i];
  }

  /** The recommendations a list of lines carries, in order. */
  function RecommendationsOf(lines: seq<Line>): seq<Insight> {
    if lines == [] then []
    else (if lines[0].RecommendationLine? then [lines[0].insight] else []) + RecommendationsOf(lines[1..])
  }

  /** The enhancer names a list of lines carries, in order. */
  function EnhancersOf(lines: seq<Line>): seq<string> {
    if lines == [] then []
    else (if lines[0].EnhancerLine? then [lines[0].name] else []) + EnhancersOf(lines[1..])
  }

  /** Reading the recommendations of two consecutive parts reads each part in turn. */
  lemma {:induction false} RecommendationsOfAppend(a: seq<Line>, b: seq<Line>)
    ensures RecommendationsOf(a + b) == RecommendationsOf(a) + RecommendationsOf(b)
  {
    if a == [] {
      assert a + b == b;
    } else {
      var h := if a[0].RecommendationLine? then [a[0].insight] else [];
      calc {
        RecommendationsOf(a + b);
        == { assert (a + b)[0] == a[0]; }
        h + RecommendationsOf((a + b)[1..]);
        == { assert (a + b)[1..] == a[1..] + b; }
        h + RecommendationsOf(a[1..] + b);
        == { RecommendationsOfAppend(a[1..], b); }
        h + (RecommendationsOf(a[1..]) + RecommendationsOf(b));
        ==
        RecommendationsOf(a) + RecommendationsOf(b);
      }
    }
  }

  /** Reading the enhancers of two consecutive parts reads each part in turn. */
  lemma {:induction false} EnhancersOfAppend(a: seq<Line>, b: seq<Line>)
    ensures EnhancersOf(a + b) == EnhancersOf(a) + EnhancersOf(b)
  {
    if a == [] {
      assert a + b == b;
    } else {
      var h := if a[0].EnhancerLine? then [a[0].name] else [];
      calc {
        EnhancersOf(a + b);
        == { assert (a + b)[0] == a[0]; }
        h + EnhancersOf((a + b)[1..]);
        == { assert (a + b)[1..] == a[1..] + b; }
        h + EnhancersOf(a[1..] + b);
        == { EnhancersOfAppend(a[1..], b); }
        h + (EnhancersOf(a[1..]) + EnhancersOf(b));
        ==
        EnhancersOf(a) + EnhancersOf(b);
      }
    }
  }

  /** Lines without bullets carry neither enhancers nor recommendations. */
  lemma {:induction false} NoBullets(lines: seq<Line>)
    requires forall l :: l in lines ==> !l.EnhancerLine? && !l.RecommendationLine?
    ensures EnhancersOf(lines) == [] && RecommendationsOf(lines) == []
  {
    if lines != [] {
      assert lines[0] in lines;
      forall l | l in lines[1..] ensures !l.EnhancerLine? && !l.RecommendationLine? {
        assert l in lines;
      }
      NoBullets(lines[1..]);
    }
  }

  /** The enhancer bullets are bullets only, and carry exactly the listed names. */
  lemma {:induction false} EnhancerLinesRead(names: seq<string>)
    ensures |EnhancerLines(names)| == |names|
    ensures forall l :: l in EnhancerLines(names) ==> l.EnhancerLine?
    ensures EnhancersOf(EnhancerLines(names)) == names
    ensures RecommendationsOf(EnhancerLines(names)) == []
  {
    if names != [] {
      var init := names[..|names| - 1];
      var last := EnhancerLine(names[|names| - 1]);
      EnhancerLinesRead(init);
      EnhancersOfAppend(EnhancerLines(init), [last]);
      RecommendationsOfAppend(EnhancerLines(init), [last]);
      assert EnhancersOf([last]) == [names[|names| - 1]];
      assert init + [names[|names| - 1]] == names;
    }
  }

  /** The recommendation bullets are bullets only, and carry exactly the listed insights. */
  lemma {:induction false} RecommendationLinesRead(items: seq<Insight>)
    ensures |RecommendationLines(items)| == |items|
    ensures forall l :: l in RecommendationLines(items) ==> l.RecommendationLine?
    ensures RecommendationsOf(RecommendationLines(items)) == items
    ensures EnhancersOf(RecommendationLines(items)) == []
  {
    if items != [] {
      var init := items[..|items| - 1];
      var last := RecommendationLine(items[|items| - 1]);
      RecommendationLinesRead(init);
      EnhancersOfAppend(RecommendationLines(init), [last]);
      RecommendationsOfAppend(RecommendationLines(init), [last]);
      assert RecommendationsOf([last]) == [items[|items| - 1]];
      assert init + [items[|items| - 1]] == items;
    }
  }

  /** What the enhancer block carries: a header and the named bullets, only for a non-empty list. */
  lemma EnhancerBlockRead(riskEnhancers: seq<string>)
    ensures EnhancersOf(EnhancerBlock(riskEnhancers)) == riskEnhancers
    ensures RecommendationsOf(EnhancerBlock(riskEnhancers)) == []
    ensures |EnhancerBlock(riskEnhancers)| == if riskEnhancers == [] then 0 else 1 + |riskEnhancers|
    ensures EnhancersHeader in EnhancerBlock(riskEnhancers) <==> riskEnhancers != []
    ensures RecommendationsHeader !in EnhancerBlock(riskEnhancers)
    ensures Disclaimer !in EnhancerBlock(riskEnhancers)
  {
    EnhancerLinesRead(riskEnhancers);
    if riskEnhancers != [] {
      var bullets := EnhancerLines(riskEnhancers);
      assert EnhancersOf([EnhancersHeader] + bullets) == riskEnhancers by {
        EnhancersOfAppend([EnhancersHeader], bullets);
        NoBullets([EnhancersHeader]);
      }
      assert RecommendationsOf([EnhancersHeader] + bullets) == [] by {
        RecommendationsOfAppend([EnhancersHeader], bullets);
        NoBullets([EnhancersHeader]);
      }
    }
  }

  /** What the recommendation block carries: a header and the first eight insights, only for a non-empty list. */
  lemma RecommendationBlockRead(suggestions: seq<Insight>)
    ensures RecommendationsOf(RecommendationBlock(suggestions)) == Shown(suggestions)
    ensures EnhancersOf(RecommendationBlock(suggestions)) == []
    ensures |RecommendationBlock(suggestions)| == if suggestions == [] then 0 else 1 + |Shown(suggestions)|
    ensures RecommendationsHeader in RecommendationBlock(suggestions) <==> suggestions != []
    ensures EnhancersHeader !in RecommendationBlock(suggestions)
    ensures Disclaimer !in RecommendationBlock(suggestions)
  {
    RecommendationLinesRead(Shown(suggestions));
    if suggestions != [] {
      var bullets := RecommendationLines(Shown(suggestions));
      assert RecommendationsOf([RecommendationsHeader] + bullets) == Shown(suggestions) by {
        RecommendationsOfAppend([RecommendationsHeader], bullets);
        NoBullets([RecommendationsHeader]);
      }
      assert EnhancersOf([RecommendationsHeader] + bullets) == [] by {
        EnhancersOfAppend([RecommendationsHeader], bullets);
        NoBullets([RecommendationsHeader]);
      }
    }
  }

  /** The fixed lines carry no bullets, no block header and no disclaimer. */
  lemma FixedLinesRead(u: UserData, prediction: int, score: int, timestamp: string)
    ensures var f := FixedLines(u, prediction, score, timestamp);
      && |f| == 11
      && EnhancersOf(f) == [] && RecommendationsOf(f) == []
      && EnhancersHeader !in f && RecommendationsHeader !in f && Disclaimer !in f
  {
    NoBullets(FixedLines(u, prediction, score, timestamp));
  }

  /**
   The report's fixed lines: the title, the time, the verdict (the high-risk
   headline exactly for label 1) and the score line, in that order, and the
   patient block right after them.
   */
  lemma ReportHeader(u: UserData, prediction: int, score: int, suggestions: seq<Insight>,
                     riskEnhancers: seq<string>, timestamp: string)
    ensures var r := ReportLines(u, prediction, score, suggestions, riskEnhancers, timestamp);
      && |r| >= 12
      && r[0] == Title && r[1] == Generated(timestamp)
      && (r[2] == Headline(HighCardiovascularRisk) <==> prediction == 1)
      && r[3] == ScoreLine(score)
      && r[4..11] == PatientLines(u)
  {
    var f := FixedLines(u, prediction, score, timestamp);
    var r := ReportLines(u, prediction, score, suggestions, riskEnhancers, timestamp);
    assert r[..11] == f;
    assert f[..4] == HeaderLines(prediction, score, timestamp) && f[4..] == PatientLines(u);
  }

  /** The enhancer block appears exactly when there are enhancers. */
  lemma ReportEnhancerHeader(u: UserData, prediction: int, score: int, suggestions: seq<Insight>,
                             riskEnhancers: seq<string>, timestamp: string)
    ensures EnhancersHeader in ReportLines(u, prediction, score, suggestions, riskEnhancers, timestamp)
        <==> riskEnhancers != []
  {
    FixedLinesRead(u, prediction, score, timestamp);
    EnhancerBlockRead(riskEnhancers);
    RecommendationBlockRead(suggestions);
  }

  /** The enhancer bullets of the report name every enhancer, in order. */
  lemma ReportEnhancers(u: UserData, prediction: int, score: int, suggestions: seq<Insight>,
                        riskEnhancers: seq<string>, timestamp: string)
    ensures EnhancersOf(ReportLines(u, prediction, score, suggestions, riskEnhancers, timestamp))
         == riskEnhancers
  {
    var f := FixedLines(u, prediction, score, timestamp);
    var e := EnhancerBlock(riskEnhancers);
    var s := RecommendationBlock(suggestions);
    assert EnhancersOf(f + e) == riskEnhancers by {
      FixedLinesRead(u, prediction, score, timestamp);
      EnhancerBlockRead(riskEnhancers);
      EnhancersOfAppend(f, e);
    }
    assert EnhancersOf(f + e + s) == riskEnhancers by {
      RecommendationBlockRead(suggestions);
      EnhancersOfAppend(f + e, s);
    }
    assert EnhancersOf([Disclaimer]) == [] by {
      NoBullets([Disclaimer]);
    }
    EnhancersOfAppend(f + e + s, [Disclaimer]);
  }

  /** The recommendation block appears exactly when there are suggestions. */
  lemma ReportRecommendationHeader(u: UserData, prediction: int, score: int, suggestions: seq<Insight>,
                                   riskEnhancers: seq<string>, timestamp: string)
    ensures RecommendationsHeader in ReportLines(u, prediction, score, suggestions, riskEnhancers, timestamp)
        <==> suggestions != []
  {
    FixedLinesRead(u, prediction, score, timestamp);
    EnhancerBlockRead(riskEnhancers);
    RecommendationBlockRead(suggestions);
  }

  /**
   The recommendation bullets of the report are the first eight suggestions
   (all of them when fewer), in order, so never more than eight.
   */
  lemma ReportRecommendations(u: UserData, prediction: int, score: int, suggestions: seq<Insight>,
                              riskEnhancers: seq<string>, timestamp: string)
    ensures RecommendationsOf(ReportLines(u, prediction, score, suggestions, riskEnhancers, timestamp))
         == Shown(suggestions)
  {
    var f := FixedLines(u, prediction, score, timestamp);
    var e := EnhancerBlock(riskEnhancers);
    var s := RecommendationBlock(suggestions);
    assert RecommendationsOf(f + e) == [] by {
      FixedLinesRead(u, prediction, score, timestamp);
      EnhancerBlockRead(riskEnhancers);
      RecommendationsOfAppend(f, e);
    }
    assert RecommendationsOf(f + e + s) == Shown(suggestions) by {
      RecommendationBlockRead(suggestions);
      RecommendationsOfAppend(f + e, s);
    }
    assert RecommendationsOf([Disclaimer]) == [] by {
      NoBullets([Disclaimer]);
    }
    RecommendationsOfAppend(f + e + s, [Disclaimer]);
  }

  /** The disclaimer closes the report and appears nowhere else. */
  lemma ReportDisclaimer(u: UserData, prediction: int, score: int, suggestions: seq<Insight>,
                         riskEnhancers: seq<string>, timestamp: string)
    ensures var r := ReportLines(u, prediction, score, suggestions, riskEnhancers, timestamp);
      && r[|r| - 1] == Disclaimer
      && Disclaimer !in r[..|r| - 1]
  {
    var f := FixedLines(u, prediction, score, timestamp);
    var e := EnhancerBlock(riskEnhancers);
    var s := RecommendationBlock(suggestions);
    var r := ReportLines(u, prediction, score, suggestions, riskEnhancers, timestamp);
    assert r[..|r| - 1] == f + e + s;
    assert Disclaimer !in f + e + s by {
      FixedLinesRead(u, prediction, score, timestamp);
      EnhancerBlockRead(riskEnhancers);
      RecommendationBlockRead(suggestions);
    }
  }

  /**
   The report has its eleven fixed lines and the disclaimer, one header and
   one bullet per enhancer when there are any, and one header and at most
   eight bullets for the recommendations when there are any.
   */
  lemma ReportLength(u: UserData, prediction: int, score: int, suggestions: seq<Insight>,
                     riskEnhancers: seq<string>, timestamp: string)
    ensures |ReportLines(u, prediction, score, suggestions, riskEnhancers, timestamp)|
         == 12 + (if riskEnhancers == [] then 0 else 1 + |riskEnhancers|)
               + (if suggestions == [] then 0 else 1 + |Shown(suggestions)|)
  {
    EnhancerBlockRead(riskEnhancers);
    RecommendationBlockRead(suggestions);
  }

  /**
   The report depends on the clock only through its second line: two
   reports of the same assessment generated at different times differ
   nowhere else.
   */
  lemma ReportTimestampOnly(u: UserData, prediction: int, score: int, suggestions: seq<Insight>,
                            riskEnhancers: seq<string>, t1: string, t2: string)
    ensures var r1 := ReportLines(u, prediction, score, suggestions, riskEnhancers, t1);
            var r2 := ReportLines(u, prediction, score, suggestions, riskEnhancers, t2);
      && |r1| == |r2|
      && forall i :: 0 <= i < |r1| && i != 1 ==> r1[i] == r2[i]
  {
  }

  /** The smoking, alcohol and activity answers are carried along but never printed. */
  lemma ReportIgnoresLifestyle(u: UserData, prediction: int, score: int, suggestions: seq<Insight>,
                               riskEnhancers: seq<string>, timestamp: string,
                               smoking: bool, alcohol: bool, active: bool)
    ensures ReportLines(u.(smoking := smoking, alcohol := alcohol, active := active),
                        prediction, score, suggestions, riskEnhancers, timestamp)
         == ReportLines(u, prediction, score, suggestions, riskEnhancers, timestamp)
  {
  }
}
