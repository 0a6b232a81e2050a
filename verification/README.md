# CardioCare AI: the risk-scoring core, modelled and verified in Dafny

CardioCare AI is a Streamlit application for cardiovascular risk assessment.
It comes in two variants. Once the widgets, styling and charts are set aside,
each variant holds a small deterministic pipeline. This project models both
pipelines and proves what each promises.

The dashboard variant (`Home.py`) works as follows:

- The assessment form is encoded into the 11-column row that the trained
  classifier reads.
- The classifier, which this model treats as an arbitrary function, labels
  the row.
- The "Healthy Heart Scoreboard" counts seven wellness checks, giving a score
  from 0 to 7, and reports the body-mass index (BMI).
- The dynamic health insights are an ordered list of advice messages, chosen
  by the label and the patient's values.
- The four clinical risk-enhancer checkboxes become an ordered list of
  condition names.
- The analysis stores its outcome in the session.
- The export lays the report out as an ordered sequence of lines: title,
  time, verdict, score, patient block, enhancer block, at most eight
  recommendations, and the disclaimer.

The single-page variant (`app.py`) works as follows:

- The form's choices are mapped to an integer row.
- `mock_predict` adds weighted points and lists the contributing factors in
  a fixed order.
- It turns the points into a probability capped at 0.95, adds a bounded
  jitter and clamps the result to [0.02, 0.98].
- The result is shown as high risk when that probability exceeds one half.

Modules and files:

| file | module | what it holds |
|---|---|---|
| `lists.dfy` | `Wrappers`, `Lists` | `Option`; counting flags, selecting by flags, and lists ordered by a priority rank (a rank and a membership rule pin such a list down) |
| `body_mass.dfy` | `BodyMass` | the BMI formula shared by both variants |
| `features.dfy` | `Features` | the classifier row of the dashboard and its decoder |
| `heart_score.dfy` | `HeartScore` | the seven-check score (an accumulator method) |
| `insights.dfy` | `Insights` | the insight list (an appending method), specified by rank and trigger |
| `enhancers.dfy` | `Enhancers` | the risk-enhancer list |
| `report.dfy` | `Report` | the report writer (a document object whose lines grow one cell at a time) and its layout |
| `dashboard.dfy` | `Dashboard` | the session: the analyze and export actions |
| `mock_predictor.dfy` | `MockPredictor` | `mock_predict`: points, factors, probability, clamp |
| `input_mapping.dfy` | `InputMapping` | the form mappings of the single-page variant and the scan button |

Conventions of the model:

- Python floats are exact `real`s.
- Advice messages, factors and report lines are datatype constructors. A
  number that a message quotes, such as the BMI or the enhancer count, is an
  argument of its constructor.
- An ordered output list is specified declaratively. Its entries strictly
  increase in a fixed rank, and an entry is present exactly when its trigger
  holds. A uniqueness lemma shows that this description determines the list.
  The methods that build the lists step by step are proved against it.
- In `MockPredictor.MockPredict`, a guarded update such as `if c: score +=
  n` is written `score := score + Points(c, n)`. The heart score keeps its
  `if` statements.
- A guarded append such as `if c: xs.append(x)` is written `xs := xs +
  When(c, x)`, where `When(c, x)` is `[x]` or `[]`.

Two behaviours of the session are easy to miss:

- A failed model load leaves any earlier result in the session
  (Home.py:435-438), and that result is still displayed and exported.
  `Dashboard.Session.Analyze` states this.
- The export takes the form's current values and the BMI of the stored
  result (Home.py:479-494). `Dashboard.Session.ExportReport` states this.

## Model

| member | source | states |
|---|---|---|
| BodyMass.Bmi | Home.py:283 | the BMI times the squared height in metres gives back the weight; a non-negative weight gives a non-negative BMI |
| BodyMass.BmiMonotone | Home.py:283 | at a fixed height a heavier patient never has a lower BMI |
| BodyMass.ReferenceBmi | Home.py:283 | 70 kg at 170 cm gives a BMI between 24.21 and 24.23 |
| Features.GenderCode | Home.py:402 | Female is coded 1, and any other choice is coded 2 |
| Features.EncodeFeatures | Home.py:400-407 | the classifier row has exactly 11 columns |
| Features.DecodeFeatures | Home.py:400-407 | a decoded row encodes back to the same row |
| Features.EncodeDecode | Home.py:400-407 | decoding the row of any form gives that form back: age in days is years × 365, the gender is 1 or 2 and the three flags are 0/1, in the fixed column order |
| Features.EncodeInjective | Home.py:400-407 | two forms with the same row are the same form |
| HeartScore.HeartChecks | Home.py:285-291 | there are exactly seven checks |
| HeartScore.CalculateHeartScore | Home.py:280-293 | the accumulator returns the number of the seven checks that hold (no smoking, no alcohol, active, 18.5 ≤ BMI ≤ 24.9, cholesterol 1, glucose 1, systolic < 130 and diastolic < 80), together with the BMI; the score lies in 0..7; age and gender play no part |
| Lists.CountSeven | Home.py:285-291 | the count of seven checks is the sum of one point per check that holds |
| Lists.CountUpdate | Home.py:285-291 | flipping one check moves the score by exactly that check's point |
| HeartScore.PerfectScore | Home.py:285-291 | the score is 7 exactly when all seven conditions hold |
| HeartScore.ZeroScore | Home.py:285-291 | the score is 0 exactly when none of the seven conditions holds |
| HeartScore.BloodPressureBoundary | Home.py:291 | 130/80 earns no blood-pressure point while 129/79 does, all else equal |
| HeartScore.BmiBandInclusive | Home.py:288 | both ends of the BMI band, 18.5 and 24.9, earn the point, and a BMI outside the band earns one point fewer |
| Insights.GetHealthInsights | Home.py:296-333 | the generator returns exactly the messages whose triggers hold, each once, in the fixed priority order |
| Insights.DueExact | Home.py:300-331 | the message due at each rank is exactly the one whose trigger holds |
| Insights.Step | Home.py:300-331 | appending the message of the next rank when it is due keeps the list correct up to that rank |
| Insights.LowRiskBegin | Home.py:326 | in the low-risk branch none of the high-risk messages is due |
| Insights.HighRiskDone | Home.py:300-325 | after the enhancer message the high-risk list is complete |
| Insights.LowRiskDone | Home.py:326-331 | after the activity message the low-risk list is complete |
| Insights.InsightListUnique | Home.py:296-333 | the inputs determine the insight list completely |
| Insights.HighRiskInsights | Home.py:300-325 | label 1 gives a list that opens with the urgent message and holds 1 to 9 messages; it reports the risk enhancers exactly when there are any, quoting their number |
| Insights.LowRiskInsights | Home.py:326-331 | any other label gives a list that opens with the maintenance message, holds 1 to 3 messages and contains no high-risk advice |
| Insights.ReferenceHighRiskProfile | Home.py:300-325 | a smoker at 150/95 with BMI 28, cholesterol 3, glucose 2, inactive and drinking gets the urgent message followed by the seven findings in priority order |
| Enhancers.NamesRanked | Home.py:383-391 | the four condition names are distinct and in form order |
| Enhancers.CollectRiskEnhancers | Home.py:383-391 | the collector returns the names of exactly the ticked boxes, in form order |
| Enhancers.SelectFour | Home.py:383-391 | the selection from four names is the four guarded appends in order |
| Enhancers.EnhancerListShape | Home.py:383-391 | the list has one name per ticked box (at most four), no duplicates and the form's order, and holds the i-th name exactly when the i-th box is ticked |
| Enhancers.NoEnhancers | Home.py:383-391 | no ticked box gives the empty list |
| Report.Pdf.constructor | Home.py:216-217 | a new document has no lines |
| Report.Pdf.Cell | Home.py:222 | a cell adds one line below the earlier ones and changes nothing else |
| Report.HeadlineText | Home.py:233 | the headline reads HIGH CARDIOVASCULAR RISK exactly when the label is 1 |
| Report.Shown | Home.py:269 | the report shows the first eight recommendations, or all of them when there are fewer, in order |
| Report.ReportLines | Home.py:214-277 | the report layout in order: title, time, verdict, score, patient block, enhancer block only for a non-empty list, recommendation block of at most eight bullets only for a non-empty list, and the disclaimer (stated by the Report lemmas below) |
| Report.GeneratePdf | Home.py:214-277 | writing the cells one by one produces exactly the layout `ReportLines` |
| Report.WriteHeader | Home.py:219-241 | the title, the time, the verdict and the score line are appended |
| Report.WritePatient | Home.py:243-253 | the patient heading and six value lines are appended |
| Report.WriteEnhancers | Home.py:255-262 | the loop appends the enhancer block: nothing for an empty list, otherwise a heading and one bullet per enhancer |
| Report.WriteRecommendations | Home.py:264-270 | the loop appends the recommendation block: nothing for an empty list, otherwise a heading and at most eight bullets |
| Report.EnhancerLinesSnoc | Home.py:260-261 | one more pass of the enhancer loop adds that enhancer's bullet |
| Report.RecommendationLinesSnoc | Home.py:269-270 | one more pass of the recommendation loop adds that recommendation's bullet |
| Report.RecommendationsOfAppend | Home.py:264-270 | the recommendations read from two joined blocks are those of the first block followed by those of the second |
| Report.EnhancersOfAppend | Home.py:255-262 | the enhancers read from two joined blocks are those of the first block followed by those of the second |
| Report.NoBullets | Home.py:214-277 | lines without bullets carry no enhancers and no recommendations |
| Report.EnhancerLinesRead | Home.py:260-261 | the enhancer bullets read back as exactly the enhancer list, one line each |
| Report.RecommendationLinesRead | Home.py:269-270 | the recommendation bullets read back as exactly the recommendations, one line each |
| Report.EnhancerBlockRead | Home.py:255-262 | the enhancer block reads back as the list, and its heading appears exactly when the list is non-empty |
| Report.RecommendationBlockRead | Home.py:264-270 | the recommendation block reads back as the first eight insights, and its heading appears exactly when there are insights |
| Report.FixedLinesRead | Home.py:219-253 | the eleven fixed opening lines hold no bullets, no block headings and no disclaimer |
| Report.ReportHeader | Home.py:219-253 | the report opens with the title and the time; the third line is the high-risk headline exactly when the label is 1, followed by the score line and the patient block |
| Report.ReportEnhancerHeader | Home.py:256 | the enhancer heading is present exactly when the enhancer list is non-empty |
| Report.ReportEnhancers | Home.py:255-262 | the report lists exactly the enhancers, in order |
| Report.ReportRecommendationHeader | Home.py:265 | the recommendation heading is present exactly when there are insights |
| Report.ReportRecommendations | Home.py:264-270 | the report lists exactly the first eight insights, in order |
| Report.ReportDisclaimer | Home.py:275 | the disclaimer is the last line and appears nowhere else |
| Report.ReportLength | Home.py:214-277 | the report holds the 12 fixed lines, plus 1 + n lines for n > 0 enhancers, plus 1 + min(m, 8) lines for m > 0 insights |
| Report.ReportTimestampOnly | Home.py:227 | two reports of the same assessment differ at most in the time line |
| Report.ReportIgnoresLifestyle | Home.py:489-491 | the smoking, alcohol and activity answers passed to the report never change it |
| Dashboard.EnhancerFlags | Home.py:375-380 | there is one flag per condition name |
| Dashboard.LevelLabel | Home.py:487-488 | each level 1..3 prints as Normal, Above Normal or High |
| Dashboard.LevelOfLabel | Home.py:487-488 | a label that reads back as a level is the label of that level |
| Dashboard.LevelLabelRoundTrip | Home.py:487-488 | the label of a level reads back as that level |
| Dashboard.GenderLabel | Home.py:481 | the printed gender is Female exactly when the encoded gender is 1 |
| Dashboard.UserDataOf | Home.py:479-492 | the patient values the report prints: the form's current values, the stored BMI, the gender as selected and the level labels |
| Dashboard.Session.constructor | Home.py:441 | a fresh session holds no result |
| Dashboard.Session.Analyze | Home.py:394-438 | a missing model file shows the not-found error, a failed load or a zero height shows the general error, and in every error case the earlier result stays; otherwise the stored assessment is the classifier's label of the encoded row, the heart score, the BMI, the insight list and the enhancer list of the form |
| Dashboard.Session.ExportReport | Home.py:441-501 | a report exists exactly when a result is stored, and it is the layout of the stored result with the form's current patient values |
| Dashboard.AssessmentUnique | Home.py:394-431 | the form and the classifier determine the stored assessment completely |
| Dashboard.AssessmentReport | Home.py:441-494 | the exported report shows the high-risk headline exactly when the classifier said 1, a score in 0..7, exactly the ticked enhancers and the first eight insights; the first recommendation is the urgent message for label 1 and the maintenance message otherwise |
| Dashboard.NoEnhancerAssessment | Home.py:383-391 | with no box ticked, neither the stored enhancer list nor the insights mention any enhancer |
| MockPredictor.Points | app.py:558-608 | a guarded increment adds between 0 and its weight |
| MockPredictor.RiskScore | app.py:558-608 | the points always lie in 0..115 |
| MockPredictor.Min | app.py:611-613 | `min` is no greater than either argument and equals one of them |
| MockPredictor.Max | app.py:613 | `max` is no smaller than either argument and equals one of them |
| MockPredictor.BaseProb | app.py:611 | the base probability is the points over 100, capped at 0.95, and is non-negative for non-negative points |
| MockPredictor.ClampProb | app.py:613 | the clamp lands in [0.02, 0.98], leaves a value already inside unchanged, never moves a value across one half, and at or below 0.98 acts as `max(·, 0.02)` alone |
| MockPredictor.MockPredict | app.py:552-615 | the returned probability is the clamped sum of the capped base probability and the jitter, and lies in [0.02, 0.98]; it never exceeds 0.97, so the upper clamp at app.py:613 never acts; the factor list holds exactly the factors whose triggers hold, once each, in the fixed order |
| MockPredictor.ShowsHighRisk | app.py:756-760 | the result is shown as high risk when the probability exceeds one half (stated by VerdictByScore and DefaultScan) |
| MockPredictor.FactorDueExact | app.py:559-608 | the factor due in each slot is exactly the one whose trigger holds |
| MockPredictor.FactorStep | app.py:559-608 | appending the factor of the next slot when it is due keeps the list correct up to that slot |
| MockPredictor.CholesterolStep | app.py:586-591 | the cholesterol if/elif appends the critical factor for 3 or the elevated one for 2, never both |
| MockPredictor.FactorListDone | app.py:604-608 | after the sedentary factor the list is complete |
| MockPredictor.FactorListUnique | app.py:559-608 | the row determines the factor list completely |
| MockPredictor.FactorListShape | app.py:559-608 | there are at most seven factors; the two cholesterol factors never appear together; the obesity factor appears exactly when the BMI exceeds 30 and quotes that BMI; the age factor comes first when it fires |
| MockPredictor.FactorWeight | app.py:559-608 | each listed factor weighs between 10 and 25 points |
| MockPredictor.Weights | app.py:559-608 | a factor list weighs a non-negative number of points |
| MockPredictor.WeightsAppend | app.py:559-608 | the weight of two joined lists is the sum of their weights |
| MockPredictor.WeightsWhen | app.py:559-608 | a factor appended when due weighs its weight when due |
| MockPredictor.WeightsOfFour | app.py:559-608 | four guarded appends add the weights of the due factors |
| MockPredictor.UnlistedPoints | app.py:567-604 | the points not backed by a factor (male 5, overweight 5, alcohol 5) lie in 0..15 |
| MockPredictor.ListedFactorsListed | app.py:559-608 | the eight guarded appends, written out, give the factor list of the row |
| MockPredictor.SlotWeights | app.py:559-608 | the written-out list weighs 15, 15, 20, 25, 10, 10, 10 and 10 for its due slots |
| MockPredictor.ListedFactorsWeight | app.py:558-608 | the weights of the written-out list plus the unlisted points are the points of the row |
| MockPredictor.ScoreFromFactors | app.py:558-608 | the points are the weights of the listed factors plus the points that gender, an overweight BMI and alcohol add without a factor |
| MockPredictor.GenderAndAlcoholUnlisted | app.py:567-604 | changing gender or alcohol leaves the factor list as it is and moves the points by 5 each |
| MockPredictor.VerdictByScore | app.py:611-613 | above 50 points the result is always shown as high risk and below 50 never; at exactly 50 it is shown as high risk exactly when the jitter is positive |
| MockPredictor.HypertensionBoundary | app.py:581-583 | 140/90 adds neither the 20 points nor the factor, while 141/90 and 140/91 add both |
| MockPredictor.MaximumScore | app.py:558-608 | 115 points are reached exactly when every trigger holds |
| InputMapping.WidgetValues | app.py:628-662 | the bounds of the number inputs and the options of the select boxes |
| InputMapping.DefaultForm | app.py:628-662 | the values the form shows before any change |
| InputMapping.FlagOf | app.py:677-679 | a lifestyle choice maps to 1 exactly for its named option, and to 0 otherwise |
| InputMapping.BuildData | app.py:674-693 | the row copies the numbers, codes Female as 1 and Male as 2, codes the levels as 1..3, and gives smoke, alcohol and active 1 exactly for Smoker, Yes and Active |
| InputMapping.LevelName | app.py:674-675 | each level 1..3 is the entry of one option in both level tables |
| InputMapping.LevelNameOfLookup | app.py:674-675 | looking an option up and naming its level gives the option back; the glucose and cholesterol tables agree |
| InputMapping.FormOf | app.py:674-693 | the choices behind a form row are keys of the tables |
| InputMapping.BuildDataRoundTrip | app.py:674-693 | for any choices the widgets allow, the mapped row is a form row and reads back as those choices |
| InputMapping.FormOfRoundTrip | app.py:674-693 | every form row is the mapping of the choices read back from it, and those choices are widget values exactly when the numbers lie within the widgets' bounds |
| InputMapping.BuildDataInjective | app.py:674-693 | different widget choices give different rows |
| InputMapping.DiagnosticScan | app.py:674-704 | the scan button's probability and factors are those of the scorer on the mapped row, and widget values never reach the scorer with a zero height |
| InputMapping.DefaultScan | app.py:623-664 | the untouched form scores 5 points, for its BMI of about 27.5, lists no factor and is shown as low risk whatever the jitter |

## Left out

- Streamlit rendering, CSS, navigation, the theme, the charts and their static numbers, the progress bar and the sleeps are not part of this model. They are presentation with no behaviour to state.
- The trained classifier, loaded from `heart_model.pkl`, is a parameter of type `seq<real> -> int`. Reading the file and unpickling it become the `ModelLoad` outcome: the classifier, a missing file, or any other failure.
- The FPDF library is not part of this model. Fonts, colours, cell geometry, the `latin-1` encoding and the PDF bytes are left out, and the report is its ordered sequence of lines.
- The message texts and the `:.1f` formatting of the BMI are not modelled. Messages are constructors, and the BMI they quote is the exact value.
- `datetime.now()` is a `timestamp` parameter of the export. The file name of the download is not modelled.
- `random.uniform(-0.02, 0.02)` is a `jitter` parameter, constrained to that interval.
- IEEE floating-point rounding is not modelled, because reals are exact. Nothing is claimed about rounding exactly at the 24.9, 25 and 30 BMI boundaries.
- Home.py rebuilds the enhancer list on every rerun of the script. The model builds it inside `Dashboard.Session.Analyze`, which is the only place where it is stored.
- Dashboard.Session.Analyze: the general error message is not modelled. Its text is Python's own description of the exception, and any exception other than a missing file becomes `Failed`.
- Dashboard.Session.ExportReport: gives the lines the code writes, but the code's own export never finishes. Every stored result has at least one insight, so a bullet line is always written (Home.py:269-270). The bullet "•" and the symbols that open the insight texts lie outside latin-1, and the core Arial font with the final `.encode('latin-1')` (Home.py:277) raises on them. The call at Home.py:494 is outside any `try`, so the download button never appears. The model states the layout and not this failure.
- Report.GeneratePdf: gives the ordered line layout of Home.py:214-277. The encoding step that fails for every report, as described for `Dashboard.Session.ExportReport`, is not modelled.
- Dashboard.Session.ExportReport: requires cholesterol and glucose levels in 1..3. The label dictionary at Home.py:487-488 raises on any other value, and the select boxes never produce one.
- InputMapping.BuildData: requires the gender and the two level labels to be keys of their tables. The dictionary subscripts at app.py:683-689 raise on any other label, and the select boxes never produce one.
- MockPredictor.MockPredict: requires a non-zero height. The BMI division at app.py:572 would raise, and the height widget's minimum is 50 cm.
- The range checks of the number inputs are widget behaviour. The dashboard's `Vitals` accepts any integers and reals, while `InputMapping.WidgetValues` states the single-page variant's bounds, which its scan button requires.
- The single-page variant stores the probability and the factors in the session (app.py:706-707) and displays them. That session state is not part of this model; `InputMapping.DiagnosticScan` returns both, and `MockPredictor.ShowsHighRisk` states the display test `prob > 0.5`.
