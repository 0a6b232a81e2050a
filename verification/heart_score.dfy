/**
 The healthy-heart scoreboard of the dashboard variant: one point for each of
 seven lifestyle and clinical checks, computed beside the classifier and
 independently of it.
 */
module HeartScore {
  import opened Lists
  import opened BodyMass

  /**
   The seven checks in the order the scorer tests them: non-smoker,
   non-drinker, active, BMI within [18.5, 24.9] (both ends included),
   normal cholesterol, normal glucose, and blood pressure strictly below
   130 systolic and strictly below 80 diastolic. Age and gender take no part.
   */
  function HeartChecks(bmi: real, apHi: int, apLo: int, chol: int, gluc: int,
                       smoke: bool, alco: bool, active: bool): (checks: seq<bool>)
    ensures |checks| == 7
  {
    [!smoke, !alco, active, 18.5 <= bmi <= 24.9, chol == 1, gluc == 1, apHi < 130 && apLo < 80]
  }

  /**
   The scorer: starts from 0 and adds one point per check that passes; also
   returns the BMI it computed. The score is the number of passing checks,
   whatever the age and gender.
   */
  method CalculateHeartScore(age: int, gender: int, height: int, weight: real,
                             apHi: int, apLo: int, chol: int, gluc: int,
                             smoke: bool, alco: bool, active: bool)
    returns (score: int, bmi: real)
    requires height != 0
    ensures bmi == Bmi(weight, height)
    ensures score == Count(HeartChecks(bmi, apHi, apLo, chol, gluc, smoke, alco, active))
    ensures 0 <= score <= 7
  {
    ghost var checks := HeartChecks(Bmi(weight, height), apHi, apLo, chol, gluc, smoke, alco, active);
    score := 0;
    bmi := Bmi(weight, height);

    if !smoke { score := score + 1; }
    if !alco { score := score + 1; }
    if active { score := score + 1; }
    if 18.5 <= bmi <= 24.9 { score := score + 1; }
    if chol == 1 { score := score + 1; }
    if gluc == 1 { score := score + 1; }
    if apHi < 130 && apLo < 80 { score := score + 1; }

    CountSeven(checks);
  }

  /** A perfect 7 needs every check to pass, and every passing check gives 7. */
  lemma PerfectScore(bmi: real, apHi: int, apLo: int, chol: int, gluc: int,
                     smoke: bool, alco: bool, active: bool)
    ensures Count(HeartChecks(bmi, apHi, apLo, chol, gluc, smoke, alco, active)) == 7
        <==> !smoke && !alco && active && 18.5 <= bmi <= 24.9 && chol == 1 && gluc == 1
             && apHi < 130 && apLo < 80
  {
    var c := HeartChecks(bmi, apHi, apLo, chol, gluc, smoke, alco, active);
    CountFull(c);
    assert (forall i :: 0 <= i < |c| ==> c[i]) <==> c[0] && c[1] && c[2] && c[3] && c[4] && c[5] && c[6];
  }

  /** A score of 0 means that every check fails, and conversely. */
  lemma ZeroScore(bmi: real, apHi: int, apLo: int, chol: int, gluc: int,
                  smoke: bool, alco: bool, active: bool)
    ensures Count(HeartChecks(bmi, apHi, apLo, chol, gluc, smoke, alco, active)) == 0
        <==> smoke && alco && !active && !(18.5 <= bmi <= 24.9) && chol != 1 && gluc != 1
             && !(apHi < 130 && apLo < 80)
  {
    var c := HeartChecks(bmi, apHi, apLo, chol, gluc, smoke, alco, active);
    CountEmpty(c);
    assert (forall i :: 0 <= i < |c| ==> !c[i]) <==> !c[0] && !c[1] && !c[2] && !c[3] && !c[4] && !c[5] && !c[6];
  }

  /**
   The blood-pressure bounds are strict: 130/80 scores one point less than
   129/79 with everything else unchanged.
   */
  lemma BloodPressureBoundary(bmi: real, chol: int, gluc: int, smoke: bool, alco: bool, active: bool)
    ensures Count(HeartChecks(bmi, 130, 80, chol, gluc, smoke, alco, active)) + 1
         == Count(HeartChecks(bmi, 129, 79, chol, gluc, smoke, alco, active))
  {
    var c := HeartChecks(bmi, 129, 79, chol, gluc, smoke, alco, active);
    CountUpdate(c, 6, false);
    assert c[6 := false] == HeartChecks(bmi, 130, 80, chol, gluc, smoke, alco, active);
  }

  /**
   Both ends of the BMI band earn the point: a BMI of exactly 18.5 or 24.9
   scores one point more than a BMI outside the band, all else equal.
   */
  lemma BmiBandInclusive(outside: real, apHi: int, apLo: int, chol: int, gluc: int,
                         smoke: bool, alco: bool, active: bool)
    requires outside < 18.5 || outside > 24.9
    ensures Count(HeartChecks(18.5, apHi, apLo, chol, gluc, smoke, alco, active))
         == Count(HeartChecks(outside, apHi, apLo, chol, gluc, smoke, alco, active)) + 1
    ensures Count(HeartChecks(24.9, apHi, apLo, chol, gluc, smoke, alco, active))
         == Count(HeartChecks(outside, apHi, apLo, chol, gluc, smoke, alco, active)) + 1
  {
    var c := HeartChecks(outside, apHi, apLo, chol, gluc, smoke, alco, active);
    CountUpdate(c, 3, true);
    assert c[3 := true] == HeartChecks(18.5, apHi, apLo, chol, gluc, smoke, alco, active);
    assert c[3 := true] == HeartChecks(24.9, apHi, apLo, chol, gluc, smoke, alco, active);
  }
}
