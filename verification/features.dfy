/**
 The feature encoder of the dashboard variant: the eleven form values become
 the numeric row the trained classifier was fitted on, in its fixed column
 order [age in days, gender, height, weight, systolic, diastolic,
 cholesterol, glucose, smoke, alco, active].
 */
module Features {
  import opened Wrappers

  /** The two entries of the gender select box. */
  datatype Gender = Female | Male

  /** The clinical values of the assessment form that reach the classifier. */
  datatype Vitals = Vitals(
    ageYears: int,
    gender: Gender,
    height: int,       // cm, an integer input
    weight: real,      // kg, a decimal input
    apHi: int,         // systolic blood pressure, mmHg
    apLo: int,         // diastolic blood pressure, mmHg
    cholesterol: int,  // 1 normal, 2 above normal, 3 high
    glucose: int,      // same scale
    smoke: bool,
    alco: bool,
    active: bool)

  /** Number of columns the classifier expects. */
  const FeatureCount: nat := 11

  /** Female is coded 1; the other choice is coded 2. */
  function GenderCode(g: Gender): (code: int)
    ensures code == 1 <==> g == Female
    ensures code == 1 || code == 2
  {
    if g == Female then 1 else 2
  }

  /** A checkbox as a 0/1 column. */
  function FlagValue(b: bool): real {
    if b then 1.0 else 0.0
  }

  /** The classifier row; the whole row becomes floating point, so it is a row of reals. */
  function EncodeFeatures(v: Vitals): (x: seq<real>)
    ensures |x| == FeatureCount
  {
    [ (v.ageYears * 365) as real,
      GenderCode(v.gender) as real,
      v.height as real,
      v.weight,
      v.apHi as real,
      v.apLo as real,
      v.cholesterol as real,
      v.glucose as real,
      FlagValue(v.smoke),
      FlagValue(v.alco),
      FlagValue(v.active) ]
  }

  predicate IsWhole(r: real) {
    r == r.Floor as real
  }

  function FlagOfColumn(r: real): Option<bool> {
    if r == 1.0 then Some(true) else if r == 0.0 then Some(false) else None
  }

  /**
   Reads a classifier row back column by column; None when the row is not
   one the encoder can produce. Every row it accepts is re-encoded exactly.
   */
  function DecodeFeatures(x: seq<real>): (r: Option<Vitals>)
    ensures r.Some? ==> EncodeFeatures(r.value) == x
  {
    if |x| != FeatureCount then None
    else if !IsWhole(x[0]) || x[0].Floor % 365 != 0 then None
    else if x[1] != 1.0 && x[1] != 2.0 then None
    else if !IsWhole(x[2]) || !IsWhole(x[4]) || !IsWhole(x[5]) then None
    else if !IsWhole(x[6]) || !IsWhole(x[7]) then None
    else if FlagOfColumn(x[8]).None? || FlagOfColumn(x[9]).None? || FlagOfColumn(x[10]).None? then None
    else
      var v := Vitals(x[0].Floor / 365, if x[1] == 1.0 then Female else Male,
                      x[2].Floor, x[3], x[4].Floor, x[5].Floor, x[6].Floor, x[7].Floor,
                      FlagOfColumn(x[8]).value, FlagOfColumn(x[9]).value, FlagOfColumn(x[10]).value);
      assert EncodeFeatures(v)[0] == x[0];
      Some(v)
  }

  /** Decoding an encoded row gives back the form values: no column is lost or swapped. */
  lemma EncodeDecode(v: Vitals)
    ensures DecodeFeatures(EncodeFeatures(v)) == Some(v)
  {
    var x := EncodeFeatures(v);
    assert ((v.ageYears * 365) as real).Floor == v.ageYears * 365;
    assert (v.ageYears * 365) / 365 == v.ageYears;
  }

  /** Distinct forms never share a classifier row. */
  lemma EncodeInjective(v: Vitals, w: Vitals)
    requires EncodeFeatures(v) == EncodeFeatures(w)
    ensures v == w
  {
    EncodeDecode(v);
    EncodeDecode(w);
  }
}
