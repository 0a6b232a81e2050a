/** The body-mass index both app variants compute from height and weight. */
module BodyMass {

  /**
   Weight in kilograms over the square of the height in metres; the height
   is entered in centimetres, so it is divided by 100 first. A height of 0
   would make the source divide by zero.
   */
  function Bmi(weightKg: real, heightCm: int): (bmi: real)
    requires heightCm != 0
    ensures bmi * (heightCm as real / 100.0) * (heightCm as real / 100.0) == weightKg
    ensures weightKg >= 0.0 ==> bmi >= 0.0
  {
    var metres := heightCm as real / 100.0;
    weightKg / (metres * metres)
  }

  /** For a fixed height, a heavier patient never has a lower BMI. */
  lemma BmiMonotone(w1: real, w2: real, heightCm: int)
    requires heightCm != 0
    requires w1 <= w2
    ensures Bmi(w1, heightCm) <= Bmi(w2, heightCm)
  {
    var metres := heightCm as real / 100.0;
    var sq := metres * metres;
    assert sq > 0.0;
    assert Bmi(w2, heightCm) - Bmi(w1, heightCm) == (w2 - w1) / sq;
  }

  /** The worked example: 70 kg at 170 cm gives a BMI of about 24.22. */
  lemma ReferenceBmi()
    ensures 24.21 <= Bmi(70.0, 170) <= 24.23
  {
    assert (170 as real / 100.0) * (170 as real / 100.0) == 2.89;
  }
}
