/** Worked inputs for the calculator: the figures quoted on the page, further hand-checked
    inputs, and inputs that exhibit the pipeline's deliberate quirks. */
module Scenarios {
  import opened JsMath
  import opened Calculator

  /** A 30-year-old man of 175 cm and 80 kg, Mifflin-St Jeor, moderately active, losing
      weight. The page's worked example prints 1748 kcal, but the callback shows
      Math.round(1748.75) = 1749. */
  lemma WorkedExampleMan()
    ensures RawBmr(MifflinStJeor, Male, Biometrics(30.0, 175.0, 80.0)) == 1748.75
    ensures Compute(Male, Some(30.0), Some(175.0), Some(80.0), 2, 0, MifflinStJeor)
         == Ok(Estimate(
              bmr := 1749, tdee := 2711, target := 2211,
              proteinG := 136, fatG := 61, carbG := 279,
              bmi := 26.1, category := Overweight, idealWeight := 70, goalDelta := -500))
  {
    var b := Biometrics(30.0, 175.0, 80.0);
    assert Validate(Some(30.0), Some(175.0), Some(80.0)) == Ok(b);
    assert Round(1748.75) == 1749;
    assert Tdee(1748.75, 2) == 2711;
    assert SplitMacros(2211, 80.0, 0) == Macros(136, 544, 553, 61, 1114, 279);
    assert Bmi(80.0, 175.0) == 26.1;
    assert IdealWeight(Male, 175.0) == 70;
  }

  /** A 25-year-old woman of 165 cm and 60 kg, Harris-Benedict, lightly active, keeping
      her weight: BMR 1405.333 shows as 1405. */
  lemma WorkedExampleWoman()
    ensures Compute(Female, Some(25.0), Some(165.0), Some(60.0), 1, 1, HarrisBenedict)
         == Ok(Estimate(
              bmr := 1405, tdee := 1932, target := 1932,
              proteinG := 102, fatG := 54, carbG := 260,
              bmi := 22.0, category := Normal, idealWeight := 57, goalDelta := 0))
  {
    var b := Biometrics(25.0, 165.0, 60.0);
    assert Validate(Some(25.0), Some(165.0), Some(60.0)) == Ok(b);
    assert RawBmr(HarrisBenedict, Female, b) == 1405.333;
    assert Tdee(1405.333, 1) == 1932;
    assert SplitMacros(1932, 60.0, 1) == Macros(102, 408, 483, 54, 1041, 260);
    assert Bmi(60.0, 165.0) == 22.0;
    assert IdealWeight(Female, 165.0) == 57;
  }

  /** The page's BMI example: 75 kg at 175 cm is 24.5, a normal weight. */
  lemma BmiExample()
    ensures Bmi(75.0, 175.0) == 24.5 && Category(Bmi(75.0, 175.0)) == Normal
  {
  }

  /** Multiplying the rounded BMR by the PAL factor would give a different TDEE: a
      30-year-old man of 170 cm and 60 kg has BMR 1517.5, and 1517.5 * 1.2 = 1821 exactly,
      whereas 1518 * 1.2 = 1821.6 would round to 1822. */
  lemma TdeeUsesUnroundedBmr()
    ensures
      var r := Compute(Male, Some(30.0), Some(170.0), Some(60.0), 0, 1, MifflinStJeor);
      && r.Ok? && r.value.bmr == 1518 && r.value.tdee == 1821
      && Round(r.value.bmr as real * PalFactors[0]) == 1822
  {
  }

  /** The floor reaches only the displayed target: a 110-year-old woman of 100 cm and
      30 kg, sedentary and losing weight, has celKcal 257 - 500 = -243. The page shows
      1200 kcal while the macros come from -243 kcal, with negative fat and carbohydrate.
      The selectors are the strings the page's buttons store: 'no' and 'mifflin'. */
  lemma FloorDoesNotReachMacros()
    ensures Calculate("no", Some(110.0), Some(100.0), Some(30.0), 0, 0, "mifflin")
         == Ok(Estimate(
              bmr := 214, tdee := 257, target := 1200,
              proteinG := 51, fatG := -7, carbG := -96,
              bmi := 30.0, category := ObesityI, idealWeight := -2, goalDelta := -500))
  {
    var b := Biometrics(110.0, 100.0, 30.0);
    assert SexOf("no") == Female && FormulaOf("mifflin") == MifflinStJeor;
    assert Validate(Some(110.0), Some(100.0), Some(30.0)) == Ok(b);
    assert RawBmr(MifflinStJeor, Female, b) == 214.0;
    assert Tdee(214.0, 0) == 257;
    assert SplitMacros(-243, 30.0, 0) == Macros(51, 204, -61, -7, -386, -96);
    assert Bmi(30.0, 100.0) == 30.0;
    assert IdealWeight(Female, 100.0) == -2;
  }

  /** An exact tie in the shown BMI goes up: 30.05 kg at 100 cm is exactly 30.05, shown as 30.1. */
  lemma BmiTieRoundsUp()
    ensures RawBmi(30.05, 100.0) == 30.05
    ensures Bmi(30.05, 100.0) == 30.1
  {
  }

  /** The lower bounds are inclusive; just below them the input is refused. */
  lemma ValidationBoundaries()
    ensures Validate(Some(10.0), Some(100.0), Some(30.0)).Ok?
    ensures Validate(Some(110.0), Some(250.0), Some(300.0)).Ok?
    ensures Validate(Some(9.99), Some(175.0), Some(80.0)).Err?
    ensures Validate(Some(30.0), Some(175.0), Some(29.0)).Err?
    ensures Validate(None, Some(175.0), Some(80.0)).Err?
    ensures Validate(Some(0.0), Some(175.0), Some(80.0)).Err?
  {
  }

  /** Devine at 152.4 cm (five feet): 50 kg for a man and Math.round(45.5) = 46 for a woman. */
  lemma IdealWeightAtFiveFeet()
    ensures IdealWeight(Male, 152.4) == 50 && IdealWeight(Female, 152.4) == 46
  {
  }
}
