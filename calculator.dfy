/** The calorie-estimation pipeline of the page's calculate callback: input validation,
    basal metabolic rate by Mifflin-St Jeor or Harris-Benedict, total daily energy
    expenditure from the PAL table, the goal adjustment with its per-sex floor, the
    macronutrient split, BMI with its five bands and the Devine ideal body weight. */
module Calculator {
  import opened JsMath

  /** The outcome of parseFloat on a form field; None stands for NaN (an empty or
      non-numeric field). */
  datatype Option<T> = None | Some(value: T)

  /** `nem`: the string 'ferfi' selects Male, every other value Female. */
  datatype Sex = Male | Female

  /** `modszer`: the string 'harris' selects Harris-Benedict, every other value Mifflin-St Jeor. */
  datatype Formula = HarrisBenedict | MifflinStJeor

  /** The comparison `nem === 'ferfi'`: only that exact string is male. */
  function SexOf(nem: string): (sex: Sex)
    ensures sex == Male <==> nem == "ferfi"
  {
    if nem == "ferfi" then Male else Female
  }

  /** The comparison `modszer === 'harris'`: only that exact string selects Harris-Benedict. */
  function FormulaOf(modszer: string): (formula: Formula)
    ensures formula == HarrisBenedict <==> modszer == "harris"
  {
    if modszer == "harris" then HarrisBenedict else MifflinStJeor
  }

  /** The single error: some biometric field is missing, zero or out of range. */
  datatype ValidationError = InvalidInput

  datatype Result<T> = Ok(value: T) | Err(error: ValidationError)

  /** The three parsed numbers of a submission that passed validation. */
  datatype Biometrics = Biometrics(age: real, height: real, weight: real)

  datatype BmiCategory = Underweight | Normal | Overweight | ObesityI | ObesityII

  /** The numeric part of the record published to the page. `target` is the displayed
      (floored) target; `goalDelta` is the selected goal's adjustment. */
  datatype Estimate = Estimate(
    bmr: int,
    tdee: int,
    target: int,
    proteinG: int,
    fatG: int,
    carbG: int,
    bmi: real,
    category: BmiCategory,
    idealWeight: int,
    goalDelta: int)

  /** The intermediate energy and gram figures of the macronutrient split. */
  datatype Macros = Macros(
    proteinG: int,
    proteinKcal: int,
    fatKcal: int,
    fatG: int,
    carbKcal: int,
    carbG: int)

  /** The `pal` multipliers of PAL_SZINTEK, from sedentary to extremely active. */
  const PalFactors: seq<real> := [1.2, 1.375, 1.55, 1.725, 1.9]

  /** The `delta` adjustments of CELOK: weight loss, maintenance, muscle gain. */
  const GoalDeltas: seq<int> := [-500, 0, 300]

  /** The index of the muscle-gain goal in CELOK. */
  const MuscleGain: nat := 2

  // ---------------------------------------------------------------- validation

  /** JavaScript truthiness of a parsed number: NaN and 0 are falsy. */
  predicate Truthy(v: Option<real>) {
    v.Some? && v.value != 0.0
  }

  /** The declared ranges, all bounds inclusive. */
  predicate InRange(b: Biometrics) {
    && 10.0 <= b.age <= 110.0
    && 100.0 <= b.height <= 250.0
    && 30.0 <= b.weight <= 300.0
  }

  /** The guard at the top of the callback. A submission passes exactly when all three
      fields parsed and lie in their ranges; the values pass through unchanged. */
  function Validate(age: Option<real>, height: Option<real>, weight: Option<real>): (r: Result<Biometrics>)
    ensures r.Ok? <==>
      age.Some? && height.Some? && weight.Some? &&
      InRange(Biometrics(age.value, height.value, weight.value))
    ensures r.Ok? ==> r.value == Biometrics(age.value, height.value, weight.value)
  {
    if || !Truthy(age) || !Truthy(height) || !Truthy(weight)
       || age.value < 10.0 || age.value > 110.0
       || height.value < 100.0 || height.value > 250.0
       || weight.value < 30.0 || weight.value > 300.0
    then Err(InvalidInput)
    else Ok(Biometrics(age.value, height.value, weight.value))
  }

  // ---------------------------------------------------------------- BMR

  /** harrisBenedict: the revised Harris-Benedict equation (Roza and Shizgal). */
  function HarrisBenedictBmr(sex: Sex, weight: real, height: real, age: real): real {
    match sex
    case Male => 88.362 + 13.397 * weight + 4.799 * height - 5.677 * age
    case Female => 447.593 + 9.247 * weight + 3.098 * height - 4.330 * age
  }

  /** mifflinStJeor: the Mifflin-St Jeor equation. */
  function MifflinStJeorBmr(sex: Sex, weight: real, height: real, age: real): real {
    match sex
    case Male => 10.0 * weight + 6.25 * height - 5.0 * age + 5.0
    case Female => 10.0 * weight + 6.25 * height - 5.0 * age - 161.0
  }

  /** The unrounded BMR of the selected formula. */
  function RawBmr(formula: Formula, sex: Sex, b: Biometrics): real {
    match formula
    case HarrisBenedict => HarrisBenedictBmr(sex, b.weight, b.height, b.age)
    case MifflinStJeor => MifflinStJeorBmr(sex, b.weight, b.height, b.age)
  }

  /** Over the accepted ranges every formula gives a positive BMR; 214 kcal is reached by
      Mifflin-St Jeor for a 110-year-old woman of 100 cm and 30 kg. */
  lemma RawBmrLowerBound(formula: Formula, sex: Sex, b: Biometrics)
    requires InRange(b)
    ensures RawBmr(formula, sex, b) >= 214.0
  {
  }

  /** For identical inputs Mifflin-St Jeor puts men exactly 166 kcal above women. */
  lemma MifflinSexGap(weight: real, height: real, age: real)
    ensures MifflinStJeorBmr(Male, weight, height, age) - MifflinStJeorBmr(Female, weight, height, age) == 166.0
  {
  }

  /** Both equations grow with weight and height and fall with age, for both sexes. */
  lemma RawBmrMonotone(formula: Formula, sex: Sex, b: Biometrics, c: Biometrics)
    requires b.weight <= c.weight && b.height <= c.height && c.age <= b.age
    ensures RawBmr(formula, sex, b) <= RawBmr(formula, sex, c)
  {
  }

  // ---------------------------------------------------------------- energy

  /** osszesCsere: the unrounded BMR times the PAL factor, rounded. */
  function Tdee(rawBmr: real, activity: nat): (t: int)
    requires activity < |PalFactors|
    ensures IsNearest(t, rawBmr * PalFactors[activity])
  {
    Round(rawBmr * PalFactors[activity])
  }

  /** A larger positive BMR or a more active level never lowers the TDEE. */
  lemma TdeeMonotone(x: real, y: real, i: nat, j: nat)
    requires 0.0 < x <= y && i <= j < |PalFactors|
    ensures Tdee(x, i) <= Tdee(y, j)
  {
  }

  /** The safety minimum on the displayed target: 1500 kcal for men, 1200 kcal for women. */
  function SexFloor(sex: Sex): int {
    match sex
    case Male => 1500
    case Female => 1200
  }

  /** The displayed target: celKcal raised to the sex floor when below it. */
  function DisplayedTarget(celKcal: int, sex: Sex): (t: int)
    ensures t >= SexFloor(sex) && t >= celKcal
    ensures t == celKcal || t == SexFloor(sex)
  {
    if celKcal >= SexFloor(sex) then celKcal else SexFloor(sex)
  }

  // ---------------------------------------------------------------- macros

  /** Protein per kilogram: 2.0 g for muscle gain, 1.7 g otherwise. */
  function ProteinRate(goal: nat): (rate: real)
    ensures rate == 2.0 <==> goal == MuscleGain
    ensures rate == 1.7 <==> goal != MuscleGain
  {
    if goal == MuscleGain then 2.0 else 1.7
  }

  /** The macronutrient split of the (unfloored) celKcal: protein from body weight, a
      quarter of the energy as fat, and whatever energy remains as carbohydrate, which may
      be negative. */
  function SplitMacros(celKcal: int, weight: real, goal: nat): (m: Macros)
    ensures m.proteinKcal + m.fatKcal + m.carbKcal == celKcal
    ensures m.proteinKcal == 4 * m.proteinG
    ensures IsNearest(m.proteinG, ProteinRate(goal) * weight)
    ensures IsNearest(m.fatKcal, celKcal as real / 4.0)
    ensures IsNearest(m.fatG, m.fatKcal as real / 9.0)
    ensures IsNearest(m.carbG, m.carbKcal as real / 4.0)
  {
    var proteinG := Round(ProteinRate(goal) * weight);
    var proteinKcal := proteinG * 4;
    var fatKcal := Round(celKcal as real * 0.25);
    var fatG := Round(fatKcal as real / 9.0);
    var carbKcal := celKcal - proteinKcal - fatKcal;
    Macros(proteinG, proteinKcal, fatKcal, fatG, carbKcal, Round(carbKcal as real / 4.0))
  }

  // ---------------------------------------------------------------- body composition

  /** The square of the height converted from centimetres to metres. */
  function MetresSquared(height: real): real {
    (height / 100.0) * (height / 100.0)
  }

  /** weight / (height in metres) squared, before rounding; the callback reaches it only
      with a validated height of at least 100 cm. */
  function RawBmi(weight: real, height: real): real
    requires height >= 100.0
  {
    SquareGrows(height, height);
    weight / MetresSquared(height)
  }

  /** The displayed BMI: RawBmi through toFixed(1) and back to a number. */
  function Bmi(weight: real, height: real): (bmi: real)
    requires height >= 100.0
    ensures OneDecimal(bmi)
    ensures -0.05 <= bmi - RawBmi(weight, height) <= 0.05
    ensures weight >= 0.0 ==> IsNearest((10.0 * bmi).Floor, 10.0 * RawBmi(weight, height))
  {
    SquareGrows(height, height);
    ToFixed1(RawBmi(weight, height))
  }

  /** bmiKategoria: half-open bands with inclusive lower bounds at 18.5, 25, 30 and 35. */
  function Category(bmi: real): (c: BmiCategory)
    ensures c == Underweight <==> bmi < 18.5
    ensures c == Normal <==> 18.5 <= bmi < 25.0
    ensures c == Overweight <==> 25.0 <= bmi < 30.0
    ensures c == ObesityI <==> 30.0 <= bmi < 35.0
    ensures c == ObesityII <==> 35.0 <= bmi
  {
    if bmi < 18.5 then Underweight
    else if bmi < 25.0 then Normal
    else if bmi < 30.0 then Overweight
    else if bmi < 35.0 then ObesityI
    else ObesityII
  }

  /** The position of a band from lightest to heaviest. */
  function Severity(c: BmiCategory): nat {
    match c
    case Underweight => 0
    case Normal => 1
    case Overweight => 2
    case ObesityI => 3
    case ObesityII => 4
  }

  /** A larger BMI never falls into a lighter band. */
  lemma CategoryMonotone(x: real, y: real)
    requires x <= y
    ensures Severity(Category(x)) <= Severity(Category(y))
  {
  }

  /** From 100 cm on, the squared height in metres is at least 1 and grows with the height. */
  lemma SquareGrows(h1: real, h2: real)
    requires 100.0 <= h1 <= h2
    ensures 1.0 <= MetresSquared(h1) <= MetresSquared(h2)
  {
  }

  /** Division by a positive number keeps the order of non-negative dividends, and a
      larger positive divisor gives no more. */
  lemma DivideMonotone(x1: real, x2: real, q1: real, q2: real)
    requires 0.0 <= x1 <= x2 && 0.0 < q2 <= q1
    ensures x1 / q1 <= x2 / q2
  {
  }

  /** At a fixed height a heavier person never has a smaller raw BMI, and at a fixed
      weight a taller person never has a larger one. */
  lemma RawBmiMonotone(w1: real, w2: real, h1: real, h2: real)
    requires 0.0 <= w1 <= w2 && 100.0 <= h2 <= h1
    ensures RawBmi(w1, h1) <= RawBmi(w2, h2)
  {
    SquareGrows(h2, h1);
    DivideMonotone(w1, w2, MetresSquared(h1), MetresSquared(h2));
  }

  /** At a fixed height, gaining weight never moves a person into a lighter displayed
      band, and at a fixed weight, being taller never moves them into a heavier one. */
  lemma CategoryFollowsBody(w1: real, w2: real, h1: real, h2: real)
    requires 0.0 <= w1 <= w2 && 100.0 <= h2 <= h1
    ensures Bmi(w1, h1) <= Bmi(w2, h2)
    ensures Severity(Category(Bmi(w1, h1))) <= Severity(Category(Bmi(w2, h2)))
  {
    RawBmiMonotone(w1, w2, h1, h2);
    ToFixed1Monotone(RawBmi(w1, h1), RawBmi(w2, h2));
    CategoryMonotone(Bmi(w1, h1), Bmi(w2, h2));
  }

  /** The Devine intercept: 50 kg for men, 45.5 kg for women. */
  function DevineBase(sex: Sex): real {
    match sex
    case Male => 50.0
    case Female => 45.5
  }

  /** Devine ideal body weight: the intercept plus 2.3 kg per inch above 152.4 cm, rounded. */
  function IdealWeight(sex: Sex, height: real): (w: int)
    ensures IsNearest(w, DevineBase(sex) + 2.3 * ((height - 152.4) / 2.54))
  {
    Round(DevineBase(sex) + 2.3 * ((height - 152.4) / 2.54))
  }

  /** Both sexes share the slope, so the ideal weight never decreases with height. */
  lemma IdealWeightMonotone(sex: Sex, h1: real, h2: real)
    requires h1 <= h2
    ensures IdealWeight(sex, h1) <= IdealWeight(sex, h2)
  {
  }

  /** The 4.5 kg gap in intercepts shows up as 4 or 5 kg after rounding, never otherwise. */
  lemma IdealWeightSexGap(height: real)
    ensures 4 <= IdealWeight(Male, height) - IdealWeight(Female, height) <= 5
  {
  }

  // ---------------------------------------------------------------- the pipeline

  /** The calculate callback: validation, then every stage. The BMR is shown rounded but
      the TDEE multiplies the unrounded BMR; the target is shown raised to the sex floor
      while the macros are split from the unfloored celKcal. */
  function Compute(sex: Sex, age: Option<real>, height: Option<real>, weight: Option<real>,
                   activity: nat, goal: nat, formula: Formula): (r: Result<Estimate>)
    requires activity < |PalFactors| && goal < |GoalDeltas|
    ensures r.Ok? <==>
      age.Some? && height.Some? && weight.Some? &&
      InRange(Biometrics(age.value, height.value, weight.value))
    ensures r.Ok? ==>
      var b := Biometrics(age.value, height.value, weight.value);
      var raw := RawBmr(formula, sex, b);
      var e := r.value;
      var celKcal := e.tdee + e.goalDelta;
      var m := SplitMacros(celKcal, b.weight, goal);
      && IsNearest(e.bmr, raw)
      && IsNearest(e.tdee, raw * PalFactors[activity])
      && e.goalDelta == GoalDeltas[goal]
      && e.target >= SexFloor(sex)
      && (celKcal >= SexFloor(sex) ==> e.target == celKcal)
      && (celKcal < SexFloor(sex) ==> e.target == SexFloor(sex))
      && e.proteinG == m.proteinG && e.fatG == m.fatG && e.carbG == m.carbG
      && e.bmi == Bmi(b.weight, b.height)
      && e.category == Category(e.bmi)
      && e.idealWeight == IdealWeight(sex, b.height)
  {
    match Validate(age, height, weight)
    case Err(e) => Err(e)
    case Ok(b) =>
      var raw := RawBmr(formula, sex, b);
      var tdee := Tdee(raw, activity);
      var celKcal := tdee + GoalDeltas[goal];
      var macros := SplitMacros(celKcal, b.weight, goal);
      var bmi := Bmi(b.weight, b.height);
      Ok(Estimate(
        bmr := Round(raw),
        tdee := tdee,
        target := DisplayedTarget(celKcal, sex),
        proteinG := macros.proteinG,
        fatG := macros.fatG,
        carbG := macros.carbG,
        bmi := bmi,
        category := Category(bmi),
        idealWeight := IdealWeight(sex, b.height),
        goalDelta := GoalDeltas[goal]))
  }

  /** With everything else fixed, a heavier, taller or younger person never gets a lower
      TDEE or a lower displayed target, under either formula. */
  lemma ComputeMonotoneInBody(sex: Sex, b: Biometrics, c: Biometrics, activity: nat, goal: nat, formula: Formula)
    requires activity < |PalFactors| && goal < |GoalDeltas|
    requires InRange(b) && InRange(c)
    requires b.weight <= c.weight && b.height <= c.height && c.age <= b.age
    ensures
      var rb := Compute(sex, Some(b.age), Some(b.height), Some(b.weight), activity, goal, formula);
      var rc := Compute(sex, Some(c.age), Some(c.height), Some(c.weight), activity, goal, formula);
      rb.Ok? && rc.Ok? && rb.value.tdee <= rc.value.tdee && rb.value.target <= rc.value.target
  {
    var x, y := RawBmr(formula, sex, b), RawBmr(formula, sex, c);
    RawBmrMonotone(formula, sex, b, c);
    RawBmrLowerBound(formula, sex, b);
    TdeeMonotone(x, y, activity, activity);
    var rb := Compute(sex, Some(b.age), Some(b.height), Some(b.weight), activity, goal, formula);
    var rc := Compute(sex, Some(c.age), Some(c.height), Some(c.weight), activity, goal, formula);
    NearestIsUnique(rb.value.tdee, Tdee(x, activity), x * PalFactors[activity]);
    NearestIsUnique(rc.value.tdee, Tdee(y, activity), y * PalFactors[activity]);
  }

  /** The goals are ordered: for the same person, weight loss never shows more than
      maintenance, and maintenance never more than muscle gain. */
  lemma TargetFollowsGoal(sex: Sex, b: Biometrics, activity: nat, formula: Formula, g1: nat, g2: nat)
    requires activity < |PalFactors| && g1 <= g2 < |GoalDeltas|
    requires InRange(b)
    ensures
      var r1 := Compute(sex, Some(b.age), Some(b.height), Some(b.weight), activity, g1, formula);
      var r2 := Compute(sex, Some(b.age), Some(b.height), Some(b.weight), activity, g2, formula);
      r1.Ok? && r2.Ok? && r1.value.target <= r2.value.target
  {
  }

  /** The callback as the page calls it, with the selectors as the strings it keeps in
      state: only `nem === 'ferfi'` takes the male branches and floor, and only
      `modszer === 'harris'` takes Harris-Benedict; every other string takes the female
      branches or Mifflin-St Jeor. */
  function Calculate(nem: string, age: Option<real>, height: Option<real>, weight: Option<real>,
                     activity: nat, goal: nat, modszer: string): (r: Result<Estimate>)
    requires activity < |PalFactors| && goal < |GoalDeltas|
    ensures nem == "ferfi" && modszer == "harris" ==>
      r == Compute(Male, age, height, weight, activity, goal, HarrisBenedict)
    ensures nem == "ferfi" && modszer != "harris" ==>
      r == Compute(Male, age, height, weight, activity, goal, MifflinStJeor)
    ensures nem != "ferfi" && modszer == "harris" ==>
      r == Compute(Female, age, height, weight, activity, goal, HarrisBenedict)
    ensures nem != "ferfi" && modszer != "harris" ==>
      r == Compute(Female, age, height, weight, activity, goal, MifflinStJeor)
    ensures r.Ok? ==> r.value.target >= if nem == "ferfi" then 1500 else 1200
  {
    Compute(SexOf(nem), age, height, weight, activity, goal, FormulaOf(modszer))
  }
}
