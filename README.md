# Calorie calculator core in Dafny

This project models the calculation behind a Hungarian single-page calorie calculator
(a Next.js page). When the user presses "calculate", the page's callback `kiszamit`:

1. parses age (`kor`), height (`magassag`, cm) and weight (`suly`, kg) and refuses the
   submission unless all three are non-zero numbers with age in 10..110, height in
   100..250 and weight in 30..300, all bounds inclusive;
2. computes the basal metabolic rate (BMR) by Harris-Benedict (revised coefficients)
   when `modszer` is `'harris'`, otherwise by Mifflin-St Jeor, with a male branch when
   `nem` is `'ferfi'` and a female branch otherwise;
3. shows the BMR rounded, and computes the total daily energy expenditure (TDEE) as the
   UNROUNDED BMR times the PAL factor of the chosen activity level (`PAL_SZINTEK`),
   rounded;
4. adds the goal's adjustment (`CELOK`: -500, 0 or +300 kcal) to get `celKcal`;
5. splits `celKcal` into protein (1.7 g/kg, or 2.0 g/kg for muscle gain), fat (a
   quarter of the energy, 9 kcal/g) and carbohydrate (the remaining energy, 4 kcal/g,
   never clamped, so it can be negative);
6. computes BMI rounded to one decimal and its band, and the Devine ideal body weight;
7. publishes the target as `max(celKcal, 1500)` for men and `max(celKcal, 1200)` for
   women, while the macros stay computed from the unfloored `celKcal`.

Files:

- `jsmath.dfy`, module `JsMath`: `Math.round` (nearest integer, halves toward +infinity)
  and `parseFloat(x.toFixed(1))` over exact reals.
- `calculator.dfy`, module `Calculator`: the string selectors, the validation guard, both BMR
  equations, the PAL and goal tables, TDEE, the floored target, the macro split, BMI and
  its bands, Devine ideal weight, and `Compute`, the whole callback as one function
  returning `Ok(Estimate)` or `Err(InvalidInput)`, with lemmas about each stage;
  `Calculate` is the same callback taking `nem` and `modszer` as strings.
- `scenarios.dfy`, module `Scenarios`: worked inputs, including the page's own examples
  and inputs that exhibit the two pipeline quirks.

Two details of the code that a reader might expect to be otherwise, and one place where
the page's own text disagrees with its code:

- Rounding the BMR before applying the PAL factor would give a different TDEE; the code
  (pages/index.js:99) multiplies the unrounded BMR. `Scenarios.TdeeUsesUnroundedBmr`
  gives an input where the two differ (1821 against 1822).
- The floor does not reach the macros: lines 106-108 split the unfloored `celKcal`, and
  the floor is applied only in the published record (line 123).
  `Scenarios.FloorDoesNotReachMacros` shows a shown target of 1200 kcal with macros from
  -243 kcal.
- The page's explanatory text (pages/index.js:524) gives 1748 kcal for its worked
  example; the callback shows `Math.round(1748.75)` = 1749
  (`Scenarios.WorkedExampleMan`).

## Model

| member | source | states |
|---|---|---|
| `JsMath.Round` | pages/index.js:97 | `Math.round` gives the integer nearest its argument, a tie going to the upper integer; whole numbers are returned unchanged |
| `JsMath.ToFixed1` | pages/index.js:112 | `parseFloat(x.toFixed(1))` lies on the one-decimal grid, within 0.05 of `x`, and for non-negative `x` is the nearest tenth with ties going up |
| `Calculator.SexOf` | pages/index.js:22 | only the exact string `'ferfi'` selects the male branch; every other value selects the female one |
| `Calculator.FormulaOf` | pages/index.js:93-95 | only the exact string `'harris'` selects Harris-Benedict; every other value selects Mifflin-St Jeor |
| `Calculator.Validate` | pages/index.js:83-91 | a submission passes exactly when age, height and weight all parsed and lie in 10..110, 100..250 and 30..300 (inclusive), and then passes the values through unchanged |
| `Calculator.HarrisBenedictBmr` | pages/index.js:21-27 | the revised Harris-Benedict equation with the source's coefficients for both sexes (88.362, 13.397, 4.799, 5.677 and 447.593, 9.247, 3.098, 4.330); its properties are stated by `RawBmrLowerBound` and `RawBmrMonotone` |
| `Calculator.MifflinStJeorBmr` | pages/index.js:29-35 | the Mifflin-St Jeor equation with the source's coefficients (10, 6.25, 5, and +5 or -161); its properties are stated by `MifflinSexGap`, `RawBmrLowerBound` and `RawBmrMonotone` |
| `Calculator.RawBmr` | pages/index.js:93-95 | the unrounded BMR of the selected formula, dispatching to `HarrisBenedictBmr` or `MifflinStJeorBmr`; its properties are stated by `RawBmrLowerBound` and `RawBmrMonotone` |
| `Calculator.RawBmi` | pages/index.js:112 | weight divided by the square of the height in metres, before `toFixed(1)`; its order properties are stated by `RawBmiMonotone` |
| `Calculator.RawBmrLowerBound` | pages/index.js:21-35 | for every accepted input both equations give at least 214 kcal (the Mifflin-St Jeor minimum, reached by a 110-year-old woman of 100 cm and 30 kg) |
| `Calculator.MifflinSexGap` | pages/index.js:29-35 | for identical inputs Mifflin-St Jeor puts men exactly 166 kcal above women |
| `Calculator.RawBmrMonotone` | pages/index.js:21-35 | under both equations and for both sexes, more weight, more height or fewer years never lower the BMR |
| `Calculator.Tdee` | pages/index.js:98-99 | the TDEE is the integer nearest the unrounded BMR times the chosen PAL factor |
| `Calculator.TdeeMonotone` | pages/index.js:6-12 | a larger positive BMR or a more active level in the PAL table never lowers the TDEE |
| `Calculator.DisplayedTarget` | pages/index.js:123 | the shown target is at least the sex floor (1500 male, 1200 female) and at least `celKcal`, and is one of the two |
| `Calculator.ProteinRate` | pages/index.js:103 | the protein rate is 2.0 g/kg exactly for the muscle-gain goal (index 2) and 1.7 g/kg for every other goal |
| `Calculator.SplitMacros` | pages/index.js:103-109 | protein, fat and carbohydrate energy add up to `celKcal` exactly; protein energy is 4 kcal per gram; protein grams are the rounded rate times weight, fat energy the rounded quarter of `celKcal`, fat grams the rounded ninth of fat energy and carbohydrate grams the rounded quarter of the (possibly negative) remainder |
| `Calculator.Bmi` | pages/index.js:112 | the shown BMI has one decimal and lies within 0.05 of weight over height in metres squared; for a non-negative weight it is the nearest tenth, an exact tie going up |
| `Calculator.Category` | pages/index.js:38-44 | the five bands are the half-open intervals below 18.5, [18.5, 25), [25, 30), [30, 35) and from 35 on, each stated as an if-and-only-if |
| `Calculator.CategoryMonotone` | pages/index.js:38-44 | a larger BMI never falls into a lighter band |
| `Calculator.RawBmiMonotone` | pages/index.js:112 | at a fixed height more weight never lowers the raw BMI, and at a fixed weight more height never raises it |
| `Calculator.CategoryFollowsBody` | pages/index.js:112-113 | after rounding to one decimal, a heavier or shorter person never gets a smaller BMI or a lighter band |
| `Calculator.IdealWeight` | pages/index.js:116-118 | the Devine ideal weight is the integer nearest 50 kg (male) or 45.5 kg (female) plus 2.3 kg per 2.54 cm above 152.4 cm |
| `Calculator.IdealWeightMonotone` | pages/index.js:116-118 | both sexes share the slope, so the ideal weight never decreases with height |
| `Calculator.IdealWeightSexGap` | pages/index.js:116-118 | at every height the male ideal weight exceeds the female one by 4 or 5 kg |
| `Calculator.Compute` | pages/index.js:82-131 | a result exists exactly when validation passes; then the shown BMR is the nearest integer to the formula's value, the TDEE the nearest integer to the unrounded BMR times PAL, the goal delta the table's, the shown target `tdee + delta` when that reaches the sex floor and the floor otherwise, the macros the split of the unfloored `tdee + delta`, and BMI, band and ideal weight those of the validated height and weight |
| `Calculator.Calculate` | pages/index.js:82-131 | the callback with its string selectors: `'ferfi'` takes the male branches and the 1500 kcal floor and any other string the female ones and 1200 kcal; `'harris'` takes Harris-Benedict and any other string Mifflin-St Jeor |
| `Calculator.ComputeMonotoneInBody` | pages/index.js:93-100 | with all selectors fixed, a heavier, taller or younger person never gets a lower TDEE or a lower shown target |
| `Calculator.TargetFollowsGoal` | pages/index.js:14-18 | for the same person, weight loss never shows more than maintenance and maintenance never more than muscle gain |
| `Scenarios.WorkedExampleMan` | pages/index.js:524 | a 30-year-old man of 175 cm and 80 kg has Mifflin-St Jeor BMR 1748.75, shown as 1749; moderately active and losing weight he gets TDEE 2711, target 2211, 136 g protein, 61 g fat, 279 g carbohydrate, BMI 26.1 (overweight) and ideal weight 70 kg |
| `Scenarios.WorkedExampleWoman` | pages/index.js:21-27 | a 25-year-old woman of 165 cm and 60 kg has Harris-Benedict BMR 1405.333, shown as 1405, and the full record that follows for light activity and maintenance |
| `Scenarios.BmiExample` | pages/index.js:194 | 75 kg at 175 cm gives BMI 24.5, a normal weight |
| `Scenarios.TdeeUsesUnroundedBmr` | pages/index.js:97-99 | for a 30-year-old man of 170 cm and 60 kg, sedentary, the TDEE is 1821 while multiplying the shown BMR 1518 would give 1822 |
| `Scenarios.FloorDoesNotReachMacros` | pages/index.js:104-123 | with the page's selector strings `'no'` and `'mifflin'`, a sedentary 110-year-old woman of 100 cm and 30 kg losing weight is shown 1200 kcal while her macros are split from -243 kcal (fat -7 g, carbohydrate -96 g) |
| `Scenarios.BmiTieRoundsUp` | pages/index.js:112 | 30.05 kg at 100 cm has raw BMI exactly 30.05, shown as 30.1 |
| `Scenarios.ValidationBoundaries` | pages/index.js:87 | the range bounds are accepted, age 9.99, weight 29, a missing field and a zero field are refused |
| `Scenarios.IdealWeightAtFiveFeet` | pages/index.js:116-118 | at 152.4 cm the ideal weight is 50 kg for a man and `Math.round(45.5)` = 46 kg for a woman |

## Left out

- React state, hooks and rendering: the callback's writes (`setHiba`, `setEredmeny`) are
  replaced by returning the `Result`; clearing the result when an input changes is not
  modelled.
- `parseFloat` string parsing: each field is an `Option<real>`, `None` standing for NaN.
  Infinity is not representable; the range check would refuse it anyway.
- The error message text: the single error is `InvalidInput`.
- The labels, colours and icons of the tables and BMI bands (`palLabel`, `celLabel`,
  `bmiInfo.color`) and `toLocaleString` formatting: presentation only. The published
  record keeps the numeric fields and the band as a datatype.
- The food table, tips, age table, FAQ, SEO metadata and schema.org objects: static
  content with no computation.
- IEEE-754 doubles: all arithmetic is over exact reals, so products that land near .5 in
  the browser (raw BMR times PAL, `toFixed` of a binary fraction) may round differently
  there than here.
- `Calculator.RawBmi`, `Calculator.Bmi`, `Calculator.RawBmiMonotone` and
  `Calculator.CategoryFollowsBody` require a height of at least 100 cm, the validated
  minimum, rather than any positive height: the callback computes BMI only after
  validation.
- Out-of-range selector indices: the page only sets activity 0..4 and goal 0..2, so
  `Compute` requires them.
