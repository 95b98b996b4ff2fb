/**
 * BMI, BMR (Mifflin-St Jeor), TDEE and the daily calorie target, over exact
 * rationals. Python's `round` is modelled on the exact value: nearest integer,
 * ties to the even one.
 */
module CalorieEngine {
  import opened Wrappers
  import opened Strings
  import opened Models

  /** Python's `round(x)` on an exact value: the nearest integer, ties going to the even one. */
  function RoundHalfEven(x: real): (n: int)
    ensures -0.5 <= n as real - x <= 0.5
    ensures n as real - x == 0.5 || x - n as real == 0.5 ==> n % 2 == 0
  {
    var f := x.Floor;
    var frac := x - f as real;
    if frac < 0.5 then f
    else if frac > 0.5 then f + 1
    else if f % 2 == 0 then f else f + 1
  }

  /** A float that holds an integral value, as `round(x, 0)` returns. */
  predicate IsWhole(x: real) {
    x == x.Floor as real
  }

  /** `round(x, 0)` */
  function Round0(x: real): real {
    RoundHalfEven(x) as real
  }

  /** `round(x, 1)` */
  function Round1(x: real): real {
    RoundHalfEven(x * 10.0) as real / 10.0
  }

  /** `round(x, 1)` is within half a tenth of `x`, and a whole number of tenths. */
  lemma Round1Close(x: real)
    ensures -0.05 <= Round1(x) - x <= 0.05
    ensures IsWhole(Round1(x) * 10.0)
  {
    var n := RoundHalfEven(x * 10.0);
    assert Round1(x) == n as real / 10.0;
    assert Round1(x) * 10.0 == n as real;
    assert Round1(x) - x == (n as real - x * 10.0) / 10.0;
  }

  /** Rounding a value that is already whole leaves it alone. */
  lemma RoundWhole(x: real)
    ensures IsWhole(x) ==> Round0(x) == x
  {
    if IsWhole(x) {
      assert RoundHalfEven(x) == x.Floor;
    }
  }

  /** Rounding a whole value moved by a whole number gives exactly the moved value. */
  lemma RoundWholeShift(x: real, k: int)
    ensures IsWhole(x) ==> Round0(x + k as real) == x + k as real
  {
    if IsWhole(x) {
      assert (x + k as real).Floor == x.Floor + k;
      RoundWhole(x + k as real);
    }
  }

  /** Shifting by an even integer commutes with round-half-to-even. */
  lemma RoundShiftEven(x: real, k: int)
    ensures RoundHalfEven(x + (2 * k) as real) == RoundHalfEven(x) + 2 * k
  {
    var y := x + (2 * k) as real;
    assert y.Floor == x.Floor + 2 * k;
    assert y - y.Floor as real == x - x.Floor as real;
  }

  /** Weight over the square of the height in metres, before rounding. */
  function BodyMassIndex(weightKg: real, heightCm: real): real
    requires heightCm != 0.0
  {
    var heightM := heightCm / 100.0;
    assert heightM * heightM > 0.0 by {
      if heightM < 0.0 { assert (-heightM) * (-heightM) > 0.0; }
    }
    weightKg / (heightM * heightM)
  }

  /** `calculate_bmi`: the index rounded to one decimal; `None` stands for the
      ZeroDivisionError a zero height raises. */
  function Bmi(weightKg: real, heightCm: real): (bmi: Option<real>)
    ensures bmi.None? <==> heightCm == 0.0
    ensures bmi.Some? ==> -0.05 <= bmi.value - BodyMassIndex(weightKg, heightCm) <= 0.05
    ensures bmi.Some? ==> IsWhole(bmi.value * 10.0)
  {
    if heightCm == 0.0 then None
    else
      Round1Close(BodyMassIndex(weightKg, heightCm));
      Some(Round1(BodyMassIndex(weightKg, heightCm)))
  }

  /** `gender and str(gender).strip().lower() in ("male", "m")` */
  predicate IsMale(gender: Option<string>)
    ensures IsMale(gender) ==> TruthyStr(gender)
  {
    TruthyStr(gender) &&
    var g := Lower(Strip(gender.value));
    g == "male" || g == "m"
  }

  /** "m" and "MALE" are male; "Female" is not, although it ends in "male". */
  lemma MaleSpellings()
    ensures IsMale(Some("m")) && IsMale(Some("MALE"))
    ensures !IsMale(Some("Female"))
  {
    StripUnchanged("m");
    LowerUnchanged("m");
    StripUnchanged("MALE");
    LowerOfLiteral("MALE", "male");
    StripUnchanged("Female");
  }

  /** The Mifflin-St Jeor value before rounding. */
  function MifflinStJeor(weightKg: real, heightCm: real, age: int, gender: Option<string>): real {
    10.0 * weightKg + 6.25 * heightCm - 5.0 * age as real + if IsMale(gender) then 5.0 else -161.0
  }

  /** `calculate_bmr` */
  function Bmr(weightKg: real, heightCm: real, age: int, gender: Option<string>): (bmr: real)
    ensures IsWhole(bmr)
    ensures -0.5 <= bmr - MifflinStJeor(weightKg, heightCm, age, gender) <= 0.5
  {
    Round0(MifflinStJeor(weightKg, heightCm, age, gender))
  }

  /** The two sexes' BMR differ by exactly 166, even after rounding. */
  lemma BmrSexGap(weightKg: real, heightCm: real, age: int, male: Option<string>, other: Option<string>)
    requires IsMale(male) && !IsMale(other)
    ensures Bmr(weightKg, heightCm, age, male) == Bmr(weightKg, heightCm, age, other) + 166.0
  {
    var base := MifflinStJeor(weightKg, heightCm, age, other);
    assert MifflinStJeor(weightKg, heightCm, age, male) == base + (2 * 83) as real;
    RoundShiftEven(base, 83);
  }

  /** A missing or empty gender, or one that is not "male"/"m", takes the -161 branch. */
  lemma BmrFemaleBranch(weightKg: real, heightCm: real, age: int, gender: Option<string>)
    requires gender.None? || gender.value == [] || !IsMale(gender)
    ensures Bmr(weightKg, heightCm, age, gender) == Round0(10.0 * weightKg + 6.25 * heightCm - 5.0 * age as real - 161.0)
  {
  }

  /** Upper-casing a string does not change its `strip().lower()`. */
  lemma NormaliseUpper(s: string)
    ensures Lower(Strip(Upper(s))) == Lower(Strip(s))
  {
    StripLowerCommute(Upper(s));
    LowerUpper(s);
    StripLowerCommute(s);
  }

  /** The gender test ignores case: "MALE", "Male" and "male" are one gender. */
  lemma IsMaleIgnoresCase(gender: string)
    ensures IsMale(Some(Upper(gender))) == IsMale(Some(gender))
  {
    NormaliseUpper(gender);
  }

  /** `calculate_tdee`: BMR times the activity factor, rounded. */
  function Tdee(bmr: real, activityFactor: real): (tdee: real)
    ensures IsWhole(tdee)
    ensures -0.5 <= tdee - bmr * activityFactor <= 0.5
  {
    Round0(bmr * activityFactor)
  }

  /** The default of `activity_factor` in `calculate_tdee` and `get_all_metrics`. */
  const DefaultActivityFactor: real := 1.4

  /** How `get_calorie_target` reads a goal. */
  datatype GoalKind = Cutting | Bulking | Maintenance

  /** `(goal or "").strip().lower()` */
  function NormalisedGoal(goal: Option<string>): string {
    Lower(Strip(OrStr(goal, "")))
  }

  /** The substring tests of `get_calorie_target`, the loss test first. */
  function ClassifyGoal(goal: Option<string>): (kind: GoalKind)
    ensures kind == Cutting <==> Contains(NormalisedGoal(goal), "loss") || Contains(NormalisedGoal(goal), "lose")
    ensures kind == Maintenance <==>
      && !Contains(NormalisedGoal(goal), "loss") && !Contains(NormalisedGoal(goal), "lose")
      && !Contains(NormalisedGoal(goal), "gain") && !Contains(NormalisedGoal(goal), "muscle")
  {
    var g := NormalisedGoal(goal);
    if Contains(g, "loss") || Contains(g, "lose") then Cutting
    else if Contains(g, "gain") || Contains(g, "muscle") then Bulking
    else Maintenance
  }

  /** The calorie offset of each goal kind. */
  function Offset(kind: GoalKind): int {
    match kind
    case Cutting => -500
    case Bulking => 300
    case Maintenance => 0
  }

  /** The target for a goal kind: the TDEE moved by the kind's offset, rounded. */
  function TargetFor(tdee: real, kind: GoalKind): (target: real)
    ensures IsWhole(target)
    ensures -0.5 <= target - (tdee + Offset(kind) as real) <= 0.5
    ensures IsWhole(tdee) ==> target == tdee + Offset(kind) as real
  {
    RoundWholeShift(tdee, Offset(kind));
    match kind
    case Cutting => Round0(tdee - 500.0)
    case Bulking => Round0(tdee + 300.0)
    case Maintenance => Round0(tdee)
  }

  /** `get_calorie_target` */
  function CalorieTarget(tdee: real, goal: Option<string>): (target: real)
    ensures IsWhole(target)
    ensures -0.5 <= target - (tdee + Offset(ClassifyGoal(goal)) as real) <= 0.5
    ensures IsWhole(tdee) ==> target == tdee + Offset(ClassifyGoal(goal)) as real
  {
    TargetFor(tdee, ClassifyGoal(goal))
  }

  /** The classification in terms of where the key words occur: "loss"/"lose" anywhere make
      a cut, whatever else the goal says; otherwise "gain"/"muscle" make a bulk. */
  lemma GoalClassification(goal: Option<string>)
    ensures var g := NormalisedGoal(goal);
      && (ClassifyGoal(goal) == Cutting <==>
           (exists i :: OccursAt(g, "loss", i)) || (exists i :: OccursAt(g, "lose", i)))
      && (ClassifyGoal(goal) == Bulking <==>
           !(exists i :: OccursAt(g, "loss", i)) && !(exists i :: OccursAt(g, "lose", i)) &&
           ((exists i :: OccursAt(g, "gain", i)) || (exists i :: OccursAt(g, "muscle", i))))
  {
    var g := NormalisedGoal(goal);
    ContainsIff(g, "loss");
    ContainsIff(g, "lose");
    ContainsIff(g, "gain");
    ContainsIff(g, "muscle");
  }

  /** A missing or empty goal is maintenance. */
  lemma NoGoalIsMaintenance(tdee: real)
    ensures ClassifyGoal(None) == Maintenance && ClassifyGoal(Some("")) == Maintenance
    ensures CalorieTarget(tdee, None) == CalorieTarget(tdee, Some("")) == Round0(tdee)
  {
    assert NormalisedGoal(None) == [];
    assert NormalisedGoal(Some("")) == [];
  }

  /** Classification ignores case: "WEIGHT LOSS" and "weight loss" give one target. */
  lemma CalorieTargetIgnoresCase(tdee: real, goal: string)
    ensures CalorieTarget(tdee, Some(Upper(goal))) == CalorieTarget(tdee, Some(goal))
  {
    NormaliseUpper(goal);
    assert NormalisedGoal(Some(Upper(goal))) == NormalisedGoal(Some(goal));
    assert ClassifyGoal(Some(Upper(goal))) == ClassifyGoal(Some(goal));
  }

  /** On a maintenance goal the target of a target is the target itself. */
  lemma MaintenanceIdempotent(tdee: real, goal: Option<string>)
    requires ClassifyGoal(goal) == Maintenance
    ensures CalorieTarget(CalorieTarget(tdee, goal), goal) == CalorieTarget(tdee, goal)
  {
  }

  /** A goal that mentions "loss" or "lose" is a cut, whatever else it says. */
  lemma CuttingOnLossWords(goal: Option<string>)
    requires Contains(NormalisedGoal(goal), "loss") || Contains(NormalisedGoal(goal), "lose")
    ensures ClassifyGoal(goal) == Cutting
  {
  }

  lemma LoseMuscleNormalised()
    ensures NormalisedGoal(Some("lose muscle")) == "lose muscle"
  {
    StripUnchanged("lose muscle");
    LowerUnchanged("lose muscle");
  }

  /** "lose muscle" is a cut, because the loss test runs first. */
  lemma LoseMuscleIsCutting()
    ensures ClassifyGoal(Some("lose muscle")) == Cutting
    ensures CalorieTarget(2000.0, Some("lose muscle")) == 1500.0
  {
    LoseMuscleNormalised();
    assert OccursAt("lose muscle", "lose", 0);
    ContainsIff("lose muscle", "lose");
    CuttingOnLossWords(Some("lose muscle"));
  }

  lemma WeightLossNormalised()
    ensures NormalisedGoal(Some("Weight Loss")) == "weight loss"
  {
    StripUnchanged("Weight Loss");
    LowerOfLiteral("Weight Loss", "weight loss");
  }

  /** "Weight Loss" is a cut. */
  lemma WeightLossIsCutting()
    ensures ClassifyGoal(Some("Weight Loss")) == Cutting
  {
    WeightLossNormalised();
    assert OccursAt("weight loss", "loss", 7);
    ContainsIff("weight loss", "loss");
    CuttingOnLossWords(Some("Weight Loss"));
  }

  lemma MuscleGainNormalised()
    ensures NormalisedGoal(Some("Muscle Gain")) == "muscle gain"
  {
    StripUnchanged("Muscle Gain");
    LowerOfLiteral("Muscle Gain", "muscle gain");
  }

  /** "muscle gain" has no "o" and holds "gain" at index 7. */
  lemma MuscleGainLetters()
    ensures 'o' !in "muscle gain"
    ensures Contains("muscle gain", "gain")
  {
    assert OccursAt("muscle gain", "gain", 7);
    ContainsIff("muscle gain", "gain");
  }

  /** A goal with no "o" (so neither "loss" nor "lose") that mentions "gain" is a bulk. */
  lemma BulkingWithoutLossWords(goal: Option<string>)
    requires 'o' !in NormalisedGoal(goal)
    requires Contains(NormalisedGoal(goal), "gain")
    ensures ClassifyGoal(goal) == Bulking
  {
    var g := NormalisedGoal(goal);
    ContainedChar(g, "loss", 'o');
    ContainedChar(g, "lose", 'o');
  }

  /** "Muscle Gain" is a bulk. */
  lemma MuscleGainIsBulking()
    ensures ClassifyGoal(Some("Muscle Gain")) == Bulking
  {
    MuscleGainNormalised();
    MuscleGainLetters();
    BulkingWithoutLossWords(Some("Muscle Gain"));
  }

  lemma MaintainWeightNormalised()
    ensures NormalisedGoal(Some("Maintain Weight")) == "maintain weight"
  {
    StripUnchanged("Maintain Weight");
    LowerOfLiteral("Maintain Weight", "maintain weight");
  }

  /** "maintain weight" has no "o" and no "u". */
  lemma MaintainWeightVowels()
    ensures 'o' !in "maintain weight" && 'u' !in "maintain weight"
  {
  }

  /** The only "g" of "maintain weight" is followed by "h", so "gain" does not occur in it. */
  lemma MaintainWeightHasNoGain()
    ensures !Contains("maintain weight", "gain")
  {
    var g := "maintain weight";
    forall i | 0 <= i <= |g| - 4 ensures !OccursAt(g, "gain", i) {
      assert i == 0 || i == 1 || i == 2 || i == 3 || i == 4 || i == 5 || i == 6 || i == 7 || i == 8 || i == 9 || i == 10 || i == 11;
      assert g[i..i + 4][0] == g[i] && g[i..i + 4][1] == g[i + 1];
    }
    ContainsIff(g, "gain");
  }

  /** A goal with no "o" (so neither "loss" nor "lose"), no "u" (so no "muscle") and no
      "gain" is maintenance. */
  lemma MaintenanceWithoutKeywords(goal: Option<string>)
    requires 'o' !in NormalisedGoal(goal) && 'u' !in NormalisedGoal(goal)
    requires !Contains(NormalisedGoal(goal), "gain")
    ensures ClassifyGoal(goal) == Maintenance
  {
    var g := NormalisedGoal(goal);
    ContainedChar(g, "loss", 'o');
    ContainedChar(g, "lose", 'o');
    ContainedChar(g, "muscle", 'u');
  }

  /** "Maintain Weight" is maintenance. */
  lemma MaintainWeightIsMaintenance()
    ensures ClassifyGoal(Some("Maintain Weight")) == Maintenance
  {
    MaintainWeightNormalised();
    MaintainWeightVowels();
    MaintainWeightHasNoGain();
    MaintenanceWithoutKeywords(Some("Maintain Weight"));
  }

  /** The three goals the profile form offers, on a TDEE of 2000. */
  lemma FormGoalTargets()
    ensures CalorieTarget(2000.0, Some("Weight Loss")) == 1500.0
    ensures CalorieTarget(2000.0, Some("Muscle Gain")) == 2300.0
    ensures CalorieTarget(2000.0, Some("Maintain Weight")) == 2000.0
  {
    WeightLossIsCutting();
    MuscleGainIsBulking();
    MaintainWeightIsMaintenance();
  }

  /** The result of `get_all_metrics`. */
  datatype Metrics = Metrics(bmi: real, bmr: real, tdee: real, calorieTarget: real, activityFactor: real)

  /** `getattr(user, "weight_kg", 70) or 70` */
  function EffectiveWeight(user: User): (weightKg: real)
    ensures TruthyNum(user.weightKg) ==> weightKg == user.weightKg.value
    ensures !TruthyNum(user.weightKg) ==> weightKg == 70.0
  {
    OrNum(user.weightKg, 70.0)
  }

  /** `getattr(user, "height_cm", 170) or 170`: never zero. */
  function EffectiveHeight(user: User): (heightCm: real)
    ensures heightCm != 0.0
    ensures TruthyNum(user.heightCm) ==> heightCm == user.heightCm.value
    ensures !TruthyNum(user.heightCm) ==> heightCm == 170.0
  {
    OrNum(user.heightCm, 170.0)
  }

  /** `getattr(user, "age", 25) or 25` */
  function EffectiveAge(user: User): (age: int)
    ensures user.age.Some? && user.age.value != 0 ==> age == user.age.value
    ensures !(user.age.Some? && user.age.value != 0) ==> age == 25
  {
    OrInt(user.age, 25)
  }

  /** `getattr(user, "gender", "Male") or "Male"` */
  function EffectiveGender(user: User): (gender: string)
    ensures TruthyStr(user.gender) ==> gender == user.gender.value
    ensures !TruthyStr(user.gender) ==> gender == "Male"
  {
    OrStr(user.gender, "Male")
  }

  /** `getattr(user, "goal", "Maintain Weight") or "Maintain Weight"` */
  function EffectiveGoal(user: User): (goal: string)
    ensures TruthyStr(user.goal) ==> goal == user.goal.value
    ensures !TruthyStr(user.goal) ==> goal == DefaultGoal && ClassifyGoal(Some(goal)) == Maintenance
  {
    if TruthyStr(user.goal) then user.goal.value
    else
      MaintainWeightIsMaintenance();
      DefaultGoal
  }

  /** `get_all_metrics`: every falsy profile field takes its default, so the BMI
      division always has a non-zero height. */
  function AllMetrics(user: User, activityFactor: real): (m: Metrics)
    ensures m.activityFactor == activityFactor
    ensures Some(m.bmi) == Bmi(EffectiveWeight(user), EffectiveHeight(user))
    ensures -0.05 <= m.bmi - BodyMassIndex(EffectiveWeight(user), EffectiveHeight(user)) <= 0.05
    ensures m.bmr == Bmr(EffectiveWeight(user), EffectiveHeight(user), EffectiveAge(user), Some(EffectiveGender(user)))
    ensures IsWhole(m.bmr) && IsWhole(m.tdee) && IsWhole(m.calorieTarget)
    ensures m.tdee == Tdee(m.bmr, m.activityFactor)
    ensures m.calorieTarget == m.tdee + Offset(ClassifyGoal(Some(EffectiveGoal(user)))) as real
  {
    var weight, height := EffectiveWeight(user), EffectiveHeight(user);
    var bmi := Bmi(weight, height).value;
    var bmr := Bmr(weight, height, EffectiveAge(user), Some(EffectiveGender(user)));
    var tdee := Tdee(bmr, activityFactor);
    Metrics(bmi, bmr, tdee, CalorieTarget(tdee, Some(EffectiveGoal(user))), activityFactor)
  }

  /** "Male" is read as male. */
  lemma MaleLiteralIsMale()
    ensures IsMale(Some("Male"))
  {
    StripUnchanged("Male");
    LowerOfLiteral("Male", "male");
  }

  /** The BMI of the default 70 kg, 170 cm profile is 24.2. */
  lemma DefaultBmi()
    ensures Bmi(70.0, 170.0) == Some(24.2)
  {
    assert BodyMassIndex(70.0, 170.0) * 10.0 == 70.0 / (1.7 * 1.7) * 10.0;
    assert RoundHalfEven(70.0 / (1.7 * 1.7) * 10.0) == 242;
  }

  /** The BMR of the default profile: 1642.5 rounds to the even 1642. */
  lemma DefaultBmr()
    ensures Bmr(70.0, 170.0, 25, Some("Male")) == 1642.0
  {
    MaleLiteralIsMale();
    assert MifflinStJeor(70.0, 170.0, 25, Some("Male")) == 1642.5;
    assert RoundHalfEven(1642.5) == 1642;
  }

  /** 1642 at the default activity factor of 1.4 is 2298.8, rounded to 2299. */
  lemma DefaultTdee()
    ensures Tdee(1642.0, DefaultActivityFactor) == 2299.0
  {
    assert RoundHalfEven(1642.0 * 1.4) == 2299;
  }

  /** A profile with every field empty is read as a 70 kg, 170 cm, 25-year-old male profile
      with a maintenance goal. */
  lemma EmptyProfileMetrics(user: User)
    requires !TruthyNum(user.weightKg) && !TruthyNum(user.heightCm)
    requires user.age.None? || user.age.value == 0
    requires !TruthyStr(user.gender) && !TruthyStr(user.goal)
    ensures AllMetrics(user, DefaultActivityFactor) == Metrics(24.2, 1642.0, 2299.0, 2299.0, 1.4)
  {
    assert EffectiveWeight(user) == 70.0 && EffectiveHeight(user) == 170.0;
    assert EffectiveAge(user) == 25;
    assert EffectiveGender(user) == "Male" && EffectiveGoal(user) == DefaultGoal;
    DefaultBmi();
    DefaultBmr();
    DefaultTdee();
    MaintainWeightIsMaintenance();
  }
}
