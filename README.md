# student-fit: calorie engine, plan generation and catalogue cascade in Dafny

student-fit is a Streamlit app for students. A user profile (age, gender, height, weight, goal,
diet, weekly budget, equipment, minutes a day) goes through a calorie engine that computes BMI,
BMR (Mifflin-St Jeor), TDEE and a daily calorie target. The app then asks a text generator for a
seven-day meal plan or workout plan. Before asking, it picks the recipes or workouts to offer with
a cascade of catalogue queries and renders them into the prompt. It strips a markdown fence from
the reply, accepts only a JSON object with a `"days"` key, and saves the plan.

This project models that core:

- `calorie_engine.dfy`: the calorie engine as pure functions over exact rationals. Python's
  `round` is round-half-to-even on the exact value.
- `recipe_service.dfy` and `workout_service.dfy`: the filtered catalogue queries. Each is a
  selection over the table in table order (`filtering.dfy`). Text filters apply only when truthy.
  The cost ceiling and the workout equipment filter apply whenever they are not `None`. A
  comparison against a NULL column matches nothing.
- `plan_response.dfy`: the shared reply normaliser (strip, remove the fence, parse, check for
  `"days"`) and the two `setdefault` calls that give meal plans their weekly totals. The fence
  strip is a method whose reassignments mirror the code. It is proved equal to a function, and
  the round-trip lemmas are proved about that function.
- `meal_plan_generator.dfy` and `workout_plan_generator.dfy`: the context rendering loops, the
  prompt values, the generate-and-validate methods and the cascade-then-save methods. Each method
  is proved against a function of its inputs, and the cascade's fall-back order is proved as
  lemmas.
- `persistence.dfy`: the session as a class. Its `users`, `recipes` and `workouts` tables are read
  by the generators. Its `mealPlans` and `workoutPlans` logs are appended by `create_meal_plan`
  and `create_workout_plan`. The same file holds the outside world (text generation, `json.loads`,
  `float()` on strings, number formatting), passed in as the `Env` parameter.
- `strings.dfy` and `models.dfy`: Python's `str.strip`, `lower`, `split` and `join`, truthiness,
  and the table rows.

For the empty profile (70 kg, 170 cm, 25 years, "Male", "Maintain Weight") the code computes:

- a BMR of 10·70 + 6.25·170 − 5·25 + 5 = 1642.5, which `round` takes to the even 1642;
- a TDEE of 1642 · 1.4 = 2298.8, rounded to 2299.

`CalorieEngine.EmptyProfileMetrics` states these values.

## Model

| member | source | states |
|---|---|---|
| CalorieEngine.RoundHalfEven | app/ai_engine/calorie_engine.py:17 | the rounded value is within 0.5 of the input, and an exact tie goes to the even integer |
| CalorieEngine.Round1Close | app/ai_engine/calorie_engine.py:7 | `round(x, 1)` is within 0.05 of `x` and a whole number of tenths |
| CalorieEngine.RoundWholeShift | app/ai_engine/calorie_engine.py:29-32 | rounding a whole value moved by a whole offset gives exactly the moved value |
| CalorieEngine.RoundShiftEven | app/ai_engine/calorie_engine.py:14-17 | moving the input by an even integer moves the half-even rounding by the same amount |
| CalorieEngine.Bmi | app/ai_engine/calorie_engine.py:4-7 | no BMI exactly when the height is 0 (the division raises); otherwise the result is within 0.05 of weight over height in metres squared and is a whole number of tenths, as `round(x, 1)` gives |
| CalorieEngine.Bmr | app/ai_engine/calorie_engine.py:10-17 | the BMR is a whole number within 0.5 of 10·weight + 6.25·height − 5·age, plus 5 for male and −161 otherwise |
| CalorieEngine.IsMale | app/ai_engine/calorie_engine.py:13 | a gender read as male is present and non-empty; which spellings count, and that case does not matter, are stated by MaleSpellings and IsMaleIgnoresCase |
| CalorieEngine.MaleSpellings | app/ai_engine/calorie_engine.py:13 | "m" and "MALE" are male, "Female" is not |
| CalorieEngine.BmrSexGap | app/ai_engine/calorie_engine.py:13-16 | for equal weight, height and age, the male BMR is exactly 166 above the other, even after rounding |
| CalorieEngine.BmrFemaleBranch | app/ai_engine/calorie_engine.py:13-16 | a missing, empty or non-male gender takes the −161 branch |
| CalorieEngine.NormaliseUpper | app/ai_engine/calorie_engine.py:13 | upper-casing a string does not change its `strip().lower()` |
| CalorieEngine.IsMaleIgnoresCase | app/ai_engine/calorie_engine.py:13 | the gender test gives the same answer for a string and its upper-case form |
| CalorieEngine.Tdee | app/ai_engine/calorie_engine.py:20-22 | the TDEE is a whole number within 0.5 of BMR times the activity factor |
| CalorieEngine.TargetFor | app/ai_engine/calorie_engine.py:28-32 | the target is whole and within 0.5 of the TDEE plus the goal kind's offset (−500, +300 or 0), and is exactly that sum for a whole TDEE |
| CalorieEngine.CalorieTarget | app/ai_engine/calorie_engine.py:25-32 | the target is the TDEE moved by the offset of the goal's classification, exactly so for a whole TDEE |
| CalorieEngine.ClassifyGoal | app/ai_engine/calorie_engine.py:27-32 | a goal is a cut iff its normalised form contains "loss" or "lose", and maintenance iff it contains none of "loss", "lose", "gain", "muscle" |
| CalorieEngine.GoalClassification | app/ai_engine/calorie_engine.py:27-32 | a goal is a cut iff its normalised form contains "loss" or "lose"; it is a bulk iff it contains neither of those but does contain "gain" or "muscle" |
| CalorieEngine.NoGoalIsMaintenance | app/ai_engine/calorie_engine.py:27-32 | a missing or empty goal is maintenance, and its target is the rounded TDEE |
| CalorieEngine.CalorieTargetIgnoresCase | app/ai_engine/calorie_engine.py:27 | a goal and its upper-case form give the same target |
| CalorieEngine.MaintenanceIdempotent | app/ai_engine/calorie_engine.py:32 | on a maintenance goal, taking the target of the target changes nothing |
| CalorieEngine.CuttingOnLossWords | app/ai_engine/calorie_engine.py:28-29 | a goal that mentions "loss" or "lose" is a cut, whatever else it mentions |
| CalorieEngine.LoseMuscleIsCutting | app/ai_engine/calorie_engine.py:28-31 | "lose muscle" is a cut because the loss test runs first, so 2000 gives 1500 |
| CalorieEngine.WeightLossIsCutting | app/ai_engine/calorie_engine.py:26-29 | "Weight Loss" is a cut |
| CalorieEngine.BulkingWithoutLossWords | app/ai_engine/calorie_engine.py:28-31 | a goal with no "o" that mentions "gain" is a bulk |
| CalorieEngine.MuscleGainIsBulking | app/ai_engine/calorie_engine.py:26-31 | "Muscle Gain" is a bulk |
| CalorieEngine.MaintenanceWithoutKeywords | app/ai_engine/calorie_engine.py:28-32 | a goal without "o", without "u" and without "gain" is maintenance |
| CalorieEngine.MaintainWeightIsMaintenance | app/ai_engine/calorie_engine.py:26-32 | "Maintain Weight" is maintenance |
| CalorieEngine.FormGoalTargets | app/ai_engine/calorie_engine.py:25-32 | on a TDEE of 2000 the three form goals give 1500, 2300 and 2000 |
| CalorieEngine.EffectiveWeight | app/ai_engine/calorie_engine.py:37 | a truthy weight is used as given; a missing or zero weight becomes 70 |
| CalorieEngine.EffectiveHeight | app/ai_engine/calorie_engine.py:38 | a truthy height is used as given and a missing or zero height becomes 170, so the height is never 0 |
| CalorieEngine.EffectiveAge | app/ai_engine/calorie_engine.py:39 | a non-zero age is used as given; a missing or zero age becomes 25 |
| CalorieEngine.EffectiveGender | app/ai_engine/calorie_engine.py:40 | a non-empty gender is used as given; a missing or empty gender becomes "Male" |
| CalorieEngine.EffectiveGoal | app/ai_engine/calorie_engine.py:41 | a non-empty goal is used as given; a missing or empty goal becomes "Maintain Weight", which is maintenance |
| CalorieEngine.AllMetrics | app/ai_engine/calorie_engine.py:35-54 | the BMI and BMR are those of the defaulted weight, height, age and gender; the BMI is within 0.05 of the index; BMR, TDEE and target are whole; the TDEE is the BMR times the factor, rounded; the target is the TDEE plus the defaulted goal's offset; the factor is echoed |
| CalorieEngine.DefaultBmi | app/ai_engine/calorie_engine.py:4-7 | BMI of 70 kg at 170 cm is 24.2 |
| CalorieEngine.DefaultBmr | app/ai_engine/calorie_engine.py:10-17 | BMR of 70 kg, 170 cm, 25 years, "Male" is 1642 (1642.5 rounds to even) |
| CalorieEngine.DefaultTdee | app/ai_engine/calorie_engine.py:20-22 | 1642 at the default factor 1.4 gives a TDEE of 2299 |
| CalorieEngine.EmptyProfileMetrics | app/ai_engine/calorie_engine.py:37-53 | a profile whose every field is missing or falsy gets BMI 24.2, BMR 1642, TDEE 2299, target 2299 and factor 1.4 |
| Filtering.Keep | app/services/recipe_service.py:15-27 | the selection holds a row iff the row is in the table and passes the test, and it is empty iff no row passes |
| Filtering.KeepMonotone | app/services/recipe_service.py:18-26 | a weaker test selects a superset of the rows a stronger one selects, in the same order |
| Filtering.KeepIsSubseq | app/services/recipe_service.py:27 | the selection keeps the table's order |
| Filtering.KeepAll | app/services/recipe_service.py:5-7 | a test every row passes selects the whole table |
| Filtering.KeepSame | app/services/recipe_service.py:19-26 | two tests that agree on every row select the same rows |
| RecipeService.RecipesFiltered | app/services/recipe_service.py:10-27 | a recipe is returned iff it is in the table and passes every active filter; the result is empty iff no row passes; table order is kept |
| RecipeService.AllRecipes | app/services/recipe_service.py:5-7 | every row of the table is returned, each as often as the table holds it |
| RecipeService.ColumnIs | app/services/recipe_service.py:20 | a NULL column equals no filter value |
| RecipeService.RecipeMatches | app/services/recipe_service.py:18-27 | with no active filter every row matches; under a cost ceiling a matching row has a known cost; under a diet filter it has that diet |
| RecipeService.FilteredRowsPassEachFilter | app/services/recipe_service.py:19-26 | every returned row has the requested diet, cuisine and meal type, and a known cost within the ceiling (a ceiling of 0 included) |
| RecipeService.NoFilterIsAllRecipes | app/services/recipe_service.py:5-7 | with no filter the query returns the whole table, as `get_all_recipes` does |
| RecipeService.EmptyTextFiltersAreIgnored | app/services/recipe_service.py:19-26 | an empty diet, cuisine or meal type filters nothing |
| RecipeService.DietQueriesNarrow | app/services/recipe_service.py:19-24 | diet with cost lies inside diet alone, which lies inside the whole table |
| WorkoutService.WorkoutsFiltered | app/services/workout_service.py:10-19 | a workout is returned iff it is in the table and passes every active filter; the result is empty iff none passes; table order is kept |
| WorkoutService.AllWorkouts | app/services/workout_service.py:5-7 | every row of the table is returned, each as often as the table holds it |
| WorkoutService.WorkoutMatches | app/services/workout_service.py:12-19 | with no active filter every row matches; under an equipment filter a matching row has its equipment set |
| WorkoutService.EquipmentAlwaysFilters | app/services/workout_service.py:15-16 | any equipment that is not `None`, even "", selects exactly the rows that require it |
| WorkoutService.NoFilterIsAllWorkouts | app/services/workout_service.py:5-7 | with no filter the query returns the whole table |
| WorkoutService.EmptyTextFiltersAreIgnored | app/services/workout_service.py:13-18 | an empty goal or difficulty filters nothing |
| WorkoutService.EquipmentQueriesNarrow | app/services/workout_service.py:13-16 | goal with equipment lies inside equipment alone, which lies inside the whole table |
| Strings.JoinSplit | app/ai_engine/meal_plan_generator.py:66-71 | joining the pieces of a split with the separator gives back the text |
| PlanResponse.StripFence | app/ai_engine/meal_plan_generator.py:64-71 | the stepwise fence removal computes the stripped text without its opening and closing fence lines |
| PlanResponse.Unfence | app/ai_engine/meal_plan_generator.py:65-71 | text without an opening fence is kept; otherwise the first line goes, a closing fence line goes, and the remaining lines are joined by newlines |
| PlanResponse.OpeningLineIsFence | app/ai_engine/meal_plan_generator.py:65-68 | when the text opens with a fence, so does its first line, so the first line is always dropped |
| PlanResponse.DropClosingFence | app/ai_engine/meal_plan_generator.py:69-70 | the last line is dropped exactly when, stripped, it is a bare fence; otherwise the lines are kept as they are |
| PlanResponse.FenceRoundTrip | app/ai_engine/meal_plan_generator.py:64-71 | removing the fence from a fenced block gives back exactly its body |
| PlanResponse.UnclosedFenceKeepsBody | app/ai_engine/workout_plan_generator.py:57-64 | without a closing fence line, everything after the opening line is kept |
| PlanResponse.PlanOf | app/ai_engine/meal_plan_generator.py:76-77 | a parse result is accepted iff it is an object with "days", and the plan is that object |
| PlanResponse.ParsePlan | app/ai_engine/workout_plan_generator.py:51-71 | an empty reply gives no plan; a non-empty reply is accepted iff its stripped, unfenced text parses to an object with "days", and the plan is that object; text without a fence is parsed as stripped |
| PlanResponse.FencedParsesAsBody | app/ai_engine/meal_plan_generator.py:64-77 | a fenced reply is read as its body would be read |
| PlanResponse.FenceIsTransparent | app/ai_engine/workout_plan_generator.py:57-70 | a clean body parses the same with or without a fence around it |
| PlanResponse.SetDefault | app/ai_engine/meal_plan_generator.py:78-79 | the key is present afterwards and keeps an existing value, otherwise it gets the default; no other key changes |
| PlanResponse.WithRollups | app/ai_engine/meal_plan_generator.py:78-79 | both weekly totals are present; existing values, totals included, are kept; a missing total is 0; no other key is added |
| PlanResponse.WithRollupsIdempotent | app/ai_engine/meal_plan_generator.py:78-79 | adding the defaults twice adds nothing more |
| PlanResponse.WithRollupsKeepsComplete | app/ai_engine/meal_plan_generator.py:78-79 | a plan that already has both totals is left as it is |
| PlanResponse.MealPlanOf | app/ai_engine/meal_plan_generator.py:57-80 | a meal plan exists iff the reply is accepted; it is the accepted object with the weekly totals defaulted to 0, so it has "days" and both totals and keeps every parsed value |
| PlanResponse.WorkoutPlanOf | app/ai_engine/workout_plan_generator.py:51-71 | the workout plan is the accepted reply, unchanged: it has "days" and is the parsed object itself |
| PlanResponse.MealPlanExtendsWorkoutPlan | app/ai_engine/meal_plan_generator.py:72-80 | meal and workout plans are accepted on the same replies; the meal plan's keys are the workout plan's plus the two totals |
| PlanResponse.AddRollups | app/ai_engine/meal_plan_generator.py:78-79 | the two in-place `setdefault` steps give the plan with its weekly totals defaulted |
| Persistence.ToFloat | app/ai_engine/meal_plan_generator.py:106-107 | an integer or float cost converts to its value; null, arrays and objects make `float()` raise |
| Persistence.Session.UserById | app/ai_engine/meal_plan_generator.py:85-87 | a user is found iff the id is in the users table, and it is that row |
| Persistence.Session.CreateMealPlan | app/ai_engine/meal_plan_generator.py:106-107 | the plan is saved iff its weekly cost converts to a number; exactly one record is appended with the user, target, plan and cost, or nothing is |
| Persistence.Session.CreateWorkoutPlan | app/ai_engine/workout_plan_generator.py:92 | exactly one record with the user and the plan is appended |
| MealPlanGenerator.Excerpt | app/ai_engine/meal_plan_generator.py:22-25 | a missing or empty text adds nothing; otherwise the line is the label, the first `min(len, 200)` characters of the text, and "..." |
| MealPlanGenerator.RecipeHeader | app/ai_engine/meal_plan_generator.py:17-21 | a recipe's header starts with its id and the name field |
| MealPlanGenerator.RecipeBlock | app/ai_engine/meal_plan_generator.py:17-25 | a block is the recipe's header, then the ingredients excerpt, then the steps excerpt (each its label, at most the first 200 characters and "...", or nothing for a falsy text); with neither text it is the header alone |
| MealPlanGenerator.RecipeBlockShowsExcerpts | app/ai_engine/meal_plan_generator.py:22-25 | the ingredients excerpt sits right after the header, the steps excerpt right after it, and the block ends there |
| MealPlanGenerator.RecipeBlockBounded | app/ai_engine/meal_plan_generator.py:17-25 | a block starts with its header and is at most the header plus two labels and two 200-character excerpts with their "..." |
| MealPlanGenerator.RecipeBlocks | app/ai_engine/meal_plan_generator.py:15-26 | one block per recipe, in catalogue order |
| MealPlanGenerator.RecipeBlocksSnoc | app/ai_engine/meal_plan_generator.py:26 | appending a recipe appends its block |
| MealPlanGenerator.RenderRecipe | app/ai_engine/meal_plan_generator.py:16-25 | the loop body's header-then-`+=` builds the recipe's block |
| MealPlanGenerator.RecipesToContext | app/ai_engine/meal_plan_generator.py:12-27 | the loop's result is the recipes' blocks joined by a blank line |
| MealPlanGenerator.RecipesContext | app/ai_engine/meal_plan_generator.py:27 | no recipes give "", and a single recipe gives its block with no separator |
| MealPlanGenerator.RecipesContextHoldsBlocks | app/ai_engine/meal_plan_generator.py:27 | the context holds every recipe's block, in order, at its offset |
| MealPlanGenerator.RecipesContextSeparates | app/ai_engine/meal_plan_generator.py:27 | a blank line follows every block but the last |
| MealPlanGenerator.RecipesContextEnds | app/ai_engine/meal_plan_generator.py:27 | the last block ends the context |
| MealPlanGenerator.EmptyCatalogueContext | app/ai_engine/meal_plan_generator.py:27 | no recipes render as the empty string |
| MealPlanGenerator.BuildMealPlanPrompt | app/ai_engine/meal_plan_generator.py:30-54 | the prompt carries the days, target, budget and rendered recipes; a truthy goal or diet is used as given, and a falsy one becomes "Maintain Weight" or "Veg"; the cuisine preference is "any" |
| MealPlanGenerator.GenerateMealPlan | app/ai_engine/meal_plan_generator.py:57-80 | the stepwise generate-strip-parse-validate-default gives exactly the meal plan of the reply to the prompt |
| MealPlanGenerator.MealBudget | app/ai_engine/meal_plan_generator.py:90-93 | a truthy budget is used as given and a missing or zero budget becomes 500, so the budget is never 0 and the cost ceiling is always budget/21 |
| MealPlanGenerator.CostCeiling | app/ai_engine/meal_plan_generator.py:92-93 | there is no ceiling iff the budget is 0; 21 meals at the ceiling cost exactly the budget |
| MealPlanGenerator.MealDiet | app/ai_engine/meal_plan_generator.py:91 | a non-empty preference is stripped and lower-cased to give the diet filter |
| MealPlanGenerator.MealDietDefault | app/ai_engine/meal_plan_generator.py:91 | without a preference the diet filter is "veg" |
| MealPlanGenerator.BlankDietIsNoFilter | app/ai_engine/meal_plan_generator.py:91-100 | a preference of white space only strips to "", which switches the diet filter off: cost only, then everything |
| MealPlanGenerator.MealCandidates | app/ai_engine/meal_plan_generator.py:94-102 | the candidates are empty iff the catalogue is, and always lie in it in order |
| MealPlanGenerator.CandidatesPreferDietAndCost | app/ai_engine/meal_plan_generator.py:94-96 | when some recipe has the diet within the ceiling, the candidates are exactly the recipes of the diet within the ceiling |
| MealPlanGenerator.CandidatesFallBackToDiet | app/ai_engine/meal_plan_generator.py:97-98 | when none is within the ceiling but some have the diet, the candidates are exactly those of the diet |
| MealPlanGenerator.CandidatesFallBackToAll | app/ai_engine/meal_plan_generator.py:99-100 | when none has the diet, the whole catalogue is offered |
| MealPlanGenerator.Get | app/ai_engine/meal_plan_generator.py:106 | `get` returns the stored value when the key is present, the default otherwise |
| MealPlanGenerator.MealPlanRun | app/ai_engine/meal_plan_generator.py:83-108 | any outcome but no plan needs a known user and a non-empty catalogue; a saved record belongs to the user and holds the returned plan |
| MealPlanGenerator.MealRunNeedsUserAndRecipes | app/ai_engine/meal_plan_generator.py:85-102 | an unknown user or an empty catalogue gives no plan |
| MealPlanGenerator.MealRunSavesThePlan | app/ai_engine/meal_plan_generator.py:88-108 | a saved record is the returned plan for this user, with the user's calorie target and the plan's own weekly cost; the plan has "days" and both totals |
| MealPlanGenerator.MealRunSucceeds | app/ai_engine/meal_plan_generator.py:88-107 | for a known user and a non-empty catalogue: no plan exactly when the reply is not a plan; a saved plan is the generated one; the cost error exactly when `float()` rejects its weekly cost |
| MealPlanGenerator.MealRunMissingCostSavesZero | app/ai_engine/meal_plan_generator.py:103-107 | a generated plan without a weekly cost is saved with a cost of 0 |
| MealPlanGenerator.MealSaveOutcome | app/ai_engine/meal_plan_generator.py:106-108 | the save step never gives "no plan"; it is the cost error exactly when `float()` rejects the plan's weekly cost (0 when missing), and otherwise saves that plan for the user with that cost |
| MealPlanGenerator.PickRecipes | app/ai_engine/meal_plan_generator.py:91-100 | the three reassigning queries leave exactly the candidates of the cascade: diet with cost ceiling, else diet alone, else every recipe |
| MealPlanGenerator.SaveMealPlan | app/ai_engine/meal_plan_generator.py:106-107 | the outcome is the save step's, and the meal-plan log grows by the saved record or not at all |
| MealPlanGenerator.GenerateAndSaveMealPlan | app/ai_engine/meal_plan_generator.py:83-108 | the cascade and save compute the run's outcome, and the meal-plan log grows by exactly the saved record, or not at all |
| WorkoutPlanGenerator.WorkoutInstructionsInFull | app/ai_engine/workout_plan_generator.py:19-20 | instructions are never cut: the block ends with all of them and is exactly header, label and instructions long |
| WorkoutPlanGenerator.WorkoutHeader | app/ai_engine/workout_plan_generator.py:15-18 | a workout's header starts with its id and the name field |
| WorkoutPlanGenerator.WorkoutBlock | app/ai_engine/workout_plan_generator.py:15-20 | a block starts with the workout's header, and with instructions it is exactly header, label and instructions long |
| WorkoutPlanGenerator.WorkoutWithoutInstructions | app/ai_engine/workout_plan_generator.py:15-21 | a workout without instructions is its header alone |
| WorkoutPlanGenerator.WorkoutBlocks | app/ai_engine/workout_plan_generator.py:14-21 | one block per workout, in catalogue order |
| WorkoutPlanGenerator.WorkoutBlocksSnoc | app/ai_engine/workout_plan_generator.py:21 | appending a workout appends its block |
| WorkoutPlanGenerator.RenderWorkout | app/ai_engine/workout_plan_generator.py:15-20 | the loop body's header-then-`+=` builds the workout's block |
| WorkoutPlanGenerator.WorkoutsToContext | app/ai_engine/workout_plan_generator.py:11-22 | the loop's result is the workouts' blocks joined by a blank line |
| WorkoutPlanGenerator.WorkoutsContext | app/ai_engine/workout_plan_generator.py:22 | no workouts give "", and a single workout gives its block with no separator |
| WorkoutPlanGenerator.WorkoutsContextHoldsBlocks | app/ai_engine/workout_plan_generator.py:22 | the context holds every workout's block, in order, at its offset |
| WorkoutPlanGenerator.WorkoutsContextSeparates | app/ai_engine/workout_plan_generator.py:22 | a blank line follows every block but the last |
| WorkoutPlanGenerator.WorkoutsContextEnds | app/ai_engine/workout_plan_generator.py:22 | the last block ends the context |
| WorkoutPlanGenerator.DailyMinutes | app/ai_engine/workout_plan_generator.py:30 | a non-zero value is kept and a missing or zero one becomes 30, so the minutes are never 0 |
| WorkoutPlanGenerator.BuildWorkoutPlanPrompt | app/ai_engine/workout_plan_generator.py:25-48 | the prompt carries the days and rendered workouts; a truthy goal or equipment is used as given, and a falsy one becomes "Maintain Weight" or "None"; non-zero minutes are kept and 0 becomes 30 |
| WorkoutPlanGenerator.GenerateWorkoutPlan | app/ai_engine/workout_plan_generator.py:51-71 | the stepwise generate-strip-parse-validate gives exactly the workout plan of the reply to the prompt |
| WorkoutPlanGenerator.WorkoutGoal | app/ai_engine/workout_plan_generator.py:79 | the goal filter is the user's goal as given when it is truthy, and "Maintain Weight" otherwise; it is never empty |
| WorkoutPlanGenerator.WorkoutEquipment | app/ai_engine/workout_plan_generator.py:80 | the equipment filter is the user's equipment when it is truthy, and "None" otherwise; it is never empty, so it always applies |
| WorkoutPlanGenerator.WorkoutCandidates | app/ai_engine/workout_plan_generator.py:82-88 | the candidates are empty iff the catalogue is, and always lie in it in order |
| WorkoutPlanGenerator.CandidatesPreferGoalAndEquipment | app/ai_engine/workout_plan_generator.py:82 | when some workout has the goal and the equipment, the candidates are exactly those workouts |
| WorkoutPlanGenerator.CandidatesFallBackToEquipment | app/ai_engine/workout_plan_generator.py:83-84 | when none has both but some have the equipment, the candidates are exactly those for the equipment |
| WorkoutPlanGenerator.CandidatesFallBackToAll | app/ai_engine/workout_plan_generator.py:85-86 | when none has the equipment, the whole catalogue is offered |
| WorkoutPlanGenerator.WorkoutPlanRun | app/ai_engine/workout_plan_generator.py:74-93 | a returned plan needs a known user and a non-empty catalogue, and has "days" |
| WorkoutPlanGenerator.WorkoutRunNeedsUserAndWorkouts | app/ai_engine/workout_plan_generator.py:76-88 | an unknown user or an empty catalogue gives no plan |
| WorkoutPlanGenerator.WorkoutRunReturnsParsedObject | app/ai_engine/workout_plan_generator.py:89-93 | a returned plan has "days" and is exactly the parsed object, with no totals added |
| WorkoutPlanGenerator.WorkoutRunSucceeds | app/ai_engine/workout_plan_generator.py:79-93 | a known user with a non-empty catalogue gets exactly the workout plan of the reply to the prompt built from the candidates and the minutes |
| WorkoutPlanGenerator.GenerateAndSaveWorkoutPlan | app/ai_engine/workout_plan_generator.py:74-93 | the cascade and save return the run's plan, and the workout-plan log grows by exactly that plan, or not at all |

## Left out

- Floating point: all arithmetic is on exact rationals. `round` is half-to-even on the exact
  value, not on the binary float. The two agree on the example profiles, but they can differ on
  inputs whose decimal tie is not exact in binary.
- `str.lower()` and `str.upper()` are modelled for ASCII letters only. `str.strip()` uses
  Python's white-space code points.
- The fixed wording of the two prompt templates is not modelled. The prompt is the record of the
  values filled into it. Number formatting (`f"{x}"`) and `json.loads` are abstract parameters.
  A reply `json.loads` would accept with `NaN` or `Infinity` is whatever that parameter returns.
- `generate_text` (`app/ai_engine/gemini_client.py`) is a deterministic parameter from prompt to
  text. Its network call, its API key and its exceptions are not part of this model. An empty
  reply is modelled, since the generators check for it.
- `float()` on a string weekly cost is an abstract parameter.
- The SQL layer: query results are assumed to come back in table order. The database assigns ids
  and `created_at`, and `json.dumps` serialises the plan; none of these is modelled. A saved
  record holds the plan value.
- `plan.setdefault` mutates the parsed dictionary in place. The model reassigns a map value, so
  aliasing of that dictionary is not captured.
- The user has no `cuisine` column, so `getattr(user, "cuisine", None)` always falls back. The
  meal prompt's cuisine preference is therefore always "any".
- The test `lines[0].startswith` in the fence strip always passes once the text starts with a
  fence (`PlanResponse.OpeningLineIsFence`).
- The `else None` branch of the cost ceiling cannot be reached, because the budget is never 0
  after `or 500` (`MealPlanGenerator.MealBudget`).
- `hasattr(Recipe, "meal_type")` and the check that the column is not `None` in the recipe query
  are always true, so the meal-type filter applies whenever it is truthy.
- The Streamlit UI (`app/app.py`), the progress service, user creation, the latest-plan queries
  and the scripts under `scripts/` are not part of this model.
- Persistence.ToFloat: `float()` on a boolean is 1.0 or 0.0 and on a string is the abstract
  parser. The ensures names only the integer, float, null, array and object cases.
- Persistence.ToFloat: an integer weekly cost beyond the float range (about 1.8e308) makes
  `float()` raise `OverflowError` in `create_meal_plan`. The model converts every integer, so it
  saves such a plan instead of failing. This is because floating point is not modelled.
