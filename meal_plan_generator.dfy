/**
 * `app/ai_engine/meal_plan_generator.py`: rendering the recipe catalogue for the prompt,
 * turning the generated text into a meal plan, and the cascade that picks the recipes, asks for
 * a plan and saves it.
 */
module MealPlanGenerator {
  import opened Wrappers
  import opened Strings
  import opened Models
  import opened Filtering
  import opened CalorieEngine
  import opened PlanResponse
  import opened Externals
  import opened Persistence
  import opened RecipeService

  /** The first line of a recipe's block: its id, name, meal type, macros, cost, diet and cuisine. */
  function RecipeHeader(r: Recipe, env: Env): (header: string)
    ensures StartsWith(header, "ID: " + env.showInt(r.id) + " | Name: ")
  {
    var lead := "ID: " + env.showInt(r.id) + " | Name: ";
    var header := lead + (ShowText(r.name) + " | Meal: " + OrStr(r.mealType, "Any") + " | "
      + "Cal: " + ShowNumber(r.caloriesPerServing, env) + " | P: " + ShowNumber(r.proteinG, env)
      + "g C: " + ShowNumber(r.carbsG, env) + "g F: " + ShowNumber(r.fatG, env) + "g | "
      + "Cost: " + ShowNumber(r.costPerServing, env) + " | Diet: " + ShowText(r.dietType)
      + " | Cuisine: " + OrStr(r.cuisine, "Any"));
    assert header[..|lead|] == lead;
    header
  }

  /** How much of the ingredients and the instructions a block shows. */
  const ExcerptLength: nat := 200

  /** The marker after a cut text. */
  const Ellipsis: string := "..."

  const IngredientsLabel: string := "\n  Ingredients: "
  const StepsLabel: string := "\n  Steps: "

  /**
   * An optional line of a block: nothing for a missing or empty text, otherwise the heading, at
   * most the first 200 characters of the text, and "..." (whether or not anything was cut).
   */
  function Excerpt(heading: string, text: Option<string>): (e: string)
    ensures !TruthyStr(text) ==> e == []
    ensures TruthyStr(text) ==> (
      && |e| >= |heading| + |Ellipsis|
      && var shown := e[|heading|..|e| - |Ellipsis|];
      && e[..|heading|] == heading
      && e[|e| - |Ellipsis|..] == Ellipsis
      && StartsWith(text.value, shown)
      && |shown| == (if |text.value| <= ExcerptLength then |text.value| else ExcerptLength))
  {
    if TruthyStr(text) then
      var shown := Take(text.value, ExcerptLength);
      var e := heading + shown + Ellipsis;
      assert e[..|heading|] == heading && e[|heading|..|e| - |Ellipsis|] == shown && e[|e| - |Ellipsis|..] == Ellipsis;
      e
    else []
  }

  /** One recipe's block of the context. */
  function RecipeBlock(r: Recipe, env: Env): (block: string)
    ensures StartsWith(block, RecipeHeader(r, env))
    ensures !TruthyStr(r.ingredients) && !TruthyStr(r.instructions) ==> block == RecipeHeader(r, env)
    ensures block == RecipeHeader(r, env) + Excerpt(IngredientsLabel, r.ingredients)
                     + Excerpt(StepsLabel, r.instructions)
  {
    RecipeHeader(r, env) + Excerpt(IngredientsLabel, r.ingredients) + Excerpt(StepsLabel, r.instructions)
  }

  /** A recipe's block is its header and at most two cut lines, so its length is bounded by the
      header's whatever the recipe's texts hold. */
  lemma RecipeBlockBounded(r: Recipe, env: Env)
    ensures StartsWith(RecipeBlock(r, env), RecipeHeader(r, env))
    ensures |RecipeBlock(r, env)| <= |RecipeHeader(r, env)| + |IngredientsLabel| + |StepsLabel|
                                     + 2 * (ExcerptLength + |Ellipsis|)
  {
    var h := RecipeHeader(r, env);
    var rest := Excerpt(IngredientsLabel, r.ingredients) + Excerpt(StepsLabel, r.instructions);
    assert RecipeBlock(r, env) == h + rest;
    assert (h + rest)[..|h|] == h;
  }

  /** The cut ingredients follow the header, the cut steps follow them, and the block ends there. */
  lemma RecipeBlockShowsExcerpts(r: Recipe, env: Env)
    ensures OccursAt(RecipeBlock(r, env), Excerpt(IngredientsLabel, r.ingredients), |RecipeHeader(r, env)|)
    ensures OccursAt(RecipeBlock(r, env), Excerpt(StepsLabel, r.instructions),
                     |RecipeHeader(r, env)| + |Excerpt(IngredientsLabel, r.ingredients)|)
    ensures |RecipeBlock(r, env)| == |RecipeHeader(r, env)| + |Excerpt(IngredientsLabel, r.ingredients)|
                                     + |Excerpt(StepsLabel, r.instructions)|
  {
    var header := RecipeHeader(r, env);
    var ingredients := Excerpt(IngredientsLabel, r.ingredients);
    var steps := Excerpt(StepsLabel, r.instructions);
    var block := header + ingredients + steps;
    assert block[|header|..|header| + |ingredients|] == ingredients;
    assert block[|header| + |ingredients|..|block|] == steps;
  }

  function RecipeBlocks(recipes: seq<Recipe>, env: Env): (blocks: seq<string>)
    ensures |blocks| == |recipes|
    ensures forall i :: 0 <= i < |recipes| ==> blocks[i] == RecipeBlock(recipes[i], env)
  {
    seq(|recipes|, i requires 0 <= i < |recipes| => RecipeBlock(recipes[i], env))
  }

  lemma RecipeBlocksSnoc(recipes: seq<Recipe>, r: Recipe, env: Env)
    ensures RecipeBlocks(recipes + [r], env) == RecipeBlocks(recipes, env) + [RecipeBlock(r, env)]
  {
    var a, b := RecipeBlocks(recipes + [r], env), RecipeBlocks(recipes, env) + [RecipeBlock(r, env)];
    assert |a| == |b|;
    forall i | 0 <= i < |a| ensures a[i] == b[i] {
      assert (recipes + [r])[i] == if i < |recipes| then recipes[i] else r;
    }
  }

  /** What `recipes_to_context` returns. */
  function RecipesContext(recipes: seq<Recipe>, env: Env): (context: string)
    ensures recipes == [] ==> context == []
    ensures |recipes| == 1 ==> context == RecipeBlock(recipes[0], env)
  {
    Join(RecipeBlocks(recipes, env), Separator)
  }

  /** The body of the loop of `recipes_to_context`: the header, then `+=` of each cut line. */
  method RenderRecipe(r: Recipe, env: Env) returns (block: string)
    ensures block == RecipeBlock(r, env)
  {
    block := RecipeHeader(r, env);
    if TruthyStr(r.ingredients) {
      block := block + (IngredientsLabel + Take(r.ingredients.value, ExcerptLength) + Ellipsis);
    }
    assert block == RecipeHeader(r, env) + Excerpt(IngredientsLabel, r.ingredients);
    if TruthyStr(r.instructions) {
      block := block + (StepsLabel + Take(r.instructions.value, ExcerptLength) + Ellipsis);
    }
  }

  /** `recipes_to_context`: the loop appends one block per recipe, then the blocks are joined. */
  method RecipesToContext(recipes: seq<Recipe>, env: Env) returns (context: string)
    ensures context == RecipesContext(recipes, env)
  {
    var lines: seq<string> := [];
    for i := 0 to |recipes|
      invariant lines == RecipeBlocks(recipes[..i], env)
    {
      assert recipes[..i + 1] == recipes[..i] + [recipes[i]];
      var block := RenderRecipe(recipes[i], env);
      RecipeBlocksSnoc(recipes[..i], recipes[i], env);
      lines := lines + [block];
    }
    assert recipes[..|recipes|] == recipes;
    context := Join(lines, Separator);
  }

  /** The context holds every recipe's block, in catalogue order, at its offset. */
  lemma RecipesContextHoldsBlocks(recipes: seq<Recipe>, env: Env, k: nat)
    requires k < |recipes|
    ensures OccursAt(RecipesContext(recipes, env), RecipeBlocks(recipes, env)[k],
                     JoinOffset(RecipeBlocks(recipes, env), Separator, k))
  {
    JoinOccurs(RecipeBlocks(recipes, env), Separator, k);
  }

  /** A blank line follows every block but the last. */
  lemma RecipesContextSeparates(recipes: seq<Recipe>, env: Env, k: nat)
    requires k + 1 < |recipes|
    ensures OccursAt(RecipesContext(recipes, env), Separator,
                     JoinOffset(RecipeBlocks(recipes, env), Separator, k) + |RecipeBlocks(recipes, env)[k]|)
  {
    JoinSeparates(RecipeBlocks(recipes, env), Separator, k);
  }

  /** The last block ends the context: nothing trails it. */
  lemma RecipesContextEnds(recipes: seq<Recipe>, env: Env)
    requires recipes != []
    ensures JoinOffset(RecipeBlocks(recipes, env), Separator, |recipes| - 1) + |RecipeBlocks(recipes, env)[|recipes| - 1]|
            == |RecipesContext(recipes, env)|
  {
    JoinEnds(RecipeBlocks(recipes, env), Separator);
  }

  /** An empty catalogue renders as "". */
  lemma EmptyCatalogueContext(env: Env)
    ensures RecipesContext([], env) == []
  {
  }

  const DefaultDiet: string := "Veg"

  /**
   * `build_meal_plan_prompt`: the user's goal and diet (with their defaults), the cuisine
   * preference, the calorie target, the budget and the rendered catalogue. Users have no cuisine
   * column, so the cuisine preference is always "any".
   */
  function BuildMealPlanPrompt(user: User, recipes: seq<Recipe>, calorieTarget: real, budget: real,
                               numDays: int, env: Env): (p: Prompt)
    ensures p.MealPrompt? && p.numDays == numDays && p.context == RecipesContext(recipes, env)
    ensures p.calorieTarget == calorieTarget && p.budget == budget
    ensures p.goal != [] && p.diet != [] && p.cuisine == "any"
    ensures TruthyStr(user.goal) ==> p.goal == user.goal.value
    ensures !TruthyStr(user.goal) ==> p.goal == DefaultGoal
    ensures TruthyStr(user.dietaryPreference) ==> p.diet == user.dietaryPreference.value
    ensures !TruthyStr(user.dietaryPreference) ==> p.diet == DefaultDiet
  {
    MealPrompt(numDays, OrStr(user.goal, DefaultGoal), OrStr(user.dietaryPreference, DefaultDiet), "any",
               calorieTarget, budget, RecipesContext(recipes, env))
  }

  /**
   * `generate_meal_plan`: ask for a plan, strip the fence, parse, accept only an object with
   * "days", and give the weekly totals a default of 0.
   */
  method GenerateMealPlan(user: User, recipes: seq<Recipe>, calorieTarget: real, budget: real,
                          numDays: int, env: Env) returns (plan: Option<Plan>)
    ensures plan == MealPlanOf(env.generate(BuildMealPlanPrompt(user, recipes, calorieTarget, budget, numDays, env)), env.parse)
  {
    var prompt := BuildMealPlanPrompt(user, recipes, calorieTarget, budget, numDays, env);
    var raw := env.generate(prompt);
    if raw == [] {
      return None;
    }
    var text := StripFence(raw);
    var parsed := env.parse(text);
    if !(parsed.Some? && parsed.value.JObject? && "days" in parsed.value.fields) {
      return None;
    }
    var withTotals := AddRollups(parsed.value.fields);
    plan := Some(withTotals);
  }

  /** The budget of `generate_and_save_meal_plan`: the user's, or 500 when it is missing or 0. */
  const DefaultBudget: real := 500.0

  /** Meals a week: 7 days of 3 meals. */
  const MealsPerWeek: real := 21.0

  /** The budget never ends up 0, so the ceiling is always set. */
  function MealBudget(user: User): (budget: real)
    ensures budget != 0.0
    ensures TruthyNum(user.budget) ==> budget == user.budget.value
    ensures !TruthyNum(user.budget) ==> budget == DefaultBudget
    ensures CostCeiling(budget) == Some(budget / MealsPerWeek)
  {
    OrNum(user.budget, DefaultBudget)
  }

  /** The cost ceiling per serving: what a week of meals at that cost spends is the budget. */
  function CostCeiling(budget: real): (ceiling: Option<real>)
    ensures ceiling.None? <==> budget == 0.0
    ensures ceiling.Some? ==> MealsPerWeek * ceiling.value == budget
  {
    if budget != 0.0 then Some(budget / MealsPerWeek) else None
  }

  /** The diet the catalogue is filtered by: the preference, or "Veg", stripped and lower-cased. */
  function MealDiet(user: User): (diet: string)
    ensures TruthyStr(user.dietaryPreference) ==> diet == Lower(Strip(user.dietaryPreference.value))
  {
    Lower(Strip(OrStr(user.dietaryPreference, DefaultDiet)))
  }

  /** Without a preference the diet filter is "veg". */
  lemma MealDietDefault(user: User)
    requires !TruthyStr(user.dietaryPreference)
    ensures MealDiet(user) == "veg"
  {
    StripUnchanged(DefaultDiet);
    LowerOfLiteral(DefaultDiet, "veg");
  }

  /** A preference of only white space strips to "", which switches the diet filter off: the
      cascade then tries the cost ceiling alone, then the whole catalogue. */
  lemma BlankDietIsNoFilter(table: seq<Recipe>, user: User)
    requires user.dietaryPreference.Some? && user.dietaryPreference.value != []
    requires forall i :: 0 <= i < |user.dietaryPreference.value| ==> IsSpace(user.dietaryPreference.value[i])
    ensures MealDiet(user) == []
    ensures var costOnly := RecipesFiltered(table, None, None, CostCeiling(MealBudget(user)), None);
      MealCandidates(table, user) == if costOnly != [] then costOnly else table
  {
    StripAllSpace(user.dietaryPreference.value);
    var ceiling := CostCeiling(MealBudget(user));
    KeepSame(table, RecipeFilter(Some([]), None, ceiling, None), RecipeFilter(None, None, ceiling, None));
    KeepSame(table, RecipeFilter(Some([]), None, None, None), RecipeFilter(None, None, None, None));
    NoFilterIsAllRecipes(table);
  }

  /**
   * The recipes offered to the generator: those of the user's diet within the cost ceiling,
   * else those of the diet, else the whole catalogue. It is empty only for an empty catalogue.
   */
  function MealCandidates(table: seq<Recipe>, user: User): (candidates: seq<Recipe>)
    ensures candidates == [] <==> table == []
    ensures Subseq(candidates, table)
  {
    var diet := MealDiet(user);
    var dietAndCost := RecipesFiltered(table, Some(diet), None, CostCeiling(MealBudget(user)), None);
    var dietOnly := RecipesFiltered(table, Some(diet), None, None, None);
    SubseqRefl(table);
    if dietAndCost != [] then dietAndCost
    else if dietOnly != [] then dietOnly
    else AllRecipes(table)
  }

  /** When some recipe of the diet is within the ceiling, the candidates are exactly the recipes
      of the diet within the ceiling. */
  lemma CandidatesPreferDietAndCost(table: seq<Recipe>, user: User)
    requires exists x :: x in table && RecipeMatches(x, Some(MealDiet(user)), None, CostCeiling(MealBudget(user)), None)
    ensures forall x :: x in MealCandidates(table, user) <==>
      x in table && RecipeMatches(x, Some(MealDiet(user)), None, CostCeiling(MealBudget(user)), None)
  {
    var x :| x in table && RecipeMatches(x, Some(MealDiet(user)), None, CostCeiling(MealBudget(user)), None);
    assert x in RecipesFiltered(table, Some(MealDiet(user)), None, CostCeiling(MealBudget(user)), None);
  }

  /** When no recipe of the diet is within the ceiling but some are of the diet, the candidates
      are exactly the recipes of the diet. */
  lemma CandidatesFallBackToDiet(table: seq<Recipe>, user: User)
    requires !exists x :: x in table && RecipeMatches(x, Some(MealDiet(user)), None, CostCeiling(MealBudget(user)), None)
    requires exists x :: x in table && RecipeMatches(x, Some(MealDiet(user)), None, None, None)
    ensures forall x :: x in MealCandidates(table, user) <==>
      x in table && RecipeMatches(x, Some(MealDiet(user)), None, None, None)
  {
    var dietAndCost := RecipesFiltered(table, Some(MealDiet(user)), None, CostCeiling(MealBudget(user)), None);
    assert dietAndCost == [];
    var dietOnly := RecipesFiltered(table, Some(MealDiet(user)), None, None, None);
    var x :| x in table && RecipeMatches(x, Some(MealDiet(user)), None, None, None);
    assert x in dietOnly;
  }

  /** When no recipe is of the diet, the whole catalogue is offered. */
  lemma CandidatesFallBackToAll(table: seq<Recipe>, user: User)
    requires !exists x :: x in table && RecipeMatches(x, Some(MealDiet(user)), None, None, None)
    ensures MealCandidates(table, user) == table
  {
    var diet := MealDiet(user);
    var dietAndCost := RecipesFiltered(table, Some(diet), None, CostCeiling(MealBudget(user)), None);
    var dietOnly := RecipesFiltered(table, Some(diet), None, None, None);
    assert dietOnly == [];
    forall i | 0 <= i < |table|
      ensures !RecipeMatches(table[i], Some(diet), None, CostCeiling(MealBudget(user)), None)
    {
      assert table[i] in table;
    }
    assert dietAndCost == [];
  }

  /** The outcome of `generate_and_save_meal_plan`: no plan (`None`), a saved plan, or the
      exception `float()` raises on a weekly cost it cannot read. */
  datatype MealOutcome = NoPlan | Saved(plan: Plan, record: MealPlanRecord) | CostRejected

  /** Python's `d.get(k, default)`. */
  function Get(d: Plan, k: string, default: Json): (v: Json)
    ensures k in d ==> v == d[k]
    ensures k !in d ==> v == default
  {
    if k in d then d[k] else default
  }

  /** Days of a generated meal plan. */
  const PlanDays: int := 7

  /** The last step of `generate_and_save_meal_plan`: the plan is saved with its weekly cost, 0
      when it has none, unless `float()` rejects that cost. */
  function MealSaveOutcome(userId: int, target: real, plan: Plan, parseFloat: string -> Option<real>): (out: MealOutcome)
    ensures out != NoPlan
    ensures out == CostRejected <==> ToFloat(Get(plan, WeeklyCost, JInt(0)), parseFloat).None?
    ensures out.Saved? ==> out.plan == plan && out.record == MealPlanRecord(userId, target, plan, ToFloat(Get(plan, WeeklyCost, JInt(0)), parseFloat).value)
  {
    var cost := ToFloat(Get(plan, WeeklyCost, JInt(0)), parseFloat);
    if cost.None? then CostRejected else Saved(plan, MealPlanRecord(userId, target, plan, cost.value))
  }

  /** What `generate_and_save_meal_plan` does, for the session's users and recipes. */
  function MealPlanRun(users: map<int, User>, recipes: seq<Recipe>, userId: int, env: Env): (out: MealOutcome)
    ensures out != NoPlan ==> userId in users && recipes != []
    ensures out.Saved? ==> out.record.userId == userId && out.record.plan == out.plan
  {
    if userId !in users then NoPlan
    else
      var user := users[userId];
      var target := AllMetrics(user, DefaultActivityFactor).calorieTarget;
      var budget := MealBudget(user);
      var candidates := MealCandidates(recipes, user);
      if candidates == [] then NoPlan
      else
        match MealPlanOf(env.generate(BuildMealPlanPrompt(user, candidates, target, budget, PlanDays, env)), env.parse)
        case None => NoPlan
        case Some(plan) => MealSaveOutcome(userId, target, plan, env.parseFloat)
  }

  /** A missing user or an empty catalogue gives no plan. */
  lemma MealRunNeedsUserAndRecipes(users: map<int, User>, recipes: seq<Recipe>, userId: int, env: Env)
    requires userId !in users || recipes == []
    ensures MealPlanRun(users, recipes, userId, env) == NoPlan
  {
  }

  /** A saved record is the returned plan for this user, with the user's calorie target and the
      plan's own weekly cost; the plan has "days" and both weekly totals. */
  lemma MealRunSavesThePlan(users: map<int, User>, recipes: seq<Recipe>, userId: int, env: Env)
    requires MealPlanRun(users, recipes, userId, env).Saved?
    ensures var out := MealPlanRun(users, recipes, userId, env);
      && userId in users && recipes != []
      && out.record.userId == userId && out.record.plan == out.plan
      && out.record.calorieTarget == AllMetrics(users[userId], DefaultActivityFactor).calorieTarget
      && "days" in out.plan && WeeklyCost in out.plan && WeeklyCalories in out.plan
      && ToFloat(out.plan[WeeklyCost], env.parseFloat) == Some(out.record.weeklyCost)
  {
  }

  /**
   * A known user with a non-empty catalogue gets the reply to the prompt built from the
   * candidates: no plan exactly when the reply is not a plan, the generated plan when it is saved,
   * and the cost error exactly when `float()` rejects the plan's weekly cost.
   */
  lemma MealRunSucceeds(users: map<int, User>, recipes: seq<Recipe>, userId: int, env: Env)
    requires userId in users && recipes != []
    ensures var user := users[userId];
      var reply := MealPlanOf(env.generate(BuildMealPlanPrompt(user, MealCandidates(recipes, user),
        AllMetrics(user, DefaultActivityFactor).calorieTarget, MealBudget(user), PlanDays, env)), env.parse);
      var out := MealPlanRun(users, recipes, userId, env);
      && (out == NoPlan <==> reply.None?)
      && (out.Saved? ==> out.plan == reply.value)
      && (reply.Some? ==> (out == CostRejected <==> ToFloat(reply.value[WeeklyCost], env.parseFloat).None?))
  {
  }

  /** A generated plan without a weekly cost is saved, with a weekly cost of 0. */
  lemma MealRunMissingCostSavesZero(users: map<int, User>, recipes: seq<Recipe>, userId: int, env: Env)
    requires userId in users && recipes != []
    requires var user := users[userId];
      var raw := env.generate(BuildMealPlanPrompt(user, MealCandidates(recipes, user),
        AllMetrics(user, DefaultActivityFactor).calorieTarget, MealBudget(user), PlanDays, env));
      ParsePlan(raw, env.parse).Some? && WeeklyCost !in ParsePlan(raw, env.parse).value
    ensures MealPlanRun(users, recipes, userId, env).Saved?
    ensures MealPlanRun(users, recipes, userId, env).record.weeklyCost == 0.0
  {
    var user := users[userId];
    var target := AllMetrics(user, DefaultActivityFactor).calorieTarget;
    var candidates := MealCandidates(recipes, user);
    assert candidates != [];
    var raw := env.generate(BuildMealPlanPrompt(user, candidates, target, MealBudget(user), PlanDays, env));
    var parsed := ParsePlan(raw, env.parse).value;
    var plan := WithRollups(parsed);
    assert MealPlanOf(raw, env.parse) == Some(plan);
    assert Get(plan, WeeklyCost, JInt(0)) == JInt(0);
  }

  /** The recipe cascade of `generate_and_save_meal_plan`: the diet with the cost ceiling, then the
      diet alone, then every recipe, each tried only when the previous query came back empty. */
  method PickRecipes(table: seq<Recipe>, user: User, budget: real) returns (recipes: seq<Recipe>)
    requires budget == MealBudget(user)
    ensures recipes == MealCandidates(table, user)
  {
    var diet := Lower(Strip(OrStr(user.dietaryPreference, DefaultDiet)));
    var maxCost := if budget != 0.0 then Some(budget / MealsPerWeek) else None;
    recipes := RecipesFiltered(table, Some(diet), None, maxCost, None);
    if recipes == [] {
      recipes := RecipesFiltered(table, Some(diet), None, None, None);
    }
    if recipes == [] {
      recipes := AllRecipes(table);
    }
  }

  /** The end of `generate_and_save_meal_plan`: read the weekly cost, 0 when missing, and save the
      plan with it; `float()` rejecting the cost saves nothing. */
  method SaveMealPlan(session: Session, userId: int, calorieTarget: real, plan: Plan,
                      parseFloat: string -> Option<real>) returns (out: MealOutcome)
    modifies session`mealPlans
    ensures out == MealSaveOutcome(userId, calorieTarget, plan, parseFloat)
    ensures session.mealPlans == old(session.mealPlans) + (if out.Saved? then [out.record] else [])
  {
    var weeklyCost := Get(plan, WeeklyCost, JInt(0));
    var saved := session.CreateMealPlan(userId, calorieTarget, plan, weeklyCost, parseFloat);
    if !saved {
      return CostRejected;
    }
    out := Saved(plan, MealPlanRecord(userId, calorieTarget, plan, ToFloat(weeklyCost, parseFloat).value));
  }

  /**
   * `generate_and_save_meal_plan`: the cascade reassigns the recipe list until it is non-empty,
   * and a plan is saved only when one was generated and its weekly cost reads as a number.
   */
  method GenerateAndSaveMealPlan(session: Session, userId: int, env: Env) returns (out: MealOutcome)
    modifies session`mealPlans
    ensures out == MealPlanRun(session.users, session.recipes, userId, env)
    ensures session.mealPlans == old(session.mealPlans) + (if out.Saved? then [out.record] else [])
  {
    var user := session.UserById(userId);
    if user.None? {
      return NoPlan;
    }
    var metrics := AllMetrics(user.value, DefaultActivityFactor);
    var calorieTarget := metrics.calorieTarget;
    var budget := OrNum(user.value.budget, DefaultBudget);
    var recipes := PickRecipes(session.recipes, user.value, budget);
    if recipes == [] {
      return NoPlan;
    }
    var plan := GenerateMealPlan(user.value, recipes, calorieTarget, budget, PlanDays, env);
    if plan.None? {
      return NoPlan;
    }
    out := SaveMealPlan(session, userId, calorieTarget, plan.value, env.parseFloat);
  }
}
