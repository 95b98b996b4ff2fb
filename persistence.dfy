/**
 * The parts of the outside world the generators touch, as parameters: the text generator, the
 * JSON parser, Python's `float()` on a string and the f-string rendering of numbers. The prompt
 * is kept as the values the template is filled with; the template's fixed wording is not.
 */
module Externals {
  import opened Wrappers
  import opened PlanResponse

  /** The values `build_meal_plan_prompt` and `build_workout_plan_prompt` fill in. */
  datatype Prompt =
    | MealPrompt(numDays: int, goal: string, diet: string, cuisine: string,
                 calorieTarget: real, budget: real, context: string)
    | WorkoutPrompt(numDays: int, goal: string, equipment: string, minutes: int, context: string)

  datatype Env = Env(
    generate: Prompt -> string,          // `generate_text`
    parse: string -> Option<Json>,       // `json.loads`, `None` where it raises
    parseFloat: string -> Option<real>,  // `float(s)` on a string, `None` where it raises
    showInt: int -> string,              // `f"{n}"` for an int
    showReal: real -> string)            // `f"{x}"` for a float

  /** `f"{s}"` for a text column: NULL renders as "None". */
  function ShowText(s: Option<string>): string {
    if s.Some? then s.value else "None"
  }

  /** `f"{x}"` for a numeric column: NULL renders as "None". */
  function ShowNumber(x: Option<real>, env: Env): string {
    if x.Some? then env.showReal(x.value) else "None"
  }

  /** What joins the blocks of a catalogue context: a blank line. */
  const Separator: string := "\n\n"
}

/**
 * The session the generators write to, reduced to the tables they read and the plans they
 * save. `create_meal_plan` and `create_workout_plan` append one record each.
 */
module Persistence {
  import opened Wrappers
  import opened Models
  import opened PlanResponse

  /** A row of `meal_plans`; `plan` is what is serialised into `plan_json`. */
  datatype MealPlanRecord = MealPlanRecord(userId: int, calorieTarget: real, plan: Plan, weeklyCost: real)

  /** A row of `workout_plans`. */
  datatype WorkoutPlanRecord = WorkoutPlanRecord(userId: int, plan: Plan)

  /** Python's `float(v)` on a parsed JSON value; `None` where it raises. */
  function ToFloat(v: Json, parseFloat: string -> Option<real>): (x: Option<real>)
    ensures v.JInt? ==> x == Some(v.i as real)
    ensures v.JFloat? ==> x == Some(v.f)
    ensures v.JNull? || v.JArray? || v.JObject? ==> x == None
  {
    match v
    case JInt(i) => Some(i as real)
    case JFloat(f) => Some(f)
    case JBool(b) => Some(if b then 1.0 else 0.0)
    case JString(s) => parseFloat(s)
    case _ => None
  }

  class Session {
    var users: map<int, User>
    var recipes: seq<Recipe>
    var workouts: seq<Workout>
    var mealPlans: seq<MealPlanRecord>
    var workoutPlans: seq<WorkoutPlanRecord>

    constructor (users: map<int, User>, recipes: seq<Recipe>, workouts: seq<Workout>)
      ensures this.users == users && this.recipes == recipes && this.workouts == workouts
      ensures mealPlans == [] && workoutPlans == []
    {
      this.users := users;
      this.recipes := recipes;
      this.workouts := workouts;
      mealPlans := [];
      workoutPlans := [];
    }

    /** `get_user_by_id` */
    function UserById(userId: int): (user: Option<User>)
      reads this
      ensures user.Some? <==> userId in users
      ensures user.Some? ==> user.value == users[userId]
    {
      if userId in users then Some(users[userId]) else None
    }

    /**
     * `create_meal_plan`: the weekly cost goes through `float()` before anything is added, so a
     * value `float()` rejects raises and nothing is saved.
     */
    method CreateMealPlan(userId: int, calorieTarget: real, plan: Plan, weeklyCost: Json,
                          parseFloat: string -> Option<real>) returns (saved: bool)
      modifies this`mealPlans
      ensures saved <==> ToFloat(weeklyCost, parseFloat).Some?
      ensures mealPlans == old(mealPlans) +
        (if saved then [MealPlanRecord(userId, calorieTarget, plan, ToFloat(weeklyCost, parseFloat).value)] else [])
    {
      var cost := ToFloat(weeklyCost, parseFloat);
      saved := cost.Some?;
      if saved {
        mealPlans := mealPlans + [MealPlanRecord(userId, calorieTarget, plan, cost.value)];
      }
    }

    /** `create_workout_plan` */
    method CreateWorkoutPlan(userId: int, plan: Plan)
      modifies this`workoutPlans
      ensures workoutPlans == old(workoutPlans) + [WorkoutPlanRecord(userId, plan)]
    {
      workoutPlans := workoutPlans + [WorkoutPlanRecord(userId, plan)];
    }
  }
}
