/** Python's `None`-or-value and the truthiness tests the core applies to column values. */
module Wrappers {

  datatype Option<+T> = None | Some(value: T)

  /** A string column is truthy when it is present and not empty. */
  predicate TruthyStr(s: Option<string>) {
    s.Some? && s.value != []
  }

  /** A numeric column is truthy when it is present and not zero. */
  predicate TruthyNum(x: Option<real>) {
    x.Some? && x.value != 0.0
  }

  /** Python's `s or default` on a string column. */
  function OrStr(s: Option<string>, default: string): string {
    if TruthyStr(s) then s.value else default
  }

  /** Python's `x or default` on a numeric column. */
  function OrNum(x: Option<real>, default: real): real {
    if TruthyNum(x) then x.value else default
  }

  /** Python's `n or default` on an integer column. */
  function OrInt(n: Option<int>, default: int): int {
    if n.Some? && n.value != 0 then n.value else default
  }
}

/**
 * The rows of the tables the core reads (the SQLAlchemy models under app/models). SQL columns are
 * nullable unless they are the primary key, so every other column is an Option.
 */
module Models {
  import opened Wrappers

  /** The goal a profile without one is read as, by the metrics, both prompts and the workout
      cascade. */
  const DefaultGoal: string := "Maintain Weight"

  /** A row of `users`. */
  datatype User = User(
    id: int,
    name: Option<string>,
    age: Option<int>,
    gender: Option<string>,
    heightCm: Option<real>,
    weightKg: Option<real>,
    goal: Option<string>,
    dietaryPreference: Option<string>,
    budget: Option<real>,
    equipment: Option<string>,
    workoutMinutesPerDay: Option<int>)

  /** A row of `recipes`. */
  datatype Recipe = Recipe(
    id: int,
    name: Option<string>,
    caloriesPerServing: Option<real>,
    proteinG: Option<real>,
    carbsG: Option<real>,
    fatG: Option<real>,
    dietType: Option<string>,
    costPerServing: Option<real>,
    cuisine: Option<string>,
    mealType: Option<string>,
    ingredients: Option<string>,
    instructions: Option<string>)

  /** A row of `workouts`. */
  datatype Workout = Workout(
    id: int,
    exerciseName: Option<string>,
    category: Option<string>,
    caloriesBurnPer30Min: Option<real>,
    difficulty: Option<string>,
    goal: Option<string>,
    equipmentRequired: Option<string>,
    suggestedInstructions: Option<string>)
}
