/**
 * `app/ai_engine/workout_plan_generator.py`: rendering the workout catalogue for the prompt,
 * turning the generated text into a workout plan, and the cascade that picks the workouts, asks
 * for a plan and saves it.
 */
module WorkoutPlanGenerator {
  import opened Wrappers
  import opened Strings
  import opened Models
  import opened Filtering
  import opened PlanResponse
  import opened Externals
  import opened Persistence
  import opened WorkoutService

  /** The first line of a workout's block: id, name, category, difficulty, goal and equipment. */
  function WorkoutHeader(w: Workout, env: Env): (header: string)
    ensures StartsWith(header, "ID: " + env.showInt(w.id) + " | Name: ")
  {
    var lead := "ID: " + env.showInt(w.id) + " | Name: ";
    var header := lead + (ShowText(w.exerciseName) + " | Category: " + ShowText(w.category) + " | "
      + "Difficulty: " + ShowText(w.difficulty) + " | Goal: " + ShowText(w.goal)
      + " | Equipment: " + ShowText(w.equipmentRequired));
    assert header[..|lead|] == lead;
    header
  }

  const InstructionsLabel: string := "\n  Instructions: "

  /** One workout's block: the header, then the instructions, in full, when there are any. */
  function WorkoutBlock(w: Workout, env: Env): (block: string)
    ensures StartsWith(block, WorkoutHeader(w, env))
    ensures TruthyStr(w.suggestedInstructions) ==> |block| == |WorkoutHeader(w, env)| + |InstructionsLabel| + |w.suggestedInstructions.value|
  {
    WorkoutHeader(w, env)
    + (if TruthyStr(w.suggestedInstructions) then InstructionsLabel + w.suggestedInstructions.value else [])
  }

  /** Instructions are never cut: a block with instructions ends with all of them, and is
      exactly as long as the header, the label and the instructions together. */
  lemma WorkoutInstructionsInFull(w: Workout, env: Env)
    requires TruthyStr(w.suggestedInstructions)
    ensures var block, text := WorkoutBlock(w, env), w.suggestedInstructions.value;
      && |block| == |WorkoutHeader(w, env)| + |InstructionsLabel| + |text|
      && OccursAt(block, text, |block| - |text|)
  {
    var block, text := WorkoutBlock(w, env), w.suggestedInstructions.value;
    assert block == WorkoutHeader(w, env) + InstructionsLabel + text;
    assert block[|block| - |text|..] == text;
  }

  /** A workout without instructions is its header alone. */
  lemma WorkoutWithoutInstructions(w: Workout, env: Env)
    requires !TruthyStr(w.suggestedInstructions)
    ensures WorkoutBlock(w, env) == WorkoutHeader(w, env)
  {
    assert WorkoutHeader(w, env) + [] == WorkoutHeader(w, env);
  }

  function WorkoutBlocks(workouts: seq<Workout>, env: Env): (blocks: seq<string>)
    ensures |blocks| == |workouts|
    ensures forall i :: 0 <= i < |workouts| ==> blocks[i] == WorkoutBlock(workouts[i], env)
  {
    seq(|workouts|, i requires 0 <= i < |workouts| => WorkoutBlock(workouts[i], env))
  }

  lemma WorkoutBlocksSnoc(workouts: seq<Workout>, w: Workout, env: Env)
    ensures WorkoutBlocks(workouts + [w], env) == WorkoutBlocks(workouts, env) + [WorkoutBlock(w, env)]
  {
    var a, b := WorkoutBlocks(workouts + [w], env), WorkoutBlocks(workouts, env) + [WorkoutBlock(w, env)];
    assert |a| == |b|;
    forall i | 0 <= i < |a| ensures a[i] == b[i] {
      assert (workouts + [w])[i] == if i < |workouts| then workouts[i] else w;
    }
  }

  /** What `workouts_to_context` returns. */
  function WorkoutsContext(workouts: seq<Workout>, env: Env): (context: string)
    ensures workouts == [] ==> context == []
    ensures |workouts| == 1 ==> context == WorkoutBlock(workouts[0], env)
  {
    Join(WorkoutBlocks(workouts, env), Separator)
  }

  /** The body of the loop of `workouts_to_context`: the header, then `+=` of the instructions. */
  method RenderWorkout(w: Workout, env: Env) returns (block: string)
    ensures block == WorkoutBlock(w, env)
  {
    block := WorkoutHeader(w, env);
    if TruthyStr(w.suggestedInstructions) {
      block := block + InstructionsLabel + w.suggestedInstructions.value;
    } else {
      assert block == block + [];
    }
  }

  /** `workouts_to_context`: the loop appends one block per workout, then the blocks are joined. */
  method WorkoutsToContext(workouts: seq<Workout>, env: Env) returns (context: string)
    ensures context == WorkoutsContext(workouts, env)
  {
    var lines: seq<string> := [];
    for i := 0 to |workouts|
      invariant lines == WorkoutBlocks(workouts[..i], env)
    {
      assert workouts[..i + 1] == workouts[..i] + [workouts[i]];
      var block := RenderWorkout(workouts[i], env);
      WorkoutBlocksSnoc(workouts[..i], workouts[i], env);
      lines := lines + [block];
    }
    assert workouts[..|workouts|] == workouts;
    context := Join(lines, Separator);
  }

  /** The context holds every workout's block, in catalogue order, at its offset. */
  lemma WorkoutsContextHoldsBlocks(workouts: seq<Workout>, env: Env, k: nat)
    requires k < |workouts|
    ensures OccursAt(WorkoutsContext(workouts, env), WorkoutBlocks(workouts, env)[k],
                     JoinOffset(WorkoutBlocks(workouts, env), Separator, k))
  {
    JoinOccurs(WorkoutBlocks(workouts, env), Separator, k);
  }

  /** A blank line follows every block but the last. */
  lemma WorkoutsContextSeparates(workouts: seq<Workout>, env: Env, k: nat)
    requires k + 1 < |workouts|
    ensures OccursAt(WorkoutsContext(workouts, env), Separator,
                     JoinOffset(WorkoutBlocks(workouts, env), Separator, k) + |WorkoutBlocks(workouts, env)[k]|)
  {
    JoinSeparates(WorkoutBlocks(workouts, env), Separator, k);
  }

  /** The last block ends the context. */
  lemma WorkoutsContextEnds(workouts: seq<Workout>, env: Env)
    requires workouts != []
    ensures JoinOffset(WorkoutBlocks(workouts, env), Separator, |workouts| - 1) + |WorkoutBlocks(workouts, env)[|workouts| - 1]|
            == |WorkoutsContext(workouts, env)|
  {
    JoinEnds(WorkoutBlocks(workouts, env), Separator);
  }

  /** The equipment a user has, "None" when the column is missing or empty. */
  const DefaultEquipment: string := "None"

  /** Minutes a day when the column is missing or 0. */
  const DefaultMinutes: int := 30

  /** `int(minutes or 30)`: never 0. */
  function DailyMinutes(minutes: Option<int>): (m: int)
    ensures m != 0
    ensures minutes.Some? && minutes.value != 0 ==> m == minutes.value
    ensures !(minutes.Some? && minutes.value != 0) ==> m == DefaultMinutes
  {
    OrInt(minutes, DefaultMinutes)
  }

  /**
   * `build_workout_plan_prompt`: the user's goal and equipment (with their defaults), the minutes
   * a day (30 for 0) and the rendered catalogue.
   */
  function BuildWorkoutPlanPrompt(user: User, workouts: seq<Workout>, minutesPerDay: int,
                                  numDays: int, env: Env): (p: Prompt)
    ensures p.WorkoutPrompt? && p.numDays == numDays && p.context == WorkoutsContext(workouts, env)
    ensures p.goal != [] && p.equipment != [] && p.minutes != 0
    ensures minutesPerDay != 0 ==> p.minutes == minutesPerDay
    ensures minutesPerDay == 0 ==> p.minutes == DefaultMinutes
    ensures TruthyStr(user.goal) ==> p.goal == user.goal.value
    ensures !TruthyStr(user.goal) ==> p.goal == DefaultGoal
    ensures TruthyStr(user.equipment) ==> p.equipment == user.equipment.value
    ensures !TruthyStr(user.equipment) ==> p.equipment == DefaultEquipment
  {
    WorkoutPrompt(numDays, OrStr(user.goal, DefaultGoal), OrStr(user.equipment, DefaultEquipment),
                  DailyMinutes(Some(minutesPerDay)), WorkoutsContext(workouts, env))
  }

  /**
   * `generate_workout_plan`: ask for a plan, strip the fence, parse, and accept only an object
   * with "days", returned as it is.
   */
  method GenerateWorkoutPlan(user: User, workouts: seq<Workout>, minutesPerDay: int, numDays: int,
                             env: Env) returns (plan: Option<Plan>)
    ensures plan == WorkoutPlanOf(env.generate(BuildWorkoutPlanPrompt(user, workouts, minutesPerDay, numDays, env)), env.parse)
  {
    var prompt := BuildWorkoutPlanPrompt(user, workouts, minutesPerDay, numDays, env);
    var raw := env.generate(prompt);
    if raw == [] {
      return None;
    }
    var text := StripFence(raw);
    var parsed := env.parse(text);
    if !(parsed.Some? && parsed.value.JObject? && "days" in parsed.value.fields) {
      return None;
    }
    plan := Some(parsed.value.fields);
  }

  /** The goal the workouts are filtered by, as given: not stripped, not lower-cased. */
  function WorkoutGoal(user: User): (goal: string)
    ensures goal != []
    ensures TruthyStr(user.goal) ==> goal == user.goal.value
    ensures !TruthyStr(user.goal) ==> goal == DefaultGoal
  {
    OrStr(user.goal, DefaultGoal)
  }

  /** The equipment the workouts are filtered by: never `None`, so that filter always applies. */
  function WorkoutEquipment(user: User): (equipment: string)
    ensures equipment != []
    ensures TruthyStr(user.equipment) ==> equipment == user.equipment.value
    ensures !TruthyStr(user.equipment) ==> equipment == DefaultEquipment
  {
    OrStr(user.equipment, DefaultEquipment)
  }

  /**
   * The workouts offered to the generator: those for the user's goal and equipment, else those
   * for the equipment, else the whole catalogue. It is empty only for an empty catalogue.
   */
  function WorkoutCandidates(table: seq<Workout>, user: User): (candidates: seq<Workout>)
    ensures candidates == [] <==> table == []
    ensures Subseq(candidates, table)
  {
    var goal, equipment := WorkoutGoal(user), WorkoutEquipment(user);
    var goalAndEquipment := WorkoutsFiltered(table, Some(goal), Some(equipment), None);
    var equipmentOnly := WorkoutsFiltered(table, None, Some(equipment), None);
    SubseqRefl(table);
    if goalAndEquipment != [] then goalAndEquipment
    else if equipmentOnly != [] then equipmentOnly
    else AllWorkouts(table)
  }

  /** When some workout has the user's goal and equipment, the candidates are exactly those
      workouts. */
  lemma CandidatesPreferGoalAndEquipment(table: seq<Workout>, user: User)
    requires exists x :: x in table && x.goal == Some(WorkoutGoal(user)) && x.equipmentRequired == Some(WorkoutEquipment(user))
    ensures forall x :: x in WorkoutCandidates(table, user) <==>
      x in table && x.goal == Some(WorkoutGoal(user)) && x.equipmentRequired == Some(WorkoutEquipment(user))
  {
    var x :| x in table && x.goal == Some(WorkoutGoal(user)) && x.equipmentRequired == Some(WorkoutEquipment(user));
    assert x in WorkoutsFiltered(table, Some(WorkoutGoal(user)), Some(WorkoutEquipment(user)), None);
  }

  /** When none has both but some have the user's equipment, the candidates are exactly the
      workouts for that equipment, whatever their goal. */
  lemma CandidatesFallBackToEquipment(table: seq<Workout>, user: User)
    requires !exists x :: x in table && x.goal == Some(WorkoutGoal(user)) && x.equipmentRequired == Some(WorkoutEquipment(user))
    requires exists x :: x in table && x.equipmentRequired == Some(WorkoutEquipment(user))
    ensures forall x :: x in WorkoutCandidates(table, user) <==>
      x in table && x.equipmentRequired == Some(WorkoutEquipment(user))
  {
    var goalAndEquipment := WorkoutsFiltered(table, Some(WorkoutGoal(user)), Some(WorkoutEquipment(user)), None);
    assert goalAndEquipment == [];
    var x :| x in table && x.equipmentRequired == Some(WorkoutEquipment(user));
    assert x in WorkoutsFiltered(table, None, Some(WorkoutEquipment(user)), None);
  }

  /** When no workout has the user's equipment, the whole catalogue is offered. */
  lemma CandidatesFallBackToAll(table: seq<Workout>, user: User)
    requires !exists x :: x in table && x.equipmentRequired == Some(WorkoutEquipment(user))
    ensures WorkoutCandidates(table, user) == table
  {
    var goal, equipment := WorkoutGoal(user), WorkoutEquipment(user);
    assert WorkoutsFiltered(table, None, Some(equipment), None) == [];
    forall i | 0 <= i < |table| ensures !WorkoutMatches(table[i], Some(goal), Some(equipment), None) {
      assert table[i] in table;
    }
    assert WorkoutsFiltered(table, Some(goal), Some(equipment), None) == [];
  }

  /** Days of a generated workout plan. */
  const PlanDays: int := 7

  /** What `generate_and_save_workout_plan` returns, for the session's users and workouts. */
  function WorkoutPlanRun(users: map<int, User>, workouts: seq<Workout>, userId: int, env: Env): (plan: Option<Plan>)
    ensures plan.Some? ==> userId in users && workouts != [] && "days" in plan.value
  {
    if userId !in users then None
    else
      var user := users[userId];
      var candidates := WorkoutCandidates(workouts, user);
      if candidates == [] then None
      else
        var minutes := DailyMinutes(user.workoutMinutesPerDay);
        WorkoutPlanOf(env.generate(BuildWorkoutPlanPrompt(user, candidates, minutes, PlanDays, env)), env.parse)
  }

  /** A missing user or an empty catalogue gives no plan. */
  lemma WorkoutRunNeedsUserAndWorkouts(users: map<int, User>, workouts: seq<Workout>, userId: int, env: Env)
    requires userId !in users || workouts == []
    ensures WorkoutPlanRun(users, workouts, userId, env) == None
  {
  }

  /** A known user with a non-empty catalogue gets the workout plan of the reply to the prompt
      built from the candidates and the user's minutes. */
  lemma WorkoutRunSucceeds(users: map<int, User>, workouts: seq<Workout>, userId: int, env: Env)
    requires userId in users && workouts != []
    ensures var user := users[userId];
      WorkoutPlanRun(users, workouts, userId, env)
        == WorkoutPlanOf(env.generate(BuildWorkoutPlanPrompt(user, WorkoutCandidates(workouts, user),
             DailyMinutes(user.workoutMinutesPerDay), PlanDays, env)), env.parse)
  {
  }

  /** A returned workout plan is exactly the object the parser produced, with "days", and no
      weekly totals are added to it. */
  lemma WorkoutRunReturnsParsedObject(users: map<int, User>, workouts: seq<Workout>, userId: int, env: Env)
    requires WorkoutPlanRun(users, workouts, userId, env).Some?
    ensures var user := users[userId];
      var raw := env.generate(BuildWorkoutPlanPrompt(user, WorkoutCandidates(workouts, user),
        DailyMinutes(user.workoutMinutesPerDay), PlanDays, env));
      var plan := WorkoutPlanRun(users, workouts, userId, env).value;
      && "days" in plan
      && env.parse(Unfence(Strip(raw))) == Some(JObject(plan))
  {
  }

  /**
   * `generate_and_save_workout_plan`: the cascade reassigns the workout list until it is
   * non-empty, and a plan is saved only when one was generated.
   */
  method GenerateAndSaveWorkoutPlan(session: Session, userId: int, env: Env) returns (plan: Option<Plan>)
    modifies session`workoutPlans
    ensures plan == WorkoutPlanRun(session.users, session.workouts, userId, env)
    ensures session.workoutPlans == old(session.workoutPlans) + (if plan.Some? then [WorkoutPlanRecord(userId, plan.value)] else [])
  {
    var user := session.UserById(userId);
    if user.None? {
      return None;
    }
    var goal := OrStr(user.value.goal, DefaultGoal);
    var equipment := OrStr(user.value.equipment, DefaultEquipment);
    var minutes := OrInt(user.value.workoutMinutesPerDay, DefaultMinutes);
    var workouts := WorkoutsFiltered(session.workouts, Some(goal), Some(equipment), None);
    if workouts == [] {
      workouts := WorkoutsFiltered(session.workouts, None, Some(equipment), None);
    }
    if workouts == [] {
      workouts := AllWorkouts(session.workouts);
    }
    if workouts == [] {
      return None;
    }
    assert workouts == WorkoutCandidates(session.workouts, user.value);
    plan := GenerateWorkoutPlan(user.value, workouts, minutes, PlanDays, env);
    if plan.None? {
      return None;
    }
    session.CreateWorkoutPlan(userId, plan.value);
  }
}
