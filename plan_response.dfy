/**
 * What `generate_meal_plan` and `generate_workout_plan` share: turning the text the generator
 * returned into a plan. The text is stripped, a markdown code fence around it is removed, the
 * rest is parsed as JSON, and only an object with a "days" key is accepted. Meal plans then get
 * default weekly totals. JSON parsing itself (`json.loads`) and text generation are parameters.
 */
module PlanResponse {
  import opened Wrappers
  import opened Strings

  /** A value as `json.loads` returns it; integers and floats stay apart, as in Python. */
  datatype Json =
    | JNull
    | JBool(b: bool)
    | JInt(i: int)
    | JFloat(f: real)
    | JString(s: string)
    | JArray(items: seq<Json>)
    | JObject(fields: map<string, Json>)

  /** A plan is a JSON object, held as its key/value map. */
  type Plan = map<string, Json>

  /** The markdown fence marker. */
  const Fence: string := "```"

  /**
   * The line-level part of the fence strip: drop the first line when it opens a fence, then
   * drop the last line when, stripped, it is a bare fence.
   */
  function DropFenceLines(lines: seq<string>): seq<string>
    requires lines != []
  {
    var body := if StartsWith(lines[0], Fence) then lines[1..] else lines;
    if body != [] && Strip(body[|body| - 1]) == Fence then body[..|body| - 1] else body
  }

  /** The fence strip applied to already stripped text: text without an opening fence is kept;
      otherwise its first line goes, a closing fence line goes, and the rest is joined again. */
  function Unfence(text: string): (body: string)
    ensures !StartsWith(text, Fence) ==> body == text
    ensures StartsWith(text, Fence) ==> body == Join(DropClosingFence(Split(text, '\n')[1..]), "\n")
  {
    if StartsWith(text, Fence) then
      OpeningLineIsFence(text);
      Join(DropFenceLines(Split(text, '\n')), "\n")
    else text
  }

  /**
   * The code's fence strip, step by step: the text is reassigned, the line list is cut at the
   * front and at the back, and the lines are joined again.
   */
  method StripFence(raw: string) returns (text: string)
    ensures text == Unfence(Strip(raw))
  {
    text := Strip(raw);
    if StartsWith(text, Fence) {
      var lines := Split(text, '\n');
      if StartsWith(lines[0], Fence) {
        lines := lines[1..];
      }
      if |lines| > 0 && Strip(lines[|lines| - 1]) == Fence {
        lines := lines[..|lines| - 1];
      }
      text := Join(lines, "\n");
    }
  }

  /** When the text opens with a fence, so does its first line: the test on the first line
      always passes, and the first line is always dropped. */
  lemma OpeningLineIsFence(text: string)
    requires StartsWith(text, Fence)
    ensures StartsWith(Split(text, '\n')[0], Fence)
    ensures DropFenceLines(Split(text, '\n')) == DropClosingFence(Split(text, '\n')[1..])
  {
    assert '\n' !in Fence;
    SplitFirstKeepsPrefix(text, '\n', Fence);
  }

  /** Dropping a closing fence line, and nothing else. */
  function DropClosingFence(lines: seq<string>): (kept: seq<string>)
    ensures lines != [] && Strip(lines[|lines| - 1]) == Fence ==> kept == lines[..|lines| - 1]
    ensures !(lines != [] && Strip(lines[|lines| - 1]) == Fence) ==> kept == lines
  {
    if lines != [] && Strip(lines[|lines| - 1]) == Fence then lines[..|lines| - 1] else lines
  }

  /** A fenced block, an opening fence with its tag, the body, and a closing fence. */
  function Fenced(tag: string, body: string): string {
    Fence + tag + "\n" + body + "\n" + Fence
  }

  lemma FenceLiteral()
    ensures Strip(Fence) == Fence && Split(Fence, '\n') == [Fence]
  {
    StripUnchanged(Fence);
    SplitNoSeparator(Fence, '\n');
  }

  /** Removing the fence from a fenced block gives back exactly the body, whatever it holds. */
  lemma FenceRoundTrip(tag: string, body: string)
    requires '\n' !in tag
    ensures Unfence(Fenced(tag, body)) == body
  {
    var opening := Fence + tag;
    var t := Fenced(tag, body);
    assert t == opening + ['\n'] + (body + ['\n'] + Fence);
    SplitAround(opening, body + ['\n'] + Fence, '\n');
    SplitAround(body, Fence, '\n');
    SplitNoSeparator(opening, '\n');
    FenceLiteral();
    var lines := Split(t, '\n');
    assert lines == [opening] + Split(body, '\n') + [Fence];
    assert StartsWith(t, Fence) && StartsWith(opening, Fence);
    assert lines[1..] == Split(body, '\n') + [Fence];
    assert DropFenceLines(lines) == Split(body, '\n');
    JoinSplit(body, '\n');
  }

  /** Without a closing fence line, everything after the opening line is kept. */
  lemma UnclosedFenceKeepsBody(tag: string, body: string)
    requires '\n' !in tag
    requires var last := Split(body, '\n'); Strip(last[|last| - 1]) != Fence
    ensures Unfence(Fence + tag + "\n" + body) == body
  {
    var opening := Fence + tag;
    var t := Fence + tag + "\n" + body;
    assert t == opening + ['\n'] + body;
    SplitAround(opening, body, '\n');
    SplitNoSeparator(opening, '\n');
    var lines := Split(t, '\n');
    assert lines == [opening] + Split(body, '\n');
    assert StartsWith(t, Fence) && StartsWith(opening, Fence);
    assert lines[1..] == Split(body, '\n');
    JoinSplit(body, '\n');
  }

  /** The accepted shape: an object that has a "days" key. */
  function PlanOf(parsed: Option<Json>): (plan: Option<Plan>)
    ensures plan.Some? <==> parsed.Some? && parsed.value.JObject? && "days" in parsed.value.fields
    ensures plan.Some? ==> parsed == Some(JObject(plan.value))
  {
    match parsed
    case Some(JObject(fields)) => if "days" in fields then Some(fields) else None
    case _ => None
  }

  /**
   * The shared part of `generate_meal_plan` and `generate_workout_plan`, from the generated text
   * to the plan: `None` for an empty text, for text the parser rejects, and for anything but an
   * object with "days".
   */
  function ParsePlan(raw: string, parse: string -> Option<Json>): (plan: Option<Plan>)
    ensures raw == [] ==> plan == None
    ensures plan.Some? ==> "days" in plan.value && parse(Unfence(Strip(raw))) == Some(JObject(plan.value))
    ensures raw != [] ==> (plan.Some? <==>
      var v := parse(Unfence(Strip(raw))); v.Some? && v.value.JObject? && "days" in v.value.fields)
    ensures raw != [] && !StartsWith(Strip(raw), Fence) ==> plan == PlanOf(parse(Strip(raw)))
  {
    if raw == [] then None else PlanOf(parse(Unfence(Strip(raw))))
  }

  /** A fenced block is read as its body would be read on its own. */
  lemma FencedParsesAsBody(tag: string, body: string, parse: string -> Option<Json>)
    requires '\n' !in tag
    ensures ParsePlan(Fenced(tag, body), parse) == PlanOf(parse(body))
  {
    var t := Fenced(tag, body);
    assert t[0] == '`' && t[|t| - 1] == '`';
    StripUnchanged(t);
    FenceRoundTrip(tag, body);
  }

  /** A body that needs no stripping and has no fence of its own parses the same with or
      without a fence around it. */
  lemma FenceIsTransparent(tag: string, body: string, parse: string -> Option<Json>)
    requires '\n' !in tag
    requires body != [] && Strip(body) == body && !StartsWith(body, Fence)
    ensures ParsePlan(Fenced(tag, body), parse) == ParsePlan(body, parse)
  {
    FencedParsesAsBody(tag, body, parse);
  }

  /** Python's `d.setdefault(k, v)`, for its effect on the dictionary. */
  function SetDefault(d: Plan, k: string, v: Json): (r: Plan)
    ensures k in r && r[k] == (if k in d then d[k] else v)
    ensures r.Keys == d.Keys + {k}
    ensures forall j :: j in d ==> r[j] == d[j]
  {
    if k in d then d else d[k := v]
  }

  /** The two weekly totals a meal plan always carries. */
  const WeeklyCost: string := "total_weekly_cost"
  const WeeklyCalories: string := "total_weekly_calories"

  /** The two `setdefault` calls of `generate_meal_plan`. */
  function WithRollups(plan: Plan): (r: Plan)
    ensures WeeklyCost in r && WeeklyCalories in r
    ensures r.Keys == plan.Keys + {WeeklyCost, WeeklyCalories}
    ensures forall k :: k in plan ==> r[k] == plan[k]
    ensures WeeklyCost !in plan ==> r[WeeklyCost] == JInt(0)
    ensures WeeklyCalories !in plan ==> r[WeeklyCalories] == JInt(0)
  {
    SetDefault(SetDefault(plan, WeeklyCost, JInt(0)), WeeklyCalories, JInt(0))
  }

  /** Adding the defaults twice adds nothing more. */
  lemma WithRollupsIdempotent(plan: Plan)
    ensures WithRollups(WithRollups(plan)) == WithRollups(plan)
  {
    var once := WithRollups(plan);
    var twice := WithRollups(once);
    assert twice.Keys == once.Keys;
    forall k | k in once ensures twice[k] == once[k] {
    }
  }

  /** A plan that already has both totals is left as it is. */
  lemma WithRollupsKeepsComplete(plan: Plan)
    requires WeeklyCost in plan && WeeklyCalories in plan
    ensures WithRollups(plan) == plan
  {
    var r := WithRollups(plan);
    assert r.Keys == plan.Keys;
    forall k | k in plan ensures r[k] == plan[k] {
    }
  }

  /** What `generate_meal_plan` returns for the generated text. */
  function MealPlanOf(raw: string, parse: string -> Option<Json>): (plan: Option<Plan>)
    ensures plan.Some? <==> ParsePlan(raw, parse).Some?
    ensures plan.Some? ==> plan.value == WithRollups(ParsePlan(raw, parse).value)
    ensures plan.Some? ==> "days" in plan.value && WeeklyCost in plan.value && WeeklyCalories in plan.value
    ensures plan.Some? ==> forall k :: k in ParsePlan(raw, parse).value ==>
      k in plan.value && plan.value[k] == ParsePlan(raw, parse).value[k]
  {
    match ParsePlan(raw, parse)
    case None => None
    case Some(p) => Some(WithRollups(p))
  }

  /** What `generate_workout_plan` returns for the generated text: the parsed object as it is. */
  function WorkoutPlanOf(raw: string, parse: string -> Option<Json>): (plan: Option<Plan>)
    ensures plan == ParsePlan(raw, parse)
    ensures plan.Some? ==> "days" in plan.value && parse(Unfence(Strip(raw))) == Some(JObject(plan.value))
  {
    ParsePlan(raw, parse)
  }

  /** Meal and workout plans are accepted on the same texts; the meal plan only adds the totals. */
  lemma MealPlanExtendsWorkoutPlan(raw: string, parse: string -> Option<Json>)
    ensures MealPlanOf(raw, parse).Some? <==> WorkoutPlanOf(raw, parse).Some?
    ensures MealPlanOf(raw, parse).Some? ==>
      MealPlanOf(raw, parse).value.Keys == WorkoutPlanOf(raw, parse).value.Keys + {WeeklyCost, WeeklyCalories}
  {
  }

  /** The `setdefault` steps of `generate_meal_plan` on the parsed object. */
  method AddRollups(plan: Plan) returns (r: Plan)
    ensures r == WithRollups(plan)
  {
    r := plan;
    r := SetDefault(r, WeeklyCost, JInt(0));
    r := SetDefault(r, WeeklyCalories, JInt(0));
  }
}
