/**
 * The workout catalogue queries. The goal and difficulty filters apply only when truthy; the
 * equipment filter applies whenever it is not `None`, so `""` and the string "None" are real
 * filters.
 */
module WorkoutService {
  import opened Wrappers
  import opened Models
  import opened Filtering

  /** `get_all_workouts`: every row of the table. */
  function AllWorkouts(table: seq<Workout>): (rows: seq<Workout>)
    ensures |rows| == |table|
    ensures forall w :: w in rows <==> w in table
    ensures multiset(rows) == multiset(table)
  {
    table
  }

  /** The conjunction of the active filters of `get_workouts_filtered` for one row. */
  predicate WorkoutMatches(w: Workout, goal: Option<string>, equipment: Option<string>,
                           difficulty: Option<string>)
    ensures !TruthyStr(goal) && equipment.None? && !TruthyStr(difficulty) ==> WorkoutMatches(w, goal, equipment, difficulty)
    ensures equipment.Some? && WorkoutMatches(w, goal, equipment, difficulty) ==> w.equipmentRequired.Some?
  {
    && (TruthyStr(goal) ==> w.goal == goal)
    && (equipment.Some? ==> w.equipmentRequired == equipment)
    && (TruthyStr(difficulty) ==> w.difficulty == difficulty)
  }

  function WorkoutFilter(goal: Option<string>, equipment: Option<string>,
                         difficulty: Option<string>): Workout -> bool
  {
    w => WorkoutMatches(w, goal, equipment, difficulty)
  }

  /**
   * `get_workouts_filtered`: a row is in the result exactly when it is in the table and passes
   * every active filter; the result keeps the table's order.
   */
  function WorkoutsFiltered(table: seq<Workout>, goal: Option<string>, equipment: Option<string>,
                            difficulty: Option<string>): (result: seq<Workout>)
    ensures forall w :: w in result <==> w in table && WorkoutMatches(w, goal, equipment, difficulty)
    ensures result == [] <==> forall i :: 0 <= i < |table| ==> !WorkoutMatches(table[i], goal, equipment, difficulty)
    ensures Subseq(result, table)
  {
    var p := WorkoutFilter(goal, equipment, difficulty);
    KeepIsSubseq(table, p);
    Keep(table, p)
  }

  /** Any equipment value that is not `None`, even `""`, selects exactly the rows that
      require that equipment. */
  lemma EquipmentAlwaysFilters(table: seq<Workout>, equipment: string, w: Workout)
    ensures w in WorkoutsFiltered(table, None, Some(equipment), None) <==>
            w in table && w.equipmentRequired == Some(equipment)
  {
  }

  /** With no filter at all the query returns the whole table, as `get_all_workouts` does. */
  lemma NoFilterIsAllWorkouts(table: seq<Workout>)
    ensures WorkoutsFiltered(table, None, None, None) == AllWorkouts(table)
  {
    KeepAll(table, WorkoutFilter(None, None, None));
  }

  /** An empty goal or difficulty is no filter. */
  lemma EmptyTextFiltersAreIgnored(table: seq<Workout>, equipment: Option<string>)
    ensures WorkoutsFiltered(table, Some(""), equipment, Some("")) == WorkoutsFiltered(table, None, equipment, None)
  {
    KeepSame(table, WorkoutFilter(Some(""), equipment, Some("")), WorkoutFilter(None, equipment, None));
  }

  /** Goal and equipment, then equipment alone, then everything: each query contains the one
      before. */
  lemma EquipmentQueriesNarrow(table: seq<Workout>, goal: string, equipment: string)
    ensures Subseq(WorkoutsFiltered(table, Some(goal), Some(equipment), None),
                   WorkoutsFiltered(table, None, Some(equipment), None))
    ensures Subseq(WorkoutsFiltered(table, None, Some(equipment), None), AllWorkouts(table))
  {
    KeepMonotone(table, WorkoutFilter(Some(goal), Some(equipment), None), WorkoutFilter(None, Some(equipment), None));
  }
}
