/**
 * The recipe catalogue queries. The `recipes` table is a sequence in table order; a filter is
 * applied only when its own test passes (truthiness for the text filters, `is not None` for the
 * cost ceiling), and a SQL comparison against a NULL column never matches.
 */
module RecipeService {
  import opened Wrappers
  import opened Models
  import opened Filtering

  /** `get_all_recipes`: every row of the table. */
  function AllRecipes(table: seq<Recipe>): (rows: seq<Recipe>)
    ensures |rows| == |table|
    ensures forall r :: r in rows <==> r in table
    ensures multiset(rows) == multiset(table)
  {
    table
  }

  /** A text column equals a filter value; NULL equals nothing. */
  predicate ColumnIs(column: Option<string>, value: string)
    ensures ColumnIs(column, value) ==> column.Some?
  {
    column == Some(value)
  }

  /** The conjunction of the active filters of `get_recipes_filtered` for one row. */
  predicate RecipeMatches(r: Recipe, dietType: Option<string>, cuisine: Option<string>,
                          maxCost: Option<real>, mealType: Option<string>)
    ensures !TruthyStr(dietType) && !TruthyStr(cuisine) && maxCost.None? && !TruthyStr(mealType) ==>
            RecipeMatches(r, dietType, cuisine, maxCost, mealType)
    ensures maxCost.Some? && RecipeMatches(r, dietType, cuisine, maxCost, mealType) ==> r.costPerServing.Some?
    ensures TruthyStr(dietType) && RecipeMatches(r, dietType, cuisine, maxCost, mealType) ==> r.dietType == dietType
  {
    && (TruthyStr(dietType) ==> ColumnIs(r.dietType, dietType.value))
    && (TruthyStr(cuisine) ==> ColumnIs(r.cuisine, cuisine.value))
    && (maxCost.Some? ==> r.costPerServing.Some? && r.costPerServing.value <= maxCost.value)
    && (TruthyStr(mealType) ==> ColumnIs(r.mealType, mealType.value))
  }

  function RecipeFilter(dietType: Option<string>, cuisine: Option<string>,
                        maxCost: Option<real>, mealType: Option<string>): Recipe -> bool
  {
    r => RecipeMatches(r, dietType, cuisine, maxCost, mealType)
  }

  /**
   * `get_recipes_filtered`: a row is in the result exactly when it is in the table and passes
   * every active filter; the result keeps the table's order.
   */
  function RecipesFiltered(table: seq<Recipe>, dietType: Option<string>, cuisine: Option<string>,
                           maxCost: Option<real>, mealType: Option<string>): (result: seq<Recipe>)
    ensures forall r :: r in result <==> r in table && RecipeMatches(r, dietType, cuisine, maxCost, mealType)
    ensures result == [] <==> forall i :: 0 <= i < |table| ==> !RecipeMatches(table[i], dietType, cuisine, maxCost, mealType)
    ensures Subseq(result, table)
  {
    var p := RecipeFilter(dietType, cuisine, maxCost, mealType);
    KeepIsSubseq(table, p);
    Keep(table, p)
  }

  /** Each active filter holds of every row returned: the diet and cuisine match, the cost is
      known and within the ceiling (a ceiling of 0 included), and the meal type matches. */
  lemma FilteredRowsPassEachFilter(table: seq<Recipe>, dietType: Option<string>, cuisine: Option<string>,
                                   maxCost: Option<real>, mealType: Option<string>, r: Recipe)
    requires r in RecipesFiltered(table, dietType, cuisine, maxCost, mealType)
    ensures r in table
    ensures TruthyStr(dietType) ==> r.dietType == dietType
    ensures TruthyStr(cuisine) ==> r.cuisine == cuisine
    ensures maxCost.Some? ==> r.costPerServing.Some? && r.costPerServing.value <= maxCost.value
    ensures TruthyStr(mealType) ==> r.mealType == mealType
  {
  }

  /** With no filter at all the query returns the whole table, as `get_all_recipes` does. */
  lemma NoFilterIsAllRecipes(table: seq<Recipe>)
    ensures RecipesFiltered(table, None, None, None, None) == AllRecipes(table)
  {
    KeepAll(table, RecipeFilter(None, None, None, None));
  }

  /** An empty text filter is no filter: `""` acts like `None`. */
  lemma EmptyTextFiltersAreIgnored(table: seq<Recipe>, maxCost: Option<real>)
    ensures RecipesFiltered(table, Some(""), Some(""), maxCost, Some(""))
         == RecipesFiltered(table, None, None, maxCost, None)
  {
    KeepSame(table, RecipeFilter(Some(""), Some(""), maxCost, Some("")), RecipeFilter(None, None, maxCost, None));
  }

  /** Adding the cost ceiling can only shrink the diet query, which can only shrink the table:
      diet and cost, then diet alone, then everything. */
  lemma DietQueriesNarrow(table: seq<Recipe>, diet: string, ceiling: real)
    ensures Subseq(RecipesFiltered(table, Some(diet), None, Some(ceiling), None),
                   RecipesFiltered(table, Some(diet), None, None, None))
    ensures Subseq(RecipesFiltered(table, Some(diet), None, None, None), AllRecipes(table))
  {
    KeepMonotone(table, RecipeFilter(Some(diet), None, Some(ceiling), None), RecipeFilter(Some(diet), None, None, None));
  }
}
