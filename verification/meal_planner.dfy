/**
 * The meal-planner page: reading the backend's week plan (a JSON array, or a
 * fixed seven-day fallback), the fixed grocery list, the premium gate, and
 * the state changes after a generation.
 */
module MealPlanner {
  import opened Wrappers
  import opened Domain
  import Seqs
  import Text

  /** One day of the plan as the page renders it. */
  datatype DayMeal = DayMeal(day: string, breakfast: string, lunch: string, dinner: string)

  /** `DAYS`. */
  const Days: seq<string> := ["Monday", "Tuesday", "Wednesday", "Thursday", "Friday", "Saturday", "Sunday"]

  const FallbackBreakfast := "Oatmeal with fresh fruits"
  const FallbackLunch := "Grilled vegetable wrap"
  const FallbackDinner := "Stir-fried rice with vegetables"

  const GeneratedToast := "Meal plan generated! 🗓️"
  const GenerateFailedToast := "Failed to generate meal plan"

  /**
   * What `JSON.parse(raw)` produced: it threw, it returned something other
   * than an array, or it returned an array (whose elements the page uses as
   * day entries without checking them).
   */
  datatype Parsed = ParseFailure | NonArray | ArrayValue(entries: seq<DayMeal>)

  /** The fallback week: one entry per day in `Days`, each with the same three meals. */
  function FallbackPlan(): (plan: seq<DayMeal>)
    ensures |plan| == |Days| == 7
    ensures forall i :: 0 <= i < |plan| ==>
      plan[i] == DayMeal(Days[i], FallbackBreakfast, FallbackLunch, FallbackDinner)
  {
    seq(|Days|, i requires 0 <= i < |Days| => DayMeal(Days[i], FallbackBreakfast, FallbackLunch, FallbackDinner))
  }

  /**
   * `parseMealPlan`: an array is returned as it is; a parse failure or any
   * other value gives the seven fallback days, Monday to Sunday in order.
   */
  function ParseMealPlan(parsed: Parsed): (plan: seq<DayMeal>)
    ensures parsed.ArrayValue? ==> plan == parsed.entries
    ensures !parsed.ArrayValue? ==>
      && |plan| == 7
      && (forall i :: 0 <= i < 7 ==> plan[i].day == Days[i])
      && (forall i :: 0 <= i < 7 ==>
            plan[i].breakfast == FallbackBreakfast && plan[i].lunch == FallbackLunch && plan[i].dinner == FallbackDinner)
  {
    if parsed.ArrayValue? then parsed.entries else FallbackPlan()
  }

  /** The fallback's days are Monday to Sunday, each once. */
  lemma FallbackDays()
    ensures var plan := ParseMealPlan(ParseFailure);
      && plan[0].day == "Monday" && plan[6].day == "Sunday"
      && Seqs.Distinct(seq(7, i requires 0 <= i < 7 => plan[i].day))
  {
    var plan := ParseMealPlan(ParseFailure);
    var days := seq(7, i requires 0 <= i < 7 => plan[i].day);
    assert days == Days;
  }

  /** `commonIngredients`. */
  const CommonIngredients: seq<string> := [
    "Oats", "Fresh fruits", "Vegetables", "Rice", "Bread", "Eggs",
    "Olive oil", "Garlic", "Onions", "Tomatoes", "Herbs & spices",
    "Lemon", "Salt & pepper", "Pasta", "Canned beans"
  ]

  /** No item of `commonIngredients` is listed twice. */
  lemma CommonIngredientsDistinct()
    ensures Seqs.Distinct(CommonIngredients)
  {
  }

  /**
   * `extractGroceryList`: the meals are ignored; the items pass through a
   * `Set`, which keeps the fifteen distinct items in list order.
   */
  function ExtractGroceryList(meals: seq<DayMeal>): (items: seq<string>)
    ensures items == CommonIngredients
    ensures |items| == 15 && Seqs.Distinct(items)
  {
    CommonIngredientsDistinct();
    Seqs.Dedup(CommonIngredients)
  }

  /** The page state: `currentPlan` (`null` as `None`) and `showGrocery`. */
  datatype PlannerState = PlannerState(currentPlan: Option<seq<DayMeal>>, showGrocery: bool)

  const InitialState := PlannerState(None, false)

  /**
   * `groceryList`: empty without a current plan. A current plan that is an
   * empty array is still truthy, so it too gets the full list.
   */
  function GroceryList(state: PlannerState): (items: seq<string>)
    ensures state.currentPlan.None? ==> items == []
    ensures state.currentPlan.Some? ==> items == CommonIngredients
  {
    if state.currentPlan.Some? then ExtractGroceryList(state.currentPlan.value) else []
  }

  /** The show/hide button of the grocery card. */
  function ToggleGrocery(state: PlannerState): (r: PlannerState)
    ensures r.currentPlan == state.currentPlan
    ensures r.showGrocery != state.showGrocery
  {
    state.(showGrocery := !state.showGrocery)
  }

  /** Pressing the show/hide button twice restores the state. */
  lemma ToggleTwice(state: PlannerState)
    ensures ToggleGrocery(ToggleGrocery(state)) == state
  {
  }

  /** The outcome of the generate call: the plan's raw text, parsed, or an error. */
  datatype GenerateOutcome = Generated(weekPlan: Parsed) | Failed(message: Option<string>)

  /**
   * The settling part of `handleGenerate`: a result replaces the current plan
   * with its parsed form and hides the grocery list; a failure changes
   * nothing and reports the error's message, or a generic text.
   */
  function SettleGenerate(state: PlannerState, outcome: GenerateOutcome): (r: (PlannerState, string))
    ensures outcome.Generated? ==>
      && r.0.currentPlan == Some(ParseMealPlan(outcome.weekPlan))
      && !r.0.showGrocery
      && r.1 == GeneratedToast
    ensures outcome.Failed? ==> r.0 == state && r.1 == Text.OrDefault(outcome.message, GenerateFailedToast)
  {
    match outcome
    case Generated(weekPlan) => (PlannerState(Some(ParseMealPlan(weekPlan)), false), GeneratedToast)
    case Failed(message) => (state, Text.OrDefault(message, GenerateFailedToast))
  }

  /** After any successful generation the grocery list holds all fifteen items, hidden. */
  lemma GeneratedPlanHasGroceries(state: PlannerState, weekPlan: Parsed)
    ensures var next := SettleGenerate(state, Generated(weekPlan)).0;
      GroceryList(next) == CommonIngredients && !next.showGrocery
  {
  }

  datatype PlannerGate = SignInRequired | PremiumGate | Planner

  /**
   * The page's early returns: sign-in without an identity; the premium gate
   * once the profile has loaded and the plan is not premium; otherwise the
   * planner (also while the profile is still loading).
   */
  function Gate(hasIdentity: bool, profileLoading: bool, profile: Option<Profile>): (g: PlannerGate)
    ensures g.SignInRequired? <==> !hasIdentity
    ensures g.PremiumGate? <==> hasIdentity && !profileLoading && !IsPremium(PlanOf(profile))
    ensures g.Planner? ==> hasIdentity && (profileLoading || PlanOf(profile) == Some(Premium))
  {
    if !hasIdentity then SignInRequired
    else if !profileLoading && !IsPremium(PlanOf(profile)) then PremiumGate
    else Planner
  }

  /** Once the profile has loaded, only a premium profile reaches the planner. */
  lemma PlannerOnlyForPremium(profile: Option<Profile>)
    ensures Gate(true, false, profile).Planner? <==> profile.Some? && profile.value.planType == Premium
  {
  }

  /** The "No meal plan yet" card shows without a current plan once the saved plans have loaded. */
  predicate ShowEmptyState(state: PlannerState, plansLoading: bool) {
    state.currentPlan.None? && !plansLoading
  }

  /**
   * The empty-state card belongs to a page without groceries, and once a
   * generation has succeeded it never shows again; a failed generation
   * leaves it as it was.
   */
  lemma EmptyStateOnlyBeforeAPlan(state: PlannerState, plansLoading: bool, outcome: GenerateOutcome)
    ensures ShowEmptyState(state, plansLoading) ==> GroceryList(state) == []
    ensures outcome.Generated? ==> !ShowEmptyState(SettleGenerate(state, outcome).0, plansLoading)
    ensures outcome.Failed? ==>
      (ShowEmptyState(SettleGenerate(state, outcome).0, plansLoading) <==> ShowEmptyState(state, plansLoading))
  {
  }
}
