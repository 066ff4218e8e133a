/**
 * The saved-recipes page: the sign-in screen, the pro gate, the loading
 * skeleton, and one card per saved recipe whose remove button deletes that
 * recipe by id.
 */
module SavedRecipes {
  import opened Wrappers
  import opened Domain
  import Text

  const RemovedToast := "Recipe removed from saved"
  const RemoveFailedToast := "Failed to remove recipe"

  /** A `RecipeCard`: the recipe, the nutrition flag, and the id its remove button deletes. */
  datatype SavedCard = SavedCard(recipe: Recipe, showNutrition: bool, removes: string)

  datatype SavedView =
    | SignInRequired
    | ProGate
    | Skeleton
    | Cards(cards: seq<SavedCard>)
    | EmptyState

  /** The card list: one card per saved recipe, in the backend's order. */
  function CardsFor(saved: seq<Recipe>, plan: Option<Plan>): (cards: seq<SavedCard>)
    ensures |cards| == |saved|
    ensures forall i :: 0 <= i < |cards| ==>
      && cards[i].recipe == saved[i]
      && cards[i].removes == saved[i].id
      && (cards[i].showNutrition <==> IsPremium(plan))
  {
    seq(|saved|, i requires 0 <= i < |saved| => SavedCard(saved[i], plan == Some(Premium), saved[i].id))
  }

  /**
   * The page. Without an identity, the sign-in screen; otherwise the pro gate
   * exactly when the profile has finished loading and the plan is neither pro
   * nor premium; while either query loads, the skeleton; then the cards, or
   * the empty state when there are no saved recipes.
   */
  function Render(
    hasIdentity: bool, profileLoading: bool, recipesLoading: bool,
    profile: Option<Profile>, saved: Option<seq<Recipe>>): (v: SavedView)
    ensures v.SignInRequired? <==> !hasIdentity
    ensures v.ProGate? <==> hasIdentity && !profileLoading && !IsPro(PlanOf(profile))
    ensures hasIdentity && profileLoading ==> v.Skeleton?
    ensures v.Skeleton? <==> hasIdentity && (profileLoading || (recipesLoading && IsPro(PlanOf(profile))))
    ensures v.Cards? || v.EmptyState? ==> hasIdentity && !profileLoading && !recipesLoading && IsPro(PlanOf(profile))
    ensures v.Cards? <==>
      hasIdentity && !profileLoading && !recipesLoading && IsPro(PlanOf(profile)) && saved.Some? && |saved.value| > 0
    ensures v.Cards? ==> v.cards == CardsFor(saved.value, PlanOf(profile))
  {
    var plan := PlanOf(profile);
    if !hasIdentity then SignInRequired
    else if !profileLoading && !IsPro(plan) then ProGate
    else if recipesLoading || profileLoading then Skeleton
    else if saved.Some? && |saved.value| > 0 then Cards(CardsFor(saved.value, plan))
    else EmptyState
  }

  /** The remove button of the card showing `saved[i]` deletes exactly that recipe. */
  lemma RemoveTargetsItsCard(profile: Option<Profile>, saved: seq<Recipe>, i: int)
    requires 0 <= i < |saved|
    ensures var v := Render(true, false, false, profile, Some(saved));
      v.Cards? ==> v.cards[i].removes == saved[i].id && v.cards[i].recipe == saved[i]
    ensures Render(true, false, false, profile, Some(saved)).Cards? <==> IsPro(PlanOf(profile))
  {
  }

  /** The toast after the delete call settles. */
  function RemoveToast(succeeded: bool): (toast: string)
    ensures toast == RemovedToast <==> succeeded
    ensures toast == RemoveFailedToast <==> !succeeded
  {
    if succeeded then RemovedToast else RemoveFailedToast
  }

  /** `handleRemove(recipe.id)` from a card: the delete call it makes and the toast once it settles. */
  datatype Removal = Removal(deletes: string, toast: string)

  function HandleRemove(card: SavedCard, succeeded: bool): (r: Removal)
    ensures r.deletes == card.removes
    ensures r.toast == RemoveToast(succeeded)
  {
    Removal(card.removes, RemoveToast(succeeded))
  }

  /**
   * Pressing remove on the i-th card of the rendered page deletes the i-th
   * saved recipe and no other, and the toast tells the two outcomes apart:
   * two presses show the same toast exactly when their calls ended alike.
   */
  lemma RemoveReportsOutcome(profile: Option<Profile>, saved: seq<Recipe>, i: int, ok1: bool, ok2: bool)
    requires 0 <= i < |saved| && IsPro(PlanOf(profile))
    ensures var v := Render(true, false, false, profile, Some(saved));
      && v.Cards?
      && HandleRemove(v.cards[i], ok1).deletes == saved[i].id
      && (forall j :: 0 <= j < |saved| && saved[j].id != saved[i].id ==> HandleRemove(v.cards[i], ok1).deletes != saved[j].id)
      && (HandleRemove(v.cards[i], ok1).toast == HandleRemove(v.cards[i], ok2).toast <==> ok1 == ok2)
  {
    assert |RemovedToast| != |RemoveFailedToast|;
  }
}
