/**
 * The recipe-generation dashboard: free-tier quota figures, the ingredient
 * chip list, the generate handler with its pre-flight checks and failure
 * classification, and what the page renders.
 */
module Dashboard {
  import opened Wrappers
  import opened Domain
  import Text
  import Seqs

  const EmptyListToast := "Please add at least one ingredient"
  const LimitReachedToast := "Daily limit reached. Upgrade to Pro for unlimited recipes!"
  const GeneratedToast := "Recipe generated! 🍳"
  const ServerLimitToast := "Daily limit reached! Upgrade to Pro for unlimited recipes."
  const LoginToast := "Please log in to generate recipes."
  const RetryToast := "Failed to generate recipe. Please try again."

  /** `planType === PlanType.free || planType === undefined`. */
  predicate IsFree(plan: Option<Plan>) {
    plan == Some(Free) || plan == None
  }

  /**
   * `isFree && dailyCount >= dailyLimit`. Because the defaults are 0 and 5,
   * only a free profile whose counter has reached its limit is limited: no
   * profile is never limited, and pro or premium never are, whatever their
   * counters say.
   */
  function LimitReached(profile: Option<Profile>): (r: bool)
    ensures r <==> profile.Some? && profile.value.planType == Free
                   && profile.value.dailyRecipeCount >= profile.value.dailyLimit
    ensures IsPro(PlanOf(profile)) ==> !r
  {
    IsFree(PlanOf(profile)) && DailyCount(profile) >= DailyLimit(profile)
  }

  /**
   * `dailyLimit > 0 ? Math.min((dailyCount / dailyLimit) * 100, 100) : 0`,
   * in exact arithmetic: a percentage in [0, 100] that is 0 for a zero limit
   * (no division), 100 once the count reaches the limit, and otherwise the
   * exact ratio.
   */
  function UsagePercent(count: nat, limit: nat): (pct: real)
    ensures 0.0 <= pct <= 100.0
    ensures limit == 0 ==> pct == 0.0
    ensures limit > 0 && count >= limit ==> pct == 100.0
    ensures limit > 0 && count < limit ==> pct < 100.0 && pct * (limit as real) == (count as real) * 100.0
  {
    if limit > 0 then
      var ratio := (count as real / limit as real) * 100.0;
      RatioBound(count, limit);
      if ratio < 100.0 then ratio else 100.0
    else 0.0
  }

  /** The unclamped percentage is below 100 exactly when the count is below the limit. */
  lemma RatioBound(count: nat, limit: nat)
    requires limit > 0
    ensures (count as real / limit as real) * 100.0 < 100.0 <==> count < limit
    ensures (count as real / limit as real) * 100.0 * (limit as real) == (count as real) * 100.0
    ensures 0.0 <= (count as real / limit as real) * 100.0
  {
    var l := limit as real;
    var q := count as real / l;
    assert q * l == count as real;
    ScaleBelowOne(q, l);
  }

  /** For a positive scale, a factor is below one exactly when the product is below the scale. */
  lemma ScaleBelowOne(q: real, l: real)
    requires l > 0.0
    ensures q < 1.0 <==> q * l < l
  {
    if q < 1.0 {
      assert (1.0 - q) * l > 0.0;
    } else {
      assert (q - 1.0) * l >= 0.0;
    }
  }

  /** More recipes used never shows less progress. */
  lemma UsagePercentMonotone(c1: nat, c2: nat, limit: nat)
    requires c1 <= c2
    ensures UsagePercent(c1, limit) <= UsagePercent(c2, limit)
  {
    if limit > 0 {
      RatioBound(c1, limit);
      RatioBound(c2, limit);
      var l := limit as real;
      var q1 := c1 as real / l;
      var q2 := c2 as real / l;
      assert (q2 - q1) * l == c2 as real - c1 as real;
      if q2 < q1 {
        assert (q2 - q1) * l < 0.0;
      }
    }
  }

  /** The usage box shown to free users above the ingredient form. */
  datatype UsageCounter =
    | NoCounter
    | LimitNotice(count: nat, limit: nat, percent: real)
    | RemainingNotice(count: nat, limit: nat, percent: real, remaining: int)

  /**
   * The usage box: rendered only for a free profile; it announces the limit
   * exactly when `LimitReached` holds, and otherwise says how many recipes
   * remain, which is then always at least one.
   */
  function Counter(profile: Option<Profile>): (c: UsageCounter)
    ensures c != NoCounter <==> profile.Some? && profile.value.planType == Free
    ensures c.LimitNotice? <==> LimitReached(profile)
    ensures c.RemainingNotice? ==> c.remaining == c.limit - c.count && c.remaining >= 1
    ensures c != NoCounter ==> c.count == profile.value.dailyRecipeCount && c.limit == profile.value.dailyLimit
    ensures c != NoCounter ==> c.percent == UsagePercent(c.count, c.limit)
  {
    var count := DailyCount(profile);
    var limit := DailyLimit(profile);
    var pct := UsagePercent(count, limit);
    if IsFree(PlanOf(profile)) && profile.Some? then
      if LimitReached(profile) then LimitNotice(count, limit, pct)
      else RemainingNotice(count, limit, pct, limit - count)
    else NoCounter
  }

  /** The ingredient text field and the chip list. */
  datatype IngredientForm = IngredientForm(input: string, ingredients: seq<string>)

  /** The pieces `addIngredient` reads from the field: it splits the trimmed input. */
  function InputPieces(input: string): seq<string> {
    Text.CommaList(Text.Trim(input))
  }

  /**
   * The pieces not already among the chips, in order and with their
   * multiplicity (`parts.filter(p => !ingredients.includes(p))`).
   */
  function NewChips(pieces: seq<string>, existing: seq<string>): (r: seq<string>)
    ensures Seqs.IsSubsequence(r, pieces)
    ensures forall p :: p in r <==> p in pieces && p !in existing
    ensures forall p :: p !in existing ==> multiset(r)[p] == multiset(pieces)[p]
  {
    Seqs.Filter(pieces, p => p !in existing)
  }

  /**
   * `addIngredient`. A blank field changes nothing at all. Otherwise the
   * field is cleared and the chips become the old chips followed by the
   * pieces not already among them, in input order. Duplicates are checked
   * only against the old chips, so a piece repeated within one input is
   * appended once per occurrence.
   */
  function AddIngredient(form: IngredientForm): (r: IngredientForm)
    ensures Text.IsBlank(form.input) ==> r == form
    ensures !Text.IsBlank(form.input) ==>
      r.input == "" && |form.ingredients| <= |r.ingredients| && r.ingredients[..|form.ingredients|] == form.ingredients
    ensures !Text.IsBlank(form.input) ==>
      var prior := form.ingredients;
      var pieces := InputPieces(form.input);
      var added := r.ingredients[|prior|..];
      && Seqs.IsSubsequence(added, pieces)
      && (forall p :: p in added <==> p in pieces && p !in prior)
      && (forall p :: p !in prior ==> multiset(added)[p] == multiset(pieces)[p])
  {
    var trimmed := Text.Trim(form.input);
    if trimmed == "" then form
    else
      var existing := form.ingredients;
      var novel := NewChips(InputPieces(form.input), existing);
      assert (existing + novel)[..|existing|] == existing;
      assert (existing + novel)[|existing|..] == novel;
      IngredientForm("", existing + novel)
  }

  /** Every chip added by one call is a proper list entry: non-empty, trimmed, comma-free. */
  lemma AddedChipsAreEntries(form: IngredientForm)
    ensures var r := AddIngredient(form);
      forall i :: |form.ingredients| <= i < |r.ingredients| ==> Text.IsListEntry(r.ingredients[i])
  {
    var r := AddIngredient(form);
    if !Text.IsBlank(form.input) {
      var pieces := InputPieces(form.input);
      var added := r.ingredients[|form.ingredients|..];
      forall i | |form.ingredients| <= i < |r.ingredients|
        ensures Text.IsListEntry(r.ingredients[i])
      {
        assert r.ingredients[i] == added[i - |form.ingredients|];
        assert r.ingredients[i] in pieces;
      }
    }
  }

  /** A chip already present is never added a second time. */
  lemma NoChipAddedTwiceAgainstOldList(form: IngredientForm, x: string)
    requires x in form.ingredients
    ensures multiset(AddIngredient(form).ingredients)[x] == multiset(form.ingredients)[x]
  {
    var r := AddIngredient(form);
    if !Text.IsBlank(form.input) {
      var n := |form.ingredients|;
      assert r.ingredients == r.ingredients[..n] + r.ingredients[n..];
      assert x !in r.ingredients[n..];
    }
  }

  /** An entry typed twice, separated by a comma, reads as two pieces. */
  lemma PiecesOfRepeatedInput(x: string)
    requires Text.IsListEntry(x)
    ensures InputPieces(x + [','] + x) == [x, x]
  {
    var s := x + [','] + x;
    assert Text.Join([x, x], ',') == s by {
      assert [x, x][1..] == [x];
    }
    assert s[0] == x[0] && s[|s| - 1] == x[|x| - 1];
    Text.TrimFixed(s);
    Text.CommaListJoin([x, x]);
  }

  /**
   * "No duplicates" is not an invariant: one input naming a new entry twice
   * ("a,a" on an empty list) adds it twice.
   */
  lemma RepeatedPieceAddedTwice(x: string)
    requires Text.IsListEntry(x)
    ensures AddIngredient(IngredientForm(x + [','] + x, [])).ingredients == [x, x]
  {
    var form := IngredientForm(x + [','] + x, []);
    PiecesOfRepeatedInput(x);
    assert Text.Trim(form.input) != "";
    AddIngredientAppends(form);
    Seqs.FilterAllKept([x, x], p => p !in []);
  }

  /** For a non-blank field the chips become the old chips followed by the new ones. */
  lemma AddIngredientAppends(form: IngredientForm)
    requires Text.Trim(form.input) != ""
    ensures AddIngredient(form).ingredients
      == form.ingredients + NewChips(InputPieces(form.input), form.ingredients)
  {
  }

  /**
   * `removeIngredient(ing)`: every occurrence of `ing` is gone, the other
   * chips keep their order and their multiplicities.
   */
  function RemoveIngredient(ingredients: seq<string>, ing: string): (r: seq<string>)
    ensures ing !in r
    ensures Seqs.IsSubsequence(r, ingredients)
    ensures forall y :: y != ing ==> multiset(r)[y] == multiset(ingredients)[y]
  {
    Seqs.Filter(ingredients, i => i != ing)
  }

  /** What pressing Generate does before any backend call. */
  datatype GenerateStep = Reject(toast: string) | RequestRecipe(ingredients: seq<string>)

  /**
   * The pre-flight part of `handleGenerate`: the backend is called, with the
   * chip list, exactly when the list is non-empty and the limit is not
   * reached; the empty-list check comes first.
   */
  function HandleGenerate(ingredients: seq<string>, profile: Option<Profile>): (step: GenerateStep)
    ensures step.RequestRecipe? <==> |ingredients| > 0 && !LimitReached(profile)
    ensures step.RequestRecipe? ==> step.ingredients == ingredients
    ensures |ingredients| == 0 ==> step == Reject(EmptyListToast)
    ensures |ingredients| > 0 && LimitReached(profile) ==> step == Reject(LimitReachedToast)
  {
    if |ingredients| == 0 then Reject(EmptyListToast)
    else if LimitReached(profile) then Reject(LimitReachedToast)
    else RequestRecipe(ingredients)
  }

  /** `ingredients.length === 0 || generateRecipe.isPending || limitReached`. */
  predicate GenerateDisabled(ingredients: seq<string>, pending: bool, profile: Option<Profile>) {
    |ingredients| == 0 || pending || LimitReached(profile)
  }

  /**
   * The button and the handler agree: the button is enabled exactly when no
   * request is pending and pressing it would reach the backend.
   */
  lemma GenerateButtonMatchesHandler(ingredients: seq<string>, pending: bool, profile: Option<Profile>)
    ensures !GenerateDisabled(ingredients, pending, profile)
      <==> !pending && HandleGenerate(ingredients, profile).RequestRecipe?
  {
  }

  /**
   * The toast for a failed generation: the error's message (empty when it
   * has none) is searched for "Daily limit" first, then "Unauthorized";
   * anything else gets the generic retry message.
   */
  function FailureToast(errorMessage: Option<string>): (toast: string)
    ensures var m := errorMessage.GetOr("");
      && (Text.Contains(m, "Daily limit") ==> toast == ServerLimitToast)
      && (!Text.Contains(m, "Daily limit") && Text.Contains(m, "Unauthorized") ==> toast == LoginToast)
      && (!Text.Contains(m, "Daily limit") && !Text.Contains(m, "Unauthorized") ==> toast == RetryToast)
  {
    var msg := errorMessage.GetOr("");
    if Text.Contains(msg, "Daily limit") then ServerLimitToast
    else if Text.Contains(msg, "Unauthorized") then LoginToast
    else RetryToast
  }

  /** A message mentioning both conditions is classified as the daily limit. */
  lemma DailyLimitTakesPrecedence(prefix: string, middle: string, suffix: string)
    ensures FailureToast(Some(prefix + "Unauthorized" + middle + "Daily limit" + suffix)) == ServerLimitToast
  {
    var m := prefix + "Unauthorized" + middle + "Daily limit" + suffix;
    var i := |prefix| + |"Unauthorized"| + |middle|;
    assert m[i..i + |"Daily limit"|] == "Daily limit";
    assert Text.OccursAt(m, "Daily limit", i);
    Text.ContainsIffOccurs(m, "Daily limit");
  }

  /** An error without a message gets the generic retry toast. */
  lemma MissingMessageIsGeneric()
    ensures FailureToast(None) == RetryToast
  {
  }

  /** The outcome of the backend call. */
  datatype GenerateOutcome = Generated(recipe: Recipe) | Failed(message: Option<string>)

  /**
   * The settling part of `handleGenerate`: a generated recipe replaces the
   * one on display; a failure keeps it and only raises a toast.
   */
  function SettleGenerate(shown: Option<Recipe>, outcome: GenerateOutcome): (r: (Option<Recipe>, string))
    ensures outcome.Generated? ==> r == (Some(outcome.recipe), GeneratedToast)
    ensures outcome.Failed? ==> r.0 == shown && r.1 == FailureToast(outcome.message)
  {
    match outcome
    case Generated(recipe) => (Some(recipe), GeneratedToast)
    case Failed(message) => (shown, FailureToast(message))
  }

  /**
   * A whole press of Generate: the pre-flight checks, and, when they pass,
   * the settling of the call with its outcome. The result is the recipe on
   * display and the toast shown.
   */
  function PressGenerate(ingredients: seq<string>, profile: Option<Profile>, shown: Option<Recipe>, outcome: GenerateOutcome)
    : (r: (Option<Recipe>, string))
    ensures HandleGenerate(ingredients, profile).Reject? ==> r == (shown, HandleGenerate(ingredients, profile).toast)
    ensures HandleGenerate(ingredients, profile).RequestRecipe? ==> r == SettleGenerate(shown, outcome)
  {
    match HandleGenerate(ingredients, profile)
    case Reject(toast) => (shown, toast)
    case RequestRecipe(_) => SettleGenerate(shown, outcome)
  }

  /**
   * What a press can do to the screen: the recipe on display changes only
   * when the backend was called and answered with a recipe, which is then the
   * one displayed; a recipe on display never disappears; and the success
   * toast appears exactly for a call that was made and succeeded.
   */
  lemma DisplayedRecipeComesFromBackend(
    ingredients: seq<string>, profile: Option<Profile>, shown: Option<Recipe>, outcome: GenerateOutcome)
    ensures var r := PressGenerate(ingredients, profile, shown, outcome);
      && (r.0 != shown ==> HandleGenerate(ingredients, profile).RequestRecipe? && outcome == Generated(r.0.value))
      && (shown.Some? ==> r.0.Some?)
      && (r.1 == GeneratedToast <==> HandleGenerate(ingredients, profile).RequestRecipe? && outcome.Generated?)
  {
    var r := PressGenerate(ingredients, profile, shown, outcome);
    // The success toast is shorter than every other toast of the page.
    assert |GeneratedToast| < 30;
    assert |EmptyListToast| > 30 && |LimitReachedToast| > 30 && |ServerLimitToast| > 30;
    assert |LoginToast| > 30 && |RetryToast| > 30;
    if outcome.Failed? {
      var t := FailureToast(outcome.message);
      assert t == ServerLimitToast || t == LoginToast || t == RetryToast;
    }
  }

  /**
   * `showProfileSetup`: the setup dialog opens for a signed-in caller whose
   * profile query finished and returned `null` (not while it is still
   * `undefined`).
   */
  predicate ShowProfileSetup(authenticated: bool, profileLoading: bool, isFetched: bool, data: ProfileData) {
    authenticated && !profileLoading && isFetched && data == Null
  }

  /** The dashboard as rendered. */
  datatype DashboardView =
    | SignInPrompt
    | Workspace(
        setupOpen: bool,
        counter: UsageCounter,
        inputDisabled: bool,
        addDisabled: bool,
        generateDisabled: bool,
        adSlot: bool,
        nutritionShown: bool)

  /**
   * The page: the sign-in prompt without an identity; otherwise the
   * workspace, whose ad slot is kept exactly for non-pro plans and whose
   * nutrition panel is shown exactly for premium.
   */
  function Render(
    authenticated: bool, profileLoading: bool, isFetched: bool, data: ProfileData,
    form: IngredientForm, pending: bool): (v: DashboardView)
    ensures v.SignInPrompt? <==> !authenticated
    ensures v.Workspace? ==> v.setupOpen == ShowProfileSetup(authenticated, profileLoading, isFetched, data)
    ensures v.Workspace? ==> v.counter == Counter(data.AsOption())
    ensures v.Workspace? ==> (v.adSlot <==> !IsPro(PlanOf(data.AsOption())))
    ensures v.Workspace? ==> (v.nutritionShown <==> IsPremium(PlanOf(data.AsOption())))
    ensures v.Workspace? ==> (v.inputDisabled <==> pending)
    ensures v.Workspace? ==> (v.addDisabled <==> Text.IsBlank(form.input) || pending)
    ensures v.Workspace? ==> (v.generateDisabled <==> GenerateDisabled(form.ingredients, pending, data.AsOption()))
  {
    if !authenticated then SignInPrompt
    else
      var profile := data.AsOption();
      Workspace(
        ShowProfileSetup(authenticated, profileLoading, isFetched, data),
        Counter(profile),
        pending,
        Text.Trim(form.input) == "" || pending,
        GenerateDisabled(form.ingredients, pending, profile),
        IsFree(PlanOf(profile)),
        PlanOf(profile) == Some(Premium))
  }

  /** While the setup dialog is open there is no profile: no usage box, and generation is not limit-blocked. */
  lemma SetupDialogMeansNoQuota(authenticated: bool, profileLoading: bool, isFetched: bool, data: ProfileData)
    requires ShowProfileSetup(authenticated, profileLoading, isFetched, data)
    ensures Counter(data.AsOption()) == NoCounter
    ensures !LimitReached(data.AsOption())
  {
  }
}
