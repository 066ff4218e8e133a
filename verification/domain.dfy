/**
 * The records the backend returns (subscription tier, user profile, recipe)
 * and the tier tests that several screens share verbatim.
 */
module Domain {
  import opened Wrappers

  /** The backend's `PlanType` enumeration. */
  datatype Plan = Free | Pro | Premium

  /** The enumeration's string value, which `String(planType)` yields. */
  function PlanName(p: Plan): string {
    match p
    case Free => "free"
    case Pro => "pro"
    case Premium => "premium"
  }

  /**
   * Reading a plan back from its string value: exactly the three names are
   * recognised, and each is read as the plan it names.
   */
  function ParsePlan(s: string): (r: Option<Plan>)
    ensures r.Some? <==> s == "free" || s == "pro" || s == "premium"
    ensures r.Some? ==> PlanName(r.value) == s
  {
    if s == "free" then Some(Free)
    else if s == "pro" then Some(Pro)
    else if s == "premium" then Some(Premium)
    else None
  }

  /** Every plan's string value reads back as that plan. */
  lemma ParsePlanName(p: Plan)
    ensures ParsePlan(PlanName(p)) == Some(p)
  {
  }

  /**
   * `UserProfile`: all five fields are required by the backend's record type.
   * `createdAt` is in nanoseconds.
   */
  datatype Profile = Profile(
    email: string,
    planType: Plan,
    dailyRecipeCount: nat,
    dailyLimit: nat,
    createdAt: nat)

  /**
   * The profile query's `data`: `undefined` before the query has produced a
   * value, `null` when the backend reports no profile for the caller.
   */
  datatype ProfileData = Undefined | Null | Present(profile: Profile) {
    /** `userProfile?.x` treats `undefined` and `null` alike. */
    function AsOption(): Option<Profile> {
      if Present? then Some(profile) else None
    }
  }

  /** The daily limit the screens assume when there is no profile. */
  const DefaultDailyLimit: nat := 5

  /** `Number(userProfile?.dailyRecipeCount ?? 0)`. */
  function DailyCount(profile: Option<Profile>): nat {
    if profile.Some? then profile.value.dailyRecipeCount else 0
  }

  /** `Number(userProfile?.dailyLimit ?? 5)`. */
  function DailyLimit(profile: Option<Profile>): nat {
    if profile.Some? then profile.value.dailyLimit else DefaultDailyLimit
  }

  /** `userProfile?.planType`: absent exactly when the profile is. */
  function PlanOf(profile: Option<Profile>): Option<Plan> {
    if profile.Some? then Some(profile.value.planType) else None
  }

  /** `planType === PlanType.pro || planType === PlanType.premium`. */
  predicate IsPro(plan: Option<Plan>) {
    plan == Some(Pro) || plan == Some(Premium)
  }

  /** `planType === PlanType.premium`. */
  predicate IsPremium(plan: Option<Plan>) {
    plan == Some(Premium)
  }

  /** Premium access includes pro access. */
  lemma PremiumIsPro(plan: Option<Plan>)
    ensures IsPremium(plan) ==> IsPro(plan)
    ensures IsPro(plan) <==> plan.Some? && plan.value != Free
  {
  }

  /**
   * `userProfile?.planType ? String(userProfile.planType) : 'free'`: the
   * plan's string value, or "free" without a profile. The key always names a
   * plan, and it names the profile's plan when there is one.
   */
  function PlanKey(profile: Option<Profile>): (key: string)
    ensures profile.None? ==> key == "free"
    ensures ParsePlan(key) == Some(PlanOf(profile).GetOr(Free))
  {
    if profile.Some? then PlanName(profile.value.planType) else "free"
  }

  /**
   * A generated or saved recipe. Only the identifier matters to the logic
   * modelled here; title, ingredients, steps and nutrition are display data.
   */
  datatype Recipe = Recipe(id: string)
}
