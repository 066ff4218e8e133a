/**
 * The profile page: the string-keyed plan-card table with its free fallback,
 * the usage line, the account fields with their placeholders, and the
 * plan-dependent quick links.
 */
module ProfilePage {
  import opened Wrappers
  import opened Domain

  /** One row of the `planFeatures` table. */
  datatype PlanCard = PlanCard(labelText: string, features: seq<string>, color: string)

  const FreeCard := PlanCard(
    "Free",
    ["5 recipes per day", "Basic recipe generation", "Share recipes", "Ad-supported"],
    "bg-muted text-muted-foreground")

  const ProCard := PlanCard(
    "Pro",
    ["Unlimited recipes", "Save favorites", "Download recipes", "No ads", "Priority generation"],
    "bg-primary text-primary-foreground")

  const PremiumCard := PlanCard(
    "Premium",
    ["Everything in Pro", "Weekly meal planner", "Grocery list generation", "Nutrition breakdown", "Leftover suggestions"],
    "bg-primary text-primary-foreground")

  /** The table's row for each plan. */
  function CardOf(p: Plan): PlanCard {
    match p
    case Free => FreeCard
    case Pro => ProCard
    case Premium => PremiumCard
  }

  /** `planFeatures[key]`: only the table's three own keys have rows. */
  function CardTable(key: string): Option<PlanCard> {
    if key == "free" then Some(FreeCard)
    else if key == "pro" then Some(ProCard)
    else if key == "premium" then Some(PremiumCard)
    else None
  }

  /**
   * `planFeatures[planKey] || planFeatures.free`: total; a key naming a plan
   * gets that plan's row, any other key the free row.
   */
  function CardFor(key: string): (card: PlanCard)
    ensures ParsePlan(key).Some? ==> card == CardOf(ParsePlan(key).value)
    ensures ParsePlan(key).None? ==> card == FreeCard
  {
    CardTable(key).GetOr(FreeCard)
  }

  /** The card shown for a profile is its plan's card, and the free card without one. */
  lemma CardForProfile(profile: Option<Profile>)
    ensures CardFor(PlanKey(profile)) == CardOf(PlanOf(profile).GetOr(Free))
    ensures profile.None? ==> CardFor(PlanKey(profile)) == FreeCard
  {
  }

  /** `userProfile?.email || 'Not set'`: the empty string counts as missing. */
  function EmailText(profile: Option<Profile>): (text: string)
    ensures text == "Not set" <==> profile.None? || profile.value.email == "" || profile.value.email == "Not set"
    ensures text != "Not set" ==> text == profile.value.email
  {
    if profile.Some? && profile.value.email != "" then profile.value.email else "Not set"
  }

  /** The "Member Since" cell: a date, or "N/A". */
  datatype MemberSince = NotAvailable | Since(millis: real)

  /**
   * `userProfile?.createdAt ? new Date(Number(createdAt) / 1_000_000) : 'N/A'`:
   * a zero timestamp is falsy, so it shows "N/A" like a missing one; otherwise
   * the nanosecond timestamp is shown as milliseconds.
   */
  function MemberSinceText(profile: Option<Profile>): (m: MemberSince)
    ensures m.NotAvailable? <==> profile.None? || profile.value.createdAt == 0
    ensures m.Since? ==> m.millis * 1000000.0 == profile.value.createdAt as real
  {
    if profile.Some? && profile.value.createdAt != 0 then
      Since(profile.value.createdAt as real / 1000000.0)
    else NotAvailable
  }

  /** The cards under the profile. */
  datatype QuickLink = DashboardCard | SavedRecipesCard | MealPlannerCard

  /**
   * The quick links: the dashboard always, saved recipes for the "pro" and
   * "premium" keys, the meal planner for "premium" only, in that order.
   */
  function QuickLinks(key: string): (links: seq<QuickLink>)
    ensures |links| >= 1 && links[0] == DashboardCard
    ensures SavedRecipesCard in links <==> key == "pro" || key == "premium"
    ensures MealPlannerCard in links <==> key == "premium"
    ensures MealPlannerCard in links ==> links == [DashboardCard, SavedRecipesCard, MealPlannerCard]
  {
    [DashboardCard]
    + (if key == "pro" || key == "premium" then [SavedRecipesCard] else [])
    + (if key == "premium" then [MealPlannerCard] else [])
  }

  /** The "Account Info" card. */
  datatype AccountInfo = InfoSkeleton | Info(email: string, memberSince: MemberSince)

  /** The "Subscription" card: the plan card, the free-tier usage line and the upgrade button. */
  datatype Subscription =
    | SubscriptionSkeleton
    | SubscriptionCard(card: PlanCard, usedToday: Option<(nat, nat)>, upgradeButton: bool)

  datatype ProfileView =
    | SignInRequired
    | ProfileScreen(info: AccountInfo, subscription: Subscription, links: seq<QuickLink>)

  /**
   * The page: the sign-in screen without an identity; skeletons while the
   * profile loads; otherwise the cards. The "used today" line and the upgrade
   * button appear exactly when the plan key is "free", and the usage figures
   * fall back to 0 of 5 without a profile.
   */
  function Render(hasIdentity: bool, isLoading: bool, profile: Option<Profile>): (v: ProfileView)
    ensures v.SignInRequired? <==> !hasIdentity
    ensures v.ProfileScreen? ==> (v.info.InfoSkeleton? <==> isLoading)
    ensures v.ProfileScreen? ==> (v.subscription.SubscriptionSkeleton? <==> isLoading)
    ensures v.ProfileScreen? && !isLoading ==>
      && v.subscription.card == CardFor(PlanKey(profile))
      && (v.subscription.upgradeButton <==> PlanKey(profile) == "free")
      && (v.subscription.usedToday.Some? <==> PlanKey(profile) == "free")
      && (v.subscription.usedToday.Some? && profile.None? ==> v.subscription.usedToday.value == (0, 5))
      && (v.subscription.usedToday.Some? && profile.Some? ==>
            v.subscription.usedToday.value == (profile.value.dailyRecipeCount, profile.value.dailyLimit))
    ensures v.ProfileScreen? ==> v.links == QuickLinks(PlanKey(profile))
  {
    if !hasIdentity then SignInRequired
    else
      var key := PlanKey(profile);
      var info := if isLoading then InfoSkeleton else Info(EmailText(profile), MemberSinceText(profile));
      var sub :=
        if isLoading then SubscriptionSkeleton
        else SubscriptionCard(
          CardFor(key),
          if key == "free" then Some((DailyCount(profile), DailyLimit(profile))) else None,
          key == "free");
      ProfileScreen(info, sub, QuickLinks(key))
  }
}
