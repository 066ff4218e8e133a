/**
 * Each screen re-derives the plan tests on its own: the dashboard from the
 * plan value, the profile and pricing pages from the plan's string key, the
 * navigation bar and the gated pages from the plan value again. These
 * lemmas show that the derivations agree, and follow a profile from its
 * creation and its upgrade through the screens.
 */
module Agreement {
  import opened Wrappers
  import opened Domain
  import Dashboard
  import ProfilePage
  import Navbar
  import SavedRecipes
  import MealPlanner
  import AdBanner
  import Admin
  import Pricing
  import ProfileSetup

  /** "Free or no plan" and "pro or premium" split every plan value in two. */
  lemma FreeIsNotPro(plan: Option<Plan>)
    ensures Dashboard.IsFree(plan) <==> !IsPro(plan)
  {
    PremiumIsPro(plan);
  }

  /** The string-keyed tests agree with the tests on the plan value. */
  lemma KeyTestsAgree(profile: Option<Profile>)
    ensures PlanKey(profile) == "free" <==> Dashboard.IsFree(PlanOf(profile))
    ensures PlanKey(profile) == "pro" || PlanKey(profile) == "premium" <==> IsPro(PlanOf(profile))
    ensures PlanKey(profile) == "premium" <==> IsPremium(PlanOf(profile))
  {
    if profile.Some? {
      ParsePlanName(profile.value.planType);
    }
  }

  /** A banner that was not dismissed shows exactly for the plans the dashboard calls free. */
  lemma AdShownIffFree(plan: Option<Plan>)
    ensures AdBanner.Visible(AdBanner.Mount(plan)) <==> Dashboard.IsFree(plan)
    ensures AdBanner.Visible(AdBanner.Mount(plan)) <==> !IsPro(plan)
  {
    FreeIsNotPro(plan);
  }

  /**
   * For a signed-in user whose profile has loaded, the navigation bar lists
   * saved recipes exactly when that page lets them in, the meal planner
   * exactly when that page does, and the admin link exactly when the admin
   * page shows its panel.
   */
  lemma NavLinksMatchPageGates(profile: Option<Profile>, saved: Option<seq<Recipe>>, isAdmin: Option<bool>)
    ensures var links := Navbar.NavLinks(true, PlanOf(profile), isAdmin);
      && (Navbar.SavedRecipesLink in links <==> !SavedRecipes.Render(true, false, false, profile, saved).ProGate?)
      && (Navbar.MealPlannerLink in links <==> MealPlanner.Gate(true, false, profile).Planner?)
      && (Navbar.AdminLink in links <==> Admin.Gate(true, false, isAdmin).Panel?)
  {
    Navbar.NavLinksByTier(true, PlanOf(profile), isAdmin);
  }

  /** The profile page's quick links agree with the navigation bar's gated links. */
  lemma QuickLinksMatchNavbar(profile: Option<Profile>, isAdmin: Option<bool>)
    ensures var links := Navbar.NavLinks(true, PlanOf(profile), isAdmin);
      var cards := ProfilePage.QuickLinks(PlanKey(profile));
      && (ProfilePage.SavedRecipesCard in cards <==> Navbar.SavedRecipesLink in links)
      && (ProfilePage.MealPlannerCard in cards <==> Navbar.MealPlannerLink in links)
  {
    KeyTestsAgree(profile);
    Navbar.NavLinksByTier(true, PlanOf(profile), isAdmin);
  }

  /** The profile page shows the usage line exactly to the users the dashboard counts as free. */
  lemma UsageLineMatchesDashboard(profile: Option<Profile>)
    ensures ProfilePage.Render(true, false, profile).subscription.usedToday.Some?
      <==> Dashboard.IsFree(PlanOf(profile))
  {
    KeyTestsAgree(profile);
  }

  /** The pricing page and the profile page agree on the current plan and its name. */
  lemma CurrentPlanAgrees(profile: Option<Profile>)
    ensures Pricing.CurrentPlan(profile) == PlanKey(profile)
    ensures Pricing.IsCurrent(profile, Pricing.FreeOffer) <==> Dashboard.IsFree(PlanOf(profile))
    ensures ProfilePage.CardFor(Pricing.CurrentPlan(profile)).labelText
      == Pricing.OfferOf(PlanOf(profile).GetOr(Free)).name
  {
    KeyTestsAgree(profile);
    ProfilePage.CardForProfile(profile);
  }

  /**
   * A profile as the setup dialog saves it: free, unlimited by nothing yet,
   * five recipes left, the banner shown, the pro and premium pages gated, and
   * its creation time read back as the clock it was made from.
   */
  lemma NewProfileAcrossScreens(email: string, nowMillis: nat)
    requires nowMillis > 0
    ensures var p := Some(ProfileSetup.InitialProfile(email, nowMillis));
      && !Dashboard.LimitReached(p)
      && Dashboard.Counter(p).RemainingNotice?
      && Dashboard.Counter(p).remaining == 5
      && AdBanner.Visible(AdBanner.Mount(PlanOf(p)))
      && SavedRecipes.Render(true, false, false, p, None).ProGate?
      && MealPlanner.Gate(true, false, p).PremiumGate?
      && ProfilePage.MemberSinceText(p) == ProfilePage.Since(nowMillis as real)
  {
    var p := ProfileSetup.InitialProfile(email, nowMillis);
    assert p.createdAt == nowMillis * 1000000;
  }

  /**
   * A profile after the upgrade the payment-return page asks for: never
   * limited, no usage box, no banner, saved recipes open and the meal
   * planner still gated.
   */
  lemma UpgradedProfileAcrossScreens(p: Profile)
    ensures var q := Some(p.(planType := Pro));
      && !Dashboard.LimitReached(q)
      && Dashboard.Counter(q) == Dashboard.NoCounter
      && !AdBanner.Visible(AdBanner.Mount(PlanOf(q)))
      && !SavedRecipes.Render(true, false, false, q, None).ProGate?
      && MealPlanner.Gate(true, false, q).PremiumGate?
  {
  }
}
