/**
 * The navigation bar: which links are listed for a visitor, and the plan
 * badge beside the sign-out button.
 */
module Navbar {
  import opened Wrappers
  import opened Domain
  import Seqs

  datatype NavLink = DashboardLink | SavedRecipesLink | MealPlannerLink | PricingLink | ProfileLink | AdminLink

  /** The `navLinks` array before filtering, in display order. */
  const AllLinks: seq<NavLink> :=
    [DashboardLink, SavedRecipesLink, MealPlannerLink, PricingLink, ProfileLink, AdminLink]

  /** Each entry's `show` flag; `isAdmin` is the admin query's data, falsy while absent. */
  predicate Shown(link: NavLink, authenticated: bool, plan: Option<Plan>, isAdmin: Option<bool>) {
    match link
    case DashboardLink => authenticated
    case SavedRecipesLink => authenticated && IsPro(plan)
    case MealPlannerLink => authenticated && IsPremium(plan)
    case PricingLink => true
    case ProfileLink => authenticated
    case AdminLink => authenticated && isAdmin == Some(true)
  }

  /** Every link appears in `AllLinks`. */
  lemma AllLinksComplete()
    ensures forall l: NavLink :: l in AllLinks
  {
    forall l: NavLink ensures l in AllLinks {
      match l
      case DashboardLink => assert AllLinks[0] == l;
      case SavedRecipesLink => assert AllLinks[1] == l;
      case MealPlannerLink => assert AllLinks[2] == l;
      case PricingLink => assert AllLinks[3] == l;
      case ProfileLink => assert AllLinks[4] == l;
      case AdminLink => assert AllLinks[5] == l;
    }
  }

  /** The `show` flags as a predicate on links. */
  function ShowFlags(authenticated: bool, plan: Option<Plan>, isAdmin: Option<bool>): NavLink -> bool {
    l => Shown(l, authenticated, plan, isAdmin)
  }

  /** One entry of `navLinks`, kept when its `show` flag holds. */
  function Keep(link: NavLink, show: bool): (r: seq<NavLink>)
    ensures forall l :: l in r <==> l == link && show
  {
    if show then [link] else []
  }

  /**
   * `navLinks.filter(l => l.show)`: the links whose `show` flag holds, in the
   * order of `AllLinks`.
   */
  function NavLinks(authenticated: bool, plan: Option<Plan>, isAdmin: Option<bool>): (links: seq<NavLink>)
    ensures forall l :: l in links <==> Shown(l, authenticated, plan, isAdmin)
  {
    var show := ShowFlags(authenticated, plan, isAdmin);
    Keep(DashboardLink, show(DashboardLink))
    + (Keep(SavedRecipesLink, show(SavedRecipesLink))
    + (Keep(MealPlannerLink, show(MealPlannerLink))
    + (Keep(PricingLink, show(PricingLink))
    + (Keep(ProfileLink, show(ProfileLink))
    + Keep(AdminLink, show(AdminLink))))))
  }

  /** The list is `AllLinks` filtered by the `show` flags. */
  lemma NavLinksIsFilter(authenticated: bool, plan: Option<Plan>, isAdmin: Option<bool>)
    ensures NavLinks(authenticated, plan, isAdmin) == Seqs.Filter(AllLinks, ShowFlags(authenticated, plan, isAdmin))
  {
    var keep := ShowFlags(authenticated, plan, isAdmin);
    AllLinksSpelled();
    FilterCons(DashboardLink, [SavedRecipesLink] + ([MealPlannerLink] + ([PricingLink] + [ProfileLink, AdminLink])), keep);
    FilterFromSaved(keep);
  }

  /** Filtering the tail of `AllLinks` that starts at saved recipes. */
  lemma FilterFromSaved(keep: NavLink -> bool)
    ensures Seqs.Filter([SavedRecipesLink] + ([MealPlannerLink] + ([PricingLink] + [ProfileLink, AdminLink])), keep)
      == Keep(SavedRecipesLink, keep(SavedRecipesLink)) + (Keep(MealPlannerLink, keep(MealPlannerLink))
         + (Keep(PricingLink, keep(PricingLink)) + (Keep(ProfileLink, keep(ProfileLink)) + Keep(AdminLink, keep(AdminLink)))))
  {
    FilterCons(SavedRecipesLink, [MealPlannerLink] + ([PricingLink] + [ProfileLink, AdminLink]), keep);
    FilterFromMealPlanner(keep);
  }

  /** Filtering the tail of `AllLinks` that starts at the meal planner. */
  lemma FilterFromMealPlanner(keep: NavLink -> bool)
    ensures Seqs.Filter([MealPlannerLink] + ([PricingLink] + [ProfileLink, AdminLink]), keep)
      == Keep(MealPlannerLink, keep(MealPlannerLink))
         + (Keep(PricingLink, keep(PricingLink)) + (Keep(ProfileLink, keep(ProfileLink)) + Keep(AdminLink, keep(AdminLink))))
  {
    FilterCons(MealPlannerLink, [PricingLink] + [ProfileLink, AdminLink], keep);
    FilterFromPricing(keep);
  }

  /** Filtering the tail of `AllLinks` that starts at pricing. */
  lemma FilterFromPricing(keep: NavLink -> bool)
    ensures Seqs.Filter([PricingLink] + [ProfileLink, AdminLink], keep)
      == Keep(PricingLink, keep(PricingLink)) + (Keep(ProfileLink, keep(ProfileLink)) + Keep(AdminLink, keep(AdminLink)))
  {
    FilterCons(PricingLink, [ProfileLink, AdminLink], keep);
    FilterFromProfile(keep);
  }

  /** Filtering the tail of `AllLinks` that starts at profile. */
  lemma FilterFromProfile(keep: NavLink -> bool)
    ensures Seqs.Filter([ProfileLink, AdminLink], keep) == Keep(ProfileLink, keep(ProfileLink)) + Keep(AdminLink, keep(AdminLink))
  {
    assert [ProfileLink, AdminLink] == [ProfileLink] + [AdminLink];
    FilterCons(ProfileLink, [AdminLink], keep);
    FilterCons(AdminLink, [], keep);
    assert [AdminLink] == [AdminLink] + [];
  }

  /** Filtering a list with a known first element. */
  lemma FilterCons(link: NavLink, rest: seq<NavLink>, keep: NavLink -> bool)
    ensures Seqs.Filter([link] + rest, keep) == Keep(link, keep(link)) + Seqs.Filter(rest, keep)
  {
    assert ([link] + rest)[1..] == rest;
  }

  /** `AllLinks` as a chain of one-element lists. */
  lemma AllLinksSpelled()
    ensures AllLinks == [DashboardLink] + ([SavedRecipesLink] + ([MealPlannerLink] + ([PricingLink] + [ProfileLink, AdminLink])))
  {
  }

  /**
   * Pricing is always listed; saved recipes exactly for a signed-in pro or
   * premium user, the meal planner exactly for a signed-in premium user (so
   * never without saved recipes), the admin link exactly for a signed-in
   * admin, dashboard and profile exactly when signed in.
   */
  lemma NavLinksByTier(authenticated: bool, plan: Option<Plan>, isAdmin: Option<bool>)
    ensures var links := NavLinks(authenticated, plan, isAdmin);
      && PricingLink in links
      && (SavedRecipesLink in links <==> authenticated && (plan == Some(Pro) || plan == Some(Premium)))
      && (MealPlannerLink in links <==> authenticated && plan == Some(Premium))
      && (AdminLink in links <==> authenticated && isAdmin == Some(true))
      && (DashboardLink in links <==> authenticated)
      && (ProfileLink in links <==> authenticated)
      && (MealPlannerLink in links ==> SavedRecipesLink in links)
  {
  }

  /** A visitor who is not signed in sees exactly one link: Pricing. */
  lemma SignedOutSeesOnlyPricing(plan: Option<Plan>, isAdmin: Option<bool>)
    ensures NavLinks(false, plan, isAdmin) == [PricingLink]
  {
  }

  /**
   * The badge beside the sign-out button: shown only to a signed-in user with
   * a profile, reading that profile's plan name.
   */
  function PlanBadge(authenticated: bool, profile: Option<Profile>): (badge: Option<string>)
    ensures badge.Some? <==> authenticated && profile.Some?
    ensures badge.Some? ==> ParsePlan(badge.value) == PlanOf(profile)
  {
    if authenticated && profile.Some? then Some(PlanName(profile.value.planType)) else None
  }
}
