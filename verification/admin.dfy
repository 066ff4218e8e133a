/**
 * The admin page: the plan badge's style lookup, the revenue estimate over
 * the user list, the statistics defaults, the order of the page's early
 * returns, the Stripe section inside the panel, and the bookkeeping of which user's plan is being changed.
 */
module Admin {
  import opened Wrappers
  import opened Domain
  import Text
  import PaymentSetup

  const FreeStyle := "bg-muted text-muted-foreground"
  const ProStyle := "bg-primary/10 text-primary border border-primary/20"
  const PremiumStyle := "bg-accent text-accent-foreground border border-border"

  /** The badge style of each plan. */
  function StyleOf(p: Plan): string {
    match p
    case Free => FreeStyle
    case Pro => ProStyle
    case Premium => PremiumStyle
  }

  /**
   * `styles[planStr] ?? styles.free`: a string naming a plan gets that
   * plan's style, any other string the free style.
   */
  function BadgeStyle(planStr: string): (style: string)
    ensures ParsePlan(planStr).Some? ==> style == StyleOf(ParsePlan(planStr).value)
    ensures ParsePlan(planStr).None? ==> style == FreeStyle
  {
    if planStr == "pro" then ProStyle
    else if planStr == "premium" then PremiumStyle
    else FreeStyle
  }

  /** Every plan's string value gets its own style, and the three styles differ. */
  lemma BadgeStylePerPlan(p: Plan)
    ensures BadgeStyle(PlanName(p)) == StyleOf(p)
    ensures forall q: Plan :: StyleOf(q) == StyleOf(p) ==> q == p
  {
  }

  /** A row of the user table. */
  datatype UserRow = UserRow(principal: string, profile: Profile)

  /** The monthly amount one plan string adds to the estimate. */
  function PlanRevenue(plan: string): nat {
    if plan == "pro" then 10 else if plan == "premium" then 20 else 0
  }

  /**
   * The `reduce` callback of `estimatedRevenue`, folded from the left over
   * the plan strings.
   */
  function RevenueFold(plans: seq<string>): nat
    decreases |plans|
  {
    if |plans| == 0 then 0
    else RevenueFold(plans[..|plans| - 1]) + PlanRevenue(plans[|plans| - 1])
  }

  /** The fold is 10 per "pro" entry plus 20 per "premium" entry. */
  lemma {:induction false} RevenueCounts(plans: seq<string>)
    ensures RevenueFold(plans) == 10 * multiset(plans)["pro"] + 20 * multiset(plans)["premium"]
    decreases |plans|
  {
    if |plans| > 0 {
      var init := plans[..|plans| - 1];
      RevenueCounts(init);
      assert plans == init + [plans[|plans| - 1]];
      assert multiset(plans) == multiset(init) + multiset{plans[|plans| - 1]};
    }
  }

  /** The fold of a concatenation is the sum of the folds. */
  lemma RevenueAppend(xs: seq<string>, ys: seq<string>)
    ensures RevenueFold(xs + ys) == RevenueFold(xs) + RevenueFold(ys)
  {
    RevenueCounts(xs);
    RevenueCounts(ys);
    RevenueCounts(xs + ys);
    assert multiset(xs + ys) == multiset(xs) + multiset(ys);
  }

  /** Appending a user whose plan is neither pro nor premium leaves the estimate unchanged. */
  lemma RevenueIgnoresOthers(plans: seq<string>, plan: string)
    requires plan != "pro" && plan != "premium"
    ensures RevenueFold(plans + [plan]) == RevenueFold(plans)
  {
    RevenueAppend(plans, [plan]);
    assert [plan][..0] == [];
  }

  /** `String(u.planType)` for every user, in list order. */
  function PlanStrings(users: seq<UserRow>): (plans: seq<string>)
    ensures |plans| == |users|
    ensures forall i :: 0 <= i < |users| ==> plans[i] == PlanName(users[i].profile.planType)
  {
    seq(|users|, i requires 0 <= i < |users| => PlanName(users[i].profile.planType))
  }

  /** `estimatedRevenue`: 0 while the user list is absent. */
  function EstimatedRevenue(users: Option<seq<UserRow>>): (revenue: nat)
    ensures users.None? ==> revenue == 0
    ensures users.Some? && |users.value| == 0 ==> revenue == 0
    ensures users.Some? ==> revenue <= 20 * |users.value|
  {
    if users.Some? then
      var plans := PlanStrings(users.value);
      RevenueCounts(plans);
      RevenueBound(plans);
      RevenueFold(plans)
    else 0
  }

  /** Each entry adds at most 20. */
  lemma {:induction false} RevenueBound(plans: seq<string>)
    ensures RevenueFold(plans) <= 20 * |plans|
    decreases |plans|
  {
    if |plans| > 0 {
      RevenueBound(plans[..|plans| - 1]);
    }
  }

  /** The estimate over actual users counts their pro and premium profiles. */
  lemma RevenueOfUsers(users: seq<UserRow>)
    ensures EstimatedRevenue(Some(users))
      == 10 * multiset(PlanStrings(users))["pro"] + 20 * multiset(PlanStrings(users))["premium"]
  {
    RevenueCounts(PlanStrings(users));
  }

  /** The backend's statistics record. */
  datatype Stats = Stats(totalUsers: nat, totalRecipes: nat)

  /** `totalUsers` and `totalRecipes`: the statistics when present, 0 and 0 otherwise. */
  function Totals(stats: Option<Stats>): (totals: (nat, nat))
    ensures stats.None? ==> totals == (0, 0)
    ensures stats.Some? ==> totals.0 == stats.value.totalUsers && totals.1 == stats.value.totalRecipes
  {
    if stats.Some? then (stats.value.totalUsers, stats.value.totalRecipes) else (0, 0)
  }

  /** A statistics card's figure: a skeleton while its query loads, otherwise the number. */
  datatype StatCell = CellSkeleton | CellValue(value: nat)

  datatype StatCards = StatCards(users: StatCell, recipes: StatCell, revenue: StatCell)

  /**
   * The three cards at the top of the panel. The user and recipe totals wait
   * for the statistics query and read 0 without statistics; the revenue
   * waits for the user list and counts 10 per pro and 20 per premium user.
   */
  function Cards(statsLoading: bool, stats: Option<Stats>, usersLoading: bool, users: Option<seq<UserRow>>)
    : (c: StatCards)
    ensures c.users.CellSkeleton? <==> statsLoading
    ensures c.recipes.CellSkeleton? <==> statsLoading
    ensures c.revenue.CellSkeleton? <==> usersLoading
    ensures !statsLoading && stats.None? ==> c.users == CellValue(0) && c.recipes == CellValue(0)
    ensures !statsLoading && stats.Some? ==>
      c.users == CellValue(stats.value.totalUsers) && c.recipes == CellValue(stats.value.totalRecipes)
    ensures !usersLoading && users.None? ==> c.revenue == CellValue(0)
    ensures !usersLoading && users.Some? ==> c.revenue == CellValue(
      10 * multiset(PlanStrings(users.value))["pro"] + 20 * multiset(PlanStrings(users.value))["premium"])
  {
    assert users.Some? ==>
      EstimatedRevenue(users)
        == 10 * multiset(PlanStrings(users.value))["pro"] + 20 * multiset(PlanStrings(users.value))["premium"] by {
      if users.Some? {
        RevenueOfUsers(users.value);
      }
    }
    var totals := Totals(stats);
    StatCards(
      if statsLoading then CellSkeleton else CellValue(totals.0),
      if statsLoading then CellSkeleton else CellValue(totals.1),
      if usersLoading then CellSkeleton else CellValue(EstimatedRevenue(users)))
  }

  datatype AdminGate = SignInRequired | CheckingPermissions | AccessDenied | Panel

  /**
   * The page's early returns, in order: no identity; the admin query still
   * loading; the query's value not `true`; then the panel.
   */
  function Gate(hasIdentity: bool, adminLoading: bool, isAdmin: Option<bool>): (g: AdminGate)
    ensures g.SignInRequired? <==> !hasIdentity
    ensures g.CheckingPermissions? <==> hasIdentity && adminLoading
    ensures g.AccessDenied? <==> hasIdentity && !adminLoading && isAdmin != Some(true)
    ensures g.Panel? <==> hasIdentity && !adminLoading && isAdmin == Some(true)
  {
    if !hasIdentity then SignInRequired
    else if adminLoading then CheckingPermissions
    else if isAdmin != Some(true) then AccessDenied
    else Panel
  }

  /** The "Payment Configuration" section: the Stripe component, rendered inside the panel only. */
  function StripeSection(
    hasIdentity: bool, adminLoading: bool, isAdmin: Option<bool>,
    configLoading: bool, isConfigured: Option<bool>): (section: Option<PaymentSetup.SetupView>)
    ensures section.Some? <==> Gate(hasIdentity, adminLoading, isAdmin).Panel?
    ensures section.Some? ==> section.value == PaymentSetup.View(configLoading, isConfigured)
  {
    if Gate(hasIdentity, adminLoading, isAdmin).Panel? then Some(PaymentSetup.View(configLoading, isConfigured))
    else None
  }

  /**
   * A Stripe key can be typed only by a signed-in admin, once both queries
   * have loaded, and only while the store is not yet configured; a
   * configured store shows its confirmation instead and never the form.
   */
  lemma StripeFormOnlyForAdmins(
    hasIdentity: bool, adminLoading: bool, isAdmin: Option<bool>,
    configLoading: bool, isConfigured: Option<bool>)
    ensures StripeSection(hasIdentity, adminLoading, isAdmin, configLoading, isConfigured) == Some(PaymentSetup.ConfigForm)
      <==> hasIdentity && !adminLoading && isAdmin == Some(true) && !configLoading && isConfigured != Some(true)
    ensures StripeSection(hasIdentity, adminLoading, isAdmin, configLoading, isConfigured) == Some(PaymentSetup.ConfiguredCard)
      <==> hasIdentity && !adminLoading && isAdmin == Some(true) && !configLoading && isConfigured == Some(true)
  {
  }

  /** The call `handlePlanChange` makes. */
  datatype SetUserPlan = SetUserPlan(principal: string, plan: string)

  const PlanUpdatedToast := "User plan updated successfully"
  const PlanUpdateFailedToast := "Failed to update user plan"

  /**
   * The start of `handlePlanChange`: `updatingUser` becomes the row's
   * principal and the call is made with the selected value.
   */
  function StartPlanChange(principal: string, newPlan: string): (r: (Option<string>, SetUserPlan))
    ensures r.0 == Some(principal)
    ensures r.1.principal == principal && r.1.plan == newPlan
  {
    (Some(principal), SetUserPlan(principal, newPlan))
  }

  /**
   * The end of `handlePlanChange`, on either path: `updatingUser` is cleared,
   * and the toast reports success or the error's message.
   */
  function SettlePlanChange(succeeded: bool, message: Option<string>): (r: (Option<string>, string))
    ensures r.0.None?
    ensures succeeded ==> r.1 == PlanUpdatedToast
    ensures !succeeded ==> r.1 == Text.OrDefault(message, PlanUpdateFailedToast)
  {
    if succeeded then (None, PlanUpdatedToast) else (None, Text.OrDefault(message, PlanUpdateFailedToast))
  }

  /** `isUpdating` for a row: its select is disabled while its own change is in flight. */
  predicate RowDisabled(updatingUser: Option<string>, principal: string) {
    updatingUser == Some(principal)
  }

  /**
   * While a change is in flight only the changed row is disabled, and once it
   * settles no row is.
   */
  lemma OnlyUpdatingRowDisabled(principal: string, newPlan: string, other: string, succeeded: bool, message: Option<string>)
    ensures RowDisabled(StartPlanChange(principal, newPlan).0, other) <==> other == principal
    ensures !RowDisabled(SettlePlanChange(succeeded, message).0, other)
  {
  }

  /** What happens to the single `updatingUser` slot: a change starts on a row, or some change settles. */
  datatype RowEvent = Start(principal: string, newPlan: string) | Settle(succeeded: bool, message: Option<string>)

  /**
   * The slot after a run of events: each start overwrites it and each settle
   * clears it, so only the latest event counts.
   */
  function UpdatingAfter(slot: Option<string>, events: seq<RowEvent>): (r: Option<string>)
    ensures |events| > 0 && events[|events| - 1].Settle? ==> r.None?
    ensures |events| > 0 && events[|events| - 1].Start? ==> r == Some(events[|events| - 1].principal)
    ensures |events| == 0 ==> r == slot
  {
    if |events| == 0 then slot
    else
      match events[|events| - 1]
      case Start(p, plan) => StartPlanChange(p, plan).0
      case Settle(ok, msg) => SettlePlanChange(ok, msg).0
  }

  /** The calls in flight after a run of events, oldest first, assuming calls settle in the order they began. */
  function InFlight(events: seq<RowEvent>): (calls: seq<string>)
    decreases |events|
  {
    if |events| == 0 then []
    else
      var pending := InFlight(events[..|events| - 1]);
      match events[|events| - 1]
      case Start(p, _) => pending + [p]
      case Settle(_, _) => if |pending| > 0 then pending[1..] else []
  }

  /**
   * Only one row is remembered, so overlapping changes unlock rows early:
   * when a change on `b` starts while `a`'s is in flight, `a`'s row is
   * enabled again at once, and when `a`'s call settles, `b`'s row is enabled
   * although `b`'s call is still running.
   */
  lemma OverlappingChangesUnlockRows(a: string, b: string, planA: string, planB: string, ok: bool, message: Option<string>)
    requires a != b
    ensures var afterB := [Start(a, planA), Start(b, planB)];
      && InFlight(afterB) == [a, b]
      && !RowDisabled(UpdatingAfter(None, afterB), a)
    ensures var afterSettle := [Start(a, planA), Start(b, planB), Settle(ok, message)];
      && InFlight(afterSettle) == [b]
      && !RowDisabled(UpdatingAfter(None, afterSettle), b)
  {
    var first := [Start(a, planA)];
    var afterB := [Start(a, planA), Start(b, planB)];
    var afterSettle := [Start(a, planA), Start(b, planB), Settle(ok, message)];
    assert first[..0] == [];
    assert InFlight(first) == [a];
    assert afterB[..1] == first;
    assert InFlight(afterB) == [a, b];
    assert afterSettle[..2] == afterB;
    assert InFlight(afterSettle) == [a, b][1..] == [b];
  }
}
