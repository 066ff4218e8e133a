/**
 * The pricing page: the three-row `plans` table, the current-plan key, the
 * upgrade handler with its early exits and the checkout item it builds, and
 * the rules for each plan button's label and disabled state.
 */
module Pricing {
  import opened Wrappers
  import opened Domain
  import Text

  /** The fields of a `plans` row that the logic reads; the rest is display text. */
  datatype Offer = Offer(id: string, name: string, price: nat, cta: string, planType: Plan)

  const FreeOffer := Offer("free", "Free", 0, "Current Plan", Free)
  const ProOffer := Offer("pro", "Pro", 1000, "Upgrade to Pro", Pro)
  const PremiumOffer := Offer("premium", "Premium", 2000, "Go Premium", Premium)

  /** `plans`, in display order. */
  const Offers: seq<Offer> := [FreeOffer, ProOffer, PremiumOffer]

  /** The row for each plan. */
  function OfferOf(p: Plan): Offer {
    match p
    case Free => FreeOffer
    case Pro => ProOffer
    case Premium => PremiumOffer
  }

  /** Each row's id is its plan's string value, and only the free row costs nothing. */
  lemma OffersTable()
    ensures forall i :: 0 <= i < |Offers| ==> Offers[i].id == PlanName(Offers[i].planType)
    ensures forall i :: 0 <= i < |Offers| ==> (Offers[i].price == 0 <==> Offers[i].planType == Free)
    ensures Offers[0].price == 0 && Offers[1].price == 1000 && Offers[2].price == 2000
  {
  }

  /** `currentPlan`: the profile's plan key, "free" without a profile. */
  function CurrentPlan(profile: Option<Profile>): (key: string)
    ensures profile.None? ==> key == "free"
    ensures profile.Some? ==> ParsePlan(key) == Some(profile.value.planType)
  {
    PlanKey(profile)
  }

  /** `ShoppingItem`. */
  datatype ShoppingItem = ShoppingItem(
    productName: string,
    productDescription: string,
    priceInCents: nat,
    quantity: nat,
    currency: string)

  /** The checkout line for a row. */
  function CheckoutItem(offer: Offer): (item: ShoppingItem)
    ensures item.productName == "GreenChef " + offer.name + " Plan"
    ensures item.productDescription == "Monthly subscription to GreenChef " + offer.name + " plan"
    ensures item.priceInCents == offer.price && item.quantity == 1 && item.currency == "usd"
  {
    ShoppingItem(
      "GreenChef " + offer.name + " Plan",
      "Monthly subscription to GreenChef " + offer.name + " plan",
      offer.price, 1, "usd")
  }

  /**
   * Each plan is checked out as a product of its own: the items built for
   * two plans share a name, or agree at all, only when the plans are the
   * same. The amount charged is positive exactly for the paid plans and is
   * higher for premium than for pro.
   */
  lemma CheckoutItemsIdentifyPlans(p: Plan, q: Plan)
    ensures CheckoutItem(OfferOf(p)).productName == CheckoutItem(OfferOf(q)).productName <==> p == q
    ensures CheckoutItem(OfferOf(p)) == CheckoutItem(OfferOf(q)) <==> p == q
    ensures CheckoutItem(OfferOf(p)).priceInCents > 0 <==> p != Free
    ensures CheckoutItem(OfferOf(Pro)).priceInCents < CheckoutItem(OfferOf(Premium)).priceInCents
  {
    // The three product names have different lengths.
    assert |CheckoutItem(FreeOffer).productName| == 19;
    assert |CheckoutItem(ProOffer).productName| == 18;
    assert |CheckoutItem(PremiumOffer).productName| == 22;
  }

  /** What pressing a plan's button does. */
  datatype UpgradeStart =
    | RequestLogin
    | NoAction
    | StartCheckout(loadingPlan: string, items: seq<ShoppingItem>)

  /**
   * The part of `handleUpgrade` before the checkout call: without an identity
   * the login flow starts; a plan that costs nothing does nothing; otherwise
   * the row is marked loading and a one-item checkout is requested.
   */
  function HandleUpgrade(hasIdentity: bool, offer: Offer): (r: UpgradeStart)
    ensures r.RequestLogin? <==> !hasIdentity
    ensures r.NoAction? <==> hasIdentity && offer.price == 0
    ensures r.StartCheckout? ==>
      && r.loadingPlan == offer.id
      && |r.items| == 1
      && r.items[0].priceInCents == offer.price > 0
      && r.items[0] == CheckoutItem(offer)
  {
    if !hasIdentity then RequestLogin
    else if offer.price == 0 then NoAction
    else StartCheckout(offer.id, [CheckoutItem(offer)])
  }

  /** Upgrading to a paid row builds an item priced as that row, in dollars times 100. */
  lemma PaidRowsCheckout()
    ensures HandleUpgrade(true, ProOffer) == StartCheckout("pro", [ShoppingItem(
      "GreenChef Pro Plan", "Monthly subscription to GreenChef Pro plan", 1000, 1, "usd")])
    ensures HandleUpgrade(true, PremiumOffer).StartCheckout?
    ensures HandleUpgrade(true, PremiumOffer).items[0].priceInCents == 2000
    ensures HandleUpgrade(true, FreeOffer) == NoAction
  {
    assert "GreenChef " + "Pro" + " Plan" == "GreenChef Pro Plan";
    assert "Monthly subscription to GreenChef " + "Pro" + " plan" == "Monthly subscription to GreenChef Pro plan";
  }

  /** How the checkout call ended: an error, or a session whose `url` may be empty. */
  datatype CheckoutResult = CheckoutFailed(message: Option<string>) | SessionCreated(url: string)

  /** What the page does after the call: send the browser to the session, or show an error. */
  datatype CheckoutEffect = Redirect(url: string) | ErrorToast(text: string)

  const MissingUrlMessage := "Stripe session missing url"
  const CheckoutFailedToast := "Failed to start checkout. Please try again."

  /**
   * The rest of `handleUpgrade`: `loadingPlan` is cleared on every path; a
   * session with a url redirects to it; a session without one is an error
   * with its own message; any other failure shows its message or a generic
   * text.
   */
  function SettleCheckout(result: CheckoutResult): (r: (Option<string>, CheckoutEffect))
    ensures r.0.None?
    ensures r.1.Redirect? <==> result.SessionCreated? && result.url != ""
    ensures r.1.Redirect? ==> r.1.url == result.url
    ensures result.SessionCreated? && result.url == "" ==> r.1 == ErrorToast(MissingUrlMessage)
    ensures result.CheckoutFailed? ==> r.1 == ErrorToast(Text.OrDefault(result.message, CheckoutFailedToast))
  {
    match result
    case SessionCreated(url) =>
      if url != "" then (None, Redirect(url))
      else (None, ErrorToast(Text.OrDefault(Some(MissingUrlMessage), CheckoutFailedToast)))
    case CheckoutFailed(message) => (None, ErrorToast(Text.OrDefault(message, CheckoutFailedToast)))
  }

  /** `isCurrent`. */
  predicate IsCurrent(profile: Option<Profile>, offer: Offer) {
    CurrentPlan(profile) == offer.id
  }

  /** `isLoading`. */
  predicate IsLoading(loadingPlan: Option<string>, offer: Offer) {
    loadingPlan == Some(offer.id)
  }

  /** A button's `disabled` flag: current plan, free plan, or this row loading. */
  predicate ButtonDisabled(profile: Option<Profile>, loadingPlan: Option<string>, offer: Offer) {
    IsCurrent(profile, offer) || offer.price == 0 || IsLoading(loadingPlan, offer)
  }

  /**
   * The free row's button can never be pressed, and a paid row's button can
   * be pressed exactly when it is neither the current plan nor loading.
   */
  lemma DisabledButtons(profile: Option<Profile>, loadingPlan: Option<string>)
    ensures ButtonDisabled(profile, loadingPlan, FreeOffer)
    ensures !ButtonDisabled(profile, loadingPlan, ProOffer)
      <==> PlanOf(profile) != Some(Pro) && loadingPlan != Some("pro")
    ensures ButtonDisabled(profile, loadingPlan, PremiumOffer)
      <==> PlanOf(profile) == Some(Premium) || loadingPlan == Some("premium")
  {
    if profile.Some? {
      ParsePlanName(profile.value.planType);
    }
  }

  datatype ButtonLabel = Processing | CurrentPlanLabel | FreePlanLabel | Cta(text: string)

  /** The button's text: loading, then current, then free, then the row's call to action. */
  function Label(profile: Option<Profile>, loadingPlan: Option<string>, offer: Offer): (shown: ButtonLabel)
    ensures shown.Processing? <==> IsLoading(loadingPlan, offer)
    ensures shown.CurrentPlanLabel? <==> !IsLoading(loadingPlan, offer) && IsCurrent(profile, offer)
    ensures shown.FreePlanLabel? <==> !IsLoading(loadingPlan, offer) && !IsCurrent(profile, offer) && offer.price == 0
    ensures shown.Cta? ==> shown.text == offer.cta && !ButtonDisabled(profile, loadingPlan, offer)
  {
    if IsLoading(loadingPlan, offer) then Processing
    else if IsCurrent(profile, offer) then CurrentPlanLabel
    else if offer.price == 0 then FreePlanLabel
    else Cta(offer.cta)
  }

  /** A button showing its call to action is exactly a button that can be pressed. */
  lemma CtaIffEnabled(profile: Option<Profile>, loadingPlan: Option<string>, offer: Offer)
    ensures Label(profile, loadingPlan, offer).Cta? <==> !ButtonDisabled(profile, loadingPlan, offer)
  {
  }
}
