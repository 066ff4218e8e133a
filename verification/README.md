# GreenChef client logic in Dafny

GreenChef is a recipe-generation web app with three subscription tiers:
free, pro and premium. A free user may generate a few recipes a day. A pro
user may also save recipes. A premium user also gets a weekly meal planner
and nutrition details. The React frontend decides on its own what each tier
may see and do, screen by screen. It counts the free tier's daily quota,
edits the ingredient chip list, and turns button presses into backend calls.
This project models that client-side logic as pure Dafny functions over
immutable data and proves what the screens promise.

Backend calls are not executed. A handler is modelled as a step function.
It takes the page state and the inputs and returns the new state together
with the call it makes or the toast it shows. The settling half of a
handler takes the call's outcome (success, or an error with an optional
message) as a parameter.

Modules:

- `Wrappers` holds `Option`.
- `Seqs` states `Array.prototype.filter` and `Array.from(new Set(xs))` once.
- `Text` models JavaScript `trim`, `split`, `join`, `includes`, the
  comma-list idiom `s.split(',').map(x => x.trim()).filter(Boolean)` and
  `err?.message || fallback`.
- `Domain` holds the backend's records (`PlanType`, `UserProfile`, `Recipe`)
  and the plan tests shared by several screens.
- There is one module per screen: `Dashboard`, `ProfilePage`, `Navbar`,
  `SavedRecipes`, `MealPlanner`, `AdBanner`, `Admin`, `Pricing`,
  `PaymentSuccess`, `PaymentSetup` and `ProfileSetup`.
- `Agreement` proves that the screens' separate derivations of the tier
  tests agree. It also follows a new profile and an upgraded one through all
  the screens.

Behaviour worth knowing:

- The payment-return page has no once-only guard. Each new session-status
  value re-runs its effect, and every such value that is completed asks for
  an upgrade (`PaymentSuccess.UpgradeRequests`).
- The upgrade it asks for is always to pro, whichever plan was bought.
- A grocery list is shown for any current plan, including an empty one.
  This is because an empty array is truthy in JavaScript.

## Model

| member | source | states |
|---|---|---|
| `Seqs.Filter` | frontend/src/pages/DashboardPage.tsx:47 | the result is an order-preserving subsequence of the input, holding exactly the kept elements, each with its original multiplicity |
| `Seqs.FilterAppend` | frontend/src/components/Navbar.tsx:39-46 | filtering a concatenation is concatenating the filtered parts |
| `Seqs.Dedup` | frontend/src/pages/MealPlannerPage.tsx:37-44 | a Set in insertion order gives each member of the input once, ordered by where it first occurs; an already distinct list comes back unchanged |
| `Text.Trim` | frontend/src/pages/DashboardPage.tsx:36 | the result is the infix left after removing ECMAScript whitespace at both ends: empty exactly for a blank string, otherwise starting and ending with a non-whitespace character |
| `Text.TrimIdempotent` | frontend/src/pages/DashboardPage.tsx:36-38 | trimming an already trimmed string changes nothing |
| `Text.JoinSplit` | frontend/src/components/PaymentSetup.tsx:22 | joining the pieces of a split with the same separator restores the input |
| `Text.SplitJoin` | frontend/src/components/PaymentSetup.tsx:22 | splitting a join of separator-free pieces recovers the pieces |
| `Text.CommaList` | frontend/src/pages/DashboardPage.tsx:38 | the entries are exactly the non-empty trimmed pieces, each as often as it occurs among the pieces and in input order; every entry is trimmed and comma-free |
| `Text.CommaListJoin` | frontend/src/components/PaymentSetup.tsx:22 | a list of proper entries joined with commas parses back to itself, duplicates and order included |
| `Text.ContainsIffOccurs` | frontend/src/pages/DashboardPage.tsx:72-74 | `includes` holds exactly when the needle occurs at some position of the haystack |
| `Text.OrDefault` | frontend/src/pages/AdminPage.tsx:93 | an error's non-empty message is shown; an absent or empty one falls back to the fixed text |
| `Domain.ParsePlan` | frontend/src/pages/AdminPage.tsx:27-34 | exactly the three plan names are recognised, each as the plan it names |
| `Domain.PremiumIsPro` | frontend/src/components/Navbar.tsx:20-21 | premium implies pro access, and pro access holds exactly for a present plan other than free |
| `Domain.PlanKey` | frontend/src/pages/ProfilePage.tsx:47 | the key is "free" without a profile and otherwise names the profile's plan |
| `Dashboard.LimitReached` | frontend/src/pages/DashboardPage.tsx:28-33 | limited exactly when a free profile's count has reached its limit; with the defaults 0 and 5 a missing profile is never limited, and pro or premium never are |
| `Dashboard.UsagePercent` | frontend/src/pages/DashboardPage.tsx:32 | the percentage lies in [0, 100]; it is 0 for a zero limit, 100 once the count reaches the limit, and otherwise the exact ratio below 100 |
| `Dashboard.UsagePercentMonotone` | frontend/src/pages/DashboardPage.tsx:32 | more recipes used never shows less progress |
| `Dashboard.Counter` | frontend/src/pages/DashboardPage.tsx:117-140 | the usage box appears exactly for a free profile; it shows the limit notice exactly when the limit is reached, and otherwise a remaining count equal to limit minus count and at least 1; its bar shows the usage percentage of the count and limit |
| `Dashboard.NewChips` | frontend/src/pages/DashboardPage.tsx:39 | the new chips are the pieces not among the existing chips, in order and with multiplicity |
| `Dashboard.AddIngredient` | frontend/src/pages/DashboardPage.tsx:35-44 | a blank field changes nothing; otherwise the field is cleared, the old chips stay as a prefix, and what follows is exactly the input's pieces not already present, in input order |
| `Dashboard.AddedChipsAreEntries` | frontend/src/pages/DashboardPage.tsx:38 | every chip one call adds is non-empty, trimmed and comma-free |
| `Dashboard.NoChipAddedTwiceAgainstOldList` | frontend/src/pages/DashboardPage.tsx:39-41 | a chip already in the list keeps its count |
| `Dashboard.RepeatedPieceAddedTwice` | frontend/src/pages/DashboardPage.tsx:38-41 | duplicates are checked only against the old list: an entry typed twice in one input, such as "a,a", is added twice to an empty list |
| `Dashboard.RemoveIngredient` | frontend/src/pages/DashboardPage.tsx:46-48 | every occurrence of the chip is removed, and the others keep their order and multiplicity |
| `Dashboard.HandleGenerate` | frontend/src/pages/DashboardPage.tsx:57-65 | the backend is called, with the chips, exactly when the list is non-empty and the limit is not reached; the empty-list toast takes precedence |
| `Dashboard.GenerateButtonMatchesHandler` | frontend/src/pages/DashboardPage.tsx:201 | the Generate button is enabled exactly when nothing is pending and pressing it would call the backend |
| `Dashboard.FailureToast` | frontend/src/pages/DashboardPage.tsx:70-78 | a failure message is matched against "Daily limit" first, then "Unauthorized", and otherwise gets the retry toast |
| `Dashboard.DailyLimitTakesPrecedence` | frontend/src/pages/DashboardPage.tsx:72-75 | a message containing both phrases is classified as the daily limit |
| `Dashboard.DisplayedRecipeComesFromBackend` | frontend/src/pages/DashboardPage.tsx:57-79 | over a whole press of Generate, the displayed recipe changes only to a recipe the backend returned for a call the checks let through; a displayed recipe never disappears; the success toast shows exactly when a call was made and succeeded |
| `Dashboard.Render` | frontend/src/pages/DashboardPage.tsx:82-230 | the sign-in prompt shows exactly without an identity; otherwise the ad slot is kept for non-pro plans, nutrition shows for premium, the input is disabled exactly while a generation is pending, and the buttons' disabled flags follow the handlers' conditions |
| `Dashboard.SetupDialogMeansNoQuota` | frontend/src/pages/DashboardPage.tsx:26-33 | while the setup dialog is open there is no usage box and no limit |
| `ProfilePage.CardFor` | frontend/src/pages/ProfilePage.tsx:48 | a key naming a plan gets that plan's card, and any other key gets the free card |
| `ProfilePage.CardForProfile` | frontend/src/pages/ProfilePage.tsx:47-48 | the card shown is the profile's plan's card, and the free card without a profile |
| `ProfilePage.EmailText` | frontend/src/pages/ProfilePage.tsx:75 | "Not set" is shown for a missing or empty email, and otherwise the email |
| `ProfilePage.MemberSinceText` | frontend/src/pages/ProfilePage.tsx:89-91 | "N/A" is shown exactly for a missing profile or a zero timestamp; otherwise the timestamp in milliseconds |
| `ProfilePage.QuickLinks` | frontend/src/pages/ProfilePage.tsx:143-175 | the dashboard card comes first; saved recipes shows for "pro" and "premium", the meal planner for "premium" only, so the planner never comes without saved recipes |
| `ProfilePage.Render` | frontend/src/pages/ProfilePage.tsx:108-137 | the usage line and the upgrade button appear exactly for the "free" key; the usage shows the profile's count and limit, or 0 of 5 without a profile; skeletons show while loading |
| `Navbar.NavLinks` | frontend/src/components/Navbar.tsx:39-46 | a link is listed exactly when its show flag holds |
| `Navbar.NavLinksIsFilter` | frontend/src/components/Navbar.tsx:39-46 | the listed links are the fixed link list filtered by the show flags, so they keep its order |
| `Navbar.NavLinksByTier` | frontend/src/components/Navbar.tsx:40-45 | Pricing is always listed; saved recipes exactly for a signed-in pro or premium user; the meal planner exactly for signed-in premium, and so only with saved recipes; admin exactly for a signed-in admin |
| `Navbar.SignedOutSeesOnlyPricing` | frontend/src/components/Navbar.tsx:39-46 | a signed-out visitor sees exactly one link, Pricing |
| `Navbar.PlanBadge` | frontend/src/components/Navbar.tsx:77-79 | the badge shows exactly for a signed-in user with a profile, and reads back as that profile's plan |
| `SavedRecipes.CardsFor` | frontend/src/pages/SavedRecipesPage.tsx:85-93 | there is one card per saved recipe, in order; card i shows and removes recipe i, and shows nutrition exactly for premium |
| `SavedRecipes.Render` | frontend/src/pages/SavedRecipesPage.tsx:20-106 | sign-in comes first; the pro gate shows exactly when the profile has loaded and the plan is not pro or premium; the skeleton shows while the profile loads; cards appear only for pro access |
| `SavedRecipes.RemoveReportsOutcome` | frontend/src/pages/SavedRecipesPage.tsx:50-57 | pressing remove on the i-th rendered card deletes the i-th saved recipe and no recipe with another id, and the toast tells a successful delete from a failed one |
| `MealPlanner.FallbackPlan` | frontend/src/pages/MealPlannerPage.tsx:28-33 | the fallback has one entry per day, Monday to Sunday in order, each with the same three meals |
| `MealPlanner.ParseMealPlan` | frontend/src/pages/MealPlannerPage.tsx:21-34 | a parsed array is returned unchanged; a parse failure or a non-array gives seven fallback days in order |
| `MealPlanner.FallbackDays` | frontend/src/pages/MealPlannerPage.tsx:12 | the fallback's days run from Monday to Sunday, each once |
| `MealPlanner.ExtractGroceryList` | frontend/src/pages/MealPlannerPage.tsx:36-45 | whatever the meals, the list is the fifteen distinct common items in their listed order |
| `MealPlanner.GroceryList` | frontend/src/pages/MealPlannerPage.tsx:99 | there is no list without a current plan, and the full list for any current plan |
| `MealPlanner.SettleGenerate` | frontend/src/pages/MealPlannerPage.tsx:87-97 | a result replaces the plan with its parsed form and hides the grocery list; a failure changes nothing and shows the message or the fixed text |
| `MealPlanner.ToggleTwice` | frontend/src/pages/MealPlannerPage.tsx:177 | pressing show/hide twice restores the state |
| `MealPlanner.Gate` | frontend/src/pages/MealPlannerPage.tsx:58-85 | sign-in comes first; the premium gate shows exactly when the profile has loaded and the plan is not premium; the planner is reached only by premium or while loading |
| `MealPlanner.EmptyStateOnlyBeforeAPlan` | frontend/src/pages/MealPlannerPage.tsx:124-131 | the "No meal plan yet" card comes with an empty grocery list, never shows again after a successful generation, and is unchanged by a failed one |
| `AdBanner.VisibleByPlan` | frontend/src/components/AdBanner.tsx:13-14 | the banner never renders for pro or premium, and renders exactly for a free or absent plan while not dismissed |
| `AdBanner.Step` | frontend/src/components/AdBanner.tsx:10-14 | dismissal is kept by every event; a new plan prop leaves the dismissed flag alone |
| `AdBanner.DismissedStaysDismissed` | frontend/src/components/AdBanner.tsx:38 | while the banner stays mounted, once dismissed it stays hidden through any later plan changes |
| `AdBanner.UndismissedFollowsPlan` | frontend/src/components/AdBanner.tsx:13 | without a dismissal, the banner's plan is the latest plan given |
| `AdBanner.DismissalIsFinal` | frontend/src/components/AdBanner.tsx:14 | a dismissal anywhere in a run of events leaves the banner hidden at the end |
| `Admin.BadgeStyle` | frontend/src/pages/AdminPage.tsx:26-34 | a plan name gets its own style, and any other string gets the free style |
| `Admin.BadgeStylePerPlan` | frontend/src/pages/AdminPage.tsx:28-32 | each plan's name gets that plan's style, and the three styles differ |
| `Admin.RevenueCounts` | frontend/src/pages/AdminPage.tsx:107-113 | the left fold equals 10 times the number of "pro" users plus 20 times the number of "premium" users |
| `Admin.RevenueAppend` | frontend/src/pages/AdminPage.tsx:107-113 | the revenue of two user lists one after the other is the sum of their revenues |
| `Admin.RevenueIgnoresOthers` | frontend/src/pages/AdminPage.tsx:112 | appending a user whose plan is neither pro nor premium leaves the revenue unchanged |
| `Admin.EstimatedRevenue` | frontend/src/pages/AdminPage.tsx:107-114 | the revenue is 0 for an absent or empty user list and at most 20 per user |
| `Admin.Cards` | frontend/src/pages/AdminPage.tsx:105-180 | each statistics card shows a skeleton exactly while its query loads; the user and recipe totals read 0 without statistics; the revenue card counts 10 per pro and 20 per premium user |
| `Admin.Gate` | frontend/src/pages/AdminPage.tsx:48-85 | the precedence is no identity, then loading, then not admin, then the panel; the panel shows exactly for a loaded `true` |
| `Admin.StripeFormOnlyForAdmins` | frontend/src/pages/AdminPage.tsx:184-191 | the Stripe key form is offered exactly to a signed-in admin, once both queries have loaded, of a store not yet configured; a configured store shows its confirmation instead |
| `Admin.SettlePlanChange` | frontend/src/pages/AdminPage.tsx:91-96 | `updatingUser` is cleared on both paths; the toast reports success or the error's message or the fixed text |
| `Admin.OnlyUpdatingRowDisabled` | frontend/src/pages/AdminPage.tsx:225-252 | for a single change, only that row's select is disabled while it is in flight, and none after it settles |
| `Admin.OverlappingChangesUnlockRows` | frontend/src/pages/AdminPage.tsx:87-96 | with one `updatingUser` slot, a second change started while the first is in flight re-enables the first row at once, and settling the first re-enables the second row while its call still runs |
| `Pricing.OffersTable` | frontend/src/pages/PricingPage.tsx:9-63 | each row's id is its plan's name; the prices are 0, 1000 and 2000 cents; only free costs nothing |
| `Pricing.CurrentPlan` | frontend/src/pages/PricingPage.tsx:71 | the current plan is "free" without a profile and otherwise names the profile's plan |
| `Pricing.CheckoutItemsIdentifyPlans` | frontend/src/pages/PricingPage.tsx:82-88 | two plans get checkout items with the same product name, or the same item, only when they are the same plan; the charge is positive exactly for paid plans and higher for premium than for pro |
| `Pricing.HandleUpgrade` | frontend/src/pages/PricingPage.tsx:73-88 | login is requested exactly without an identity; a free plan does nothing; otherwise the row is marked loading and exactly one item is checked out |
| `Pricing.SettleCheckout` | frontend/src/pages/PricingPage.tsx:89-96 | the loading mark is cleared on every path; the page redirects exactly for a session with a url; a missing url is an error |
| `Pricing.DisabledButtons` | frontend/src/pages/PricingPage.tsx:171 | the free button is always disabled, and a paid button is enabled exactly when it is neither current nor loading |
| `Pricing.Label` | frontend/src/pages/PricingPage.tsx:174-182 | the label's precedence is Processing, then Current Plan, then Free Plan, then the row's call to action |
| `Pricing.CtaIffEnabled` | frontend/src/pages/PricingPage.tsx:171-182 | a button shows its call to action exactly when it can be pressed |
| `PaymentSuccess.SessionId` | frontend/src/pages/PaymentSuccessPage.tsx:16 | a missing `session_id` reads as the empty id |
| `PaymentSuccess.NoParamNoQuery` | frontend/src/hooks/useQueries.ts:281 | without the parameter the status query never runs |
| `PaymentSuccess.ActivatingOnlyWithSession` | frontend/src/pages/PaymentSuccessPage.tsx:53-58 | the "Activating your plan" line appears only for a non-empty `session_id`, never without the parameter, and with a ready actor only while the status query is enabled |
| `PaymentSuccess.OnStatus` | frontend/src/pages/PaymentSuccessPage.tsx:21-25 | an upgrade is requested exactly for a completed status, and always to pro |
| `PaymentSuccess.RunEffects` | frontend/src/pages/PaymentSuccessPage.tsx:21-33 | over a run of new status values, every profile invalidation the page itself requests comes with its toast, there is at most one per completed value, and exactly one per completed value when every upgrade call succeeds |
| `PaymentSuccess.UpgradeRequests` | frontend/src/pages/PaymentSuccessPage.tsx:21-33 | over a run of status values, one pro upgrade is requested per completed value, with no once-only guard |
| `PaymentSuccess.CompletedTwiceUpgradesTwice` | frontend/src/pages/PaymentSuccessPage.tsx:21-33 | a status completed twice requests two upgrades |
| `PaymentSetup.Submit` | frontend/src/components/PaymentSetup.tsx:16-24 | the handler refuses a blank key with a toast and no call; otherwise it sends the trimmed key and the comma-list of countries |
| `PaymentSetup.PressSave` | frontend/src/components/PaymentSetup.tsx:62-72 | the browser blocks an empty key before the handler runs and without a toast, so the handler's toast is seen exactly for a key of whitespace alone |
| `PaymentSetup.CountriesRoundTrip` | frontend/src/components/PaymentSetup.tsx:22 | countries typed as proper entries joined by commas are sent exactly as listed, duplicates kept |
| `PaymentSetup.DefaultCountriesParse` | frontend/src/components/PaymentSetup.tsx:12 | the default input parses to US, CA, GB and AU |
| `PaymentSetup.SettleConfigure` | frontend/src/components/PaymentSetup.tsx:23-29 | success clears the key and keeps the countries; a failure keeps both and shows the message or the fixed text |
| `PaymentSetup.ClearedKeyIsRejected` | frontend/src/components/PaymentSetup.tsx:26 | after a success the form refuses to submit until a key is typed again: the browser blocks the press, and the handler would refuse it too |
| `ProfileSetup.InitialProfile` | frontend/src/components/ProfileSetupModal.tsx:36-42 | the new profile has the trimmed email, the free plan, count 0, limit 5, and a creation time of the milliseconds times one million |
| `ProfileSetup.Submit` | frontend/src/components/ProfileSetupModal.tsx:21-42 | a blank email is refused with a toast and no call; otherwise the user is created and then the initial profile is saved |
| `ProfileSetup.SubmitToast` | frontend/src/components/ProfileSetupModal.tsx:21-47 | a submission ends with the missing-email toast exactly for a blank email, and otherwise with the welcome toast exactly when the save succeeded, whatever happened to the user creation |
| `ProfileSetup.PressSubmit` | frontend/src/components/ProfileSetupModal.tsx:64-84 | the browser blocks an empty or rejected email before the handler runs, without a toast; otherwise the press is the handler's step |
| `ProfileSetup.SubmitIgnoresNameAndCreateOutcome` | frontend/src/components/ProfileSetupModal.tsx:28-33 | the calls depend neither on the name nor on whether user creation failed |
| `ProfileSetup.EnabledSubmitCalls` | frontend/src/components/ProfileSetupModal.tsx:77-90 | a press of the enabled button reaches the handler exactly when the browser accepts the email, and the handler then always makes its calls |
| `Agreement.FreeIsNotPro` | frontend/src/pages/DashboardPage.tsx:29 | "free or absent" is exactly "not pro or premium" |
| `Agreement.KeyTestsAgree` | frontend/src/pages/ProfilePage.tsx:114 | the profile page's string tests on the plan key agree with the tests on the plan value |
| `Agreement.AdShownIffFree` | frontend/src/pages/DashboardPage.tsx:218 | a banner that was not dismissed shows exactly for the plans the dashboard calls free |
| `Agreement.NavLinksMatchPageGates` | frontend/src/components/Navbar.tsx:41-45 | for a signed-in user, the saved-recipes, meal-planner and admin links show exactly when those pages let the user in |
| `Agreement.QuickLinksMatchNavbar` | frontend/src/pages/ProfilePage.tsx:153-164 | the profile page's quick links agree with the navigation bar's gated links |
| `Agreement.UsageLineMatchesDashboard` | frontend/src/pages/ProfilePage.tsx:114-118 | the profile page shows the usage line exactly to the users the dashboard counts as free |
| `Agreement.CurrentPlanAgrees` | frontend/src/pages/PricingPage.tsx:71 | the pricing page and the profile page agree on the current plan and its display name |
| `Agreement.NewProfileAcrossScreens` | frontend/src/components/ProfileSetupModal.tsx:36-42 | a new profile is not limited, has five recipes left, sees the banner, is gated from the pro and premium pages, and reads its creation time back as the clock value |
| `Agreement.UpgradedProfileAcrossScreens` | frontend/src/pages/PaymentSuccessPage.tsx:25 | after the upgrade to pro there is no limit, no usage box and no banner; saved recipes opens and the meal planner stays gated |

## Left out

- Authentication, the backend actor and react-query are not modelled. That covers fetching, retries, cache invalidation and the calls themselves. Their results are parameters of the step functions, and their calls are returned values. frontend/src/hooks/useQueries.ts is not part of this model, except for the status query's enabling condition.
- The Navbar's logout cache clear and its 300 ms re-login timer are not modelled. They are asynchronous identity flows.
- AdBanner.DismissedStaysDismissed: holds for one mounted banner. The dashboard renders the banner only for free plans (frontend/src/pages/DashboardPage.tsx:218). A remount, after leaving the dashboard or after a return to the free plan, starts undismissed again, and remounting is not an event of the model.
- ProfileSetup.EnabledSubmitCalls: the browser's check of the email syntax for `type="email"` is the parameter `emailAccepted`. The model does not define which strings the browser accepts, only that it rejects the empty one.
- ProfilePage.MemberSinceText: the millisecond value is an exact real quotient. The page converts the nanosecond timestamp, which is above 2^53, to an IEEE-754 double before dividing, so the shown date can differ from the exact value.
- Agreement.NewProfileAcrossScreens: the creation time reads back as the clock value only in exact arithmetic, for the reason given for ProfilePage.MemberSinceText.
- Admin.InFlight: it assumes that plan-change calls settle in the order they started; the page itself does not record which call settled.
- Navbar.PlanBadge: the `planType ?? 'free'` fallback cannot fire. The backend's profile record requires `planType`, so a present profile always has a plan.
- The landing page, the upgrade prompt dialog, the payment-failure page and the router are left out. They are static content and navigation.
- `JSON.parse` is an input value: a failure, a non-array, or an array of day entries. The elements of a parsed array are not validated by the page, and the model does not validate them either.
- Dashboard.UsagePercent: the percentage is exact real arithmetic, not IEEE-754 floating point, so rounding in the rendered value is not modelled.
- Dates are rendered with `toLocaleDateString` and are not modelled. `MemberSinceText` stops at the millisecond value.
- JavaScript record lookups with keys inherited from `Object.prototype` (such as "constructor") are not modelled. `CardFor` and `BadgeStyle` treat every string other than the three plan names as unknown.
- Toast rendering, JSX layout, styling and the marketing texts are left out, apart from the strings the logic chooses between.
- The admin page's refresh button and the users table's skeleton and empty states are left out. They only re-fetch and render.
