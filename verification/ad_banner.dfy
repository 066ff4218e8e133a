/**
 * The advertisement banner: shown to free users and to visitors without a
 * profile until it is dismissed; the dismissal lasts as long as the banner
 * stays mounted, whatever the plan later becomes.
 */
module AdBanner {
  import opened Wrappers
  import opened Domain

  /** The banner's `planType` prop and its `dismissed` state. */
  datatype Banner = Banner(planType: Option<Plan>, dismissed: bool)

  /** The banner as first mounted with a given plan. */
  function Mount(planType: Option<Plan>): Banner {
    Banner(planType, false)
  }

  /**
   * Whether the banner renders: not for a plan other than free, and not
   * after a dismissal.
   */
  predicate Visible(b: Banner) {
    (b.planType == Some(Free) || b.planType.None?) && !b.dismissed
  }

  /** The banner renders exactly for a free or absent plan that has not been dismissed. */
  lemma VisibleByPlan(b: Banner)
    ensures b.planType == Some(Pro) ==> !Visible(b)
    ensures b.planType == Some(Premium) ==> !Visible(b)
    ensures Visible(b) <==> !IsPro(b.planType) && !b.dismissed
  {
    PremiumIsPro(b.planType);
  }

  /** What can happen to a mounted banner: the close button, or a new `planType` prop. */
  datatype Event = Dismiss | PlanChanged(plan: Option<Plan>)

  /** One event: the close button sets `dismissed`; a new prop leaves it alone. */
  function Step(b: Banner, e: Event): (r: Banner)
    ensures b.dismissed ==> r.dismissed
    ensures e.Dismiss? ==> r.dismissed && r.planType == b.planType
    ensures e.PlanChanged? ==> r.planType == e.plan && r.dismissed == b.dismissed
  {
    match e
    case Dismiss => b.(dismissed := true)
    case PlanChanged(plan) => b.(planType := plan)
  }

  /** A run of events, in order. */
  function Run(b: Banner, events: seq<Event>): Banner
    decreases |events|
  {
    if |events| == 0 then b else Run(Step(b, events[0]), events[1..])
  }

  /** A dismissed banner stays dismissed through any run of events. */
  lemma {:induction false} DismissedStaysDismissed(b: Banner, events: seq<Event>)
    requires b.dismissed
    ensures Run(b, events).dismissed
    ensures !Visible(Run(b, events))
    decreases |events|
  {
    if |events| > 0 {
      DismissedStaysDismissed(Step(b, events[0]), events[1..]);
    }
  }

  /** Without a dismissal, the banner's visibility follows the latest plan alone. */
  lemma {:induction false} UndismissedFollowsPlan(b: Banner, events: seq<Event>)
    requires !b.dismissed
    requires forall k :: 0 <= k < |events| ==> events[k].PlanChanged?
    ensures !Run(b, events).dismissed
    ensures |events| > 0 ==> Run(b, events).planType == events[|events| - 1].plan
    ensures |events| == 0 ==> Run(b, events) == b
    decreases |events|
  {
    if |events| > 0 {
      UndismissedFollowsPlan(Step(b, events[0]), events[1..]);
      if |events| > 1 {
        assert events[1..][|events[1..]| - 1] == events[|events| - 1];
      }
    }
  }

  /** After a dismissal anywhere in a run, the banner is hidden at its end. */
  lemma DismissalIsFinal(b: Banner, before: seq<Event>, after: seq<Event>)
    ensures !Visible(Run(b, before + [Dismiss] + after))
  {
    RunAppend(b, before, [Dismiss] + after);
    assert before + [Dismiss] + after == before + ([Dismiss] + after);
    var mid := Run(b, before);
    assert ([Dismiss] + after)[1..] == after;
    DismissedStaysDismissed(Step(mid, Dismiss), after);
  }

  /** Running two event lists one after the other is running their concatenation. */
  lemma {:induction false} RunAppend(b: Banner, xs: seq<Event>, ys: seq<Event>)
    ensures Run(b, xs + ys) == Run(Run(b, xs), ys)
    decreases |xs|
  {
    if |xs| == 0 {
      assert xs + ys == ys;
    } else {
      assert (xs + ys)[1..] == xs[1..] + ys;
      RunAppend(Step(b, xs[0]), xs[1..], ys);
    }
  }
}
