/**
 * The page Stripe returns to after a payment: the session id read from the
 * URL, the status query's enabling condition, and the effect that asks the
 * backend for an upgrade each time the status comes back completed.
 */
module PaymentSuccess {
  import opened Wrappers
  import opened Domain

  /** `urlParams.get('session_id') ?? ''`: a missing parameter reads as the empty id. */
  function SessionId(param: Option<string>): (id: string)
    ensures param.None? ==> id == ""
    ensures param.Some? ==> id == param.value
  {
    param.GetOr("")
  }

  /** The status query runs only once the actor is ready and for a non-empty id. */
  predicate StatusQueryEnabled(actorReady: bool, sessionId: string) {
    actorReady && sessionId != ""
  }

  /** Without a `session_id` parameter the status is never asked for. */
  lemma NoParamNoQuery(actorReady: bool)
    ensures !StatusQueryEnabled(actorReady, SessionId(None))
  {
  }

  /** The backend's session status; only its kind matters here. */
  datatype SessionStatus = Completed | FailedStatus(error: string)

  /**
   * The effect on a new `sessionStatus` value: an upgrade request exactly
   * when the value is present and completed. The requested plan is always
   * pro, whichever plan was bought.
   */
  function OnStatus(status: Option<SessionStatus>): (request: Option<Plan>)
    ensures request.Some? <==> status == Some(Completed)
    ensures request.Some? ==> request.value == Pro
  {
    if status == Some(Completed) then Some(Pro) else None
  }

  /** What the page does once the upgrade call settles. */
  datatype Effect = InvalidateProfile | SuccessToast(text: string)

  const UpgradedToast := "Your plan has been upgraded!"

  /** On success the profile cache is invalidated and a toast shown; a failure shows nothing. */
  function SettleUpgrade(succeeded: bool): (effects: seq<Effect>)
    ensures succeeded ==> effects == [InvalidateProfile, SuccessToast(UpgradedToast)]
    ensures !succeeded ==> effects == []
  {
    if succeeded then [InvalidateProfile, SuccessToast(UpgradedToast)] else []
  }

  /**
   * The upgrade requests issued over a run of `sessionStatus` values, each a
   * new value that re-runs the effect. No flag remembers an earlier request.
   */
  function UpgradeRequests(statuses: seq<Option<SessionStatus>>): (requests: seq<Plan>)
    ensures |requests| == multiset(statuses)[Some(Completed)]
    ensures forall k :: 0 <= k < |requests| ==> requests[k] == Pro
    decreases |statuses|
  {
    if |statuses| == 0 then []
    else
      var init := statuses[..|statuses| - 1];
      assert statuses == init + [statuses[|statuses| - 1]];
      var last := OnStatus(statuses[|statuses| - 1]);
      UpgradeRequests(init) + (if last.Some? then [last.value] else [])
  }

  /**
   * The effects over a run of `sessionStatus` values, where `outcomes[k]` is
   * how the upgrade call that the k-th value triggers ends (ignored when it
   * triggers none). Every invalidation comes with its toast; there is at
   * most one per completed value, and exactly one when every call succeeds.
   */
  function RunEffects(statuses: seq<Option<SessionStatus>>, outcomes: seq<bool>): (effects: seq<Effect>)
    requires |outcomes| == |statuses|
    ensures forall e :: e in effects ==> e == InvalidateProfile || e == SuccessToast(UpgradedToast)
    ensures multiset(effects)[InvalidateProfile] == multiset(effects)[SuccessToast(UpgradedToast)]
    ensures multiset(effects)[InvalidateProfile] <= multiset(statuses)[Some(Completed)]
    ensures (forall k :: 0 <= k < |outcomes| ==> outcomes[k]) ==>
      multiset(effects)[InvalidateProfile] == multiset(statuses)[Some(Completed)]
    decreases |statuses|
  {
    if |statuses| == 0 then []
    else
      var n := |statuses| - 1;
      var rest := RunEffects(statuses[..n], outcomes[..n]);
      assert statuses == statuses[..n] + [statuses[n]];
      assert forall k :: 0 <= k < n ==> outcomes[..n][k] == outcomes[k];
      var now := if OnStatus(statuses[n]).Some? then SettleUpgrade(outcomes[n]) else [];
      assert multiset(rest + now) == multiset(rest) + multiset(now);
      rest + now
  }

  /** The status coming back completed twice issues two upgrade requests. */
  lemma CompletedTwiceUpgradesTwice()
    ensures UpgradeRequests([Some(Completed), None, Some(Completed)]) == [Pro, Pro]
  {
    var s := [Some(Completed), None, Some(Completed)];
    assert s[..2] == [Some(Completed), None];
    assert s[..2][..1] == [Some(Completed)];
    assert s[..2][..1][..0] == [];
  }

  /** The "Activating your plan..." line: the status is loading for a non-empty id. */
  predicate ShowActivating(isLoading: bool, sessionId: string) {
    isLoading && sessionId != ""
  }

  /**
   * The spinner appears only for a page opened with a non-empty
   * `session_id`, never without the parameter, and, once the actor is
   * ready, only while the status query is enabled.
   */
  lemma ActivatingOnlyWithSession(isLoading: bool, param: Option<string>, actorReady: bool)
    ensures ShowActivating(isLoading, SessionId(param)) ==> param.Some? && param.value != ""
    ensures !ShowActivating(isLoading, SessionId(None))
    ensures ShowActivating(isLoading, SessionId(param)) && actorReady ==> StatusQueryEnabled(actorReady, SessionId(param))
  {
  }
}
