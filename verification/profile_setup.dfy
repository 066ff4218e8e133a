/**
 * The first-visit dialog that creates the caller's profile: validation of
 * the email, the user-creation call whose failure is ignored, and the
 * initial profile record it saves.
 */
module ProfileSetup {
  import opened Domain
  import Text

  const MissingEmailToast := "Please enter your email"
  const WelcomeToast := "Welcome to GreenChef! 🌿"
  const SaveFailedToast := "Failed to save profile. Please try again."

  /** The dialog's two inputs; the name is collected but never sent. */
  datatype SetupForm = SetupForm(name: string, email: string)

  /** The backend calls the handler makes, in order. */
  datatype SetupCall = CreateUser(email: string) | SaveProfile(profile: Profile)

  datatype SubmitStep = Rejected(toast: string) | Calls(calls: seq<SetupCall>)

  /**
   * The record saved for a new user: the trimmed email, the free plan, no
   * recipes yet, the default daily limit, and the clock in milliseconds
   * scaled to nanoseconds.
   */
  function InitialProfile(email: string, nowMillis: nat): (p: Profile)
    ensures p.email == Text.Trim(email)
    ensures p.planType == Free && p.dailyRecipeCount == 0 && p.dailyLimit == DefaultDailyLimit == 5
    ensures p.createdAt / 1000000 == nowMillis && p.createdAt % 1000000 == 0
  {
    Profile(Text.Trim(email), Free, 0, DefaultDailyLimit, nowMillis * 1000000)
  }

  /**
   * `handleSubmit`: a blank email is refused with a toast and no call;
   * otherwise the user is created and then the profile is saved. Whether the
   * creation failed does not matter: the save is made either way.
   */
  function Submit(form: SetupForm, nowMillis: nat, createSucceeded: bool): (step: SubmitStep)
    ensures step.Rejected? <==> Text.IsBlank(form.email)
    ensures step.Rejected? ==> step.toast == MissingEmailToast
    ensures step.Calls? ==>
      step.calls == [CreateUser(Text.Trim(form.email)), SaveProfile(InitialProfile(form.email, nowMillis))]
  {
    var email := Text.Trim(form.email);
    if email == "" then Rejected(MissingEmailToast)
    else Calls([CreateUser(email), SaveProfile(InitialProfile(form.email, nowMillis))])
  }

  /** The calls depend neither on the name nor on whether the user creation failed. */
  lemma SubmitIgnoresNameAndCreateOutcome(form: SetupForm, otherName: string, nowMillis: nat, c1: bool, c2: bool)
    ensures Submit(form, nowMillis, c1) == Submit(form.(name := otherName), nowMillis, c2)
  {
  }

  /** The toast once the save settles. */
  function SaveToast(succeeded: bool): (toast: string)
    ensures toast == WelcomeToast <==> succeeded
    ensures toast == SaveFailedToast <==> !succeeded
  {
    if succeeded then WelcomeToast else SaveFailedToast
  }

  /**
   * The toast a whole submission ends with: the missing-email toast for a
   * blank email, otherwise the outcome of the save. The welcome toast thus
   * shows exactly when the email was given and the profile was saved,
   * whether or not creating the user failed.
   */
  function SubmitToast(form: SetupForm, saveSucceeded: bool): (toast: string)
    ensures toast == MissingEmailToast <==> Text.IsBlank(form.email)
    ensures toast == WelcomeToast <==> !Text.IsBlank(form.email) && saveSucceeded
    ensures toast == SaveFailedToast <==> !Text.IsBlank(form.email) && !saveSucceeded
  {
    // The three toasts differ in their first character.
    assert MissingEmailToast[0] == 'P' && WelcomeToast[0] == 'W' && SaveFailedToast[0] == 'F';
    match Submit(form, 0, true)
    case Rejected(t) => t
    case Calls(_) => SaveToast(saveSucceeded)
  }

  /** `disabled={isPending || !email.trim()}`. */
  predicate SubmitDisabled(savePending: bool, createPending: bool, email: string) {
    savePending || createPending || Text.Trim(email) == ""
  }

  /**
   * A press of the submit button. The email field is `required` and of type
   * `email`, so the browser validates it before the handler runs and blocks
   * the press, without a toast, when it rejects the value. `emailAccepted`
   * is the browser's verdict; it always rejects the empty value.
   */
  datatype Press = BlockedByBrowser | Handled(step: SubmitStep)

  function PressSubmit(form: SetupForm, emailAccepted: bool, nowMillis: nat, createSucceeded: bool): (r: Press)
    ensures r.BlockedByBrowser? <==> form.email == "" || !emailAccepted
    ensures r.Handled? ==> r.step == Submit(form, nowMillis, createSucceeded)
  {
    if form.email == "" || !emailAccepted then BlockedByBrowser
    else Handled(Submit(form, nowMillis, createSucceeded))
  }

  /**
   * A press of the enabled button reaches the handler exactly when the
   * browser accepts the email, and the handler then always makes its calls:
   * its own toast for a blank email is never seen through the button.
   */
  lemma EnabledSubmitCalls(form: SetupForm, emailAccepted: bool, nowMillis: nat, createSucceeded: bool)
    requires !SubmitDisabled(false, false, form.email)
    ensures PressSubmit(form, emailAccepted, nowMillis, createSucceeded).Handled? <==> emailAccepted
    ensures PressSubmit(form, emailAccepted, nowMillis, createSucceeded).Handled? ==>
      PressSubmit(form, emailAccepted, nowMillis, createSucceeded).step.Calls?
  {
  }
}
