/**
 * The Stripe configuration form on the admin page: its submit handler's
 * validation, the allowed-countries list, what happens to the form after the
 * call, and what the component renders.
 */
module PaymentSetup {
  import opened Wrappers
  import Text

  /** The two inputs of the form. */
  datatype SetupForm = SetupForm(secretKey: string, countries: string)

  const DefaultCountries := "US, CA, GB, AU"
  const InitialForm := SetupForm("", DefaultCountries)

  const MissingKeyToast := "Please enter your Stripe secret key"
  const ConfiguredToast := "Stripe configured successfully!"
  const ConfigureFailedToast := "Failed to configure Stripe"

  /** The argument of `setStripeConfiguration`. */
  datatype StripeConfig = StripeConfig(secretKey: string, allowedCountries: seq<string>)

  datatype SubmitStep = Rejected(toast: string) | Configure(config: StripeConfig)

  /**
   * `handleSubmit` up to the call: a blank key is refused with a toast and
   * no call; otherwise the trimmed key and the parsed country list are sent.
   */
  function Submit(form: SetupForm): (step: SubmitStep)
    ensures step.Rejected? <==> Text.IsBlank(form.secretKey)
    ensures step.Rejected? ==> step.toast == MissingKeyToast
    ensures step.Configure? ==>
      && step.config.secretKey == Text.Trim(form.secretKey)
      && step.config.secretKey != ""
      && step.config.allowedCountries == Text.CommaList(form.countries)
  {
    if Text.Trim(form.secretKey) == "" then Rejected(MissingKeyToast)
    else Configure(StripeConfig(Text.Trim(form.secretKey), Text.CommaList(form.countries)))
  }

  /**
   * A press of "Save Configuration": the key field is `required`, so the
   * browser refuses an empty key before the handler runs, without a toast.
   * The handler's own toast is therefore seen only for a key made of
   * whitespace alone.
   */
  datatype Press = BlockedByBrowser | Handled(step: SubmitStep)

  function PressSave(form: SetupForm): (r: Press)
    ensures r.BlockedByBrowser? <==> form.secretKey == ""
    ensures r.Handled? ==> r.step == Submit(form)
    ensures (r.Handled? && r.step.Rejected?) <==> form.secretKey != "" && Text.IsBlank(form.secretKey)
    ensures r.Handled? && r.step.Configure? ==> r.step.config.secretKey == Text.Trim(form.secretKey)
  {
    if form.secretKey == "" then BlockedByBrowser else Handled(Submit(form))
  }

  /** Countries typed without stray spaces or empty entries are sent exactly as listed. */
  lemma CountriesRoundTrip(form: SetupForm, codes: seq<string>)
    requires !Text.IsBlank(form.secretKey)
    requires forall k :: 0 <= k < |codes| ==> Text.IsListEntry(codes[k])
    ensures Submit(form.(countries := Text.Join(codes, ','))).config.allowedCountries == codes
  {
    Text.CommaListJoin(codes);
  }

  /** The default input "US, CA, GB, AU" parses to the four codes. */
  lemma DefaultCountriesParse()
    ensures Text.CommaList(DefaultCountries) == ["US", "CA", "GB", "AU"]
  {
    var parts := ["US", " CA", " GB", " AU"];
    var codes := ["US", "CA", "GB", "AU"];
    SplitDefault();
    TrimParts(parts, codes);
    CodesKept();
  }

  /** The default input splits at its three commas. */
  lemma SplitDefault()
    ensures Text.Split(DefaultCountries, ',') == ["US", " CA", " GB", " AU"]
  {
    var parts := ["US", " CA", " GB", " AU"];
    assert parts[1..][1..][1..] == [" AU"];
    assert Text.Join([" GB", " AU"], ',') == " GB, AU";
    assert Text.Join([" CA", " GB", " AU"], ',') == " CA, GB, AU";
    assert Text.Join(parts, ',') == DefaultCountries;
    Text.SplitJoin(parts, ',');
  }

  /** Trimming the four pieces of the default input. */
  lemma TrimParts(parts: seq<string>, codes: seq<string>)
    requires parts == ["US", " CA", " GB", " AU"] && codes == ["US", "CA", "GB", "AU"]
    ensures Text.TrimAll(parts) == codes
  {
    Text.TrimFixed(codes[0]);
    LeadingSpace(codes[1]);
    LeadingSpace(codes[2]);
    LeadingSpace(codes[3]);
    assert parts[1] == " " + codes[1] && parts[2] == " " + codes[2] && parts[3] == " " + codes[3];
  }

  /** Trimming a single leading space off a code with no whitespace at its ends. */
  lemma LeadingSpace(code: string)
    requires |code| == 2 && !Text.IsWhitespace(code[0]) && !Text.IsWhitespace(code[1])
    ensures Text.Trim(" " + code) == code
  {
    var s := " " + code;
    assert s[1..] == code;
    assert Text.LeadingBlanks(code) == 0;
    assert Text.LeadingBlanks(s) == 1;
  }

  /** None of the four codes is empty, so the empty-entry filter keeps them all. */
  lemma CodesKept()
    ensures Text.DropEmpty(["US", "CA", "GB", "AU"]) == ["US", "CA", "GB", "AU"]
  {
    var codes := ["US", "CA", "GB", "AU"];
    assert forall i :: 0 <= i < |codes| ==> Text.NonEmpty(codes[i]);
    Text.DropEmptyAllKept(codes);
  }

  /**
   * The form after the call: on success the key is cleared and the
   * countries kept; on failure both are kept and the error's message, or a
   * generic text, is shown.
   */
  function SettleConfigure(form: SetupForm, succeeded: bool, message: Option<string>): (r: (SetupForm, string))
    ensures succeeded ==> r.0 == form.(secretKey := "") && r.1 == ConfiguredToast
    ensures !succeeded ==> r.0 == form && r.1 == Text.OrDefault(message, ConfigureFailedToast)
  {
    if succeeded then (form.(secretKey := ""), ConfiguredToast)
    else (form, Text.OrDefault(message, ConfigureFailedToast))
  }

  /**
   * A form settled after a successful call refuses to submit again until a
   * key is typed: the browser blocks the press, and the handler would refuse
   * the empty key too.
   */
  lemma ClearedKeyIsRejected(form: SetupForm, message: Option<string>)
    ensures PressSave(SettleConfigure(form, true, message).0).BlockedByBrowser?
    ensures Submit(SettleConfigure(form, true, message).0).Rejected?
  {
  }

  datatype SetupView = Nothing | ConfiguredCard | ConfigForm

  /** Nothing while the configured-query loads; the confirmation once configured; otherwise the form. */
  function View(isLoading: bool, isConfigured: Option<bool>): (v: SetupView)
    ensures v.Nothing? <==> isLoading
    ensures v.ConfiguredCard? <==> !isLoading && isConfigured == Some(true)
    ensures v.ConfigForm? <==> !isLoading && isConfigured != Some(true)
  {
    if isLoading then Nothing
    else if isConfigured == Some(true) then ConfiguredCard
    else ConfigForm
  }
}
