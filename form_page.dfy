/**
 * The client page of the registration wizard: the form record and its
 * merge-style update, the preference toggle, the four-step counter with its
 * per-step gates, the `requiredError` gate on submission and the
 * `sending`/`msg` outcome of a submission.  The network request is
 * abstracted to its outcome.
 */
module FormPage {
  import opened Wrappers
  import opened SubmitRoute

  /** The accumulated form record. */
  datatype Form = Form(
    name: string,
    email: string,
    phone: string,
    dobConfirmed: bool,
    ageRange: string,
    wantsPhysicalInvites: bool,
    cep: string,
    socialNetwork: string,
    socialHandle: string,
    preferences: seq<string>,
    freq: string,
    consentBasic: bool,
    consentPersonalization: bool,
    consentStats: bool,
    consentPartners: bool)

  /** A partial form: the fields an `update` call supplies (`None` = not supplied). */
  datatype FormPatch = FormPatch(
    name: Option<string>,
    email: Option<string>,
    phone: Option<string>,
    dobConfirmed: Option<bool>,
    ageRange: Option<string>,
    wantsPhysicalInvites: Option<bool>,
    cep: Option<string>,
    socialNetwork: Option<string>,
    socialHandle: Option<string>,
    preferences: Option<seq<string>>,
    freq: Option<string>,
    consentBasic: Option<bool>,
    consentPersonalization: Option<bool>,
    consentStats: Option<bool>,
    consentPartners: Option<bool>)

  /** The patch that supplies no field. */
  const NoChange := FormPatch(None, None, None, None, None, None, None, None, None, None, None, None, None, None, None)

  /** The names of the form's fields, for stating properties field by field. */
  datatype FieldName =
    | NameField | EmailField | PhoneField | DobConfirmedField | AgeRangeField
    | WantsPhysicalInvitesField | CepField | SocialNetworkField | SocialHandleField
    | PreferencesField | FreqField | ConsentBasicField | ConsentPersonalizationField
    | ConsentStatsField | ConsentPartnersField

  datatype FieldValue = Text(text: string) | Flag(flag: bool) | Items(items: seq<string>)

  /** The value of field `k` of `f`. */
  function FormField(f: Form, k: FieldName): FieldValue {
    match k
    case NameField => Text(f.name)
    case EmailField => Text(f.email)
    case PhoneField => Text(f.phone)
    case DobConfirmedField => Flag(f.dobConfirmed)
    case AgeRangeField => Text(f.ageRange)
    case WantsPhysicalInvitesField => Flag(f.wantsPhysicalInvites)
    case CepField => Text(f.cep)
    case SocialNetworkField => Text(f.socialNetwork)
    case SocialHandleField => Text(f.socialHandle)
    case PreferencesField => Items(f.preferences)
    case FreqField => Text(f.freq)
    case ConsentBasicField => Flag(f.consentBasic)
    case ConsentPersonalizationField => Flag(f.consentPersonalization)
    case ConsentStatsField => Flag(f.consentStats)
    case ConsentPartnersField => Flag(f.consentPartners)
  }

  function TextOf(o: Option<string>): Option<FieldValue> {
    if o.Some? then Some(Text(o.value)) else None
  }

  function FlagOf(o: Option<bool>): Option<FieldValue> {
    if o.Some? then Some(Flag(o.value)) else None
  }

  function ItemsOf(o: Option<seq<string>>): Option<FieldValue> {
    if o.Some? then Some(Items(o.value)) else None
  }

  /** The value a patch supplies for field `k`, if it supplies one. */
  function PatchField(q: FormPatch, k: FieldName): Option<FieldValue> {
    match k
    case NameField => TextOf(q.name)
    case EmailField => TextOf(q.email)
    case PhoneField => TextOf(q.phone)
    case DobConfirmedField => FlagOf(q.dobConfirmed)
    case AgeRangeField => TextOf(q.ageRange)
    case WantsPhysicalInvitesField => FlagOf(q.wantsPhysicalInvites)
    case CepField => TextOf(q.cep)
    case SocialNetworkField => TextOf(q.socialNetwork)
    case SocialHandleField => TextOf(q.socialHandle)
    case PreferencesField => ItemsOf(q.preferences)
    case FreqField => TextOf(q.freq)
    case ConsentBasicField => FlagOf(q.consentBasic)
    case ConsentPersonalizationField => FlagOf(q.consentPersonalization)
    case ConsentStatsField => FlagOf(q.consentStats)
    case ConsentPartnersField => FlagOf(q.consentPartners)
  }

  function Or<T>(o: Option<T>, fallback: T): T {
    if o.Some? then o.value else fallback
  }

  /** Field `k` of a form built field by field from `values` over `f`. */
  lemma OverlayField(f: Form, values: FormPatch, r: Form, k: FieldName)
    requires r.name == Or(values.name, f.name) && r.email == Or(values.email, f.email)
    requires r.phone == Or(values.phone, f.phone) && r.dobConfirmed == Or(values.dobConfirmed, f.dobConfirmed)
    requires r.ageRange == Or(values.ageRange, f.ageRange)
    requires r.wantsPhysicalInvites == Or(values.wantsPhysicalInvites, f.wantsPhysicalInvites)
    requires r.cep == Or(values.cep, f.cep) && r.socialNetwork == Or(values.socialNetwork, f.socialNetwork)
    requires r.socialHandle == Or(values.socialHandle, f.socialHandle)
    requires r.preferences == Or(values.preferences, f.preferences) && r.freq == Or(values.freq, f.freq)
    requires r.consentBasic == Or(values.consentBasic, f.consentBasic)
    requires r.consentPersonalization == Or(values.consentPersonalization, f.consentPersonalization)
    requires r.consentStats == Or(values.consentStats, f.consentStats)
    requires r.consentPartners == Or(values.consentPartners, f.consentPartners)
    ensures FormField(r, k) == (if PatchField(values, k).Some? then PatchField(values, k).value
                                else FormField(f, k))
  {
  }

  /**
   * The object spread `{ ...f, ...values }`: every field `values` supplies
   * takes that value, and every other field keeps its value in `f`.
   */
  function Merge(f: Form, values: FormPatch): (r: Form)
    ensures forall k :: FormField(r, k) == (if PatchField(values, k).Some? then PatchField(values, k).value
                                            else FormField(f, k))
  {
    var r := Form(Or(values.name, f.name), Or(values.email, f.email), Or(values.phone, f.phone),
                  Or(values.dobConfirmed, f.dobConfirmed), Or(values.ageRange, f.ageRange),
                  Or(values.wantsPhysicalInvites, f.wantsPhysicalInvites), Or(values.cep, f.cep),
                  Or(values.socialNetwork, f.socialNetwork), Or(values.socialHandle, f.socialHandle),
                  Or(values.preferences, f.preferences), Or(values.freq, f.freq),
                  Or(values.consentBasic, f.consentBasic),
                  Or(values.consentPersonalization, f.consentPersonalization),
                  Or(values.consentStats, f.consentStats), Or(values.consentPartners, f.consentPartners));
    assert forall k :: FormField(r, k) == (if PatchField(values, k).Some? then PatchField(values, k).value
                                           else FormField(f, k)) by {
      forall k {
        OverlayField(f, values, r, k);
      }
    }
    r
  }

  /** An update that supplies nothing leaves the form as it was. */
  lemma MergeNoChange(f: Form)
    ensures Merge(f, NoChange) == f
  {
  }

  /** Applying the same update twice is the same as applying it once. */
  lemma MergeIdempotent(f: Form, values: FormPatch)
    ensures Merge(Merge(f, values), values) == Merge(f, values)
  {
  }

  /** The form's state when the page is first rendered. */
  function InitialForm(): (f: Form)
    ensures f.name == f.email == f.phone == f.ageRange == f.cep == ""
    ensures f.socialNetwork == f.socialHandle == f.freq == "" && f.preferences == []
    ensures !f.dobConfirmed && !f.wantsPhysicalInvites
    ensures !f.consentBasic && !f.consentPersonalization && !f.consentStats && !f.consentPartners
    ensures RequiredError(f)
  {
    Form("", "", "", false, "", false, "", "", "", [], "", false, false, false, false)
  }

  /** The list `filter` that drops every occurrence of `p`. */
  function Without(xs: seq<string>, p: string): (r: seq<string>)
    ensures p !in r
    ensures |r| <= |xs|
  {
    if xs == [] then []
    else if xs[0] == p then Without(xs[1..], p)
    else [xs[0]] + Without(xs[1..], p)
  }

  /** The filtered list holds exactly the old members other than `p`. */
  lemma {:induction false} WithoutMembers(xs: seq<string>, p: string)
    ensures forall q :: q in Without(xs, p) <==> q in xs && q != p
  {
    if xs != [] {
      WithoutMembers(xs[1..], p);
      assert forall q :: q in xs <==> q == xs[0] || q in xs[1..];
    }
  }

  /** The new preference list of `togglePref`: drop `p` if present, else append it. */
  function ToggledPreferences(xs: seq<string>, p: string): (r: seq<string>)
    ensures p in r <==> p !in xs
    ensures forall q :: q != p ==> (q in r <==> q in xs)
  {
    if p in xs then WithoutMembers(xs, p); Without(xs, p) else xs + [p]
  }

  /** Dropping a value the list does not hold returns the list itself. */
  lemma {:induction false} WithoutAbsent(xs: seq<string>, p: string)
    requires p !in xs
    ensures Without(xs, p) == xs
  {
    if xs != [] {
      WithoutAbsent(xs[1..], p);
      assert xs == [xs[0]] + xs[1..];
    }
  }

  /** Dropping from a concatenation drops from each part. */
  lemma {:induction false} WithoutAppend(xs: seq<string>, ys: seq<string>, p: string)
    ensures Without(xs + ys, p) == Without(xs, p) + Without(ys, p)
  {
    if xs == [] {
      assert xs + ys == ys;
    } else {
      var zs := xs + ys;
      assert zs[1..] == xs[1..] + ys;
      var x := xs[0];
      WithoutAppend(xs[1..], ys, p);
      if x == p {
        assert Without(zs, p) == Without(zs[1..], p);
      } else {
        assert Without(zs, p) == [x] + Without(zs[1..], p);
        assert Without(xs, p) == [x] + Without(xs[1..], p);
      }
    }
  }

  /** Toggling an absent preference twice gives back the original list exactly. */
  lemma ToggleTwiceRestoresAbsent(xs: seq<string>, p: string)
    requires p !in xs
    ensures ToggledPreferences(ToggledPreferences(xs, p), p) == xs
  {
    WithoutAppend(xs, [p], p);
    WithoutAbsent(xs, p);
  }

  /**
   * Toggling a present preference twice moves it to the end: membership is
   * restored, the order need not be.
   */
  lemma ToggleTwiceMovesPresentToEnd(xs: seq<string>, p: string)
    requires p in xs
    ensures ToggledPreferences(ToggledPreferences(xs, p), p) == Without(xs, p) + [p]
    ensures forall q :: q in ToggledPreferences(ToggledPreferences(xs, p), p) <==> q in xs
  {
  }

  predicate NoDuplicates(xs: seq<string>) {
    forall i, j :: 0 <= i < j < |xs| ==> xs[i] != xs[j]
  }

  /** Dropping a value keeps a duplicate-free list duplicate-free. */
  lemma {:induction false} WithoutKeepsNoDuplicates(xs: seq<string>, p: string)
    requires NoDuplicates(xs)
    ensures NoDuplicates(Without(xs, p))
  {
    if xs != [] {
      assert NoDuplicates(xs[1..]) by {
        forall i, j | 0 <= i < j < |xs[1..]| ensures xs[1..][i] != xs[1..][j] {
          assert xs[1..][i] == xs[i + 1] && xs[1..][j] == xs[j + 1];
        }
      }
      WithoutKeepsNoDuplicates(xs[1..], p);
      if xs[0] != p {
        var rest := Without(xs[1..], p);
        WithoutMembers(xs[1..], p);
        assert xs[0] !in xs[1..] by {
          forall j | 0 <= j < |xs[1..]| ensures xs[1..][j] != xs[0] {
            assert xs[1..][j] == xs[j + 1];
          }
        }
        assert xs[0] !in rest;
        forall i, j | 0 <= i < j < |[xs[0]] + rest| ensures ([xs[0]] + rest)[i] != ([xs[0]] + rest)[j] {
          if i > 0 {
            assert ([xs[0]] + rest)[i] == rest[i - 1] && ([xs[0]] + rest)[j] == rest[j - 1];
          } else {
            assert ([xs[0]] + rest)[j] in rest;
          }
        }
      }
    }
  }

  /** A duplicate-free preference list stays duplicate-free after a toggle. */
  lemma ToggleKeepsNoDuplicates(xs: seq<string>, p: string)
    requires NoDuplicates(xs)
    ensures NoDuplicates(ToggledPreferences(xs, p))
  {
    if p in xs {
      WithoutKeepsNoDuplicates(xs, p);
    } else {
      var r := xs + [p];
      forall i, j | 0 <= i < j < |r| ensures r[i] != r[j] {
        if j == |xs| { assert r[i] in xs; }
      }
    }
  }

  /** The body `JSON.stringify(form)` sends: every key present, with the form's value. */
  function ToPayload(f: Form): (p: Payload)
    ensures p.name == Some(f.name) && p.email == Some(f.email) && p.phone == Some(f.phone)
    ensures p.dobConfirmed == Some(f.dobConfirmed) && p.ageRange == Some(f.ageRange)
    ensures p.wantsPhysicalInvites == Some(f.wantsPhysicalInvites) && p.cep == Some(f.cep)
    ensures p.preferences == Some(f.preferences) && p.freq == Some(f.freq)
    ensures p.socialNetwork == Some(f.socialNetwork) && p.socialHandle == Some(f.socialHandle)
    ensures p.consentBasic == Some(f.consentBasic) && p.consentPersonalization == Some(f.consentPersonalization)
    ensures p.consentStats == Some(f.consentStats) && p.consentPartners == Some(f.consentPartners)
  {
    Payload(Some(f.name), Some(f.email), Some(f.phone), Some(f.dobConfirmed), Some(f.ageRange),
            Some(f.wantsPhysicalInvites), Some(f.cep), Some(f.preferences), Some(f.freq),
            Some(f.socialNetwork), Some(f.socialHandle), Some(f.consentBasic),
            Some(f.consentPersonalization), Some(f.consentStats), Some(f.consentPartners))
  }

  /**
   * The `requiredError` gate of the submit button.  A form it flags is one
   * the endpoint would refuse; a form it clears has e-mail, phone, age
   * confirmation and basic consent.
   */
  function RequiredError(f: Form): (e: bool)
    ensures e ==> Validate(ToPayload(f)).Err?
    ensures !e ==> f.email != "" && f.phone != "" && f.dobConfirmed && f.consentBasic
  {
    f.email == "" || f.phone == "" || !f.dobConfirmed ||
    (f.wantsPhysicalInvites && f.cep == "") || !f.consentBasic
  }

  /** Whether step `step` shows an enabled "next" button: never past step 3. */
  function NextEnabled(step: int, f: Form): (b: bool)
    ensures b ==> 1 <= step <= 3
  {
    match step
    case 1 => f.dobConfirmed && f.ageRange != ""
    case 2 => f.email != "" && f.phone != ""
    case 3 => true
    case _ => false
  }

  /** Whether step `step` shows a "back" button (it is never disabled). */
  function BackEnabled(step: int): (b: bool)
    ensures b <==> 2 <= step <= 4
  {
    step == 2 || step == 3 || step == 4
  }

  /** Whether the submit button, shown on step 4 only, is enabled. */
  function SubmitEnabled(step: int, f: Form, sending: bool): (b: bool)
    ensures b ==> f.email != "" && f.phone != "" && f.dobConfirmed && f.consentBasic
  {
    step == 4 && !(RequiredError(f) || sending)
  }

  /** The step on which the input for field `k` is rendered. */
  function InputStep(k: FieldName): int {
    match k
    case DobConfirmedField | AgeRangeField | NameField => 1
    case EmailField | PhoneField => 2
    case WantsPhysicalInvitesField | CepField | SocialNetworkField | SocialHandleField
       | PreferencesField | FreqField => 3
    case ConsentBasicField | ConsentPersonalizationField | ConsentStatsField | ConsentPartnersField => 4
  }

  /**
   * Whether the inputs shown on step `step` can supply `values` to
   * `update`: each supplied field is rendered on that step, and the age
   * range select is enabled only once age is confirmed.
   */
  predicate InputsOnStep(step: int, f: Form, values: FormPatch) {
    (forall k :: PatchField(values, k).Some? ==> InputStep(k) == step) &&
    (values.ageRange.Some? ==> f.dobConfirmed)
  }

  /**
   * What passing the gates guarantees: past step 1 the age is confirmed
   * and an age range chosen; past step 2 e-mail and phone are filled.
   */
  predicate StepsCompleted(step: int, f: Form) {
    (step >= 2 ==> f.dobConfirmed && f.ageRange != "") &&
    (step >= 3 ==> f.email != "" && f.phone != "")
  }

  /** Any form the endpoint accepts has cleared the client's `requiredError` gate. */
  lemma AcceptedFormClearsRequiredError(f: Form)
    requires Validate(ToPayload(f)).Ok?
    ensures !RequiredError(f)
  {
  }

  /**
   * The endpoint accepts a form exactly when the client gate is clear and,
   * in addition, the name and age range are filled in and a requested
   * postal code has at least 8 characters.
   */
  lemma AcceptanceGap(f: Form)
    ensures Validate(ToPayload(f)).Ok? <==>
      !RequiredError(f) && f.name != "" && f.ageRange != "" &&
      (f.wantsPhysicalInvites ==> |f.cep| >= 8)
  {
  }

  /**
   * On step 4 of the wizard the age range is already chosen, so the gap
   * narrows to the name and the postal-code length.
   */
  lemma AcceptanceGapOnLastStep(f: Form)
    requires StepsCompleted(4, f)
    ensures Validate(ToPayload(f)).Ok? <==>
      !RequiredError(f) && f.name != "" && (f.wantsPhysicalInvites ==> |f.cep| >= 8)
  {
  }

  /**
   * The converse of `AcceptedFormClearsRequiredError` fails: the page labels
   * the name optional, so a form without one can be submitted, and the
   * endpoint refuses it.
   */
  lemma OptionalNameIsRefused(f: Form)
    requires !RequiredError(f) && f.name == ""
    ensures Validate(ToPayload(f)) == Err(MissingContact)
  {
  }

  /** The gate of step 1 is exactly the endpoint's age-confirmation and age-range rules. */
  lemma StepOneGateMatchesServer(f: Form)
    ensures NextEnabled(1, f) <==>
      RuleHolds(AgeNotConfirmed, ToPayload(f)) && RuleHolds(MissingAgeRange, ToPayload(f))
  {
  }

  /** What `fetch` gave the page. */
  datatype FetchOutcome =
    | ResponseOk       // `r.ok`: a 2xx status
    | ResponseNotOk    // any other status
    | FetchThrew       // the request itself threw

  /** How the page reads an HTTP status from the endpoint (`r.ok`). */
  function FetchOutcomeOf(status: int): FetchOutcome {
    if 200 <= status <= 299 then ResponseOk else ResponseNotOk
  }

  /**
   * End to end: the page reads the endpoint's answer to its form as a
   * success exactly when the endpoint accepted the form and the insert
   * succeeded.
   */
  lemma SuccessMeansStored(f: Form, store: InsertOutcome)
    ensures FetchOutcomeOf(Post(Body(ToPayload(f)), store).response.status) == ResponseOk <==>
      Validate(ToPayload(f)).Ok? && store == Inserted
  {
  }

  /** The status line under the submit button. */
  datatype Notice = Blank | Sent | SendFailed

  /** The page component's state. */
  class Page {
    var step: int
    var sending: bool
    var msg: Notice
    var form: Form

    /** The wizard has four steps, and the gates passed so far still hold. */
    ghost predicate Valid()
      reads this
    {
      1 <= step <= 4 && StepsCompleted(step, form)
    }

    constructor ()
      ensures Valid()
      ensures step == 1 && !sending && msg == Blank && form == InitialForm()
    {
      step := 1;
      sending := false;
      msg := Blank;
      form := InitialForm();
    }

    /** `update(values)` from an input of the current step: merge the supplied fields. */
    method Update(values: FormPatch)
      requires Valid() && InputsOnStep(step, form, values)
      modifies this
      ensures Valid()
      ensures form == Merge(old(form), values)
      ensures step == old(step) && sending == old(sending) && msg == old(msg)
    {
      assert FormField(Merge(form, values), DobConfirmedField) == FormField(form, DobConfirmedField) || step == 1;
      assert FormField(Merge(form, values), AgeRangeField) == FormField(form, AgeRangeField) || step == 1;
      assert FormField(Merge(form, values), EmailField) == FormField(form, EmailField) || step <= 2;
      assert FormField(Merge(form, values), PhoneField) == FormField(form, PhoneField) || step <= 2;
      form := Merge(form, values);
    }

    /** `togglePref(p)`, from a preference checkbox of step 3: flip whether `p` is a preference. */
    method TogglePref(p: string)
      requires Valid() && step == 3
      modifies this
      ensures Valid()
      ensures form == old(form).(preferences := ToggledPreferences(old(form).preferences, p))
      ensures p in form.preferences <==> p !in old(form.preferences)
      ensures step == old(step) && sending == old(sending) && msg == old(msg)
    {
      var values := NoChange.(preferences := Some(ToggledPreferences(form.preferences, p)));
      Update(values);
    }

    /** A press of "next": advances one step when the button is shown and enabled. */
    method Next()
      requires Valid()
      modifies this
      ensures Valid()
      ensures step == if NextEnabled(old(step), old(form)) then old(step) + 1 else old(step)
      ensures form == old(form) && sending == old(sending) && msg == old(msg)
    {
      if NextEnabled(step, form) {
        step := step + 1;
      }
    }

    /** A press of "back": goes back one step when the button is shown. */
    method Back()
      requires Valid()
      modifies this
      ensures Valid()
      ensures step == if BackEnabled(old(step)) then old(step) - 1 else old(step)
      ensures form == old(form) && sending == old(sending) && msg == old(msg)
    {
      if BackEnabled(step) {
        step := step - 1;
      }
    }

    /**
     * A press of "submit": when the button is enabled, the request starts,
     * `sending` is raised and the status line is cleared.
     */
    method Submit() returns (started: bool)
      modifies this
      ensures started == SubmitEnabled(old(step), old(form), old(sending))
      ensures started ==> sending && msg == Blank
      ensures !started ==> sending == old(sending) && msg == old(msg)
      ensures step == old(step) && form == old(form)
    {
      started := SubmitEnabled(step, form, sending);
      if started {
        sending := true;
        msg := Blank;
      }
    }

    /** The request started by `Submit` has settled: report it and lower `sending`. */
    method Resolve(outcome: FetchOutcome)
      requires sending
      modifies this
      ensures !sending
      ensures msg == Sent <==> outcome == ResponseOk
      ensures msg == SendFailed <==> outcome != ResponseOk
      ensures step == old(step) && form == old(form)
    {
      if outcome == ResponseOk {
        msg := Sent;
      } else {
        msg := SendFailed;
      }
      sending := false;
    }
  }

  /**
   * While a request is in flight a second press of "submit" starts nothing,
   * and once it settles the status line reports it; the step and the form
   * are left as they were.
   */
  method SubmitOnce(page: Page, outcome: FetchOutcome) returns (first: bool, second: bool)
    requires page.Valid() && page.step == 4 && !page.sending && !RequiredError(page.form)
    modifies page
    ensures first && !second
    ensures page.Valid() && !page.sending
    ensures page.step == old(page.step) && page.form == old(page.form)
    ensures page.msg == (if outcome == ResponseOk then Sent else SendFailed)
  {
    first := page.Submit();
    second := page.Submit();
    page.Resolve(outcome);
  }
}
