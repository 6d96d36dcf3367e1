/**
 * The Talent Hub inquiry form (components/TalentHub/TalentInquiryForm.tsx):
 * a three-step wizard. Step 1 asks for the company, the contact person, the
 * e-mail address and an optional phone number; step 2 for the roles, the hiring
 * challenge and the timeline; step 3 for the co-branding consent and submission.
 *
 * The pure parts (the e-mail pattern, the role toggle, the phone helpers, the
 * country autofill and the request payload) are functions; the component's state
 * cells are the fields of the class FormController, whose methods are the
 * component's event handlers.
 */
module InquiryForm {
  import opened Wrappers
  import opened JsText
  import opened Json

  // ---------------------------------------------------------------------------
  // Form data

  datatype Field =
    | CompanyName | ContactName | Email | CountryCode | PhoneNumber
    | RolesInterested | HiringChallenge | Timeline | CoBrandingConsent

  datatype FormData = FormData(
    companyName: string,
    contactName: string,
    email: string,
    countryCode: string,
    phoneNumber: string,
    rolesInterested: seq<string>,
    hiringChallenge: string,
    timeline: string,
    coBrandingConsent: bool)

  /** The values `updateField` is called with: a string, a list of strings or a flag. */
  datatype FieldValue = Text(text: string) | List(items: seq<string>) | Flag(flag: bool)

  /** The form as it is first rendered: everything empty, India's dial code preselected. */
  function InitialForm(): (r: FormData)
    ensures !Step1Ok(r) && !Step2Ok(r)
    ensures FullPhone(r) == "" && !r.coBrandingConsent
    ensures r.countryCode == DialCodes["IN"] && r.countryCode in CountryCodeOptions
  {
    FormData("", "", "", "+91", "", [], "", "", false)
  }

  /** The wizard panel on which the input for a field is rendered. */
  function StepOf(f: Field): int {
    match f
    case CompanyName | ContactName | Email | CountryCode | PhoneNumber => 1
    case RolesInterested | HiringChallenge | Timeline => 2
    case CoBrandingConsent => 3
  }

  /** Whether a value has the type of the field it is stored in. */
  predicate Fits(f: Field, v: FieldValue) {
    match f
    case RolesInterested => v.List?
    case CoBrandingConsent => v.Flag?
    case _ => v.Text?
  }

  /** The value of one field. */
  function Get(d: FormData, f: Field): FieldValue {
    match f
    case CompanyName => Text(d.companyName)
    case ContactName => Text(d.contactName)
    case Email => Text(d.email)
    case CountryCode => Text(d.countryCode)
    case PhoneNumber => Text(d.phoneNumber)
    case RolesInterested => List(d.rolesInterested)
    case HiringChallenge => Text(d.hiringChallenge)
    case Timeline => Text(d.timeline)
    case CoBrandingConsent => Flag(d.coBrandingConsent)
  }

  /** `{ ...prev, [field]: value }`: field `f` holds `v`, every other field keeps its value. */
  function With(d: FormData, f: Field, v: FieldValue): (r: FormData)
    requires Fits(f, v)
    ensures Get(r, f) == v
    ensures forall g :: g != f ==> Get(r, g) == Get(d, g)
  {
    match f
    case CompanyName => d.(companyName := v.text)
    case ContactName => d.(contactName := v.text)
    case Email => d.(email := v.text)
    case CountryCode => d.(countryCode := v.text)
    case PhoneNumber => d.(phoneNumber := v.text)
    case RolesInterested => d.(rolesInterested := v.items)
    case HiringChallenge => d.(hiringChallenge := v.text)
    case Timeline => d.(timeline := v.text)
    case CoBrandingConsent => d.(coBrandingConsent := v.flag)
  }

  /** Editing a field of one panel leaves what the other panels check untouched. */
  lemma WithKeepsOtherSteps(d: FormData, f: Field, v: FieldValue)
    requires Fits(f, v)
    ensures StepOf(f) != 1 ==> (Step1Ok(With(d, f, v)) <==> Step1Ok(d))
    ensures StepOf(f) != 2 ==> (Step2Ok(With(d, f, v)) <==> Step2Ok(d))
    ensures f != PhoneNumber ==> With(d, f, v).phoneNumber == d.phoneNumber
    ensures f != RolesInterested ==> With(d, f, v).rolesInterested == d.rolesInterested
  {
  }

  // ---------------------------------------------------------------------------
  // The e-mail pattern /^[^\s@]+@[^\s@]+\.[^\s@]+$/

  /** `[^\s@]`: neither whitespace nor '@'. */
  predicate EmailChar(c: char) {
    !IsWhitespace(c) && c != '@'
  }

  /** `[^\s@]+`: a non-empty run of such characters. */
  predicate EmailRun(s: string) {
    |s| > 0 && forall i :: 0 <= i < |s| ==> EmailChar(s[i])
  }

  /** The client's e-mail test, read off the pattern: the whole string is a run,
      an '@', a run, a '.', and a run (the pattern is anchored at both ends). */
  predicate MatchesEmailPattern(s: string) {
    exists at, dot | 0 <= at < dot < |s| ::
      s[at] == '@' && s[dot] == '.' &&
      EmailRun(s[..at]) && EmailRun(s[at + 1..dot]) && EmailRun(s[dot + 1..])
  }

  /** The same test stated as properties of the address: no whitespace anywhere,
      exactly one '@', something before it, and after it a '.' that has text on both sides. */
  predicate HasEmailShape(s: string) {
    && (forall i :: 0 <= i < |s| ==> !IsWhitespace(s[i]))
    && exists at | 0 < at < |s| ::
         && s[at] == '@'
         && (forall i :: 0 <= i < |s| && i != at ==> s[i] != '@')
         && exists dot | at + 1 < dot < |s| - 1 :: s[dot] == '.'
  }

  lemma MatchHasShape(s: string)
    requires MatchesEmailPattern(s)
    ensures HasEmailShape(s)
  {
    var at, dot :| 0 <= at < dot < |s| && s[at] == '@' && s[dot] == '.' &&
      EmailRun(s[..at]) && EmailRun(s[at + 1..dot]) && EmailRun(s[dot + 1..]);
    forall i | 0 <= i < |s| && i != at
      ensures !IsWhitespace(s[i]) && s[i] != '@'
    {
      if i < at {
        assert s[..at][i] == s[i];
      } else if at < i < dot {
        assert s[at + 1..dot][i - at - 1] == s[i];
      } else if dot < i {
        assert s[dot + 1..][i - dot - 1] == s[i];
      }
    }
    assert |s[..at]| > 0 && |s[at + 1..dot]| > 0 && |s[dot + 1..]| > 0;
    assert at + 1 < dot < |s| - 1;
  }

  lemma ShapeMatches(s: string)
    requires HasEmailShape(s)
    ensures MatchesEmailPattern(s)
  {
    var at :| 0 < at < |s| && s[at] == '@'
      && (forall i :: 0 <= i < |s| && i != at ==> s[i] != '@')
      && exists dot | at + 1 < dot < |s| - 1 :: s[dot] == '.';
    var dot :| at + 1 < dot < |s| - 1 && s[dot] == '.';
    assert EmailRun(s[..at]) by {
      forall i | 0 <= i < at ensures EmailChar(s[..at][i]) {
        assert s[..at][i] == s[i];
      }
    }
    assert EmailRun(s[at + 1..dot]) by {
      forall i | at + 1 <= i < dot ensures EmailChar(s[i]) { }
    }
    assert EmailRun(s[dot + 1..]) by {
      forall i | dot + 1 <= i < |s| ensures EmailChar(s[i]) { }
    }
  }

  /** The pattern accepts exactly the strings of that shape. */
  lemma EmailPatternIff(s: string)
    ensures MatchesEmailPattern(s) <==> HasEmailShape(s)
  {
    if MatchesEmailPattern(s) {
      MatchHasShape(s);
    }
    if HasEmailShape(s) {
      ShapeMatches(s);
    }
  }

  // ---------------------------------------------------------------------------
  // Step validation

  /** The message the form shows under a field whose check failed. */
  function ErrorMessage(f: Field): (r: string)
    ensures r != "" <==> exists d, n :: Violates(d, n, f)
  {
    // The empty form violates every check, on the panel that renders the field.
    assert f !in {CountryCode, PhoneNumber, CoBrandingConsent} ==> Violates(InitialForm(), StepOf(f), f);
    match f
    case CompanyName => "Company name is required"
    case ContactName => "Your name is required"
    case Email => "Please enter a valid email"
    case RolesInterested => "Please select at least one role"
    case HiringChallenge => "Please select your hiring challenge"
    case Timeline => "Please select your timeline"
    case _ => ""
  }

  /** Whether validating step `n` flags field `f`. JavaScript's `length` counts UTF-16 units. */
  predicate Violates(d: FormData, n: int, f: Field) {
    || (n == 1 && f == CompanyName && Utf16Length(d.companyName) < 2)
    || (n == 1 && f == ContactName && Utf16Length(d.contactName) < 2)
    || (n == 1 && f == Email && !MatchesEmailPattern(d.email))
    || (n == 2 && f == RolesInterested && |d.rolesInterested| == 0)
    || (n == 2 && f == HiringChallenge && d.hiringChallenge == "")
    || (n == 2 && f == Timeline && d.timeline == "")
  }

  /** What step 1 asks of the data before the wizard moves on. */
  predicate Step1Ok(d: FormData) {
    Utf16Length(d.companyName) >= 2 && Utf16Length(d.contactName) >= 2 && MatchesEmailPattern(d.email)
  }

  /** What step 2 asks of the data before the wizard moves on. */
  predicate Step2Ok(d: FormData) {
    |d.rolesInterested| > 0 && d.hiringChallenge != "" && d.timeline != ""
  }

  /** The verdict of `validateStep(n)`: steps other than 1 and 2 have nothing to check. */
  predicate StepPasses(d: FormData, n: int) {
    (n == 1 ==> Step1Ok(d)) && (n == 2 ==> Step2Ok(d))
  }

  /** A step passes exactly when none of its fields is flagged. */
  lemma StepPassesIffNothingFlagged(d: FormData, n: int)
    ensures StepPasses(d, n) <==> forall f :: !Violates(d, n, f)
  {
    if !StepPasses(d, n) {
      if n == 1 {
        assert Violates(d, n, CompanyName) || Violates(d, n, ContactName) || Violates(d, n, Email);
      } else {
        assert Violates(d, n, RolesInterested) || Violates(d, n, HiringChallenge) || Violates(d, n, Timeline);
      }
    }
  }

  /** Step 1 accepts exactly: a company and a contact name of at least two UTF-16 units
      each, and an address of the shape the pattern describes. */
  lemma Step1Accepts(d: FormData)
    ensures StepPasses(d, 1) <==>
      && Utf16Length(d.companyName) >= 2
      && Utf16Length(d.contactName) >= 2
      && HasEmailShape(d.email)
  {
    EmailPatternIff(d.email);
  }

  // ---------------------------------------------------------------------------
  // Errors

  /** A field's error is displayed when its entry exists and is not empty. */
  predicate Shows(errs: map<Field, string>, f: Field) {
    f in errs && errs[f] != ""
  }

  /** The error map after `updateField(f, …)`: the entry for `f`, if shown, is blanked. */
  function ClearError(errs: map<Field, string>, f: Field): (r: map<Field, string>)
    ensures r.Keys == errs.Keys
    ensures !Shows(r, f)
    ensures forall g :: g in r && g != f ==> r[g] == errs[g]
  {
    if f in errs && errs[f] != "" then errs[f := ""] else errs
  }

  // ---------------------------------------------------------------------------
  // Roles

  /** `roles.filter(r => r !== role)`. */
  function Without(roles: seq<string>, role: string): (r: seq<string>)
    ensures role !in r
    ensures forall x :: x != role ==> multiset(r)[x] == multiset(roles)[x]
  {
    if roles == [] then []
    else
      assert roles == [roles[0]] + roles[1..];
      (if roles[0] == role then [] else [roles[0]]) + Without(roles[1..], role)
  }

  /** Filtering keeps the order: filtering a concatenation concatenates the filtered parts. */
  lemma {:induction false} WithoutAppend(a: seq<string>, b: seq<string>, role: string)
    ensures Without(a + b, role) == Without(a, role) + Without(b, role)
  {
    if a == [] {
      assert a + b == b;
    } else {
      assert (a + b)[0] == a[0];
      assert (a + b)[1..] == a[1..] + b;
      WithoutAppend(a[1..], b, role);
    }
  }

  /** Filtering out a role that is not there changes nothing. */
  lemma {:induction false} WithoutAbsent(roles: seq<string>, role: string)
    requires role !in roles
    ensures Without(roles, role) == roles
  {
    if roles != [] {
      WithoutAbsent(roles[1..], role);
    }
  }

  /** `toggleRole`: a present role is removed (every occurrence), an absent one appended. */
  function ToggleRole(roles: seq<string>, role: string): (r: seq<string>)
    ensures role in r <==> role !in roles
    ensures forall x :: x != role ==> multiset(r)[x] == multiset(roles)[x]
    ensures role !in roles ==> r == roles + [role]
    ensures role in roles ==> r == Without(roles, role)
  {
    if role in roles then Without(roles, role) else roles + [role]
  }

  /** Toggling an absent role twice gives back the original list, order included. */
  lemma ToggleRoleTwice(roles: seq<string>, role: string)
    requires role !in roles
    ensures ToggleRole(ToggleRole(roles, role), role) == roles
  {
    assert role in roles + [role];
    WithoutAppend(roles, [role], role);
    WithoutAbsent(roles, role);
    assert Without([role], role) == [];
  }

  /** Each role occurs at most once. */
  ghost predicate NoDuplicates(roles: seq<string>) {
    forall x :: multiset(roles)[x] <= 1
  }

  /** Because the toggle is the only way roles are chosen, the list behaves as a set. */
  lemma ToggleRoleKeepsSet(roles: seq<string>, role: string)
    requires NoDuplicates(roles)
    ensures NoDuplicates(ToggleRole(roles, role))
    ensures forall x :: x in ToggleRole(roles, role) <==> (x == role) != (x in roles)
  {
    var r := ToggleRole(roles, role);
    forall x ensures multiset(r)[x] <= 1 && (x in r <==> (x == role) != (x in roles)) {
      if x == role {
        if role !in roles {
          assert multiset(roles + [role]) == multiset(roles) + multiset{role};
        }
      } else {
        assert multiset(r)[x] == multiset(roles)[x];
      }
    }
  }

  // ---------------------------------------------------------------------------
  // Phone

  /** `getFullPhone`: nothing without a number, else the dial code, a space and the number. */
  function FullPhone(d: FormData): (r: string)
    ensures r == "" <==> d.phoneNumber == ""
    ensures r != "" ==>
      && |r| == |d.countryCode| + 1 + |d.phoneNumber|
      && r[..|d.countryCode|] == d.countryCode
      && r[|d.countryCode|] == ' '
      && r[|d.countryCode| + 1..] == d.phoneNumber
  {
    if d.phoneNumber == "" then "" else d.countryCode + " " + d.phoneNumber
  }

  // ---------------------------------------------------------------------------
  // Country autofill

  /** The dial codes offered in the country-code selector, in display order. */
  const CountryCodeOptions: seq<string> := [
    "+91", "+1", "+44", "+971", "+65", "+61", "+49", "+33", "+81", "+86",
    "+82", "+55", "+52", "+31", "+39", "+34", "+7", "+27", "+966", "+60"]

  /** `countryToDialCode`: ISO country code reported by IP lookup to dial code. */
  const DialCodes: map<string, string> := map[
    "IN" := "+91", "US" := "+1", "CA" := "+1", "GB" := "+44", "AE" := "+971",
    "SG" := "+65", "AU" := "+61", "DE" := "+49", "FR" := "+33", "JP" := "+81",
    "CN" := "+86", "KR" := "+82", "BR" := "+55", "MX" := "+52", "NL" := "+31",
    "IT" := "+39", "ES" := "+34", "RU" := "+7", "ZA" := "+27", "SA" := "+966",
    "MY" := "+60"]

  /** The dial code after the IP lookup: replaced only when a country code was detected
      and the table knows it (every dial code in the table is a non-empty string). */
  function AutofilledCode(current: string, detected: Option<string>): (r: string)
    ensures r != current ==> detected.Some? && detected.value in DialCodes && r == DialCodes[detected.value]
    ensures detected.Some? && detected.value in DialCodes ==> r == DialCodes[detected.value]
  {
    match detected
    case Some(c) => if c != "" && c in DialCodes && DialCodes[c] != "" then DialCodes[c] else current
    case None => current
  }

  /** Autofill never selects a dial code the selector does not offer. */
  lemma AutofillOffered(current: string, detected: Option<string>)
    requires current in CountryCodeOptions
    ensures AutofilledCode(current, detected) in CountryCodeOptions
  {
    if detected.Some? && detected.value in DialCodes {
      var c := detected.value;
      assert c in {"IN", "US", "CA", "GB", "AE", "SG", "AU", "DE", "FR", "JP", "CN",
                   "KR", "BR", "MX", "NL", "IT", "ES", "RU", "ZA", "SA", "MY"};
    }
  }

  // ---------------------------------------------------------------------------
  // Submission

  /** `JSON.stringify({ ...formData, phone: getFullPhone() })` as a JSON value. */
  function Payload(d: FormData): (r: Json)
    ensures r.JObject?
    ensures r.fields.Keys == {"companyName", "contactName", "email", "countryCode", "phoneNumber",
      "rolesInterested", "hiringChallenge", "timeline", "coBrandingConsent", "phone"}
  {
    JObject(map[
      "companyName" := JString(d.companyName),
      "contactName" := JString(d.contactName),
      "email" := JString(d.email),
      "countryCode" := JString(d.countryCode),
      "phoneNumber" := JString(d.phoneNumber),
      "rolesInterested" := Strings(d.rolesInterested),
      "hiringChallenge" := JString(d.hiringChallenge),
      "timeline" := JString(d.timeline),
      "coBrandingConsent" := JBool(d.coBrandingConsent),
      "phone" := JString(FullPhone(d))])
  }

  /** What the form learns from `fetch` and `response.json()`: a reply with its `ok` flag
      and its `message` ("" when absent), or an Error thrown on the way, with its message. */
  datatype FetchOutcome = Replied(ok: bool, message: string) | Failed(reason: string)

  datatype Toast = Toast(title: string, description: string, destructive: bool)

  /** The notification shown after a submission attempt. */
  function SubmitToast(reply: FetchOutcome): (t: Toast)
    ensures t.destructive <==> !(reply.Replied? && reply.ok)
    ensures t.description != ""
    ensures reply.Replied? && reply.message != "" ==> t.description == reply.message
    ensures reply.Failed? && reply.reason != "" ==> t.description == reply.reason
    ensures t.title == if reply.Replied? && reply.ok then "Inquiry Submitted!" else "Submission Failed"
  {
    match reply
    case Replied(true, message) =>
      Toast("Inquiry Submitted!", if message != "" then message else "We'll be in touch within 24-48 hours.", false)
    case Replied(false, message) =>
      Toast("Submission Failed", if message != "" then message else "Failed to submit inquiry", true)
    case Failed(reason) =>
      Toast("Submission Failed", if reason != "" then reason else "Please try again or contact support@pepagora.com", true)
  }

  // ---------------------------------------------------------------------------
  // The two validation blocks

  /** The checks of step 1, each failing one recording its field's message. */
  method StepOneErrors(d: FormData) returns (m: map<Field, string>)
    ensures forall f :: f in m <==> Violates(d, 1, f)
    ensures forall f :: f in m ==> m[f] == ErrorMessage(f)
  {
    m := map[];
    if Utf16Length(d.companyName) < 2 {
      m := m[CompanyName := ErrorMessage(CompanyName)];
    }
    if Utf16Length(d.contactName) < 2 {
      m := m[ContactName := ErrorMessage(ContactName)];
    }
    if !MatchesEmailPattern(d.email) {
      m := m[Email := ErrorMessage(Email)];
    }
  }

  /** The checks of step 2. */
  method StepTwoErrors(d: FormData) returns (m: map<Field, string>)
    ensures forall f :: f in m <==> Violates(d, 2, f)
    ensures forall f :: f in m ==> m[f] == ErrorMessage(f)
  {
    m := map[];
    if |d.rolesInterested| == 0 {
      m := m[RolesInterested := ErrorMessage(RolesInterested)];
    }
    if d.hiringChallenge == "" {
      m := m[HiringChallenge := ErrorMessage(HiringChallenge)];
    }
    if d.timeline == "" {
      m := m[Timeline := ErrorMessage(Timeline)];
    }
  }

  // ---------------------------------------------------------------------------
  // The component's state

  class FormController {
    var step: int
    var isSubmitting: bool
    var isSubmitted: bool
    var isLoading: bool
    var errors: map<Field, string>
    var formData: FormData

    ghost predicate Valid()
      reads this
    {
      1 <= step <= 3
    }

    /** What holds in every state the user can reach through the rendered inputs:
        the steps behind the current one were validated and their fields are no longer
        shown, the phone number holds digits only, the role list is duplicate-free,
        and no submission is in flight between two events. */
    ghost predicate Reachable()
      reads this
    {
      && Valid()
      && (step >= 2 ==> Step1Ok(formData))
      && (step == 3 ==> Step2Ok(formData))
      && AllDigits(formData.phoneNumber)
      && NoDuplicates(formData.rolesInterested)
      && !isSubmitting
    }

    constructor ()
      ensures Reachable()
      ensures step == 1 && formData == InitialForm() && errors == map[]
      ensures isLoading && !isSubmitted
    {
      step := 1;
      isSubmitting := false;
      isSubmitted := false;
      isLoading := true;
      errors := map[];
      formData := InitialForm();
    }

    /** The mount effect: the dial code is autofilled from the detected country, if any,
        and the loading state ends whatever the lookup gave. */
    method Initialize(detected: Option<string>)
      modifies this`formData, this`isLoading
      ensures formData == old(formData).(countryCode := AutofilledCode(old(formData.countryCode), detected))
      ensures !isLoading
      ensures old(Reachable()) ==> Reachable()
    {
      var code := AutofilledCode(formData.countryCode, detected);
      if code != formData.countryCode {
        formData := formData.(countryCode := code);
      }
      isLoading := false;
    }

    /** `updateField`: stores the value and blanks the field's error if one is shown. */
    method UpdateField(f: Field, v: FieldValue)
      requires Fits(f, v)
      modifies this`formData, this`errors
      ensures formData == With(old(formData), f, v)
      ensures errors == ClearError(old(errors), f)
      ensures old(Reachable()) && StepOf(f) == step
        && (f == PhoneNumber ==> AllDigits(v.text))
        && (f == RolesInterested ==> NoDuplicates(v.items))
        ==> Reachable()
    {
      WithKeepsOtherSteps(formData, f, v);
      formData := With(formData, f, v);
      if f in errors && errors[f] != "" {
        errors := errors[f := ""];
      }
    }

    /** The phone input's change handler: only the digits typed are stored. */
    method EnterPhone(typed: string)
      modifies this`formData, this`errors
      ensures formData == old(formData).(phoneNumber := DigitsOnly(typed))
      ensures errors == ClearError(old(errors), PhoneNumber)
      ensures old(Reachable()) && step == 1 ==> Reachable()
    {
      UpdateField(PhoneNumber, Text(DigitsOnly(typed)));
    }

    /** `toggleRole`: the role list changes, the errors do not (a shown roles error stays). */
    method ToggleRoleOf(role: string)
      modifies this`formData
      ensures formData == old(formData).(rolesInterested := ToggleRole(old(formData.rolesInterested), role))
      ensures old(Reachable()) && step == 2 ==> Reachable()
    {
      if NoDuplicates(formData.rolesInterested) {
        ToggleRoleKeepsSet(formData.rolesInterested, role);
      }
      formData := formData.(rolesInterested := ToggleRole(formData.rolesInterested, role));
    }

    /** `validateStep`: builds a fresh error map field by field and installs it. */
    method ValidateStep(n: int) returns (ok: bool)
      modifies this`errors
      ensures forall f :: f in errors <==> Violates(formData, n, f)
      ensures forall f :: f in errors ==> errors[f] == ErrorMessage(f)
      ensures ok <==> StepPasses(formData, n)
    {
      var newErrors: map<Field, string> := map[];
      if n == 1 {
        newErrors := StepOneErrors(formData);
      }
      if n == 2 {
        newErrors := StepTwoErrors(formData);
      }
      errors := newErrors;
      ok := |newErrors| == 0;
      StepPassesIffNothingFlagged(formData, n);
    }

    /** `nextStep`: moves forward, at most to step 3, only when the current step validates. */
    method NextStep()
      requires Valid()
      modifies this`step, this`errors
      ensures Valid()
      ensures step == if StepPasses(formData, old(step)) then (if old(step) < 3 then old(step) + 1 else 3) else old(step)
      ensures forall f :: f in errors <==> Violates(formData, old(step), f)
      ensures forall f :: f in errors ==> errors[f] == ErrorMessage(f)
      ensures old(Reachable()) ==> Reachable()
    {
      var ok := ValidateStep(step);
      if ok {
        step := if step + 1 < 3 then step + 1 else 3;
      }
    }

    /** `prevStep`: moves back, at least to step 1. */
    method PrevStep()
      requires Valid()
      modifies this`step
      ensures Valid()
      ensures step == if old(step) > 1 then old(step) - 1 else 1
      ensures old(Reachable()) ==> Reachable()
    {
      step := if step - 1 > 1 then step - 1 else 1;
    }

    /** `handleSubmit`: validates step 2 (replacing the errors) and stops there if it fails;
        otherwise sends the payload and records the reply. `sent` is the request body posted,
        `reply` what came back. */
    method HandleSubmit(reply: FetchOutcome) returns (sent: Option<Json>, toast: Option<Toast>)
      modifies this`errors, this`isSubmitting, this`isSubmitted
      ensures forall f :: f in errors <==> Violates(formData, 2, f)
      ensures forall f :: f in errors ==> errors[f] == ErrorMessage(f)
      ensures !Step2Ok(formData) ==>
        sent == None && toast == None &&
        isSubmitting == old(isSubmitting) && isSubmitted == old(isSubmitted)
      ensures Step2Ok(formData) ==>
        sent == Some(Payload(formData)) && toast == Some(SubmitToast(reply)) && !isSubmitting
      ensures isSubmitted <==> old(isSubmitted) || (Step2Ok(formData) && reply.Replied? && reply.ok)
      ensures old(Reachable()) && step == 3 ==> sent == Some(Payload(formData)) && Reachable()
    {
      var ok := ValidateStep(2);
      if !ok {
        sent, toast := None, None;
        return;
      }
      isSubmitting := true;
      sent := Some(Payload(formData));
      if reply.Replied? && reply.ok {
        isSubmitted := true;
      }
      toast := Some(SubmitToast(reply));
      isSubmitting := false;
    }
  }
}
