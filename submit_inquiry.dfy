/**
 * The inquiry endpoint (app/api/submit-inquiry/route.ts, `POST`): the request body
 * is checked against the schema; a valid inquiry is turned into a notification mail
 * for the business and a confirmation mail for the submitter, sent in that order;
 * the reply's status says how far it got.
 *
 * Left abstract: the JSON parser (its outcome is the `body` parameter), zod's e-mail
 * check (`isEmail`), the mail transport (`deliver`), the clock (`submittedAt`) and the
 * process environment (`Env`).
 */
module SubmitInquiry {
  import opened Wrappers
  import opened JsText
  import opened Json

  // ---------------------------------------------------------------------------
  // The schema

  /** The data the schema hands back when it accepts a body. */
  datatype Inquiry = Inquiry(
    companyName: string,
    contactName: string,
    email: string,
    countryCode: string,
    phoneNumber: Option<string>,
    rolesInterested: seq<string>,
    hiringChallenge: string,
    timeline: string,
    coBrandingConsent: bool,
    phone: Option<string>)

  /** A schema issue, named by the field it is about ("" when the body is not an object). */
  datatype Issue = Issue(field: string)

  predicate TextAt(fields: map<string, Json>, key: string) {
    key in fields && fields[key].JString?
  }

  /** `z.string().min(n)`: a string of at least `n` UTF-16 units. */
  predicate MinText(fields: map<string, Json>, key: string, n: nat) {
    TextAt(fields, key) && Utf16Length(fields[key].s) >= n
  }

  /** `z.string().email()`, with the e-mail check itself left abstract. */
  predicate EmailOk(fields: map<string, Json>, isEmail: string -> bool) {
    TextAt(fields, "email") && isEmail(fields["email"].s)
  }

  /** `z.string().optional()`: absent, or a string (null is refused). */
  predicate OptionalTextAt(fields: map<string, Json>, key: string) {
    key !in fields || fields[key].JString?
  }

  predicate AllText(items: seq<Json>) {
    forall i :: 0 <= i < |items| ==> items[i].JString?
  }

  /** `z.array(z.string()).min(1)`. */
  predicate RolesOk(fields: map<string, Json>) {
    && "rolesInterested" in fields
    && fields["rolesInterested"].JArray?
    && AllText(fields["rolesInterested"].items)
    && |fields["rolesInterested"].items| >= 1
  }

  /** `z.boolean()`. */
  predicate BoolAt(fields: map<string, Json>, key: string) {
    key in fields && fields[key].JBool?
  }

  /** Every entry of the schema accepts its field. */
  predicate SchemaOk(fields: map<string, Json>, isEmail: string -> bool) {
    && MinText(fields, "companyName", 2)
    && MinText(fields, "contactName", 2)
    && EmailOk(fields, isEmail)
    && TextAt(fields, "countryCode")
    && OptionalTextAt(fields, "phoneNumber")
    && RolesOk(fields)
    && MinText(fields, "hiringChallenge", 1)
    && MinText(fields, "timeline", 1)
    && BoolAt(fields, "coBrandingConsent")
    && OptionalTextAt(fields, "phone")
  }

  /** The keys the schema declares. */
  const SchemaKeys: set<string> := {"companyName", "contactName", "email", "countryCode", "phoneNumber",
    "rolesInterested", "hiringChallenge", "timeline", "coBrandingConsent", "phone"}

  function Check(ok: bool, key: string): seq<Issue> {
    if ok then [] else [Issue(key)]
  }

  /** The issues of an object body, one per rejected field, in the schema's key order. */
  function SchemaIssues(fields: map<string, Json>, isEmail: string -> bool): (r: seq<Issue>)
    ensures r == [] <==> SchemaOk(fields, isEmail)
  {
    Check(MinText(fields, "companyName", 2), "companyName")
    + Check(MinText(fields, "contactName", 2), "contactName")
    + Check(EmailOk(fields, isEmail), "email")
    + Check(TextAt(fields, "countryCode"), "countryCode")
    + Check(OptionalTextAt(fields, "phoneNumber"), "phoneNumber")
    + Check(RolesOk(fields), "rolesInterested")
    + Check(MinText(fields, "hiringChallenge", 1), "hiringChallenge")
    + Check(MinText(fields, "timeline", 1), "timeline")
    + Check(BoolAt(fields, "coBrandingConsent"), "coBrandingConsent")
    + Check(OptionalTextAt(fields, "phone"), "phone")
  }

  /** Each issue names one of the schema's own keys. */
  predicate NamesSchemaKeys(issues: seq<Issue>) {
    forall i :: 0 <= i < |issues| ==> issues[i].field in SchemaKeys
  }

  lemma NamesSchemaKeysConcat(a: seq<Issue>, b: seq<Issue>)
    requires NamesSchemaKeys(a) && NamesSchemaKeys(b)
    ensures NamesSchemaKeys(a + b)
  {
    forall i | 0 <= i < |a + b| ensures (a + b)[i].field in SchemaKeys {
      if i >= |a| {
        assert (a + b)[i] == b[i - |a|];
      }
    }
  }

  /** An object body's issues are about the schema's keys only: unknown keys are ignored. */
  lemma SchemaIssuesNamed(fields: map<string, Json>, isEmail: string -> bool)
    ensures NamesSchemaKeys(SchemaIssues(fields, isEmail))
  {
    var a := Check(MinText(fields, "companyName", 2), "companyName")
      + Check(MinText(fields, "contactName", 2), "contactName");
    NamesSchemaKeysConcat(Check(MinText(fields, "companyName", 2), "companyName"),
      Check(MinText(fields, "contactName", 2), "contactName"));
    var b := a + Check(EmailOk(fields, isEmail), "email");
    NamesSchemaKeysConcat(a, Check(EmailOk(fields, isEmail), "email"));
    var c := b + Check(TextAt(fields, "countryCode"), "countryCode");
    NamesSchemaKeysConcat(b, Check(TextAt(fields, "countryCode"), "countryCode"));
    var e := c + Check(OptionalTextAt(fields, "phoneNumber"), "phoneNumber");
    NamesSchemaKeysConcat(c, Check(OptionalTextAt(fields, "phoneNumber"), "phoneNumber"));
    var g := e + Check(RolesOk(fields), "rolesInterested");
    NamesSchemaKeysConcat(e, Check(RolesOk(fields), "rolesInterested"));
    var h := g + Check(MinText(fields, "hiringChallenge", 1), "hiringChallenge");
    NamesSchemaKeysConcat(g, Check(MinText(fields, "hiringChallenge", 1), "hiringChallenge"));
    var t := h + Check(MinText(fields, "timeline", 1), "timeline");
    NamesSchemaKeysConcat(h, Check(MinText(fields, "timeline", 1), "timeline"));
    var u := t + Check(BoolAt(fields, "coBrandingConsent"), "coBrandingConsent");
    NamesSchemaKeysConcat(t, Check(BoolAt(fields, "coBrandingConsent"), "coBrandingConsent"));
    NamesSchemaKeysConcat(u, Check(OptionalTextAt(fields, "phone"), "phone"));
  }

  function Texts(items: seq<Json>): (r: seq<string>)
    requires AllText(items)
    ensures |r| == |items| && forall i :: 0 <= i < |r| ==> items[i] == JString(r[i])
  {
    seq(|items|, i requires 0 <= i < |items| => items[i].s)
  }

  function OptionalText(fields: map<string, Json>, key: string): Option<string>
    requires OptionalTextAt(fields, key)
  {
    if key in fields then Some(fields[key].s) else None
  }

  /** `formSchema.parse(body)`: the inquiry, or every issue found. */
  function Parse(body: Json, isEmail: string -> bool): (r: Result<Inquiry, seq<Issue>>)
    ensures r.Failure? ==> r.error != []
    ensures r.Success? ==>
      && Utf16Length(r.value.companyName) >= 2
      && Utf16Length(r.value.contactName) >= 2
      && isEmail(r.value.email)
      && |r.value.rolesInterested| >= 1
      && r.value.hiringChallenge != ""
      && r.value.timeline != ""
  {
    if !body.JObject? then Failure([Issue("")])
    else
      var f := body.fields;
      var issues := SchemaIssues(f, isEmail);
      if issues != [] then Failure(issues) else Success(Read(f, isEmail))
  }

  /** The inquiry an accepted object carries. */
  function Read(f: map<string, Json>, isEmail: string -> bool): Inquiry
    requires SchemaOk(f, isEmail)
  {
    Inquiry(
      f["companyName"].s, f["contactName"].s, f["email"].s, f["countryCode"].s,
      OptionalText(f, "phoneNumber"), Texts(f["rolesInterested"].items),
      f["hiringChallenge"].s, f["timeline"].s, f["coBrandingConsent"].b,
      OptionalText(f, "phone"))
  }

  /** The schema accepts a body exactly when it is an object whose company and contact
      names are strings of two UTF-16 units or more, whose email is a string the e-mail
      check accepts, whose country code is a string, whose roles are a non-empty array
      of strings, whose hiring challenge and timeline are non-empty strings, whose
      consent is a boolean, and whose optional phone fields are absent or strings. */
  lemma ParseAccepts(body: Json, isEmail: string -> bool)
    ensures Parse(body, isEmail).Success? <==>
      && body.JObject?
      && TextAt(body.fields, "companyName") && Utf16Length(body.fields["companyName"].s) >= 2
      && TextAt(body.fields, "contactName") && Utf16Length(body.fields["contactName"].s) >= 2
      && TextAt(body.fields, "email") && isEmail(body.fields["email"].s)
      && TextAt(body.fields, "countryCode")
      && ("phoneNumber" !in body.fields || body.fields["phoneNumber"].JString?)
      && "rolesInterested" in body.fields && body.fields["rolesInterested"].JArray?
      && AllText(body.fields["rolesInterested"].items) && |body.fields["rolesInterested"].items| >= 1
      && TextAt(body.fields, "hiringChallenge") && body.fields["hiringChallenge"].s != ""
      && TextAt(body.fields, "timeline") && body.fields["timeline"].s != ""
      && "coBrandingConsent" in body.fields && body.fields["coBrandingConsent"].JBool?
      && ("phone" !in body.fields || body.fields["phone"].JString?)
  {
  }

  /** A check reports only the key it is about. */
  lemma CheckReportsOwnKey(ok: bool, key: string, other: string)
    requires other != key
    ensures Issue(other) !in Check(ok, key)
  {
  }

  /** An object body draws an issue about its email exactly when the field is missing,
      is not a string, or fails the e-mail check. */
  lemma EmailIssue(body: Json, isEmail: string -> bool)
    requires body.JObject?
    ensures (Parse(body, isEmail).Failure? && Issue("email") in Parse(body, isEmail).error) <==>
      !(TextAt(body.fields, "email") && isEmail(body.fields["email"].s))
  {
    var f := body.fields;
    var x := Issue("email");
    CheckReportsOwnKey(MinText(f, "companyName", 2), "companyName", "email");
    CheckReportsOwnKey(MinText(f, "contactName", 2), "contactName", "email");
    CheckReportsOwnKey(TextAt(f, "countryCode"), "countryCode", "email");
    CheckReportsOwnKey(OptionalTextAt(f, "phoneNumber"), "phoneNumber", "email");
    CheckReportsOwnKey(RolesOk(f), "rolesInterested", "email");
    CheckReportsOwnKey(MinText(f, "hiringChallenge", 1), "hiringChallenge", "email");
    CheckReportsOwnKey(MinText(f, "timeline", 1), "timeline", "email");
    CheckReportsOwnKey(BoolAt(f, "coBrandingConsent"), "coBrandingConsent", "email");
    CheckReportsOwnKey(OptionalTextAt(f, "phone"), "phone", "email");
    var issues := SchemaIssues(f, isEmail);
    assert x in issues <==> x in Check(EmailOk(f, isEmail), "email");
    assert x in issues <==> !EmailOk(f, isEmail);
    assert issues != [] ==> Parse(body, isEmail) == Failure(issues);
  }

  /** An empty role list is refused, with an issue about the roles. */
  lemma EmptyRolesRejected(body: Json, isEmail: string -> bool)
    requires body.JObject? && "rolesInterested" in body.fields
    requires body.fields["rolesInterested"] == JArray([])
    ensures Parse(body, isEmail).Failure?
    ensures Issue("rolesInterested") in Parse(body, isEmail).error
  {
  }

  /** The object an inquiry is written as: the required entries, and each optional phone
      entry only when present. */
  function InquiryFields(i: Inquiry): (m: map<string, Json>)
    ensures m.Keys <= SchemaKeys
    ensures "phoneNumber" in m <==> i.phoneNumber.Some?
    ensures "phone" in m <==> i.phone.Some?
  {
    var base := map[
      "companyName" := JString(i.companyName),
      "contactName" := JString(i.contactName),
      "email" := JString(i.email),
      "countryCode" := JString(i.countryCode),
      "rolesInterested" := Strings(i.rolesInterested),
      "hiringChallenge" := JString(i.hiringChallenge),
      "timeline" := JString(i.timeline),
      "coBrandingConsent" := JBool(i.coBrandingConsent)];
    var withNumber := if i.phoneNumber.Some? then base["phoneNumber" := JString(i.phoneNumber.value)] else base;
    if i.phone.Some? then withNumber["phone" := JString(i.phone.value)] else withNumber
  }

  /** The schema's entries of an object, other keys dropped. */
  function Stripped(fields: map<string, Json>): (m: map<string, Json>)
    ensures m.Keys == fields.Keys * SchemaKeys
    ensures forall k :: k in m ==> m[k] == fields[k]
  {
    map k | k in fields && k in SchemaKeys :: fields[k]
  }

  /** Each entry of the object holds the inquiry's value. */
  lemma InquiryFieldsEntries(i: Inquiry)
    ensures var m := InquiryFields(i);
      && m["companyName"] == JString(i.companyName)
      && m["contactName"] == JString(i.contactName)
      && m["email"] == JString(i.email)
      && m["countryCode"] == JString(i.countryCode)
      && m["rolesInterested"] == Strings(i.rolesInterested)
      && m["hiringChallenge"] == JString(i.hiringChallenge)
      && m["timeline"] == JString(i.timeline)
      && m["coBrandingConsent"] == JBool(i.coBrandingConsent)
      && (i.phoneNumber.Some? ==> m["phoneNumber"] == JString(i.phoneNumber.value))
      && (i.phone.Some? ==> m["phone"] == JString(i.phone.value))
  {
  }

  lemma StringsOfTexts(items: seq<Json>)
    requires AllText(items)
    ensures Strings(Texts(items)) == JArray(items)
  {
    assert Strings(Texts(items)).items == items;
  }

  /** An accepted object's inquiry, written back as an object, is the object's schema entries. */
  lemma ReadStripped(f: map<string, Json>, isEmail: string -> bool)
    requires SchemaOk(f, isEmail)
    ensures InquiryFields(Read(f, isEmail)) == Stripped(f)
  {
    var i := Read(f, isEmail);
    var m := InquiryFields(i);
    StringsOfTexts(f["rolesInterested"].items);
    InquiryFieldsEntries(i);
    forall k ensures k in m <==> k in Stripped(f) {
    }
    forall k | k in m ensures m[k] == Stripped(f)[k] {
    }
  }

  /** What the schema hands back is the body itself, with the keys it does not declare
      stripped: an accepted inquiry written back as an object is the body's schema entries. */
  lemma ParseReturnsBody(body: Json, isEmail: string -> bool)
    ensures Parse(body, isEmail).Success? ==> InquiryFields(Parse(body, isEmail).value) == Stripped(body.fields)
  {
    if Parse(body, isEmail).Success? {
      ReadStripped(body.fields, isEmail);
    }
  }

  /** Writing a valid inquiry as an object and parsing it gives the same inquiry back. */
  lemma ParseInquiryFields(i: Inquiry, isEmail: string -> bool)
    requires Utf16Length(i.companyName) >= 2 && Utf16Length(i.contactName) >= 2
    requires isEmail(i.email)
    requires |i.rolesInterested| >= 1 && i.hiringChallenge != "" && i.timeline != ""
    ensures Parse(JObject(InquiryFields(i)), isEmail) == Success(i)
  {
    var f := InquiryFields(i);
    InquiryFieldsEntries(i);
    assert SchemaOk(f, isEmail);
    assert Texts(f["rolesInterested"].items) == i.rolesInterested;
    assert OptionalText(f, "phoneNumber") == i.phoneNumber;
    assert OptionalText(f, "phone") == i.phone;
  }

  // ---------------------------------------------------------------------------
  // Values derived from the inquiry

  /** `phone || (phoneNumber ? countryCode + " " + phoneNumber : 'Not provided')`:
      the composed phone if the client sent one, else one composed here, else a placeholder. */
  function PhoneDisplay(d: Inquiry): (r: string)
    ensures r != ""
    ensures d.phone.Some? && d.phone.value != "" ==> r == d.phone.value
    ensures !(d.phone.Some? && d.phone.value != "") && d.phoneNumber.Some? && d.phoneNumber.value != "" ==>
      r == d.countryCode + " " + d.phoneNumber.value
    ensures !(d.phone.Some? && d.phone.value != "") && !(d.phoneNumber.Some? && d.phoneNumber.value != "") ==>
      r == "Not provided"
  {
    if d.phone.Some? && d.phone.value != "" then d.phone.value
    else if d.phoneNumber.Some? && d.phoneNumber.value != "" then d.countryCode + " " + d.phoneNumber.value
    else "Not provided"
  }

  /** `contactName.split(' ')[0] || contactName`: the text before the first space, or the
      whole name when that text is empty (the name is empty or starts with a space). */
  function FirstName(contactName: string): (r: string)
    ensures contactName != "" ==> r != ""
    ensures r <= contactName
    ensures contactName != [] && contactName[0] != ' ' ==>
      ' ' !in r && (|r| == |contactName| || contactName[|r|] == ' ')
    ensures contactName != [] && contactName[0] == ' ' ==> r == contactName
  {
    var first := BeforeFirst(contactName, ' ');
    if first != "" then first else contactName
  }

  /** `rolesInterested.join(', ')`. */
  function RolesLine(roles: seq<string>): (r: string)
    ensures roles == [] ==> r == ""
    ensures forall i :: 0 <= i < |roles| ==> Contains(r, roles[i])
    ensures |roles| >= 1 ==> |r| == TotalLength(roles) + 2 * (|roles| - 1)
  {
    assert forall i :: 0 <= i < |roles| ==> Contains(Join(", ", roles), roles[i]) by {
      forall i | 0 <= i < |roles| ensures Contains(Join(", ", roles), roles[i]) {
        JoinContains(", ", roles, i);
      }
    }
    if |roles| >= 1 then JoinLength(", ", roles); Join(", ", roles) else Join(", ", roles)
  }

  /** One role renders as itself. */
  lemma RolesLineSingle(role: string)
    ensures RolesLine([role]) == role
  {
  }

  /** `coBrandingConsent ? 'Yes' : 'No'`, the same expression in all three places. */
  function ConsentText(consent: bool): (r: string)
    ensures r == "Yes" <==> consent
    ensures r == "No" <==> !consent
  {
    if consent then "Yes" else "No"
  }

  /** The phone block of an HTML mail: present, with the display value, unless it is the placeholder. */
  function PhoneBlock(display: string): (r: Option<string>)
    ensures r.Some? <==> display != "Not provided"
    ensures r.Some? ==> r.value == display
  {
    if display != "Not provided" then Some(display) else None
  }

  // ---------------------------------------------------------------------------
  // The mails

  /** The values interpolated into the two HTML templates (the markup around them is fixed). */
  datatype MailHtml =
    | NotificationHtml(greeting: string, heading: string, email: string, phone: Option<string>,
                       roles: string, hiringChallenge: string, timeline: string, consent: string)
    | ConfirmationHtml(greeting: string, company: string, roles: string, hiringChallenge: string,
                       timeline: string, phone: Option<string>, consent: string)

  /** The values interpolated into the two plain-text templates; `Render` spells out the text. */
  datatype MailText =
    | NotificationText(company: string, contact: string, email: string, phone: string, roles: string,
                       hiringChallenge: string, timeline: string, consent: string, submittedAt: string)
    | ConfirmationText(contactName: string, email: string)

  /** The options handed to `sendMail`. */
  datatype MailOptions = MailOptions(
    from: string, to: Option<string>, replyTo: Option<string>, subject: string, text: MailText, html: MailHtml)

  /** The process environment; an unset variable is None. */
  datatype Env = Env(
    smtpHost: Option<string>, smtpPort: Option<string>, smtpUser: Option<string>,
    smtpPassword: Option<string>, smtpFromName: Option<string>, smtpFromEmail: Option<string>,
    recipientEmail: Option<string>)

  /** A value in a template literal: an unset variable renders as "undefined". */
  function Interpolate(v: Option<string>): (r: string)
    ensures v.Some? ==> r == v.value
    ensures r == "undefined" <==> v == None || v == Some("undefined")
  {
    match v
    case Some(s) => s
    case None => "undefined"
  }

  /** `v || fallback` for an environment variable: unset and empty both fall back. */
  function OrElse(v: Option<string>, fallback: string): (r: string)
    ensures v.Some? && v.value != "" ==> r == v.value
    ensures !(v.Some? && v.value != "") ==> r == fallback
  {
    if v.Some? && v.value != "" then v.value else fallback
  }

  /** A plain-text template: its lines, opened by a line break and closed by the
      line break and indentation before the closing backtick. */
  function TemplateText(lines: seq<string>): string {
    "\n" + Join("\n", lines) + "\n    "
  }

  lemma TemplateTextContains(lines: seq<string>, i: nat)
    requires i < |lines|
    ensures Contains(TemplateText(lines), lines[i])
  {
    JoinContains("\n", lines, i);
    ContainsWithin("\n", Join("\n", lines), "\n    ", lines[i]);
  }

  /** The lines of a plain-text body: the template's fixed lines with the values in place. */
  function Lines(t: MailText): (r: seq<string>)
    ensures |r| == 15
    ensures t.NotificationText? ==> r[0] == "New Talent Hub Inquiry" && r[14] == "Submitted at: " + t.submittedAt
    ensures t.ConfirmationText? ==> r[0] == ThanksHeading && r[14] == TeamSignature
  {
    match t
    case NotificationText(company, contact, email, phone, roles, challenge, timeline, consent, submittedAt) =>
      [ "New Talent Hub Inquiry",
        "",
        "Contact Information:",
        "- Company Name: " + company,
        "- Contact Name: " + contact,
        "- Email: " + email,
        "- Phone: " + phone,
        "",
        "Hiring Requirements:",
        "- Roles Interested: " + roles,
        "- Hiring Challenge: " + challenge,
        "- Timeline: " + timeline,
        "- Co-branding Consent: " + consent,
        "",
        "Submitted at: " + submittedAt ]
    case ConfirmationText(contactName, email) =>
      [ ThanksHeading,
        "",
        "Dear " + contactName + ",",
        "",
        ThanksParagraph,
        "",
        NextHeading,
        ReviewPromise,
        "- We'll contact you at " + email + " to discuss your hiring needs",
        SolutionPromise,
        "",
        SupportParagraph,
        "",
        "Best regards,",
        TeamSignature ]
  }

  // The fixed lines of the confirmation's text.
  const ThanksHeading: string := "Thank You for Your Inquiry!"
  const ThanksParagraph: string :=
    "Thank you for submitting your talent inquiry. We have received your request and our team will review it shortly."
  const NextHeading: string := "What happens next?"
  const ReviewPromise: string := "- Our team will review your requirements within 24-48 hours"
  const SolutionPromise: string := "- We'll provide a customized solution based on your requirements"
  const SupportParagraph: string :=
    "If you have any urgent questions, please feel free to contact us at support@pepagora.com"
  const TeamSignature: string := "The Pepagora Talent Hub Team"

  /** The text `sendMail` receives. */
  function Render(t: MailText): (r: string)
    ensures forall i :: 0 <= i < |Lines(t)| ==> Contains(r, Lines(t)[i])
  {
    var lines := Lines(t);
    assert forall i :: 0 <= i < |lines| ==> Contains(TemplateText(lines), lines[i]) by {
      forall i | 0 <= i < |lines| ensures Contains(TemplateText(lines), lines[i]) {
        TemplateTextContains(lines, i);
      }
    }
    TemplateText(lines)
  }

  /** The mail to the business: to RECIPIENT_EMAIL, answerable to the submitter,
      its subject naming the company. */
  function NotificationMail(d: Inquiry, env: Env, submittedAt: string): (m: MailOptions)
    ensures m.to == env.recipientEmail
    ensures m.replyTo == Some(d.email)
    ensures Contains(m.subject, d.companyName)
    ensures m.html.NotificationHtml? && m.html.phone == PhoneBlock(PhoneDisplay(d))
  {
    var first := FirstName(d.contactName);
    var m := MailOptions(
      "\"" + Interpolate(env.smtpFromName) + "\" <" + Interpolate(env.smtpFromEmail) + ">",
      env.recipientEmail,
      Some(d.email),
      "New Talent Hub Inquiry from " + d.companyName,
      NotificationText(d.companyName, d.contactName, d.email, PhoneDisplay(d),
        RolesLine(d.rolesInterested), d.hiringChallenge, d.timeline,
        ConsentText(d.coBrandingConsent), submittedAt),
      NotificationHtml(first, d.contactName + " - " + d.companyName, d.email,
        PhoneBlock(PhoneDisplay(d)), RolesLine(d.rolesInterested), d.hiringChallenge,
        d.timeline, ConsentText(d.coBrandingConsent)));
    ContainsMiddle("New Talent Hub Inquiry from ", d.companyName, "");
    assert "New Talent Hub Inquiry from " + d.companyName + "" == m.subject;
    m
  }

  /** The sender of the confirmation: SMTP_USER, or the no-reply address when it is unset or empty. */
  const NoReplyAddress: string := "no-reply@pepagora.info"

  /** The mail to the submitter, sent from SMTP_USER or the no-reply address. */
  function ConfirmationMail(d: Inquiry, env: Env): (m: MailOptions)
    ensures m.to == Some(d.email)
    ensures m.replyTo == None
    ensures (env.smtpUser == None || env.smtpUser == Some("")) ==>
      m.from == "\"Talent Hub\" <" + NoReplyAddress + ">"
    ensures env.smtpUser.Some? && env.smtpUser.value != "" ==>
      m.from == "\"Talent Hub\" <" + env.smtpUser.value + ">"
    ensures m.html.ConfirmationHtml? && m.html.phone == PhoneBlock(PhoneDisplay(d))
  {
    MailOptions(
      "\"Talent Hub\" <" + OrElse(env.smtpUser, NoReplyAddress) + ">",
      Some(d.email),
      None,
      "Thank You for Your Talent Hub Inquiry",
      ConfirmationText(d.contactName, d.email),
      ConfirmationHtml(FirstName(d.contactName), d.companyName, RolesLine(d.rolesInterested),
        d.hiringChallenge, d.timeline, PhoneBlock(PhoneDisplay(d)), ConsentText(d.coBrandingConsent)))
  }

  /** Both HTML mails show the phone block under the same condition, with the same value. */
  lemma PhoneBlockAgrees(d: Inquiry, env: Env, submittedAt: string)
    ensures NotificationMail(d, env, submittedAt).html.phone == ConfirmationMail(d, env).html.phone
    ensures NotificationMail(d, env, submittedAt).html.phone.Some? <==> PhoneDisplay(d) != "Not provided"
  {
  }

  /** The plain-text notification always has a Phone line, placeholder included. */
  lemma PhoneLineAlways(d: Inquiry, env: Env, submittedAt: string)
    ensures Contains(Render(NotificationMail(d, env, submittedAt).text), "- Phone: " + PhoneDisplay(d))
  {
    var lines := Lines(NotificationMail(d, env, submittedAt).text);
    assert lines[6] == "- Phone: " + PhoneDisplay(d);
    TemplateTextContains(lines, 6);
  }

  /** The notification's text carries the company, the contact, the joined roles and the
      consent verbatim. */
  lemma NotificationMentions(d: Inquiry, env: Env, submittedAt: string)
    ensures Contains(Render(NotificationMail(d, env, submittedAt).text), "- Company Name: " + d.companyName)
    ensures Contains(Render(NotificationMail(d, env, submittedAt).text), "- Contact Name: " + d.contactName)
    ensures Contains(Render(NotificationMail(d, env, submittedAt).text),
      "- Roles Interested: " + RolesLine(d.rolesInterested))
    ensures Contains(Render(NotificationMail(d, env, submittedAt).text),
      "- Co-branding Consent: " + ConsentText(d.coBrandingConsent))
  {
    var lines := Lines(NotificationMail(d, env, submittedAt).text);
    assert lines[3] == "- Company Name: " + d.companyName;
    assert lines[4] == "- Contact Name: " + d.contactName;
    assert lines[9] == "- Roles Interested: " + RolesLine(d.rolesInterested);
    assert lines[12] == "- Co-branding Consent: " + ConsentText(d.coBrandingConsent);
    TemplateTextContains(lines, 3);
    TemplateTextContains(lines, 4);
    TemplateTextContains(lines, 9);
    TemplateTextContains(lines, 12);
  }

  /** The consent reads the same in both HTML mails, and says what the consent flag says. */
  lemma ConsentAgrees(d: Inquiry, env: Env, submittedAt: string)
    ensures NotificationMail(d, env, submittedAt).html.consent == ConfirmationMail(d, env).html.consent
    ensures NotificationMail(d, env, submittedAt).html.consent == ConsentText(d.coBrandingConsent)
  {
  }

  /** The confirmation's text addresses the contact by name and names the address it answers to. */
  lemma ConfirmationMentions(d: Inquiry, env: Env)
    ensures Contains(Render(ConfirmationMail(d, env).text), "Dear " + d.contactName + ",")
    ensures Contains(Render(ConfirmationMail(d, env).text), d.email)
  {
    var lines := Lines(ConfirmationText(d.contactName, d.email));
    var line := "- We'll contact you at " + d.email + " to discuss your hiring needs";
    assert lines[2] == "Dear " + d.contactName + ",";
    assert lines[8] == line;
    TemplateTextContains(lines, 2);
    TemplateTextContains(lines, 8);
    ContainsMiddle("- We'll contact you at ", d.email, " to discuss your hiring needs");
    ContainsTransitive(TemplateText(lines), line, d.email);
  }

  // ---------------------------------------------------------------------------
  // Transport and handler

  /** The options of `createTransport`; the port is kept as the string given to `parseInt`. */
  datatype TransportSettings = TransportSettings(
    host: Option<string>, port: string, secure: bool, user: Option<string>, pass: Option<string>, ciphers: string)

  /** The transport configuration: port "587" unless SMTP_PORT is set and non-empty,
      TLS from the start exactly when SMTP_PORT is "465". */
  function Transport(env: Env): (t: TransportSettings)
    ensures (env.smtpPort == None || env.smtpPort == Some("")) ==> t.port == "587"
    ensures env.smtpPort.Some? && env.smtpPort.value != "" ==> t.port == env.smtpPort.value
    ensures t.secure <==> t.port == "465"
  {
    TransportSettings(env.smtpHost, OrElse(env.smtpPort, "587"), env.smtpPort == Some("465"),
      env.smtpUser, env.smtpPassword, "SSLv3")
  }

  /** The JSON reply and its HTTP status. */
  datatype Response = Response(status: int, success: bool, message: string, issues: seq<Issue>)

  const SuccessMessage: string :=
    "Inquiry submitted successfully. A confirmation email has been sent to your email address."
  const InvalidMessage: string := "Invalid form data"
  const FailureMessage: string := "Failed to submit inquiry. Please try again or contact support@pepagora.com"

  /** The two awaited `transporter.sendMail` calls: the notification first, the
      confirmation only once the notification has gone out; a rejected send ends in
      the generic failure reply. */
  method Dispatch(transport: TransportSettings, notification: MailOptions, confirmation: MailOptions,
                  deliver: (TransportSettings, MailOptions) -> bool)
    returns (resp: Response, attempted: seq<MailOptions>)
    ensures 1 <= |attempted| <= 2 && attempted[0] == notification
    ensures |attempted| == 2 <==> deliver(transport, notification)
    ensures |attempted| == 2 ==> attempted[1] == confirmation
    ensures resp.status == 200 <==> |attempted| == 2 && deliver(transport, confirmation)
    ensures resp.status == 200 ==> resp == Response(200, true, SuccessMessage, [])
    ensures resp.status != 200 ==> resp == Response(500, false, FailureMessage, [])
  {
    attempted := [notification];
    if !deliver(transport, notification) {
      return Response(500, false, FailureMessage, []), attempted;
    }
    attempted := attempted + [confirmation];
    if !deliver(transport, confirmation) {
      return Response(500, false, FailureMessage, []), attempted;
    }
    resp := Response(200, true, SuccessMessage, []);
  }

  /** The outcome of sending the mails for an accepted inquiry: the notification is
      attempted first; the confirmation is attempted exactly when the notification was
      delivered; the reply is 200 exactly when both were delivered, else 500. */
  predicate MailsSent(d: Inquiry, env: Env, deliver: (TransportSettings, MailOptions) -> bool,
                      submittedAt: string, resp: Response, attempted: seq<MailOptions>)
  {
    && 1 <= |attempted| <= 2
    && attempted[0] == NotificationMail(d, env, submittedAt)
    && (|attempted| == 2 <==> deliver(Transport(env), attempted[0]))
    && (|attempted| == 2 ==> attempted[1] == ConfirmationMail(d, env))
    && (resp.status == 200 <==> |attempted| == 2 && deliver(Transport(env), attempted[1]))
    && (resp.status == 200 ==> resp == Response(200, true, SuccessMessage, []))
    && (resp.status != 200 ==> resp == Response(500, false, FailureMessage, []))
  }

  /** What the handler does with an inquiry the schema accepted: build the notification,
      send it, then build and send the confirmation. */
  method Respond(d: Inquiry, env: Env, deliver: (TransportSettings, MailOptions) -> bool,
                 submittedAt: string)
    returns (resp: Response, attempted: seq<MailOptions>)
    ensures MailsSent(d, env, deliver, submittedAt, resp, attempted)
    ensures resp.status == 200 ==> resp == Response(200, true, SuccessMessage, [])
    ensures resp.status != 200 ==> resp == Response(500, false, FailureMessage, [])
  {
    resp, attempted := Dispatch(Transport(env), NotificationMail(d, env, submittedAt),
      ConfirmationMail(d, env), deliver);
  }

  /** The POST handler: parse the JSON body, check it against the schema, then send the
      two mails. `body` is the parsed JSON (None when the body is not JSON), `deliver` says
      whether a `sendMail` call resolves, `attempted` lists the `sendMail` calls made, in
      order. Malformed JSON is not a schema error and ends in the generic 500. */
  method Post(body: Option<Json>, env: Env, isEmail: string -> bool,
              deliver: (TransportSettings, MailOptions) -> bool, submittedAt: string)
    returns (resp: Response, attempted: seq<MailOptions>)
    ensures resp.success <==> resp.status == 200
    ensures resp.status == 200 || resp.status == 400 || resp.status == 500
    ensures body.None? ==> resp.status == 500 && attempted == []
    ensures body.Some? && Parse(body.value, isEmail).Failure? ==>
      resp == Response(400, false, InvalidMessage, Parse(body.value, isEmail).error) && attempted == []
    ensures body.Some? && Parse(body.value, isEmail).Success? ==>
      MailsSent(Parse(body.value, isEmail).value, env, deliver, submittedAt, resp, attempted)
    ensures resp.status == 200 ==> resp.message == SuccessMessage
    ensures resp.status == 500 ==> resp == Response(500, false, FailureMessage, [])
  {
    if body.None? {
      resp, attempted := Response(500, false, FailureMessage, []), [];
    } else {
      var parsed := Parse(body.value, isEmail);
      if parsed.Failure? {
        resp, attempted := Response(400, false, InvalidMessage, parsed.error), [];
      } else {
        resp, attempted := Respond(parsed.value, env, deliver, submittedAt);
      }
    }
  }
}
