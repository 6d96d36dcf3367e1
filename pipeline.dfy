/**
 * The form and the endpoint together: what the wizard posts is what the endpoint's
 * schema reads back, and what the endpoint then shows about the phone number follows
 * from what was typed into the form.
 */
module Pipeline {
  import opened Wrappers
  import opened JsText
  import opened Json
  import opened InquiryForm
  import opened SubmitInquiry

  /** The inquiry the endpoint reads back from the form's request body. */
  function Received(d: FormData): (r: Inquiry)
    ensures Step1Ok(d) ==> Utf16Length(r.companyName) >= 2 && Utf16Length(r.contactName) >= 2
    ensures Step2Ok(d) <==> |r.rolesInterested| >= 1 && r.hiringChallenge != "" && r.timeline != ""
    ensures r.phone == Some("") <==> r.phoneNumber == Some("")
  {
    Inquiry(d.companyName, d.contactName, d.email, d.countryCode, Some(d.phoneNumber),
      d.rolesInterested, d.hiringChallenge, d.timeline, d.coBrandingConsent, Some(FullPhone(d)))
  }

  /** Each entry of the form's body holds the form's value, as JSON. */
  lemma PayloadFields(d: FormData)
    ensures var f := Payload(d).fields;
      && f["companyName"] == JString(d.companyName)
      && f["contactName"] == JString(d.contactName)
      && f["email"] == JString(d.email)
      && f["countryCode"] == JString(d.countryCode)
      && f["phoneNumber"] == JString(d.phoneNumber)
      && f["rolesInterested"] == Strings(d.rolesInterested)
      && f["hiringChallenge"] == JString(d.hiringChallenge)
      && f["timeline"] == JString(d.timeline)
      && f["coBrandingConsent"] == JBool(d.coBrandingConsent)
      && f["phone"] == JString(FullPhone(d))
  {
  }

  /** The schema's verdict on the form's body, entry by entry. */
  lemma PayloadSchemaOk(d: FormData, isEmail: string -> bool)
    ensures SchemaOk(Payload(d).fields, isEmail) <==>
      && Utf16Length(d.companyName) >= 2
      && Utf16Length(d.contactName) >= 2
      && isEmail(d.email)
      && Step2Ok(d)
  {
    PayloadFields(d);
  }

  /** The endpoint accepts the form's body exactly when both company and contact name
      are two UTF-16 units or longer, the server-side e-mail check passes, and step 2's
      checks pass; an accepted body reads back as the form's own values. */
  lemma PayloadAccepted(d: FormData, isEmail: string -> bool)
    ensures Parse(Payload(d), isEmail).Success? <==>
      && Utf16Length(d.companyName) >= 2
      && Utf16Length(d.contactName) >= 2
      && isEmail(d.email)
      && Step2Ok(d)
    ensures Parse(Payload(d), isEmail).Success? ==> Parse(Payload(d), isEmail).value == Received(d)
  {
    PayloadSchemaOk(d, isEmail);
    if Parse(Payload(d), isEmail).Success? {
      PayloadFields(d);
      assert Texts(Strings(d.rolesInterested).items) == d.rolesInterested;
    }
  }

  /** A wizard that has passed both validated steps submits a body the endpoint accepts,
      provided the server's e-mail check agrees with the client's pattern on the address. */
  lemma ValidatedFormAccepted(d: FormData, isEmail: string -> bool)
    requires Step1Ok(d) && Step2Ok(d)
    requires isEmail(d.email)
    ensures Parse(Payload(d), isEmail) == Success(Received(d))
  {
    PayloadAccepted(d, isEmail);
  }

  /** The client's pattern and the server's check are independent: when the server
      refuses the address the whole body is refused, with an issue about the email. */
  lemma ServerEmailCheckDecides(d: FormData, isEmail: string -> bool)
    requires !isEmail(d.email)
    ensures Parse(Payload(d), isEmail).Failure?
    ensures Issue("email") in Parse(Payload(d), isEmail).error
  {
    PayloadFields(d);
    EmailIssue(Payload(d), isEmail);
  }

  /** A digit string never reads as the placeholder (the placeholder ends in a letter). */
  lemma DigitsAreNotPlaceholder(code: string, number: string)
    requires number != "" && AllDigits(number)
    ensures code + " " + number != "Not provided"
  {
    var s := code + " " + number;
    assert s[|s| - 1] == number[|number| - 1];
    assert IsDigit(s[|s| - 1]);
  }

  /** With digits only in the phone field (the input filters everything else), the endpoint
      displays the placeholder when nothing was typed and "<code> <number>" otherwise,
      and the HTML mails show a phone block exactly when a number was typed. */
  lemma PhoneShownIffTyped(d: FormData)
    requires AllDigits(d.phoneNumber)
    ensures d.phoneNumber == "" ==> PhoneDisplay(Received(d)) == "Not provided"
    ensures d.phoneNumber != "" ==> PhoneDisplay(Received(d)) == d.countryCode + " " + d.phoneNumber
    ensures PhoneBlock(PhoneDisplay(Received(d))).Some? <==> d.phoneNumber != ""
  {
    if d.phoneNumber != "" {
      DigitsAreNotPlaceholder(d.countryCode, d.phoneNumber);
    }
  }

  /** Ticking one more role (on a list that already has one) extends the notification's
      roles line by the separator and that role, and unticking it restores the line. */
  lemma RolesLineAfterToggle(roles: seq<string>, role: string)
    requires |roles| >= 1 && role !in roles
    ensures RolesLine(ToggleRole(roles, role)) == RolesLine(roles) + ", " + role
    ensures RolesLine(ToggleRole(ToggleRole(roles, role), role)) == RolesLine(roles)
  {
    JoinSnoc(", ", roles, role);
    ToggleRoleTwice(roles, role);
  }
}
