# Talent Hub inquiry: a Dafny model

This project models the inquiry flow of the Talent Hub site in two parts.

The first part is the form component (`TalentInquiryForm`). It is a three-step wizard:
- step 1 asks for the company, the contact person, the e-mail address and an optional phone number;
- step 2 asks for the roles, the hiring challenge and the timeline;
- step 3 asks for the co-branding consent and submits.

The model gives the component:
- its state cells as the fields of the class `InquiryForm.FormController`;
- its event handlers as that class's methods: mount effect, `updateField`, phone filter, `toggleRole`, `validateStep`, `nextStep`, `prevStep`, `handleSubmit`;
- its pure helpers as functions: the e-mail pattern, `getFullPhone`, the country autofill and the request body.

The second part is the `POST /api/submit-inquiry` endpoint (`SubmitInquiry`). It:
- checks the body against the zod schema;
- derives the phone display, the first name, the joined roles and the consent text;
- builds a notification for the business and a confirmation for the submitter;
- sends them in that order;
- answers 200, 400 or 500.

`Pipeline` connects the two parts. It proves that the body the wizard posts is accepted by the endpoint exactly when the stated conditions hold, and that it reads back as the form's own values. It also relates what was typed into the phone field to what the mails show.

The files:
- `wrappers.dfy`: `Option` and `Result`.
- `json.dfy`: JSON values.
- `js_text.dfy`: the JavaScript string behaviour the code relies on:
  - the `\s` and `\D` classes;
  - UTF-16 `length`;
  - `join` and `split(' ')[0]`;
  - a containment predicate, `Contains`, in which the properties of the mail texts are stated.
- `inquiry_form.dfy`: the form.
- `submit_inquiry.dfy`: the endpoint.
- `pipeline.dfy`: the end-to-end lemmas.

The model takes these things as parameters, because they are outside the code:
- the IP lookup's country code (`detected`);
- the outcome of `fetch` (`FetchOutcome`);
- the JSON parser's outcome (`body: Option<Json>`);
- zod's e-mail check (`isEmail`);
- whether a `sendMail` call resolves (`deliver`);
- the formatted clock reading (`submittedAt`);
- the process environment (`Env`, one `Option<string>` per variable).

## Model

| member | source | states |
|---|---|---|
| InquiryForm.InitialForm | components/TalentHub/TalentInquiryForm.tsx:113-123 | the initial form passes neither step, has no phone and no consent, and preselects India's dial code, one of the selector's options |
| InquiryForm.With | components/TalentHub/TalentInquiryForm.tsx:152-154 | the field written holds the new value and every other field keeps its old value |
| InquiryForm.WithKeepsOtherSteps | components/TalentHub/TalentInquiryForm.tsx:152-154 | writing a field of one panel changes neither the other panels' checks nor the phone number or the roles of another field |
| InquiryForm.MatchHasShape | components/TalentHub/TalentInquiryForm.tsx:178 | a string the e-mail pattern matches has no whitespace, exactly one '@' with text before it, and a '.' after the '@' with text on both sides |
| InquiryForm.ShapeMatches | components/TalentHub/TalentInquiryForm.tsx:178 | every string of that shape is matched by the pattern |
| InquiryForm.EmailPatternIff | components/TalentHub/TalentInquiryForm.tsx:178 | the pattern accepts a string if and only if it has that shape |
| InquiryForm.ErrorMessage | components/TalentHub/TalentInquiryForm.tsx:171-193 | a field has a non-empty message exactly when some step's check can flag it |
| InquiryForm.StepPassesIffNothingFlagged | components/TalentHub/TalentInquiryForm.tsx:168-197 | validating a step succeeds exactly when none of its fields is flagged |
| InquiryForm.Step1Accepts | components/TalentHub/TalentInquiryForm.tsx:171-181 | step 1 passes iff both names are at least two UTF-16 units long and the address has the e-mail shape |
| InquiryForm.ClearError | components/TalentHub/TalentInquiryForm.tsx:155-157 | the field's error is no longer shown, the set of keys is the same and every other entry is unchanged |
| InquiryForm.Without | components/TalentHub/TalentInquiryForm.tsx:163 | the filtered list does not hold the role and holds every other role as often as before |
| InquiryForm.WithoutAppend | components/TalentHub/TalentInquiryForm.tsx:163 | filtering keeps order: filtering a concatenation concatenates the filtered parts |
| InquiryForm.WithoutAbsent | components/TalentHub/TalentInquiryForm.tsx:163 | filtering out an absent role leaves the list unchanged |
| InquiryForm.ToggleRole | components/TalentHub/TalentInquiryForm.tsx:159-166 | the role is in the result iff it was not in the list, other roles keep their counts, an absent role is appended at the end, and a present role is filtered out with the order of the rest kept |
| InquiryForm.ToggleRoleTwice | components/TalentHub/TalentInquiryForm.tsx:159-166 | toggling an absent role twice restores the list, order included |
| InquiryForm.ToggleRoleKeepsSet | components/TalentHub/TalentInquiryForm.tsx:159-166 | on a duplicate-free list the toggle keeps it duplicate-free and is symmetric difference with the role |
| InquiryForm.FullPhone | components/TalentHub/TalentInquiryForm.tsx:210-213 | empty iff no number was typed, otherwise the dial code, one space and the number |
| InquiryForm.AutofilledCode | components/TalentHub/TalentInquiryForm.tsx:133-138 | the dial code changes only to the table's entry for a detected country the table knows, and always does then |
| InquiryForm.AutofillOffered | components/TalentHub/TalentInquiryForm.tsx:58-104 | autofill never selects a dial code that the selector does not offer |
| InquiryForm.Payload | components/TalentHub/TalentInquiryForm.tsx:220-223 | the body is a JSON object with exactly the nine form fields and `phone` |
| InquiryForm.SubmitToast | components/TalentHub/TalentInquiryForm.tsx:233-251 | the title is "Inquiry Submitted!" for an ok reply and "Submission Failed" otherwise; the toast is destructive iff the reply was not ok; the description is never empty; it carries the server's message, or the message of the error thrown on the way, when that is non-empty |
| InquiryForm.StepOneErrors | components/TalentHub/TalentInquiryForm.tsx:171-181 | the map holds exactly the step-1 fields whose check fails, each with its message |
| InquiryForm.StepTwoErrors | components/TalentHub/TalentInquiryForm.tsx:183-193 | the map holds exactly the step-2 fields whose check fails, each with its message |
| InquiryForm.FormController.constructor | components/TalentHub/TalentInquiryForm.tsx:107-123 | the wizard starts at step 1 with the initial data, no errors, loading, and in a reachable state |
| InquiryForm.FormController.Initialize | components/TalentHub/TalentInquiryForm.tsx:126-149 | only the dial code may change (to the autofilled one), loading ends, and reachability is kept |
| InquiryForm.FormController.UpdateField | components/TalentHub/TalentInquiryForm.tsx:152-157 | the field is written, its shown error is blanked, and an edit on the current panel keeps the state reachable |
| InquiryForm.FormController.EnterPhone | components/TalentHub/TalentInquiryForm.tsx:417-421 | only the digits typed are stored, and reachability is kept on step 1 |
| InquiryForm.FormController.ToggleRoleOf | components/TalentHub/TalentInquiryForm.tsx:159-166 | the roles become the toggled list, and reachability is kept on step 2 |
| InquiryForm.FormController.ValidateStep | components/TalentHub/TalentInquiryForm.tsx:168-197 | the error map holds exactly the step's failing fields with their messages, and the result is true iff the step passes |
| InquiryForm.FormController.NextStep | components/TalentHub/TalentInquiryForm.tsx:199-203 | the step advances by one, capped at 3, exactly when the current step validates; the step stays in 1..3 and reachability is kept |
| InquiryForm.FormController.PrevStep | components/TalentHub/TalentInquiryForm.tsx:205-207 | the step goes back by one, not below 1, and reachability is kept |
| InquiryForm.FormController.HandleSubmit | components/TalentHub/TalentInquiryForm.tsx:215-255 | nothing is sent unless step 2 validates; otherwise the form data plus the full phone is sent, the toast follows the reply, the form is marked submitted only on an ok reply, and the in-flight flag is cleared |
| JsText.IsWhitespace | components/TalentHub/TalentInquiryForm.tsx:178 | `\s` never matches a digit, '@' or '.', and among ASCII characters it matches exactly space, tab, line feed, vertical tab, form feed and carriage return |
| JsText.DigitsOnly | components/TalentHub/TalentInquiryForm.tsx:419 | the result holds only digits and is no longer than the input |
| JsText.DigitsOnlyAppend | components/TalentHub/TalentInquiryForm.tsx:419 | filtering works character by character, keeping the digits in order |
| JsText.DigitsOnlyFixedPoint | components/TalentHub/TalentInquiryForm.tsx:419 | the filter leaves a string unchanged iff it holds only digits |
| JsText.DigitsOnlyCounts | components/TalentHub/TalentInquiryForm.tsx:419 | every digit is kept as often as it was typed, and nothing else is kept |
| JsText.Utf16Length | components/TalentHub/TalentInquiryForm.tsx:172 | the reported length lies between the number of code points and twice that |
| JsText.Utf16LengthAtLeastTwo | components/TalentHub/TalentInquiryForm.tsx:172-177 | a length of 2 or more means two or more characters, or a single character outside the Basic Multilingual Plane |
| JsText.JoinLength | app/api/submit-inquiry/route.ts:118 | joining n items adds exactly n - 1 separators |
| JsText.JoinSnoc | app/api/submit-inquiry/route.ts:118 | appending an item to a non-empty list appends the separator and the item to the joined line |
| JsText.JoinContains | app/api/submit-inquiry/route.ts:270 | every item of a joined list appears verbatim in the joined line |
| JsText.BeforeFirst | app/api/submit-inquiry/route.ts:44 | the result is the longest prefix without the separator |
| SubmitInquiry.SchemaIssues | app/api/submit-inquiry/route.ts:5-16 | an object body draws no issue iff every schema entry accepts its field |
| SubmitInquiry.SchemaIssuesNamed | app/api/submit-inquiry/route.ts:5-16 | every issue of an object body names one of the schema's keys |
| SubmitInquiry.Texts | app/api/submit-inquiry/route.ts:11 | an array of JSON strings reads back as the same strings in the same order |
| SubmitInquiry.Parse | app/api/submit-inquiry/route.ts:5-16 | a refusal lists at least one issue; an accepted inquiry has names of at least two UTF-16 units, an address the e-mail check accepts, at least one role, and a non-empty challenge and timeline |
| SubmitInquiry.InquiryFields | app/api/submit-inquiry/route.ts:5-16 | an inquiry written as an object uses only the schema's keys, with each optional phone entry present exactly when the value is |
| SubmitInquiry.Stripped | app/api/submit-inquiry/route.ts:23 | the object keeps exactly the keys the schema declares, with their values |
| SubmitInquiry.ParseReturnsBody | app/api/submit-inquiry/route.ts:23 | an accepted body's inquiry, written back as an object, is the body's own schema entries: `parse` returns the input with undeclared keys stripped |
| SubmitInquiry.ParseInquiryFields | app/api/submit-inquiry/route.ts:5-23 | an inquiry meeting the schema's rules, written as an object, parses back to itself |
| SubmitInquiry.ParseAccepts | app/api/submit-inquiry/route.ts:5-16 | the schema accepts a body iff it is an object whose entries all satisfy their rules |
| SubmitInquiry.EmailIssue | app/api/submit-inquiry/route.ts:8 | an object body draws an email issue iff the field is missing, is not a string, or fails the e-mail check |
| SubmitInquiry.EmptyRolesRejected | app/api/submit-inquiry/route.ts:11 | an empty roles array is refused with an issue about the roles |
| SubmitInquiry.PhoneDisplay | app/api/submit-inquiry/route.ts:40-41 | never empty; a non-empty `phone` from the client wins; otherwise a non-empty `phoneNumber` gives the dial code, a space and the number; otherwise the placeholder "Not provided" |
| SubmitInquiry.FirstName | app/api/submit-inquiry/route.ts:44 | a prefix of the name, non-empty for a non-empty name, and cut at the first space unless the name starts with a space |
| SubmitInquiry.RolesLine | app/api/submit-inquiry/route.ts:118 | no roles give an empty line; every role appears in the line verbatim; n roles add n - 1 separators of two characters |
| SubmitInquiry.RolesLineSingle | app/api/submit-inquiry/route.ts:118 | one role is shown as itself |
| SubmitInquiry.ConsentText | app/api/submit-inquiry/route.ts:136 | "Yes" exactly for consent and "No" exactly for its absence |
| SubmitInquiry.PhoneBlock | app/api/submit-inquiry/route.ts:102-113 | the HTML phone block is present, with the display value, iff the display is not the placeholder |
| SubmitInquiry.OrElse | app/api/submit-inquiry/route.ts:28 | a set, non-empty variable is used; an unset or empty one falls back |
| SubmitInquiry.Interpolate | app/api/submit-inquiry/route.ts:280 | a set variable renders as its value; the output is "undefined" exactly when the variable is unset or set to that word |
| SubmitInquiry.Lines | app/api/submit-inquiry/route.ts:260-276 | both plain-text templates have 15 lines; the notification opens with its heading and ends with the submission time, the confirmation opens with its thanks and ends with the team's signature |
| SubmitInquiry.Render | app/api/submit-inquiry/route.ts:481-497 | every line of the template, values filled in, appears verbatim in the text handed to `sendMail` |
| SubmitInquiry.TemplateTextContains | app/api/submit-inquiry/route.ts:260-276 | every line of a text template appears verbatim in the rendered text |
| SubmitInquiry.NotificationMail | app/api/submit-inquiry/route.ts:279-286 | the mail goes to RECIPIENT_EMAIL, replies go to the submitter, the subject names the company, and the phone block follows the display value |
| SubmitInquiry.ConfirmationMail | app/api/submit-inquiry/route.ts:499-505 | the mail goes to the submitter with no reply-to, the sender is SMTP_USER when it is set and non-empty and the no-reply address otherwise, and the phone block follows the display value |
| SubmitInquiry.PhoneBlockAgrees | app/api/submit-inquiry/route.ts:348-352 | both HTML mails show the same phone block, and they show it iff the display is not the placeholder |
| SubmitInquiry.PhoneLineAlways | app/api/submit-inquiry/route.ts:267 | the plain-text notification always has a Phone line, with the placeholder when no number was given |
| SubmitInquiry.NotificationMentions | app/api/submit-inquiry/route.ts:264-273 | the notification text carries the company, the contact, the joined roles and the consent verbatim |
| SubmitInquiry.ConsentAgrees | app/api/submit-inquiry/route.ts:354 | the consent reads the same in both HTML mails and agrees with the consent flag |
| SubmitInquiry.ConfirmationMentions | app/api/submit-inquiry/route.ts:481-497 | the confirmation text greets the contact by full name and names the submitter's address |
| SubmitInquiry.Transport | app/api/submit-inquiry/route.ts:26-37 | the port is 587 when SMTP_PORT is unset or empty and SMTP_PORT otherwise; TLS from the start iff SMTP_PORT is "465" |
| SubmitInquiry.Dispatch | app/api/submit-inquiry/route.ts:288-515 | the notification is sent first; the confirmation is sent iff the notification was delivered; the reply is the 200 success iff both were delivered, and the generic 500 otherwise |
| SubmitInquiry.Respond | app/api/submit-inquiry/route.ts:279-515 | for an accepted inquiry, the two mails built from it are sent as above |
| SubmitInquiry.Post | app/api/submit-inquiry/route.ts:18-534 | success iff status 200 and the status is 200, 400 or 500; a body that is not JSON gives 500 and no mail; a schema refusal gives 400 with the issues and no mail; an accepted body gives 200 iff both mails go out, with the notification first |
| Pipeline.Received | app/api/submit-inquiry/route.ts:23 | the inquiry read back from the form's body meets the server's name requirements whenever step 1 passes, meets the step-2 requirements exactly when step 2 passes, and its `phone` is empty exactly when its `phoneNumber` is |
| Pipeline.PayloadFields | components/TalentHub/TalentInquiryForm.tsx:220-230 | each entry of the posted body holds the form's value, and "phone" holds the full phone |
| Pipeline.PayloadSchemaOk | app/api/submit-inquiry/route.ts:5-16 | the server schema accepts every entry of the form's body iff both names are long enough, the server's e-mail check passes and step 2's checks hold |
| Pipeline.PayloadAccepted | app/api/submit-inquiry/route.ts:23 | the endpoint accepts the form's body under exactly those conditions, and reads it back as the form's own values |
| Pipeline.ValidatedFormAccepted | components/TalentHub/TalentInquiryForm.tsx:215-230 | a form that passed both validated steps posts a body the endpoint accepts, provided the server's e-mail check agrees |
| Pipeline.ServerEmailCheckDecides | app/api/submit-inquiry/route.ts:8 | when the server refuses the address, the whole body is refused with an email issue, whatever the client's pattern said |
| Pipeline.DigitsAreNotPlaceholder | app/api/submit-inquiry/route.ts:41 | a dial code, a space and a digit string never read as the placeholder |
| Pipeline.PhoneShownIffTyped | app/api/submit-inquiry/route.ts:40-41 | with a digits-only phone field, the display is the placeholder when nothing was typed and the dial code, a space and the number otherwise; the HTML phone block appears iff a number was typed |
| Pipeline.RolesLineAfterToggle | app/api/submit-inquiry/route.ts:118 | ticking one more role extends the roles line by ", " and the role, and unticking it restores the line |

## Left out

- JSON parsing and serialisation: the model starts from a JSON value. A body that is not JSON is the `None` case. Numbers are integers, because no field of the inquiry is numeric.
- zod's e-mail check is the opaque parameter `isEmail`. zod's issue objects are reduced to the name of the rejected field, one issue per field. The issues of individual array elements are folded into one issue for `rolesInterested`.
- The client's zod schema, lines 14-24 of the form file, is never used to validate. It only serves the `FormData` type, and the model takes the types from it.
- The HTML markup of both mails: `MailHtml` keeps only the values interpolated into it, and whether the phone block is present. The plain-text bodies are kept in full, through `Render`.
- `new Date().toLocaleString()`: the clock reading is the parameter `submittedAt`.
- `parseInt` of SMTP_PORT: the port is kept as the string before parsing.
- The nodemailer transport: whether a send resolves is the parameter `deliver`. An unset RECIPIENT_EMAIL is passed on as `None`, and any failure it causes is up to `deliver`.
- React rendering, and the asynchronous closures over stale state. Each handler is modelled as one atomic step on the current state. The `isLoading` and `isSubmitted` screens are not rendered.
- The `maxLength={15}` attribute of the phone input: it is a browser limit, not code.
- The option lists for roles, challenges and timelines: the model lets any string be chosen.
- Lookups of prototype keys such as "constructor" in `countryToDialCode`: the table is a plain map.
- The checkbox's "indeterminate" value: the consent is a boolean.
- The toast queue of `hooks/use-toast.ts` and the page around the form, `app/talent-hub/page.tsx`. These files are not part of this model. A toast is the value passed to `toast`.
- The `console` logging in both files.
- InquiryForm.FormController.UpdateField: reachability is promised only for edits on the current panel, with a digits-only phone value and a duplicate-free role list, because the rendered inputs produce only those. A direct call with other values is outside the promise.
- SubmitInquiry.Dispatch: it takes the confirmation as an argument. The source builds the confirmation only after the notification went out, but both are pure values of the same inputs, so the order is not observable.

## Notes on behaviour

- A body that is not JSON makes `request.json()` throw a SyntaxError. That error is not a ZodError, so the reply is the generic 500, not the 400 "Invalid form data".
- The HTML phone block is left out of both mails when the display is "Not provided". The plain-text notification always has a "- Phone:" line, with "Not provided" when no number was given. The plain-text confirmation has no phone line.
- The notification for the business greets the submitter's first name, with the same "Hi …" line as the confirmation.
