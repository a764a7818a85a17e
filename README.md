# Member signup page: validator, payload and OTP controller

A Dafny model of the logic of the member registration page
(`src/pages/registration/MemberRegistrationSignup.tsx`). It covers three parts.

- **Registration validator** (`signup_schema.dfy`, module `SignupSchema`). The
  schema is a list of rules, one per `min`/`max`/`email`/`url`/`enum` check,
  kept in declaration order and carrying the source's messages. After the rules
  comes the cross-field refinement `password == confirmPassword`, whose issue is
  attached to `confirmPassword`. `Errors` gives one issue per failing rule, then
  the refinement's issue. The refinement follows the abort rule of the
  validation library (zod 3): a card type outside the enumeration aborts the
  object parse, and the refinement is then skipped. Failed length and format
  checks do not abort. `Valid` states the same rules field by field, with no
  reference to the rule list. `Parse` either returns the form with
  `cardTypeEnum` defaulted to `VISA`, or fails with every issue found. The
  library's `.email()` and `.url()` checks are left uninterpreted: they are the
  two functions of a `FormatChecks` value passed in.
- **Payload assembly** (`signup_payload.dfy`, module `SignupPayload`). The parsed
  form becomes a JavaScript object, modelled as a map from property names to
  values. It is spread into the payload, and `name`, `currentActiveClubId` and
  `membershipTypeId` are added. A reader recovers the submission from a payload,
  and the round trip from payload back to submission is proved. `Submit` is the
  submit handler. It produces no events unless the form is accepted. Otherwise
  it sends the payload, then either notifies success and navigates home, or
  notifies the error.
- **OTP controller** (`otp_controller.dfy`, module `OtpVerification`). This is a
  class holding the page's state:
  - the `emailSent` and `phoneSent` flags;
  - the two verdicts `isEmailOtpValid` and `isPhoneOtpValid`;
  - the last code value each validation effect ran with, which models the
    effect's dependency list;
  - an event log of notifications and remote calls.

  The send handlers, the button clicks (each guarded by the button's `disabled`
  predicate) and the two auto-validation effects are methods. Each takes the
  remote service's outcome as a parameter. The phone button's `disabled` is
  `!phoneSent`, the inverse of the e-mail button's `emailSent`. The model keeps
  it as written, and `PhoneNeverSentByClicks` proves the consequence: from a
  fresh page, no sequence of clicks on the phone button ever sends a code.

`signup_types.dfy` (module `SignupTypes`) holds the shared values: the form
record, property names, JavaScript values and events.

The emailed code is modelled as the code has it: at least six characters
(`min(6)`, line 32). It is not modelled as exactly six.

## Model

| member | source | states |
|---|---|---|
| SignupSchema.RuleIssues | src/pages/registration/MemberRegistrationSignup.tsx:14-47 | the issues of a rule list are empty exactly when every rule passes; every failing rule's issue (its path, and its message or the library default) is among them, and every issue listed is the issue of some failing rule; there are no more issues than rules |
| SignupSchema.SchemaMatchesValid | src/pages/registration/MemberRegistrationSignup.tsx:13-52 | the declarative rules plus the password refinement accept exactly the forms the field-by-field `Valid` predicate accepts: min lengths 1/10/6, e-mail and URL formats, an optional URL, card number ≥ 16, CVV 3–4, expiry ≥ 5, card type among VISA/MASTERCARD/AMEX when given |
| SignupSchema.Errors | src/pages/registration/MemberRegistrationSignup.tsx:13-52 | no issues exactly when the form is valid; "Passwords do not match" at path `confirmPassword` is reported exactly when the passwords differ and the card type does not abort the parse; every failing rule's issue is reported, and every reported issue is a failing rule's or that mismatch issue |
| SignupSchema.NoRuleReportsMismatch | src/pages/registration/MemberRegistrationSignup.tsx:23 | no rule of the schema reports the refinement's issue: the only rule at `confirmPassword` carries "Please confirm your password" |
| SignupSchema.MismatchNotFromRules | src/pages/registration/MemberRegistrationSignup.tsx:49-52 | the refinement's issue never comes from the field rules, so it appears only when the refinement itself fails |
| SignupSchema.AbortedByCardType | src/pages/registration/MemberRegistrationSignup.tsx:44-46 | when the card type aborts the parse, the enumeration rule fails, so a form whose refinement is skipped is still rejected |
| SignupSchema.Parse | src/pages/registration/MemberRegistrationSignup.tsx:13-52 | success exactly for valid forms; a failure carries the form's non-empty issue list; a success is valid, has `cardTypeEnum` defaulted to VISA when absent (otherwise kept) and always among the three card types, and equals the input in every other field, the other payment fields included |
| SignupSchema.ParseIdempotent | src/pages/registration/MemberRegistrationSignup.tsx:44-46 | parsing an accepted form's parsed value gives the same result again |
| SignupSchema.EmptyFirstNameReported | src/pages/registration/MemberRegistrationSignup.tsx:15 | an empty first name is reported as "First name is required" at path `firstName` |
| SignupSchema.ShortPhoneReported | src/pages/registration/MemberRegistrationSignup.tsx:21 | a phone number shorter than 10 characters is reported as "Phone number is required" at path `phoneNumber` |
| SignupSchema.LongCvvReported | src/pages/registration/MemberRegistrationSignup.tsx:38-41 | a CVV longer than 4 characters is reported as "CVV must be at most 4 digits" at path `paymentDetails.cvv` |
| SignupSchema.AbsentOptionalsNeverBlock | src/pages/registration/MemberRegistrationSignup.tsx:24-33 | an accepted form stays accepted with `profilePictureUrl` or `phoneOTP` removed |
| SignupSchema.PhoneOtpIgnored | src/pages/registration/MemberRegistrationSignup.tsx:33 | the value of `phoneOTP`, present or absent, never changes whether the form is accepted |
| SignupPayload.AssemblePayload | src/pages/registration/MemberRegistrationSignup.tsx:151-157 | the payload's keys are the form's plus `name`, `currentActiveClubId` and `membershipTypeId`; every form property is copied unchanged; `name` is first name, a space, last name; the two identifiers are the navigation context's, `undefined` when missing |
| SignupPayload.PaymentRoundTrip | src/pages/registration/MemberRegistrationSignup.tsx:151-157 | the nested payment record is read back unchanged from its object |
| SignupPayload.FormRoundTrip | src/pages/registration/MemberRegistrationSignup.tsx:151-157 | a form is read back unchanged from any object that agrees with its own on the form's properties, so the spread loses nothing |
| SignupPayload.PayloadRoundTrip | src/pages/registration/MemberRegistrationSignup.tsx:151-157 | the form and both identifiers are read back from the assembled payload exactly |
| SignupPayload.Submit | src/pages/registration/MemberRegistrationSignup.tsx:151-159 | no events exactly when the form is invalid; otherwise the first event sends the payload assembled from the parsed form, whose `name` is first name, space, last name; then "Member created!" and navigation home when the service accepts, or only "Error while assigning role" when it rejects |
| OtpVerification.OtpController.constructor | src/pages/registration/MemberRegistrationSignup.tsx:88-91 | both flags false, both verdicts unset, an empty log; the e-mail button enabled and the phone button disabled |
| OtpVerification.OtpController.SendEmailOtp | src/pages/registration/MemberRegistrationSignup.tsx:93-105 | a blank address logs exactly one "Enter a valid email first." and nothing else changes; otherwise the dispatch is logged, then on delivery the flag is raised and "OTP sent to email!" logged, on failure the flag is kept and "Failed to send OTP." logged; the flag is never lowered |
| OtpVerification.OtpController.SendPhoneOtp | src/pages/registration/MemberRegistrationSignup.tsx:107-119 | the same for the phone number, with "Enter a valid phone number first." and "OTP sent to phone!" |
| OtpVerification.OtpController.ClickSendEmail | src/pages/registration/MemberRegistrationSignup.tsx:256 | once a code was delivered, a click changes nothing; before that, a click does exactly what the send handler does: one "Enter a valid email first." for a blank address, otherwise the dispatch followed by "OTP sent to email!" and the raised flag, or by "Failed to send OTP." with the flag still down |
| OtpVerification.OtpController.ClickSendPhone | src/pages/registration/MemberRegistrationSignup.tsx:289 | while no code was sent, a click changes nothing (the button is disabled); once one was sent, a click does exactly what the send handler does, with its exact log for a blank number, a delivery and a failure, and the flag stays raised |
| OtpVerification.PhoneNeverSentByClicks | src/pages/registration/MemberRegistrationSignup.tsx:289 | from a fresh page, any sequence of phone button clicks leaves the phone flag false and the log empty |
| OtpVerification.OtpController.EmailOtpRendered | src/pages/registration/MemberRegistrationSignup.tsx:121-134 | only a changed value of exactly six characters triggers a check of that code against the current e-mail value; a verdict sets validity to it and logs "OTP verified", a failure sets validity to false; any other value leaves validity and the log unchanged |
| OtpVerification.OtpController.PhoneOtpRendered | src/pages/registration/MemberRegistrationSignup.tsx:136-149 | the same for the phone code, checked against the current phone number |

Every send, click and render method keeps `OtpController.Valid`: a raised sent
flag always comes with its success notification in the log.

## Left out

- Remote calls (sign-up, code dispatch and code checking) are not made. Each
  operation receives the outcome as a parameter, and the call is recorded as an
  event. The answers are treated as arriving at once, so overlapping requests
  and reordered answers are not modelled.
- The one-second delay before navigating home is not modelled. Navigation is a
  single event after the success notification.
- Toast styling, the button labels ("OTP Sent" / "Send Email OTP"), the layout
  and the rest of the JSX are not modelled: they are presentation only.
- The internals of the validation library's `.email()` and `.url()` are
  parameters. Their definitions are not visible.
- Lengths are counted in characters of the model's strings, not in JavaScript's
  UTF-16 code units.
- The default wording of the enumeration's issue (it has no message of its own)
  follows the library's usual wording. It is not part of the page's source.
- Required text fields are always strings, as text inputs give them. The
  library's "Required" issue for a missing property is not modelled. The two
  optional fields may be absent.
- Other aborting failures of the library (a value of the wrong type, such as a
  missing required property) are not modelled, because required fields are
  always strings here. The card type is the only abort the model has.
- Property names form an enumeration, `Prop`. `PropName` gives each one's
  JavaScript spelling, which is used in issue paths.
- The form library's wiring (`register`, `watch`, `handleSubmit`) is represented
  by method parameters: watched values are passed to the methods that use them.
- `src/shared/apis/clubs/useGetClubPlans.ts` (an authenticated HTTP request) and
  `src/shared/loader/Loader.tsx` (a spinner) are not part of this model.
