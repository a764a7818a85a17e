/** The signup form's validation schema: a declarative list of per-field rules
    plus one cross-field refinement (passwords must match). */
module SignupSchema {
  import opened SignupTypes

  /** A validated field: a top-level property of the form, or a property of
      its nested `paymentDetails` record. */
  datatype Field = Top(prop: Prop) | InPayment(prop: Prop)

  /** The constraint a rule puts on a present string value. */
  datatype Check = MinLength(n: nat) | MaxLength(n: nat) | EmailFormat | UrlFormat | OneOf(options: seq<string>)

  /** A rule with a custom message, or with `None` for the library's default message. */
  datatype Rule = Rule(field: Field, check: Check, message: Option<string>)

  const CardTypes: seq<string> := ["VISA", "MASTERCARD", "AMEX"]
  const DefaultCardType: string := "VISA"

  /** The issue the refinement reports when the passwords differ. */
  const PasswordMismatch: Issue := Issue([PropName(ConfirmPassword)], "Passwords do not match")

  /** The per-field rules, in the order the schema declares them. */
  const Schema: seq<Rule> := [
    Rule(Top(FirstName), MinLength(1), Some("First name is required")),
    Rule(Top(LastName), MinLength(1), Some("Last name is required")),
    Rule(Top(Email), MinLength(1), Some("Email is required")),
    Rule(Top(Email), EmailFormat, Some("Invalid email address")),
    Rule(Top(PhoneNumber), MinLength(10), Some("Phone number is required")),
    Rule(Top(Password), MinLength(6), Some("Password must be at least 6 characters")),
    Rule(Top(ConfirmPassword), MinLength(6), Some("Please confirm your password")),
    Rule(Top(ProfilePictureUrl), UrlFormat, Some("Invalid URL")),
    Rule(Top(DateOfBirth), MinLength(1), Some("Date of birth is required")),
    Rule(Top(Gender), MinLength(1), Some("Gender is required")),
    Rule(Top(Address), MinLength(1), Some("Address is required")),
    Rule(Top(City), MinLength(1), Some("City is required")),
    Rule(Top(State), MinLength(1), Some("State is required")),
    Rule(Top(Country), MinLength(1), Some("Country is required")),
    Rule(Top(ZipCode), MinLength(1), Some("Zip code is required")),
    Rule(Top(EmailOTP), MinLength(6), Some("Email OTP is required")),
    Rule(Top(SkillLevel), MinLength(1), Some("Skill level is required")),
    Rule(Top(PreferredTime), MinLength(1), Some("Preferred time is required")),
    Rule(InPayment(CardNumber), MinLength(16), Some("Card number must be 16 digits")),
    Rule(InPayment(Cvv), MinLength(3), Some("CVV must be at least 3 digits")),
    Rule(InPayment(Cvv), MaxLength(4), Some("CVV must be at most 4 digits")),
    Rule(InPayment(ExpiryDate), MinLength(5), Some("Expiry date is required")),
    Rule(InPayment(CardHolderName), MinLength(1), Some("Cardholder name is required")),
    Rule(InPayment(CardTypeEnum), OneOf(CardTypes), None)
  ]

  /** The path an issue about the field is attached to. */
  function Path(f: Field): seq<string> {
    match f
    case Top(p) => [PropName(p)]
    case InPayment(p) => [PropName(Payment), PropName(p)]
  }

  /** The field's value, or `None` when it is absent (or names no field of the form). */
  function Get(form: Form, f: Field): Option<string> {
    match f
    case Top(p) => (
      match p
      case FirstName => Some(form.firstName)
      case LastName => Some(form.lastName)
      case Email => Some(form.email)
      case PhoneNumber => Some(form.phoneNumber)
      case Password => Some(form.password)
      case ConfirmPassword => Some(form.confirmPassword)
      case ProfilePictureUrl => form.profilePictureUrl
      case DateOfBirth => Some(form.dateOfBirth)
      case Gender => Some(form.gender)
      case Address => Some(form.address)
      case City => Some(form.city)
      case State => Some(form.state)
      case Country => Some(form.country)
      case ZipCode => Some(form.zipCode)
      case EmailOTP => Some(form.emailOTP)
      case PhoneOTP => form.phoneOTP
      case SkillLevel => Some(form.skillLevel)
      case PreferredTime => Some(form.preferredTime)
      case _ => None)
    case InPayment(p) =>
      match p
      case CardNumber => Some(form.paymentDetails.cardNumber)
      case Cvv => Some(form.paymentDetails.cvv)
      case ExpiryDate => Some(form.paymentDetails.expiryDate)
      case CardHolderName => Some(form.paymentDetails.cardHolderName)
      case CardTypeEnum => form.paymentDetails.cardTypeEnum
      case _ => None
  }

  predicate Satisfies(c: Check, v: string, fc: FormatChecks) {
    match c
    case MinLength(n) => |v| >= n
    case MaxLength(n) => |v| <= n
    case EmailFormat => fc.isEmail(v)
    case UrlFormat => fc.isUrl(v)
    case OneOf(options) => v in options
  }

  /** An absent (optional or defaulted) field passes every rule. */
  predicate Passes(rule: Rule, form: Form, fc: FormatChecks) {
    match Get(form, rule.field)
    case None => true
    case Some(v) => Satisfies(rule.check, v, fc)
  }

  function NatToString(n: nat): string {
    var digit := ["0", "1", "2", "3", "4", "5", "6", "7", "8", "9"][n % 10];
    if n < 10 then digit else NatToString(n / 10) + digit
  }

  /** `'A' | 'B' | 'C'`, the way the library lists an enumeration's options. */
  function JoinOptions(options: seq<string>): string {
    if |options| == 0 then ""
    else if |options| == 1 then "'" + options[0] + "'"
    else "'" + options[0] + "' | " + JoinOptions(options[1..])
  }

  /** The library's message for a failed check that carries no custom message.
      Of this schema's rules only the enumeration has none; the other wordings
      keep the rule language total. */
  function DefaultMessage(c: Check, v: string): string {
    match c
    case MinLength(n) => "String must contain at least " + NatToString(n) + " character(s)"
    case MaxLength(n) => "String must contain at most " + NatToString(n) + " character(s)"
    case EmailFormat => "Invalid email"
    case UrlFormat => "Invalid url"
    case OneOf(options) => "Invalid enum value. Expected " + JoinOptions(options) + ", received '" + v + "'"
  }

  /** The issue a rule reports for the value `v` it rejected. */
  function IssueOf(rule: Rule, v: string): Issue {
    Issue(Path(rule.field),
          match rule.message
          case Some(m) => m
          case None => DefaultMessage(rule.check, v))
  }

  /** The issue a failing rule reports; defined when the rule does not pass. */
  function FailureOf(rule: Rule, form: Form, fc: FormatChecks): Issue
    requires !Passes(rule, form, fc)
  {
    IssueOf(rule, Get(form, rule.field).value)
  }

  /** `issue` is the issue some failing rule of `rules` reports. */
  predicate ReportedBy(issue: Issue, rules: seq<Rule>, form: Form, fc: FormatChecks) {
    exists i :: 0 <= i < |rules| && !Passes(rules[i], form, fc) && issue == FailureOf(rules[i], form, fc)
  }

  /** The issues of a rule list: one per failing rule, in rule order. */
  function RuleIssues(rules: seq<Rule>, form: Form, fc: FormatChecks): (r: seq<Issue>)
    ensures |r| <= |rules|
    ensures r == [] <==> AllPass(rules, form, fc)
    ensures forall i :: 0 <= i < |rules| && !Passes(rules[i], form, fc) ==> FailureOf(rules[i], form, fc) in r
    ensures forall issue :: issue in r ==> ReportedBy(issue, rules, form, fc)
  {
    if rules == [] then []
    else
      var first := if Passes(rules[0], form, fc) then [] else [FailureOf(rules[0], form, fc)];
      var rest := RuleIssues(rules[1..], form, fc);
      assert forall i :: 1 <= i < |rules| ==> rules[i] == rules[1..][i - 1];
      first + rest
  }

  predicate AllPass(rules: seq<Rule>, form: Form, fc: FormatChecks) {
    forall i :: 0 <= i < |rules| ==> Passes(rules[i], form, fc)
  }

  predicate PaymentValid(p: PaymentDetails) {
    && |p.cardNumber| >= 16
    && 3 <= |p.cvv| <= 4
    && |p.expiryDate| >= 5
    && |p.cardHolderName| >= 1
    && (p.cardTypeEnum.Some? ==> p.cardTypeEnum.value in CardTypes)
  }

  /** Names, contact, credentials and picture (the first eight rules). */
  predicate AccountValid(form: Form, fc: FormatChecks) {
    && |form.firstName| >= 1
    && |form.lastName| >= 1
    && |form.email| >= 1 && fc.isEmail(form.email)
    && |form.phoneNumber| >= 10
    && |form.password| >= 6
    && |form.confirmPassword| >= 6
    && (form.profilePictureUrl.Some? ==> fc.isUrl(form.profilePictureUrl.value))
  }

  /** Personal details (the next seven rules). */
  predicate DetailsValid(form: Form) {
    && |form.dateOfBirth| >= 1
    && |form.gender| >= 1
    && |form.address| >= 1
    && |form.city| >= 1
    && |form.state| >= 1
    && |form.country| >= 1
    && |form.zipCode| >= 1
  }

  /** The e-mail OTP and the preferences (the three rules before the payment ones). */
  predicate VerificationValid(form: Form) {
    && |form.emailOTP| >= 6
    && |form.skillLevel| >= 1
    && |form.preferredTime| >= 1
  }

  /** What a form must satisfy to be accepted, stated field by field. */
  predicate Valid(form: Form, fc: FormatChecks) {
    && AccountValid(form, fc)
    && DetailsValid(form)
    && VerificationValid(form)
    && PaymentValid(form.paymentDetails)
    && form.password == form.confirmPassword
  }

  lemma SchemaGivesAccount(form: Form, fc: FormatChecks)
    requires AllPass(Schema, form, fc)
    ensures AccountValid(form, fc)
  {
    assert Passes(Schema[0], form, fc);
    assert Passes(Schema[1], form, fc);
    assert Passes(Schema[2], form, fc);
    assert Passes(Schema[3], form, fc);
    assert Passes(Schema[4], form, fc);
    assert Passes(Schema[5], form, fc);
    assert Passes(Schema[6], form, fc);
    assert Passes(Schema[7], form, fc);
  }

  lemma SchemaGivesDetails(form: Form, fc: FormatChecks)
    requires AllPass(Schema, form, fc)
    ensures DetailsValid(form)
  {
    assert Passes(Schema[8], form, fc);
    assert Passes(Schema[9], form, fc);
    assert Passes(Schema[10], form, fc);
    assert Passes(Schema[11], form, fc);
    assert Passes(Schema[12], form, fc);
    assert Passes(Schema[13], form, fc);
    assert Passes(Schema[14], form, fc);
  }

  lemma SchemaGivesVerification(form: Form, fc: FormatChecks)
    requires AllPass(Schema, form, fc)
    ensures VerificationValid(form)
  {
    assert Passes(Schema[15], form, fc);
    assert Passes(Schema[16], form, fc);
    assert Passes(Schema[17], form, fc);
  }

  lemma SchemaGivesPayment(form: Form, fc: FormatChecks)
    requires AllPass(Schema, form, fc)
    ensures PaymentValid(form.paymentDetails)
  {
    assert Passes(Schema[18], form, fc);
    assert Passes(Schema[19], form, fc);
    assert Passes(Schema[20], form, fc);
    assert Passes(Schema[21], form, fc);
    assert Passes(Schema[22], form, fc);
    assert Passes(Schema[23], form, fc);
  }

  /** The declarative schema and the refinement accept exactly the valid forms. */
  lemma SchemaMatchesValid(form: Form, fc: FormatChecks)
    ensures (AllPass(Schema, form, fc) && form.password == form.confirmPassword) <==> Valid(form, fc)
  {
    if AllPass(Schema, form, fc) {
      SchemaGivesAccount(form, fc);
      SchemaGivesDetails(form, fc);
      SchemaGivesVerification(form, fc);
      SchemaGivesPayment(form, fc);
    }
  }

  /** The object parse is aborted, and the refinement skipped, when the card
      type is present but not one of the enumeration's options. */
  predicate RefinementRuns(form: Form) {
    form.paymentDetails.cardTypeEnum.Some? ==> form.paymentDetails.cardTypeEnum.value in CardTypes
  }

  /** No rule of the schema reports the refinement's issue: the only rule at
      path `confirmPassword` has a message of its own. */
  lemma NoRuleReportsMismatch(i: nat, v: string)
    requires i < |Schema|
    ensures IssueOf(Schema[i], v) != PasswordMismatch
  {
    if i == 6 {
      assert |IssueOf(Schema[i], v).message| == 28;
    } else if i < 18 {
      assert |Path(Schema[i].field)[0]| != 15;
    } else {
      assert |Path(Schema[i].field)| == 2;
    }
  }

  /** The refinement's issue is never among the rules' issues. */
  lemma MismatchNotFromRules(form: Form, fc: FormatChecks)
    ensures PasswordMismatch !in RuleIssues(Schema, form, fc)
  {
    if PasswordMismatch in RuleIssues(Schema, form, fc) {
      var i :| 0 <= i < |Schema| && !Passes(Schema[i], form, fc) && PasswordMismatch == FailureOf(Schema[i], form, fc);
      NoRuleReportsMismatch(i, Get(form, Schema[i].field).value);
    }
  }

  /** A card type outside the options fails the enumeration rule. */
  lemma AbortedByCardType(form: Form, fc: FormatChecks)
    requires !RefinementRuns(form)
    ensures !Passes(Schema[23], form, fc)
  {
  }

  /** All issues of a form: the failing rules in schema order, then the
      refinement's, when it runs and the passwords differ. */
  function Errors(form: Form, fc: FormatChecks): (r: seq<Issue>)
    ensures r == [] <==> Valid(form, fc)
    ensures PasswordMismatch in r <==> form.password != form.confirmPassword && RefinementRuns(form)
    ensures forall i :: 0 <= i < |Schema| && !Passes(Schema[i], form, fc) ==> FailureOf(Schema[i], form, fc) in r
    ensures forall issue :: issue in r ==>
              ReportedBy(issue, Schema, form, fc) || (issue == PasswordMismatch && form.password != form.confirmPassword)
  {
    SchemaMatchesValid(form, fc);
    MismatchNotFromRules(form, fc);
    if !RefinementRuns(form) then
      AbortedByCardType(form, fc);
      RuleIssues(Schema, form, fc)
    else
      RuleIssues(Schema, form, fc) + (if form.password != form.confirmPassword then [PasswordMismatch] else [])
  }

  /** Parsing: the form with its card type defaulted, or every issue found. */
  function Parse(form: Form, fc: FormatChecks): (r: Result<Form, seq<Issue>>)
    ensures r.Success? <==> Valid(form, fc)
    ensures r.Failure? ==> r.error == Errors(form, fc) && r.error != []
    ensures r.Success? ==> Valid(r.value, fc)
    ensures r.Success? ==>
              r.value.paymentDetails.cardTypeEnum ==
                Some(if form.paymentDetails.cardTypeEnum.None? then DefaultCardType
                     else form.paymentDetails.cardTypeEnum.value)
    ensures r.Success? ==> r.value.paymentDetails.cardTypeEnum.Some?
                           && r.value.paymentDetails.cardTypeEnum.value in CardTypes
    ensures r.Success? ==>
              r.value == form.(paymentDetails := form.paymentDetails.(cardTypeEnum := r.value.paymentDetails.cardTypeEnum))
  {
    var errors := Errors(form, fc);
    if errors == [] then
      var cardType := match form.paymentDetails.cardTypeEnum
        case None => DefaultCardType
        case Some(t) => t;
      Success(form.(paymentDetails := form.paymentDetails.(cardTypeEnum := Some(cardType))))
    else
      Failure(errors)
  }

  /** An empty first name is reported at its own path with its own message. */
  lemma EmptyFirstNameReported(form: Form, fc: FormatChecks)
    requires form.firstName == ""
    ensures Issue(["firstName"], "First name is required") in Errors(form, fc)
  {
    assert !Passes(Schema[0], form, fc);
  }

  /** A phone number shorter than ten characters is reported at its own path. */
  lemma ShortPhoneReported(form: Form, fc: FormatChecks)
    requires |form.phoneNumber| < 10
    ensures Issue(["phoneNumber"], "Phone number is required") in Errors(form, fc)
  {
    assert !Passes(Schema[4], form, fc);
  }

  /** A card security code longer than four characters is reported at its nested path. */
  lemma LongCvvReported(form: Form, fc: FormatChecks)
    requires |form.paymentDetails.cvv| > 4
    ensures Issue(["paymentDetails", "cvv"], "CVV must be at most 4 digits") in Errors(form, fc)
  {
    CvvMaximumFails(form, fc);
  }

  /** The rule that bounds the security code from above fails on a long code. */
  lemma CvvMaximumFails(form: Form, fc: FormatChecks)
    requires |form.paymentDetails.cvv| > 4
    ensures !Passes(Schema[20], form, fc)
    ensures FailureOf(Schema[20], form, fc) == Issue(["paymentDetails", "cvv"], "CVV must be at most 4 digits")
  {
  }

  /** An accepted form stays accepted without its optional fields. */
  lemma AbsentOptionalsNeverBlock(form: Form, fc: FormatChecks)
    requires Errors(form, fc) == []
    ensures Errors(form.(profilePictureUrl := None), fc) == []
    ensures Errors(form.(phoneOTP := None), fc) == []
  {
    assert Valid(form, fc);
    assert Valid(form.(profilePictureUrl := None), fc);
    assert Valid(form.(phoneOTP := None), fc);
  }

  /** The phone OTP field has no rule: its value never changes acceptance. */
  lemma PhoneOtpIgnored(form: Form, fc: FormatChecks, phoneOTP: Option<string>)
    ensures Errors(form.(phoneOTP := phoneOTP), fc) == [] <==> Errors(form, fc) == []
  {
    assert Valid(form.(phoneOTP := phoneOTP), fc) <==> Valid(form, fc);
  }

  /** Parsing an already parsed form gives it back unchanged. */
  lemma ParseIdempotent(form: Form, fc: FormatChecks)
    requires Parse(form, fc).Success?
    ensures Parse(Parse(form, fc).value, fc) == Parse(form, fc)
  {
  }
}
