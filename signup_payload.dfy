/** Submission: the validated form becomes the payload object sent to the
    signup service, extended with the display name and the club context. */
module SignupPayload {
  import opened SignupTypes
  import SignupSchema

  /** The club context the page receives from the navigation that opened it;
      either identifier may be missing. */
  datatype Submission = Submission(data: Form, clubId: Option<string>, membershipId: Option<string>)

  datatype SubmitOutcome = Created | Rejected

  /** An identifier that may be missing, as a property value. */
  function IdValue(id: Option<string>): Value {
    match id
    case None => Undefined
    case Some(s) => Str(s)
  }

  /** The top-level properties of the form, `paymentDetails` included. */
  const FormProps: set<Prop> := {
    FirstName, LastName, Email, PhoneNumber, Password, ConfirmPassword, ProfilePictureUrl,
    DateOfBirth, Gender, Address, City, State, Country, ZipCode, EmailOTP, PhoneOTP,
    SkillLevel, PreferredTime, Payment}

  /** The properties of the nested `paymentDetails` record. */
  const PaymentProps: set<Prop> := {CardNumber, Cvv, ExpiryDate, CardHolderName, CardTypeEnum}

  /** The payment record as an object: one property per present field. */
  function PaymentObject(f: Form): map<Prop, Value> {
    var present := PaymentProps - (if f.paymentDetails.cardTypeEnum.None? then {CardTypeEnum} else {});
    map p | p in present :: Str(SignupSchema.Get(f, SignupSchema.InPayment(p)).value)
  }

  /** The parsed form as an object: one property per present field. */
  function FormObject(f: Form): map<Prop, Value> {
    var present := FormProps - (if f.profilePictureUrl.None? then {ProfilePictureUrl} else {})
                             - (if f.phoneOTP.None? then {PhoneOTP} else {});
    map p | p in present ::
      if p == Payment then Obj(PaymentObject(f)) else Str(SignupSchema.Get(f, SignupSchema.Top(p)).value)
  }

  /** The properties the payload adds to the form's own. */
  const AddedProps: set<Prop> := {Name, CurrentActiveClubId, MembershipTypeId}

  /** The form's properties, plus the display name and the club context. */
  function AssemblePayload(data: Form, clubId: Option<string>, membershipId: Option<string>): (p: map<Prop, Value>)
    ensures p.Keys == FormObject(data).Keys + AddedProps
    ensures forall k :: k in FormObject(data) ==> k in p && p[k] == FormObject(data)[k]
    ensures p[Name] == Str(data.firstName + " " + data.lastName)
    ensures p[CurrentActiveClubId] == IdValue(clubId) && p[MembershipTypeId] == IdValue(membershipId)
    ensures AgreesOn(p, FormObject(data), FormProps)
  {
    var added := map[Name := Str(data.firstName + " " + data.lastName),
                     CurrentActiveClubId := IdValue(clubId), MembershipTypeId := IdValue(membershipId)];
    assert FormProps !! AddedProps;
    FormObject(data) + added
  }

  function ReadString(m: map<Prop, Value>, key: Prop): Option<string> {
    if key in m && m[key].Str? then Some(m[key].s) else None
  }

  /** `Some(None)` for a missing property, `Some(Some(s))` for a string, otherwise `None`. */
  function ReadOptional(m: map<Prop, Value>, key: Prop): Option<Option<string>> {
    if key !in m then Some(None)
    else if m[key].Str? then Some(Some(m[key].s))
    else None
  }

  function ReadId(m: map<Prop, Value>, key: Prop): Option<Option<string>> {
    if key !in m then None
    else match m[key]
      case Undefined => Some(None)
      case Str(s) => Some(Some(s))
      case Obj(_) => None
  }

  function ReadPayment(m: map<Prop, Value>): Option<PaymentDetails> {
    var cardNumber :- ReadString(m, CardNumber);
    var cvv :- ReadString(m, Cvv);
    var expiryDate :- ReadString(m, ExpiryDate);
    var cardHolderName :- ReadString(m, CardHolderName);
    var cardTypeEnum :- ReadOptional(m, CardTypeEnum);
    Some(PaymentDetails(cardNumber, cvv, expiryDate, cardHolderName, cardTypeEnum))
  }

  /** Reads a form back from its object; the inverse of `FormObject`. */
  function ReadForm(m: map<Prop, Value>): Option<Form> {
    var firstName :- ReadString(m, FirstName);
    var lastName :- ReadString(m, LastName);
    var email :- ReadString(m, Email);
    var phoneNumber :- ReadString(m, PhoneNumber);
    var password :- ReadString(m, Password);
    var confirmPassword :- ReadString(m, ConfirmPassword);
    var profilePictureUrl :- ReadOptional(m, ProfilePictureUrl);
    var dateOfBirth :- ReadString(m, DateOfBirth);
    var gender :- ReadString(m, Gender);
    var address :- ReadString(m, Address);
    var city :- ReadString(m, City);
    var state :- ReadString(m, State);
    var country :- ReadString(m, Country);
    var zipCode :- ReadString(m, ZipCode);
    var emailOTP :- ReadString(m, EmailOTP);
    var phoneOTP :- ReadOptional(m, PhoneOTP);
    var skillLevel :- ReadString(m, SkillLevel);
    var preferredTime :- ReadString(m, PreferredTime);
    var payment :- if Payment in m && m[Payment].Obj?
                   then ReadPayment(m[Payment].fields) else None;
    Some(Form(firstName, lastName, email, phoneNumber, password, confirmPassword, profilePictureUrl,
              dateOfBirth, gender, address, city, state, country, zipCode, emailOTP, phoneOTP,
              skillLevel, preferredTime, payment))
  }

  /** Reads the submission back from a payload. */
  function ReadPayload(p: map<Prop, Value>): Option<Submission> {
    var data :- ReadForm(p);
    var clubId :- ReadId(p, CurrentActiveClubId);
    var membershipId :- ReadId(p, MembershipTypeId);
    Some(Submission(data, clubId, membershipId))
  }

  lemma ReadsCard(f: Form)
    ensures ReadString(PaymentObject(f), CardNumber) == Some(f.paymentDetails.cardNumber)
    ensures ReadString(PaymentObject(f), Cvv) == Some(f.paymentDetails.cvv)
    ensures ReadString(PaymentObject(f), ExpiryDate) == Some(f.paymentDetails.expiryDate)
  {
  }

  lemma PaymentRoundTrip(f: Form)
    ensures ReadPayment(PaymentObject(f)) == Some(f.paymentDetails)
  {
    ReadsCard(f);
    assert ReadString(PaymentObject(f), CardHolderName) == Some(f.paymentDetails.cardHolderName);
    assert ReadOptional(PaymentObject(f), CardTypeEnum) == Some(f.paymentDetails.cardTypeEnum);
  }

  /** `m1` and `m2` both lack `k`, or both hold the same value at `k`. */
  predicate SameAt(m1: map<Prop, Value>, m2: map<Prop, Value>, k: Prop) {
    (k in m1 <==> k in m2) && (k in m1 ==> m1[k] == m2[k])
  }

  /** `m1` and `m2` have the same properties, with the same values, among `props`. */
  predicate AgreesOn(m1: map<Prop, Value>, m2: map<Prop, Value>, props: set<Prop>) {
    forall k :: k in props ==> SameAt(m1, m2, k)
  }

  /** The form's required text fields. */
  const RequiredProps: set<Prop> := FormProps - {ProfilePictureUrl, PhoneOTP, Payment}

  /** A required field is read back from an object that agrees with the form's at it. */
  lemma ReadsRequired(f: Form, m: map<Prop, Value>, p: Prop)
    requires p in RequiredProps && SameAt(m, FormObject(f), p)
    ensures ReadString(m, p) == SignupSchema.Get(f, SignupSchema.Top(p))
  {
  }

  /** An optional field is read back, present or absent, from an object that agrees with the form's at it. */
  lemma ReadsOptional(f: Form, m: map<Prop, Value>, p: Prop)
    requires (p == ProfilePictureUrl || p == PhoneOTP) && SameAt(m, FormObject(f), p)
    ensures ReadOptional(m, p) == Some(SignupSchema.Get(f, SignupSchema.Top(p)))
  {
  }

  /** Each group below reads some of the form's properties back from an object that
      agrees with the form's own on them. */
  lemma ReadsNames(f: Form, m: map<Prop, Value>)
    requires AgreesOn(m, FormObject(f), {FirstName, LastName, Email})
    ensures ReadString(m, FirstName) == Some(f.firstName)
    ensures ReadString(m, LastName) == Some(f.lastName)
    ensures ReadString(m, Email) == Some(f.email)
  {
    ReadsRequired(f, m, FirstName);
    ReadsRequired(f, m, LastName);
    ReadsRequired(f, m, Email);
  }

  lemma ReadsPhoneAndPasswords(f: Form, m: map<Prop, Value>)
    requires AgreesOn(m, FormObject(f), {PhoneNumber, Password, ConfirmPassword})
    ensures ReadString(m, PhoneNumber) == Some(f.phoneNumber)
    ensures ReadString(m, Password) == Some(f.password)
    ensures ReadString(m, ConfirmPassword) == Some(f.confirmPassword)
  {
    ReadsRequired(f, m, PhoneNumber);
    ReadsRequired(f, m, Password);
    ReadsRequired(f, m, ConfirmPassword);
  }

  lemma ReadsPictureAndPersonal(f: Form, m: map<Prop, Value>)
    requires AgreesOn(m, FormObject(f), {ProfilePictureUrl, DateOfBirth, Gender})
    ensures ReadOptional(m, ProfilePictureUrl) == Some(f.profilePictureUrl)
    ensures ReadString(m, DateOfBirth) == Some(f.dateOfBirth)
    ensures ReadString(m, Gender) == Some(f.gender)
  {
    ReadsOptional(f, m, ProfilePictureUrl);
    ReadsRequired(f, m, DateOfBirth);
    ReadsRequired(f, m, Gender);
  }

  lemma ReadsAddress(f: Form, m: map<Prop, Value>)
    requires AgreesOn(m, FormObject(f), {Address, City, State})
    ensures ReadString(m, Address) == Some(f.address)
    ensures ReadString(m, City) == Some(f.city)
    ensures ReadString(m, State) == Some(f.state)
  {
    ReadsRequired(f, m, Address);
    ReadsRequired(f, m, City);
    ReadsRequired(f, m, State);
  }

  lemma ReadsRegionAndCode(f: Form, m: map<Prop, Value>)
    requires AgreesOn(m, FormObject(f), {Country, ZipCode, EmailOTP})
    ensures ReadString(m, Country) == Some(f.country)
    ensures ReadString(m, ZipCode) == Some(f.zipCode)
    ensures ReadString(m, EmailOTP) == Some(f.emailOTP)
  {
    ReadsRequired(f, m, Country);
    ReadsRequired(f, m, ZipCode);
    ReadsRequired(f, m, EmailOTP);
  }

  lemma ReadsPreferences(f: Form, m: map<Prop, Value>)
    requires AgreesOn(m, FormObject(f), {PhoneOTP, SkillLevel, PreferredTime, Payment})
    ensures ReadOptional(m, PhoneOTP) == Some(f.phoneOTP)
    ensures ReadString(m, SkillLevel) == Some(f.skillLevel)
    ensures ReadString(m, PreferredTime) == Some(f.preferredTime)
    ensures Payment in m && m[Payment] == Obj(PaymentObject(f))
  {
    ReadsOptional(f, m, PhoneOTP);
    ReadsRequired(f, m, SkillLevel);
    ReadsRequired(f, m, PreferredTime);
    assert SameAt(m, FormObject(f), Payment);
  }

  /** A form is read back from any object that agrees with its own on the form's properties. */
  lemma FormRoundTrip(f: Form, m: map<Prop, Value>)
    requires AgreesOn(m, FormObject(f), FormProps)
    ensures ReadForm(m) == Some(f)
  {
    ReadsNames(f, m);
    ReadsPhoneAndPasswords(f, m);
    ReadsPictureAndPersonal(f, m);
    ReadsAddress(f, m);
    ReadsRegionAndCode(f, m);
    ReadsPreferences(f, m);
    PaymentRoundTrip(f);
  }

  /** Nothing of the form or the club context is lost in the payload. */
  lemma PayloadRoundTrip(data: Form, clubId: Option<string>, membershipId: Option<string>)
    ensures ReadPayload(AssemblePayload(data, clubId, membershipId)) == Some(Submission(data, clubId, membershipId))
  {
    var p := AssemblePayload(data, clubId, membershipId);
    FormRoundTrip(data, p);
  }

  /** Submitting the form: nothing happens unless the schema accepts it; then
      the assembled payload is sent, and the outcome is notified. */
  function Submit(form: Form, fc: FormatChecks, clubId: Option<string>, membershipId: Option<string>,
                  outcome: SubmitOutcome): (events: seq<Event>)
    ensures events == [] <==> !SignupSchema.Valid(form, fc)
    ensures SignupSchema.Valid(form, fc) ==>
              && events[0] == SignupRequest(AssemblePayload(SignupSchema.Parse(form, fc).value, clubId, membershipId))
              && Name in events[0].payload
              && events[0].payload[Name] == Str(form.firstName + " " + form.lastName)
    ensures SignupSchema.Valid(form, fc) && outcome == Created ==>
              |events| == 3 && events[1] == SuccessToast("Member created!") && events[2] == NavigateHome
    ensures SignupSchema.Valid(form, fc) && outcome == Rejected ==> |events| == 2 && events[1] == ErrorToast("Error while assigning role")
  {
    match SignupSchema.Parse(form, fc)
    case Failure(_) => []
    case Success(data) =>
      assert data.firstName == form.firstName && data.lastName == form.lastName;
      var payload := AssemblePayload(data, clubId, membershipId);
      [SignupRequest(payload)] +
      match outcome
      case Created => [SuccessToast("Member created!"), NavigateHome]
      case Rejected => [ErrorToast("Error while assigning role")]
  }
}
