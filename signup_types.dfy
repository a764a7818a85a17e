/** Values shared by the member signup page's validator, its payload assembly
    and its OTP verification controller. */
module SignupTypes {

  datatype Option<+T> = None | Some(value: T) {
    predicate IsFailure() { None? }

    function PropagateFailure<U>(): Option<U>
      requires None?
    {
      None
    }

    function Extract(): T
      requires Some?
    {
      value
    }
  }

  datatype Result<+T, +E> = Success(value: T) | Failure(error: E)

  /** The nested `paymentDetails` record. `cardTypeEnum` is absent until a
      card type has been picked. */
  datatype PaymentDetails = PaymentDetails(
    cardNumber: string,
    cvv: string,
    expiryDate: string,
    cardHolderName: string,
    cardTypeEnum: Option<string>)

  /** The signup form's values. Every text field is a string; the two fields
      the schema declares optional may be absent. */
  datatype Form = Form(
    firstName: string,
    lastName: string,
    email: string,
    phoneNumber: string,
    password: string,
    confirmPassword: string,
    profilePictureUrl: Option<string>,
    dateOfBirth: string,
    gender: string,
    address: string,
    city: string,
    state: string,
    country: string,
    zipCode: string,
    emailOTP: string,
    phoneOTP: Option<string>,
    skillLevel: string,
    preferredTime: string,
    paymentDetails: PaymentDetails)

  /** The validation library's format checks for e-mail addresses and URLs.
      Their definitions are not visible, so they are left uninterpreted. */
  datatype FormatChecks = FormatChecks(isEmail: string -> bool, isUrl: string -> bool)

  /** One validation error, attached to a field path. */
  datatype Issue = Issue(path: seq<string>, message: string)

  /** The property names that occur in the submitted payload, top level and
      nested; `PropName` gives each one's spelling. */
  datatype Prop =
    | FirstName | LastName | Email | PhoneNumber | Password | ConfirmPassword
    | ProfilePictureUrl | DateOfBirth | Gender | Address | City | State | Country
    | ZipCode | EmailOTP | PhoneOTP | SkillLevel | PreferredTime | Payment
    | CardNumber | Cvv | ExpiryDate | CardHolderName | CardTypeEnum
    | Name | CurrentActiveClubId | MembershipTypeId

  function PropName(p: Prop): string {
    match p
    case FirstName => "firstName"
    case LastName => "lastName"
    case Email => "email"
    case PhoneNumber => "phoneNumber"
    case Password => "password"
    case ConfirmPassword => "confirmPassword"
    case ProfilePictureUrl => "profilePictureUrl"
    case DateOfBirth => "dateOfBirth"
    case Gender => "gender"
    case Address => "address"
    case City => "city"
    case State => "state"
    case Country => "country"
    case ZipCode => "zipCode"
    case EmailOTP => "emailOTP"
    case PhoneOTP => "phoneOTP"
    case SkillLevel => "skillLevel"
    case PreferredTime => "preferredTime"
    case Payment => "paymentDetails"
    case CardNumber => "cardNumber"
    case Cvv => "cvv"
    case ExpiryDate => "expiryDate"
    case CardHolderName => "cardHolderName"
    case CardTypeEnum => "cardTypeEnum"
    case Name => "name"
    case CurrentActiveClubId => "currentActiveClubId"
    case MembershipTypeId => "membershipTypeId"
  }

  /** A JavaScript value as far as the submitted payload needs one. */
  datatype Value = Str(s: string) | Obj(fields: map<Prop, Value>) | Undefined

  datatype Channel = EmailChannel | PhoneChannel

  /** Observable side effects of the page: notifications, remote calls, navigation. */
  datatype Event =
    | ErrorToast(message: string)
    | SuccessToast(message: string)
    | OtpDispatch(channel: Channel, contact: string)
    | OtpValidation(recipient: Option<string>, otp: string)
    | SignupRequest(payload: map<Prop, Value>)
    | NavigateHome
}
