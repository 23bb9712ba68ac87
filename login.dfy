/** The login screen: the same phone and password handlers as the sign-up screen,
    the fixed-order checks that guard the login request, the `loading` flag that
    disables the button while the request is outstanding, and what the screen does
    with the server's reply. The network exchange itself is a parameter: the
    reply (or the transport error) is passed in. */
module Login {
  import opened Chars
  import opened Phone
  import opened Password

  const FieldsRequiredMessage := "Phone number and password are required!"
  const InvalidPhoneMessage := "Invalid Pakistani phone number!"
  const PasswordFormatMessage := "Password must be exactly 6 alphanumeric characters."
  const InvalidCredentialsMessage := "Invalid credentials, please try again."
  const NetworkErrorPrefix := "Network or Server Error: "

  datatype Option<T> = None | Some(value: T)

  /** A JSON field that may be absent; JavaScript treats it as true when it is a
      non-empty string. */
  predicate Truthy(v: Option<string>) {
    v.Some? && v.value != ""
  }

  /** JavaScript's `a || b` on two optional strings. */
  function Or(a: Option<string>, b: Option<string>): (r: Option<string>)
    ensures Truthy(r) <==> Truthy(a) || Truthy(b)
    ensures Truthy(a) ==> r == a
    ensures !Truthy(a) ==> r == b
  {
    if Truthy(a) then a else b
  }

  /** The `user` object of a successful login reply. */
  datatype User = User(fullname: Option<string>, name: Option<string>, phonenumber: Option<string>, phone: Option<string>)

  /** The record written to local storage under `userData`. */
  datatype UserRecord = UserRecord(name: Option<string>, phone: Option<string>)

  /** The JSON body of the login request. */
  datatype LoginRequest = LoginRequest(phonenumber: string, password: string)

  /** The result of the checks: an alert, or the request being sent. */
  datatype LoginCheck = Alert(message: string) | Send(request: LoginRequest)

  /** A press of the login button: ignored while it is disabled, otherwise checked. */
  datatype LoginPress = Disabled | Checked(check: LoginCheck)

  /** What the request returns: a thrown error, or a parsed response. */
  datatype LoginReply =
    | TransportError(error: string)
    | Response(ok: bool, user: Option<User>, message: Option<string>)

  /** How the attempt ends: the home screen (with the record stored, if any), or an alert. */
  datatype LoginResult = GoHome(stored: Option<UserRecord>) | ShowError(message: string)

  /** The checks of the login button, in order: both fields filled in, the phone
      number accepted, the password a six-character alphanumeric code. The request
      is sent exactly when the last two hold (which implies the first). */
  function LoginGate(phone: string, password: string): (r: LoginCheck)
    ensures r == Alert(FieldsRequiredMessage) <==> phone == "" || password == ""
    ensures r == Alert(InvalidPhoneMessage) <==> phone != "" && password != "" && !ValidPhone(phone)
    ensures r == Alert(PasswordFormatMessage) <==>
      phone != "" && password != "" && ValidPhone(phone) && !ValidPassword(password)
    ensures r.Send? <==> ValidPhone(phone) && ValidPassword(password)
    ensures r.Send? ==> r.request == LoginRequest(phone, password)
  {
    ValidPhoneLength(phone);
    if phone == "" || password == "" then Alert(FieldsRequiredMessage)
    else if !ValidPhone(phone) then Alert(InvalidPhoneMessage)
    else if !ValidPassword(password) then Alert(PasswordFormatMessage)
    else Send(LoginRequest(phone, password))
  }

  /** The record stored after a successful login: nothing when the reply carries no
      user; otherwise the name is `fullname` when that is a non-empty string and
      `name` otherwise, and likewise the phone is `phonenumber` before `phone`. The
      stored name is a non-empty string exactly when one of the two sources is. */
  function StoredUser(user: Option<User>): (r: Option<UserRecord>)
    ensures r.Some? <==> user.Some?
    ensures r.Some? ==>
      var u := user.value;
      (Truthy(r.value.name) <==> Truthy(u.fullname) || Truthy(u.name))
      && (Truthy(r.value.phone) <==> Truthy(u.phonenumber) || Truthy(u.phone))
      && r.value.name == (if Truthy(u.fullname) then u.fullname else u.name)
      && r.value.phone == (if Truthy(u.phonenumber) then u.phonenumber else u.phone)
  {
    match user
    case None => None
    case Some(u) => Some(UserRecord(Or(u.fullname, u.name), Or(u.phonenumber, u.phone)))
  }

  /** What the screen does with the reply: an ok response leads home, storing the
      user's record; a failed response shows the server's message, or a fixed
      fallback when it has none; a thrown error shows its message after a fixed
      prefix. Every alert has a non-empty text. */
  function ReplyResult(reply: LoginReply): (r: LoginResult)
    ensures r.ShowError? ==> r.message != ""
    ensures r.GoHome? <==> reply.Response? && reply.ok
    ensures r.GoHome? ==> r.stored == StoredUser(reply.user)
    ensures reply.Response? && !reply.ok ==>
      r == ShowError(if Truthy(reply.message) then reply.message.value else InvalidCredentialsMessage)
    ensures reply.TransportError? ==> r == ShowError(NetworkErrorPrefix + reply.error)
  {
    match reply
    case TransportError(error) => ShowError(NetworkErrorPrefix + error)
    case Response(ok, user, message) =>
      if ok then GoHome(StoredUser(user))
      else ShowError(if Truthy(message) then message.value else InvalidCredentialsMessage)
  }

  class LoginScreen {
    var phoneNumber: string
    var password: string
    var phoneError: string
    var isPasswordValid: bool
    var loading: bool

    /** What every handler keeps: the phone number in one of its two stored shapes
        and the password at most six characters with its indicator up to date. */
    ghost predicate Valid()
      reads this
    {
      Canonical(phoneNumber)
      && |password| <= CodeLength && isPasswordValid == PasswordIndicator(password)
    }

    constructor ()
      ensures Valid()
      ensures phoneNumber == "" && password == "" && phoneError == ""
      ensures isPasswordValid && !loading
    {
      phoneNumber := "";
      password := "";
      phoneError := "";
      isPasswordValid := true;
      loading := false;
    }

    /** Identical to the sign-up screen's handler: stores the normalised input and
        sets the error exactly when the stored number is full length but rejected. */
    method HandlePhoneNumberChange(input: string)
      requires Valid()
      modifies this`phoneNumber, this`phoneError
      ensures Valid()
      ensures phoneNumber == Normalize(input)
      ensures phoneError ==
        if |phoneNumber| == MaxLength(phoneNumber) && !ValidPhone(phoneNumber) then KeystrokePhoneError else ""
      ensures ValidPhone(phoneNumber) ==> phoneError == ""
    {
      var formatted, maxLength := FormatPhoneInput(input);
      phoneNumber := formatted;
      phoneError := "";
      if |formatted| == maxLength && !ValidPhone(formatted) {
        phoneError := KeystrokePhoneError;
      }
    }

    /** Leaving the phone field flags any rejected number, the empty one included,
        and never clears an existing error. */
    method BlurPhone()
      requires Valid()
      modifies this`phoneError
      ensures Valid()
      ensures phoneError == if ValidPhone(phoneNumber) then old(phoneError) else InvalidPhoneError
      ensures old(phoneError) != "" ==> phoneError != ""
    {
      if !ValidPhone(phoneNumber) {
        phoneError := InvalidPhoneError;
      }
    }

    /** A password change stores the first six characters typed; the indicator is
        neutral below six characters. */
    method HandlePasswordChange(input: string)
      requires Valid()
      modifies this`password, this`isPasswordValid
      ensures Valid()
      ensures password == Take(input, CodeLength)
      ensures isPasswordValid == PasswordIndicator(password)
      ensures |password| < CodeLength ==> isPasswordValid
    {
      var trimmed := Take(input, CodeLength);
      password := trimmed;
      if |trimmed| == CodeLength {
        isPasswordValid := ValidPassword(trimmed);
      } else {
        isPasswordValid := true;
      }
    }

    /** A press of the login button. While a request is outstanding the button is
        disabled and nothing happens. Otherwise the checks of `LoginGate` run on the
        current fields; a failed check changes no state (the phone error in
        particular is left alone), and `loading` becomes true exactly when the
        request is sent. */
    method PressLogin() returns (press: LoginPress)
      requires Valid()
      modifies this`loading
      ensures Valid()
      ensures old(loading) ==> press == Disabled && loading
      ensures !old(loading) ==>
        press == Checked(LoginGate(phoneNumber, password)) && (loading <==> press.check.Send?)
    {
      if loading {
        return Disabled;
      }
      if phoneNumber == "" || password == "" {
        return Checked(Alert(FieldsRequiredMessage));
      }
      if !ValidPhone(phoneNumber) {
        return Checked(Alert(InvalidPhoneMessage));
      }
      if !ValidPassword(password) {
        return Checked(Alert(PasswordFormatMessage));
      }
      loading := true;
      press := Checked(Send(LoginRequest(phoneNumber, password)));
    }

    /** The end of an attempt that `PressLogin` started (so `loading` is true),
        whatever its outcome: `loading` is false again and the reply is turned into
        the next screen or an alert. */
    method CompleteLogin(reply: LoginReply) returns (result: LoginResult)
      requires Valid() && loading
      modifies this`loading
      ensures Valid()
      ensures !loading
      ensures result == ReplyResult(reply)
    {
      match reply {
        case TransportError(error) =>
          result := ShowError(NetworkErrorPrefix + error);
        case Response(ok, user, message) =>
          if ok {
            result := GoHome(StoredUser(user));
          } else if Truthy(message) {
            result := ShowError(message.value);
          } else {
            result := ShowError(InvalidCredentialsMessage);
          }
      }
      loading := false;
    }
  }
}
