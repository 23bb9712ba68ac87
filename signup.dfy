/** The sign-up screen: its form state, the handlers that update it on every
    keystroke and blur, and the fixed-order checks that guard the sign-up request.
    The request itself (network, storage, navigation) is represented by the
    `Proceed` outcome carrying the body that would be posted. */
module Signup {
  import opened Chars
  import opened Phone
  import opened Password

  const FieldsRequiredMessage := "All fields are required!"
  const PasswordFormatMessage := "Password must be exactly 6 characters (letters & numbers only)."
  const PasswordsDifferMessage := "Passwords do not match!"

  /** The JSON body of the sign-up request. */
  datatype SignupRequest = SignupRequest(fullname: string, phonenumber: string, password: string, confirmpassword: string)

  /** How a press of the sign-up button ends: an alert, the inline phone error
      (no alert), or the request being sent. */
  datatype SignupOutcome =
    | Alert(message: string)
    | PhoneRejected
    | Proceed(request: SignupRequest)

  /** The checks of the sign-up button, in order: every field filled in, the phone
      number accepted, the password a six-character alphanumeric code, and the
      confirmation equal to it. Each outcome is stated as the exact condition under
      which it occurs; the request is sent only when every check passes, and then
      the confirmation is itself a valid code. */
  function SignupGate(name: string, phone: string, password: string, confirm: string): (r: SignupOutcome)
    ensures r == Alert(FieldsRequiredMessage) <==>
      name == "" || phone == "" || password == "" || confirm == ""
    ensures r == PhoneRejected <==>
      name != "" && phone != "" && password != "" && confirm != "" && !ValidPhone(phone)
    ensures r == Alert(PasswordFormatMessage) <==>
      name != "" && confirm != "" && ValidPhone(phone) && password != "" && !ValidPassword(password)
    ensures r == Alert(PasswordsDifferMessage) <==>
      name != "" && confirm != "" && ValidPhone(phone) && ValidPassword(password) && password != confirm
    ensures r.Proceed? <==>
      name != "" && ValidPhone(phone) && ValidPassword(password) && password == confirm
    ensures r.Proceed? ==>
      ValidPassword(r.request.confirmpassword) && r.request == SignupRequest(name, phone, password, confirm)
  {
    ValidPhoneLength(phone);
    if name == "" || phone == "" || password == "" || confirm == "" then Alert(FieldsRequiredMessage)
    else if !ValidPhone(phone) then PhoneRejected
    else if !ValidPassword(password) then Alert(PasswordFormatMessage)
    else if password != confirm then Alert(PasswordsDifferMessage)
    else Proceed(SignupRequest(name, phone, password, confirm))
  }

  class SignupScreen {
    var name: string
    var phoneNumber: string
    var password: string
    var confirmPassword: string
    var phoneError: string
    var isPasswordValid: bool

    /** What every handler keeps: the phone number in one of its two stored shapes,
        the password at most six characters with its indicator up to date, and the
        confirmation at most six alphanumeric characters. */
    ghost predicate Valid()
      reads this
    {
      Canonical(phoneNumber)
      && |password| <= CodeLength && isPasswordValid == PasswordIndicator(password)
      && |confirmPassword| <= CodeLength && AllAlnum(confirmPassword)
    }

    constructor ()
      ensures Valid()
      ensures name == "" && phoneNumber == "" && password == "" && confirmPassword == ""
      ensures phoneError == "" && isPasswordValid
    {
      name := "";
      phoneNumber := "";
      password := "";
      confirmPassword := "";
      phoneError := "";
      isPasswordValid := true;
    }

    /** The name field stores what is typed, unchanged. */
    method SetName(input: string)
      requires Valid()
      modifies this`name
      ensures Valid() && name == input
    {
      name := input;
    }

    /** A phone keystroke stores the normalised input, clears the error, and sets it
        again exactly when the stored number has reached `maxLength` but is not
        accepted. The error is therefore empty whenever the stored number is
        accepted. */
    method HandlePhoneNumberChange(input: string)
      requires Valid()
      modifies this`phoneNumber, this`phoneError
      ensures Valid()
      ensures phoneNumber == Normalize(input)
      ensures phoneError ==
        if |phoneNumber| == MaxLength(phoneNumber) && !ValidPhone(phoneNumber) then KeystrokePhoneError else ""
      ensures ValidPhone(phoneNumber) ==> phoneError == ""
    {
      var formatted, maxLength := FormatPhoneInput(input);
      phoneNumber := formatted;
      phoneError := "";
      if |formatted| == maxLength && !ValidPhone(formatted) {
        phoneError := KeystrokePhoneError;
      }
    }

    /** Leaving the phone field flags any number the validator rejects, the empty
        one included; it never clears an existing error. */
    method BlurPhone()
      requires Valid()
      modifies this`phoneError
      ensures Valid()
      ensures phoneError == if ValidPhone(phoneNumber) then old(phoneError) else InvalidPhoneError
      ensures old(phoneError) != "" ==> phoneError != ""
    {
      if !ValidPhone(phoneNumber) {
        phoneError := InvalidPhoneError;
      }
    }

    /** A password change stores the first six characters typed and recomputes the
        indicator from them. */
    method HandlePasswordChange(input: string)
      requires Valid()
      modifies this`password, this`isPasswordValid
      ensures Valid()
      ensures password == Take(input, CodeLength)
      ensures isPasswordValid == PasswordIndicator(password)
    {
      var trimmed := Take(input, CodeLength);
      password := trimmed;
      if |trimmed| == CodeLength {
        isPasswordValid := ValidPassword(trimmed);
      } else {
        isPasswordValid := true;
      }
    }

    /** A confirmation change stores the first six alphanumeric characters typed
        and queues the alerts of `ConfirmAlerts`, in firing order. */
    method HandleConfirmPasswordChange(input: string) returns (alerts: seq<string>)
      requires Valid()
      modifies this`confirmPassword
      ensures Valid()
      ensures confirmPassword == Take(FilterAlnum(input), CodeLength)
      ensures alerts == ConfirmAlerts(input)
    {
      var formatted := FilterAlnum(input);
      alerts := [];
      if |input| > CodeLength {
        alerts := alerts + [ConfirmTooLongMessage];
      }
      if input != formatted {
        alerts := alerts + [ConfirmInvalidCharacterMessage];
      }
      confirmPassword := Take(formatted, CodeLength);
    }

    /** The sign-up button: the checks of `SignupGate` on the current fields, where
        a rejected phone number sets the inline error and changes nothing else. */
    method HandleSignup() returns (outcome: SignupOutcome)
      requires Valid()
      modifies this`phoneError
      ensures Valid()
      ensures outcome == SignupGate(name, phoneNumber, password, confirmPassword)
      ensures phoneError == if outcome == PhoneRejected then InvalidPhoneError else old(phoneError)
    {
      if name == "" || phoneNumber == "" || password == "" || confirmPassword == "" {
        return Alert(FieldsRequiredMessage);
      }
      if !ValidPhone(phoneNumber) {
        phoneError := InvalidPhoneError;
        return PhoneRejected;
      }
      if !ValidPassword(password) {
        return Alert(PasswordFormatMessage);
      }
      if password != confirmPassword {
        return Alert(PasswordsDifferMessage);
      }
      outcome := Proceed(SignupRequest(name, phoneNumber, password, confirmPassword));
    }
  }
}
