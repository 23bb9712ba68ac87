/** The password fields: the six-character alphanumeric code rule shared by both
    screens (`validatePassword`) and the colour indicator the main password field
    keeps while typing. */
module Password {
  import opened Chars

  /** Every password field keeps at most this many characters. */
  const CodeLength := 6

  /** `/^[A-Za-z0-9]{6}$/.test(s)`. */
  predicate ValidPassword(s: string) {
    |s| == CodeLength && AllAlnum(s)
  }

  /** `isPasswordValid` after a change that stored `stored`: neutral (true) while
      fewer than six characters are typed, the code rule once six are. It turns
      false exactly when six characters are stored and one of them lies outside
      `[A-Za-z0-9]`; in particular it is true whenever fewer than six are stored. */
  function PasswordIndicator(stored: string): (ok: bool)
    ensures !ok <==> |stored| == CodeLength && exists i :: 0 <= i < |stored| && !IsAlnum(stored[i])
    ensures |stored| < CodeLength ==> ok
  {
    if |stored| == CodeLength then ValidPassword(stored) else true
  }

  /** Alert raised by the confirm field when the typed text is longer than six. */
  const ConfirmTooLongMessage := "Password must be exactly 6 characters (letters & numbers only)."
  /** Alert raised by the confirm field when the typed text held a disallowed character. */
  const ConfirmInvalidCharacterMessage := "Only letters & numbers are allowed in password."

  /** The texts of the deferred alerts a confirm-password change raises, in the
      order they are queued: the too-long alert fires exactly when the raw input is
      longer than six characters, the invalid-character alert exactly when it holds
      a character outside `[A-Za-z0-9]`; each fires at most once, the too-long one
      first, and no other alert fires. */
  function ConfirmAlerts(input: string): (r: seq<string>)
    ensures ConfirmTooLongMessage in r <==> |input| > CodeLength
    ensures ConfirmInvalidCharacterMessage in r <==> exists i :: 0 <= i < |input| && !IsAlnum(input[i])
    ensures r ==
      (if |input| > CodeLength then [ConfirmTooLongMessage] else [])
      + (if exists i :: 0 <= i < |input| && !IsAlnum(input[i]) then [ConfirmInvalidCharacterMessage] else [])
  {
    FilterAlnumChangesIff(input);
    (if |input| > CodeLength then [ConfirmTooLongMessage] else [])
    + (if input != FilterAlnum(input) then [ConfirmInvalidCharacterMessage] else [])
  }
}
