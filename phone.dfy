/** The phone-number field shared by the sign-up and login screens: the keystroke
    normaliser (`handlePhoneNumberChange`, lines 48-59) and the validator
    (`validatePhoneNumber`). Both screens carry copies that match line for line;
    the model defines them once. */
module Phone {
  import opened Chars

  /** `phoneError` written by a keystroke whose stored number is full length but invalid. */
  const KeystrokePhoneError := "Please enter a valid Pakistani phone number"
  /** `phoneError` written on blur, and by the sign-up submit gate. */
  const InvalidPhoneError := "Please enter a valid phone number"

  /** The regular expression `/(?!^\+)[^\d]/g` matches position `i`: a non-digit,
      unless it is a `+` at the very start of the input. */
  predicate RemovedAt(s: string, i: nat)
    requires i < |s|
  {
    !IsDigit(s[i]) && !(i == 0 && s[i] == '+')
  }

  /** What `replace` keeps of `s[i..]`, positions counted in the whole of `s`. */
  function SanitizeFrom(s: string, i: nat): (r: string)
    requires i <= |s|
    ensures |r| <= |s| - i
    ensures forall k :: 0 <= k < |r| ==> IsDigit(r[k]) || (k == 0 && i == 0 && r[k] == '+')
    decreases |s| - i
  {
    if i == |s| then [] else (if RemovedAt(s, i) then [] else [s[i]]) + SanitizeFrom(s, i + 1)
  }

  /** `input.replace(/(?!^\+)[^\d]/g, '')`: the result is no longer than the input,
      starts with `+` exactly when the input does, and holds only digits after that. */
  function Sanitize(input: string): (r: string)
    ensures |r| <= |input|
    ensures (|r| > 0 && r[0] == '+') <==> (|input| > 0 && input[0] == '+')
    ensures forall k :: 0 < k < |r| ==> IsDigit(r[k])
  {
    SanitizeFrom(input, 0)
  }

  /** Past position 0 the sanitiser is the plain digit filter. */
  lemma {:induction false} SanitizeFromDigits(s: string, i: nat)
    requires 1 <= i <= |s|
    ensures SanitizeFrom(s, i) == Digits(s[i..])
    decreases |s| - i
  {
    if i < |s| {
      SanitizeFromDigits(s, i + 1);
      assert s[i..] == [s[i]] + s[i + 1..];
      KeepAppend(IsDigit, [s[i]], s[i + 1..]);
    }
  }

  /** The sanitiser keeps a leading `+` and every ASCII digit, in order, and nothing else. */
  lemma SanitizeSplit(input: string)
    ensures Sanitize(input) ==
      if |input| > 0 && input[0] == '+' then "+" + Digits(input[1..]) else Digits(input)
  {
    if |input| > 0 {
      SanitizeFromDigits(input, 1);
      assert input == [input[0]] + input[1..];
      KeepAppend(IsDigit, [input[0]], input[1..]);
    }
  }

  // `s.replace(/^\d*/, '')`: drops the leading run of digits.
  function StripLeadingDigits(s: string): (r: string)
    ensures |r| <= |s| && r == s[|s| - |r|..]
    ensures forall i :: 0 <= i < |s| - |r| ==> IsDigit(s[i])
    ensures r == [] || !IsDigit(r[0])
    decreases |s|
  {
    if s != [] && IsDigit(s[0]) then
      var t := s[1..];
      var r := StripLeadingDigits(t);
      assert r == s[|s| - |r|..] by {
        assert t[|t| - |r|..] == s[|s| - |r|..];
      }
      assert forall i :: 0 <= i < |s| - |r| ==> IsDigit(s[i]) by {
        forall i | 0 <= i < |s| - |r| ensures IsDigit(s[i]) {
          if i > 0 {
            assert s[i] == t[i - 1];
          }
        }
      }
      r
    else
      s
  }

  /** An all-digit remainder is removed completely. */
  lemma StripLeadingDigitsOfDigits(s: string)
    requires AllDigits(s)
    ensures StripLeadingDigits(s) == []
  {
  }

  /** The `maxLength` rule of the keystroke handler. */
  function MaxLength(s: string): nat {
    if StartsWith(s, "+92") then 13 else 11
  }

  /** The two shapes a stored phone number can take. */
  predicate Canonical(r: string) {
    (AllDigits(r) && |r| <= 11)
    || (StartsWith(r, "+92") && AllDigits(r[3..]) && |r| <= 13)
  }

  /** What a phone keystroke stores, stated directly: a leading `+` followed (after
      dropping non-digits) by `92` keeps its digits up to 13 characters; any other
      leading `+` becomes exactly `+92`, the following digits being discarded; input
      without a leading `+` becomes its first 11 digits. */
  function Normalize(input: string): (r: string)
    ensures Canonical(r)
    ensures |r| <= MaxLength(r)
    ensures (|r| > 0 && r[0] == '+') <==> (|input| > 0 && input[0] == '+')
    ensures forall i :: 0 < i < |r| ==> r[i] != '+'
  {
    if |input| > 0 && input[0] == '+' then
      var d := Digits(input[1..]);
      if StartsWith(d, "92") then
        var r := Take("+" + d, 13);
        assert r[..3] == "+" + d[..2];
        assert forall i :: 3 <= i < |r| ==> r[i] == d[i - 1];
        r
      else
        "+92"
    else
      Take(Digits(input), 11)
  }

  /** Prefixing a `+`: the result starts with `+`, and with `+92` exactly when the
      text after the `+` starts with `92`. */
  lemma PlusPrefix(d: string)
    ensures StartsWith("+" + d, "+")
    ensures StartsWith("+" + d, "+92") <==> StartsWith(d, "92")
  {
    assert ("+" + d)[..1] == "+";
    if |d| >= 2 {
      assert ("+" + d)[..3] == ['+', d[0], d[1]];
      assert d[..2] == [d[0], d[1]];
    }
  }

  /** An all-digit text starts with neither `+` nor `+92`. */
  lemma DigitsHaveNoPlus(d: string)
    requires AllDigits(d)
    ensures !StartsWith(d, "+") && !StartsWith(d, "+92")
  {
    if |d| > 0 {
      assert d[..1][0] == d[0];
      assert |d| >= 3 ==> d[..3][0] == d[0];
    }
  }

  /** The body of `handlePhoneNumberChange` up to the state updates, step by step:
      it computes the stored value and the `maxLength` the handler compares with. */
  method FormatPhoneInput(input: string) returns (formatted: string, maxLength: nat)
    ensures formatted == Normalize(input)
    ensures maxLength == MaxLength(formatted)
  {
    formatted := Sanitize(input);
    SanitizeSplit(input);
    if |input| > 0 && input[0] == '+' {
      PlusPrefix(Digits(input[1..]));
    } else {
      DigitsHaveNoPlus(formatted);
    }
    if StartsWith(formatted, "+") && !StartsWith(formatted, "+92") {
      StripLeadingDigitsOfDigits(formatted[1..]);
      formatted := "+92" + StripLeadingDigits(formatted[1..]);
    }
    maxLength := if StartsWith(formatted, "+92") then 13 else 11;
    if |formatted| > maxLength {
      assert formatted[..maxLength][..3] == formatted[..3];
      formatted := formatted[..maxLength];
    }
  }

  /** `validatePhoneNumber`: after deleting whitespace, `03` and nine digits, or
      `+923` and nine digits. */
  predicate ValidPhone(input: string) {
    var c := RemoveWhitespace(input);
    (|c| == 11 && c[..2] == "03" && AllDigits(c[2..]))
    || (|c| == 13 && c[..4] == "+923" && AllDigits(c[4..]))
  }

  /** An accepted number is 11 or 13 characters long once whitespace is gone, that
      length is exactly the keystroke handler's `maxLength`, and the empty string is
      rejected. */
  lemma ValidPhoneLength(input: string)
    ensures ValidPhone(input) ==>
      var c := RemoveWhitespace(input);
      (|c| == 11 || |c| == 13) && |c| == MaxLength(c)
    ensures !ValidPhone("")
  {
    var c := RemoveWhitespace(input);
    if |c| == 11 && c[..2] == "03" {
      assert c[0] == c[..2][0];
      assert c[0] == c[..3][0];
    } else if |c| == 13 && c[..4] == "+923" {
      assert c[..3] == c[..4][..3];
    }
  }

  /** Typing the same value again stores it unchanged. */
  lemma NormalizeIdempotent(input: string)
    ensures Normalize(Normalize(input)) == Normalize(input)
  {
    var r := Normalize(input);
    if |input| > 0 && input[0] == '+' {
      assert r[..3] == "+92";
      assert AllDigits(r[1..]) by {
        forall i | 0 <= i < |r[1..]| ensures IsDigit(r[1..][i]) {
          if i >= 2 {
            assert r[1..][i] == r[3..][i - 2];
          } else {
            assert r[1..][i] == r[..3][i + 1];
          }
        }
      }
      DigitsOfDigits(r[1..]);
      assert r[1..][..2] == r[..3][1..];
      assert "+" + r[1..] == r;
    } else {
      DigitsOfDigits(r);
    }
  }

  /** Every whitespace-free accepted number is already in normal form: a keystroke
      that produces it stores it as typed. */
  lemma ValidPhoneIsFixedPoint(s: string)
    requires NoWhitespace(s) && ValidPhone(s)
    ensures Normalize(s) == s
  {
    RemoveWhitespaceOfClean(s);
    if |s| == 11 && s[..2] == "03" && AllDigits(s[2..]) {
      assert AllDigits(s) by {
        forall i | 0 <= i < |s| ensures IsDigit(s[i]) {
          if i >= 2 { assert s[i] == s[2..][i - 2]; } else { assert s[i] == s[..2][i]; }
        }
      }
      DigitsOfDigits(s);
    } else {
      assert s[..4] == "+923" && AllDigits(s[4..]);
      assert AllDigits(s[1..]) by {
        forall i | 0 <= i < |s[1..]| ensures IsDigit(s[1..][i]) {
          if i >= 3 { assert s[1..][i] == s[4..][i - 3]; } else { assert s[1..][i] == s[..4][i + 1]; }
        }
      }
      DigitsOfDigits(s[1..]);
      assert s[1..][..2] == s[..4][1..3];
      assert "+" + s[1..] == s;
    }
  }

  /** A stored number the validator accepts is always exactly `maxLength` long, so
      the keystroke check (full length and invalid) never flags an accepted number. */
  lemma ValidStoredPhoneIsFull(input: string)
    ensures ValidPhone(Normalize(input)) ==> |Normalize(input)| == MaxLength(Normalize(input))
  {
    var p := Normalize(input);
    assert NoWhitespace(p) by {
      forall i | 0 <= i < |p| ensures !IsWhitespace(p[i]) {
        if i >= 3 && !AllDigits(p) {
          assert p[i] == p[3..][i - 3];
        } else if !AllDigits(p) {
          assert p[i] == p[..3][i];
        }
      }
    }
    RemoveWhitespaceOfClean(p);
    ValidPhoneLength(p);
  }

  /** A text of digits and `+` signs holds no whitespace. */
  lemma PhoneCharsAreNotWhitespace(s: string)
    requires forall i :: 0 <= i < |s| ==> IsDigit(s[i]) || s[i] == '+'
    ensures NoWhitespace(s)
  {
  }

  /** Worked case of the validator: the local form is accepted, and rejected with
      its last digit missing. */
  lemma LocalPhoneExample(local: string)
    requires local == "03001234567"
    ensures ValidPhone(local) && !ValidPhone(local[..10])
  {
    PhoneCharsAreNotWhitespace(local);
    PhoneCharsAreNotWhitespace(local[..10]);
    RemoveWhitespaceOfClean(local);
    RemoveWhitespaceOfClean(local[..10]);
    assert local[..2] == "03" && local[2..] == "001234567";
  }

  /** Worked case of the validator: the international form is accepted, and
      rejected with its last digit missing. */
  lemma IntlPhoneExample(intl: string)
    requires intl == "+923001234567"
    ensures ValidPhone(intl) && !ValidPhone(intl[..12])
  {
    PhoneCharsAreNotWhitespace(intl);
    PhoneCharsAreNotWhitespace(intl[..12]);
    RemoveWhitespaceOfClean(intl);
    RemoveWhitespaceOfClean(intl[..12]);
    assert intl[..4] == "+923" && intl[4..] == "001234567";
  }

  /** Worked cases of the normaliser: a `+92` prefix is kept as typed, and a `+`
      not followed by `92` collapses to `+92`, its digits discarded. */
  lemma NormalizeExamples(kept: string, rewritten: string)
    requires kept == "+921234" && rewritten == "+3001234567"
    ensures Normalize(kept) == kept
    ensures Normalize(rewritten) == "+92"
  {
    assert kept[1..] == "921234" && AllDigits(kept[1..]);
    DigitsOfDigits(kept[1..]);
    assert kept[1..][..2] == "92";
    assert "+" + kept[1..] == kept;
    assert rewritten[1..] == "3001234567" && AllDigits(rewritten[1..]);
    DigitsOfDigits(rewritten[1..]);
  }
}
