/** Character classes and the two string operations the input handlers of the
    credential screens are built from: a character filter (the effect of a global
    `replace` that deletes a character class) and a prefix slice (`s.slice(0, n)`). */
module Chars {

  /** `\d` of a JavaScript regular expression without the `u` flag: ASCII digits only. */
  predicate IsDigit(c: char) {
    '0' <= c <= '9'
  }

  /** The class `[A-Za-z0-9]`. */
  predicate IsAlnum(c: char) {
    'A' <= c <= 'Z' || 'a' <= c <= 'z' || IsDigit(c)
  }

  /** `\s` of ECMAScript: the WhiteSpace and LineTerminator code points. */
  predicate IsWhitespace(c: char) {
    c == '\t' || c == '\n' || c == '\U{B}' || c == '\U{C}' || c == '\r' || c == ' '
    || c == '\U{A0}' || c == '\U{1680}' || ('\U{2000}' <= c <= '\U{200A}')
    || c == '\U{2028}' || c == '\U{2029}' || c == '\U{202F}' || c == '\U{205F}'
    || c == '\U{3000}' || c == '\U{FEFF}'
  }

  predicate AllDigits(s: string) {
    forall i :: 0 <= i < |s| ==> IsDigit(s[i])
  }

  predicate AllAlnum(s: string) {
    forall i :: 0 <= i < |s| ==> IsAlnum(s[i])
  }

  predicate NoWhitespace(s: string) {
    forall i :: 0 <= i < |s| ==> !IsWhitespace(s[i])
  }

  /** `s.startsWith(p)`. */
  predicate StartsWith(s: string, p: string) {
    |p| <= |s| && s[..|p|] == p
  }

  /** `s.slice(0, n)`: the first `n` characters, or all of `s` when it is shorter. */
  function Take(s: string, n: nat): (r: string)
    ensures |r| == if |s| <= n then |s| else n
    ensures r == s[..|r|]
  {
    if |s| <= n then s else s[..n]
  }

  /** The characters of `s` that satisfy `p`, in their original order: the effect of
      a global `replace` that deletes every character outside a class. */
  function Keep(p: char -> bool, s: string): (r: string)
    ensures |r| <= |s|
    ensures forall i :: 0 <= i < |r| ==> p(r[i])
  {
    if s == [] then [] else (if p(s[0]) then [s[0]] else []) + Keep(p, s[1..])
  }

  /** Filtering distributes over concatenation; together with the one-character case
      (a character is kept exactly when it satisfies `p`) this determines `Keep`. */
  lemma {:induction false} KeepAppend(p: char -> bool, a: string, b: string)
    ensures Keep(p, a + b) == Keep(p, a) + Keep(p, b)
  {
    if a == [] {
      assert a + b == b;
    } else {
      assert (a + b)[0] == a[0];
      assert (a + b)[1..] == a[1..] + b;
      KeepAppend(p, a[1..], b);
    }
  }

  /** A filter leaves its input unchanged exactly when every character already
      belongs to the class. */
  lemma {:induction false} KeepUnchangedIff(p: char -> bool, s: string)
    ensures Keep(p, s) == s <==> forall i :: 0 <= i < |s| ==> p(s[i])
  {
    if s != [] {
      KeepUnchangedIff(p, s[1..]);
      assert s == [s[0]] + s[1..];
      if p(s[0]) {
        assert Keep(p, s) == [s[0]] + Keep(p, s[1..]);
        if Keep(p, s) == s {
          assert Keep(p, s[1..]) == Keep(p, s)[1..];
        }
        if forall i :: 0 <= i < |s| ==> p(s[i]) {
          assert forall i :: 0 <= i < |s[1..]| ==> p(s[1..][i]) by {
            forall i | 0 <= i < |s[1..]| ensures p(s[1..][i]) {
              assert s[1..][i] == s[i + 1];
            }
          }
        }
      } else {
        assert |Keep(p, s)| < |s|;
      }
    }
  }

  /** The ASCII digits of `s`, in order. The phone handler's first regex removes
      exactly the non-digits from position 1 on (see `Phone.SanitizeSplit`). */
  function Digits(s: string): (r: string)
    ensures AllDigits(r) && |r| <= |s|
  {
    Keep(IsDigit, s)
  }

  /** `s.replace(/[^A-Za-z0-9]/g, '')`. */
  function FilterAlnum(s: string): (r: string)
    ensures AllAlnum(r) && |r| <= |s|
  {
    Keep(IsAlnum, s)
  }

  /** `s.replace(/\s/g, '')`. */
  function RemoveWhitespace(s: string): (r: string)
    ensures NoWhitespace(r) && |r| <= |s|
  {
    Keep(c => !IsWhitespace(c), s)
  }

  lemma DigitsOfDigits(s: string)
    requires AllDigits(s)
    ensures Digits(s) == s
  {
    KeepUnchangedIff(IsDigit, s);
  }

  /** The alnum filter changes its input exactly when the input holds a character
      outside `[A-Za-z0-9]`. */
  lemma FilterAlnumChangesIff(s: string)
    ensures FilterAlnum(s) != s <==> exists i :: 0 <= i < |s| && !IsAlnum(s[i])
  {
    KeepUnchangedIff(IsAlnum, s);
  }

  lemma RemoveWhitespaceOfClean(s: string)
    requires NoWhitespace(s)
    ensures RemoveWhitespace(s) == s
  {
    KeepUnchangedIff(c => !IsWhitespace(c), s);
  }
}
