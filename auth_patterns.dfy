/** What the sign-in and registration forms share: the e-mail pattern
    `/\S+@\S+\.\S+/`, the phone pattern `/^\+?[\d\s-()]{10,}$/`, and the
    record they store under the `user` key. */
module AuthPatterns {
  import opened Results
  import opened JsString

  /** The local-storage key the signed-in user is saved under. */
  const UserKey := "user"

  /** The record saved under `UserKey`; the sign-in form saves neither a
      phone number nor a language. */
  datatype StoredUser = StoredUser(
    email: string, name: string, role: string,
    phone: Option<string>, language: Option<string>, isAuthenticated: bool)

  /** No character of `s` is white space (`\S` throughout). */
  predicate NoSpace(s: string)
  {
    forall i :: 0 <= i < |s| ==> !IsWhiteSpace(s[i])
  }

  /** The pattern matches with its `@` at `at` and its `.` at `dot`: a
      non-space character before the `@`, only non-space characters (at
      least one) between the `@` and the `.`, and a non-space character
      after the `.`. Longer runs around these are allowed, and so is any
      text before and after, since the pattern is not anchored. */
  predicate EmailAt(s: string, at: int, dot: int)
  {
    0 < at && at + 1 < dot && dot + 1 < |s| &&
    !IsWhiteSpace(s[at - 1]) && s[at] == '@' && NoSpace(s[at + 1..dot]) &&
    s[dot] == '.' && !IsWhiteSpace(s[dot + 1])
  }

  /** `/\S+@\S+\.\S+/.test(s)`. */
  predicate EmailLike(s: string)
    ensures EmailLike(s) ==> |s| >= 5 && '@' in s && '.' in s
  {
    exists at, dot :: 0 < at < dot < |s| && EmailAt(s, at, dot)
  }

  /** A character of `[\d\s-()]`: a digit, white space, `-`, `(` or `)`. */
  predicate PhoneChar(c: char)
  {
    '0' <= c <= '9' || IsWhiteSpace(c) || c == '-' || c == '(' || c == ')'
  }

  /** `/^\+?[\d\s-()]{10,}$/.test(s)`: an optional leading `+`, then ten or
      more phone characters and nothing else. */
  predicate PhoneLike(s: string)
    ensures PhoneLike(s) ==> |s| >= 10 && (s[0] == '+' || PhoneChar(s[0]))
    ensures PhoneLike(s) ==> forall i :: 0 < i < |s| ==> PhoneChar(s[i])
  {
    if s != [] && s[0] == '+' then PhoneDigits(s[1..]) else PhoneDigits(s)
  }

  /** `[\d\s-()]{10,}` matching the whole of `s`. */
  predicate PhoneDigits(s: string)
  {
    |s| >= 10 && forall i :: 0 <= i < |s| ==> PhoneChar(s[i])
  }

  /** The pattern finds an address inside longer text, even text with
      spaces, and rejects text with no `.` after its `@`. */
  lemma EmailExamples()
    ensures EmailLike("farmer@kisanai.com")
    ensures EmailLike("write to a@b.c today")
    ensures !EmailLike("farmer@kisanai")
    ensures !EmailLike("")
  {
    assert EmailAt("farmer@kisanai.com", 6, 14);
    assert EmailAt("write to a@b.c today", 10, 12);
    var s := "farmer@kisanai";
    forall at, dot
      ensures !EmailAt(s, at, dot)
    {
      if 0 < at && at + 1 < dot && dot + 1 < |s| {
        assert s[dot] != '.';
      }
    }
  }

  /** A ten-digit number with a country code and spaces passes; five
      digits, or a letter among the digits, do not. */
  lemma PhoneExamples()
    ensures PhoneLike("+91 98765 43210")
    ensures PhoneLike("(022) 2345-6789")
    ensures !PhoneLike("12345")
    ensures !PhoneLike("98765x43210")
  {
    var a := "+91 98765 43210";
    assert a[0] == '+' && a[1..] == "91 98765 43210";
    PhoneCharsOf("91 98765 43210");
    var b := "(022) 2345-6789";
    assert b[0] == '(';
    PhoneCharsOf(b);
    var c := "98765x43210";
    assert c[0] == '9' && c[5] == 'x';
    assert !PhoneChar(c[5]) && !PhoneDigits(c);
  }

  /** Checks every character of a literal against the class. */
  lemma PhoneCharsOf(s: string)
    requires forall i :: 0 <= i < |s| ==> s[i] in "0123456789 -()"
    ensures forall i :: 0 <= i < |s| ==> PhoneChar(s[i])
  {
  }
}
