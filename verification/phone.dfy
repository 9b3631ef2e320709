/**
 * The phone-number validator of the CRM mutations.
 *
 * The source checks a non-empty phone against the regular expression
 * `^(\+\d{1,15}|\d{3}-\d{3}-\d{4})$` with Python's `re.match`.  Here the
 * regular expression is replaced by a character scanner (ValidatePhone and
 * its helpers), and the set of strings the expression denotes is written out
 * declaratively (MatchesPattern); the two are proved to agree on every string.
 *
 * As in Python, `$` matches at the end of the string and also just before a
 * single newline that ends it, so "+123\n" is accepted.  Digits are the ASCII
 * digits '0'..'9' only.
 */
module Phone {
  import opened Options

  predicate IsDigit(c: char) {
    '0' <= c <= '9'
  }

  ghost predicate AllDigits(s: string) {
    forall i :: 0 <= i < |s| ==> IsDigit(s[i])
  }

  // ---------------------------------------------------------------------
  // The language of the pattern, written out
  // ---------------------------------------------------------------------

  /** `\+\d{1,15}`: a plus sign followed by one to fifteen digits. */
  ghost predicate InternationalForm(s: string) {
    2 <= |s| <= 16 && s[0] == '+' && AllDigits(s[1..])
  }

  /** `\d{3}-\d{3}-\d{4}` */
  ghost predicate LocalForm(s: string) {
    && |s| == 12
    && AllDigits(s[..3]) && s[3] == '-'
    && AllDigits(s[4..7]) && s[7] == '-'
    && AllDigits(s[8..])
  }

  ghost predicate PhoneForm(s: string) {
    InternationalForm(s) || LocalForm(s)
  }

  /** What `re.match` with the anchored pattern accepts: a phone form, optionally followed by one final newline. */
  ghost predicate MatchesPattern(s: string) {
    || PhoneForm(s)
    || (|s| > 0 && s[|s| - 1] == '\n' && PhoneForm(s[..|s| - 1]))
  }

  // ---------------------------------------------------------------------
  // The scanner
  // ---------------------------------------------------------------------

  /** The length of the longest run of digits at the start of `s`. */
  function LeadingDigits(s: string): (n: nat)
    ensures n <= |s|
    ensures forall i :: 0 <= i < n ==> IsDigit(s[i])
    ensures n < |s| ==> !IsDigit(s[n])
  {
    if s == [] || !IsDigit(s[0]) then 0 else 1 + LeadingDigits(s[1..])
  }

  /** Where `$` may match: the end of the string, or a newline that ends it. */
  predicate AtEnd(rest: string) {
    rest == "" || rest == "\n"
  }

  predicate ScanInternational(s: string) {
    && |s| > 0 && s[0] == '+'
    && var n := LeadingDigits(s[1..]);
       1 <= n <= 15 && AtEnd(s[1 + n..])
  }

  predicate ScanLocal(s: string) {
    && LeadingDigits(s) == 3 && |s| > 3 && s[3] == '-'
    && LeadingDigits(s[4..]) == 3 && |s| > 7 && s[7] == '-'
    && LeadingDigits(s[8..]) == 4 && AtEnd(s[12..])
  }

  lemma {:induction false} ScanInternationalCorrect(s: string)
    ensures ScanInternational(s) <==> (InternationalForm(s) || (|s| > 0 && s[|s| - 1] == '\n' && InternationalForm(s[..|s| - 1])))
  {
    if |s| > 0 && s[0] == '+' {
      var t := s[1..];
      var n := LeadingDigits(t);
      if ScanInternational(s) {
        if s[1 + n..] == "" {
          assert s[1..] == t[..n];
        } else {
          assert |s| == n + 2 && s[|s| - 1] == '\n';
          assert s[..|s| - 1][1..] == t[..n];
        }
      }
      if InternationalForm(s) {
        assert n == |t|;
      } else if |s| > 0 && s[|s| - 1] == '\n' && InternationalForm(s[..|s| - 1]) {
        assert forall i :: 0 <= i < |t| - 1 ==> t[i] == s[..|s| - 1][1..][i];
        assert !IsDigit(t[|t| - 1]);
        assert n == |t| - 1;
        assert s[1 + n..] == "\n";
      }
    }
  }

  /** A run of exactly `k` digits at `from`, followed by a non-digit or the end of `s`, is the leading digit run of `s[from..]`. */
  lemma DigitRunExact(s: string, from: nat, k: nat)
    requires from + k <= |s|
    requires AllDigits(s[from..from + k])
    requires from + k < |s| ==> !IsDigit(s[from + k])
    ensures LeadingDigits(s[from..]) == k
  {
    var t := s[from..];
    assert forall i :: 0 <= i < k ==> t[i] == s[from..from + k][i];
  }

  lemma {:induction false} ScanLocalCorrect(s: string)
    ensures ScanLocal(s) <==> (LocalForm(s) || (|s| > 0 && s[|s| - 1] == '\n' && LocalForm(s[..|s| - 1])))
  {
    if ScanLocal(s) {
      var u := s[..12];
      assert AllDigits(u[..3]) by { assert forall i :: 0 <= i < 3 ==> u[i] == s[i]; }
      assert AllDigits(u[4..7]) by { assert forall i :: 0 <= i < 3 ==> u[4..7][i] == s[4..][i]; }
      assert AllDigits(u[8..]) by { assert forall i :: 0 <= i < 4 ==> u[8..][i] == s[8..][i]; }
      assert LocalForm(u);
      if s[12..] == "" {
        assert s == u;
      } else {
        assert |s| == 13 && s[12] == '\n' && s[..|s| - 1] == u;
      }
    }
    var u: string;
    if LocalForm(s) {
      u := s;
    } else if |s| > 0 && s[|s| - 1] == '\n' && LocalForm(s[..|s| - 1]) {
      u := s[..|s| - 1];
    } else {
      return;
    }
    assert |s| >= 12 && s[..12] == u[..12];
    assert AllDigits(s[0..3]) by { assert forall i :: 0 <= i < 3 ==> s[0..3][i] == u[..3][i]; }
    assert AllDigits(s[4..7]) by { assert forall i :: 0 <= i < 3 ==> s[4..7][i] == u[4..7][i]; }
    assert AllDigits(s[8..12]) by { assert forall i :: 0 <= i < 4 ==> s[8..12][i] == u[8..][i]; }
    DigitRunExact(s, 0, 3);
    DigitRunExact(s, 4, 3);
    DigitRunExact(s, 8, 4);
    assert s[0..] == s;
    assert AtEnd(s[12..]);
  }

  /** validate_phone: an absent or empty phone is valid; otherwise the phone is scanned for one of the two forms. */
  function ValidatePhone(phone: Option<string>): bool {
    match phone
    case None => true
    case Some(p) => p == "" || ScanInternational(p) || ScanLocal(p)
  }

  /** The validator accepts exactly the absent phone, the empty phone and the strings the pattern matches. */
  lemma ValidatePhoneMatchesPattern(phone: Option<string>)
    ensures ValidatePhone(phone) <==> (phone == None || phone == Some("") || MatchesPattern(phone.value))
  {
    if phone.Some? {
      ScanInternationalCorrect(phone.value);
      ScanLocalCorrect(phone.value);
    }
  }
}

/** Worked examples of the validator, the trailing newline included. */
module PhoneExamples {
  import opened Options
  import opened Phone

  lemma AbsentOrEmptyAccepted()
    ensures ValidatePhone(None) && ValidatePhone(Some(""))
  {
  }

  lemma InternationalAccepted()
    ensures ValidatePhone(Some("+1234567890"))
  {
    assert InternationalForm("+1234567890");
    ValidatePhoneMatchesPattern(Some("+1234567890"));
  }

  lemma LocalAccepted()
    ensures ValidatePhone(Some("555-123-4567"))
  {
    assert LocalForm("555-123-4567");
    ValidatePhoneMatchesPattern(Some("555-123-4567"));
  }

  /** `$` matches before a final newline. */
  lemma TrailingNewlineAccepted()
    ensures ValidatePhone(Some("+123\n"))
  {
    assert "+123\n"[..4] == "+123";
    assert InternationalForm("+123");
    ValidatePhoneMatchesPattern(Some("+123\n"));
  }

  lemma TwoNewlinesRejected()
    ensures !ValidatePhone(Some("+123\n\n"))
  {
    var s := "+123\n\n";
    assert s[..5] == "+123\n";
    assert !IsDigit(s[1..][3]) && !IsDigit(s[..5][1..][3]);
    ValidatePhoneMatchesPattern(Some(s));
  }

  lemma SixteenDigitsRejected()
    ensures !ValidatePhone(Some("+1234567890123456"))
  {
    ValidatePhoneMatchesPattern(Some("+1234567890123456"));
  }

  lemma UnseparatedRejected()
    ensures !ValidatePhone(Some("5551234567"))
  {
    ValidatePhoneMatchesPattern(Some("5551234567"));
  }
}
