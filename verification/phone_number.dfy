/** The mobile-number validator: `re.match` of the pattern
    `^(?:\+86)?1[3-9]\d{9}$` against a Python `str`.

    Two details of Python's regular expressions are modelled rather than
    assumed away:
    - `\d` in a `str` pattern matches every character of Unicode general
      category Nd ("decimal digit"), not only '0'..'9';
    - `$` without MULTILINE matches at the end of the string and also just
      before a single newline that ends the string. */
module PhoneNumber {

  /** Whether code point `cp` is one of the ten consecutive digits whose
      zero is at `zero`. */
  predicate Block(cp: int, zero: int)
  {
    zero <= cp <= zero + 9
  }

  /** What `\d` matches in a `str` pattern: a character of Unicode general
      category Nd. In Unicode 15.0 these are 68 blocks of ten consecutive
      code points, listed here by the code point of each block's zero. */
  predicate IsDecimalDigit(c: char)
    ensures '0' <= c <= '9' ==> IsDecimalDigit(c)
    ensures IsDecimalDigit(c) ==> 0x30 <= c as int <= 0x1FBF9
  {
    var cp := c as int;
    || Block(cp, 0x0030) || Block(cp, 0x0660) || Block(cp, 0x06F0) || Block(cp, 0x07C0)
    || Block(cp, 0x0966) || Block(cp, 0x09E6) || Block(cp, 0x0A66) || Block(cp, 0x0AE6)
    || Block(cp, 0x0B66) || Block(cp, 0x0BE6) || Block(cp, 0x0C66) || Block(cp, 0x0CE6)
    || Block(cp, 0x0D66) || Block(cp, 0x0DE6) || Block(cp, 0x0E50) || Block(cp, 0x0ED0)
    || Block(cp, 0x0F20) || Block(cp, 0x1040) || Block(cp, 0x1090) || Block(cp, 0x17E0)
    || Block(cp, 0x1810) || Block(cp, 0x1946) || Block(cp, 0x19D0) || Block(cp, 0x1A80)
    || Block(cp, 0x1A90) || Block(cp, 0x1B50) || Block(cp, 0x1BB0) || Block(cp, 0x1C40)
    || Block(cp, 0x1C50) || Block(cp, 0xA620) || Block(cp, 0xA8D0) || Block(cp, 0xA900)
    || Block(cp, 0xA9D0) || Block(cp, 0xA9F0) || Block(cp, 0xAA50) || Block(cp, 0xABF0)
    || Block(cp, 0xFF10) || Block(cp, 0x104A0) || Block(cp, 0x10D30) || Block(cp, 0x11066)
    || Block(cp, 0x110F0) || Block(cp, 0x11136) || Block(cp, 0x111D0) || Block(cp, 0x112F0)
    || Block(cp, 0x11450) || Block(cp, 0x114D0) || Block(cp, 0x11650) || Block(cp, 0x116C0)
    || Block(cp, 0x11730) || Block(cp, 0x118E0) || Block(cp, 0x11950) || Block(cp, 0x11C50)
    || Block(cp, 0x11D50) || Block(cp, 0x11DA0) || Block(cp, 0x11F50) || Block(cp, 0x16A60)
    || Block(cp, 0x16AC0) || Block(cp, 0x16B50) || Block(cp, 0x1D7CE) || Block(cp, 0x1D7D8)
    || Block(cp, 0x1D7E2) || Block(cp, 0x1D7EC) || Block(cp, 0x1D7F6) || Block(cp, 0x1E140)
    || Block(cp, 0x1E2F0) || Block(cp, 0x1E4F0) || Block(cp, 0x1E950) || Block(cp, 0x1FBF0)
  }

  /** The country-code prefix the pattern allows, `\+86`. */
  const CountryPrefix: string := "+86"

  /** The number of characters `1[3-9]\d{9}` consumes. */
  const MobileLength: nat := 11

  // ---------------------------------------------------------------------
  // The matcher: the pattern read left to right, the optional group tried
  // first (it is greedy) and dropped on failure, as the regex engine does.
  // ---------------------------------------------------------------------

  /** `\d{n}` at position `i`. */
  predicate DecimalRun(s: string, i: nat, n: nat)
    requires i <= |s|
    decreases n
  {
    n == 0 || (i < |s| && IsDecimalDigit(s[i]) && DecimalRun(s, i + 1, n - 1))
  }

  /** `$` at position `i`: the end, or a final newline. */
  predicate AtEnd(s: string, i: nat)
    requires i <= |s|
  {
    i == |s| || (i == |s| - 1 && s[i] == '\n')
  }

  /** `1[3-9]\d{9}$` at position `i`. */
  predicate MatchMobileFrom(s: string, i: nat)
    requires i <= |s|
  {
    && i + MobileLength <= |s|
    && s[i] == '1'
    && '3' <= s[i + 1] <= '9'
    && DecimalRun(s, i + 2, 9)
    && AtEnd(s, i + MobileLength)
  }

  /** `validate_chinese_phone_number`: `re.match` of the whole pattern. */
  predicate ValidateChinesePhoneNumber(s: string)
    ensures ValidateChinesePhoneNumber(s) ==> |s| in {11, 12, 14, 15}
    ensures ValidateChinesePhoneNumber(s) ==> s[0] == '1' || s[..3] == CountryPrefix
  {
    || (|s| >= |CountryPrefix| && s[..|CountryPrefix|] == CountryPrefix
        && MatchMobileFrom(s, |CountryPrefix|))
    || MatchMobileFrom(s, 0)
  }

  // ---------------------------------------------------------------------
  // The reference reading of the pattern, as a property of whole strings.
  // ---------------------------------------------------------------------

  /** An 11-character mainland mobile number: `1`, a digit 3..9, nine digits. */
  predicate IsMobileNumber(t: string)
  {
    && |t| == MobileLength
    && t[0] == '1'
    && '3' <= t[1] <= '9'
    && forall k :: 2 <= k < |t| ==> IsDecimalDigit(t[k])
  }

  /** A mobile number, optionally preceded by `+86`. */
  predicate IsPatternBody(t: string)
  {
    || IsMobileNumber(t)
    || (|t| == |CountryPrefix| + MobileLength && t[..|CountryPrefix|] == CountryPrefix
        && IsMobileNumber(t[|CountryPrefix|..]))
  }

  /** Accepted by `re.match`: the body alone, or the body and one final newline. */
  predicate Accepted(s: string)
  {
    || IsPatternBody(s)
    || (|s| > 0 && s[|s| - 1] == '\n' && IsPatternBody(s[..|s| - 1]))
  }

  // ---------------------------------------------------------------------
  // Lemmas
  // ---------------------------------------------------------------------

  /** `\d{n}` at `i` holds exactly when the next `n` characters are all digits. */
  lemma {:induction false} DecimalRunMeansDigits(s: string, i: nat, n: nat)
    requires i <= |s|
    ensures DecimalRun(s, i, n) <==>
            (i + n <= |s| && forall k :: i <= k < i + n ==> IsDecimalDigit(s[k]))
    decreases n
  {
    if n > 0 && i < |s| {
      DecimalRunMeansDigits(s, i + 1, n - 1);
    }
  }

  /** `1[3-9]\d{9}$` from position `i` reads the rest of the string (minus an
      optional final newline) as a mobile number. */
  lemma MatchMobileFromMeans(s: string, i: nat)
    requires i <= |s|
    ensures MatchMobileFrom(s, i) <==>
            (IsMobileNumber(s[i..]) ||
             (|s| > i && s[|s| - 1] == '\n' && IsMobileNumber(s[i..|s| - 1])))
  {
    if i + MobileLength <= |s| {
      DecimalRunMeansDigits(s, i + 2, 9);
      var t := s[i..i + MobileLength];
      MobilePrefixMeans(s, i);
      if i + MobileLength == |s| {
        assert s[i..] == t;
        if |s| > i && s[|s| - 1] == '\n' {
          assert !IsMobileNumber(s[i..|s| - 1]);
        }
      } else if i + MobileLength == |s| - 1 {
        assert s[i..|s| - 1] == t;
        assert !IsMobileNumber(s[i..]);
      } else {
        assert !IsMobileNumber(s[i..]);
        assert !IsMobileNumber(s[i..|s| - 1]);
      }
    }
  }

  /** The eleven characters from `i` form a mobile number exactly when
      `1[3-9]\d{9}` matches there. */
  lemma MobilePrefixMeans(s: string, i: nat)
    requires i + MobileLength <= |s|
    ensures IsMobileNumber(s[i..i + MobileLength]) <==>
            (s[i] == '1' && '3' <= s[i + 1] <= '9' && DecimalRun(s, i + 2, 9))
  {
    var t := s[i..i + MobileLength];
    DecimalRunMeansDigits(s, i + 2, 9);
    assert t[0] == s[i] && t[1] == s[i + 1];
    assert (forall k :: 2 <= k < |t| ==> IsDecimalDigit(t[k])) <==>
           (forall k :: i + 2 <= k < i + MobileLength ==> IsDecimalDigit(s[k])) by {
      forall k | 2 <= k < |t| ensures t[k] == s[i + k] {}
      forall k | i + 2 <= k < i + MobileLength ensures s[k] == t[k - i] {}
    }
  }

  /** The matcher and the reference reading agree on every string. */
  lemma ValidatorMatchesPattern(s: string)
    ensures ValidateChinesePhoneNumber(s) <==> Accepted(s)
  {
    var p := |CountryPrefix|;
    MatchMobileFromMeans(s, 0);
    if |s| >= p {
      MatchMobileFromMeans(s, p);
      assert s[p..] == s[..][p..];
      if |s| > 0 && s[|s| - 1] == '\n' {
        var b := s[..|s| - 1];
        if |b| >= p {
          assert b[..p] == s[..p];
          assert b[p..] == s[p..|s| - 1];
        }
      }
    } else if |s| > 0 && s[|s| - 1] == '\n' {
      var b := s[..|s| - 1];
      assert |b| < p;
    }
  }

  /** Without a final newline the validator accepts exactly an 11-character
      mobile number or `+86` followed by one (14 characters). */
  lemma ValidatorWithoutNewline(s: string)
    requires |s| == 0 || s[|s| - 1] != '\n'
    ensures ValidateChinesePhoneNumber(s) <==>
            (IsMobileNumber(s) ||
             (|s| == 14 && s[..3] == "+86" && IsMobileNumber(s[3..])))
  {
    ValidatorMatchesPattern(s);
  }

  /** The only characters of the ASCII range that `\d` matches are '0'..'9'. */
  lemma AsciiDecimalDigits(c: char)
    requires c as int < 128
    ensures IsDecimalDigit(c) <==> '0' <= c <= '9'
  {
  }

  /** The usual numbers, and the two acceptances particular to Python's
      `re`: one final newline, and non-ASCII (here full-width) digits. */
  lemma ValidatorAcceptsExamples()
    ensures ValidateChinesePhoneNumber("13800138000")
    ensures ValidateChinesePhoneNumber("+8613800138000")
    ensures ValidateChinesePhoneNumber("13800138000\n")
    ensures ValidateChinesePhoneNumber("13800138\U{FF10}\U{FF10}\U{FF10}")
  {
    MobileDigits("13800138000", 0);
    MobileDigits("+8613800138000", 3);
    MobileDigits("13800138000\n", 0);
    MobileDigits("13800138\U{FF10}\U{FF10}\U{FF10}", 0);
  }

  /** `\d{9}` after `1[3-9]`, from the digits one by one. */
  lemma MobileDigits(s: string, i: nat)
    requires i + MobileLength <= |s|
    requires forall k :: i + 2 <= k < i + MobileLength ==> IsDecimalDigit(s[k])
    ensures DecimalRun(s, i + 2, 9)
  {
    DecimalRunMeansDigits(s, i + 2, 9);
  }

  /** Wrong length, wrong leading digits, extra text and two final newlines
      are rejected. */
  lemma ValidatorRejectsExamples()
    ensures !ValidateChinesePhoneNumber("12345")
    ensures !ValidateChinesePhoneNumber("23800138000")
    ensures !ValidateChinesePhoneNumber("12800138000")
    ensures !ValidateChinesePhoneNumber("138001380001")
    ensures !ValidateChinesePhoneNumber("13800138000\n\n")
  {
  }
}
