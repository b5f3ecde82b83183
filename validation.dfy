/** The two contact-field validators, `isValidEmail` and `isValidPhone`.
    Each is stated twice: as the plain condition the page relies on
    (`IsValidEmail`, `IsValidPhone`), and as a structural reading of the
    regular expression the source tests against (`MatchesEmailPattern`,
    `MatchesPhonePattern`); `EmailMatchesPattern` and `PhoneMatchesPattern`
    prove the two agree on every string. `\s` is the ECMAScript whitespace
    class of `Text.IsWhitespace`, `\d` the ASCII digits. */
module Validation {
  import opened Text

  // ----- isValidEmail: /^[^\s@]+@[^\s@]+\.[^\s@]+$/ -----

  /** The character class `[^\s@]`. */
  predicate EmailChar(c: char)
  {
    !IsWhitespace(c) && c != '@'
  }

  predicate AllEmailChars(s: string)
  {
    forall k :: 0 <= k < |s| ==> EmailChar(s[k])
  }

  /** The regular expression matches `s` with its `@` at index `at` and its
      literal `.` at index `dot`: three non-empty runs of `[^\s@]` around
      them fill the whole string. */
  ghost predicate EmailSplit(s: string, at: int, dot: int)
  {
    && 0 < at && at + 1 < dot && dot + 1 < |s|
    && s[at] == '@' && s[dot] == '.'
    && AllEmailChars(s[..at]) && AllEmailChars(s[at + 1..dot]) && AllEmailChars(s[dot + 1..])
  }

  ghost predicate MatchesEmailPattern(s: string)
  {
    exists at, dot :: EmailSplit(s, at, dot)
  }

  /** `d` has a `.` that is neither its first nor its last character. */
  predicate HasInteriorDot(d: string)
  {
    exists j :: 0 < j < |d| - 1 && d[j] == '.'
  }

  /** `isValidEmail(s)`: no whitespace, exactly one `@`, something before
      it, and after it a `.` that is neither first nor last. */
  predicate IsValidEmail(s: string)
    ensures IsValidEmail(s) ==> |s| >= 5 && '@' in s
  {
    var at := IndexOf(s, '@');
    && (forall k :: 0 <= k < |s| ==> !IsWhitespace(s[k]))
    && 0 < at < |s|
    && '@' !in s[at + 1..]
    && HasInteriorDot(s[at + 1..])
  }

  /** The plain condition and the regular expression accept the same strings. */
  lemma EmailMatchesPattern(s: string)
    ensures IsValidEmail(s) <==> MatchesEmailPattern(s)
  {
    if IsValidEmail(s) {
      var at := IndexOf(s, '@');
      var d := s[at + 1..];
      var j :| 0 < j < |d| - 1 && d[j] == '.';
      var dot := at + 1 + j;
      forall k | at < k < |s| ensures s[k] != '@' {
        assert s[k] == d[k - at - 1];
      }
      assert AllEmailChars(s[..at]);
      assert AllEmailChars(s[at + 1..dot]);
      assert AllEmailChars(s[dot + 1..]);
      assert EmailSplit(s, at, dot);
    }
    if MatchesEmailPattern(s) {
      var at, dot :| EmailSplit(s, at, dot);
      forall k | 0 <= k < |s| ensures EmailChar(s[k]) || k == at || k == dot {
        if k < at {
          assert s[k] == s[..at][k];
        } else if at < k < dot {
          assert s[k] == s[at + 1..dot][k - at - 1];
        } else if dot < k {
          assert s[k] == s[dot + 1..][k - dot - 1];
        }
      }
      var i := IndexOf(s, '@');
      assert i == at;
      assert s[at + 1..][dot - at - 1] == '.';
    }
  }

  /** Any string `local@domain.tld` whose three parts are non-empty and free
      of whitespace and `@` is a valid email. */
  lemma EmailFromParts(local: string, domain: string, tld: string)
    requires local != [] && domain != [] && tld != []
    requires AllEmailChars(local) && AllEmailChars(domain) && AllEmailChars(tld)
    ensures IsValidEmail(local + ['@'] + domain + ['.'] + tld)
  {
    var s := local + ['@'] + domain + ['.'] + tld;
    var at, dot := |local|, |local| + 1 + |domain|;
    assert s[..at] == local;
    assert s[at + 1..dot] == domain;
    assert s[dot + 1..] == tld;
    assert EmailSplit(s, at, dot);
    EmailMatchesPattern(s);
  }

  /** A string without `@`, or with any whitespace, is never a valid email. */
  lemma EmailNeedsAtAndNoWhitespace(s: string)
    requires '@' !in s || exists k :: 0 <= k < |s| && IsWhitespace(s[k])
    ensures !IsValidEmail(s)
  {
  }

  /** A valid email is never blank: it has no whitespace at all, and it is
      not empty. */
  lemma ValidEmailIsNotBlank(s: string)
    requires IsValidEmail(s)
    ensures !IsBlank(s)
  {
    BlankIffAllWhitespace(s);
    assert !IsWhitespace(s[0]);
  }

  lemma ShortestEmail()
    ensures IsValidEmail("a@b.c")
  {
    var s := "a@b.c";
    assert IndexOf(s, '@') == 1;
    assert s[2..][1] == '.';
  }

  // ----- isValidPhone: /^\+?[\d\s\-()]{7,}$/ -----

  /** The character class `[\d\s\-()]`. */
  predicate PhoneChar(c: char)
  {
    ('0' <= c <= '9') || IsWhitespace(c) || c == '-' || c == '(' || c == ')'
  }

  /** `[\d\s\-()]{7,}` matching all of `t`. */
  predicate PhoneRun(t: string)
  {
    |t| >= 7 && forall k :: 0 <= k < |t| ==> PhoneChar(t[k])
  }

  /** The regular expression: an optional `+`, then a run filling the rest. */
  ghost predicate MatchesPhonePattern(s: string)
  {
    PhoneRun(s) || (s != [] && s[0] == '+' && PhoneRun(s[1..]))
  }

  /** `isValidPhone(s)`: after removing at most one leading `+`, at least
      seven characters, each a digit, whitespace, `-`, `(` or `)`. */
  predicate IsValidPhone(s: string)
    ensures IsValidPhone(s) ==> |s| >= 7
  {
    PhoneRun(if s != [] && s[0] == '+' then s[1..] else s)
  }

  lemma PhoneMatchesPattern(s: string)
    ensures IsValidPhone(s) <==> MatchesPhonePattern(s)
  {
    if s != [] && s[0] == '+' {
      assert !PhoneChar(s[0]);
    }
  }

  /** Fewer than seven characters is never a valid phone number. */
  lemma ShortPhoneInvalid(s: string)
    requires |s| < 7
    ensures !IsValidPhone(s)
  {
  }

  /** A letter anywhere, or a `+` anywhere but at the front, makes a phone
      number invalid. */
  lemma PhoneRejectsLettersAndInnerPlus(s: string, k: int)
    requires 0 <= k < |s|
    requires ('a' <= s[k] <= 'z') || ('A' <= s[k] <= 'Z') || (k > 0 && s[k] == '+')
    ensures !IsValidPhone(s)
  {
    if s != [] && s[0] == '+' {
      if k > 0 {
        assert s[1..][k - 1] == s[k];
        assert !PhoneChar(s[k]);
      }
    } else {
      assert !PhoneChar(s[k]);
    }
  }

  /** Seven spaces pass the phone pattern, since `\s` is in the class. */
  lemma SpacesAreAValidPhone()
    ensures IsValidPhone("       ")
  {
  }
}
