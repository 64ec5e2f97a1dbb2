/**
 * A hand-written recogniser for the language of the email pattern
 * `^\w+([.-]?\w+)*@\w+([.-]?\w+)*(\.\w{2,3})+$` (no flags), where `\w` is
 * `[A-Za-z0-9_]`.
 */
module EmailPattern {
  import opened JsString

  /** `\w` without the `u` flag. */
  predicate IsWordChar(c: char) {
    ('a' <= c <= 'z') || ('A' <= c <= 'Z') || ('0' <= c <= '9') || c == '_'
  }

  /** `[.-]` */
  predicate IsSeparator(c: char) {
    c == '.' || c == '-'
  }

  /**
   * The language of `\w+([.-]?\w+)*`: word characters with single `.` or `-`
   * separators between them, beginning and ending with a word character.
   */
  predicate IsDottedName(s: string) {
    && |s| > 0 && IsWordChar(s[0]) && IsWordChar(s[|s| - 1])
    && (forall i :: 0 <= i < |s| ==> IsWordChar(s[i]) || IsSeparator(s[i]))
    && (forall i :: 0 <= i < |s| - 1 && IsSeparator(s[i]) ==> IsWordChar(s[i + 1]))
  }

  /** `d` ends in `.` followed by exactly `k` word characters. */
  predicate EndsInTopLevel(d: string, k: nat) {
    && |d| >= k + 2 && d[|d| - k - 1] == '.'
    && forall i :: |d| - k <= i < |d| ==> IsWordChar(d[i])
  }

  /**
   * The language of `\w+([.-]?\w+)*(\.\w{2,3})+`: a dotted name whose last
   * separator is a `.` followed by two or three word characters.
   */
  predicate IsDomain(d: string) {
    IsDottedName(d) && (EndsInTopLevel(d, 2) || EndsInTopLevel(d, 3))
  }

  /** The whole pattern: a dotted name, one `@`, a domain. */
  predicate IsEmailAddress(s: string): (r: bool)
    ensures r ==> 6 <= |s| && IsWordChar(s[0]) && IsWordChar(s[|s| - 1])
  {
    exists k :: 0 <= k < |s| && s[k] == '@' && IsDottedName(s[..k]) && IsDomain(s[k + 1..])
  }

  lemma WordCharIsNotWhitespace(c: char)
    requires IsWordChar(c)
    ensures !IsWhitespace(c)
  {
  }

  /** An address that matches contains no whitespace at either end, so trimming it is the identity. */
  lemma EmailAddressIsTrimmed(s: string)
    requires IsEmailAddress(s)
    ensures Trim(s) == s
  {
    var k :| 0 <= k < |s| && s[k] == '@' && IsDottedName(s[..k]) && IsDomain(s[k + 1..]);
    var d := s[k + 1..];
    assert IsWordChar(s[0]) by { assert s[0] == s[..k][0]; }
    assert IsWordChar(s[|s| - 1]) by { assert s[|s| - 1] == d[|d| - 1]; }
    WordCharIsNotWhitespace(s[0]);
    WordCharIsNotWhitespace(s[|s| - 1]);
    TrimOfTrimmed(s);
  }

  /** An address holds exactly one `@`, so the split point is unique. */
  lemma EmailAddressSplitUnique(s: string, k: nat, k': nat)
    requires k < |s| && s[k] == '@' && IsDottedName(s[..k]) && IsDomain(s[k + 1..])
    requires k' < |s| && s[k'] == '@'
    ensures k' == k
  {
  }

  lemma AcceptsPlainAddress()
    ensures IsEmailAddress("a@b.com")
  {
    var s := "a@b.com";
    assert s[..1] == "a";
    assert s[2..] == "b.com";
    assert IsDomain("b.com") by { assert EndsInTopLevel("b.com", 3); }
  }

  lemma AcceptsSeparatedParts()
    ensures IsEmailAddress("a.b@c-d.io")
  {
    var s := "a.b@c-d.io";
    var local, domain := "a.b", "c-d.io";
    assert s[3] == '@' && s[..3] == local && s[4..] == domain;
    assert IsDottedName(local) by {
      assert forall i :: 0 <= i < |local| ==> IsWordChar(local[i]) || IsSeparator(local[i]);
    }
    assert IsDottedName(domain) by {
      assert forall i :: 0 <= i < |domain| ==> IsWordChar(domain[i]) || IsSeparator(domain[i]);
    }
    assert EndsInTopLevel(domain, 2);
  }

  /** A top-level part of four characters is rejected (the pattern allows two or three). */
  lemma RejectsLongTopLevel()
    ensures !IsEmailAddress("a@b.info")
  {
    var s := "a@b.info";
    forall k | 0 <= k < |s| && s[k] == '@' ensures !IsDomain(s[k + 1..]) {
      assert k == 1;
      assert s[2..] == "b.info";
      assert !EndsInTopLevel("b.info", 2) && !EndsInTopLevel("b.info", 3);
    }
  }

  /** No address has two separators in a row, on either side of the `@`. */
  lemma ConsecutiveSeparatorsRejected(s: string, i: nat)
    requires i + 1 < |s| && IsSeparator(s[i]) && IsSeparator(s[i + 1])
    ensures !IsEmailAddress(s)
  {
    forall k | 0 <= k < |s| && s[k] == '@' ensures !(IsDottedName(s[..k]) && IsDomain(s[k + 1..])) {
      if i + 1 < k {
        assert s[..k][i] == s[i] && s[..k][i + 1] == s[i + 1];
      } else if k < i {
        assert s[k + 1..][i - k - 1] == s[i] && s[k + 1..][i - k] == s[i + 1];
      }
    }
  }

  lemma RejectsDoubleDot()
    ensures !IsEmailAddress("a..b@c.com")
  {
    ConsecutiveSeparatorsRejected("a..b@c.com", 1);
  }

  /** A domain without a top-level part is rejected. */
  lemma RejectsBareHost()
    ensures !IsEmailAddress("a@b")
  {
    var s := "a@b";
    forall k | 0 <= k < |s| && s[k] == '@' ensures !IsDomain(s[k + 1..]) {
      assert k == 1;
    }
  }
}
