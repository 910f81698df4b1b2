/**
 * The two identifier patterns of the vulnerability-definition schema,
 * `^CVE-\d+-\d+` and `^CWE-\d+`, as hand-written recognisers. Both patterns are
 * anchored at the start only, so a match of a prefix accepts the whole string.
 */
module KennaPatterns {
  import opened PyValues

  /** The length of the run of digits that starts `s`. */
  function DigitRun(s: string): (n: nat)
    ensures n <= |s|
    ensures forall k :: 0 <= k < n ==> IsDigit(s[k])
    ensures n < |s| ==> !IsDigit(s[n])
  {
    if s != [] && IsDigit(s[0]) then 1 + DigitRun(s[1..]) else 0
  }

  /** Recogniser for `^CVE-\d+-\d+`: "CVE-", the longest digit run, a dash, one more digit. */
  predicate IsCvePrefixed(s: string) {
    |s| >= 4 && s[..4] == "CVE-" &&
    var n := DigitRun(s[4..]);
    n > 0 && 5 + n < |s| && s[4 + n] == '-' && IsDigit(s[5 + n])
  }

  /** Recogniser for `^CWE-\d+`: "CWE-" followed by a digit. */
  predicate IsCwePrefixed(s: string) {
    |s| >= 5 && s[..4] == "CWE-" && IsDigit(s[4])
  }

  ghost predicate AllDigits(t: string) {
    forall k :: 0 <= k < |t| ==> IsDigit(t[k])
  }

  /** `s` reads "CVE-" d1 "-" d2 rest, where d1 == s[4..i] and d2 are non-empty digit strings. */
  ghost predicate CveSplitAt(s: string, i: int) {
    4 < i && i + 1 < |s| && s[..4] == "CVE-" && AllDigits(s[4..i]) && s[i] == '-' && IsDigit(s[i + 1])
  }

  /** `s` reads "CWE-" d rest, where d == s[4..j] is a non-empty digit string. */
  ghost predicate CweSplitAt(s: string, j: int) {
    4 < j <= |s| && s[..4] == "CWE-" && AllDigits(s[4..j])
  }

  /** A digit run followed by a non-digit, or by the end, is the whole run. */
  lemma DigitRunStopsAt(t: string, m: nat)
    requires m <= |t| && AllDigits(t[..m])
    requires m < |t| ==> !IsDigit(t[m])
    ensures DigitRun(t) == m
  {
  }

  /** The CVE recogniser accepts exactly the strings that begin with a match of the pattern. */
  lemma CveRecogniserCorrect(s: string)
    ensures IsCvePrefixed(s) <==> exists i :: CveSplitAt(s, i)
  {
    if IsCvePrefixed(s) {
      var n := DigitRun(s[4..]);
      assert s[4..4 + n] == s[4..][..n];
      assert CveSplitAt(s, 4 + n);
    }
    if i :| CveSplitAt(s, i) {
      var t := s[4..];
      var n := DigitRun(t);
      assert t[..i - 4] == s[4..i];
      DigitRunStopsAt(t, i - 4);
      assert IsCvePrefixed(s);
    }
  }

  /** The CWE recogniser accepts exactly the strings that begin with a match of the pattern. */
  lemma CweRecogniserCorrect(s: string)
    ensures IsCwePrefixed(s) <==> exists j :: CweSplitAt(s, j)
  {
    if IsCwePrefixed(s) {
      assert CweSplitAt(s, 5);
    }
    if j :| CweSplitAt(s, j) {
      assert s[4..j][0] == s[4];
    }
  }

  /** Trailing text never turns an accepted CVE identifier into a rejected one. */
  lemma CvePrefixExtends(s: string, t: string)
    requires IsCvePrefixed(s)
    ensures IsCvePrefixed(s + t)
  {
    CveRecogniserCorrect(s);
    var i :| CveSplitAt(s, i);
    assert (s + t)[..i + 2] == s[..i + 2];
    assert CveSplitAt(s + t, i);
    CveRecogniserCorrect(s + t);
  }

  /** Trailing text never turns an accepted CWE identifier into a rejected one. */
  lemma CwePrefixExtends(s: string, t: string)
    requires IsCwePrefixed(s)
    ensures IsCwePrefixed(s + t)
  {
    assert (s + t)[..5] == s[..5];
  }

  /** Example: the well-formed identifier `CVE-2021-1234` is accepted. */
  lemma CveAcceptsIdentifier()
    ensures IsCvePrefixed("CVE-2021-1234")
  {
    var s := "CVE-2021-1234";
    var t := s[4..];
    assert t[..4] == "2021" && t[4] == '-';
    DigitRunStopsAt(t, 4);
  }

  /** Examples: without digits after the second dash, or in lower case, the identifier is rejected. */
  lemma CveRejectsIncomplete()
    ensures !IsCvePrefixed("CVE-2021")
    ensures !IsCvePrefixed("CVE-2021-")
    ensures !IsCvePrefixed("cve-2021-1234")
  {
    var s1, s2 := "CVE-2021", "CVE-2021-";
    assert s1[4..][..4] == "2021";
    DigitRunStopsAt(s1[4..], 4);
    assert s2[4..][..4] == "2021" && s2[4..][4] == '-';
    DigitRunStopsAt(s2[4..], 4);
    var s3 := "cve-2021-1234";
    assert s3[..4][0] == 'c';
  }
}
