/**
 * The University of Utah student-ID verifier
 * (src/services/verification/utah-verifier.ts): which replies look like a
 * uNID, and the mail address a code is sent to.
 */
module UtahVerifier {
  import Text

  predicate IsDigit(c: char) {
    '0' <= c <= '9'
  }

  /** A uNID: `u` or `U`, then exactly seven decimal digits, and nothing else. */
  predicate IsStudentId(t: string) {
    |t| == 8 && (t[0] == 'u' || t[0] == 'U') && forall i | 1 <= i < 8 :: IsDigit(t[i])
  }

  function AllDigits(s: string): bool {
    s == [] || (IsDigit(s[0]) && AllDigits(s[1..]))
  }

  /** `checkPattern`: the case-insensitive test of `^u[0-9]{7}$` on the trimmed input. */
  function CheckPattern(input: string): (r: bool)
    ensures r <==> IsStudentId(Text.Trim(input))
  {
    MatchesStudentId(Text.Trim(input))
  }

  /** The anchored, case-insensitive match of `u[0-9]{7}` against the whole of `t`. */
  function MatchesStudentId(t: string): (r: bool)
    ensures r <==> IsStudentId(t)
  {
    if |t| != 8 then false
    else
      AllDigitsMeans(t[1..]);
      assert forall i | 1 <= i < 8 :: t[i] == t[1..][i - 1];
      Text.LowerChar(t[0]) == 'u' && AllDigits(t[1..])
  }

  lemma {:induction false} AllDigitsMeans(s: string)
    ensures AllDigits(s) <==> forall i | 0 <= i < |s| :: IsDigit(s[i])
  {
    if s != [] {
      AllDigitsMeans(s[1..]);
      assert forall i | 1 <= i < |s| :: s[i] == s[1..][i - 1];
    }
  }

  /** White space around a reply never changes whether it is accepted. */
  lemma PatternIgnoresSurroundingWhitespace(w1: string, s: string, w2: string)
    requires Text.AllWhitespace(w1) && Text.AllWhitespace(w2)
    ensures CheckPattern(w1 + s + w2) == CheckPattern(s)
  {
    Text.TrimIgnoresSurroundingWhitespace(w1, s, w2);
  }

  /** The letter may be written in either case. */
  lemma PatternIgnoresCase(digits: string)
    ensures CheckPattern("u" + digits) == CheckPattern("U" + digits)
  {
    TrimOfLetterFirst('u', digits);
    TrimOfLetterFirst('U', digits);
    var rest := if Text.AllWhitespace(digits) then [] else Text.TrimEnd(digits);
    assert Text.Trim("u" + digits) == ['u'] + rest;
    assert Text.Trim("U" + digits) == ['U'] + rest;
    LetterCase(rest);
  }

  /** Only the first character of a uNID is a letter, and its case is free. */
  lemma LetterCase(rest: string)
    ensures IsStudentId(['u'] + rest) == IsStudentId(['U'] + rest)
  {
    var lower, upper := ['u'] + rest, ['U'] + rest;
    assert forall i | 1 <= i < |lower| :: lower[i] == upper[i];
  }

  /** Trimming text that starts with a letter only touches its end. */
  lemma TrimOfLetterFirst(c: char, s: string)
    requires !Text.IsWhitespace(c)
    ensures Text.TrimStart([c] + s) == [c] + s
    ensures Text.Trim([c] + s) == (if Text.AllWhitespace(s) then [c] else [c] + Text.TrimEnd(s))
  {
    TrimEndAfterLetter(c, s);
  }

  lemma {:induction false} TrimEndAfterLetter(c: char, s: string)
    requires !Text.IsWhitespace(c)
    ensures Text.TrimEnd([c] + s) == (if Text.AllWhitespace(s) then [c] else [c] + Text.TrimEnd(s))
  {
    if s != [] && Text.IsWhitespace(s[|s| - 1]) {
      var init, t := s[..|s| - 1], [c] + s;
      assert t[..|t| - 1] == [c] + init;
      assert Text.TrimEnd(t) == Text.TrimEnd([c] + init);
      TrimEndAfterLetter(c, init);
      assert Text.AllWhitespace(s) <==> Text.AllWhitespace(init) by {
        assert forall i | 0 <= i < |init| :: init[i] == s[i];
      }
    } else if s != [] {
      assert !Text.AllWhitespace(s) by {
        assert !Text.IsWhitespace(s[|s| - 1]);
      }
    } else {
      assert [c] + s == [c];
    }
  }

  const MailDomain := "@umail.utah.edu"

  /** `convertToEmailAddress`: the ID followed by the student mail domain. */
  function ConvertToEmailAddress(studentId: string): (r: string)
    ensures Text.StartsWith(r, studentId) && Text.EndsWith(r, MailDomain)
    ensures |r| == |studentId| + |MailDomain|
  {
    studentId + MailDomain
  }

  /** The ID a student mail address was made from. */
  function StudentIdOf(address: string): string
    requires Text.EndsWith(address, MailDomain)
  {
    address[..|address| - |MailDomain|]
  }

  /** The address determines the ID it was made from. */
  lemma AddressRoundTrip(studentId: string)
    ensures StudentIdOf(ConvertToEmailAddress(studentId)) == studentId
  {
    assert (studentId + MailDomain)[..|studentId|] == studentId;
  }
}
