/**
 * The phone segment of the WhatsApp invite link built by `handleWhatsAppInvite`
 * (app/components/CandidateEvaluationForm.tsx:138-157).
 *
 * The code tests for a leading '+' on the mobile number as typed, strips all
 * whitespace, puts a '+' in front when the test failed, and finally drops the
 * first '+' for the link. `PhoneSegmentAsWritten` follows that order;
 * `PhoneSegment` drops a leading '+' of the number once whitespace is gone,
 * which is what the code does for every number that does not begin with
 * whitespace (see `SegmentsAgreeWithoutLeadingWhitespace`).
 */
module Invite {

  /** A character matched by `\s` in a JavaScript regular expression. */
  predicate IsWhitespace(c: char) {
    var n := c as int;
    (0x09 <= n <= 0x0D) || n == 0x20 || n == 0xA0 || n == 0x1680 || (0x2000 <= n <= 0x200A)
    || n == 0x2028 || n == 0x2029 || n == 0x202F || n == 0x205F || n == 0x3000 || n == 0xFEFF
  }

  predicate NoWhitespace(s: string) {
    forall i :: 0 <= i < |s| ==> !IsWhitespace(s[i])
  }

  /** `s.replace(/\s+/g, '')`. */
  function RemoveWhitespace(s: string): (r: string)
    ensures |r| <= |s|
  {
    if s == [] then []
    else if IsWhitespace(s[0]) then RemoveWhitespace(s[1..])
    else [s[0]] + RemoveWhitespace(s[1..])
  }

  /**
   * Stripping leaves no whitespace, leaves a string without whitespace as it
   * is, keeps the first character when that is not whitespace, and on a
   * single character deletes it exactly when it is whitespace.
   */
  lemma {:induction false} RemoveWhitespaceSpec(s: string)
    ensures NoWhitespace(RemoveWhitespace(s))
    ensures |s| == 1 ==> RemoveWhitespace(s) == (if IsWhitespace(s[0]) then [] else s)
    ensures NoWhitespace(s) ==> RemoveWhitespace(s) == s
    ensures s != [] && !IsWhitespace(s[0]) ==> RemoveWhitespace(s)[0] == s[0]
  {
    if s != [] {
      RemoveWhitespaceSpec(s[1..]);
      if !IsWhitespace(s[0]) {
        var r := [s[0]] + RemoveWhitespace(s[1..]);
        assert forall i :: 1 <= i < |r| ==> r[i] == RemoveWhitespace(s[1..])[i - 1];
        if NoWhitespace(s) {
          assert NoWhitespace(s[1..]) by {
            forall i | 0 <= i < |s| - 1 ensures !IsWhitespace(s[1..][i]) {
              assert s[1..][i] == s[i + 1];
            }
          }
          assert s == [s[0]] + s[1..];
        }
      }
    }
  }

  /**
   * Stripping works character by character: the characters kept are those
   * of each part, in order. With the single-character case of
   * `RemoveWhitespaceSpec` this determines `RemoveWhitespace` completely.
   */
  lemma {:induction false} RemoveWhitespaceAppend(a: string, b: string)
    ensures RemoveWhitespace(a + b) == RemoveWhitespace(a) + RemoveWhitespace(b)
  {
    if a != [] {
      assert (a + b)[1..] == a[1..] + b;
      RemoveWhitespaceAppend(a[1..], b);
    } else {
      assert a + b == b;
    }
  }

  /** `formattedMobile` at line 145: always begins with a '+'. */
  function FormattedMobile(mobile: string): (formatted: string)
    ensures |formatted| > 0 && formatted[0] == '+'
    ensures formatted == RemoveWhitespace(mobile) || formatted == "+" + RemoveWhitespace(mobile)
  {
    RemoveWhitespaceSpec(mobile);
    if |mobile| > 0 && mobile[0] == '+' then RemoveWhitespace(mobile) else "+" + RemoveWhitespace(mobile)
  }

  /** `s.replace('+', '')`: a string pattern replaces only its first occurrence. */
  function RemoveFirstPlus(s: string): (r: string)
    ensures '+' !in s ==> r == s
    ensures '+' in s ==> |r| == |s| - 1
    ensures |s| > 0 && s[0] == '+' ==> r == s[1..]
  {
    if s == [] then []
    else if s[0] == '+' then s[1..]
    else [s[0]] + RemoveFirstPlus(s[1..])
  }

  /** The phone segment exactly as line 156 computes it. */
  function PhoneSegmentAsWritten(mobile: string): (segment: string)
    ensures NoWhitespace(segment)
    ensures segment == RemoveWhitespace(mobile) || "+" + segment == RemoveWhitespace(mobile)
  {
    RemoveWhitespaceSpec(mobile);
    RemoveFirstPlus(FormattedMobile(mobile))
  }

  /** The phone segment: whitespace removed, then one leading '+' dropped. */
  function PhoneSegment(mobile: string): (segment: string)
    ensures NoWhitespace(segment)
    ensures RemoveWhitespace(mobile) == (if |RemoveWhitespace(mobile)| > 0 && RemoveWhitespace(mobile)[0] == '+' then "+" + segment else segment)
  {
    var stripped := RemoveWhitespace(mobile);
    RemoveWhitespaceSpec(mobile);
    if |stripped| > 0 && stripped[0] == '+' then
      assert stripped == "+" + stripped[1..];
      stripped[1..]
    else stripped
  }

  /**
   * What the code computes: the stripped number, minus its first character
   * when the number as typed begins with '+'.
   */
  lemma AsWrittenCharacterisation(mobile: string)
    ensures PhoneSegmentAsWritten(mobile) ==
      if |mobile| > 0 && mobile[0] == '+' then RemoveWhitespace(mobile)[1..] else RemoveWhitespace(mobile)
  {
  }

  /** For a number that does not begin with whitespace, both computations agree. */
  lemma SegmentsAgreeWithoutLeadingWhitespace(mobile: string)
    requires mobile == [] || !IsWhitespace(mobile[0])
    ensures PhoneSegmentAsWritten(mobile) == PhoneSegment(mobile)
  {
  }

  /** A number typed with a space before its '+' keeps the '+' in the link. */
  lemma LeadingSpaceKeepsPlus()
    ensures PhoneSegmentAsWritten(" +971 50") == "+97150"
    ensures PhoneSegment(" +971 50") == "97150"
  {
  }

  /** What the invite button does. */
  datatype InviteOutcome = Refused | Opened(phone: string)
}
