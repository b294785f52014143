/** The one checkable rule of the checkout address form: the phone field's pattern
    `^09(1|2|4|5)[0-9]{7}$`. The pattern has no repetition other than a fixed count
    and no alternation across lengths, so it is a fixed sequence of ten character
    classes, and an anchored match is a position-by-position test. */
module AddressForm {

  const DecimalDigits: set<char> := {'0', '1', '2', '3', '4', '5', '6', '7', '8', '9'}

  /** `09`, then one of `(1|2|4|5)`, then `[0-9]{7}`. */
  const PhonePattern: seq<set<char>> :=
    [{'0'}, {'9'}, {'1', '2', '4', '5'},
     DecimalDigits, DecimalDigits, DecimalDigits, DecimalDigits,
     DecimalDigits, DecimalDigits, DecimalDigits]

  /** Anchored match (`^` … `$`) of a sequence of character classes against `s`. */
  function MatchesClasses(pattern: seq<set<char>>, s: string): (ok: bool)
    ensures ok ==> |s| == |pattern|
    ensures ok && s != [] ==> s[0] in pattern[0]
  {
    if pattern == [] then s == []
    else s != [] && s[0] in pattern[0] && MatchesClasses(pattern[1..], s[1..])
  }

  /** A string matches a class sequence exactly when it has one character per
      class and each character is in its class. */
  lemma {:induction false} MatchesClassesIff(pattern: seq<set<char>>, s: string)
    ensures MatchesClasses(pattern, s) <==>
      |s| == |pattern| && forall i :: 0 <= i < |s| ==> s[i] in pattern[i]
  {
    if pattern != [] && s != [] {
      MatchesClassesIff(pattern[1..], s[1..]);
      if |s| == |pattern| && forall i :: 0 <= i < |s| ==> s[i] in pattern[i] {
        assert forall i :: 0 <= i < |s[1..]| ==> s[1..][i] in pattern[1..][i] by {
          forall i | 0 <= i < |s[1..]| ensures s[1..][i] in pattern[1..][i] {
            assert s[i + 1] in pattern[i + 1];
          }
        }
      }
      if MatchesClasses(pattern, s) {
        forall i | 0 <= i < |s| ensures s[i] in pattern[i] {
          if i > 0 {
            assert s[1..][i - 1] in pattern[1..][i - 1];
          }
        }
      }
    }
  }

  /** The phone check accepts exactly the ten-character strings that begin with
      `09`, continue with 1, 2, 4 or 5, and end in seven decimal digits. */
  function IsValidPhone(s: string): (ok: bool)
    ensures ok <==>
      && |s| == 10
      && s[..2] == "09"
      && s[2] in {'1', '2', '4', '5'}
      && forall i :: 3 <= i < 10 ==> '0' <= s[i] <= '9'
  {
    MatchesClassesIff(PhonePattern, s);
    assert |PhonePattern| == 10;
    assert forall i :: 3 <= i < 10 ==> PhonePattern[i] == DecimalDigits;
    assert |s| >= 2 ==> (s[..2] == "09" <==> s[0] == '0' && s[1] == '9');
    MatchesClasses(PhonePattern, s)
  }
}
