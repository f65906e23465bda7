/** Helpers shared by the screens: random identifiers for saved requests. */
module Utils {

  const Lowercase: string := "abcdefghijklmnopqrstuvwxyz"
  const Uppercase: string := "ABCDEFGHIJKLMNOPQRSTUVWXYZ"
  const Digits: string := "0123456789"

  /** The alphabet request identifiers are drawn from, a-z then A-Z then 0-9. */
  const Alphanumerics: string := Lowercase + Uppercase + Digits

  /** The length used when no length is given. */
  const DefaultLength: nat := 10

  predicate IsAsciiAlphanumeric(c: char) {
    ('a' <= c <= 'z') || ('A' <= c <= 'Z') || ('0' <= c <= '9')
  }

  /** The alphabet has 62 characters, each an ASCII letter or digit. */
  lemma AlphabetIsAsciiAlphanumerics(c: char)
    requires c in Alphanumerics
    ensures |Alphanumerics| == 62
    ensures IsAsciiAlphanumeric(c)
  {
    if c in Lowercase {
      var i :| 0 <= i < |Lowercase| && Lowercase[i] == c;
    } else if c in Uppercase {
      var i :| 0 <= i < |Uppercase| && Uppercase[i] == c;
    } else {
      var i :| 0 <= i < |Digits| && Digits[i] == c;
    }
  }

  /**
   * `randomAlphanumeric(length:)`: `length` picks from the alphabet, each an
   * arbitrary one. The alphabet is not empty, so no pick is lost; a negative
   * length is a range error in the source and is excluded here.
   */
  method RandomAlphanumeric(length: int) returns (s: string)
    requires length >= 0
    ensures |s| == length
    ensures forall i :: 0 <= i < |s| ==> s[i] in Alphanumerics
  {
    s := [];
    while |s| < length
      invariant |s| <= length
      invariant forall i :: 0 <= i < |s| ==> s[i] in Alphanumerics
    {
      assert Alphanumerics[0] in Alphanumerics;
      var c :| c in Alphanumerics;
      s := s + [c];
    }
  }

  /** An identifier of the default length is ten letters and digits. */
  method DefaultIdentifier() returns (s: string)
    ensures |s| == DefaultLength
    ensures forall i :: 0 <= i < |s| ==> IsAsciiAlphanumeric(s[i])
  {
    s := RandomAlphanumeric(DefaultLength);
    forall i | 0 <= i < |s|
      ensures IsAsciiAlphanumeric(s[i])
    {
      AlphabetIsAsciiAlphanumerics(s[i]);
    }
  }
}
