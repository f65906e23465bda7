/**
 * Foundation's `trimmingCharacters(in:)` for the two character sets the form
 * uses: `.whitespaces` (general category Zs and the tab) and
 * `.whitespacesAndNewlines` (that set, the line and paragraph separators,
 * U+000A to U+000D and U+0085). A string is a sequence of code points.
 */
module CharacterSets {

  datatype CharClass = Whitespaces | WhitespacesAndNewlines

  /** Unicode general category Zs. */
  predicate IsSpaceSeparator(c: char) {
    c == ' ' || c == '\U{00A0}' || c == '\U{1680}' || ('\U{2000}' <= c <= '\U{200A}')
    || c == '\U{202F}' || c == '\U{205F}' || c == '\U{3000}'
  }

  /** The characters `.whitespacesAndNewlines` adds to `.whitespaces`. */
  predicate IsNewline(c: char) {
    ('\n' <= c <= '\r') || c == '\U{0085}' || c == '\U{2028}' || c == '\U{2029}'
  }

  predicate InClass(c: char, k: CharClass) {
    match k
    case Whitespaces => c == '\t' || IsSpaceSeparator(c)
    case WhitespacesAndNewlines => c == '\t' || IsSpaceSeparator(c) || IsNewline(c)
  }

  /** Drops the leading characters of class `k`. */
  function TrimStart(s: string, k: CharClass): string
    decreases |s|
  {
    if |s| > 0 && InClass(s[0], k) then TrimStart(s[1..], k) else s
  }

  /** Drops the trailing characters of class `k`. */
  function TrimEnd(s: string, k: CharClass): string
    decreases |s|
  {
    if |s| > 0 && InClass(s[|s| - 1], k) then TrimEnd(s[..|s| - 1], k) else s
  }

  /** `s.trimmingCharacters(in: k)`. */
  function Trim(s: string, k: CharClass): string {
    TrimEnd(TrimStart(s, k), k)
  }

  /** What `TrimStart` leaves is the suffix of `s` after its leading run of class `k`. */
  lemma {:induction false} TrimStartShape(s: string, k: CharClass)
    ensures |TrimStart(s, k)| <= |s| && TrimStart(s, k) == s[|s| - |TrimStart(s, k)|..]
    ensures forall i :: 0 <= i < |s| - |TrimStart(s, k)| ==> InClass(s[i], k)
    ensures TrimStart(s, k) != [] ==> !InClass(TrimStart(s, k)[0], k)
    decreases |s|
  {
    if |s| > 0 && InClass(s[0], k) {
      TrimStartShape(s[1..], k);
      var r := TrimStart(s, k);
      assert s[1..][|s| - 1 - |r|..] == s[|s| - |r|..];
      forall i | 0 <= i < |s| - |r|
        ensures InClass(s[i], k)
      {
        if i > 0 { assert s[i] == s[1..][i - 1]; }
      }
    }
  }

  /** What `TrimEnd` leaves is the prefix of `s` before its trailing run of class `k`. */
  lemma {:induction false} TrimEndShape(s: string, k: CharClass)
    ensures |TrimEnd(s, k)| <= |s| && TrimEnd(s, k) == s[..|TrimEnd(s, k)|]
    ensures forall i :: |TrimEnd(s, k)| <= i < |s| ==> InClass(s[i], k)
    ensures TrimEnd(s, k) != [] ==> !InClass(TrimEnd(s, k)[|TrimEnd(s, k)| - 1], k)
    decreases |s|
  {
    if |s| > 0 && InClass(s[|s| - 1], k) {
      TrimEndShape(s[..|s| - 1], k);
      var r := TrimEnd(s, k);
      assert s[..|s| - 1][..|r|] == s[..|r|];
      forall i | |r| <= i < |s|
        ensures InClass(s[i], k)
      {
        if i < |s| - 1 { assert s[i] == s[..|s| - 1][i]; }
      }
    }
  }

  /** The trimmed string starts and ends outside class `k`, and is empty exactly when all of `s` is in `k`. */
  lemma TrimShape(s: string, k: CharClass)
    ensures |Trim(s, k)| <= |s|
    ensures Trim(s, k) != [] ==> !InClass(Trim(s, k)[0], k) && !InClass(Trim(s, k)[|Trim(s, k)| - 1], k)
    ensures Trim(s, k) == [] <==> forall i :: 0 <= i < |s| ==> InClass(s[i], k)
  {
    var t := TrimStart(s, k);
    var r := Trim(s, k);
    TrimStartShape(s, k);
    TrimEndShape(t, k);
    if r != [] {
      assert r[0] == t[0];
    }
    if r != [] {
      assert s[|s| - |t|] == r[0];
    }
  }

  /** Every character of `.whitespaces` is in `.whitespacesAndNewlines`. */
  lemma WhitespacesIncluded(c: char)
    ensures InClass(c, Whitespaces) ==> InClass(c, WhitespacesAndNewlines)
    ensures InClass(c, WhitespacesAndNewlines) && !IsNewline(c) ==> InClass(c, Whitespaces)
  {
  }

  lemma {:induction false} TrimStartAgrees(s: string)
    requires forall i :: 0 <= i < |s| ==> !IsNewline(s[i])
    ensures TrimStart(s, Whitespaces) == TrimStart(s, WhitespacesAndNewlines)
    decreases |s|
  {
    if |s| > 0 {
      WhitespacesIncluded(s[0]);
      if InClass(s[0], Whitespaces) {
        TrimStartAgrees(s[1..]);
      }
    }
  }

  lemma {:induction false} TrimEndAgrees(s: string)
    requires forall i :: 0 <= i < |s| ==> !IsNewline(s[i])
    ensures TrimEnd(s, Whitespaces) == TrimEnd(s, WhitespacesAndNewlines)
    decreases |s|
  {
    if |s| > 0 {
      WhitespacesIncluded(s[|s| - 1]);
      if InClass(s[|s| - 1], Whitespaces) {
        TrimEndAgrees(s[..|s| - 1]);
      }
    }
  }

  /** Without line-break characters the two trims give the same string. */
  lemma TrimsAgreeWithoutNewlines(s: string)
    requires forall i :: 0 <= i < |s| ==> !IsNewline(s[i])
    ensures Trim(s, Whitespaces) == Trim(s, WhitespacesAndNewlines)
  {
    TrimStartAgrees(s);
    TrimStartShape(s, Whitespaces);
    var t := TrimStart(s, Whitespaces);
    assert forall i :: 0 <= i < |t| ==> t[i] == s[|s| - |t| + i];
    TrimEndAgrees(t);
  }

  lemma {:induction false} WiderTrimStartIsShorter(s: string)
    ensures TrimStart(s, WhitespacesAndNewlines) == TrimStart(TrimStart(s, Whitespaces), WhitespacesAndNewlines)
    decreases |s|
  {
    if |s| > 0 && InClass(s[0], Whitespaces) {
      WhitespacesIncluded(s[0]);
      WiderTrimStartIsShorter(s[1..]);
    }
  }

  /** Trimming the end of a suffix leaves no more than trimming the end of the whole. */
  lemma EndTrimOfSuffix(v: string, d: nat, k: CharClass)
    requires d <= |v|
    ensures |TrimEnd(v[d..], k)| <= |TrimEnd(v, k)|
  {
    var r := TrimEnd(v[d..], k);
    TrimEndShape(v[d..], k);
    TrimEndShape(v, k);
    if r != [] {
      assert r[|r| - 1] == v[d + |r| - 1];
    }
  }

  /** The wider class trims at least as much off the end. */
  lemma WiderEndTrim(x: string)
    ensures |TrimEnd(x, WhitespacesAndNewlines)| <= |TrimEnd(x, Whitespaces)|
  {
    var r := TrimEnd(x, WhitespacesAndNewlines);
    TrimEndShape(x, WhitespacesAndNewlines);
    TrimEndShape(x, Whitespaces);
    if r != [] {
      assert r[|r| - 1] == x[|r| - 1];
      WhitespacesIncluded(x[|r| - 1]);
    }
  }

  /**
   * Trimming whitespace and newlines never leaves more than trimming
   * whitespace alone, and leaves something only if the narrower trim does.
   */
  lemma WiderTrimIsShorter(s: string)
    ensures |Trim(s, WhitespacesAndNewlines)| <= |Trim(s, Whitespaces)|
    ensures Trim(s, WhitespacesAndNewlines) != [] ==> Trim(s, Whitespaces) != []
  {
    var t := TrimStart(s, Whitespaces);
    var w := TrimStart(s, WhitespacesAndNewlines);
    WiderTrimStartIsShorter(s);
    TrimStartShape(t, WhitespacesAndNewlines);
    assert w == t[|t| - |w|..];
    EndTrimOfSuffix(t, |t| - |w|, WhitespacesAndNewlines);
    WiderEndTrim(t);
    TrimShape(s, WhitespacesAndNewlines);
    TrimShape(s, Whitespaces);
    if Trim(s, WhitespacesAndNewlines) != [] {
      assert exists i :: 0 <= i < |s| && !InClass(s[i], WhitespacesAndNewlines);
      var i :| 0 <= i < |s| && !InClass(s[i], WhitespacesAndNewlines);
      WhitespacesIncluded(s[i]);
    }
  }

  /** A trailing line feed: kept by the whitespace trim, removed by the wider one. */
  lemma TrailingLineFeedTrims()
    ensures Trim("abc\n", Whitespaces) == "abc\n"
    ensures Trim("abc\n", WhitespacesAndNewlines) == "abc"
  {
    var t := "abc\n";
    assert !InClass('a', Whitespaces) && !InClass('\n', Whitespaces);
    assert TrimStart(t, Whitespaces) == t;
    assert TrimEnd(t, Whitespaces) == t;
    assert !InClass('a', WhitespacesAndNewlines) && !InClass('c', WhitespacesAndNewlines);
    assert TrimStart(t, WhitespacesAndNewlines) == t;
    assert t[..3] == "abc";
    assert TrimEnd("abc", WhitespacesAndNewlines) == "abc";
  }
}
