/**
 * Whitespace trimming as done by Python's `str.strip()` with no argument:
 * leading and trailing characters for which `str.isspace()` holds are removed.
 * The functions carry no contracts of their own; what they compute is stated
 * by the lemmas below them.
 */
module Text {

  /** The characters for which Python's `str.isspace()` holds. */
  const Whitespace: set<char> := {
    '\t', '\n', '\U{0B}', '\U{0C}', '\r', '\U{1C}', '\U{1D}', '\U{1E}', '\U{1F}', ' ',
    '\U{85}', '\U{A0}', '\U{1680}', '\U{2000}', '\U{2001}', '\U{2002}', '\U{2003}',
    '\U{2004}', '\U{2005}', '\U{2006}', '\U{2007}', '\U{2008}', '\U{2009}', '\U{200A}',
    '\U{2028}', '\U{2029}', '\U{202F}', '\U{205F}', '\U{3000}'
  }

  predicate IsSpace(c: char) {
    c in Whitespace
  }

  predicate AllSpace(s: string) {
    forall k :: 0 <= k < |s| ==> IsSpace(s[k])
  }

  /** Neither the first nor the last character of `s` is whitespace. */
  predicate NoOuterSpace(s: string) {
    s == [] || (!IsSpace(s[0]) && !IsSpace(s[|s| - 1]))
  }

  /** `str.lstrip()`: drops the leading whitespace. */
  function TrimStart(s: string): string
  {
    if s != [] && IsSpace(s[0]) then TrimStart(s[1..]) else s
  }

  /** `str.rstrip()`: drops the trailing whitespace. */
  function TrimEnd(s: string): string
  {
    if s != [] && IsSpace(s[|s| - 1]) then TrimEnd(s[..|s| - 1]) else s
  }

  /** `str.strip()`: whitespace cut off on both sides. */
  function Strip(s: string): string
  {
    TrimEnd(TrimStart(s))
  }

  /** What `TrimStart` drops is all whitespace, what it keeps is a suffix that starts with no whitespace. */
  lemma {:induction false} TrimStartShape(s: string)
    ensures var r := TrimStart(s);
      && |r| <= |s| && r == s[|s| - |r|..]
      && AllSpace(s[..|s| - |r|])
      && (r == [] || !IsSpace(r[0]))
  {
    if s != [] && IsSpace(s[0]) {
      TrimStartShape(s[1..]);
      var r := TrimStart(s[1..]);
      assert s[..|s| - |r|] == [s[0]] + s[1..][..|s| - 1 - |r|];
    }
  }

  /** What `TrimEnd` drops is all whitespace, what it keeps is a prefix that ends with no whitespace. */
  lemma {:induction false} TrimEndShape(s: string)
    ensures var r := TrimEnd(s);
      && |r| <= |s| && r == s[..|r|]
      && AllSpace(s[|r|..])
      && (r == [] || !IsSpace(r[|r| - 1]))
  {
    if s != [] && IsSpace(s[|s| - 1]) {
      TrimEndShape(s[..|s| - 1]);
      var r := TrimEnd(s[..|s| - 1]);
      assert s[|r|..] == s[..|s| - 1][|r|..] + [s[|s| - 1]];
    }
  }

  /** A stripped string has no whitespace at either end. */
  lemma StripHasNoOuterSpace(s: string)
    ensures NoOuterSpace(Strip(s))
  {
    var t := TrimStart(s);
    TrimStartShape(s);
    TrimEndShape(t);
    var r := TrimEnd(t);
    assert r == [] || r[0] == t[0];
  }

  /**
   * The result of `Strip` is the infix of `s` that is left once the
   * whitespace on either side is cut off.
   */
  lemma StripIsInfix(s: string)
    ensures |TrimStart(s)| <= |s|
    ensures var i := |s| - |TrimStart(s)|;
      var r := Strip(s);
      && i + |r| <= |s|
      && r == s[i..i + |r|]
      && AllSpace(s[..i])
      && AllSpace(s[i + |r|..])
  {
    var t := TrimStart(s);
    TrimStartShape(s);
    TrimEndShape(t);
    var r := TrimEnd(t);
    assert t[|r|..] == s[|s| - |t| + |r|..];
  }

  /** `TrimStart` stops exactly at the first non-whitespace character. */
  lemma {:induction false} TrimStartStopsAt(s: string, i: nat)
    requires i <= |s| && AllSpace(s[..i])
    requires i == |s| || !IsSpace(s[i])
    ensures TrimStart(s) == s[i..]
  {
    if i > 0 {
      assert IsSpace(s[0]) by { assert s[0] == s[..i][0]; }
      assert s[1..][..i - 1] == s[..i][1..];
      TrimStartStopsAt(s[1..], i - 1);
      assert s[1..][i - 1..] == s[i..];
    }
  }

  /** `TrimEnd` stops exactly after the last non-whitespace character. */
  lemma {:induction false} TrimEndStopsAt(s: string, j: nat)
    requires j <= |s| && AllSpace(s[j..])
    requires j == 0 || !IsSpace(s[j - 1])
    ensures TrimEnd(s) == s[..j]
    decreases |s| - j
  {
    if j < |s| {
      assert IsSpace(s[|s| - 1]) by { assert s[|s| - 1] == s[j..][|s| - 1 - j]; }
      var p := s[..|s| - 1];
      assert p[j..] == s[j..][..|s| - 1 - j];
      assert j == 0 || p[j - 1] == s[j - 1];
      TrimEndStopsAt(p, j);
      assert p[..j] == s[..j];
    }
  }

  /**
   * The result of `Strip` is the only infix of `s` that has whitespace only
   * around it and no whitespace at either end.
   */
  lemma StripUnique(s: string, i: nat, j: nat)
    requires i <= j <= |s|
    requires AllSpace(s[..i]) && AllSpace(s[j..])
    requires NoOuterSpace(s[i..j])
    ensures Strip(s) == s[i..j]
  {
    if i < j {
      StripNonEmpty(s, i, j);
    } else {
      assert s == s[..i] + s[j..];
      AllSpaceAppend(s[..i], s[j..]);
      assert s[..|s|] == s;
      TrimStartStopsAt(s, |s|);
    }
  }

  lemma StripNonEmpty(s: string, i: nat, j: nat)
    requires i < j <= |s|
    requires AllSpace(s[..i]) && AllSpace(s[j..])
    requires NoOuterSpace(s[i..j])
    ensures Strip(s) == s[i..j]
  {
    var t := s[i..];
    assert !IsSpace(s[i]) by { assert s[i] == s[i..j][0]; }
    TrimStartStopsAt(s, i);
    assert t[j - i..] == s[j..];
    assert !IsSpace(t[j - i - 1]) by { assert t[j - i - 1] == s[i..j][j - i - 1]; }
    TrimEndStopsAt(t, j - i);
    assert t[..j - i] == s[i..j];
  }

  lemma AllSpaceAppend(s: string, t: string)
    requires AllSpace(s) && AllSpace(t)
    ensures AllSpace(s + t)
  {
  }

  /** Stripping twice is stripping once. */
  lemma StripIdempotent(s: string)
    ensures Strip(Strip(s)) == Strip(s)
  {
    var r := Strip(s);
    StripHasNoOuterSpace(s);
    assert r[0..|r|] == r;
    StripUnique(r, 0, |r|);
  }

  /** A string with no whitespace at either end is left as it is. */
  lemma StripKeepsTrimmed(s: string)
    requires NoOuterSpace(s)
    ensures Strip(s) == s
  {
    assert s[..0] == [] && s[|s|..] == [] && s[0..|s|] == s;
    StripUnique(s, 0, |s|);
  }
}
