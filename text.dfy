/**
 * The JavaScript string operations the components rely on:
 * `String.prototype.trim`, `toUpperCase` and `toLowerCase`.
 */
module Text {

  /**
   * The characters `trim` removes: ECMAScript WhiteSpace (tab, vertical tab,
   * form feed, the byte-order mark and every space separator) and
   * LineTerminator (line feed, carriage return, line and paragraph separator).
   */
  predicate IsWhitespace(c: char): (b: bool)
    ensures b ==> !('0' <= c <= '9') && !('A' <= c <= 'Z') && !('a' <= c <= 'z')
  {
    c == '\t' || c == '\n' || c == '\U{B}' || c == '\U{C}' || c == '\r' ||
    c == ' ' || c == '\U{A0}' || c == '\U{1680}' || ('\U{2000}' <= c <= '\U{200A}') ||
    c == '\U{2028}' || c == '\U{2029}' || c == '\U{202F}' || c == '\U{205F}' ||
    c == '\U{3000}' || c == '\U{FEFF}'
  }

  predicate AllWhitespace(s: string) {
    forall i :: 0 <= i < |s| ==> IsWhitespace(s[i])
  }

  /** `s` with its leading whitespace removed. */
  function TrimStart(s: string): (r: string)
    ensures |r| <= |s| && r == s[|s| - |r|..]
    ensures AllWhitespace(s[..|s| - |r|])
    ensures r != [] ==> !IsWhitespace(r[0])
  {
    if s != [] && IsWhitespace(s[0]) then
      var r := TrimStart(s[1..]);
      assert s[..|s| - |r|] == [s[0]] + s[1..][..|s| - 1 - |r|];
      r
    else
      s
  }

  /** `s` with its trailing whitespace removed. */
  function TrimEnd(s: string): (r: string)
    ensures |r| <= |s| && r == s[..|r|]
    ensures AllWhitespace(s[|r|..])
    ensures r != [] ==> !IsWhitespace(r[|r| - 1])
  {
    if s != [] && IsWhitespace(s[|s| - 1]) then
      var r := TrimEnd(s[..|s| - 1]);
      assert s[|r|..] == s[..|s| - 1][|r|..] + [s[|s| - 1]];
      r
    else
      s
  }

  /** `String.prototype.trim`: leading and trailing whitespace removed. */
  function Trim(s: string): (r: string)
    ensures |r| <= |s|
    ensures r != [] ==> !IsWhitespace(r[0]) && !IsWhitespace(r[|r| - 1])
  {
    TrimStart(TrimEnd(s))
  }

  /** What `trim` keeps is one piece of `s` with only whitespace around it. */
  lemma TrimKeepsMiddle(s: string)
    ensures var r := Trim(s);
            exists k :: 0 <= k <= |s| - |r| && s[k..k + |r|] == r &&
                        AllWhitespace(s[..k]) && AllWhitespace(s[k + |r|..])
  {
    var e := TrimEnd(s);
    var r := TrimStart(e);
    assert Trim(s) == r;
    MiddleOf(s, e, r);
  }

  /** `r` is a suffix of `e` after whitespace, and `e` a prefix of `s` before whitespace. */
  lemma MiddleOf(s: string, e: string, r: string)
    requires |e| <= |s| && e == s[..|e|] && AllWhitespace(s[|e|..])
    requires |r| <= |e| && r == e[|e| - |r|..] && AllWhitespace(e[..|e| - |r|])
    ensures var k := |e| - |r|;
            0 <= k <= |s| - |r| && s[k..k + |r|] == r &&
            AllWhitespace(s[..k]) && AllWhitespace(s[k + |r|..])
  {
    var k := |e| - |r|;
    assert s[k..k + |r|] == r;
    assert s[..k] == e[..k];
    assert k + |r| == |e|;
  }

  /** A string with no whitespace at either end is its own trim. */
  lemma TrimKeepsUnpadded(s: string)
    requires s != [] ==> !IsWhitespace(s[0]) && !IsWhitespace(s[|s| - 1])
    ensures Trim(s) == s
  {
    assert TrimEnd(s) == s;
    assert TrimStart(s) == s;
  }

  lemma {:induction false} TrimStartSkipsPrefix(w: string, s: string)
    requires AllWhitespace(w)
    ensures TrimStart(w + s) == TrimStart(s)
  {
    if w != [] {
      assert (w + s)[1..] == w[1..] + s;
      TrimStartSkipsPrefix(w[1..], s);
    } else {
      assert w + s == s;
    }
  }

  lemma {:induction false} TrimEndSkipsSuffix(s: string, w: string)
    requires AllWhitespace(w)
    ensures TrimEnd(s + w) == TrimEnd(s)
  {
    if w != [] {
      assert (s + w)[..|s + w| - 1] == s + w[..|w| - 1];
      TrimEndSkipsSuffix(s, w[..|w| - 1]);
    } else {
      assert s + w == s;
    }
  }

  /** Trailing trimming never reaches past a non-whitespace character. */
  lemma TrimEndKeepsPrefix(p: string, s: string)
    requires !AllWhitespace(s)
    ensures TrimEnd(p + s) == p + TrimEnd(s)
  {
    var r := TrimEnd(s);
    var w := s[|r|..];
    var i :| 0 <= i < |s| && !IsWhitespace(s[i]);
    forall j | |r| <= j < |s| ensures IsWhitespace(s[j]) {
      assert s[j] == w[j - |r|];
    }
    assert 0 <= i < |r|;
    assert p + s == (p + r) + w;
    TrimEndSkipsSuffix(p + r, w);
    assert (p + r)[|p + r| - 1] == r[|r| - 1];
  }

  /** A string of whitespace only trims to nothing, and only such a string does. */
  lemma TrimEndEmpty(s: string)
    ensures TrimEnd(s) == [] <==> AllWhitespace(s)
  {
  }

  /** Whitespace around a string does not change what `trim` returns. */
  lemma TrimIgnoresPadding(w1: string, s: string, w2: string)
    requires AllWhitespace(w1) && AllWhitespace(w2)
    ensures Trim(w1 + s + w2) == Trim(s)
  {
    TrimEndSkipsSuffix(w1 + s, w2);
    TrimEndEmpty(s);
    if AllWhitespace(s) {
      assert AllWhitespace(w1 + s);
      TrimEndEmpty(w1 + s);
    } else {
      TrimEndKeepsPrefix(w1, s);
      TrimStartSkipsPrefix(w1, TrimEnd(s));
    }
  }

  /** `toUpperCase` on one character (ASCII letters only). */
  function UpperChar(c: char): char {
    if 'a' <= c <= 'z' then (c as int - 32) as char else c
  }

  /** `toLowerCase` on one character (ASCII letters only). */
  function LowerChar(c: char): char {
    if 'A' <= c <= 'Z' then (c as int + 32) as char else c
  }

  /** Upper case keeps every character's case-folded identity and leaves no lower-case letter. */
  function ToUpper(s: string): (r: string)
    ensures |r| == |s|
    ensures forall i :: 0 <= i < |s| ==> LowerChar(r[i]) == LowerChar(s[i])
    ensures forall i :: 0 <= i < |s| ==> !('a' <= r[i] <= 'z')
  {
    seq(|s|, i requires 0 <= i < |s| => UpperChar(s[i]))
  }

  /** Lower case keeps every character's case-folded identity and leaves no upper-case letter. */
  function ToLower(s: string): (r: string)
    ensures |r| == |s|
    ensures forall i :: 0 <= i < |s| ==> UpperChar(r[i]) == UpperChar(s[i])
    ensures forall i :: 0 <= i < |s| ==> !('A' <= r[i] <= 'Z')
  {
    seq(|s|, i requires 0 <= i < |s| => LowerChar(s[i]))
  }

  /** `a` and `b` spell the same letters, ignoring case, in the same places. */
  predicate SameIgnoringCase(a: string, b: string) {
    |a| == |b| && forall i :: 0 <= i < |a| ==> LowerChar(a[i]) == LowerChar(b[i])
  }

  /** Comparing upper-cased strings is exactly comparing them ignoring case. */
  lemma UpperEqualIff(a: string, b: string)
    ensures ToUpper(a) == ToUpper(b) <==> SameIgnoringCase(a, b)
  {
    if SameIgnoringCase(a, b) {
      forall i | 0 <= i < |a| ensures ToUpper(a)[i] == ToUpper(b)[i] {
        assert LowerChar(a[i]) == LowerChar(b[i]);
      }
    }
    if ToUpper(a) == ToUpper(b) {
      forall i | 0 <= i < |a| ensures LowerChar(a[i]) == LowerChar(b[i]) {
        assert LowerChar(ToUpper(a)[i]) == LowerChar(ToUpper(b)[i]);
      }
    }
  }

  /** Comparing lower-cased strings is exactly comparing them ignoring case. */
  lemma LowerEqualIff(a: string, b: string)
    ensures ToLower(a) == ToLower(b) <==> SameIgnoringCase(a, b)
  {
    if ToLower(a) == ToLower(b) {
      forall i | 0 <= i < |a| ensures LowerChar(a[i]) == LowerChar(b[i]) {
        assert ToLower(a)[i] == ToLower(b)[i];
      }
    }
  }

  /** Upper-casing twice is upper-casing once. */
  lemma UpperIdempotent(s: string)
    ensures ToUpper(ToUpper(s)) == ToUpper(s)
  {
    forall i | 0 <= i < |s| ensures ToUpper(ToUpper(s))[i] == ToUpper(s)[i] {
      assert !('a' <= ToUpper(s)[i] <= 'z');
    }
  }

  /** Lower-casing twice is lower-casing once. */
  lemma LowerIdempotent(s: string)
    ensures ToLower(ToLower(s)) == ToLower(s)
  {
    forall i | 0 <= i < |s| ensures ToLower(ToLower(s))[i] == ToLower(s)[i] {
      assert !('A' <= ToLower(s)[i] <= 'Z');
    }
  }

  /** Lower-casing forgets a prior upper-casing. */
  lemma LowerOfUpper(s: string)
    ensures ToLower(ToUpper(s)) == ToLower(s)
  {
    forall i | 0 <= i < |s| ensures ToLower(ToUpper(s))[i] == ToLower(s)[i] {
      assert LowerChar(ToUpper(s)[i]) == LowerChar(s[i]);
    }
  }

  /** Characters other than ASCII letters pass through either case mapping. */
  lemma CaseKeepsNonLetters(s: string, i: int)
    requires 0 <= i < |s| && !('a' <= s[i] <= 'z') && !('A' <= s[i] <= 'Z')
    ensures ToUpper(s)[i] == s[i] && ToLower(s)[i] == s[i]
  {
    assert LowerChar(ToUpper(s)[i]) == s[i] && UpperChar(ToLower(s)[i]) == s[i];
  }

  /** Two strings are equal up to case whichever direction they are folded in. */
  lemma FoldingsAgree(a: string, b: string)
    ensures ToLower(a) == ToLower(b) <==> ToUpper(a) == ToUpper(b)
  {
    UpperEqualIff(a, b);
    LowerEqualIff(a, b);
  }

  /** Case folding never turns whitespace into text or text into whitespace. */
  lemma LowerKeepsWhitespace(c: char)
    ensures IsWhitespace(LowerChar(c)) == IsWhitespace(c)
  {
    if 'A' <= c <= 'Z' {
      assert !IsWhitespace(c) && !IsWhitespace(LowerChar(c));
    }
  }

  /** Lower-casing works character by character, so it commutes with slicing. */
  lemma LowerSlices(s: string, n: nat)
    requires n <= |s|
    ensures ToLower(s)[..n] == ToLower(s[..n]) && ToLower(s)[n..] == ToLower(s[n..])
    ensures n < |s| ==> ToLower(s)[n] == LowerChar(s[n])
  {
  }

  lemma {:induction false} TrimStartCommutesWithLower(s: string)
    ensures TrimStart(ToLower(s)) == ToLower(TrimStart(s))
  {
    if s != [] {
      LowerSlices(s, 0);
      LowerKeepsWhitespace(s[0]);
      if IsWhitespace(s[0]) {
        LowerSlices(s, 1);
        TrimStartCommutesWithLower(s[1..]);
      }
    }
  }

  lemma {:induction false} TrimEndCommutesWithLower(s: string)
    ensures TrimEnd(ToLower(s)) == ToLower(TrimEnd(s))
  {
    if s != [] {
      var n := |s| - 1;
      LowerSlices(s, n);
      LowerKeepsWhitespace(s[n]);
      if IsWhitespace(s[n]) {
        TrimEndCommutesWithLower(s[..n]);
      }
    }
  }

  lemma TrimCommutesWithLower(s: string)
    ensures Trim(ToLower(s)) == ToLower(Trim(s))
  {
    TrimEndCommutesWithLower(s);
    TrimStartCommutesWithLower(TrimEnd(s));
  }
}
