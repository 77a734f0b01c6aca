/** The few pieces of Python's string library the service relies on:
    `str.isspace`, `str.strip`, `str.split()` with no separator, and
    `str(int)` as used inside an f-string. */
module Text {
  import opened Wrappers

  /** The characters Python's `str.isspace` accepts, which are exactly the
      separators `str.split()` and `str.strip()` use when given no argument. */
  predicate IsSpace(c: char) {
    || ('\t' <= c <= '\r')
    || ('\U{1C}' <= c <= '\U{1F}')
    || c == ' '
    || c == '\U{85}'
    || c == '\U{A0}'
    || c == '\U{1680}'
    || ('\U{2000}' <= c <= '\U{200A}')
    || c == '\U{2028}'
    || c == '\U{2029}'
    || c == '\U{202F}'
    || c == '\U{205F}'
    || c == '\U{3000}'
  }

  predicate AllSpace(s: string) {
    forall i :: 0 <= i < |s| ==> IsSpace(s[i])
  }

  predicate StartsWith(s: string, prefix: string) {
    |prefix| <= |s| && s[..|prefix|] == prefix
  }

  predicate EndsWith(s: string, suffix: string) {
    |suffix| <= |s| && s[|s| - |suffix|..] == suffix
  }

  /** Length of the longest prefix of `s` whose characters are all
      whitespace (`space`) or all non-whitespace (`!space`). */
  function RunLength(s: string, space: bool): (n: nat)
    ensures n <= |s|
    ensures forall i :: 0 <= i < n ==> IsSpace(s[i]) == space
    ensures n < |s| ==> IsSpace(s[n]) != space
  {
    if |s| == 0 || IsSpace(s[0]) != space then 0 else 1 + RunLength(s[1..], space)
  }

  /** Number of whitespace characters at the end of `s`. */
  function TrailingSpaces(s: string): (n: nat)
    ensures n <= |s|
    ensures forall i :: |s| - n <= i < |s| ==> IsSpace(s[i])
    ensures n < |s| ==> !IsSpace(s[|s| - n - 1])
  {
    if |s| == 0 || !IsSpace(s[|s| - 1]) then 0 else 1 + TrailingSpaces(s[..|s| - 1])
  }

  /** `str.lstrip()`: drops the leading whitespace and nothing else. */
  function TrimLeft(s: string): (r: string)
    ensures r == [] || !IsSpace(r[0])
    ensures r == [] <==> AllSpace(s)
  {
    s[RunLength(s, true)..]
  }

  /** `str.rstrip()`: drops the trailing whitespace and nothing else. */
  function TrimRight(s: string): (r: string)
    ensures |r| <= |s| && r == s[..|r|]
    ensures r == [] || !IsSpace(r[|r| - 1])
    ensures AllSpace(s[|r|..])
    ensures r == [] <==> AllSpace(s)
  {
    var r := s[..|s| - TrailingSpaces(s)];
    assert forall i :: 0 <= i < |s| - |r| ==> s[|r|..][i] == s[|r| + i];
    r
  }

  /** `str.strip()`. */
  function Strip(s: string): (r: string)
    ensures |r| <= |s|
    ensures r == [] <==> AllSpace(s)
    ensures r != [] ==> !IsSpace(r[0]) && !IsSpace(r[|r| - 1])
  {
    var t := TrimLeft(s);
    TrimRight(t)
  }

  /** `lstrip` removes exactly a whitespace prefix: what is left is the rest
      of the input, unchanged. */
  lemma TrimLeftDropsSpace(s: string)
    ensures var r := TrimLeft(s);
      |r| <= |s| && r == s[|s| - |r|..] && AllSpace(s[..|s| - |r|])
  {
  }

  /** `r` is `s` with some whitespace removed from its two ends and its
      middle kept as it was. */
  predicate StrippedFrom(r: string, s: string) {
    exists i :: 0 <= i <= |s| - |r| && s[i..i + |r|] == r && AllSpace(s[..i]) && AllSpace(s[i + |r|..])
  }

  /** `strip()` keeps the middle of the input and removes only whitespace. */
  lemma StripKeepsMiddle(s: string)
    ensures StrippedFrom(Strip(s), s)
  {
    var t := TrimLeft(s);
    var r := Strip(s);
    TrimLeftDropsSpace(s);
    var i := |s| - |t|;
    assert s[i..i + |r|] == r;
    assert s[i + |r|..] == t[|r|..];
  }

  /** The first index of `s` whose character is not whitespace, when every
      character before it is. */
  lemma FirstVisibleIndex(s: string, i: nat)
    requires i < |s| && AllSpace(s[..i]) && !IsSpace(s[i])
    ensures TrimLeft(s) == s[i..]
  {
    assert i == RunLength(s, true);
  }

  /** The mirror of `FirstVisibleIndex` for the end of `s`. */
  lemma LastVisibleEnd(s: string, e: nat)
    requires 0 < e <= |s| && AllSpace(s[e..]) && !IsSpace(s[e - 1])
    ensures TrimRight(s) == s[..e]
  {
    assert e == |s| - TrailingSpaces(s);
  }

  lemma AllSpaceJoin(s: string, i: nat)
    requires i <= |s| && AllSpace(s[..i]) && AllSpace(s[i..])
    ensures AllSpace(s)
  {
    assert s == s[..i] + s[i..];
  }

  /** `StripUnique` with the position of the kept middle given. */
  lemma StripUniqueAt(s: string, i: nat, r: string)
    requires i + |r| <= |s| && s[i..i + |r|] == r && AllSpace(s[..i]) && AllSpace(s[i + |r|..])
    requires r != [] ==> !IsSpace(r[0]) && !IsSpace(r[|r| - 1])
    ensures r == Strip(s)
  {
    if r == [] {
      AllSpaceJoin(s, i);
    } else {
      assert s[i] == r[0];
      FirstVisibleIndex(s, i);
      var t := s[i..];
      assert t[..|r|] == r && t[|r|..] == s[i + |r|..];
      LastVisibleEnd(t, |r|);
    }
  }

  /** `strip()` is the only way to remove end whitespace that leaves no
      whitespace at either end: any such result is the stripped string. */
  lemma StripUnique(s: string, r: string)
    requires StrippedFrom(r, s)
    requires r != [] ==> !IsSpace(r[0]) && !IsSpace(r[|r| - 1])
    ensures r == Strip(s)
  {
    var i :| 0 <= i <= |s| - |r| && s[i..i + |r|] == r && AllSpace(s[..i]) && AllSpace(s[i + |r|..]);
    StripUniqueAt(s, i, r);
  }

  /** Stripping twice is stripping once. */
  lemma StripIdempotent(s: string)
    ensures Strip(Strip(s)) == Strip(s)
  {
    var r := Strip(s);
    if r != [] {
      assert RunLength(r, true) == 0;
      assert TrimLeft(r) == r;
      assert TrailingSpaces(r) == 0;
    }
  }

  lemma {:induction false} TrailingSpacesAppend(x: string, pad: string)
    requires AllSpace(pad)
    ensures TrailingSpaces(x + pad) == TrailingSpaces(x) + |pad|
    decreases |pad|
  {
    if pad == [] {
      assert x + pad == x;
    } else {
      var p := pad[..|pad| - 1];
      assert (x + pad)[..|x + pad| - 1] == x + p;
      TrailingSpacesAppend(x, p);
    }
  }

  /** Whitespace appended to a string disappears under `rstrip`. */
  lemma TrimRightAppendSpaces(x: string, pad: string)
    requires AllSpace(pad)
    ensures TrimRight(x + pad) == TrimRight(x)
  {
    TrailingSpacesAppend(x, pad);
    assert (x + pad)[..|x| - TrailingSpaces(x)] == x[..|x| - TrailingSpaces(x)];
  }

  // ---------------------------------------------------------------------
  // str.split() with no separator

  predicate IsWord(w: string) {
    |w| > 0 && forall i :: 0 <= i < |w| ==> !IsSpace(w[i])
  }

  /** `str.split()`: the maximal whitespace-free runs of `s`, in order. */
  function Split(s: string): (ws: seq<string>)
    ensures forall k :: 0 <= k < |ws| ==> IsWord(ws[k])
    decreases |s|
  {
    var t := TrimLeft(s);
    if t == [] then []
    else
      var n := RunLength(t, false);
      var word, rest := t[..n], Split(t[n..]);
      assert IsWord(word);
      [word] + rest
  }

  /** `len(s.split())`, the service's notion of a word count. */
  function WordCount(s: string): nat {
    |Split(s)|
  }

  /** An independent count of the words of `s`: the positions holding a
      non-whitespace character that is first or follows whitespace.
      `afterSpace` says whether the character before `s` was whitespace. */
  function StartsFrom(s: string, afterSpace: bool): nat {
    if s == [] then 0
    else (if afterSpace && !IsSpace(s[0]) then 1 else 0) + StartsFrom(s[1..], IsSpace(s[0]))
  }

  function WordStarts(s: string): nat {
    StartsFrom(s, true)
  }

  lemma {:induction false} StartsSkipLeadingSpace(s: string)
    ensures StartsFrom(s, true) == StartsFrom(TrimLeft(s), true)
    decreases |s|
  {
    if |s| > 0 && IsSpace(s[0]) {
      assert TrimLeft(s) == TrimLeft(s[1..]);
      StartsSkipLeadingSpace(s[1..]);
    }
  }

  lemma {:induction false} StartsSkipWord(t: string, n: nat, p: bool)
    requires 1 <= n <= |t|
    requires forall i :: 0 <= i < n ==> !IsSpace(t[i])
    ensures StartsFrom(t, p) == (if p then 1 else 0) + StartsFrom(t[n..], false)
    decreases n
  {
    if n > 1 {
      StartsSkipWord(t[1..], n - 1, false);
      assert t[1..][n - 1..] == t[n..];
    }
  }

  /** `len(s.split())` counts exactly the starts of words. */
  lemma {:induction false} WordCountIsWordStarts(s: string)
    ensures WordCount(s) == WordStarts(s)
    decreases |s|
  {
    var t := TrimLeft(s);
    StartsSkipLeadingSpace(s);
    if t != [] {
      var n := RunLength(t, false);
      var rest := t[n..];
      StartsSkipWord(t, n, true);
      assert StartsFrom(rest, false) == StartsFrom(rest, true);
      WordCountIsWordStarts(rest);
      assert Split(s) == [t[..n]] + Split(rest);
      assert WordCount(s) == 1 + WordCount(rest);
    }
  }

  /** A string has no words exactly when it is blank. */
  lemma WordCountZeroIffBlank(s: string)
    ensures WordCount(s) == 0 <==> AllSpace(s)
  {
    if TrimLeft(s) != [] {
      assert |Split(s)| >= 1;
    }
  }

  lemma {:induction false} StartsOverSpaces(pad: string, p: bool)
    requires AllSpace(pad)
    ensures StartsFrom(pad, p) == 0
    decreases |pad|
  {
    if pad != [] {
      StartsOverSpaces(pad[1..], true);
    }
  }

  lemma {:induction false} StartsAppendSpaces(x: string, pad: string, p: bool)
    requires AllSpace(pad)
    ensures StartsFrom(x + pad, p) == StartsFrom(x, p)
    decreases |x|
  {
    if x == [] {
      assert x + pad == pad;
      StartsOverSpaces(pad, p);
    } else {
      assert (x + pad)[1..] == x[1..] + pad;
      StartsAppendSpaces(x[1..], pad, IsSpace(x[0]));
    }
  }

  /** Counting the words of the stripped text gives the same number. */
  lemma WordCountIgnoresStrip(s: string)
    ensures WordCount(Strip(s)) == WordCount(s)
  {
    var t := TrimLeft(s);
    var r := TrimRight(t);
    assert r == Strip(s);
    assert t == r + t[|r|..];
    assert AllSpace(t[|r|..]);
    StartsAppendSpaces(r, t[|r|..], true);
    assert StartsFrom(t, true) == StartsFrom(r, true);
    StartsSkipLeadingSpace(s);
    assert StartsFrom(s, true) == StartsFrom(t, true);
    WordCountIsWordStarts(s);
    WordCountIsWordStarts(r);
  }

  // ---------------------------------------------------------------------
  // str(int)

  predicate IsDigit(c: char) {
    '0' <= c <= '9'
  }

  predicate AllDigits(s: string) {
    forall i :: 0 <= i < |s| ==> IsDigit(s[i])
  }

  function DigitChar(d: nat): (c: char)
    requires d < 10
    ensures IsDigit(c) && (c as int) - ('0' as int) == d
  {
    "0123456789"[d]
  }

  /** Decimal digits of `n`, most significant first, without leading zeros. */
  function NatToString(n: nat): (s: string)
    ensures |s| >= 1 && AllDigits(s)
    ensures |s| > 1 ==> s[0] != '0'
  {
    if n < 10 then [DigitChar(n)] else NatToString(n / 10) + [DigitChar(n % 10)]
  }

  /** `str(n)` for a Python int. */
  function IntToString(n: int): (s: string)
    ensures |s| >= 1
    ensures (s[0] == '-') == (n < 0)
    ensures var d := if n < 0 then s[1..] else s; |d| >= 1 && AllDigits(d) && (|d| > 1 ==> d[0] != '0')
  {
    if n < 0 then "-" + NatToString(-n) else NatToString(n)
  }

  function DigitsValue(s: string): nat
    requires AllDigits(s)
  {
    if s == [] then 0
    else DigitsValue(s[..|s| - 1]) * 10 + ((s[|s| - 1] as int) - ('0' as int))
  }

  /** `int(s)` for an optionally signed run of decimal digits. */
  function ParseInt(s: string): Option<int> {
    if |s| >= 2 && s[0] == '-' && AllDigits(s[1..]) then Some(-(DigitsValue(s[1..]) as int))
    else if |s| >= 1 && AllDigits(s) then Some(DigitsValue(s))
    else None
  }

  lemma {:induction false} DigitsValueOfNatToString(n: nat)
    ensures DigitsValue(NatToString(n)) == n
  {
    if n >= 10 {
      var s := NatToString(n);
      DigitsValueOfNatToString(n / 10);
      assert s[..|s| - 1] == NatToString(n / 10);
    }
  }

  lemma ParseDigits(s: string)
    requires |s| >= 1 && AllDigits(s)
    ensures ParseInt(s) == Some(DigitsValue(s))
  {
    assert s[0] != '-';
  }

  lemma ParseNegativeDigits(s: string)
    requires |s| >= 1 && AllDigits(s)
    ensures ParseInt("-" + s) == Some(-(DigitsValue(s) as int))
  {
    assert ("-" + s)[1..] == s;
  }

  /** The decimal rendering of an int reads back as the same int. */
  lemma IntToStringRoundTrip(n: int)
    ensures ParseInt(IntToString(n)) == Some(n)
  {
    if n < 0 {
      var m: nat := -n;
      var d := NatToString(m);
      assert IntToString(n) == "-" + d;
      DigitsValueOfNatToString(m);
      ParseNegativeDigits(d);
    } else {
      var d := NatToString(n);
      assert IntToString(n) == d;
      DigitsValueOfNatToString(n);
      ParseDigits(d);
    }
  }
}
