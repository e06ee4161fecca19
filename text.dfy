/** Small pieces of Python's `str` behaviour that the scripts rely on:
    `isspace`/`strip`, `startswith`/`endswith`, `find`, `replace` of one
    character by another, and `title`. Strings are `seq<char>`. */
module Text {

  /** Python's `str.isspace`: the code points whose bidirectional class is
      WS, B or S, or whose category is Zs. */
  predicate IsSpace(c: char)
  {
    c == ' ' || c == '\t' || c == '\n' || c == '\r' || c == '\U{0B}' || c == '\U{0C}'
    || ('\U{1C}' <= c <= '\U{1F}')
    || c == '\U{85}' || c == '\U{A0}' || c == '\U{1680}'
    || ('\U{2000}' <= c <= '\U{200A}')
    || c == '\U{2028}' || c == '\U{2029}' || c == '\U{202F}' || c == '\U{205F}' || c == '\U{3000}'
  }

  /** Index of the first non-whitespace character at or after `k`, or `|s|`. */
  function SkipSpaces(s: string, k: nat): (j: nat)
    requires k <= |s|
    ensures k <= j <= |s|
    ensures j < |s| ==> !IsSpace(s[j])
    ensures forall m :: k <= m < j ==> IsSpace(s[m])
    decreases |s| - k
  {
    if k == |s| || !IsSpace(s[k]) then k else SkipSpaces(s, k + 1)
  }

  /** End of `s[lo..hi]` once its trailing whitespace is dropped. */
  function TrimEnd(s: string, lo: nat, hi: nat): (j: nat)
    requires lo <= hi <= |s|
    ensures lo <= j <= hi
    ensures j > lo ==> !IsSpace(s[j - 1])
    ensures forall m :: j <= m < hi ==> IsSpace(s[m])
    decreases hi
  {
    if hi == lo || !IsSpace(s[hi - 1]) then hi else TrimEnd(s, lo, hi - 1)
  }

  /** `s.strip()` with no argument. */
  function Strip(s: string): string
  {
    var a := SkipSpaces(s, 0);
    s[a..TrimEnd(s, a, |s|)]
  }

  /** Strip returns the contiguous middle `s[a..b]` of `s`, with nothing but
      whitespace cut away on either side and no whitespace left at either
      end. */
  lemma StripIsTrimmedMiddle(s: string)
    ensures var a := SkipSpaces(s, 0); var b := TrimEnd(s, a, |s|);
      && Strip(s) == s[a..b]
      && (forall i :: 0 <= i < a ==> IsSpace(s[i]))
      && (forall i :: b <= i < |s| ==> IsSpace(s[i]))
      && (a < b ==> !IsSpace(s[a]) && !IsSpace(s[b - 1]))
  {
  }

  /** Text with no whitespace at either end is its own strip. */
  lemma {:induction false} StripUnpadded(s: string)
    requires s == [] || (!IsSpace(s[0]) && !IsSpace(s[|s| - 1]))
    ensures Strip(s) == s
  {
  }

  /** `strip` is idempotent. */
  lemma StripIdempotent(s: string)
    ensures Strip(Strip(s)) == Strip(s)
  {
    StripIsTrimmedMiddle(s);
    StripUnpadded(Strip(s));
  }

  predicate StartsWith(s: string, prefix: string)
  {
    |prefix| <= |s| && s[..|prefix|] == prefix
  }

  predicate EndsWith(s: string, suffix: string)
  {
    |suffix| <= |s| && s[|s| - |suffix|..] == suffix
  }

  /** `s.find(c, k)`, except that "not found" is `|s|` rather than -1. */
  function IndexFrom(s: string, c: char, k: nat): (j: nat)
    requires k <= |s|
    ensures k <= j <= |s|
    ensures j < |s| ==> s[j] == c
    ensures forall m :: k <= m < j ==> s[m] != c
    decreases |s| - k
  {
    if k == |s| || s[k] == c then k else IndexFrom(s, c, k + 1)
  }

  /** `s.rfind(c)` over `s[..k]`, with "not found" as -1. */
  function LastIndexBefore(s: string, c: char, k: nat): (j: int)
    requires k <= |s|
    ensures -1 <= j < k
  {
    if k == 0 then -1
    else if s[k - 1] == c then k - 1
    else LastIndexBefore(s, c, k - 1)
  }

  /** The index found holds `c`, and no later index before `k` does. */
  lemma {:induction false} LastIndexBeforeFacts(s: string, c: char, k: nat)
    requires k <= |s|
    ensures var j := LastIndexBefore(s, c, k);
      (j >= 0 ==> s[j] == c) && forall m :: j < m < k ==> s[m] != c
  {
    if k > 0 && s[k - 1] != c {
      LastIndexBeforeFacts(s, c, k - 1);
    }
  }

  /** `s.replace(from, to)` for single characters. */
  function ReplaceChar(s: string, from: char, to: char): (r: string)
    ensures |r| == |s|
    ensures forall i :: 0 <= i < |s| ==> r[i] == if s[i] == from then to else s[i]
  {
    if s == [] then []
    else [if s[0] == from then to else s[0]] + ReplaceChar(s[1..], from, to)
  }

  predicate IsAsciiLower(c: char) { 'a' <= c <= 'z' }
  predicate IsAsciiUpper(c: char) { 'A' <= c <= 'Z' }
  predicate IsAsciiLetter(c: char) { IsAsciiLower(c) || IsAsciiUpper(c) }
  predicate IsAsciiDigit(c: char) { '0' <= c <= '9' }

  function Upper(c: char): char
  {
    if IsAsciiLower(c) then (c as int - 32) as char else c
  }

  function Lower(c: char): char
  {
    if IsAsciiUpper(c) then (c as int + 32) as char else c
  }

  /** What `str.title` makes of the character at `i`: a letter is upper-cased
      when the character before it is not a letter and lower-cased otherwise;
      every other character is kept. */
  function TitleCharAt(s: string, i: nat): char
    requires i < |s|
  {
    if !IsAsciiLetter(s[i]) then s[i]
    else if i > 0 && IsAsciiLetter(s[i - 1]) then Lower(s[i])
    else Upper(s[i])
  }

  /** `str.title` as Python runs it: one pass that remembers whether the
      previous character was cased. */
  function TitleFrom(s: string, previousCased: bool): string
  {
    if s == [] then []
    else
      var c := if !IsAsciiLetter(s[0]) then s[0]
               else if previousCased then Lower(s[0]) else Upper(s[0]);
      [c] + TitleFrom(s[1..], IsAsciiLetter(s[0]))
  }

  function Title(s: string): (r: string)
    ensures |r| == |s|
    ensures forall i :: 0 <= i < |s| ==> r[i] == TitleCharAt(s, i)
  {
    TitleFromAt(s, false);
    TitleFrom(s, false)
  }

  lemma {:induction false} TitleFromAt(s: string, previousCased: bool)
    ensures |TitleFrom(s, previousCased)| == |s|
    ensures forall i :: 0 < i < |s| ==> TitleFrom(s, previousCased)[i] == TitleCharAt(s, i)
    ensures !previousCased && s != [] ==> TitleFrom(s, previousCased)[0] == TitleCharAt(s, 0)
  {
    if s != [] {
      var t := s[1..];
      TitleFromAt(t, IsAsciiLetter(s[0]));
      forall i | 0 < i < |s| ensures TitleFrom(s, previousCased)[i] == TitleCharAt(s, i) {
        if i == 1 {
          assert TitleFrom(s, previousCased)[1] == TitleFrom(t, IsAsciiLetter(s[0]))[0];
        } else {
          assert TitleFrom(s, previousCased)[i] == TitleFrom(t, IsAsciiLetter(s[0]))[i - 1];
          assert TitleCharAt(t, i - 1) == TitleCharAt(s, i);
        }
      }
    }
  }
}
