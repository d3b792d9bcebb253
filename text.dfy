/**
 * The handful of Python string built-ins the engine relies on, stated over `seq<char>`:
 * `str.isspace`, `str.split()`, `str.strip()`, `str.lower()` (as far as matching ASCII
 * phrases is concerned), the `in` substring test and `str(int)`.
 */
module Text {

  /** Python's `str.isspace()`: the characters `str.split()` and `str.strip()` treat as whitespace. */
  predicate IsSpace(c: char) {
    c == ' ' || c == '\t' || c == '\n' || c == '\r' || c == '\U{0B}' || c == '\U{0C}'
    || ('\U{1C}' <= c <= '\U{1F}') || c == '\U{85}' || c == '\U{A0}' || c == '\U{1680}'
    || ('\U{2000}' <= c <= '\U{200A}') || c == '\U{2028}' || c == '\U{2029}' || c == '\U{202F}'
    || c == '\U{205F}' || c == '\U{3000}'
  }

  /** A text made only of whitespace (the empty text included). */
  predicate IsBlank(s: string) {
    forall i :: 0 <= i < |s| ==> IsSpace(s[i])
  }

  /** A non-empty run of characters none of which is whitespace. */
  predicate IsWord(w: string) {
    |w| > 0 && forall i :: 0 <= i < |w| ==> !IsSpace(w[i])
  }

  /** The end of the word starting at `i`: the first whitespace at or after `i`, or `|s|`. */
  function WordEnd(s: string, i: nat): (k: nat)
    requires i <= |s|
    ensures i <= k <= |s|
    ensures forall j :: i <= j < k ==> !IsSpace(s[j])
    ensures k < |s| ==> IsSpace(s[k])
    decreases |s| - i
  {
    if i == |s| || IsSpace(s[i]) then i else WordEnd(s, i + 1)
  }

  /** `s.split()`: the maximal runs of non-whitespace characters, in order. */
  function Words(s: string): (ws: seq<string>)
    ensures forall j :: 0 <= j < |ws| ==> IsWord(ws[j])
    decreases |s|
  {
    if s == [] then []
    else if IsSpace(s[0]) then Words(s[1..])
    else
      var k := WordEnd(s, 0);
      [s[..k]] + Words(s[k..])
  }

  /** `len(s.split()) == 0` exactly when `s` is blank. */
  lemma {:induction false} NoWordsIffBlank(s: string)
    ensures |Words(s)| == 0 <==> IsBlank(s)
    decreases |s|
  {
    if s == [] {
    } else if IsSpace(s[0]) {
      NoWordsIffBlank(s[1..]);
      if IsBlank(s[1..]) {
        forall i | 0 <= i < |s| ensures IsSpace(s[i]) {
          if i > 0 { assert s[i] == s[1..][i - 1]; }
        }
      }
    } else {
      assert !IsBlank(s);
    }
  }

  /** Number of leading whitespace characters. */
  function LeadingSpaces(s: string): (n: nat)
    ensures n <= |s|
    ensures forall i :: 0 <= i < n ==> IsSpace(s[i])
    ensures n < |s| ==> !IsSpace(s[n])
    decreases |s|
  {
    if s != [] && IsSpace(s[0]) then 1 + LeadingSpaces(s[1..]) else 0
  }

  /** Number of trailing whitespace characters. */
  function TrailingSpaces(s: string): (n: nat)
    ensures n <= |s|
    ensures forall i :: |s| - n <= i < |s| ==> IsSpace(s[i])
    ensures n < |s| ==> !IsSpace(s[|s| - 1 - n])
    decreases |s|
  {
    if s != [] && IsSpace(s[|s| - 1]) then 1 + TrailingSpaces(s[..|s| - 1]) else 0
  }

  /** `s.strip()`: `s` without its leading and trailing whitespace. */
  function Strip(s: string): (r: string)
    ensures r == [] || (!IsSpace(r[0]) && !IsSpace(r[|r| - 1]))
    ensures exists a, b :: 0 <= a <= b <= |s| && r == s[a..b] && IsBlank(s[..a]) && IsBlank(s[b..])
  {
    var a := LeadingSpaces(s);
    var t := s[a..];
    var b := TrailingSpaces(t);
    var r := t[..|t| - b];
    assert r == s[a..a + |t| - b];
    assert IsBlank(s[..a]);
    var e := a + |t| - b;
    var tail := s[e..];
    assert IsBlank(tail) by {
      forall i | 0 <= i < |tail| ensures IsSpace(tail[i]) {
        assert tail[i] == t[|t| - b + i];
      }
    }
    r
  }

  /** `s.strip()` is empty exactly when `s` is blank. */
  lemma StripEmptyIffBlank(s: string)
    ensures Strip(s) == [] <==> IsBlank(s)
  {
    var r := Strip(s);
    var a, b :| 0 <= a <= b <= |s| && r == s[a..b] && IsBlank(s[..a]) && IsBlank(s[b..]);
    if r == [] {
      forall i | 0 <= i < |s| ensures IsSpace(s[i]) {
        if i < a { assert s[i] == s[..a][i]; } else { assert s[i] == s[b..][i - b]; }
      }
    } else {
      assert r[0] == s[a];
    }
  }

  /** `c.lower()` for every character whose lower-case form contains an ASCII letter with no
      combining mark: A-Z and the Kelvin sign; every other character keeps a form that no
      ASCII phrase can match, so it is left as it is. */
  function LowerChar(c: char): char {
    if 'A' <= c <= 'Z' then (c as int + 32) as char
    else if c == '\U{212A}' then 'k'
    else c
  }

  /** `s.lower()` as seen by a search for an ASCII phrase. */
  function Lower(s: string): (r: string)
    ensures |r| == |s|
    ensures forall i :: 0 <= i < |s| ==> r[i] == LowerChar(s[i])
  {
    seq(|s|, i requires 0 <= i < |s| => LowerChar(s[i]))
  }

  predicate StartsWith(s: string, p: string) {
    |p| <= |s| && s[..|p|] == p
  }

  /** Python's `p in s` for strings. */
  predicate Contains(s: string, p: string)
    decreases |s|
  {
    StartsWith(s, p) || (|s| > 0 && Contains(s[1..], p))
  }

  /** `Contains` finds exactly the occurrences of `p` at some offset of `s`. */
  lemma {:induction false} ContainsAt(s: string, p: string, k: nat)
    requires k + |p| <= |s| && s[k..k + |p|] == p
    ensures Contains(s, p)
    decreases k
  {
    if k > 0 {
      assert s[1..][k - 1..k - 1 + |p|] == s[k..k + |p|];
      ContainsAt(s[1..], p, k - 1);
    } else {
      assert s[..|p|] == s[0..0 + |p|];
    }
  }

  /** Some phrase of `phrases` occurs in `text`. */
  predicate ContainsAny(text: string, phrases: seq<string>) {
    exists i :: 0 <= i < |phrases| && Contains(text, phrases[i])
  }

  /** Python's `any(p in text for p in phrases)`: tries each phrase in order and stops at the
      first one found. */
  function FindAny(text: string, phrases: seq<string>): (found: bool)
    ensures found <==> ContainsAny(text, phrases)
    decreases |phrases|
  {
    if phrases == [] then false
    else if Contains(text, phrases[0]) then true
    else
      var rest := FindAny(text, phrases[1..]);
      assert forall i :: 1 <= i < |phrases| ==> phrases[i] == phrases[1..][i - 1];
      rest
  }

  function DigitChar(d: nat): (c: char)
    requires d < 10
    ensures '0' <= c <= '9'
  {
    "0123456789"[d]
  }

  /** `str(n)` for a non-negative integer: decimal digits, no leading zero. */
  function NatToString(n: nat): (s: string)
    ensures |s| > 0
    ensures n > 0 ==> s[0] != '0'
    ensures forall j :: 0 <= j < |s| ==> '0' <= s[j] <= '9'
    decreases n
  {
    if n < 10 then [DigitChar(n)] else NatToString(n / 10) + [DigitChar(n % 10)]
  }

  /** `str(i)` for any integer. */
  function IntToString(i: int): (s: string)
    ensures |s| > 0
    ensures (s[0] == '-') <==> i < 0
  {
    if i < 0 then "-" + NatToString(-i) else NatToString(i)
  }

  /** `', '.join(names)`. */
  function Join(names: seq<string>): string {
    if names == [] then ""
    else if |names| == 1 then names[0]
    else names[0] + ", " + Join(names[1..])
  }
}
