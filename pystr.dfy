/** The handful of Python `str` operations the verifier relies on, modelled on
    `seq<char>`.  Case mapping is modelled for ASCII letters only: every other
    character is left unchanged by `Lower`, `Title` and `Capitalize`, and counts
    as uncased for `Title`.  Whitespace is Python's own `str.isspace` set. */
module PyStr {

  predicate IsUpper(c: char) { 'A' <= c <= 'Z' }
  predicate IsLower(c: char) { 'a' <= c <= 'z' }
  predicate IsCased(c: char) { IsUpper(c) || IsLower(c) }
  predicate IsDigit(c: char) { '0' <= c <= '9' }

  /** Python's `str.isspace` for one character. */
  predicate IsSpace(c: char) {
    c == ' ' || ('\t' <= c <= '\r') || ('\U{1C}' <= c <= '\U{1F}') ||
    c == '\U{85}' || c == '\U{A0}' || c == '\U{1680}' || ('\U{2000}' <= c <= '\U{200A}') ||
    c == '\U{2028}' || c == '\U{2029}' || c == '\U{202F}' || c == '\U{205F}' || c == '\U{3000}'
  }

  function LowerChar(c: char): char { if IsUpper(c) then (c as int + 32) as char else c }
  function UpperChar(c: char): char { if IsLower(c) then (c as int - 32) as char else c }

  /** `s.lower()` */
  function Lower(s: string): string {
    seq(|s|, i requires 0 <= i < |s| => LowerChar(s[i]))
  }

  /** `s.title()`: a letter is upper-cased when the character before it is not
      cased, and lower-cased otherwise. */
  function Title(s: string): string {
    seq(|s|, i requires 0 <= i < |s| =>
      if i == 0 || !IsCased(s[i - 1]) then UpperChar(s[i]) else LowerChar(s[i]))
  }

  /** `s.capitalize()`: first character upper-cased, the rest lower-cased. */
  function Capitalize(s: string): string {
    if s == [] then [] else [UpperChar(s[0])] + Lower(s[1..])
  }

  function StripLeft(s: string): string {
    if |s| > 0 && IsSpace(s[0]) then StripLeft(s[1..]) else s
  }

  function StripRight(s: string): string {
    if |s| > 0 && IsSpace(s[|s| - 1]) then StripRight(s[..|s| - 1]) else s
  }

  /** `s.strip()` */
  function Strip(s: string): string { StripRight(StripLeft(s)) }

  /** The dictionary key the verifier derives from a medication name:
      `name.lower().strip()`. */
  function Key(name: string): string { Strip(Lower(name)) }

  /** `t in s` for strings: `t` occurs in `s` as a contiguous substring. */
  predicate Contains(s: string, t: string)
    decreases |s|
  {
    |t| <= |s| && (s[..|t|] == t || Contains(s[1..], t))
  }

  /** `s.isdigit()` for ASCII text: non-empty and made of the digits 0-9. */
  predicate IsDigits(s: string) {
    |s| > 0 && forall i :: 0 <= i < |s| ==> IsDigit(s[i])
  }

  /** Length of the longest prefix of `s` holding no whitespace. */
  function WordLength(s: string): (n: nat)
    ensures n <= |s|
    ensures forall i :: 0 <= i < n ==> !IsSpace(s[i])
    ensures n < |s| ==> IsSpace(s[n])
  {
    if s == [] || IsSpace(s[0]) then 0 else 1 + WordLength(s[1..])
  }

  /** `s.split()` with no argument: the maximal runs of non-whitespace. */
  function Split(s: string): (words: seq<string>)
    ensures forall k :: 0 <= k < |words| ==> words[k] != []
    decreases |s|
  {
    var t := StripLeft(s);
    if t == [] then []
    else
      StripLeftShortens(s);
      var n := WordLength(t);
      assert n > 0 by { StripLeftNoSpace(s); }
      [t[..n]] + Split(t[n..])
  }

  lemma StripLeftShortens(s: string)
    ensures |StripLeft(s)| <= |s|
  {}

  lemma StripLeftNoSpace(s: string)
    ensures StripLeft(s) != [] ==> !IsSpace(StripLeft(s)[0])
  {}

  /** `sep.join(words)` */
  function Join(words: seq<string>, sep: string): string {
    if words == [] then ""
    else if |words| == 1 then words[0]
    else words[0] + sep + Join(words[1..], sep)
  }

  /** Python's `<=` on strings: lexicographic order on code points, a proper
      prefix coming first.  `sorted` of two strings puts them in this order. */
  predicate LexLessEq(a: string, b: string) {
    if a == [] then true
    else if b == [] then false
    else if a[0] != b[0] then a[0] < b[0]
    else LexLessEq(a[1..], b[1..])
  }

  lemma {:induction false} LexTotal(a: string, b: string)
    ensures LexLessEq(a, b) || LexLessEq(b, a)
  {
    if a != [] && b != [] && a[0] == b[0] {
      LexTotal(a[1..], b[1..]);
    }
  }

  lemma {:induction false} LexAntisymmetric(a: string, b: string)
    requires LexLessEq(a, b) && LexLessEq(b, a)
    ensures a == b
  {
    if a != [] && b != [] {
      LexAntisymmetric(a[1..], b[1..]);
      assert a == [a[0]] + a[1..];
      assert b == [b[0]] + b[1..];
    }
  }

  /** An occurrence of "mg" is an occurrence of "g": the "mg" unit test of the
      text extractor never decides anything on its own. */
  lemma {:induction false} MgImpliesG(s: string)
    requires Contains(s, "mg")
    ensures Contains(s, "g")
  {
    if s[..2] == "mg" {
      assert s[1..][..1] == "g";
    } else {
      MgImpliesG(s[1..]);
    }
  }
}
