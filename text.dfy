/** The Python `str` operations the core relies on: prefix and substring tests,
    `strip()`, `" ".join`, and the ASCII case mappings used for directory names
    and voice labels. */
module Text {

  predicate StartsWith(s: string, prefix: string) {
    |prefix| <= |s| && s[..|prefix|] == prefix
  }

  /** `sub in s` for strings. */
  predicate Contains(s: string, sub: string)
    decreases |s|
  {
    StartsWith(s, sub) || (|s| > 0 && Contains(s[1..], sub))
  }

  lemma {:induction false} ContainsAt(s: string, sub: string, i: nat)
    requires i + |sub| <= |s| && s[i..i + |sub|] == sub
    ensures Contains(s, sub)
    decreases i
  {
    if i > 0 {
      assert s[1..][i - 1..i - 1 + |sub|] == s[i..i + |sub|];
      ContainsAt(s[1..], sub, i - 1);
    }
  }

  /** `str.isspace()` for one character: the characters Python classes as
      whitespace (used by `str.strip()` and by `\s` in a `str` pattern). */
  predicate IsSpace(c: char) {
    c == ' ' || ('\t' <= c <= '\r') || ('\U{1C}' <= c <= '\U{1F}')
    || c == '\U{85}' || c == '\U{A0}' || c == '\U{1680}'
    || ('\U{2000}' <= c <= '\U{200A}') || c == '\U{2028}' || c == '\U{2029}'
    || c == '\U{202F}' || c == '\U{205F}' || c == '\U{3000}'
  }

  /** The six ASCII whitespace characters (`bytes.fromhex` skips only these). */
  predicate IsAsciiSpace(c: char) {
    c == ' ' || ('\t' <= c <= '\r')
  }

  function LStrip(s: string): (r: string)
    ensures |r| <= |s| && r == s[|s| - |r|..]
    ensures r == [] || !IsSpace(r[0])
    ensures forall i :: 0 <= i < |s| - |r| ==> IsSpace(s[i])
    decreases |s|
  {
    if s != [] && IsSpace(s[0]) then LStrip(s[1..]) else s
  }

  function RStrip(s: string): (r: string)
    ensures |r| <= |s| && r == s[..|r|]
    ensures r == [] || !IsSpace(r[|r| - 1])
    ensures forall i :: |r| <= i < |s| ==> IsSpace(s[i])
    decreases |s|
  {
    if s != [] && IsSpace(s[|s| - 1]) then RStrip(s[..|s| - 1]) else s
  }

  /** `s.strip()`. */
  function Strip(s: string): string {
    RStrip(LStrip(s))
  }

  /** A string with no whitespace at either end, which `strip()` leaves alone. */
  predicate Stripped(s: string) {
    s == [] || (!IsSpace(s[0]) && !IsSpace(s[|s| - 1]))
  }

  lemma StripResult(s: string)
    ensures Stripped(Strip(s))
    ensures |Strip(s)| <= |s|
  {
    var l := LStrip(s);
    var r := RStrip(l);
    if r != [] {
      assert r[0] == l[0];
    }
  }

  lemma StripOfStripped(s: string)
    requires Stripped(s)
    ensures Strip(s) == s
  {
  }

  /** No position of `s` where `sub` would still fit holds `sub`'s first
      character, so `sub` cannot begin anywhere in `s`. */
  predicate CannotStart(s: string, sub: string)
    requires sub != []
  {
    |s| < |sub| || sub[0] !in s[..|s| - |sub| + 1]
  }

  lemma {:induction false} CannotStartNotContained(s: string, sub: string)
    requires sub != [] && CannotStart(s, sub)
    ensures !Contains(s, sub)
    decreases |s|
  {
    if s != [] && |sub| <= |s| {
      assert s[0] in s[..|s| - |sub| + 1];
      assert !StartsWith(s, sub) by {
        assert s[..|sub|][0] == s[0];
      }
      assert s[1..][..|s| - |sub|] == s[1..|s| - |sub| + 1];
      CannotStartNotContained(s[1..], sub);
    } else if s != [] {
      CannotStartNotContained(s[1..], sub);
    }
  }

  /** Before a text that starts with whitespace, `lstrip()` drops a
      non-empty run of whitespace, and nothing else. */
  lemma LStripLeadingRun(s: string)
    requires s != [] && IsSpace(s[0])
    ensures var w := s[..|s| - |LStrip(s)|];
      w != [] && (forall i :: 0 <= i < |w| ==> IsSpace(w[i])) && w + LStrip(s) == s
  {
    var r := LStrip(s);
    var k := |s| - |r|;
    assert r == s[k..];
    assert k > 0;
    forall i | 0 <= i < k ensures IsSpace(s[..k][i]) {
      assert s[..k][i] == s[i];
    }
    assert s[..k] + s[k..] == s;
  }

  /** `lstrip()` keeps the end of a text that ends in a non-space. */
  lemma LStripKeepsEnd(s: string)
    requires s != [] && !IsSpace(s[|s| - 1])
    ensures LStrip(s) != [] && LStrip(s)[|LStrip(s)| - 1] == s[|s| - 1]
  {
    var r := LStrip(s);
    assert r == s[|s| - |r|..];
  }

  /** `" ".join(parts)`. */
  function JoinSpace(parts: seq<string>): string
    decreases |parts|
  {
    if parts == [] then ""
    else if |parts| == 1 then parts[0]
    else JoinSpace(parts[..|parts| - 1]) + " " + parts[|parts| - 1]
  }

  function LowerChar(c: char): char {
    if 'A' <= c <= 'Z' then (c as int + 32) as char else c
  }

  function UpperChar(c: char): char {
    if 'a' <= c <= 'z' then (c as int - 32) as char else c
  }

  predicate IsAsciiLetter(c: char) {
    ('a' <= c <= 'z') || ('A' <= c <= 'Z')
  }

  /** `s.lower()` on ASCII letters. */
  function Lower(s: string): (r: string)
    ensures |r| == |s|
    ensures forall i :: 0 <= i < |s| ==> r[i] == LowerChar(s[i])
  {
    seq(|s|, i requires 0 <= i < |s| => LowerChar(s[i]))
  }

  /** `s.upper()` on ASCII letters. */
  function Upper(s: string): (r: string)
    ensures |r| == |s|
    ensures forall i :: 0 <= i < |s| ==> r[i] == UpperChar(s[i])
  {
    seq(|s|, i requires 0 <= i < |s| => UpperChar(s[i]))
  }

  /** `s.title()` on ASCII: a letter is upper-cased when it starts a word
      (follows a non-letter or the start) and lower-cased otherwise. */
  function Title(s: string): (r: string)
    ensures |r| == |s|
  {
    seq(|s|, i requires 0 <= i < |s| =>
      if i == 0 || !IsAsciiLetter(s[i - 1]) then UpperChar(s[i]) else LowerChar(s[i]))
  }
}
