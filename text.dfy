/** The string operations the source relies on, restricted to ASCII:
    `str.lower()`, the substring test `a in b`, `str.replace` of single
    characters, `sep.join(parts)` and `str(n)` for naturals. */
module Text {

  function LowerChar(c: char): char {
    if 'A' <= c <= 'Z' then (c as int + 32) as char else c
  }

  /** Python's `s.lower()` on ASCII text. */
  function Lower(s: string): (r: string)
    ensures |r| == |s|
  {
    seq(|s|, i requires 0 <= i < |s| => LowerChar(s[i]))
  }

  predicate IsPrefix(prefix: string, s: string) {
    |prefix| <= |s| && prefix == s[..|prefix|]
  }

  /** Python's `sub in s`: `sub` occurs in `s` at some position. */
  predicate Contains(s: string, sub: string)
    decreases |s|
  {
    IsPrefix(sub, s) || (|s| > 0 && Contains(s[1..], sub))
  }

  /** `c in cs` for a list of strings `cs` after lower-casing both sides:
      Python's `x.lower() in [c.lower() for c in cs]`. */
  predicate MemberIgnoringCase(x: string, cs: seq<string>) {
    exists i | 0 <= i < |cs| :: Lower(cs[i]) == Lower(x)
  }

  /** Any of `words` occurs in `s`: Python's `any(w in s for w in words)`. */
  predicate ContainsAny(s: string, words: seq<string>) {
    exists i | 0 <= i < |words| :: Contains(s, words[i])
  }

  /** Every character of `s` that is in `chars` replaced by `replacement`
      (successive `str.replace` calls of single characters). */
  function Replace(s: string, chars: set<char>, replacement: char): (r: string)
    ensures |r| == |s|
  {
    seq(|s|, i requires 0 <= i < |s| => if s[i] in chars then replacement else s[i])
  }

  /** Python's `sep.join(parts)`. */
  function Join(sep: string, parts: seq<string>): string
    decreases |parts|
  {
    if parts == [] then ""
    else if |parts| == 1 then parts[0]
    else parts[0] + sep + Join(sep, parts[1..])
  }

  function Digit(d: nat): char
    requires d < 10
  {
    "0123456789"[d]
  }

  /** Python's `str(n)` for a natural number. */
  function NatToString(n: nat): (r: string)
    ensures |r| >= 1
    decreases n
  {
    if n < 10 then [Digit(n)] else NatToString(n / 10) + [Digit(n % 10)]
  }

  /** A string contains itself, and every string contains the empty one. */
  lemma ContainsSelfAndEmpty(s: string)
    ensures Contains(s, s) && Contains(s, "")
  {
    assert IsPrefix(s, s);
    assert IsPrefix("", s);
  }

  /** Lower-casing twice changes nothing more. */
  lemma LowerIdempotent(s: string)
    ensures Lower(Lower(s)) == Lower(s)
  {
  }
}
