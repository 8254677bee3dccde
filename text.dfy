/**
 * The string operations the core uses: lower-casing, white-space tests,
 * substring search, single-character `Replace`, and decimal formatting of an
 * integer (for the stock messages).
 */
module Text {

  predicate IsUpperAscii(c: char)
  {
    'A' <= c <= 'Z'
  }

  /** `char.ToLower` on the ASCII letters; every other character is kept. */
  function ToLowerChar(c: char): (r: char)
    ensures !IsUpperAscii(r)
    ensures !IsUpperAscii(c) ==> r == c
  {
    if IsUpperAscii(c) then (c as int + 32) as char else c
  }

  /** `string.ToLower`, character by character. */
  function ToLower(s: string): (r: string)
    ensures |r| == |s|
    ensures forall i | 0 <= i < |s| :: r[i] == ToLowerChar(s[i])
    ensures forall c | c in r :: !IsUpperAscii(c)
  {
    seq(|s|, i requires 0 <= i < |s| => ToLowerChar(s[i]))
  }

  lemma ToLowerKeepsLowerCase(s: string)
    requires forall i | 0 <= i < |s| :: !IsUpperAscii(s[i])
    ensures ToLower(s) == s
  {
  }

  /** Lower-casing twice is lower-casing once. */
  lemma ToLowerIdempotent(s: string)
    ensures ToLower(ToLower(s)) == ToLower(s)
  {
    assert forall i | 0 <= i < |s| :: ToLower(ToLower(s))[i] == ToLower(s)[i];
  }

  /**
   * `char.IsWhiteSpace`: the Unicode space, line and paragraph separators, the
   * control characters U+0009 to U+000D, and U+0085.
   */
  predicate IsWhiteSpace(c: char)
  {
    || ('\U{0009}' <= c <= '\U{000D}') || c == ' ' || c == '\U{0085}' || c == '\U{00A0}'
    || c == '\U{1680}' || ('\U{2000}' <= c <= '\U{200A}') || c == '\U{2028}' || c == '\U{2029}'
    || c == '\U{202F}' || c == '\U{205F}' || c == '\U{3000}'
  }

  /** The ideographic space is white space, so a term made of it alone counts as blank. */
  lemma IdeographicSpaceIsBlank()
    ensures IsWhiteSpaceOnly("\U{3000}") && IsWhiteSpaceOnly(" \U{2003}\t")
    ensures !IsWhiteSpaceOnly(" a ") && !IsWhiteSpace('\U{200B}')
  {
    assert " a "[1] == 'a';
  }

  /** `string.IsNullOrWhiteSpace` on a non-null string: empty or all white space. */
  predicate IsWhiteSpaceOnly(s: string)
  {
    forall i | 0 <= i < |s| :: IsWhiteSpace(s[i])
  }

  /** `t` occurs in `s` starting at position `i`. */
  predicate OccursAt(s: string, t: string, i: int)
  {
    0 <= i && i + |t| <= |s| && s[i..i + |t|] == t
  }

  /** `string.Contains(t)`: `t` occurs in `s` at some position. */
  predicate Contains(s: string, t: string)
  {
    exists i | 0 <= i <= |s| - |t| :: OccursAt(s, t, i)
  }

  /** `string.Replace(c, rep)` for a one-character pattern: every `c` becomes `rep`. */
  function ReplaceChar(s: string, c: char, rep: string): (r: string)
    ensures c !in s ==> r == s
  {
    if s == [] then []
    else
      var rest := ReplaceChar(s[1..], c, rep);
      assert c !in s ==> c !in s[1..];
      (if s[0] == c then rep else [s[0]]) + rest
  }

  /** What a `Replace` result is made of: characters of `s` other than `c`, and characters of `rep`. */
  lemma {:induction false} ReplaceCharMembers(s: string, c: char, rep: string)
    ensures forall d | d in ReplaceChar(s, c, rep) :: (d in s && d != c) || d in rep
  {
    if s != [] {
      ReplaceCharMembers(s[1..], c, rep);
      assert forall d | d in s[1..] :: d in s;
    }
  }

  /** Decimal digits of a natural number, most significant first. */
  function NatToString(n: nat): (r: string)
    ensures |r| >= 1
    ensures forall i | 0 <= i < |r| :: '0' <= r[i] <= '9'
  {
    var d := "0123456789"[n % 10];
    if n < 10 then [d] else NatToString(n / 10) + [d]
  }

  /** `int.ToString()` in the invariant culture. */
  function IntToString(n: int): (r: string)
    ensures |r| >= 1
    ensures n < 0 <==> r[0] == '-'
  {
    if n < 0 then "-" + NatToString(-n) else NatToString(n)
  }
}
