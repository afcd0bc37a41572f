/**
 * String helpers used by the extractor and the classifier: ASCII case folding,
 * substring search (the literal patterns of the risk tables), prefix tests,
 * splitting on a separator, and the character classes of the secret expression.
 */
module Text {

  /** ASCII lower-casing of one character; other characters are left alone. */
  function LowerChar(c: char): char
  {
    if 'A' <= c <= 'Z' then (c as int + 32) as char else c
  }

  function Lower(s: string): string
  {
    seq(|s|, i requires 0 <= i < |s| => LowerChar(s[i]))
  }

  /** `p` occurs in `s` at index `i`. */
  predicate OccursAt(p: string, s: string, i: int)
  {
    0 <= i && i + |p| <= |s| && s[i..i + |p|] == p
  }

  /** `p` is a substring of `s` (Python's `p in s` for two strings). */
  predicate Occurs(p: string, s: string)
  {
    exists i | 0 <= i <= |s| - |p| :: OccursAt(p, s, i)
  }

  /**
   * Case-insensitive search of a literal pattern, i.e. `re.search(p, s, re.IGNORECASE)`
   * for a pattern without regex metacharacters; case folding is ASCII only.
   */
  predicate MatchesCI(p: string, s: string)
  {
    Occurs(Lower(p), Lower(s))
  }

  predicate StartsWith(s: string, prefix: string)
  {
    |prefix| <= |s| && s[..|prefix|] == prefix
  }

  /** A character that occurs in a non-empty pattern occurs in any string that contains the pattern. */
  lemma OccursHasFirst(p: string, s: string)
    requires |p| > 0 && Occurs(p, s)
    ensures p[0] in s
  {
    var i :| 0 <= i <= |s| - |p| && OccursAt(p, s, i);
    assert s[i..i + |p|][0] == s[i];
  }

  // ---- splitting on a separator (Python's str.split(sep) for a one-character sep)

  /** Index of the first occurrence of `c` in `s`. */
  function IndexOf(s: string, c: char): (i: nat)
    requires c in s
    ensures i < |s| && s[i] == c && c !in s[..i]
  {
    if s[0] == c then 0 else 1 + IndexOf(s[1..], c)
  }

  /** The inverse of Split: the parts glued back together with `c` between consecutive parts. */
  function Join(parts: seq<string>, c: char): string
    requires |parts| > 0
  {
    if |parts| == 1 then parts[0] else parts[0] + [c] + Join(parts[1..], c)
  }

  /** `s.split(c)`: the maximal pieces of `s` between occurrences of `c`. */
  function Split(s: string, c: char): (parts: seq<string>)
    ensures |parts| > 0
    ensures forall k :: 0 <= k < |parts| ==> c !in parts[k]
    ensures Join(parts, c) == s
    ensures (c in s) == (|parts| > 1)
    decreases |s|
  {
    if c !in s then [s]
    else
      var i := IndexOf(s, c);
      var rest := Split(s[i + 1..], c);
      assert s == s[..i] + [c] + s[i + 1..];
      [s[..i]] + rest
  }

  /** The first `c` of `a + [c] + rest` is the one after `a` when `a` has none. */
  lemma {:induction false} IndexOfFirst(a: string, c: char, rest: string)
    requires c !in a
    ensures IndexOf(a + [c] + rest, c) == |a|
  {
    if |a| > 0 {
      assert (a + [c] + rest)[1..] == a[1..] + [c] + rest;
      IndexOfFirst(a[1..], c, rest);
    }
  }

  /** A string with exactly one separator splits into the two pieces around it. */
  lemma SplitOnce(a: string, c: char, b: string)
    requires c !in a && c !in b
    ensures Split(a + [c] + b, c) == [a, b]
  {
    var s := a + [c] + b;
    assert s[|a|] == c;
    IndexOfFirst(a, c, b);
    assert s[..|a|] == a && s[|a| + 1..] == b;
  }

  // ---- decimal rendering (the `{step_idx+1}` of an f-string)

  function DigitChar(d: nat): char
    requires d < 10
  {
    "0123456789"[d]
  }

  predicate AllDigits(s: string)
  {
    forall k | 0 <= k < |s| :: IsDigit(s[k])
  }

  /** The number a string of decimal digits denotes, most significant digit first. */
  function DecimalValue(s: string): nat
    requires AllDigits(s)
  {
    if |s| == 0 then 0
    else DecimalValue(s[..|s| - 1]) * 10 + (s[|s| - 1] as int - '0' as int)
  }

  /** The decimal rendering of `n`: digits that denote `n`, with no leading zero. */
  function NatToString(n: nat): (s: string)
    ensures |s| > 0 && AllDigits(s)
    ensures DecimalValue(s) == n
    ensures s[0] == '0' ==> s == "0"
  {
    if n < 10 then [DigitChar(n)]
    else
      var s := NatToString(n / 10) + [DigitChar(n % 10)];
      assert s[..|s| - 1] == NatToString(n / 10);
      s
  }

  // ---- character classes of the secret expression

  /** Python's `\s` on text: the characters for which `str.isspace()` holds. */
  predicate IsSpace(c: char)
  {
    var n := c as int;
    || n == 0x20 || 0x09 <= n <= 0x0D || 0x1C <= n <= 0x1F
    || n == 0x85 || n == 0xA0 || n == 0x1680 || 0x2000 <= n <= 0x200A
    || n == 0x2028 || n == 0x2029 || n == 0x202F || n == 0x205F || n == 0x3000
  }

  /** `[A-Za-z0-9_-]` */
  predicate IsIdentChar(c: char)
  {
    'A' <= c <= 'Z' || 'a' <= c <= 'z' || '0' <= c <= '9' || c == '_' || c == '-'
  }

  predicate IsDigit(c: char)
  {
    '0' <= c <= '9'
  }

  /** `[0-9a-f]` */
  predicate IsLowerHex(c: char)
  {
    '0' <= c <= '9' || 'a' <= c <= 'f'
  }
}
