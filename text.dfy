/**
 * The JavaScript string operations the pages rely on, on strings as
 * sequences of characters: `trim`, `toUpperCase`, `Number.toString`,
 * `padStart`, `startsWith`, `replace` with a string pattern and the
 * relational `<` / `>=` on strings.
 */
module Text {

  /** ECMAScript WhiteSpace and LineTerminator characters, which `trim` removes. */
  predicate IsWhitespace(c: char) {
    c == '\t' || c == '\n' || c == '\U{000B}' || c == '\U{000C}' || c == '\r' || c == ' ' ||
    c == '\U{00A0}' || c == '\U{1680}' || ('\U{2000}' <= c <= '\U{200A}') ||
    c == '\U{2028}' || c == '\U{2029}' || c == '\U{202F}' || c == '\U{205F}' ||
    c == '\U{3000}' || c == '\U{FEFF}'
  }

  /** `trimStart`: the suffix left after dropping the leading whitespace. */
  function TrimStart(s: string): (r: string)
    ensures |r| <= |s| && r == s[|s| - |r|..]
    ensures forall k :: 0 <= k < |s| - |r| ==> IsWhitespace(s[k])
    ensures r != [] ==> !IsWhitespace(r[0])
  {
    if s != [] && IsWhitespace(s[0]) then TrimStart(s[1..]) else s
  }

  /** `trimEnd`: the prefix left after dropping the trailing whitespace. */
  function TrimEnd(s: string): (r: string)
    ensures |r| <= |s| && r == s[..|r|]
    ensures forall k :: |r| <= k < |s| ==> IsWhitespace(s[k])
    ensures r != [] ==> !IsWhitespace(r[|r| - 1])
  {
    if s != [] && IsWhitespace(s[|s| - 1]) then TrimEnd(s[..|s| - 1]) else s
  }

  /** Everything before position `i` and from position `j` on is whitespace. */
  predicate Margins(s: string, i: int, j: int) {
    0 <= i <= j <= |s| &&
    (forall k :: 0 <= k < i ==> IsWhitespace(s[k])) &&
    (forall k :: j <= k < |s| ==> IsWhitespace(s[k]))
  }

  /**
   * `trim`: whitespace removed from both ends. The result is the run of `s`
   * between two margins of whitespace, and its own ends are not whitespace.
   */
  function Trim(s: string): (r: string)
    ensures exists i, j :: Margins(s, i, j) && r == s[i..j]
    ensures r != [] ==> !IsWhitespace(r[0]) && !IsWhitespace(r[|r| - 1])
  {
    TrimEndOfSuffix(s, TrimStart(s));
    TrimEnd(TrimStart(s))
  }

  /** Trimming the end of a suffix `t` of `s` that follows only whitespace leaves a run of `s` between margins. */
  lemma TrimEndOfSuffix(s: string, t: string)
    requires |t| <= |s| && t == s[|s| - |t|..]
    requires forall k :: 0 <= k < |s| - |t| ==> IsWhitespace(s[k])
    ensures Margins(s, |s| - |t|, |s| - |t| + |TrimEnd(t)|)
    ensures TrimEnd(t) == s[|s| - |t|..|s| - |t| + |TrimEnd(t)|]
  {
    var r := TrimEnd(t);
    var i := |s| - |t|;
    assert r == t[..|r|];
    assert t[..|r|] == s[i..i + |r|];
    forall k | i + |r| <= k < |s|
      ensures IsWhitespace(s[k])
    {
      assert s[k] == t[k - i];
    }
  }

  /** The trimmed string is empty exactly when every character is whitespace. */
  lemma TrimEmptyIff(s: string)
    ensures Trim(s) == [] <==> forall k :: 0 <= k < |s| ==> IsWhitespace(s[k])
  {
    var r := Trim(s);
    var i, j :| Margins(s, i, j) && r == s[i..j];
    if r != [] {
      assert s[i] == r[0];
    }
  }

  /** A string whose ends are not whitespace is its own trim. */
  lemma TrimOfTrimmed(s: string)
    requires s != [] ==> !IsWhitespace(s[0]) && !IsWhitespace(s[|s| - 1])
    ensures Trim(s) == s
  {
  }

  /** `toUpperCase` on one character, for the ASCII letters. */
  function UpperChar(c: char): (u: char)
    ensures 'a' <= c <= 'z' ==> u as int == c as int - 32
    ensures !('a' <= c <= 'z') ==> u == c
    ensures !('a' <= u <= 'z')
  {
    if 'a' <= c <= 'z' then (c as int - 32) as char else c
  }

  /** `toUpperCase`. */
  function ToUpper(s: string): (r: string)
    ensures |r| == |s|
    ensures forall k :: 0 <= k < |s| ==> r[k] == UpperChar(s[k])
  {
    seq(|s|, k requires 0 <= k < |s| => UpperChar(s[k]))
  }

  /** Upper-casing never creates or removes whitespace, and a second pass changes nothing. */
  lemma UpperKeepsWhitespace(c: char)
    ensures IsWhitespace(UpperChar(c)) == IsWhitespace(c)
    ensures UpperChar(UpperChar(c)) == UpperChar(c)
  {
  }

  lemma ToUpperIdempotent(s: string)
    ensures ToUpper(ToUpper(s)) == ToUpper(s)
  {
    forall k | 0 <= k < |s| ensures ToUpper(ToUpper(s))[k] == ToUpper(s)[k] {
      UpperKeepsWhitespace(s[k]);
    }
  }

  /** A string without lower-case ASCII letters is its own upper case. */
  lemma ToUpperOfUpper(s: string)
    requires forall k :: 0 <= k < |s| ==> !('a' <= s[k] <= 'z')
    ensures ToUpper(s) == s
  {
  }

  /** The characters `0`..`9`. */
  function Digit(d: nat): (c: char)
    requires d < 10
    ensures '0' <= c <= '9' && c as int - '0' as int == d
  {
    ('0' as int + d) as char
  }

  /** `n.toString()` for a non-negative integer: its decimal digits, without leading zeros. */
  function DecimalString(n: nat): (r: string)
    ensures |r| >= 1
    ensures n < 10 <==> |r| == 1
    ensures 10 <= n < 100 <==> |r| == 2
    ensures forall k :: 0 <= k < |r| ==> '0' <= r[k] <= '9'
    decreases n
  {
    if n < 10 then [Digit(n)] else DecimalString(n / 10) + [Digit(n % 10)]
  }

  /** `s.padStart(2, "0")`: zeros on the left up to length 2. */
  function PadStart2(s: string): (r: string)
    ensures |s| >= 2 ==> r == s
    ensures |s| < 2 ==> |r| == 2 && r[2 - |s|..] == s && forall k :: 0 <= k < 2 - |s| ==> r[k] == '0'
  {
    if |s| >= 2 then s else seq(2 - |s|, _ => '0') + s
  }

  /** Every character is a decimal digit. */
  predicate AllDigits(s: string) {
    forall k :: 0 <= k < |s| ==> '0' <= s[k] <= '9'
  }

  lemma AllDigitsConcat(a: string, b: string)
    requires AllDigits(a) && AllDigits(b)
    ensures AllDigits(a + b)
  {
  }

  /** `n.toString().padStart(2, "0")` for `n < 100`: the tens digit, then the units digit. */
  function TwoDigits(n: nat): (r: string)
    requires n < 100
    ensures r == [Digit(n / 10), Digit(n % 10)]
    ensures AllDigits(r)
  {
    assert n >= 10 ==> DecimalString(n) == DecimalString(n / 10) + [Digit(n % 10)];
    PadStart2(DecimalString(n))
  }

  /** Reading two decimal digits back. */
  function ParseTwoDigits(s: string): int
    requires |s| == 2
  {
    (s[0] as int - '0' as int) * 10 + (s[1] as int - '0' as int)
  }

  lemma TwoDigitsRoundTrip(n: nat)
    requires n < 100
    ensures ParseTwoDigits(TwoDigits(n)) == n
  {
  }

  /** `pat` occurs in `hay` starting at position `i`. */
  predicate OccursAt(hay: string, pat: string, i: int) {
    0 <= i && i + |pat| <= |hay| && hay[i..i + |pat|] == pat
  }

  /** `hay.indexOf(pat)`: the first position where `pat` occurs in `hay`, or -1. */
  function FindFirst(hay: string, pat: string): (r: int)
    ensures r == -1 || OccursAt(hay, pat, r)
    ensures forall i :: 0 <= i && (r == -1 || i < r) ==> !OccursAt(hay, pat, i)
    decreases |hay|
  {
    if |hay| < |pat| then -1
    else if pat <= hay then
      assert hay[0..|pat|] == pat;
      0
    else
      var i := FindFirst(hay[1..], pat);
      assert forall k :: 1 <= k ==> (OccursAt(hay, pat, k) <==> OccursAt(hay[1..], pat, k - 1)) by {
        forall k | 1 <= k ensures OccursAt(hay, pat, k) <==> OccursAt(hay[1..], pat, k - 1) {
          if k + |pat| <= |hay| {
            assert hay[1..][k - 1..k - 1 + |pat|] == hay[k..k + |pat|];
          }
        }
      }
      assert !OccursAt(hay, pat, 0);
      if i == -1 then -1 else i + 1
  }

  /** `s.replace(pat, rep)` with a string pattern: only the first occurrence is replaced. */
  function ReplaceFirst(s: string, pat: string, rep: string): (r: string)
    ensures (forall i :: !OccursAt(s, pat, i)) ==> r == s
    ensures forall i :: OccursAt(s, pat, i) && (forall j :: 0 <= j < i ==> !OccursAt(s, pat, j)) ==>
      r == s[..i] + rep + s[i + |pat|..]
  {
    var i := FindFirst(s, pat);
    if i == -1 then s else s[..i] + rep + s[i + |pat|..]
  }

  /** Removing a prefix that `s` starts with. */
  lemma ReplaceLeadingOccurrence(s: string, pat: string)
    requires pat <= s
    ensures ReplaceFirst(s, pat, "") == s[|pat|..]
  {
    assert OccursAt(s, pat, 0);
  }

  /** Nothing to replace leaves the string as it was. */
  lemma ReplaceAbsent(s: string, pat: string, rep: string)
    requires forall i :: !OccursAt(s, pat, i)
    ensures ReplaceFirst(s, pat, rep) == s
  {
  }

  /** The relational `a < b` on strings: lexicographic, a proper prefix being smaller. */
  predicate Less(a: string, b: string) {
    if b == [] then false
    else if a == [] then true
    else if a[0] != b[0] then a[0] < b[0]
    else Less(a[1..], b[1..])
  }

  /** The relational `a >= b` on strings. */
  predicate AtLeast(a: string, b: string) {
    !Less(a, b)
  }

  /** `<` is a strict total order: exactly one of `a < b`, `a == b` and `b < a` holds. */
  lemma {:induction false} LessTrichotomy(a: string, b: string)
    ensures Less(a, b) || a == b || Less(b, a)
    ensures !(Less(a, b) && Less(b, a))
    ensures !(Less(a, b) && a == b)
  {
    if a != [] && b != [] && a[0] == b[0] {
      LessTrichotomy(a[1..], b[1..]);
      if a[1..] == b[1..] {
        assert a == [a[0]] + a[1..] && b == [b[0]] + b[1..];
      }
    }
  }

  /** So `a >= b` holds exactly when the strings are equal or `b < a`. */
  lemma AtLeastIff(a: string, b: string)
    ensures AtLeast(a, b) <==> a == b || Less(b, a)
  {
    LessTrichotomy(a, b);
  }
}
