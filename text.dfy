/**
 * The string operations the client uses, on `string` = `seq<char>`:
 * `includes`, `substring(0, n)`, `split(c)[0]`, `trim`, ASCII case mapping,
 * decimal rendering of numbers (template literals) and the default
 * lexicographic order of `Array.prototype.sort`.
 */
module Text {

  // ---------------------------------------------------------------- includes

  /** `sub` occurs in `s` starting at position `i`. */
  predicate OccursAt(s: string, sub: string, i: int) {
    0 <= i <= |s| - |sub| && s[i..i + |sub|] == sub
  }

  /** `s.includes(sub)`: `sub` occurs in `s` at some position. */
  predicate Contains(s: string, sub: string) {
    exists i :: 0 <= i <= |s| - |sub| && OccursAt(s, sub, i)
  }

  /** Every string includes the empty string, so an empty search term matches everything. */
  lemma ContainsEmpty(s: string)
    ensures Contains(s, "")
  {
    assert OccursAt(s, "", 0);
  }

  /** A string includes its own prefixes and, in particular, itself. */
  lemma ContainsPrefix(s: string, n: nat)
    requires n <= |s|
    ensures Contains(s, s[..n])
  {
    assert OccursAt(s, s[..n], 0);
  }

  /** A longer string never occurs inside a shorter one. */
  lemma NotContainsLonger(s: string, sub: string)
    requires |sub| > |s|
    ensures !Contains(s, sub)
  {
  }

  /** A string that lacks one of the characters of `sub` cannot include `sub`. */
  lemma NotContainsMissingChar(s: string, sub: string, c: char)
    requires c in sub && c !in s
    ensures !Contains(s, sub)
  {
    forall i | 0 <= i <= |s| - |sub| ensures !OccursAt(s, sub, i) {
      var k :| 0 <= k < |sub| && sub[k] == c;
      assert s[i..i + |sub|][k] == s[i + k];
    }
  }

  /** If `s` includes `sub`, any extension of `s` on either side includes it too. */
  lemma ContainsInExtension(pre: string, s: string, post: string, sub: string)
    requires Contains(s, sub)
    ensures Contains(pre + s + post, sub)
  {
    var i :| 0 <= i <= |s| - |sub| && OccursAt(s, sub, i);
    var t := pre + s + post;
    var j := |pre| + i;
    assert t[j..j + |sub|] == s[i..i + |sub|];
    assert OccursAt(t, sub, j);
  }

  // ---------------------------------------------------------------- substring / split

  /** `s.substring(0, n)` for `n >= 0`: the first `n` characters, or all of a shorter string. */
  function Take(s: string, n: nat): (r: string)
    ensures |r| <= |s|
    ensures |r| == if |s| <= n then |s| else n
    ensures r == s[..|r|]
  {
    if |s| <= n then s else s[..n]
  }

  /** `s.split(c)[0]`: everything before the first `c`, or all of `s` when there is none. */
  function BeforeFirst(s: string, c: char): (r: string)
    ensures |r| <= |s|
    ensures r == s[..|r|]
    ensures c !in r
    ensures |r| < |s| ==> s[|r|] == c
  {
    if s == [] then []
    else if s[0] == c then []
    else [s[0]] + BeforeFirst(s[1..], c)
  }

  /** The part before the first `c` of `a + [c] + b` is `a` when `a` has no `c`. */
  lemma {:induction false} BeforeFirstOfJoin(a: string, c: char, b: string)
    requires c !in a
    ensures BeforeFirst(a + [c] + b, c) == a
  {
    if a != [] {
      assert (a + [c] + b)[1..] == a[1..] + [c] + b;
      BeforeFirstOfJoin(a[1..], c, b);
    }
  }

  /** A string without `c` is its own part before `c`. */
  lemma {:induction false} BeforeFirstAbsent(s: string, c: char)
    requires c !in s
    ensures BeforeFirst(s, c) == s
  {
    if s != [] {
      BeforeFirstAbsent(s[1..], c);
    }
  }

  // ---------------------------------------------------------------- trim

  /**
   * The characters `String.prototype.trim` removes: ECMAScript WhiteSpace
   * (tab, vertical tab, form feed, space, no-break space, BOM and the Unicode
   * space separators) and LineTerminator.
   */
  predicate IsSpace(c: char) {
    c == '\t' || c == '\U{000B}' || c == '\U{000C}' || c == ' ' || c == '\U{00A0}' || c == '\U{FEFF}'
    || c == '\U{1680}' || ('\U{2000}' <= c <= '\U{200A}') || c == '\U{202F}' || c == '\U{205F}' || c == '\U{3000}'
    || c == '\n' || c == '\r' || c == '\U{2028}' || c == '\U{2029}'
  }

  /** Every character of `s` is a space: the input `trim` turns into `""`. */
  predicate IsBlank(s: string) {
    forall i :: 0 <= i < |s| ==> IsSpace(s[i])
  }

  function TrimStart(s: string): (r: string)
    ensures |r| <= |s|
    ensures r == s[|s| - |r|..]
    ensures IsBlank(s[..|s| - |r|])
    ensures r == [] || !IsSpace(r[0])
  {
    if s != [] && IsSpace(s[0]) then
      var r := TrimStart(s[1..]);
      assert s[..|s| - |r|] == [s[0]] + s[1..][..|s[1..]| - |r|];
      r
    else s
  }

  function TrimEnd(s: string): (r: string)
    ensures |r| <= |s|
    ensures r == s[..|r|]
    ensures IsBlank(s[|r|..])
    ensures r == [] || !IsSpace(r[|r| - 1])
  {
    if s != [] && IsSpace(s[|s| - 1]) then
      var init := s[..|s| - 1];
      var r := TrimEnd(init);
      assert init[..|r|] == s[..|r|];
      assert s[|r|..] == init[|r|..] + [s[|s| - 1]];
      r
    else s
  }

  /** `s.trim()`. */
  function Trim(s: string): string {
    TrimEnd(TrimStart(s))
  }

  /**
   * `trim` removes exactly the leading and trailing spaces: the result is a
   * contiguous slice of `s`, what was cut off is blank, and the result neither
   * starts nor ends with a space.
   */
  lemma TrimSpec(s: string)
    ensures exists i, j :: 0 <= i <= j <= |s| && Trim(s) == s[i..j] && IsBlank(s[..i]) && IsBlank(s[j..])
    ensures Trim(s) == [] || (!IsSpace(Trim(s)[0]) && !IsSpace(Trim(s)[|Trim(s)| - 1]))
  {
    var i, j := TrimBounds(s);
    var r := Trim(s);
    if r != [] {
      assert r[0] == TrimStart(s)[0];
    }
  }

  /** Where `trim`'s result sits in `s`. */
  lemma TrimBounds(s: string) returns (i: int, j: int)
    ensures 0 <= i <= j <= |s| && Trim(s) == s[i..j] && IsBlank(s[..i]) && IsBlank(s[j..])
  {
    var a := TrimStart(s);
    var r := TrimEnd(a);
    i, j := |s| - |a|, |s| - |a| + |r|;
    assert Trim(s) == r == s[i..j] by {
      assert a == s[i..] && r == a[..|r|];
    }
    assert IsBlank(s[j..]) by {
      assert s[j..] == a[|r|..];
    }
  }

  /** A non-space character survives `TrimStart`, at its position shifted by what was cut. */
  lemma TrimStartKeepsNonSpace(s: string, k: int)
    requires 0 <= k < |s| && !IsSpace(s[k])
    ensures |s| - |TrimStart(s)| <= k
    ensures TrimStart(s)[k - (|s| - |TrimStart(s)|)] == s[k]
  {
    var n := |s| - |TrimStart(s)|;
    assert forall j :: 0 <= j < n ==> s[..n][j] == s[j];
  }

  /** A non-space character survives `TrimEnd` at its own position. */
  lemma TrimEndKeepsNonSpace(s: string, k: int)
    requires 0 <= k < |s| && !IsSpace(s[k])
    ensures k < |TrimEnd(s)|
  {
    var r := TrimEnd(s);
    assert forall j :: |r| <= j < |s| ==> s[|r|..][j - |r|] == s[j];
  }

  /** A blank string trims to `""`, and only a blank string does. */
  lemma TrimEmptyIffBlank(s: string)
    ensures Trim(s) == "" <==> IsBlank(s)
  {
    if IsBlank(s) {
      assert TrimStart(s) == [];
    } else {
      var k :| 0 <= k < |s| && !IsSpace(s[k]);
      TrimStartKeepsNonSpace(s, k);
      TrimEndKeepsNonSpace(TrimStart(s), k - (|s| - |TrimStart(s)|));
    }
  }

  // ---------------------------------------------------------------- case mapping

  /** `toUpperCase` on one character, for the ASCII letters. */
  function UpperChar(c: char): char {
    if 'a' <= c <= 'z' then (c as int - 32) as char else c
  }

  /** Upper-casing neither makes nor removes a space. */
  lemma UpperCharKeepsSpace(c: char)
    ensures IsSpace(UpperChar(c)) <==> IsSpace(c)
  {
  }

  /** Upper-casing keeps a text blank exactly when it was, so `trim()` empties both alike. */
  lemma ToUpperKeepsBlank(s: string)
    ensures Trim(ToUpper(s)) == "" <==> Trim(s) == ""
  {
    TrimEmptyIffBlank(s);
    TrimEmptyIffBlank(ToUpper(s));
    forall i | 0 <= i < |s|
      ensures IsSpace(ToUpper(s)[i]) <==> IsSpace(s[i])
    {
      UpperCharKeepsSpace(s[i]);
    }
  }

  /** `toLowerCase` on one character, for the ASCII letters. */
  function LowerChar(c: char): char {
    if 'A' <= c <= 'Z' then (c as int + 32) as char else c
  }

  function ToUpper(s: string): (r: string)
    ensures |r| == |s|
    ensures forall i :: 0 <= i < |s| ==> r[i] == UpperChar(s[i])
  {
    if s == [] then [] else [UpperChar(s[0])] + ToUpper(s[1..])
  }

  function ToLower(s: string): (r: string)
    ensures |r| == |s|
    ensures forall i :: 0 <= i < |s| ==> r[i] == LowerChar(s[i])
  {
    if s == [] then [] else [LowerChar(s[0])] + ToLower(s[1..])
  }

  // ---------------------------------------------------------------- numbers

  predicate IsDigit(c: char) {
    '0' <= c <= '9'
  }

  predicate AllDigits(s: string) {
    forall i :: 0 <= i < |s| ==> IsDigit(s[i])
  }

  function DigitChar(d: nat): (c: char)
    requires d < 10
    ensures IsDigit(c) && c as int - '0' as int == d
  {
    ('0' as int + d) as char
  }

  /** The decimal numeral of `n`, as `${n}` writes a non-negative integer. */
  function NatToString(n: nat): (r: string)
    ensures 0 < |r| && AllDigits(r)
    ensures n < 10 <==> |r| == 1
    decreases n
  {
    if n < 10 then [DigitChar(n)] else NatToString(n / 10) + [DigitChar(n % 10)]
  }

  /** `${i}` for any integer: a minus sign before the numeral of a negative one. */
  function IntToString(i: int): string {
    if i < 0 then "-" + NatToString(-i) else NatToString(i)
  }

  /** The value of a string of decimal digits. */
  function DigitsValue(s: string): nat
    requires AllDigits(s)
  {
    if s == [] then 0 else DigitsValue(s[..|s| - 1]) * 10 + (s[|s| - 1] as int - '0' as int)
  }

  /** Reading back a numeral gives the number it was written from. */
  lemma {:induction false} NatToStringRoundTrip(n: nat)
    ensures DigitsValue(NatToString(n)) == n
  {
    if n >= 10 {
      NatToStringRoundTrip(n / 10);
      var s := NatToString(n);
      assert s[..|s| - 1] == NatToString(n / 10);
    }
  }

  /** Different numbers have different numerals. */
  lemma NatToStringInjective(m: nat, n: nat)
    requires NatToString(m) == NatToString(n)
    ensures m == n
  {
    NatToStringRoundTrip(m);
    NatToStringRoundTrip(n);
  }

  // ---------------------------------------------------------------- ordering

  /**
   * The order the default `Array.prototype.sort` puts strings in:
   * character-by-character comparison, a proper prefix first.
   */
  predicate LexLess(a: string, b: string)
    decreases |a|
  {
    |b| > 0 && (|a| == 0 || a[0] < b[0] || (a[0] == b[0] && LexLess(a[1..], b[1..])))
  }

  lemma {:induction false} LexLessIrreflexive(a: string)
    ensures !LexLess(a, a)
  {
    if |a| > 0 {
      LexLessIrreflexive(a[1..]);
    }
  }

  lemma {:induction false} LexLessTransitive(a: string, b: string, c: string)
    requires LexLess(a, b) && LexLess(b, c)
    ensures LexLess(a, c)
    decreases |a|
  {
    if |a| > 0 && a[0] == b[0] && b[0] == c[0] {
      LexLessTransitive(a[1..], b[1..], c[1..]);
    }
  }

  lemma {:induction false} LexLessTotal(a: string, b: string)
    requires a != b
    ensures LexLess(a, b) || LexLess(b, a)
    decreases |a|
  {
    if |a| > 0 && |b| > 0 && a[0] == b[0] {
      assert a == [a[0]] + a[1..] && b == [b[0]] + b[1..];
      LexLessTotal(a[1..], b[1..]);
    }
  }

  /** Every element of `s` comes strictly before every later one. */
  predicate StrictlySorted(s: seq<string>) {
    forall i, j :: 0 <= i < j < |s| ==> LexLess(s[i], s[j])
  }

  /** Insert `k` at its place in a strictly sorted sequence that does not hold it yet. */
  function InsertSorted(s: seq<string>, k: string): (r: seq<string>)
    requires StrictlySorted(s) && k !in s
    ensures StrictlySorted(r)
    ensures |r| == |s| + 1
    ensures forall x :: x in r <==> x in s || x == k
  {
    if s == [] then [k]
    else if LexLess(k, s[0]) then
      forall j | 0 < j < |s| ensures LexLess(k, s[j]) {
        LexLessTransitive(k, s[0], s[j]);
      }
      [k] + s
    else
      LexLessTotal(k, s[0]);
      var rest := InsertSorted(s[1..], k);
      assert forall x :: x in rest ==> LexLess(s[0], x) by {
        forall x | x in rest ensures LexLess(s[0], x) {
          if x != k {
            var j :| 0 <= j < |s[1..]| && s[1..][j] == x;
            assert s[j + 1] == x;
          }
        }
      }
      [s[0]] + rest
  }
}
