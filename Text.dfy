/** The .NET string operations the bot relies on, written out over
    `seq<char>`: `Contains`, an ordinal prefix test (.NET's
    `StartsWith(string)` compares under the current culture instead),
    `Replace`, `Trim`, `Split` with
    `RemoveEmptyEntries`, `int.TryParse`, invariant `ToLower`/`ToUpper`
    (ASCII and Cyrillic letters only), `string.Length` (UTF-16 code units)
    and fixed-width decimal formatting. */
module Text {
  import opened Wrappers

  /** `char.IsWhiteSpace`, which is also the class `\s` of .NET regular
      expressions: the Unicode White_Space characters. */
  predicate IsWhiteSpace(c: char) {
    c == ' ' || ('\t' <= c <= '\r') || c == '\U{85}' || c == '\U{A0}' || c == '\U{1680}'
    || ('\U{2000}' <= c <= '\U{200A}') || c == '\U{2028}' || c == '\U{2029}'
    || c == '\U{202F}' || c == '\U{205F}' || c == '\U{3000}'
  }

  /** The characters `IsWhiteSpace` accepts, as a set. */
  const WhiteSpaceChars: set<char> :=
    {' ', '\t', '\n', '\U{0B}', '\U{0C}', '\r', '\U{85}', '\U{A0}', '\U{1680}',
     '\U{2000}', '\U{2001}', '\U{2002}', '\U{2003}', '\U{2004}', '\U{2005}',
     '\U{2006}', '\U{2007}', '\U{2008}', '\U{2009}', '\U{200A}',
     '\U{2028}', '\U{2029}', '\U{202F}', '\U{205F}', '\U{3000}'}

  lemma WhiteSpaceCharsExact(c: char)
    ensures c in WhiteSpaceChars <==> IsWhiteSpace(c)
  {
  }

  /** The white space `int.TryParse` tolerates around a number. */
  predicate IsNumberWhite(c: char) {
    c == ' ' || ('\t' <= c <= '\r')
  }

  predicate IsDigit(c: char) { '0' <= c <= '9' }

  predicate AllDigits(s: string) { forall i :: 0 <= i < |s| ==> IsDigit(s[i]) }

  predicate StartsWith(s: string, p: string) {
    |p| <= |s| && s[..|p|] == p
  }

  predicate EndsWith(s: string, p: string) {
    |p| <= |s| && s[|s| - |p|..] == p
  }

  lemma StartsWithAppend(a: string, b: string)
    ensures StartsWith(a + b, a)
  {
    assert (a + b)[..|a|] == a;
  }

  lemma EndsWithAppend(a: string, b: string)
    ensures EndsWith(a + b, b)
  {
    assert (a + b)[|a|..] == b;
  }

  lemma EndsWithLast(a: string, b: string, c: string, d: string)
    ensures EndsWith(a + (b + c + d), c + d)
  {
    assert a + (b + c + d) == (a + b) + (c + d);
    EndsWithAppend(a + b, c + d);
  }

  /** The character of `a + m + b` just before `b` is the last one of `m`. */
  lemma EndsWithAt(a: string, m: string, b: string)
    requires |m| > 0
    ensures (a + m + b)[|a + m + b| - |b| - 1] == m[|m| - 1]
  {
  }

  /** A text does not end with `t` when one character at the same distance
      from the end differs. */
  lemma NotEndsWith(s: string, t: string, d: nat)
    requires 0 < d <= |t| && d <= |s| && s[|s| - d] != t[|t| - d]
    ensures !EndsWith(s, t)
  {
    if |t| <= |s| {
      assert s[|s| - |t|..][|t| - d] == s[|s| - d];
    }
  }

  predicate OccursAt(s: string, t: string, i: int) {
    0 <= i && i + |t| <= |s| && s[i..i + |t|] == t
  }

  /** `string.Contains(t)` (ordinal). */
  predicate Contains(s: string, t: string) {
    exists i | 0 <= i && i + |t| <= |s| :: OccursAt(s, t, i)
  }

  /** Containment is transitive: whatever contains `t` contains every part of `t`. */
  lemma ContainsTransitive(s: string, t: string, u: string)
    requires Contains(s, t) && Contains(t, u)
    ensures Contains(s, u)
  {
    var i: int :| 0 <= i && i + |t| <= |s| && OccursAt(s, t, i);
    var j: int :| 0 <= j && j + |u| <= |t| && OccursAt(t, u, j);
    assert s[i..i + |t|] == t && t[j..j + |u|] == u;
    forall k | 0 <= k < |u|
      ensures s[i + j..i + j + |u|][k] == u[k]
    {
      assert u[k] == t[j..j + |u|][k] == t[j + k];
      assert t[j + k] == s[i..i + |t|][j + k] == s[i + j + k];
    }
    assert s[i + j..i + j + |u|] == u;
    assert OccursAt(s, u, i + j);
  }

  /** A string contains any string it starts with. */
  lemma StartsWithContains(s: string, p: string)
    requires StartsWith(s, p)
    ensures Contains(s, p)
  {
    assert OccursAt(s, p, 0);
  }

  /** A string contains itself as the part after any prefix. */
  lemma ContainsSuffix(s: string, p: string, t: string)
    requires s == p + t
    ensures Contains(s, t)
  {
    assert s[|p|..|p| + |t|] == t;
    assert OccursAt(s, t, |p|);
  }

  /** A string contains each of its middle parts. */
  lemma ContainsInfix(p: string, t: string, q: string)
    ensures Contains(p + t + q, t)
  {
    var s := p + t + q;
    assert s[|p|..|p| + |t|] == t;
    assert OccursAt(s, t, |p|);
  }

  /** Nothing longer than `s` occurs in `s`. */
  lemma NotContainsLonger(s: string, t: string)
    requires |t| > |s|
    ensures !Contains(s, t)
  {
  }

  /** `string.Replace(pat, rep)`: every non-overlapping occurrence of `pat`,
      scanning left to right, replaced by `rep`. */
  function ReplaceAll(s: string, pat: string, rep: string): (r: string)
    requires |pat| > 0
    ensures !Contains(s, pat) ==> r == s
    decreases |s|
  {
    if |s| == 0 then ""
    else if StartsWith(s, pat) then
      StartsWithContains(s, pat);
      rep + ReplaceAll(s[|pat|..], pat, rep)
    else
      assert !Contains(s, pat) ==> !Contains(s[1..], pat) by {
        if Contains(s[1..], pat) {
          ContainsSuffix(s, [s[0]], s[1..]);
          ContainsTransitive(s, s[1..], pat);
        }
      }
      [s[0]] + ReplaceAll(s[1..], pat, rep)
  }

  /** `TrimStart()`: the longest suffix that does not start with white space. */
  function TrimStart(s: string): (r: string)
    ensures |r| <= |s| && r == s[|s| - |r|..]
    ensures forall i :: 0 <= i < |s| - |r| ==> IsWhiteSpace(s[i])
    ensures |r| > 0 ==> !IsWhiteSpace(r[0])
  {
    if |s| > 0 && IsWhiteSpace(s[0]) then TrimStart(s[1..]) else s
  }

  /** `TrimEnd()`: the longest prefix that does not end with white space. */
  function TrimEnd(s: string): (r: string)
    ensures |r| <= |s| && r == s[..|r|]
    ensures forall i :: |r| <= i < |s| ==> IsWhiteSpace(s[i])
    ensures |r| > 0 ==> !IsWhiteSpace(r[|r| - 1])
  {
    if |s| > 0 && IsWhiteSpace(s[|s| - 1]) then TrimEnd(s[..|s| - 1]) else s
  }

  /** `Trim()`. */
  function Trim(s: string): (r: string)
    ensures |r| > 0 ==> !IsWhiteSpace(r[0]) && !IsWhiteSpace(r[|r| - 1])
    ensures forall i :: 0 <= i < |r| ==> r[i] in s
    ensures (forall i :: 0 <= i < |s| ==> IsWhiteSpace(s[i])) <==> r == ""
  {
    var a := TrimStart(s);
    var r := TrimEnd(a);
    assert |r| > 0 ==> r[0] == a[0];
    assert forall i :: 0 <= i < |r| ==> r[i] == s[|s| - |a| + i];
    r
  }

  /** `string.IsNullOrWhiteSpace`. */
  predicate IsBlank(s: string) {
    forall i :: 0 <= i < |s| ==> IsWhiteSpace(s[i])
  }

  /** Trimming the number white space `int.TryParse` skips. */
  function TrimNumberWhite(s: string): (r: string)
    ensures |r| <= |s|
    ensures |r| > 0 ==> !IsNumberWhite(r[0]) && !IsNumberWhite(r[|r| - 1])
  {
    if |s| > 0 && IsNumberWhite(s[0]) then TrimNumberWhite(s[1..])
    else if |s| > 0 && IsNumberWhite(s[|s| - 1]) then TrimNumberWhite(s[..|s| - 1])
    else s
  }

  /** The culture-sensitive `char.ToLower`, restricted to the letters the
      bot's texts use: ASCII and Cyrillic (U+0400..U+042F); every other
      character, cased or not, is left as is. */
  function LowerChar(c: char): char {
    if 'A' <= c <= 'Z' then (c as int + 32) as char
    else if '\U{410}' <= c <= '\U{42F}' then (c as int + 32) as char
    else if '\U{400}' <= c <= '\U{40F}' then (c as int + 80) as char
    else c
  }

  /** The culture-sensitive `char.ToUpper`, on the same letters as LowerChar. */
  function UpperChar(c: char): char {
    if 'a' <= c <= 'z' then (c as int - 32) as char
    else if '\U{430}' <= c <= '\U{44F}' then (c as int - 32) as char
    else if '\U{450}' <= c <= '\U{45F}' then (c as int - 80) as char
    else c
  }

  /** Lower-casing an upper-case letter and upper-casing it back restores it. */
  lemma UpperLowerChar(c: char)
    requires 'A' <= c <= 'Z' || '\U{400}' <= c <= '\U{42F}'
    ensures UpperChar(LowerChar(c)) == c && LowerChar(c) != c
  {
  }

  /** `string.ToLower()`, character by character through LowerChar. */
  function ToLower(s: string): (r: string)
    ensures |r| == |s| && forall i :: 0 <= i < |s| ==> r[i] == LowerChar(s[i])
  {
    seq(|s|, i requires 0 <= i < |s| => LowerChar(s[i]))
  }

  /** `string.Length`: UTF-16 code units, two for a character outside the
      Basic Multilingual Plane (an emoji). */
  function Utf16Length(s: string): (n: nat)
    ensures |s| <= n <= 2 * |s|
  {
    if |s| == 0 then 0
    else (if s[0] as int > 0xFFFF then 2 else 1) + Utf16Length(s[1..])
  }

  function DigitChar(d: int): char
    requires 0 <= d < 10
  {
    ('0' as int + d) as char
  }

  function DigitValue(c: char): int
    requires IsDigit(c)
  {
    c as int - '0' as int
  }

  /** The value of a run of decimal digits, most significant first. */
  function DigitsValue(s: string): (n: nat)
    requires AllDigits(s)
  {
    if |s| == 0 then 0 else 10 * DigitsValue(s[..|s| - 1]) + DigitValue(s[|s| - 1])
  }

  /** The shortest decimal representation of `n`. */
  function NatToString(n: nat): (s: string)
    ensures |s| > 0 && AllDigits(s)
  {
    if n < 10 then [DigitChar(n)] else NatToString(n / 10) + [DigitChar(n % 10)]
  }

  /** `int.ToString()` in the invariant culture. */
  function IntToString(n: int): string {
    if n < 0 then "-" + NatToString(-n) else NatToString(n)
  }

  /** Decimal digits read back give the number they were written from. */
  lemma {:induction false} NatToStringValue(n: nat)
    ensures DigitsValue(NatToString(n)) == n
  {
    if n >= 10 {
      NatToStringValue(n / 10);
      var s := NatToString(n);
      assert s[..|s| - 1] == NatToString(n / 10);
    }
  }

  /** Two digits, with a leading zero (the `dd`, `MM`, `HH`, `mm` formats). */
  function Pad2(n: int): (s: string)
    requires 0 <= n < 100
    ensures |s| == 2 && AllDigits(s) && DigitsValue(s) == n
  {
    var s := [DigitChar(n / 10), DigitChar(n % 10)];
    assert s[..1] == [DigitChar(n / 10)] && s[..1][..0] == [];
    assert DigitsValue(s[..1]) == n / 10;
    s
  }

  /** Four digits, with leading zeros (the `yyyy` format). */
  function Pad4(n: int): (s: string)
    requires 0 <= n < 10000
    ensures |s| == 4 && AllDigits(s) && DigitsValue(s) == n
  {
    var a := [DigitChar(n / 1000)];
    var b := a + [DigitChar(n / 100 % 10)];
    var c := b + [DigitChar(n / 10 % 10)];
    var s := c + [DigitChar(n % 10)];
    assert a[..0] == [] && b[..1] == a && c[..2] == b && s[..3] == c;
    assert DigitsValue(a) == n / 1000;
    assert DigitsValue(b) == n / 100;
    assert DigitsValue(c) == n / 10;
    s
  }

  const Int32Min: int := -0x8000_0000
  const Int32Max: int := 0x7FFF_FFFF

  /** `int.TryParse(s, out n)` with `NumberStyles.Integer`: optional number
      white space around an optional sign and at least one ASCII digit, the
      value within the range of a 32-bit `int`. */
  function ParseInt32(s: string): (r: Option<int>)
    ensures r.Some? ==> Int32Min <= r.value <= Int32Max
  {
    var t := TrimNumberWhite(s);
    var negative := |t| > 0 && t[0] == '-';
    var digits := if |t| > 0 && (t[0] == '-' || t[0] == '+') then t[1..] else t;
    if |digits| == 0 || !AllDigits(digits) then None
    else
      var v: int := if negative then -(DigitsValue(digits) as int) else DigitsValue(digits);
      if Int32Min <= v <= Int32Max then Some(v) else None
  }

  /** The numeral the bot prints for a position is read back as that position. */
  lemma ParseNatToString(n: nat)
    requires n <= Int32Max
    ensures ParseInt32(NatToString(n)) == Some(n)
  {
    NatToStringValue(n);
    var s := NatToString(n);
    assert TrimNumberWhite(s) == s;
  }

  /** `Split(seps, StringSplitOptions.RemoveEmptyEntries)`: the maximal runs
      of characters outside `seps`, in order. */
  function Split(s: string, seps: set<char>): (r: seq<string>)
    ensures forall k :: 0 <= k < |r| ==> |r[k]| > 0 && forall j :: 0 <= j < |r[k]| ==> r[k][j] !in seps
    ensures Concat(r) == RemoveChars(s, seps)
    decreases |s|
  {
    if |s| == 0 then []
    else if s[0] in seps then Split(s[1..], seps)
    else
      var n := RunLength(s, seps);
      var rest := Split(s[n..], seps);
      RemoveCharsAppend(s[..n], s[n..], seps);
      RemoveCharsNone(s[..n], seps);
      assert s[..n] + s[n..] == s;
      [s[..n]] + rest
  }

  /** Separators at the front of a text do not change its words. */
  lemma {:induction false} SplitSkipsSeps(s: string, n: nat, seps: set<char>)
    requires n <= |s|
    requires forall k :: 0 <= k < n ==> s[k] in seps
    ensures Split(s, seps) == Split(s[n..], seps)
    decreases n
  {
    if n > 0 {
      assert Split(s, seps) == Split(s[1..], seps);
      assert s[1..][n - 1..] == s[n..];
      SplitSkipsSeps(s[1..], n - 1, seps);
    }
  }

  /** Separators at the end of a text do not change its words. */
  lemma {:induction false} SplitDropsTrailing(a: string, b: string, seps: set<char>)
    requires forall k :: 0 <= k < |b| ==> b[k] in seps
    ensures Split(a + b, seps) == Split(a, seps)
    decreases |a|
  {
    if |a| == 0 {
      assert a + b == b;
      SplitSkipsSeps(b, |b|, seps);
      assert b[|b|..] == [];
    } else if a[0] in seps {
      assert (a + b)[1..] == a[1..] + b;
      SplitDropsTrailing(a[1..], b, seps);
    } else {
      var m := RunLength(a, seps);
      var n := RunLength(a + b, seps);
      assert n == m by {
        assert forall j :: 0 <= j < m ==> (a + b)[j] == a[j];
        assert m < |a + b| ==> (a + b)[m] in seps by {
          if m < |a| {
            assert (a + b)[m] == a[m];
          } else if m < |a + b| {
            assert (a + b)[m] == b[m - |a|];
          }
        }
      }
      assert (a + b)[..n] == a[..m];
      assert (a + b)[n..] == a[m..] + b;
      SplitDropsTrailing(a[m..], b, seps);
    }
  }

  /** Trimming keeps the words between white space. */
  lemma TrimWords(s: string)
    ensures Split(Trim(s), WhiteSpaceChars) == Split(s, WhiteSpaceChars)
  {
    TrimStartWords(s);
    TrimEndWords(TrimStart(s));
  }

  lemma TrimStartWords(s: string)
    ensures Split(TrimStart(s), WhiteSpaceChars) == Split(s, WhiteSpaceChars)
  {
    var t := TrimStart(s);
    forall k | 0 <= k < |s| - |t| ensures s[k] in WhiteSpaceChars {
      WhiteSpaceCharsExact(s[k]);
    }
    SplitSkipsSeps(s, |s| - |t|, WhiteSpaceChars);
  }

  lemma TrimEndWords(t: string)
    ensures Split(TrimEnd(t), WhiteSpaceChars) == Split(t, WhiteSpaceChars)
  {
    var r := TrimEnd(t);
    var tail := t[|r|..];
    forall k | 0 <= k < |tail| ensures tail[k] in WhiteSpaceChars {
      assert tail[k] == t[|r| + k];
      WhiteSpaceCharsExact(tail[k]);
    }
    assert t == r + tail;
    SplitDropsTrailing(r, tail, WhiteSpaceChars);
  }

  /** A text that is one separator before `rest` has the words of any text
      whose words are those of `rest` after some separators. */
  lemma SplitSepsFront(r: string, rest: string, x: string, n: nat, seps: set<char>)
    requires |r| > 0 && r[0] in seps && r[1..] == rest
    requires n <= |x| && forall k :: 0 <= k < n ==> x[k] in seps
    requires Split(rest, seps) == Split(x[n..], seps)
    ensures Split(r, seps) == Split(x, seps)
  {
    SplitSkipsSeps(x, n, seps);
  }

  /** One more character in front of a text outside `seps` starts the
      first word when the text starts with a separator (or is empty), and
      joins its first word otherwise. */
  lemma SplitCons(c: char, x: string, seps: set<char>)
    requires c !in seps
    ensures |x| == 0 || x[0] in seps ==> Split([c] + x, seps) == [[c]] + Split(x, seps)
    ensures |x| > 0 && x[0] !in seps ==>
      |Split(x, seps)| > 0 && Split([c] + x, seps) == [[c] + Split(x, seps)[0]] + Split(x, seps)[1..]
  {
    var cx := [c] + x;
    var n := RunLength(x, seps);
    assert RunLength(cx, seps) == 1 + n by {
      assert cx[1..] == x;
    }
    assert Split(cx, seps) == [[c] + x[..n]] + Split(x[n..], seps) by {
      assert cx[..1 + n] == [c] + x[..n];
      assert cx[1 + n..] == x[n..];
    }
    if |x| > 0 && x[0] !in seps {
      assert Split(x, seps) == [x[..n]] + Split(x[n..], seps);
    } else {
      assert x[..n] == [] && x[n..] == x;
    }
  }

  /** Texts with the same words and the same first character class keep
      the same words with one more non-separator in front. */
  lemma SplitConsSame(c: char, x: string, y: string, seps: set<char>)
    requires c !in seps && Split(x, seps) == Split(y, seps)
    requires |x| == 0 <==> |y| == 0
    requires |x| > 0 ==> (x[0] in seps <==> y[0] in seps)
    ensures Split([c] + x, seps) == Split([c] + y, seps)
  {
    SplitCons(c, x, seps);
    SplitCons(c, y, seps);
  }

  /** The length of the leading run of characters outside `seps`. */
  function RunLength(s: string, seps: set<char>): (n: nat)
    ensures n <= |s|
    ensures forall j :: 0 <= j < n ==> s[j] !in seps
    ensures n < |s| ==> s[n] in seps
    ensures |s| > 0 && s[0] !in seps ==> n > 0
  {
    if |s| == 0 || s[0] in seps then 0 else 1 + RunLength(s[1..], seps)
  }

  function Concat(ss: seq<string>): string {
    if |ss| == 0 then "" else ss[0] + Concat(ss[1..])
  }

  /** `s` with every character of `cs` taken out. */
  function RemoveChars(s: string, cs: set<char>): string {
    if |s| == 0 then "" else (if s[0] in cs then "" else [s[0]]) + RemoveChars(s[1..], cs)
  }

  lemma {:induction false} RemoveCharsAppend(a: string, b: string, cs: set<char>)
    ensures RemoveChars(a + b, cs) == RemoveChars(a, cs) + RemoveChars(b, cs)
  {
    if |a| > 0 {
      assert (a + b)[1..] == a[1..] + b;
      RemoveCharsAppend(a[1..], b, cs);
    } else {
      assert a + b == b;
    }
  }

  lemma {:induction false} RemoveCharsNone(a: string, cs: set<char>)
    requires forall j :: 0 <= j < |a| ==> a[j] !in cs
    ensures RemoveChars(a, cs) == a
  {
    if |a| > 0 {
      RemoveCharsNone(a[1..], cs);
    }
  }
}
