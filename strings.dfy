/** The JavaScript string operations the application relies on, written out
    over `seq<char>`: `trim`, `toLowerCase`/`toUpperCase`, `includes`,
    `startsWith`, `replace` (first occurrence and global), `split` on one
    character, `join`, `substring(0, n)`, number-to-text and `parseInt`. */
module Strings {
  import opened Wrappers

  /** The code points JavaScript's `trim` and `parseInt` skip: the WhiteSpace
      and LineTerminator characters of ECMAScript. */
  predicate IsSpace(c: char) {
    || c == '\t' || c == '\n' || c == '\U{000B}' || c == '\U{000C}' || c == '\r' || c == ' '
    || c == '\U{00A0}' || c == '\U{1680}' || ('\U{2000}' <= c <= '\U{200A}')
    || c == '\U{2028}' || c == '\U{2029}' || c == '\U{202F}' || c == '\U{205F}'
    || c == '\U{3000}' || c == '\U{FEFF}'
  }

  /** A string for which `!s.trim()` holds: nothing but white space. */
  predicate IsBlank(s: string) {
    forall i :: 0 <= i < |s| ==> IsSpace(s[i])
  }

  /** `s.trimStart()`: the suffix of s that starts at its first non-space. */
  function TrimStart(s: string): (r: string)
    ensures |r| <= |s| && r == s[|s| - |r|..]
    ensures r == [] || !IsSpace(r[0])
    ensures forall i :: 0 <= i < |s| - |r| ==> IsSpace(s[i])
    decreases |s|
  {
    if |s| > 0 && IsSpace(s[0]) then TrimStart(s[1..]) else s
  }

  /** `s.trimEnd()`: the prefix of s that ends at its last non-space. */
  function TrimEnd(s: string): (r: string)
    ensures |r| <= |s| && r == s[..|r|]
    ensures r == [] || !IsSpace(r[|r| - 1])
    ensures forall i :: |r| <= i < |s| ==> IsSpace(s[i])
    decreases |s|
  {
    if |s| > 0 && IsSpace(s[|s| - 1]) then TrimEnd(s[..|s| - 1]) else s
  }

  /** `s.trim()` */
  function Trim(s: string): string {
    TrimEnd(TrimStart(s))
  }

  /** `!s.trim()` holds exactly for the blank strings. */
  lemma TrimEmptyIffBlank(s: string)
    ensures Trim(s) == [] <==> IsBlank(s)
  {
  }

  /** Trimming twice is trimming once: a trimmed string has no space at either end. */
  lemma TrimIdempotent(s: string)
    ensures Trim(Trim(s)) == Trim(s)
    ensures Trim(s) == [] || (!IsSpace(Trim(s)[0]) && !IsSpace(Trim(s)[|Trim(s)| - 1]))
  {
    var t := TrimStart(s);
    var r := TrimEnd(t);
    if r != [] {
      assert r[0] == t[0];
      assert TrimStart(r) == r;
      assert TrimEnd(r) == r;
    }
  }

  /** One character of `toLowerCase`: ASCII and Latin-1 capitals. */
  function LowerChar(c: char): char {
    if 'A' <= c <= 'Z' || ('\U{00C0}' <= c <= '\U{00DE}' && c != '\U{00D7}')
    then (c as int + 32) as char
    else c
  }

  /** One character of `toUpperCase`: ASCII and Latin-1 small letters. */
  function UpperChar(c: char): char {
    if 'a' <= c <= 'z' || ('\U{00E0}' <= c <= '\U{00FE}' && c != '\U{00F7}')
    then (c as int - 32) as char
    else c
  }

  /** `s.toLowerCase()` */
  function Lower(s: string): (r: string)
    ensures |r| == |s|
    ensures forall i :: 0 <= i < |s| ==> r[i] == LowerChar(s[i])
  {
    seq(|s|, i requires 0 <= i < |s| => LowerChar(s[i]))
  }

  /** `s.toUpperCase()` */
  function Upper(s: string): (r: string)
    ensures |r| == |s|
    ensures forall i :: 0 <= i < |s| ==> r[i] == UpperChar(s[i])
  {
    seq(|s|, i requires 0 <= i < |s| => UpperChar(s[i]))
  }

  /** Lower-casing a lower-cased string changes nothing. */
  lemma LowerIdempotent(s: string)
    ensures Lower(Lower(s)) == Lower(s)
  {
    assert forall i :: 0 <= i < |s| ==> LowerChar(LowerChar(s[i])) == LowerChar(s[i]);
  }

  /** `s.startsWith(p)` */
  predicate StartsWith(s: string, p: string) {
    p <= s
  }

  /** t occurs in s at position i. */
  predicate OccursAt(s: string, t: string, i: nat) {
    i + |t| <= |s| && s[i..i + |t|] == t
  }

  /** `s.includes(t)` */
  predicate Includes(s: string, t: string) {
    exists i: nat :: i <= |s| && OccursAt(s, t, i)
  }

  /** The leftmost occurrence of t in s at or after `from`, as `indexOf` finds it. */
  function IndexOfFrom(s: string, t: string, from: nat): (r: Option<nat>)
    ensures r.Some? ==> from <= r.value && OccursAt(s, t, r.value)
    ensures forall k: nat :: from <= k && (r.None? || k < r.value) ==> !OccursAt(s, t, k)
    decreases |s| - from
  {
    if from + |t| > |s| then None
    else if s[from..from + |t|] == t then Some(from)
    else IndexOfFrom(s, t, from + 1)
  }

  /** `s.indexOf(t)`, with -1 as None */
  function IndexOf(s: string, t: string): (r: Option<nat>)
    ensures r.Some? <==> Includes(s, t)
    ensures r.Some? ==> OccursAt(s, t, r.value) && forall k: nat :: k < r.value ==> !OccursAt(s, t, k)
    ensures r.None? ==> forall k: nat :: !OccursAt(s, t, k)
  {
    IndexOfFrom(s, t, 0)
  }

  /** The leftmost occurrence is the least position where t occurs. */
  lemma IndexOfIsLeast(s: string, t: string, i: nat)
    requires OccursAt(s, t, i)
    requires forall k: nat :: k < i ==> !OccursAt(s, t, k)
    ensures IndexOf(s, t) == Some(i)
  {
  }

  /** `s.replace(pat, rep)` with a string pattern: only the first occurrence is replaced. */
  function ReplaceFirst(s: string, pat: string, rep: string): string {
    match IndexOf(s, pat)
    case None => s
    case Some(i) => s[..i] + rep + s[i + |pat|..]
  }

  /** Removing a leading pattern with `replace(pat, '')` gives back what followed it. */
  lemma {:induction false} ReplacePrefixWithEmpty(p: string, s: string)
    ensures ReplaceFirst(p + s, p, "") == s
  {
    assert OccursAt(p + s, p, 0);
    IndexOfIsLeast(p + s, p, 0);
    assert (p + s)[|p|..] == s;
  }

  /** A string with no occurrence of the pattern is left as it is by `replace`. */
  lemma ReplaceFirstAbsent(s: string, pat: string, rep: string)
    requires !Includes(s, pat)
    ensures ReplaceFirst(s, pat, rep) == s
  {
  }

  /** `s.replace(/pat/g, rep)` for a pattern with no special characters, as
      ECMAScript describes it: replace the leftmost occurrence, then carry on
      after it. */
  function ReplaceAll(s: string, pat: string, rep: string): string
    requires |pat| > 0
    decreases |s|
  {
    match IndexOf(s, pat)
    case None => s
    case Some(i) => s[..i] + rep + ReplaceAll(s[i + |pat|..], pat, rep)
  }

  /** A template without the pattern comes out of the global replacement unchanged. */
  lemma ReplaceAllAbsent(s: string, pat: string, rep: string)
    requires |pat| > 0 && !Includes(s, pat)
    ensures ReplaceAll(s, pat, rep) == s
  {
  }

  /** `parts.join(sep)` */
  function Join(parts: seq<string>, sep: string): string {
    if |parts| == 0 then ""
    else if |parts| == 1 then parts[0]
    else parts[0] + sep + Join(parts[1..], sep)
  }

  /** A string occurs in any concatenation that has it in the middle. */
  lemma IncludesMiddle(a: string, t: string, b: string)
    ensures Includes(a + t + b, t)
  {
    assert (a + t + b)[|a|..|a| + |t|] == t;
    assert OccursAt(a + t + b, t, |a|);
  }

  /** What a string includes, it still includes with text put before it. */
  lemma IncludesAfter(a: string, s: string, t: string)
    requires Includes(s, t)
    ensures Includes(a + s, t)
  {
    var i: nat :| i <= |s| && OccursAt(s, t, i);
    assert (a + s)[|a| + i..|a| + i + |t|] == s[i..i + |t|];
    assert OccursAt(a + s, t, |a| + i);
  }

  /** Every part of a join occurs in it. */
  lemma {:induction false} JoinIncludesPart(parts: seq<string>, sep: string, i: nat)
    requires i < |parts|
    ensures Includes(Join(parts, sep), parts[i])
    decreases |parts|
  {
    if |parts| == 1 {
      IncludesMiddle("", parts[0], "");
      assert "" + parts[0] + "" == Join(parts, sep);
    } else if i == 0 {
      IncludesMiddle("", parts[0], sep + Join(parts[1..], sep));
      assert "" + parts[0] + (sep + Join(parts[1..], sep)) == Join(parts, sep);
    } else {
      JoinIncludesPart(parts[1..], sep, i - 1);
      IncludesAfter(parts[0] + sep, Join(parts[1..], sep), parts[i]);
    }
  }

  /** A join of non-empty parts is empty exactly when there are no parts. */
  lemma JoinEmpty(parts: seq<string>, sep: string)
    requires forall i :: 0 <= i < |parts| ==> parts[i] != ""
    ensures Join(parts, sep) == "" <==> |parts| == 0
  {
    if |parts| > 1 {
      assert |Join(parts, sep)| >= |parts[0]|;
    }
  }

  lemma NoCharBeforeFirst(s: string, c: char, i: nat)
    requires i <= |s|
    requires forall k: nat :: k < i ==> !OccursAt(s, [c], k)
    ensures c !in s[..i]
  {
    forall k | 0 <= k < i ensures s[k] != c {
      assert !OccursAt(s, [c], k);
      assert s[k..k + 1] == [s[k]];
    }
  }

  lemma NotAtChar(s: string, c: char, k: nat)
    requires k < |s| ==> s[k] != c
    ensures !OccursAt(s, [c], k)
  {
    if k < |s| {
      assert s[k..k + 1] == [s[k]];
    }
  }

  /** `s.split(sep)` for a one-character separator. */
  function Split(s: string, sep: char): (parts: seq<string>)
    ensures |parts| > 0
    ensures forall i :: 0 <= i < |parts| ==> sep !in parts[i]
    ensures Join(parts, [sep]) == s
    decreases |s|
  {
    match IndexOf(s, [sep])
    case None =>
      NoCharBeforeFirst(s, sep, |s|);
      assert s[..|s|] == s;
      [s]
    case Some(i) =>
      NoCharBeforeFirst(s, sep, i);
      assert s[i..i + 1] == [sep];
      assert s == s[..i] + [sep] + s[i + 1..];
      [s[..i]] + Split(s[i + 1..], sep)
  }

  /** Splitting a joined list gives the list back when no part holds the separator. */
  lemma {:induction false} SplitJoin(parts: seq<string>, sep: char)
    requires |parts| > 0
    requires forall i :: 0 <= i < |parts| ==> sep !in parts[i]
    ensures Split(Join(parts, [sep]), sep) == parts
    decreases |parts|
  {
    var s := Join(parts, [sep]);
    var p := parts[0];
    if |parts| == 1 {
      forall k: nat ensures !OccursAt(s, [sep], k) {
        if k < |s| { assert s[k] in p; }
        NotAtChar(s, sep, k);
      }
    } else {
      var rest := parts[1..];
      assert s == p + [sep] + Join(rest, [sep]);
      assert OccursAt(s, [sep], |p|) by { assert s[|p|..|p| + 1] == [sep]; }
      forall k: nat | k < |p| ensures !OccursAt(s, [sep], k) {
        assert s[k] == p[k];
        NotAtChar(s, sep, k);
      }
      IndexOfIsLeast(s, [sep], |p|);
      assert s[..|p|] == p;
      assert s[|p| + 1..] == Join(rest, [sep]);
      SplitJoin(rest, sep);
      assert parts == [p] + rest;
    }
  }

  /** `s.substring(0, n)`: the first n characters, or all of s when it is shorter. */
  function Prefix(s: string, n: nat): (r: string)
    ensures |r| == if |s| < n then |s| else n
    ensures r <= s
  {
    if |s| <= n then s else s[..n]
  }

  predicate IsDigit(c: char) {
    '0' <= c <= '9'
  }

  function DigitChar(d: nat): (c: char)
    requires d < 10
    ensures IsDigit(c)
  {
    ('0' as int + d) as char
  }

  /** The value of c as a digit of base 10 or 16, as `parseInt` reads digits. */
  function DigitIn(c: char, radix: nat): Option<nat> {
    if '0' <= c <= '9' && c as int - '0' as int < radix then Some(c as int - '0' as int)
    else if radix == 16 && 'a' <= c <= 'f' then Some(c as int - 'a' as int + 10)
    else if radix == 16 && 'A' <= c <= 'F' then Some(c as int - 'A' as int + 10)
    else None
  }

  predicate AllDigitsIn(ds: string, radix: nat) {
    forall i :: 0 <= i < |ds| ==> DigitIn(ds[i], radix).Some?
  }

  /** The length of the longest prefix of s made of digits of the radix. */
  function RunLength(s: string, radix: nat): (n: nat)
    ensures n <= |s| && AllDigitsIn(s[..n], radix)
    ensures n < |s| ==> DigitIn(s[n], radix).None?
    decreases |s|
  {
    if |s| > 0 && DigitIn(s[0], radix).Some? then
      var n := 1 + RunLength(s[1..], radix);
      assert s[..n] == [s[0]] + s[1..][..n - 1];
      n
    else 0
  }

  /** The number a run of digits denotes, most significant digit first. */
  function RunValue(ds: string, radix: nat): nat
    requires AllDigitsIn(ds, radix)
    decreases |ds|
  {
    if |ds| == 0 then 0
    else radix * RunValue(ds[..|ds| - 1], radix) + DigitIn(ds[|ds| - 1], radix).value
  }

  /** `n.toString()` for a natural number: its decimal digits, no leading zero. */
  function DecimalString(n: nat): (r: string)
    ensures |r| > 0 && AllDigitsIn(r, 10)
    ensures r[0] == '0' ==> n == 0
    decreases n
  {
    if n < 10 then [DigitChar(n)] else DecimalString(n / 10) + [DigitChar(n % 10)]
  }

  /** `i.toString()` for an integer. */
  function IntString(i: int): string {
    if i < 0 then ['-'] + DecimalString(-i) else DecimalString(i)
  }

  /** What `parseInt` reads after the sign: a `0x` prefix switching to base
      16, then the longest run of digits; None when there is no digit. */
  function ParseDigits(u: string): Option<nat> {
    var hex := |u| >= 2 && u[0] == '0' && (u[1] == 'x' || u[1] == 'X');
    var radix: nat := if hex then 16 else 10;
    var digits := if hex then u[2..] else u;
    var n := RunLength(digits, radix);
    if n == 0 then None else Some(RunValue(digits[..n], radix))
  }

  /** `parseInt(s)`: skip leading white space, read an optional sign, then the
      digits; None is NaN. */
  function ParseInt(s: string): (r: Option<int>) {
    var t := TrimStart(s);
    var negative := |t| > 0 && t[0] == '-';
    var u := if |t| > 0 && (t[0] == '-' || t[0] == '+') then t[1..] else t;
    match ParseDigits(u)
    case None => None
    case Some(v) => Some(if negative then -(v as int) else v as int)
  }

  /** The decimal digits of n denote n. */
  lemma {:induction false} DecimalValue(n: nat)
    ensures RunValue(DecimalString(n), 10) == n
    decreases n
  {
    var d := DecimalString(n);
    if n >= 10 {
      DecimalValue(n / 10);
      assert d[..|d| - 1] == DecimalString(n / 10);
    }
  }

  lemma {:induction false} RunLengthOfDigits(ds: string, radix: nat)
    requires AllDigitsIn(ds, radix)
    ensures RunLength(ds, radix) == |ds|
    decreases |ds|
  {
    if |ds| > 0 {
      RunLengthOfDigits(ds[1..], radix);
    }
  }

  /** The digits of n read back as n. */
  lemma DecimalDigits(n: nat)
    ensures ParseDigits(DecimalString(n)) == Some(n)
  {
    var d := DecimalString(n);
    assert |d| >= 2 ==> DigitIn(d[1], 10).Some?;
    RunLengthOfDigits(d, 10);
    DecimalValue(n);
    assert d[..|d|] == d;
  }

  /** A sign followed by the digits of n reads back as n with that sign. */
  lemma SignedDigits(sign: char, n: nat)
    requires sign == '-' || sign == '+'
    ensures ParseInt([sign] + DecimalString(n)) == Some(if sign == '-' then -(n as int) else n as int)
  {
    var s := [sign] + DecimalString(n);
    assert !IsSpace(s[0]);
    assert TrimStart(s) == s;
    assert s[1..] == DecimalString(n);
    DecimalDigits(n);
  }

  /** `parseInt(n.toString()) === n`: the text of a number reads back as that number. */
  lemma DecimalRoundTrip(n: nat)
    ensures ParseInt(DecimalString(n)) == Some(n)
  {
    var d := DecimalString(n);
    assert !IsSpace(d[0]) && d[0] != '-' && d[0] != '+';
    assert TrimStart(d) == d;
    DecimalDigits(n);
  }

  /** `parseInt(i.toString()) === i` for every integer, negative ones included. */
  lemma IntRoundTrip(i: int)
    ensures ParseInt(IntString(i)) == Some(i)
  {
    if i < 0 {
      NegativeRoundTrip(-i);
    } else {
      DecimalRoundTrip(i);
    }
  }

  lemma NegativeRoundTrip(n: nat)
    requires n > 0
    ensures ParseInt(IntString(-(n as int))) == Some(-(n as int))
  {
    SignedDigits('-', n);
  }
}
