/**
 * The JavaScript string operations the core relies on: `String.prototype.split`
 * with a non-empty separator, `parseInt` with no radix, `<` on strings,
 * `toUpperCase`, `Number.prototype.toString` on integers and `path.join`.
 */
module Text {
  import opened Wrappers

  /** `sep` occurs in `s` starting at index `i`. */
  predicate OccursAt(s: string, sep: string, i: nat) {
    i + |sep| <= |s| && s[i..i + |sep|] == sep
  }

  /** The first index at or after `from` where `sep` occurs. */
  function FirstFrom(s: string, sep: string, from: nat): (r: Option<nat>)
    requires |sep| > 0
    ensures r.None? ==> forall j :: from <= j ==> !OccursAt(s, sep, j)
    ensures r.Some? ==> from <= r.value && OccursAt(s, sep, r.value)
    ensures r.Some? ==> forall j :: from <= j < r.value ==> !OccursAt(s, sep, j)
    decreases |s| - from
  {
    if from + |sep| > |s| then None
    else if OccursAt(s, sep, from) then Some(from)
    else FirstFrom(s, sep, from + 1)
  }

  /**
   * `s.split(sep)`: cut at the leftmost occurrence, then go on after it.
   * The first piece is everything before the first occurrence.
   */
  function Split(s: string, sep: string): (pieces: seq<string>)
    requires |sep| > 0
    ensures |pieces| >= 1
    ensures |pieces[0]| <= |s| && pieces[0] == s[..|pieces[0]|]
    ensures forall j :: 0 <= j < |pieces[0]| ==> !OccursAt(s, sep, j)
    ensures |pieces[0]| == |s| || OccursAt(s, sep, |pieces[0]|)
    decreases |s|
  {
    match FirstFrom(s, sep, 0)
    case None => [s]
    case Some(i) => [s[..i]] + Split(s[i + |sep|..], sep)
  }

  /** `pieces.join(sep)`. */
  function Join(pieces: seq<string>, sep: string): string {
    if |pieces| == 0 then ""
    else if |pieces| == 1 then pieces[0]
    else pieces[0] + sep + Join(pieces[1..], sep)
  }

  /** Joining the pieces back with the separator gives the original string. */
  lemma {:induction false} SplitJoin(s: string, sep: string)
    requires |sep| > 0
    ensures Join(Split(s, sep), sep) == s
    decreases |s|
  {
    match FirstFrom(s, sep, 0)
    case None =>
    case Some(i) =>
      var rest := s[i + |sep|..];
      SplitJoin(rest, sep);
      assert Split(s, sep) == [s[..i]] + Split(rest, sep);
      assert s == s[..i] + sep + rest;
  }

  /** Within a prefix, `sep` occurs at `j` exactly where it occurs in the whole string. */
  lemma OccursAtPrefix(s: string, t: string, sep: string, j: nat)
    requires |s| <= |t| && s == t[..|s|] && j + |sep| <= |s|
    ensures OccursAt(s, sep, j) <==> OccursAt(t, sep, j)
  {
    assert s[j..j + |sep|] == t[j..j + |sep|];
  }

  /** Splitting `a + sep + b` where neither part holds the separator gives back `[a, b]`. */
  lemma SplitPair(a: string, sep: string, b: string)
    requires |sep| > 0
    requires forall j :: 0 <= j ==> !OccursAt(a + sep + b, sep, j) || j == |a|
    ensures Split(a + sep + b, sep) == [a, b]
  {
    var s := a + sep + b;
    assert OccursAt(s, sep, |a|) by { assert s[|a|..|a| + |sep|] == sep; }
    assert FirstFrom(s, sep, 0) == Some(|a|);
    assert s[|a| + |sep|..] == b;
    assert s[..|a|] == a;
    forall j | 0 <= j ensures !OccursAt(b, sep, j) {
      if OccursAt(b, sep, j) {
        assert s[|a| + |sep| + j..|a| + |sep| + j + |sep|] == b[j..j + |sep|];
        assert OccursAt(s, sep, |a| + |sep| + j);
      }
    }
    assert FirstFrom(b, sep, 0) == None;
  }

  // ---------------------------------------------------------------------------
  // parseInt (ECMAScript, section 19.2.5 "parseInt (string, radix)", radix undefined)
  // ---------------------------------------------------------------------------

  /** StrWhiteSpaceChar: WhiteSpace (section 12.2) or LineTerminator (section 12.3). */
  predicate IsJsWhitespace(c: char) {
    // TAB, VT, FF, ZWNBSP
    c == '\U{9}' || c == '\U{B}' || c == '\U{C}' || c == '\U{FEFF}' ||
    // USP: the space separators (category Zs)
    c == '\U{20}' || c == '\U{A0}' || c == '\U{1680}' || ('\U{2000}' <= c <= '\U{200A}') ||
    c == '\U{202F}' || c == '\U{205F}' || c == '\U{3000}' ||
    // LF, CR, LINE SEPARATOR, PARAGRAPH SEPARATOR
    c == '\U{A}' || c == '\U{D}' || c == '\U{2028}' || c == '\U{2029}'
  }

  /** TrimString(s, start): drop leading white space. */
  function TrimStart(s: string): (r: string)
    ensures |r| <= |s| && r == s[|s| - |r|..]
    ensures |r| > 0 ==> !IsJsWhitespace(r[0])
  {
    if |s| > 0 && IsJsWhitespace(s[0]) then TrimStart(s[1..]) else s
  }

  /** The value of `c` as a digit in radix 36, or 36 when it is not one. */
  function DigitValue(c: char): (d: nat)
    ensures d <= 36
  {
    if '0' <= c <= '9' then c as int - '0' as int
    else if 'a' <= c <= 'z' then c as int - 'a' as int + 10
    else if 'A' <= c <= 'Z' then c as int - 'A' as int + 10
    else 36
  }

  predicate IsRadixDigit(c: char, radix: nat) {
    DigitValue(c) < radix
  }

  /** The longest prefix of `s` made of radix-`radix` digits. */
  function DigitPrefix(s: string, radix: nat): (z: string)
    ensures |z| <= |s| && z == s[..|z|]
    ensures forall i :: 0 <= i < |z| ==> IsRadixDigit(z[i], radix)
    ensures |z| == |s| || !IsRadixDigit(s[|z|], radix)
  {
    if |s| > 0 && IsRadixDigit(s[0], radix) then [s[0]] + DigitPrefix(s[1..], radix) else []
  }

  /** The integer that the digit string `z` denotes in radix `radix`. */
  function DigitsValue(z: string, radix: nat): nat {
    if |z| == 0 then 0
    else DigitsValue(z[..|z| - 1], radix) * radix + (DigitValue(z[|z| - 1]) % 36)
  }

  /**
   * `parseInt(s)`: None stands for NaN. A leading "0x"/"0X" after the sign
   * switches to radix 16; the mathematical value is kept exact.
   */
  function ParseInt(s: string): (r: Option<int>)
  {
    var t := TrimStart(s);
    var sign := if |t| > 0 && t[0] == '-' then -1 else 1;
    var u := Unsigned(t);
    var z := DigitPrefix(Unprefixed(u), Radix(u));
    if |z| == 0 then None else Some(sign * DigitsValue(z, Radix(u)))
  }

  /** Drop one leading sign character. */
  function Unsigned(t: string): string {
    if |t| > 0 && (t[0] == '+' || t[0] == '-') then t[1..] else t
  }

  predicate HasHexPrefix(u: string) {
    |u| >= 2 && u[0] == '0' && (u[1] == 'x' || u[1] == 'X')
  }

  function Radix(u: string): nat {
    if HasHexPrefix(u) then 16 else 10
  }

  function Unprefixed(u: string): string {
    if HasHexPrefix(u) then u[2..] else u
  }

  /** A string whose first character is neither white space, a sign nor a decimal digit is NaN. */
  lemma ParseIntNonDigitStart(s: string)
    requires |s| == 0 || (!IsJsWhitespace(s[0]) && s[0] != '+' && s[0] != '-' && !('0' <= s[0] <= '9'))
    ensures ParseInt(s) == None
  {
    assert TrimStart(s) == s;
    if |s| > 0 {
      assert !IsRadixDigit(s[0], 10);
    }
  }

  // ---------------------------------------------------------------------------
  // Decimal rendering of integers (`Number.prototype.toString`, `${n}`)
  // ---------------------------------------------------------------------------

  function DigitChar(d: nat): (c: char)
    requires d < 10
    ensures '0' <= c <= '9' && DigitValue(c) == d
  {
    ('0' as int + d) as char
  }

  function Digits(n: nat): (s: string)
    ensures |s| > 0 && forall i :: 0 <= i < |s| ==> '0' <= s[i] <= '9'
  {
    if n < 10 then [DigitChar(n)] else Digits(n / 10) + [DigitChar(n % 10)]
  }

  function ToDecimal(n: int): string {
    if n < 0 then "-" + Digits(-n) else Digits(n)
  }

  lemma {:induction false} DigitsValueOfDigits(n: nat)
    ensures DigitsValue(Digits(n), 10) == n
  {
    if n >= 10 {
      DigitsValueOfDigits(n / 10);
      var s := Digits(n);
      assert s[..|s| - 1] == Digits(n / 10);
    }
  }

  lemma AllDigitsPrefix(s: string)
    requires forall i :: 0 <= i < |s| ==> '0' <= s[i] <= '9'
    ensures DigitPrefix(s, 10) == s
  {
    if |s| > 0 {
      AllDigitsPrefix(s[1..]);
    }
  }

  /** `parseInt` reads back the decimal rendering of every integer. */
  lemma ParseIntToDecimal(n: int)
    ensures ParseInt(ToDecimal(n)) == Some(n)
  {
    var s := ToDecimal(n);
    var m: nat := if n < 0 then -n else n;
    var d := Digits(m);
    assert !IsJsWhitespace(s[0]);
    assert TrimStart(s) == s;
    assert Unsigned(s) == d;
    assert !HasHexPrefix(d);
    AllDigitsPrefix(d);
    DigitsValueOfDigits(m);
  }

  /** Different integers have different decimal renderings. */
  lemma ToDecimalInjective(m: int, n: int)
    requires ToDecimal(m) == ToDecimal(n)
    ensures m == n
  {
    ParseIntToDecimal(m);
    ParseIntToDecimal(n);
  }

  // ---------------------------------------------------------------------------
  // String order and case
  // ---------------------------------------------------------------------------

  /** JavaScript `a < b` on strings: lexicographic, a proper prefix first. */
  predicate LexLess(a: string, b: string) {
    if |a| == 0 then |b| > 0
    else if |b| == 0 then false
    else if a[0] != b[0] then a[0] < b[0]
    else LexLess(a[1..], b[1..])
  }

  lemma {:induction false} LexLessIrreflexive(a: string)
    ensures !LexLess(a, a)
  {
    if |a| > 0 {
      LexLessIrreflexive(a[1..]);
    }
  }

  lemma {:induction false} LexLessTransitive(a: string, b: string, c: string)
    requires LexLess(a, b) && LexLess(b, c)
    ensures LexLess(a, c)
  {
    if |a| > 0 && |b| > 0 && |c| > 0 && a[0] == b[0] && b[0] == c[0] {
      LexLessTransitive(a[1..], b[1..], c[1..]);
    }
  }

  lemma {:induction false} LexLessTotal(a: string, b: string)
    requires a != b
    ensures LexLess(a, b) || LexLess(b, a)
  {
    if |a| > 0 && |b| > 0 && a[0] == b[0] {
      assert a == [a[0]] + a[1..] && b == [b[0]] + b[1..];
      LexLessTotal(a[1..], b[1..]);
    }
  }

  /** `toUpperCase` on one character (the ASCII letters). */
  function UpperChar(c: char): char {
    if 'a' <= c <= 'z' then (c as int - 32) as char else c
  }

  /** `s.toUpperCase()`. */
  function Upper(s: string): (r: string)
    ensures |r| == |s| && forall i :: 0 <= i < |s| ==> r[i] == UpperChar(s[i])
  {
    seq(|s|, i requires 0 <= i < |s| => UpperChar(s[i]))
  }

  /** `path.join(a, b)` for names that hold no separator. */
  function PathJoin(a: string, b: string): (r: string)
    ensures |r| == |a| + 1 + |b| && r[..|a|] == a && r[|a|] == '/' && r[|a| + 1..] == b
  {
    a + "/" + b
  }

  /** Upper-casing twice is upper-casing once, so the comparator's keys are already canonical. */
  lemma UpperIdempotent(s: string)
    ensures Upper(Upper(s)) == Upper(s)
  {
    forall i | 0 <= i < |s| ensures UpperChar(UpperChar(s[i])) == UpperChar(s[i]) { }
  }

  /** Under one directory, distinct names give distinct paths. */
  lemma PathJoinSameDir(dir: string, a: string, b: string)
    requires PathJoin(dir, a) == PathJoin(dir, b)
    ensures a == b
  {
    assert a == PathJoin(dir, a)[|dir| + 1..];
  }

  /** Joining slash-free directory names is unambiguous: the path determines both parts. */
  lemma PathJoinInjective(a: string, b: string, c: string, d: string)
    requires forall i :: 0 <= i < |a| ==> a[i] != '/'
    requires forall i :: 0 <= i < |c| ==> c[i] != '/'
    requires PathJoin(a, b) == PathJoin(c, d)
    ensures a == c && b == d
  {
    var p := PathJoin(a, b);
    assert forall i :: 0 <= i < |a| ==> p[i] == a[i];
    assert forall i :: 0 <= i < |c| ==> p[i] == c[i];
    assert |a| == |c|;
    assert a == p[..|a|] && c == p[..|c|];
    PathJoinSameDir(a, b, d);
  }
}
