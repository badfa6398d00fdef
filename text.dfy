/**
 * The few Python `str` builtins the compiler relies on, over `seq<char>`.
 * Case mapping covers ASCII and the non-ASCII characters whose mapping can
 * produce one of the keys the program looks up; every other character maps
 * to itself.
 */
module Text {
  import opened Results

  /** `c.isspace()` */
  predicate IsSpace(c: char) {
    c == ' ' || ('\t' <= c <= '\r') || ('\U{1C}' <= c <= '\U{1F}')
    || c == '\U{85}' || c == '\U{A0}' || c == '\U{1680}'
    || ('\U{2000}' <= c <= '\U{200A}') || c == '\U{2028}' || c == '\U{2029}'
    || c == '\U{202F}' || c == '\U{205F}' || c == '\U{3000}'
  }

  /** The characters at which `str.splitlines()` ends a line. */
  predicate IsLineBreak(c: char) {
    ('\n' <= c <= '\r') || ('\U{1C}' <= c <= '\U{1E}')
    || c == '\U{85}' || c == '\U{2028}' || c == '\U{2029}'
  }

  predicate IsDigit(c: char) { '0' <= c <= '9' }

  /** `c.upper()` for single characters */
  function Upper(c: char): char {
    if 'a' <= c <= 'z' then (c as int - 32) as char
    else if c == '\U{131}' then 'I'   // dotless i
    else if c == '\U{17F}' then 'S'   // long s
    else c
  }

  /** `c.lower()` for single characters */
  function Lower(c: char): char {
    if 'A' <= c <= 'Z' then (c as int + 32) as char
    else if c == '\U{D8}' then '\U{F8}'   // O with stroke
    else if c == '\U{212A}' then 'k'      // Kelvin sign
    else c
  }

  function UpperStr(s: string): (r: string)
    ensures |r| == |s| && forall i | 0 <= i < |s| :: r[i] == Upper(s[i])
  {
    seq(|s|, i requires 0 <= i < |s| => Upper(s[i]))
  }

  function LowerStr(s: string): (r: string)
    ensures |r| == |s| && forall i | 0 <= i < |s| :: r[i] == Lower(s[i])
  {
    seq(|s|, i requires 0 <= i < |s| => Lower(s[i]))
  }

  lemma UpperKeepsSpace(c: char)
    ensures IsSpace(Upper(c)) <==> IsSpace(c)
    ensures Upper(Upper(c)) == Upper(c)
  {
  }

  /** Upper-casing keeps the white space at the ends and is idempotent. */
  lemma UpperStrKeeps(s: string)
    ensures |s| > 0 ==> (IsSpace(UpperStr(s)[0]) <==> IsSpace(s[0]))
    ensures |s| > 0 ==> (IsSpace(UpperStr(s)[|s| - 1]) <==> IsSpace(s[|s| - 1]))
    ensures UpperStr(UpperStr(s)) == UpperStr(s)
  {
    if |s| > 0 {
      UpperKeepsSpace(s[0]);
      UpperKeepsSpace(s[|s| - 1]);
    }
    forall i | 0 <= i < |s| ensures Upper(Upper(s[i])) == Upper(s[i]) {
      UpperKeepsSpace(s[i]);
    }
  }

  /** What `strip` returns neither starts nor ends with white space, so stripping again changes nothing. */
  lemma StripEnds(s: string)
    ensures |Strip(s)| > 0 ==> !IsSpace(Strip(s)[0]) && !IsSpace(Strip(s)[|Strip(s)| - 1])
    ensures Strip(Strip(s)) == Strip(s)
  {
    var r := RStrip(s);
    var t := LStrip(r);
    LStripSuffix(r);
    if |t| > 0 {
      assert t[|t| - 1] == r[|r| - 1];
    }
    StripNoSpaceEnds(t);
  }

  lemma LowerIdempotent(s: string)
    ensures LowerStr(LowerStr(s)) == LowerStr(s)
  {
    assert forall i | 0 <= i < |s| :: Lower(Lower(s[i])) == Lower(s[i]);
  }

  /** `s.rstrip()`: the longest prefix that does not end in white space */
  function RStrip(s: string): (r: string)
    ensures r <= s
    ensures |r| > 0 ==> !IsSpace(r[|r| - 1])
    decreases |s|
  {
    if |s| > 0 && IsSpace(s[|s| - 1]) then RStrip(s[..|s| - 1]) else s
  }

  /** What `rstrip` removes is white space. */
  lemma {:induction false} RStripDropsSpace(s: string)
    ensures forall i | |RStrip(s)| <= i < |s| :: IsSpace(s[i])
    decreases |s|
  {
    if |s| > 0 && IsSpace(s[|s| - 1]) {
      RStripDropsSpace(s[..|s| - 1]);
    }
  }

  /** `s.lstrip()`: the longest suffix that does not start with white space */
  function LStrip(s: string): (r: string)
    ensures |r| <= |s|
    ensures |r| > 0 ==> !IsSpace(r[0])
    decreases |s|
  {
    if |s| > 0 && IsSpace(s[0]) then LStrip(s[1..]) else s
  }

  /** `lstrip` keeps a suffix and removes only white space. */
  lemma {:induction false} LStripSuffix(s: string)
    ensures LStrip(s) == s[|s| - |LStrip(s)|..]
    ensures forall i | 0 <= i < |s| - |LStrip(s)| :: IsSpace(s[i])
    decreases |s|
  {
    if |s| > 0 && IsSpace(s[0]) {
      LStripSuffix(s[1..]);
      assert s[1..][|s| - 1 - |LStrip(s)|..] == s[|s| - |LStrip(s)|..];
      forall i | 0 <= i < |s| - |LStrip(s)| ensures IsSpace(s[i]) {
        if i > 0 { assert s[i] == s[1..][i - 1]; }
      }
    }
  }

  /** `s.strip()` */
  function Strip(s: string): string {
    LStrip(RStrip(s))
  }

  /** Text that neither starts nor ends with white space is its own strip. */
  lemma StripNoSpaceEnds(s: string)
    requires |s| > 0 ==> !IsSpace(s[0]) && !IsSpace(s[|s| - 1])
    ensures Strip(s) == s
  {
  }

  /** Index of the first `c` in `s`, or `|s|` when there is none. */
  function IndexOf(s: string, c: char): (k: nat)
    ensures k <= |s| && (k < |s| ==> s[k] == c)
    ensures forall i | 0 <= i < k :: s[i] != c
  {
    if s == [] then 0 else if s[0] == c then 0 else 1 + IndexOf(s[1..], c)
  }

  /** `s.split(c)`: the pieces between the occurrences of `c` */
  function SplitOn(s: string, c: char): (r: seq<string>)
    ensures |r| >= 1
    decreases |s|
  {
    var k := IndexOf(s, c);
    if k == |s| then [s] else [s[..k]] + SplitOn(s[k + 1..], c)
  }

  /** Number of leading characters that are not white space. */
  function WordLen(s: string): (k: nat)
    ensures k <= |s|
    ensures forall i | 0 <= i < k :: !IsSpace(s[i])
    ensures k < |s| ==> IsSpace(s[k])
  {
    if s == [] || IsSpace(s[0]) then 0 else 1 + WordLen(s[1..])
  }

  /** `s.split()`: the maximal runs of non-space characters, in order */
  function SplitWs(s: string): seq<string>
    decreases |s|
  {
    if s == [] then []
    else if IsSpace(s[0]) then SplitWs(s[1..])
    else var k := WordLen(s); [s[..k]] + SplitWs(s[k..])
  }

  /** The characters of `s` that are not white space. */
  function NonSpace(s: string): string {
    if s == [] then [] else (if IsSpace(s[0]) then [] else [s[0]]) + NonSpace(s[1..])
  }

  function Concat(ss: seq<string>): string {
    if ss == [] then [] else ss[0] + Concat(ss[1..])
  }

  lemma {:induction false} NonSpaceAppend(a: string, b: string)
    ensures NonSpace(a + b) == NonSpace(a) + NonSpace(b)
    decreases |a|
  {
    if a == [] {
      assert a + b == b;
    } else {
      var ab := a + b;
      assert ab[0] == a[0] && ab[1..] == a[1..] + b;
      NonSpaceAppend(a[1..], b);
      var x := if IsSpace(a[0]) then [] else [a[0]];
      assert NonSpace(ab) == x + NonSpace(ab[1..]);
      assert NonSpace(a) == x + NonSpace(a[1..]);
    }
  }

  lemma NonSpaceOfWord(w: string)
    requires forall i | 0 <= i < |w| :: !IsSpace(w[i])
    ensures NonSpace(w) == w
  {
    if w != [] { NonSpaceOfWord(w[1..]); }
  }

  /** Every piece of `s.split()` is non-empty and free of white space. */
  lemma {:induction false} SplitWsWords(s: string)
    ensures forall t | t in SplitWs(s) :: t != [] && forall i | 0 <= i < |t| :: !IsSpace(t[i])
    decreases |s|
  {
    if s == [] {
    } else if IsSpace(s[0]) {
      SplitWsWords(s[1..]);
    } else {
      var k := WordLen(s);
      SplitWsWords(s[k..]);
      assert SplitWs(s) == [s[..k]] + SplitWs(s[k..]);
    }
  }

  /** Together the pieces of `s.split()` hold exactly the non-space characters of `s`, in order. */
  lemma {:induction false} SplitWsConcat(s: string)
    ensures Concat(SplitWs(s)) == NonSpace(s)
    decreases |s|
  {
    if s == [] {
    } else if IsSpace(s[0]) {
      SplitWsConcat(s[1..]);
    } else {
      var k := WordLen(s);
      var rest := SplitWs(s[k..]);
      SplitWsConcat(s[k..]);
      assert SplitWs(s) == [s[..k]] + rest;
      assert ([s[..k]] + rest)[1..] == rest;
      assert Concat(SplitWs(s)) == s[..k] + Concat(rest);
      assert s == s[..k] + s[k..];
      NonSpaceAppend(s[..k], s[k..]);
      NonSpaceOfWord(s[..k]);
    }
  }

  /** Length of the line break starting at `s[k]` (`\r\n` counts as one). */
  function BreakLen(s: string, k: nat): nat
    requires k < |s| && IsLineBreak(s[k])
  {
    if s[k] == '\r' && k + 1 < |s| && s[k + 1] == '\n' then 2 else 1
  }

  /** Index of the first line break in `s`, or `|s|`. */
  function LineEnd(s: string): (k: nat)
    ensures k <= |s| && (k < |s| ==> IsLineBreak(s[k]))
    ensures forall i | 0 <= i < k :: !IsLineBreak(s[i])
  {
    if s == [] || IsLineBreak(s[0]) then 0 else 1 + LineEnd(s[1..])
  }

  /** `s.splitlines()`: no trailing empty line after a final break */
  function SplitLines(s: string): (r: seq<string>)
    ensures forall l | l in r :: forall i | 0 <= i < |l| :: !IsLineBreak(l[i])
    decreases |s|
  {
    if s == [] then []
    else
      var k := LineEnd(s);
      if k == |s| then [s]
      else [s[..k]] + SplitLines(s[k + BreakLen(s, k)..])
  }

  /** Digits and single underscores between digits, as `int()` accepts them. */
  predicate IsIntBody(s: string) {
    |s| > 0 && IsDigit(s[0]) && IsDigit(s[|s| - 1])
    && forall i | 0 <= i < |s| ::
         IsDigit(s[i]) || (s[i] == '_' && 0 < i < |s| - 1 && IsDigit(s[i - 1]) && IsDigit(s[i + 1]))
  }

  /** Decimal value of the digits of `s`, skipping underscores. */
  function DigitsValue(s: string): (v: nat)
    decreases |s|
  {
    if s == [] then 0
    else if IsDigit(s[|s| - 1]) then 10 * DigitsValue(s[..|s| - 1]) + (s[|s| - 1] as int - '0' as int)
    else DigitsValue(s[..|s| - 1])
  }

  /** `int(s)` on a string, base 10: surrounding white space, an optional sign. */
  function ParseInt(s: string): Option<int> {
    var t := Strip(s);
    if |t| > 0 && (t[0] == '+' || t[0] == '-') then
      if IsIntBody(t[1..]) then
        var v: int := DigitsValue(t[1..]);
        Some(if t[0] == '-' then -v else v)
      else None
    else if IsIntBody(t) then
      Some(DigitsValue(t) as int)
    else None
  }

  /** The decimal digit of `d`. */
  function DigitChar(d: nat): char
    requires d < 10
  {
    ('0' as int + d) as char
  }

  /** The decimal digits of `n`, most significant first, as `str(n)` writes them. */
  function Digits(n: nat): (s: string)
    ensures |s| > 0 && forall i | 0 <= i < |s| :: IsDigit(s[i])
    decreases n
  {
    if n < 10 then [DigitChar(n)] else Digits(n / 10) + [DigitChar(n % 10)]
  }

  /** `str(n)`: a minus sign before the digits of a negative number. */
  function IntText(n: int): string {
    if n < 0 then "-" + Digits(-n) else Digits(n)
  }

  lemma {:induction false} DigitsValueOf(n: nat)
    ensures DigitsValue(Digits(n)) == n
    decreases n
  {
    var s := Digits(n);
    if n >= 10 {
      assert s[..|s| - 1] == Digits(n / 10);
      DigitsValueOf(n / 10);
    }
  }

  /** Digits alone are an integer literal without a sign. */
  lemma DigitsBody(n: nat)
    ensures IsIntBody(Digits(n))
  {
    var d := Digits(n);
    assert IsDigit(d[0]) && IsDigit(d[|d| - 1]);
  }

  lemma ParseUnsigned(d: string)
    requires IsIntBody(d)
    ensures ParseInt(d) == Some(DigitsValue(d) as int)
  {
    StripNoSpaceEnds(d);
  }

  lemma ParseNegative(d: string)
    requires IsIntBody(d)
    ensures ParseInt("-" + d) == Some(-(DigitsValue(d) as int))
  {
    var t := "-" + d;
    assert t[0] == '-' && t[|t| - 1] == d[|d| - 1] && t[1..] == d;
    StripNoSpaceEnds(t);
  }

  /** `int()` reads back every number `str()` writes. */
  lemma ParseIntText(n: int)
    ensures ParseInt(IntText(n)) == Some(n)
  {
    var m := if n < 0 then -n else n;
    DigitsBody(m);
    DigitsValueOf(m);
    if n < 0 {
      ParseNegative(Digits(m));
    } else {
      ParseUnsigned(Digits(m));
    }
  }
}
