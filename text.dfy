/** Python string behaviour used by the Junos modules: character tests,
    replace/strip/split/join/splitlines, and int() on decimal strings. */
module Text {

  datatype Option<+T> = None | Some(value: T)

  predicate IsDigit(c: char) { '0' <= c <= '9' }

  /** ASCII whitespace as str.strip() and int() see it (Unicode spaces are not modelled). */
  predicate IsSpace(c: char) {
    c == ' ' || c == '\t' || c == '\n' || c == '\r' || c == '\U{B}' || c == '\U{C}'
  }

  /** The line boundaries of str.splitlines(). */
  predicate IsLineBreak(c: char) {
    c == '\n' || c == '\r' || c == '\U{B}' || c == '\U{C}' || c == '\U{1C}' || c == '\U{1D}'
    || c == '\U{1E}' || c == '\U{85}' || c == '\U{2028}' || c == '\U{2029}'
  }

  predicate StartsWith(s: string, prefix: string) {
    |prefix| <= |s| && s[..|prefix|] == prefix
  }

  /** sub in s */
  predicate Contains(s: string, sub: string) {
    StartsWith(s, sub) || (s != [] && Contains(s[1..], sub))
  }

  lemma {:induction false} ContainsConcat(a: string, b: string, c: string)
    ensures Contains(a + b + c, b)
  {
    if a == [] {
      assert (a + b + c)[..|b|] == b;
    } else {
      assert (a + b + c)[1..] == a[1..] + b + c;
      ContainsConcat(a[1..], b, c);
    }
  }

  /** s.replace(a, b) for single characters. */
  function ReplaceChar(s: string, a: char, b: char): (r: string)
    ensures |r| == |s|
    ensures forall i :: 0 <= i < |s| ==> r[i] == (if s[i] == a then b else s[i])
  {
    if s == [] then [] else [if s[0] == a then b else s[0]] + ReplaceChar(s[1..], a, b)
  }

  /** s.rstrip(c) for a single character c. */
  function RStripChar(s: string, c: char): (r: string)
    ensures StartsWith(s, r)
    ensures r == [] || r[|r| - 1] != c
    ensures forall i :: |r| <= i < |s| ==> s[i] == c
  {
    if s == [] then []
    else if s[|s| - 1] == c then RStripChar(s[..|s| - 1], c)
    else s
  }

  /** s.lstrip(c) for a single character c. */
  function LStripChar(s: string, c: char): (r: string)
    ensures |r| <= |s| && r == s[|s| - |r|..]
    ensures r == [] || r[0] != c
    ensures forall i :: 0 <= i < |s| - |r| ==> s[i] == c
  {
    if s == [] then []
    else if s[0] == c then LStripChar(s[1..], c)
    else s
  }

  /** s.strip(c) for a single character c. */
  function StripChar(s: string, c: char): string {
    RStripChar(LStripChar(s, c), c)
  }

  function RStripSpace(s: string): string {
    if s == [] then []
    else if IsSpace(s[|s| - 1]) then RStripSpace(s[..|s| - 1])
    else s
  }

  function LStripSpace(s: string): string {
    if s == [] then []
    else if IsSpace(s[0]) then LStripSpace(s[1..])
    else s
  }

  /** s.strip() */
  function StripSpace(s: string): string {
    RStripSpace(LStripSpace(s))
  }

  /** sep.join(parts) */
  function Join(sep: string, parts: seq<string>): string {
    if parts == [] then ""
    else if |parts| == 1 then parts[0]
    else parts[0] + sep + Join(sep, parts[1..])
  }

  /** Index of the first occurrence of c in s, or |s|. */
  function IndexOf(s: string, c: char): (k: nat)
    ensures k <= |s|
    ensures forall i :: 0 <= i < k ==> s[i] != c
    ensures k < |s| ==> s[k] == c
  {
    if s == [] then 0 else if s[0] == c then 0 else 1 + IndexOf(s[1..], c)
  }

  /** s.split(c) for a single-character separator: never empty. */
  function Split(s: string, c: char): (parts: seq<string>)
    ensures |parts| >= 1
    ensures forall k :: 0 <= k < |parts| ==> c !in parts[k]
    decreases |s|
  {
    var k := IndexOf(s, c);
    if k == |s| then [s] else [s[..k]] + Split(s[k + 1..], c)
  }

  /** s.split(c, 1): at most two parts. */
  function SplitOnce(s: string, c: char): (parts: seq<string>)
    ensures 1 <= |parts| <= 2
    ensures |parts| == 1 <==> c !in s
    ensures |parts| == 1 ==> parts[0] == s
    ensures |parts| == 2 ==> s == parts[0] + [c] + parts[1] && c !in parts[0]
  {
    var k := IndexOf(s, c);
    if k == |s| then [s] else [s[..k], s[k + 1..]]
  }

  /** Splitting a joined sequence on a separator absent from every part gives the parts back. */
  lemma {:induction false} SplitJoin(parts: seq<string>, c: char)
    requires |parts| >= 1
    requires forall k :: 0 <= k < |parts| ==> c !in parts[k]
    ensures Split(Join([c], parts), c) == parts
  {
    if |parts| == 1 {
      assert IndexOf(parts[0], c) == |parts[0]|;
    } else {
      var rest := Join([c], parts[1..]);
      var s := parts[0] + [c] + rest;
      assert Join([c], parts) == s;
      IndexOfPrefix(parts[0], c, rest);
      assert s[..|parts[0]|] == parts[0];
      assert s[|parts[0]| + 1..] == rest;
      SplitJoin(parts[1..], c);
    }
  }

  lemma {:induction false} IndexOfPrefix(a: string, c: char, rest: string)
    requires c !in a
    ensures IndexOf(a + [c] + rest, c) == |a|
  {
    if a != [] {
      assert (a + [c] + rest)[1..] == a[1..] + [c] + rest;
      IndexOfPrefix(a[1..], c, rest);
    }
  }

  /** Length of the line break that starts s (2 for "\r\n"). */
  function BreakLength(s: string): nat
    requires s != [] && IsLineBreak(s[0])
  {
    if s[0] == '\r' && |s| >= 2 && s[1] == '\n' then 2 else 1
  }

  function LineEnd(s: string): (k: nat)
    ensures k <= |s|
    ensures forall i :: 0 <= i < k ==> !IsLineBreak(s[i])
    ensures k < |s| ==> IsLineBreak(s[k])
  {
    if s == [] then 0 else if IsLineBreak(s[0]) then 0 else 1 + LineEnd(s[1..])
  }

  /** s.splitlines() */
  function SplitLines(s: string): (lines: seq<string>)
    ensures forall k :: 0 <= k < |lines| ==> forall i :: 0 <= i < |lines[k]| ==> !IsLineBreak(lines[k][i])
    decreases |s|
  {
    if s == [] then []
    else
      var k := LineEnd(s);
      if k == |s| then [s]
      else [s[..k]] + SplitLines(s[k + BreakLength(s[k..])..])
  }

  predicate NoLineBreak(s: string) {
    forall i :: 0 <= i < |s| ==> !IsLineBreak(s[i])
  }

  /** Each line followed by "\n". */
  function Terminated(lines: seq<string>): string {
    if lines == [] then "" else lines[0] + "\n" + Terminated(lines[1..])
  }

  /** splitlines() undoes writing each line followed by "\n". */
  lemma {:induction false} SplitLinesTerminated(lines: seq<string>)
    requires forall k :: 0 <= k < |lines| ==> NoLineBreak(lines[k])
    ensures SplitLines(Terminated(lines)) == lines
  {
    if lines != [] {
      var rest := Terminated(lines[1..]);
      var s := lines[0] + "\n" + rest;
      LineEndPrefix(lines[0], rest);
      assert s[..|lines[0]|] == lines[0];
      assert s[|lines[0]|..][0] == '\n';
      assert |s[|lines[0]|..]| >= 1;
      if |s[|lines[0]|..]| >= 2 {
        assert s[|lines[0]|..][0] != '\r';
      }
      assert BreakLength(s[|lines[0]|..]) == 1;
      assert s[|lines[0]| + 1..] == rest;
      SplitLinesTerminated(lines[1..]);
    }
  }

  lemma {:induction false} LineEndPrefix(a: string, rest: string)
    requires NoLineBreak(a)
    ensures LineEnd(a + "\n" + rest) == |a|
  {
    if a != [] {
      assert (a + "\n" + rest)[1..] == a[1..] + "\n" + rest;
      LineEndPrefix(a[1..], rest);
    }
  }

  // ---------------------------------------------------------------------
  // int() on strings, and its inverse on decimal renderings.

  function DigitValue(c: char): nat
    requires IsDigit(c)
  {
    (c as int - '0' as int) as nat
  }

  predicate AllDigits(s: string) {
    forall i :: 0 <= i < |s| ==> IsDigit(s[i])
  }

  /** Value of a run of decimal digits, most significant first. */
  function DigitsValue(s: string): nat
    requires AllDigits(s)
  {
    if s == [] then 0 else DigitsValue(s[..|s| - 1]) * 10 + DigitValue(s[|s| - 1])
  }

  /** The value of a base-10 integer literal as int() reads it: digits, where
      a single '_' may stand between two digits; None for anything else. */
  function DigitRun(s: string): Option<nat> {
    if s == [] || !IsDigit(s[|s| - 1]) then None
    else if |s| == 1 then Some(DigitValue(s[0]))
    else
      var init := s[..|s| - 1];
      var prefix := if init[|init| - 1] == '_' then init[..|init| - 1] else init;
      match DigitRun(prefix)
      case None => None
      case Some(v) => Some(v * 10 + DigitValue(s[|s| - 1]))
  }

  /** Python int(s) in base 10: optional surrounding whitespace, an optional
      sign, then ASCII digits with single underscores between them. */
  function ParseInt(s: string): Option<int> {
    var t := StripSpace(s);
    var neg := |t| > 0 && t[0] == '-';
    var body := if |t| > 0 && (t[0] == '-' || t[0] == '+') then t[1..] else t;
    match DigitRun(body)
    case None => None
    case Some(v) => Some(if neg then -(v as int) else v)
  }

  /** Decimal digits of a natural number, most significant first, no leading zeros. */
  function NatDigits(n: nat): (s: string)
    ensures s != [] && AllDigits(s)
    decreases n
  {
    if n < 10 then [('0' as int + n) as char]
    else NatDigits(n / 10) + [('0' as int + n % 10) as char]
  }

  /** str(n) for an int. */
  function Decimal(n: int): string {
    if n < 0 then "-" + NatDigits(-n) else NatDigits(n)
  }

  lemma {:induction false} NatDigitsValue(n: nat)
    ensures DigitsValue(NatDigits(n)) == n
    decreases n
  {
    var s := NatDigits(n);
    if n >= 10 {
      NatDigitsValue(n / 10);
      assert s[..|s| - 1] == NatDigits(n / 10);
    }
  }

  lemma StripSpaceNoSpace(t: string)
    requires t != [] && !IsSpace(t[0]) && !IsSpace(t[|t| - 1])
    ensures StripSpace(t) == t
  {
  }

  /** A run of digits reads as its value. */
  lemma {:induction false} DigitRunOfDigits(s: string)
    requires s != [] && AllDigits(s)
    ensures DigitRun(s) == Some(DigitsValue(s))
  {
    if |s| > 1 {
      DigitRunOfDigits(s[..|s| - 1]);
    } else {
      assert s[..0] == [];
    }
  }

  lemma ParseDigits(digits: string)
    requires digits != [] && AllDigits(digits)
    ensures ParseInt(digits) == Some(DigitsValue(digits) as int)
  {
    DigitRunOfDigits(digits);
    StripSpaceNoSpace(digits);
  }

  lemma ParseNegatedDigits(digits: string)
    requires digits != [] && AllDigits(digits)
    ensures ParseInt("-" + digits) == Some(-(DigitsValue(digits) as int))
  {
    var s := "-" + digits;
    DigitRunOfDigits(digits);
    assert s[|s| - 1] == digits[|digits| - 1];
    StripSpaceNoSpace(s);
    assert s[1..] == digits;
  }

  /** int(str(n)) == n */
  lemma ParseDecimal(n: int)
    ensures ParseInt(Decimal(n)) == Some(n)
  {
    if n < 0 {
      NatDigitsValue(-n);
      ParseNegatedDigits(NatDigits(-n));
    } else {
      NatDigitsValue(n);
      ParseDigits(NatDigits(n));
    }
  }

  /** Two runs of digits joined by '_' read as the two runs together. */
  lemma {:induction false} DigitRunUnderscore(a: string, b: string)
    requires a != [] && b != [] && AllDigits(a) && AllDigits(b)
    ensures DigitRun(a + "_" + b) == Some(DigitsValue(a + b))
    decreases |b|
  {
    var s := a + "_" + b;
    var last := b[|b| - 1];
    assert s[|s| - 1] == last;
    assert (a + b)[..|a + b| - 1] == a + b[..|b| - 1];
    assert (a + b)[|a + b| - 1] == last;
    if |b| == 1 {
      assert s[..|s| - 1] == a + "_";
      assert (a + "_")[..|a|] == a;
      DigitRunOfDigits(a);
      assert b[..0] == [];
    } else {
      var b' := b[..|b| - 1];
      assert s[..|s| - 1] == a + "_" + b';
      assert b'[|b'| - 1] == b[|b| - 2];
      DigitRunUnderscore(a, b');
    }
  }

  /** An underscore between two runs of digits is ignored: int("8_30") == 830. */
  lemma ParseUnderscore(a: string, b: string)
    requires a != [] && b != [] && AllDigits(a) && AllDigits(b)
    ensures ParseInt(a + "_" + b) == Some(DigitsValue(a + b))
  {
    var s := a + "_" + b;
    assert s[0] == a[0] && s[|s| - 1] == b[|b| - 1];
    StripSpaceNoSpace(s);
    DigitRunUnderscore(a, b);
  }
}
