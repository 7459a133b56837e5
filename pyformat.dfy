/** Python's printf-style `template % args` for the conversions the modules'
    messages use: %s, %d, %i and %%, each optionally preceded by flag
    characters. Conversion errors are the TypeError/ValueError Python raises. */
module PyFormat {
  import opened Text
  import opened JunosTypes

  /** An argument of a %-format: a str or an int. */
  datatype FmtArg = FStr(s: string) | FInt(i: int)

  predicate IsFlag(c: char) { c == ' ' || c == '-' || c == '+' || c == '#' || c == '0' }

  /** Number of flag characters at the head of s. */
  function FlagsLength(s: string): (n: nat)
    ensures n <= |s|
    ensures forall i :: 0 <= i < n ==> IsFlag(s[i])
    ensures n < |s| ==> !IsFlag(s[n])
  {
    if s != [] && IsFlag(s[0]) then 1 + FlagsLength(s[1..]) else 0
  }

  function Prepend(p: string, r: Result<string, Crash>): Result<string, Crash> {
    match r
    case Ok(s) => Ok(p + s)
    case Err(e) => Err(e)
  }

  function Rendered(c: char, a: FmtArg): Result<string, Crash> {
    if c == 's' then Ok(match a case FStr(s) => s case FInt(i) => Decimal(i))
    else match a
      case FInt(i) => Ok(Decimal(i))
      case FStr(_) => Err(TypeError("%" + [c] + " format: a number is required, not str"))
  }

  /** template % tuple(args) */
  function Format(t: string, args: seq<FmtArg>): Result<string, Crash>
    decreases |t|
  {
    if t == [] then
      if args == [] then Ok("") else Err(TypeError("not all arguments converted during string formatting"))
    else if t[0] != '%' then Prepend([t[0]], Format(t[1..], args))
    else
      var k := 1 + FlagsLength(t[1..]);
      if k >= |t| then Err(ValueError("incomplete format"))
      else if t[k] == '%' then Prepend("%", Format(t[k + 1..], args))
      else if t[k] != 's' && t[k] != 'd' && t[k] != 'i' then Err(ValueError("unsupported format character"))
      else if args == [] then Err(TypeError("not enough arguments for format string"))
      else match Rendered(t[k], args[0])
        case Err(e) => Err(e)
        case Ok(s) => Prepend(s, Format(t[k + 1..], args[1..]))
  }

  /** Text without '%' is copied through unchanged. */
  lemma {:induction false} FormatLiteral(p: string, rest: string, args: seq<FmtArg>)
    requires '%' !in p
    ensures Format(p + rest, args) == Prepend(p, Format(rest, args))
  {
    if p == [] {
      assert p + rest == rest;
      match Format(rest, args) {
        case Ok(s) => assert "" + s == s;
        case Err(_) =>
      }
    } else {
      assert (p + rest)[0] == p[0];
      assert (p + rest)[1..] == p[1..] + rest;
      FormatLiteral(p[1..], rest, args);
      match Format(rest, args) {
        case Ok(s) => assert [p[0]] + (p[1..] + s) == p + s;
        case Err(_) =>
      }
    }
  }

  /** A %s conversion followed by more text consumes one argument. */
  lemma {:induction false} FormatStr(rest: string, s: string, args: seq<FmtArg>)
    ensures Format("%s" + rest, [FStr(s)] + args) == Prepend(s, Format(rest, args))
  {
    var t := "%s" + rest;
    assert t[1..] == "s" + rest;
    assert FlagsLength(t[1..]) == 0;
    assert t[2..] == rest;
    assert ([FStr(s)] + args)[1..] == args;
  }

  /** A space-flagged %i applied to a string raises TypeError. */
  lemma {:induction false} FormatSpaceIntOnStr(rest: string, s: string, args: seq<FmtArg>)
    requires |rest| >= 2 && rest[0] == ' ' && rest[1] == 'i'
    ensures Format("%" + rest, [FStr(s)] + args).Err?
    ensures Format("%" + rest, [FStr(s)] + args).error.TypeError?
  {
    var t := "%" + rest;
    assert t[1..] == rest;
    assert FlagsLength(rest[1..]) == 0;
    assert FlagsLength(rest) == 1;
    assert t[2] == 'i';
  }

  /** Literal text, one %s conversion, literal text. */
  lemma {:induction false} FormatOneString(mid: string, tail: string, b: string)
    requires '%' !in mid && '%' !in tail
    ensures Format(mid + ("%s" + tail), [FStr(b)]) == Ok(mid + (b + tail))
  {
    FormatLiteral(tail, [], []);
    assert tail + [] == tail;
    FormatStr(tail, b, []);
    assert [FStr(b)] + [] == [FStr(b)];
    FormatLiteral(mid, "%s" + tail, [FStr(b)]);
  }

  /** A template with two %s conversions between literal text. */
  lemma {:induction false} FormatTwoStrings(head: string, mid: string, tail: string, a: string, b: string)
    requires '%' !in head && '%' !in mid && '%' !in tail
    ensures Format(head + "%s" + mid + "%s" + tail, [FStr(a), FStr(b)]) == Ok(head + a + mid + b + tail)
  {
    var rest := mid + ("%s" + tail);
    assert head + "%s" + mid + "%s" + tail == head + ("%s" + rest);
    FormatOneString(mid, tail, b);
    FormatStr(rest, a, [FStr(b)]);
    assert [FStr(a)] + [FStr(b)] == [FStr(a), FStr(b)];
    FormatLiteral(head, "%s" + rest, [FStr(a), FStr(b)]);
    assert head + (a + (mid + (b + tail))) == head + a + mid + b + tail;
  }
}
