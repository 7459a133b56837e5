/** The option handling of the common Junos module: the console option,
    connection defaults, and the parsers for ignore_warning, rollback and
    list-of-dicts options. */
module ModuleParams {
  import opened Text
  import opened JunosTypes

  /** The module parameters the common code reads or rewrites. */
  datatype Params = Params(
    host: Option<string>,
    user: Option<string>,
    mode: Option<string>,
    console: Option<string>,
    port: Option<ParamVal>,
    baud: Option<ParamVal>,
    attempts: Option<ParamVal>,
    timeout: int,
    connection: Option<string>,
    ignoreWarning: Option<seq<PyVal>>,
    rollback: Option<PyVal>,
    diffsFile: Option<string>,
    dest: Option<string>,
    destDir: Option<string>)

  /** Options read from the console string by the argument parser. */
  datatype ConsoleArgs = ConsoleArgs(
    telnet: Option<string>,
    port: Option<string>,
    baud: Option<string>,
    attempts: Option<string>,
    timeout: Option<string>)

  /** What the argument parser made of the whitespace-split console string;
      Rejected stands for the ValueError it raises on unknown options. */
  datatype ConsoleParse = Parsed(args: ConsoleArgs) | Rejected

  /** Python truthiness of an optional string. */
  predicate Falsy(s: Option<string>) { s.None? || s.value == "" }

  const DefaultTelnetPort := 23
  const DefaultSerialPort := "/dev/ttyUSB0"
  const DefaultNetconfPort := 830
  const DefaultBaud := 9600
  const DefaultAttempts := 10

  /** The console option turned into mode/host/port/baud/attempts, and removed. */
  function ConsoleApplied(p: Params, parse: ConsoleParse): Result<Params, Failure> {
    if p.console.None? then Ok(p)
    else
      var console := p.console.value;
      match parse
      case Rejected => Err(ConsoleValueError(console))
      case Parsed(a) =>
        if a.telnet.Some? then
          var hostPort := SplitOnce(a.telnet.value, ',');
          if |hostPort| < 2 then Err(ConsoleFormatError(console))
          else
            match ParseInt(hostPort[1])
            case None => Err(ConsoleValueError(console))
            case Some(n) =>
              Ok(p.(mode := Some("telnet"), host := Some(StripChar(hostPort[0], ' ')),
                    port := Some(IntVal(n)), console := None))
        else
          Ok(p.(mode := Some("serial"),
                port := if a.port.Some? then Some(StrVal(a.port.value)) else p.port,
                baud := if a.baud.Some? then Some(StrVal(a.baud.value)) else p.baud,
                attempts := if a.attempts.Some? then Some(StrVal(a.attempts.value)) else p.attempts,
                console := None))
  }

  predicate ConsoleMode(mode: Option<string>) {
    mode == Some("telnet") || mode == Some("serial")
  }

  /** The port default by mode, or the given port converted to int except in serial mode. */
  function PortSettled(p: Params): Result<Params, Failure> {
    if p.port.None? then
      Ok(p.(port := Some(
        if p.mode == Some("telnet") then IntVal(DefaultTelnetPort)
        else if p.mode == Some("serial") then StrVal(DefaultSerialPort)
        else IntVal(DefaultNetconfPort))))
    else if p.mode != Some("serial") then
      match p.port.value
      case IntVal(_) => Ok(p)
      case StrVal(s) =>
        match ParseInt(s)
        case None => Err(PortNotInteger(s))
        case Some(n) => Ok(p.(port := Some(IntVal(n))))
    else Ok(p)
  }

  /** Baud and attempts get defaults in telnet/serial mode and are refused otherwise. */
  function SerialSettled(p: Params): Result<Params, Failure> {
    if ConsoleMode(p.mode) then
      Ok(p.(baud := if p.baud.None? then Some(IntVal(DefaultBaud)) else p.baud,
            attempts := if p.attempts.None? then Some(IntVal(DefaultAttempts)) else p.attempts))
    else if p.baud.Some? then Err(BaudNotAllowed(p.baud.value))
    else if p.attempts.Some? then Err(AttemptsNotAllowed(p.attempts.value))
    else Ok(p)
  }

  /** initialize_params: the console option, then host and user checks, then
      the port, then baud and attempts; the first failure ends it. */
  function Initialized(p: Params, parse: ConsoleParse): Result<Params, Failure> {
    match ConsoleApplied(p, parse)
    case Err(f) => Err(f)
    case Ok(q) =>
      if Falsy(q.host) then Err(MissingHost)
      else if Falsy(q.user) then Err(MissingUser)
      else
        match PortSettled(q)
        case Err(f) => Err(f)
        case Ok(q2) => SerialSettled(q2)
  }

  /** Whatever the input, accepted parameters have a host, a user, no console,
      a port, and baud/attempts exactly in telnet and serial mode; the port is
      an int outside serial mode. */
  lemma InitializedShape(p: Params, parse: ConsoleParse)
    ensures var r := Initialized(p, parse);
      r.Ok? ==>
        && !Falsy(r.value.host) && !Falsy(r.value.user)
        && r.value.console.None?
        && r.value.port.Some?
        && (r.value.mode != Some("serial") ==> r.value.port.value.IntVal?)
        && (ConsoleMode(r.value.mode) <==> r.value.baud.Some?)
        && (ConsoleMode(r.value.mode) <==> r.value.attempts.Some?)
  {
  }

  /** Without console, port, baud and attempts, a NETCONF connection goes to
      port 830 and everything else is kept. */
  lemma InitializedDefaults(p: Params, parse: ConsoleParse)
    requires p.console.None? && p.port.None? && p.baud.None? && p.attempts.None?
    requires !Falsy(p.host) && !Falsy(p.user) && p.mode.None?
    ensures Initialized(p, parse) == Ok(p.(port := Some(IntVal(830))))
  {
  }

  /** A missing host is reported before a missing user, and a bad port only
      when host and user are present. */
  lemma InitializedFailureOrder(p: Params, parse: ConsoleParse)
    requires p.console.None?
    ensures Falsy(p.host) ==> Initialized(p, parse) == Err(MissingHost)
    ensures !Falsy(p.host) && Falsy(p.user) ==> Initialized(p, parse) == Err(MissingUser)
    ensures !Falsy(p.host) && !Falsy(p.user) && p.mode != Some("serial") && p.port.Some?
            && p.port.value.StrVal? && ParseInt(p.port.value.s).None?
            ==> Initialized(p, parse) == Err(PortNotInteger(p.port.value.s))
  {
  }

  /** "--telnet host,N" selects telnet mode with that host and port N, and
      defaults baud and attempts. */
  lemma TelnetConsole(p: Params, host: string, n: int, user: string, rest: ConsoleArgs)
    requires p.console.Some? && user != "" && p.user == Some(user)
    requires p.baud.None? && p.attempts.None?
    requires host != [] && ',' !in host && host[0] != ' ' && host[|host| - 1] != ' '
    ensures Initialized(p, Parsed(rest.(telnet := Some(host + "," + Decimal(n)))))
      == Ok(p.(mode := Some("telnet"), host := Some(host), port := Some(IntVal(n)), console := None,
               baud := Some(IntVal(9600)), attempts := Some(IntVal(10))))
  {
    TelnetApplied(p, host, n, rest);
  }

  lemma {:induction false} TelnetApplied(p: Params, host: string, n: int, rest: ConsoleArgs)
    requires p.console.Some?
    requires host != [] && ',' !in host && host[0] != ' ' && host[|host| - 1] != ' '
    ensures ConsoleApplied(p, Parsed(rest.(telnet := Some(host + "," + Decimal(n)))))
      == Ok(p.(mode := Some("telnet"), host := Some(host), port := Some(IntVal(n)), console := None))
  {
    var telnet := host + "," + Decimal(n);
    SplitAtFirst(host, ',', Decimal(n));
    assert telnet == host + [','] + Decimal(n);
    ParseDecimal(n);
    assert StripChar(host, ' ') == host;
  }

  /** Splitting once on a separator absent from the head finds the head. */
  lemma {:induction false} SplitAtFirst(head: string, c: char, tail: string)
    requires c !in head
    ensures SplitOnce(head + [c] + tail, c) == [head, tail]
  {
    var s := head + [c] + tail;
    IndexOfPrefix(head, c, tail);
    assert s[..|head|] == head;
    assert s[|head| + 1..] == tail;
  }

  /** Each of port, baud and attempts that the serial console option gives
      overrides the parameter as a string; one it omits keeps the parameter,
      or its serial-mode default when that is unset too. */
  lemma SerialConsole(p: Params, a: ConsoleArgs)
    requires p.console.Some? && a.telnet.None?
    requires !Falsy(p.host) && !Falsy(p.user)
    ensures Initialized(p, Parsed(a))
      == Ok(p.(mode := Some("serial"),
               port := Some(if a.port.Some? then StrVal(a.port.value)
                            else if p.port.Some? then p.port.value else StrVal(DefaultSerialPort)),
               baud := Some(if a.baud.Some? then StrVal(a.baud.value)
                            else if p.baud.Some? then p.baud.value else IntVal(DefaultBaud)),
               attempts := Some(if a.attempts.Some? then StrVal(a.attempts.value)
                                else if p.attempts.Some? then p.attempts.value else IntVal(DefaultAttempts)),
               console := None))
  {
  }

  // ---------------------------------------------------------------------
  // rollback

  /** parse_rollback_option: absent, "rescue", or a string holding an int in 0..49. */
  function ParseRollback(v: Option<PyVal>): Result<Option<RollbackId>, Failure> {
    if v.None? then Ok(None)
    else if v.value == PyStr("rescue") then Ok(Some(RescueId))
    else if v.value.PyStr? && ParseInt(v.value.s).Some? && 0 <= ParseInt(v.value.s).value <= 49 then
      Ok(Some(NumberedId(ParseInt(v.value.s).value)))
    else Err(RollbackInvalid(v.value))
  }

  /** str(n) is accepted as a rollback exactly when 0 <= n <= 49, and then means n;
      values that are not strings are always refused. */
  lemma RollbackDecimal(n: int, other: PyVal)
    ensures ParseRollback(Some(PyStr(Decimal(n)))) == (if 0 <= n <= 49 then Ok(Some(NumberedId(n))) else Err(RollbackInvalid(PyStr(Decimal(n)))))
    ensures !other.PyStr? ==> ParseRollback(Some(other)) == Err(RollbackInvalid(other))
  {
    ParseDecimal(n);
    assert Decimal(n) != "rescue" by {
      assert "rescue"[0] == 'r';
      if n < 0 { assert Decimal(n)[0] == '-'; } else { assert IsDigit(Decimal(n)[0]); }
    }
  }

  /** A successful parse is the rescue configuration or a number in 0..49. */
  lemma RollbackRange(v: Option<PyVal>)
    ensures var r := ParseRollback(v);
      r.Ok? && r.value.Some? && r.value.value.NumberedId? ==> 0 <= r.value.value.n <= 49
    ensures ParseRollback(v).Ok? && ParseRollback(v).value.None? <==> v.None?
  {
  }

  // ---------------------------------------------------------------------
  // ignore_warning

  /** The strings of a list whose elements are all strings. */
  function Strings(l: seq<PyVal>): (r: seq<string>)
    requires forall i :: 0 <= i < |l| ==> l[i].PyStr?
    ensures |r| == |l| && forall i :: 0 <= i < |l| ==> l[i] == PyStr(r[i])
  {
    if l == [] then [] else [l[0].s] + Strings(l[1..])
  }

  /** The first element of l that is not a string. */
  function FirstNonString(l: seq<PyVal>): (r: Option<PyVal>)
    ensures r.None? <==> forall i :: 0 <= i < |l| ==> l[i].PyStr?
    ensures r.Some? ==> !r.value.PyStr? && r.value in l
  {
    if l == [] then None
    else if !l[0].PyStr? then Some(l[0])
    else FirstNonString(l[1..])
  }

  /** parse_ignore_warning_option; asBool is Ansible's boolean(), None where it raises TypeError. */
  function ParseIgnoreWarning(v: Option<seq<PyVal>>, asBool: PyVal -> Option<bool>): Result<Option<IgnoreWarning>, Failure> {
    if v.None? then Ok(None)
    else
      var l := v.value;
      if |l| == 1 then
        match asBool(l[0])
        case Some(b) => Ok(Some(IgnoreFlag(b)))
        case None =>
          if l[0].PyStr? then Ok(Some(IgnoreText(l[0].s)))
          else Err(IgnoreWarningUnexpectedType(l[0]))
      else if |l| > 1 then
        match FirstNonString(l)
        case Some(e) => Err(IgnoreWarningBadElement(e))
        case None => Ok(Some(IgnoreList(Strings(l))))
      else Err(IgnoreWarningEmpty)
  }

  /** A list of two or more strings is passed on unchanged; any non-string
      element refuses it; an empty list is refused; one element is a bool
      when boolean() accepts it and otherwise must be a string. */
  lemma IgnoreWarningCases(l: seq<PyVal>, asBool: PyVal -> Option<bool>)
    ensures |l| >= 2 ==>
      (ParseIgnoreWarning(Some(l), asBool).Ok? <==> forall i :: 0 <= i < |l| ==> l[i].PyStr?)
    ensures |l| >= 2 && ParseIgnoreWarning(Some(l), asBool).Ok? ==>
      var w := ParseIgnoreWarning(Some(l), asBool).value.value;
      w.IgnoreList? && |w.items| == |l| && forall i :: 0 <= i < |l| ==> l[i] == PyStr(w.items[i])
    ensures l == [] ==> ParseIgnoreWarning(Some(l), asBool) == Err(IgnoreWarningEmpty)
    ensures |l| == 1 && asBool(l[0]).None? && !l[0].PyStr? ==> ParseIgnoreWarning(Some(l), asBool).Err?
  {
  }

  // ---------------------------------------------------------------------
  // list-of-dicts options

  /** A Python dict as its items, in order. */
  type Dict = seq<(PyVal, PyVal)>

  const AllowBoolKey := PyStr("allow_bool_values")

  /** kwarg.pop(key) for a dict whose keys are distinct: the popped value and the rest. */
  function Pop(d: Dict, key: PyVal): (r: (Option<PyVal>, Dict))
    ensures r.0.None? ==> r.1 == d
    ensures r.0.Some? ==> |r.1| == |d| - 1
  {
    if d == [] then (None, [])
    else if d[0].0 == key then (Some(d[0].1), d[1..])
    else
      var t := Pop(d[1..], key);
      assert d == [d[0]] + d[1..];
      (t.0, [d[0]] + t.1)
  }

  /** The items of one dict with every key required to be a string; with
      conversion on, values boolean() accepts become bools. */
  function Converted(d: Dict, convert: bool, asBool: PyVal -> Option<bool>): (r: Option<Assoc<PyVal>>)
    ensures r.Some? ==> |r.value| == |d|
    ensures r.Some? ==> forall i :: 0 <= i < |d| ==> d[i].0 == PyStr(r.value[i].0)
  {
    if d == [] then Some([])
    else if !d[0].0.PyStr? then None
    else
      var v := if convert && asBool(d[0].1).Some? then PyBool(asBool(d[0].1).value) else d[0].1;
      match Converted(d[1..], convert, asBool)
      case None => None
      case Some(rest) => Some([(d[0].0.s, v)] + rest)
  }

  /** One element of the list as a dict: a dict, or a string check_type_dict accepts. */
  function AsDict(v: PyVal, checkTypeDict: string -> Option<Dict>): Option<Dict> {
    match v
    case PyDict(d) => Some(d)
    case PyStr(s) => checkTypeDict(s)
    case _ => None
  }

  /** The per-element loop of parse_arg_to_list_of_dicts. `allow` is the current
      allow_bool_values value; an element carrying that key replaces it for
      itself and every later element, and only the value True converts. */
  function DictsFrom(option: string, text: string, items: seq<PyVal>, allow: PyVal,
                     checkTypeDict: string -> Option<Dict>, asBool: PyVal -> Option<bool>): Result<seq<Assoc<PyVal>>, Failure>
    decreases |items|
  {
    if items == [] then Ok([])
    else match AsDict(items[0], checkTypeDict)
      case None => Err(ListOfDictsInvalid(option, text))
      case Some(d) =>
        var popped := Pop(d, AllowBoolKey);
        var allow' := if popped.0.Some? then popped.0.value else allow;
        match Converted(popped.1, allow' == PyBool(true), asBool)
        case None => Err(ListOfDictsInvalid(option, text))
        case Some(item) =>
          match DictsFrom(option, text, items[1..], allow', checkTypeDict, asBool)
          case Err(f) => Err(f)
          case Ok(rest) => Ok([item] + rest)
  }

  /** The top level of parse_arg_to_list_of_dicts: a dict becomes a list of one. */
  function ListOfDicts(option: string, text: Option<string>, allowBool: bool, safeEval: string -> PyVal,
                       checkTypeDict: string -> Option<Dict>, asBool: PyVal -> Option<bool>): Result<Option<seq<Assoc<PyVal>>>, Failure> {
    if text.None? then Ok(None)
    else
      var t := text.value;
      var v := safeEval(t);
      var w := if v.PyStr? then (match checkTypeDict(v.s) case Some(d) => Some(PyDict(d)) case None => None) else Some(v);
      if w.None? then Err(ListOfDictsInvalid(option, t))
      else
        var items := if w.value.PyDict? then [w.value] else if w.value.PyList? then w.value.items else [];
        if !w.value.PyDict? && !w.value.PyList? then Err(ListOfDictsInvalid(option, t))
        else match DictsFrom(option, t, items, PyBool(allowBool), checkTypeDict, asBool)
          case Err(f) => Err(f)
          case Ok(ds) => Ok(Some(ds))
  }

  function Prefixed(out: seq<Assoc<PyVal>>, r: Result<seq<Assoc<PyVal>>, Failure>): Result<seq<Assoc<PyVal>>, Failure> {
    match r
    case Err(f) => Err(f)
    case Ok(rest) => Ok(out + rest)
  }

  lemma PrefixedTwice(a: seq<Assoc<PyVal>>, b: seq<Assoc<PyVal>>, r: Result<seq<Assoc<PyVal>>, Failure>)
    ensures Prefixed(a, Prefixed(b, r)) == Prefixed(a + b, r)
  {
    if r.Ok? {
      assert a + (b + r.value) == (a + b) + r.value;
    }
  }

  /** parse_arg_to_list_of_dicts: the element loop, carrying allow_bool_values
      from one element to the next. */
  method ParseListOfDicts(option: string, text: Option<string>, allowBool: bool, safeEval: string -> PyVal,
                          checkTypeDict: string -> Option<Dict>, asBool: PyVal -> Option<bool>)
    returns (r: Result<Option<seq<Assoc<PyVal>>>, Failure>)
    ensures r == ListOfDicts(option, text, allowBool, safeEval, checkTypeDict, asBool)
  {
    if text.None? {
      return Ok(None);
    }
    var t := text.value;
    var kwargs := safeEval(t);
    if kwargs.PyStr? {
      var d := checkTypeDict(kwargs.s);
      if d.None? {
        return Err(ListOfDictsInvalid(option, t));
      }
      kwargs := PyDict(d.value);
    }
    if kwargs.PyDict? {
      kwargs := PyList([kwargs]);
    }
    if !kwargs.PyList? {
      return Err(ListOfDictsInvalid(option, t));
    }
    var items := kwargs.items;
    var allow := PyBool(allowBool);
    var out: seq<Assoc<PyVal>> := [];
    var i := 0;
    assert items[i..] == items;
    assert forall rest: seq<Assoc<PyVal>> :: out + rest == rest;
    while i < |items|
      invariant 0 <= i <= |items|
      invariant DictsFrom(option, t, items, PyBool(allowBool), checkTypeDict, asBool)
        == Prefixed(out, DictsFrom(option, t, items[i..], allow, checkTypeDict, asBool))
    {
      var d := AsDict(items[i], checkTypeDict);
      if d.None? {
        return Err(ListOfDictsInvalid(option, t));
      }
      var popped := Pop(d.value, AllowBoolKey);
      ghost var old_allow := allow;
      if popped.0.Some? {
        allow := popped.0.value;
      }
      var item := Converted(popped.1, allow == PyBool(true), asBool);
      if item.None? {
        return Err(ListOfDictsInvalid(option, t));
      }
      assert items[i..][1..] == items[i + 1..];
      assert DictsFrom(option, t, items[i..], old_allow, checkTypeDict, asBool)
        == Prefixed([item.value], DictsFrom(option, t, items[i + 1..], allow, checkTypeDict, asBool));
      PrefixedTwice(out, [item.value], DictsFrom(option, t, items[i + 1..], allow, checkTypeDict, asBool));
      out := out + [item.value];
      i := i + 1;
    }
    assert items[i..] == [];
    assert out + [] == out;
    return Ok(Some(out));
  }

  /** A list of dicts with string keys and no allow_bool_values key comes back
      as the same dicts when conversion is off. */
  lemma {:induction false} DictsFromPlain(option: string, text: string, ds: seq<Assoc<PyVal>>,
                                         checkTypeDict: string -> Option<Dict>, asBool: PyVal -> Option<bool>)
    requires forall i, j :: 0 <= i < |ds| && 0 <= j < |ds[i]| ==> ds[i][j].0 != "allow_bool_values"
    ensures DictsFrom(option, text, AsPyDicts(ds), PyBool(false), checkTypeDict, asBool) == Ok(ds)
  {
    if ds != [] {
      var items := AsPyDicts(ds);
      var d := AsPy(ds[0]);
      assert items[0] == PyDict(d);
      assert AsDict(items[0], checkTypeDict) == Some(d);
      forall i | 0 <= i < |d|
        ensures d[i].0 != AllowBoolKey
      {
        assert d[i].0 == PyStr(ds[0][i].0);
      }
      PopAbsent(d, AllowBoolKey);
      ConvertedPlain(ds[0], asBool);
      assert items[1..] == AsPyDicts(ds[1..]);
      DictsFromPlain(option, text, ds[1..], checkTypeDict, asBool);
      assert ds == [ds[0]] + ds[1..];
    }
  }

  function AsPy(d: Assoc<PyVal>): (r: Dict)
    ensures |r| == |d| && forall i :: 0 <= i < |d| ==> r[i] == (PyStr(d[i].0), d[i].1)
  {
    if d == [] then [] else [(PyStr(d[0].0), d[0].1)] + AsPy(d[1..])
  }

  function AsPyDicts(ds: seq<Assoc<PyVal>>): (r: seq<PyVal>)
    ensures |r| == |ds| && forall i :: 0 <= i < |ds| ==> r[i] == PyDict(AsPy(ds[i]))
  {
    if ds == [] then [] else [PyDict(AsPy(ds[0]))] + AsPyDicts(ds[1..])
  }

  lemma {:induction false} PopAbsent(d: Dict, key: PyVal)
    requires forall i :: 0 <= i < |d| ==> d[i].0 != key
    ensures Pop(d, key) == (None, d)
  {
    if d != [] {
      PopAbsent(d[1..], key);
    }
  }

  lemma {:induction false} ConvertedPlain(d: Assoc<PyVal>, asBool: PyVal -> Option<bool>)
    ensures Converted(AsPy(d), false, asBool) == Some(d)
  {
    if d != [] {
      assert AsPy(d)[1..] == AsPy(d[1..]);
      ConvertedPlain(d[1..], asBool);
      assert (d[0].0, d[0].1) == d[0];
      assert d == [d[0]] + d[1..];
    }
  }

  /** The whole parser on an option value that evaluates to such a list. */
  lemma ListOfDictsPlain(option: string, text: string, ds: seq<Assoc<PyVal>>, safeEval: string -> PyVal,
                         checkTypeDict: string -> Option<Dict>, asBool: PyVal -> Option<bool>)
    requires safeEval(text) == PyList(AsPyDicts(ds))
    requires forall i, j :: 0 <= i < |ds| && 0 <= j < |ds[i]| ==> ds[i][j].0 != "allow_bool_values"
    ensures ListOfDicts(option, Some(text), false, safeEval, checkTypeDict, asBool) == Ok(Some(ds))
  {
    DictsFromPlain(option, text, ds, checkTypeDict, asBool);
  }

  /** Every accepted element yields exactly one dict, in order. */
  lemma {:induction false} DictsFromLength(option: string, text: string, items: seq<PyVal>, allow: PyVal,
                                          checkTypeDict: string -> Option<Dict>, asBool: PyVal -> Option<bool>)
    ensures var r := DictsFrom(option, text, items, allow, checkTypeDict, asBool);
      r.Ok? ==> |r.value| == |items|
    decreases |items|
  {
    if items != [] {
      var d := AsDict(items[0], checkTypeDict);
      if d.Some? {
        var popped := Pop(d.value, AllowBoolKey);
        var allow' := if popped.0.Some? then popped.0.value else allow;
        DictsFromLength(option, text, items[1..], allow', checkTypeDict, asBool);
      }
    }
  }
}
