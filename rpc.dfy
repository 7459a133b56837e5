/** The rpc module: it checks its options, executes each requested RPC over
    the device connection, turns each reply into a result in the requested
    format, saves the text output, and exits with the single result or with
    all of them and an overall failed flag. */
module RpcModule {
  import opened Text
  import opened JunosTypes

  /** The output formats an RPC may be asked for. */
  const ValidFormats := ["text", "xml", "json"]
  const GetConfigName := "get-config"

  /** The module's options after Ansible's argument parsing. ignore_warning,
      kwargs and attrs are given as the outcome of their parsers
      (ModuleParams.ParseIgnoreWarning and ModuleParams.ListOfDicts). */
  datatype RpcOptions = RpcOptions(
    rpcs: Option<seq<string>>,
    ignoreWarning: Result<Option<IgnoreWarning>, Failure>,
    formats: Option<seq<string>>,
    kwargs: Result<Option<seq<Assoc<PyVal>>>, Failure>,
    attrs: Result<Option<seq<Assoc<PyVal>>>, Failure>,
    filter: Option<string>,
    returnOutput: bool)

  /** Why the module calls fail_json before executing anything. */
  datatype RpcFailure =
    | NoRpcs
    | OptionRejected(failure: Failure)
    | InvalidFormat(format: string)
    | FormatCount(rpcs: nat, formats: nat)
    | KwargsCount(rpcs: nat, kwargs: nat)
    | AttrsCount(rpcs: nat, attrs: nat)
    | FilterNotAllowed

  /** The message fail_json reports; the attrs message runs "value" and "per"
      together, as the module's string literals do. */
  function Message(f: RpcFailure): string
    requires !f.OptionRejected?
  {
    match f
    case NoRpcs => "The rpcs option must have a value."
    case InvalidFormat(v) => "The value " + v + " in formats is invalid. Must be one of: " + Join(", ", ValidFormats)
    case FormatCount(r, n) =>
      "The formats option must have a single value, or one value per rpc. There are "
      + Decimal(r) + " rpcs and " + Decimal(n) + " formats."
    case KwargsCount(r, n) =>
      "The kwargs option must have one value per rpc. There are " + Decimal(r) + " rpcs and " + Decimal(n) + " kwargs."
    case AttrsCount(r, n) =>
      "The attrs option must have one valueper rpc. There are " + Decimal(r) + " rpcs and " + Decimal(n) + " attrs."
    case FilterNotAllowed =>
      "The filter option is only valid when the rpcs option value is a single 'get-config' RPC."
  }

  /** What the checks leave for the execution loop: one format, one kwargs
      dict (or None) and one attrs dict (or None) per RPC. */
  datatype Plan = Plan(
    rpcs: seq<string>,
    ignoreWarning: Option<IgnoreWarning>,
    formats: seq<string>,
    kwargs: seq<Option<Assoc<PyVal>>>,
    attrs: seq<Option<Assoc<PyVal>>>)

  /** zip() over the four lists runs over every RPC. */
  predicate WellFormed(p: Plan) {
    |p.formats| >= |p.rpcs| && |p.kwargs| == |p.rpcs| && |p.attrs| == |p.rpcs|
  }

  /** The formats option, defaulting to a single "xml". */
  function Formats(o: RpcOptions): seq<string> {
    if o.formats.None? then ["xml"] else o.formats.value
  }

  /** Index of the first format that is not valid, or |fs|. */
  function FirstInvalidIndex(fs: seq<string>): (k: nat)
    ensures k <= |fs|
    ensures forall j :: 0 <= j < k ==> fs[j] in ValidFormats
    ensures k < |fs| ==> fs[k] !in ValidFormats
  {
    if fs == [] then 0
    else if fs[0] !in ValidFormats then 0
    else 1 + FirstInvalidIndex(fs[1..])
  }

  function Repeat<T>(x: T, n: nat): (r: seq<T>)
    ensures |r| == n && forall k :: 0 <= k < n ==> r[k] == x
  {
    seq(n, _ => x)
  }

  function Wrapped(l: seq<Assoc<PyVal>>): (r: seq<Option<Assoc<PyVal>>>)
    ensures |r| == |l| && forall k :: 0 <= k < |l| ==> r[k] == Some(l[k])
  {
    seq(|l|, k requires 0 <= k < |l| => Some(l[k]))
  }

  /** A parsed kwargs/attrs list per RPC, or None for every RPC. */
  function PerRpc(v: Option<seq<Assoc<PyVal>>>, n: nat): seq<Option<Assoc<PyVal>>> {
    if v.Some? then Wrapped(v.value) else Repeat(None, n)
  }

  predicate FilterAllowed(rpcs: seq<string>) {
    |rpcs| == 1 && (rpcs[0] == GetConfigName || rpcs[0] == "get_config")
  }

  /** The option checks of the module, in the order it makes them. */
  function Checked(o: RpcOptions): Result<Plan, RpcFailure> {
    if o.rpcs.None? then Err(NoRpcs)
    else if o.ignoreWarning.Err? then Err(OptionRejected(o.ignoreWarning.error))
    else
      var rpcs := o.rpcs.value;
      var formats := Formats(o);
      var k := FirstInvalidIndex(formats);
      if k < |formats| then Err(InvalidFormat(formats[k]))
      else if |formats| != 1 && |formats| != |rpcs| then Err(FormatCount(|rpcs|, |formats|))
      else
        var fs := if |formats| == 1 && |rpcs| > 1 then Repeat(formats[0], |rpcs|) else formats;
        if o.kwargs.Err? then Err(OptionRejected(o.kwargs.error))
        else if o.kwargs.value.Some? && |o.kwargs.value.value| != |rpcs| then Err(KwargsCount(|rpcs|, |o.kwargs.value.value|))
        else if o.attrs.Err? then Err(OptionRejected(o.attrs.error))
        else if o.attrs.value.Some? && |o.attrs.value.value| != |rpcs| then Err(AttrsCount(|rpcs|, |o.attrs.value.value|))
        else if o.filter.Some? && !FilterAllowed(rpcs) then Err(FilterNotAllowed)
        else Ok(Plan(rpcs, o.ignoreWarning.value, fs, PerRpc(o.kwargs.value, |rpcs|), PerRpc(o.attrs.value, |rpcs|)))
  }

  /** The checks as the module runs them, with its loop over the formats. */
  method CheckOptions(o: RpcOptions) returns (r: Result<Plan, RpcFailure>)
    ensures r == Checked(o)
  {
    if o.rpcs.None? {
      return Err(NoRpcs);
    }
    var rpcs := o.rpcs.value;
    if o.ignoreWarning.Err? {
      return Err(OptionRejected(o.ignoreWarning.error));
    }
    var formats := if o.formats.None? then ["xml"] else o.formats.value;
    var k := 0;
    while k < |formats|
      invariant 0 <= k <= |formats|
      invariant forall j :: 0 <= j < k ==> formats[j] in ValidFormats
    {
      if formats[k] !in ValidFormats {
        return Err(InvalidFormat(formats[k]));
      }
      k := k + 1;
    }
    if |formats| != 1 && |formats| != |rpcs| {
      return Err(FormatCount(|rpcs|, |formats|));
    } else if |formats| == 1 && |rpcs| > 1 {
      formats := Repeat(formats[0], |rpcs|);
    }
    if o.kwargs.Err? {
      return Err(OptionRejected(o.kwargs.error));
    }
    var kwargs := Repeat(None, |rpcs|);
    if o.kwargs.value.Some? {
      if |o.kwargs.value.value| != |rpcs| {
        return Err(KwargsCount(|rpcs|, |o.kwargs.value.value|));
      }
      kwargs := Wrapped(o.kwargs.value.value);
    }
    if o.attrs.Err? {
      return Err(OptionRejected(o.attrs.error));
    }
    var attrs := Repeat(None, |rpcs|);
    if o.attrs.value.Some? {
      if |o.attrs.value.value| != |rpcs| {
        return Err(AttrsCount(|rpcs|, |o.attrs.value.value|));
      }
      attrs := Wrapped(o.attrs.value.value);
    }
    if o.filter.Some? {
      if |rpcs| != 1 || (rpcs[0] != GetConfigName && rpcs[0] != "get_config") {
        return Err(FilterNotAllowed);
      }
    }
    return Ok(Plan(rpcs, o.ignoreWarning.value, formats, kwargs, attrs));
  }

  /** The options are accepted exactly when every check passes; the plan then
      holds the RPCs as given, each RPC's format (the single format repeated),
      and each RPC's kwargs and attrs (None when the option is absent). An
      invalid format is reported for the first one in the list. */
  lemma CheckedAccepts(o: RpcOptions)
    ensures Checked(o).Ok? <==>
      && o.rpcs.Some? && o.ignoreWarning.Ok?
      && (forall j :: 0 <= j < |Formats(o)| ==> Formats(o)[j] in ValidFormats)
      && (|Formats(o)| == 1 || |Formats(o)| == |o.rpcs.value|)
      && o.kwargs.Ok? && (o.kwargs.value.Some? ==> |o.kwargs.value.value| == |o.rpcs.value|)
      && o.attrs.Ok? && (o.attrs.value.Some? ==> |o.attrs.value.value| == |o.rpcs.value|)
      && (o.filter.Some? ==> FilterAllowed(o.rpcs.value))
    ensures Checked(o).Ok? ==>
      var p := Checked(o).value;
      var fs := Formats(o);
      && WellFormed(p) && p.rpcs == o.rpcs.value && p.ignoreWarning == o.ignoreWarning.value
      && (forall k :: 0 <= k < |p.rpcs| ==> p.formats[k] == (if |fs| == 1 then fs[0] else fs[k]))
      && (forall k :: 0 <= k < |p.rpcs| ==> p.kwargs[k] == (if o.kwargs.value.Some? then Some(o.kwargs.value.value[k]) else None))
      && (forall k :: 0 <= k < |p.rpcs| ==> p.attrs[k] == (if o.attrs.value.Some? then Some(o.attrs.value.value[k]) else None))
    ensures Checked(o).Err? && Checked(o).error.InvalidFormat? ==>
      var v := Checked(o).error.format;
      exists k :: 0 <= k < |Formats(o)| && Formats(o)[k] == v && v !in ValidFormats
        && forall j :: 0 <= j < k ==> Formats(o)[j] in ValidFormats
  {
    var fs := Formats(o);
    var k := FirstInvalidIndex(fs);
    if k < |fs| {
      assert !(forall j :: 0 <= j < |fs| ==> fs[j] in ValidFormats);
    }
  }

  // ---------------------------------------------------------------------
  // The request element

  /** An RPC request element: its tag, its attributes in order, and its
      child elements with their text. */
  datatype RpcRequest = RpcRequest(name: string, attributes: Assoc<string>, children: seq<(string, Option<string>)>)

  /** etree.Element(name, format=format) */
  function Element(name: string, format: string): RpcRequest {
    RpcRequest(name, [("format", format)], [])
  }

  /** s.replace("_", "-") */
  function Dashed(s: string): string { ReplaceChar(s, '_', '-') }

  const InvalidTagPrefix := "Invalid tag name "
  const InvalidAttributePrefix := "Invalid attribute name "
  const NotText := "Argument must be bytes or unicode"

  /** The text a kwargs value gives its child element: none for a bool (the
      element is an empty flag) or for None, the string itself, and a
      TypeError for anything else. */
  function ChildText(v: PyVal): Result<Option<string>, Crash> {
    match v
    case PyBool(_) => Ok(None)
    case PyNone => Ok(None)
    case PyStr(s) => Ok(Some(s))
    case _ => Err(TypeError(NotText))
  }

  /** The kwargs loop: one child element per key, its underscores turned to
      dashes. nameOk says which names lxml accepts as tags and attributes. */
  function WithChildren(req: RpcRequest, kw: Assoc<PyVal>, nameOk: string -> bool): Result<RpcRequest, Crash>
    decreases |kw|
  {
    if kw == [] then Ok(req)
    else
      var key := Dashed(kw[0].0);
      if !nameOk(key) then Err(ValueError(InvalidTagPrefix + key))
      else match ChildText(kw[0].1)
        case Err(c) => Err(c)
        case Ok(t) => WithChildren(req.(children := req.children + [(key, t)]), kw[1..], nameOk)
  }

  /** The attrs loop: rpc.set(key, value) with the key's underscores turned
      to dashes; values must be strings. */
  function WithAttributes(req: RpcRequest, at: Assoc<PyVal>, nameOk: string -> bool): Result<RpcRequest, Crash>
    decreases |at|
  {
    if at == [] then Ok(req)
    else
      var key := Dashed(at[0].0);
      if !nameOk(key) then Err(ValueError(InvalidAttributePrefix + key))
      else if !at[0].1.PyStr? then Err(TypeError(NotText))
      else WithAttributes(req.(attributes := Store(req.attributes, key, at[0].1.s)), at[1..], nameOk)
  }

  /** The request of an RPC other than get-config. */
  function Request(name: string, format: string, kwarg: Option<Assoc<PyVal>>, attr: Option<Assoc<PyVal>>,
                   nameOk: string -> bool): Result<RpcRequest, Crash> {
    var base := Element(name, format);
    var withKw := if kwarg.Some? then WithChildren(base, kwarg.value, nameOk) else Ok(base);
    if withKw.Err? || attr.None? then withKw else WithAttributes(withKw.value, attr.value, nameOk)
  }

  /** Building the request element with the module's two loops. */
  method BuildRequest(name: string, format: string, kwarg: Option<Assoc<PyVal>>, attr: Option<Assoc<PyVal>>,
                      nameOk: string -> bool) returns (r: Result<RpcRequest, Crash>)
    ensures r == Request(name, format, kwarg, attr, nameOk)
  {
    var req := Element(name, format);
    if kwarg.Some? {
      var kw := kwarg.value;
      var k := 0;
      assert kw[k..] == kw;
      while k < |kw|
        invariant 0 <= k <= |kw|
        invariant WithChildren(Element(name, format), kw, nameOk) == WithChildren(req, kw[k..], nameOk)
      {
        var key := Dashed(kw[k].0);
        if !nameOk(key) {
          return Err(ValueError(InvalidTagPrefix + key));
        }
        var text := ChildText(kw[k].1);
        if text.Err? {
          return Err(text.error);
        }
        assert kw[k..][1..] == kw[k + 1..];
        req := req.(children := req.children + [(key, text.value)]);
        k := k + 1;
      }
    }
    if attr.Some? {
      var at := attr.value;
      ghost var start := req;
      var k := 0;
      assert at[k..] == at;
      while k < |at|
        invariant 0 <= k <= |at|
        invariant WithAttributes(start, at, nameOk) == WithAttributes(req, at[k..], nameOk)
      {
        var key := Dashed(at[k].0);
        if !nameOk(key) {
          return Err(ValueError(InvalidAttributePrefix + key));
        }
        if !at[k].1.PyStr? {
          return Err(TypeError(NotText));
        }
        assert at[k..][1..] == at[k + 1..];
        req := req.(attributes := Store(req.attributes, key, at[k].1.s));
        k := k + 1;
      }
    }
    return Ok(req);
  }

  /** Every kwargs key becomes one child, in order, named with dashes. */
  lemma {:induction false} ChildrenShape(req: RpcRequest, kw: Assoc<PyVal>, nameOk: string -> bool)
    requires WithChildren(req, kw, nameOk).Ok?
    ensures var r := WithChildren(req, kw, nameOk).value;
      && r.name == req.name && r.attributes == req.attributes
      && |r.children| == |req.children| + |kw|
      && r.children[..|req.children|] == req.children
      && forall k :: 0 <= k < |kw| ==> r.children[|req.children| + k].0 == Dashed(kw[k].0)
    decreases |kw|
  {
    if kw != [] {
      var key := Dashed(kw[0].0);
      var t := ChildText(kw[0].1).value;
      var next := req.(children := req.children + [(key, t)]);
      ChildrenShape(next, kw[1..], nameOk);
      var r := WithChildren(req, kw, nameOk).value;
      assert r == WithChildren(next, kw[1..], nameOk).value;
      assert r.children[..|next.children|] == next.children;
      assert r.children[..|req.children|] == next.children[..|req.children|];
      forall k | 0 <= k < |kw|
        ensures r.children[|req.children| + k].0 == Dashed(kw[k].0)
      {
        if k > 0 {
          assert r.children[|next.children| + (k - 1)].0 == Dashed(kw[1..][k - 1].0);
        } else {
          assert r.children[|req.children|] == next.children[|req.children|];
        }
      }
    }
  }

  predicate NamesFormat(at: Assoc<PyVal>) {
    exists k :: 0 <= k < |at| && Dashed(at[k].0) == "format"
  }

  /** The attrs loop touches only attributes, and keeps the format
      attribute unless an attrs key names it. */
  lemma {:induction false} AttributesKeepFormat(req: RpcRequest, at: Assoc<PyVal>, nameOk: string -> bool)
    requires WithAttributes(req, at, nameOk).Ok?
    ensures var r := WithAttributes(req, at, nameOk).value;
      && r.name == req.name && r.children == req.children
      && (!NamesFormat(at) ==> Lookup(r.attributes, "format") == Lookup(req.attributes, "format"))
    decreases |at|
  {
    if at != [] {
      var key := Dashed(at[0].0);
      var next := req.(attributes := Store(req.attributes, key, at[0].1.s));
      AttributesKeepFormat(next, at[1..], nameOk);
      if !NamesFormat(at) {
        assert key != "format";
        StoreLookup(req.attributes, key, at[0].1.s, "format");
        forall k | 0 <= k < |at[1..]|
          ensures Dashed(at[1..][k].0) != "format"
        {
          assert at[1..][k] == at[k + 1];
        }
      }
    }
  }

  /** A built request carries the RPC's name, one child per kwargs key in
      order and named with dashes, and its format attribute unless an attrs
      key overrides it. */
  lemma RequestShape(name: string, format: string, kwarg: Option<Assoc<PyVal>>, attr: Option<Assoc<PyVal>>, nameOk: string -> bool)
    requires Request(name, format, kwarg, attr, nameOk).Ok?
    ensures var r := Request(name, format, kwarg, attr, nameOk).value;
      var kw := if kwarg.Some? then kwarg.value else [];
      && r.name == name
      && |r.children| == |kw|
      && (forall k :: 0 <= k < |kw| ==> r.children[k].0 == Dashed(kw[k].0))
      && (attr.None? || !NamesFormat(attr.value) ==> Lookup(r.attributes, "format") == Some(format))
  {
    var base := Element(name, format);
    var withKw := if kwarg.Some? then WithChildren(base, kwarg.value, nameOk) else Ok(base);
    var r := Request(name, format, kwarg, attr, nameOk).value;
    if kwarg.Some? {
      ChildrenShape(base, kwarg.value, nameOk);
    }
    assert Lookup(base.attributes, "format") == Some(format);
    if attr.Some? {
      AttributesKeepFormat(withKw.value, attr.value, nameOk);
      assert r == WithAttributes(withKw.value, attr.value, nameOk).value;
    } else {
      assert r == withKw.value;
    }
  }

  // ---------------------------------------------------------------------
  // Executing one RPC

  /** A reply as the device library returns it: True, an XML element (its
      text, its serialisation, its jxmlease parse and its str()), a dict
      (a JSON reply), or anything else (the text of its type). */
  datatype Resp =
    | RespTrue
    | RespElement(text: Option<string>, xml: string, tree: string, display: string)
    | RespDict(display: string)
    | RespOther(typeText: string)

  /** What the library call for the RPC at some position did. */
  datatype RpcAnswer = Answered(resp: Resp) | Threw(error: LibError)

  /** parsed_output: the jxmlease tree of an XML reply, or the reply itself. */
  datatype Output = FromXml(tree: string) | Returned(resp: Resp)

  /** The result dict of one RPC; absent keys are None. changed is always false. */
  datatype RpcResult = RpcResult(
    msg: string,
    rpc: string,
    format: string,
    kwargs: Option<Assoc<PyVal>>,
    attrs: Option<Assoc<PyVal>>,
    changed: bool,
    failed: bool,
    stdout: Option<string>,
    stdoutLines: Option<seq<string>>,
    parsedOutput: Option<Output>)

  /** The calls the module makes into the device library or the broker. */
  datatype RpcCall =
    | LocalRpc(request: RpcRequest, normalize: bool)
    | ForwardedRpc(request: RpcRequest, ignoreWarning: Option<IgnoreWarning>, format: string)
    | LocalGetConfig(filter: Option<string>, options: Assoc<PyVal>, kwargs: Assoc<PyVal>)
    | ForwardedGetConfig(filter: Option<string>, options: Assoc<PyVal>, kwargs: Assoc<PyVal>)

  /** A save_text_output(name, format, text) request. */
  datatype SaveRequest = SaveRequest(name: string, format: string, text: Option<string>)

  /** The device connection and the library's behaviour: the answer of the
      call made for the RPC at each position, which names lxml accepts, str()
      of lxml's serialisation of a request, and str() of the argument-less
      RpcError a broker error is converted into. */
  datatype RpcEnv = RpcEnv(
    conn: ConnType,
    answer: nat -> RpcAnswer,
    nameOk: string -> bool,
    render: RpcRequest -> string,
    bareRpcErrorText: string)

  /** One RPC as zip() hands it to the loop, its name already dashed. */
  datatype Item = Item(name: string, format: string, kwarg: Option<Assoc<PyVal>>, attr: Option<Assoc<PyVal>>)

  function ItemAt(p: Plan, i: nat): Item
    requires WellFormed(p) && i < |p.rpcs|
  {
    Item(Dashed(p.rpcs[i]), p.formats[i], p.kwargs[i], p.attrs[i])
  }

  /** The result before execution: failed until shown otherwise. */
  function Initial(item: Item): RpcResult {
    RpcResult("", item.name, item.format, item.kwarg, item.attr, false, true, None, None, None)
  }

  const ExecutedMsg := "The RPC executed successfully."
  const GetConfigExecutedMsg := "The \"get-config\" RPC executed successfully."
  const UnablePrefix := "Unable to execute the RPC: "
  const UnexpectedPrefix := "Unexpected "
  const DictHasNoText := "'dict' object has no attribute 'text'"
  const DictNotSerializable := "Type 'dict' cannot be serialized."
  const UnboundResp := "local variable 'resp' referenced before assignment"

  /** Raising the ConnectError class without arguments fails: its
      constructor requires the device. */
  const BareConnectError := "__init__() missing 1 required positional argument: 'dev'"

  function Unable(rendered: string, error: string): string {
    UnablePrefix + rendered + ". Error: " + error
  }

  /** A reply turned into text and parsed output, or the message that
      replaces the result's. */
  datatype Normalized = Outputs(text: Option<string>, parsed: Option<Output>) | Unexpected(msg: string)

  /** The reply handling after the call: True gives empty text; an element or
      a dict is read in the requested format (a dict has neither .text nor an
      XML serialisation); anything else is an unexpected type. */
  function Normalize(resp: Resp, format: string): Result<Normalized, Crash> {
    match resp
    case RespTrue => Ok(Outputs(Some(""), None))
    case RespOther(t) => Ok(Unexpected(UnexpectedPrefix + "response type " + t + "."))
    case _ =>
      if format == "text" then
        if resp.RespElement? then Ok(Outputs(resp.text, None)) else Err(AttributeError(DictHasNoText))
      else if format == "xml" then
        if resp.RespElement? then Ok(Outputs(Some(resp.xml), Some(FromXml(resp.tree)))) else Err(TypeError(DictNotSerializable))
      else if format == "json" then Ok(Outputs(Some(resp.display), Some(Returned(resp))))
      else Ok(Unexpected(UnexpectedPrefix + "format " + format + "."))
  }

  /** What one pass of the loop does: the calls made, the output saved, the
      result appended or the exception that ends the module, and the value of
      the loop's `resp` variable afterwards. */
  datatype Step = Step(calls: seq<RpcCall>, save: seq<SaveRequest>, outcome: Result<RpcResult, Crash>, resp: Option<Resp>)

  /** The shape every pass keeps: at most one call, a result named after its
      RPC and format and never changed, made only after the call, and output
      saved exactly for a result that succeeded. */
  predicate Consistent(st: Step, item: Item) {
    && |st.calls| <= 1
    && (st.outcome.Ok? ==>
          && st.outcome.value.rpc == item.name && st.outcome.value.format == item.format
          && !st.outcome.value.changed && |st.calls| == 1)
    && |st.save| <= 1
    && (st.save != [] <==> st.outcome.Ok? && !st.outcome.value.failed)
    && (st.save != [] ==> st.save[0].name == item.name && st.save[0].format == item.format)
  }

  /** After the call returned resp: read the reply, set the output keys when
      return_output is true, save the text, and mark the result succeeded. */
  function Finish(result: RpcResult, returnOutput: bool, calls: seq<RpcCall>, resp: Resp): (st: Step)
    requires result.failed
    ensures st.calls == calls && st.resp == Some(resp)
    ensures st.outcome.Ok? ==> st.outcome.value.(msg := result.msg, failed := result.failed,
      stdout := None, stdoutLines := None, parsedOutput := None) == result.(stdout := None, stdoutLines := None, parsedOutput := None)
    ensures |st.save| <= 1
    ensures st.save != [] <==> st.outcome.Ok? && !st.outcome.value.failed
    ensures st.save != [] ==> st.save[0].name == result.rpc && st.save[0].format == result.format
  {
    match Normalize(resp, result.format)
    case Err(c) => Step(calls, [], Err(c), Some(resp))
    case Ok(Unexpected(m)) => Step(calls, [], Ok(result.(msg := m)), Some(resp))
    case Ok(Outputs(text, parsed)) =>
      var shown :=
        if returnOutput then
          result.(stdout := text, stdoutLines := if text.Some? then Some(SplitLines(text.value)) else None, parsedOutput := parsed)
        else result;
      Step(calls, [SaveRequest(result.rpc, result.format, text)], Ok(shown.(failed := false)), Some(resp))
  }

  /** get-config: the attrs dict (or a new one) gets the format and is sent
      as the options; the result's attrs is that same dict, so it shows the
      format too when attrs were given. */
  function GetConfigStep(item: Item, o: RpcOptions, env: RpcEnv, i: nat, last: Option<Resp>): (st: Step)
    ensures Consistent(st, item)
  {
    var options := Store(if item.attr.Some? then item.attr.value else [], "format", PyStr(item.format));
    var result := Initial(item).(attrs := if item.attr.Some? then Some(options) else None);
    var kw := if item.kwarg.Some? then item.kwarg.value else [];
    var call := if env.conn == Local then LocalGetConfig(o.filter, options, kw) else ForwardedGetConfig(o.filter, options, kw);
    match env.answer(i)
    case Threw(e) =>
      if Handled(e) then Step([call], [], Ok(result.(msg := Unable(env.render(Element(item.name, item.format)), e.detail))), last)
      else Step([call], [], Err(Uncaught(e)), last)
    case Answered(resp) => Finish(result.(msg := GetConfigExecutedMsg), o.returnOutput, [call], resp)
  }

  /** Any other RPC: sent to the device library directly (normalised for
      XML), or forwarded with ignore_warning and the format. A forwarded
      error is converted by its text (RpcError is raised bare and reported;
      raising ConnectError bare throws TypeError); one naming neither RpcError nor
      ConnectError is swallowed, and the loop goes on with whatever `resp`
      held before. */
  function SendStep(item: Item, iw: Option<IgnoreWarning>, o: RpcOptions, env: RpcEnv, i: nat,
                    last: Option<Resp>, req: RpcRequest): (st: Step)
    ensures Consistent(st, item)
  {
    var result := Initial(item);
    if env.conn == Local then
      var call := LocalRpc(req, item.format == "xml");
      match env.answer(i)
      case Threw(e) =>
        if Handled(e) then Step([call], [], Ok(result.(msg := Unable(env.render(req), e.detail))), last)
        else Step([call], [], Err(Uncaught(e)), last)
      case Answered(resp) => Finish(result.(msg := ExecutedMsg), o.returnOutput, [call], resp)
    else
      var call := ForwardedRpc(req, iw, item.format);
      match env.answer(i)
      case Answered(resp) => Finish(result.(msg := ExecutedMsg), o.returnOutput, [call], resp)
      case Threw(e) =>
        if Contains(e.detail, "RpcError") then
          Step([call], [], Ok(result.(msg := Unable(env.render(req), env.bareRpcErrorText))), last)
        else if Contains(e.detail, "ConnectError") then Step([call], [], Err(TypeError(BareConnectError)), last)
        else if last.None? then Step([call], [], Err(NameError(UnboundResp)), last)
        else Finish(result.(msg := ExecutedMsg), o.returnOutput, [call], last.value)
  }

  /** One pass of the execution loop. */
  function RunOne(p: Plan, o: RpcOptions, env: RpcEnv, i: nat, last: Option<Resp>): (st: Step)
    requires WellFormed(p) && i < |p.rpcs|
    ensures Consistent(st, ItemAt(p, i))
  {
    var item := ItemAt(p, i);
    if !env.nameOk(item.name) then Step([], [], Err(ValueError(InvalidTagPrefix + item.name)), last)
    else if item.name == GetConfigName then GetConfigStep(item, o, env, i, last)
    else match Request(item.name, item.format, item.kwarg, item.attr, env.nameOk)
      case Err(c) => Step([], [], Err(c), last)
      case Ok(req) => SendStep(item, p.ignoreWarning, o, env, i, last, req)
  }

  /** One pass, building the request with the module's loops. */
  method Execute(p: Plan, o: RpcOptions, env: RpcEnv, i: nat, last: Option<Resp>) returns (st: Step)
    requires WellFormed(p) && i < |p.rpcs|
    ensures st == RunOne(p, o, env, i, last)
  {
    var item := Item(Dashed(p.rpcs[i]), p.formats[i], p.kwargs[i], p.attrs[i]);
    if !env.nameOk(item.name) {
      return Step([], [], Err(ValueError(InvalidTagPrefix + item.name)), last);
    }
    if item.name == GetConfigName {
      return GetConfigStep(item, o, env, i, last);
    }
    var req := BuildRequest(item.name, item.format, item.kwarg, item.attr, env.nameOk);
    if req.Err? {
      return Step([], [], Err(req.error), last);
    }
    st := SendStep(item, p.ignoreWarning, o, env, i, last, req.value);
  }

  /** A local RPC whose call raises ConnectError or RpcError gives a failed
      result naming the request and the error, saves nothing, and the loop
      goes on; any other exception ends the module. */
  lemma LocalErrorReported(p: Plan, o: RpcOptions, env: RpcEnv, i: nat, last: Option<Resp>, e: LibError)
    requires WellFormed(p) && i < |p.rpcs|
    requires env.conn == Local && env.answer(i) == Threw(e)
    requires var item := ItemAt(p, i);
      env.nameOk(item.name) && item.name != GetConfigName
      && Request(item.name, item.format, item.kwarg, item.attr, env.nameOk).Ok?
    ensures var item := ItemAt(p, i);
      var req := Request(item.name, item.format, item.kwarg, item.attr, env.nameOk).value;
      var st := RunOne(p, o, env, i, last);
      && st.calls == [LocalRpc(req, item.format == "xml")]
      && st.save == [] && st.resp == last
      && (Handled(e) ==> st.outcome == Ok(Initial(item).(msg := Unable(env.render(req), e.detail))))
      && (!Handled(e) ==> st.outcome == Err(Uncaught(e)))
  {
  }

  /** A forwarded RPC whose error text names neither RpcError nor
      ConnectError is reported as executed, with the response of an earlier
      RPC when there was one, and ends the module when there was none. */
  lemma SwallowedErrorReusesResponse(p: Plan, o: RpcOptions, env: RpcEnv, i: nat, last: Option<Resp>, e: LibError)
    requires WellFormed(p) && i < |p.rpcs|
    requires env.conn == Delegated && env.answer(i) == Threw(e)
    requires !Contains(e.detail, "RpcError") && !Contains(e.detail, "ConnectError")
    requires var item := ItemAt(p, i);
      env.nameOk(item.name) && item.name != GetConfigName
      && Request(item.name, item.format, item.kwarg, item.attr, env.nameOk).Ok?
    ensures var item := ItemAt(p, i);
      var req := Request(item.name, item.format, item.kwarg, item.attr, env.nameOk).value;
      var st := RunOne(p, o, env, i, last);
      && (last.None? ==> st.outcome == Err(NameError(UnboundResp)))
      && (last.Some? ==> st == Finish(Initial(item).(msg := ExecutedMsg), o.returnOutput,
                                       [ForwardedRpc(req, p.ignoreWarning, item.format)], last.value))
  {
  }

  /** A forwarded RPC whose error text names RpcError gives a failed result
      with the text of a bare RpcError; one that names ConnectError but not
      RpcError ends the module with the TypeError of the bare raise. */
  lemma ForwardedErrorConverted(p: Plan, o: RpcOptions, env: RpcEnv, i: nat, last: Option<Resp>, e: LibError)
    requires WellFormed(p) && i < |p.rpcs|
    requires env.conn == Delegated && env.answer(i) == Threw(e)
    requires var item := ItemAt(p, i);
      env.nameOk(item.name) && item.name != GetConfigName
      && Request(item.name, item.format, item.kwarg, item.attr, env.nameOk).Ok?
    ensures var item := ItemAt(p, i);
      var req := Request(item.name, item.format, item.kwarg, item.attr, env.nameOk).value;
      var st := RunOne(p, o, env, i, last);
      && st.calls == [ForwardedRpc(req, p.ignoreWarning, item.format)]
      && (Contains(e.detail, "RpcError") ==>
            st.save == [] && st.resp == last
            && st.outcome == Ok(Initial(item).(msg := Unable(env.render(req), env.bareRpcErrorText))))
      && (!Contains(e.detail, "RpcError") && Contains(e.detail, "ConnectError") ==>
            st.outcome == Err(TypeError(BareConnectError)))
  {
  }

  /** get-config sends the attrs dict with the format added as its options,
      keeping every other option, and reports that same dict as the result's
      attrs. */
  lemma GetConfigOptions(p: Plan, o: RpcOptions, env: RpcEnv, i: nat, last: Option<Resp>, key: string)
    requires WellFormed(p) && i < |p.rpcs|
    requires env.nameOk(ItemAt(p, i).name) && ItemAt(p, i).name == GetConfigName
    ensures var item := ItemAt(p, i);
      var st := RunOne(p, o, env, i, last);
      && |st.calls| == 1
      && (st.calls[0].LocalGetConfig? <==> env.conn == Local)
      && (st.calls[0].LocalGetConfig? || st.calls[0].ForwardedGetConfig?)
      && st.calls[0].filter == o.filter
      && Lookup(st.calls[0].options, "format") == Some(PyStr(item.format))
      && (key != "format" ==> Lookup(st.calls[0].options, key) == (if item.attr.Some? then Lookup(item.attr.value, key) else None))
      && (st.outcome.Ok? ==> st.outcome.value.attrs == (if item.attr.Some? then Some(st.calls[0].options) else None))
  {
    var item := ItemAt(p, i);
    var base: Assoc<PyVal> := if item.attr.Some? then item.attr.value else [];
    StoreLookup(base, "format", PyStr(item.format), key);
  }

  /** A message that says why an RPC failed. */
  predicate Flagged(m: string) {
    StartsWith(m, UnablePrefix) || StartsWith(m, UnexpectedPrefix)
  }

  /** Every result is failed exactly when its message says why. */
  predicate Explained(st: Step) {
    st.outcome.Ok? ==> (st.outcome.value.failed <==> Flagged(st.outcome.value.msg))
  }

  lemma PrefixStarts(prefix: string, rest: string)
    ensures StartsWith(prefix + rest, prefix)
  {
    assert (prefix + rest)[..|prefix|] == prefix;
  }

  lemma SuccessNotFlagged()
    ensures !Flagged(ExecutedMsg) && !Flagged(GetConfigExecutedMsg)
  {
    assert ExecutedMsg[0] != UnablePrefix[0] && ExecutedMsg[0] != UnexpectedPrefix[0];
    assert GetConfigExecutedMsg[0] != UnablePrefix[0] && GetConfigExecutedMsg[0] != UnexpectedPrefix[0];
  }

  lemma FinishExplained(result: RpcResult, returnOutput: bool, calls: seq<RpcCall>, resp: Resp)
    requires result.failed && !Flagged(result.msg)
    ensures Explained(Finish(result, returnOutput, calls, resp))
  {
    match Normalize(resp, result.format)
    case Ok(Unexpected(m)) =>
      if resp.RespOther? {
        PrefixStarts(UnexpectedPrefix, "response type " + resp.typeText + ".");
        assert m == UnexpectedPrefix + ("response type " + resp.typeText + ".");
      } else {
        PrefixStarts(UnexpectedPrefix, "format " + result.format + ".");
        assert m == UnexpectedPrefix + ("format " + result.format + ".");
      }
    case _ =>
  }

  lemma UnableExplained(rendered: string, error: string)
    ensures Flagged(Unable(rendered, error))
  {
    PrefixStarts(UnablePrefix, rendered + ". Error: " + error);
    assert Unable(rendered, error) == UnablePrefix + (rendered + ". Error: " + error);
  }

  lemma GetConfigExplained(item: Item, o: RpcOptions, env: RpcEnv, i: nat, last: Option<Resp>)
    ensures Explained(GetConfigStep(item, o, env, i, last))
  {
    var options := Store(if item.attr.Some? then item.attr.value else [], "format", PyStr(item.format));
    var result := Initial(item).(attrs := if item.attr.Some? then Some(options) else None);
    var kw := if item.kwarg.Some? then item.kwarg.value else [];
    var call := if env.conn == Local then LocalGetConfig(o.filter, options, kw) else ForwardedGetConfig(o.filter, options, kw);
    SuccessNotFlagged();
    match env.answer(i)
    case Threw(e) => UnableExplained(env.render(Element(item.name, item.format)), e.detail);
    case Answered(resp) => FinishExplained(result.(msg := GetConfigExecutedMsg), o.returnOutput, [call], resp);
  }

  lemma SendExplained(item: Item, iw: Option<IgnoreWarning>, o: RpcOptions, env: RpcEnv, i: nat,
                      last: Option<Resp>, req: RpcRequest)
    ensures Explained(SendStep(item, iw, o, env, i, last, req))
  {
    var result := Initial(item).(msg := ExecutedMsg);
    var call := if env.conn == Local then LocalRpc(req, item.format == "xml") else ForwardedRpc(req, iw, item.format);
    SuccessNotFlagged();
    match env.answer(i)
    case Threw(e) =>
      if env.conn == Local {
        UnableExplained(env.render(req), e.detail);
      } else if Contains(e.detail, "RpcError") {
        UnableExplained(env.render(req), env.bareRpcErrorText);
      } else if !Contains(e.detail, "ConnectError") && last.Some? {
        FinishExplained(result, o.returnOutput, [call], last.value);
      }
    case Answered(resp) => FinishExplained(result, o.returnOutput, [call], resp);
  }

  /** A result is failed exactly when its message says why: the call raised
      a handled error, or the reply had an unexpected type or format. */
  lemma FailedResultExplained(p: Plan, o: RpcOptions, env: RpcEnv, i: nat, last: Option<Resp>)
    requires WellFormed(p) && i < |p.rpcs|
    requires RunOne(p, o, env, i, last).outcome.Ok?
    ensures var r := RunOne(p, o, env, i, last).outcome.value;
      r.failed <==> StartsWith(r.msg, UnablePrefix) || StartsWith(r.msg, UnexpectedPrefix)
  {
    var item := ItemAt(p, i);
    if item.name == GetConfigName {
      GetConfigExplained(item, o, env, i, last);
    } else {
      var req := Request(item.name, item.format, item.kwarg, item.attr, env.nameOk);
      if req.Ok? {
        SendExplained(item, p.ignoreWarning, o, env, i, last, req.value);
      }
    }
  }

  // ---------------------------------------------------------------------
  // The execution loop and the module's exit

  /** The loop's state: calls made, outputs saved, results so far, the `resp`
      variable, and the exception that ended the loop, if any. */
  datatype Progress = Progress(calls: seq<RpcCall>, saves: seq<SaveRequest>, results: seq<RpcResult>,
                               resp: Option<Resp>, crash: Option<Crash>)

  const Start := Progress([], [], [], None, None)

  function Advance(g: Progress, st: Step): Progress {
    Progress(g.calls + st.calls, g.saves + st.save,
             if st.outcome.Ok? then g.results + [st.outcome.value] else g.results,
             st.resp, if st.outcome.Err? then Some(st.outcome.error) else None)
  }

  /** The loop from position i on; an exception ends it. */
  function DispatchFrom(p: Plan, o: RpcOptions, env: RpcEnv, i: nat, g: Progress): Progress
    requires WellFormed(p)
    decreases |p.rpcs| - i
  {
    if i >= |p.rpcs| || g.crash.Some? then g
    else DispatchFrom(p, o, env, i + 1, Advance(g, RunOne(p, o, env, i, g.resp)))
  }

  /** Only failed if every RPC failed; no RPC at all counts as failed. */
  predicate AllFailed(results: seq<RpcResult>) {
    forall k :: 0 <= k < |results| ==> results[k].failed
  }

  /** How the module ends: fail_json during the checks, an uncaught
      exception, exit_json with the one result's keys, or exit_json with all
      results and the overall failed flag. */
  datatype RpcEnd =
    | Refused(reason: RpcFailure)
    | RpcCrashed(crash: Crash)
    | ExitedOne(result: RpcResult)
    | ExitedAll(results: seq<RpcResult>, failed: bool)

  datatype RpcRun = RpcRun(calls: seq<RpcCall>, saves: seq<SaveRequest>, end: RpcEnd)

  /** The module's main after the connection is made. */
  function RpcMain(o: RpcOptions, env: RpcEnv): RpcRun {
    match Checked(o)
    case Err(f) => RpcRun([], [], Refused(f))
    case Ok(p) =>
      var g := DispatchFrom(p, o, env, 0, Start);
      RpcRun(g.calls, g.saves,
        if g.crash.Some? then RpcCrashed(g.crash.value)
        else if |g.results| == 1 then ExitedOne(g.results[0])
        else ExitedAll(g.results, AllFailed(g.results)))
  }

  /** The overall failed flag, with the module's loop that stops at the first
      result that did not fail. */
  method OverallFailed(results: seq<RpcResult>) returns (failed: bool)
    ensures failed == AllFailed(results)
  {
    failed := true;
    var k := 0;
    while k < |results|
      invariant 0 <= k <= |results|
      invariant forall j :: 0 <= j < k ==> results[j].failed
    {
      if !results[k].failed {
        failed := false;
        break;
      }
      k := k + 1;
    }
  }

  /** The module's main, with its loops. */
  method RunRpcs(o: RpcOptions, env: RpcEnv) returns (run: RpcRun)
    ensures run == RpcMain(o, env)
  {
    var checked := CheckOptions(o);
    if checked.Err? {
      return RpcRun([], [], Refused(checked.error));
    }
    var p := checked.value;
    CheckedAccepts(o);
    var g := Start;
    var i := 0;
    while i < |p.rpcs| && g.crash.None?
      invariant 0 <= i <= |p.rpcs|
      invariant DispatchFrom(p, o, env, 0, Start) == DispatchFrom(p, o, env, i, g)
    {
      var st := Execute(p, o, env, i, g.resp);
      g := Advance(g, st);
      i := i + 1;
    }
    if g.crash.Some? {
      return RpcRun(g.calls, g.saves, RpcCrashed(g.crash.value));
    }
    if |g.results| == 1 {
      return RpcRun(g.calls, g.saves, ExitedOne(g.results[0]));
    }
    var failed := OverallFailed(g.results);
    run := RpcRun(g.calls, g.saves, ExitedAll(g.results, failed));
  }

  /** The (name, format) pairs of the saved outputs. */
  function SaveKeys(ss: seq<SaveRequest>): (r: seq<(string, string)>)
    ensures |r| == |ss| && forall k :: 0 <= k < |ss| ==> r[k] == (ss[k].name, ss[k].format)
  {
    seq(|ss|, k requires 0 <= k < |ss| => (ss[k].name, ss[k].format))
  }

  /** The (rpc, format) pairs of the results that succeeded, in order. */
  function PassedKeys(rs: seq<RpcResult>): seq<(string, string)> {
    if rs == [] then []
    else
      var r := rs[|rs| - 1];
      PassedKeys(rs[..|rs| - 1]) + (if r.failed then [] else [(r.rpc, r.format)])
  }

  /** What the loop keeps true of its state: one result per finished RPC
      (named after it, in its format, unchanged), one call per result, and
      output saved for exactly the results that succeeded, in order. */
  predicate Tracks(p: Plan, i: nat, g: Progress)
    requires WellFormed(p)
  {
    && i <= |p.rpcs|
    && (g.crash.None? ==> |g.results| == i && |g.calls| == i)
    && |g.results| <= i
    && (forall k :: 0 <= k < |g.results| ==>
          g.results[k].rpc == Dashed(p.rpcs[k]) && g.results[k].format == p.formats[k] && !g.results[k].changed)
    && SaveKeys(g.saves) == PassedKeys(g.results)
  }

  lemma AdvanceTracks(p: Plan, o: RpcOptions, env: RpcEnv, i: nat, g: Progress)
    requires WellFormed(p) && i < |p.rpcs| && g.crash.None? && Tracks(p, i, g)
    ensures Tracks(p, i + 1, Advance(g, RunOne(p, o, env, i, g.resp)))
  {
    var st := RunOne(p, o, env, i, g.resp);
    var h := Advance(g, st);
    assert Consistent(st, ItemAt(p, i));
    assert SaveKeys(h.saves) == SaveKeys(g.saves) + SaveKeys(st.save);
    if st.outcome.Ok? {
      var r := st.outcome.value;
      assert h.results == g.results + [r];
      assert h.results[..|h.results| - 1] == g.results;
      assert SaveKeys(st.save) == (if r.failed then [] else [(r.rpc, r.format)]);
    } else {
      assert h.results == g.results && st.save == [];
    }
  }

  lemma {:induction false} DispatchTracks(p: Plan, o: RpcOptions, env: RpcEnv, i: nat, g: Progress)
    requires WellFormed(p) && Tracks(p, i, g)
    ensures var h := DispatchFrom(p, o, env, i, g);
      && Tracks(p, |p.rpcs|, h)
      && (h.crash.None? ==> |h.results| == |p.rpcs|)
    decreases |p.rpcs| - i
  {
    if i < |p.rpcs| && g.crash.None? {
      AdvanceTracks(p, o, env, i, g);
      DispatchTracks(p, o, env, i + 1, Advance(g, RunOne(p, o, env, i, g.resp)));
    } else if g.crash.Some? {
      assert Tracks(p, |p.rpcs|, g);
    }
  }

  /** The module ends with fail_json exactly when a check fails, and with no
      RPC at all it exits with failed set and nothing run. */
  lemma MainRefusal(o: RpcOptions, env: RpcEnv)
    ensures var run := RpcMain(o, env);
      && (run.end.Refused? <==> Checked(o).Err?)
      && (Checked(o).Ok? && o.rpcs.value == [] ==> run == RpcRun([], [], ExitedAll([], true)))
  {
    if Checked(o).Ok? && o.rpcs.value == [] {
      CheckedAccepts(o);
    }
  }

  /** The results of a run that passed the checks and did not crash. */
  function Reported(run: RpcRun): seq<RpcResult> {
    if run.end.ExitedOne? then [run.end.result]
    else if run.end.ExitedAll? then run.end.results
    else []
  }

  /** The dispatch loop of a checked run tracks the plan to its end. */
  lemma MainTracks(o: RpcOptions, env: RpcEnv)
    requires Checked(o).Ok?
    ensures WellFormed(Checked(o).value)
    ensures var g := DispatchFrom(Checked(o).value, o, env, 0, Start);
      && Tracks(Checked(o).value, |Checked(o).value.rpcs|, g)
      && (g.crash.None? ==> |g.results| == |Checked(o).value.rpcs|)
  {
    var p := Checked(o).value;
    CheckedAccepts(o);
    assert Tracks(p, 0, Start);
    DispatchTracks(p, o, env, 0, Start);
  }

  /** Unless an exception ends it, the module reports one result per RPC,
      each named after its RPC with dashes and in its format, never changed;
      it saves output for exactly the RPCs that succeeded, in order; with one
      RPC it exits with that result, and otherwise it fails only if every RPC
      failed. */
  lemma MainOutcome(o: RpcOptions, env: RpcEnv)
    ensures var run := RpcMain(o, env);
      Checked(o).Ok? && !run.end.RpcCrashed? ==>
        var p := Checked(o).value;
        var rs := Reported(run);
        && p.rpcs == o.rpcs.value
        && |rs| == |p.rpcs|
        && (forall k :: 0 <= k < |rs| ==>
              rs[k].rpc == Dashed(p.rpcs[k]) && rs[k].format == p.formats[k] && !rs[k].changed)
        && SaveKeys(run.saves) == PassedKeys(rs)
        && |run.calls| == |rs|
        && (run.end.ExitedOne? <==> |rs| == 1)
        && (run.end.ExitedAll? ==> (run.end.failed <==> forall k :: 0 <= k < |rs| ==> rs[k].failed))
  {
    if Checked(o).Ok? {
      var p := Checked(o).value;
      CheckedAccepts(o);
      MainTracks(o, env);
      var g := DispatchFrom(p, o, env, 0, Start);
      if g.crash.None? {
        assert Reported(RpcMain(o, env)) == g.results;
      }
    }
  }
}
