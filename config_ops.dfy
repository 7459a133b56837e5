/** The decisions the configuration-session operations of the common Junos
    module make before and after talking to the device: the warning filter
    for open-configuration, mode checks, get-config validation and reply
    checks, load arguments, and where save_text_output writes. */
module ConfigOps {
  import opened Text
  import opened JunosTypes
  import opened PyFormat

  // ---------------------------------------------------------------------
  // open_configuration

  /** The warning open-configuration always ignores unless a bool replaces the list. */
  const DiscardWarning := "uncommitted changes will be discarded on exit"

  /** The ignore_warning value sent with open-configuration. */
  function EffectiveWarnings(iw: Option<IgnoreWarning>): WarningFilter {
    match iw
    case None => FilterList([DiscardWarning])
    case Some(IgnoreFlag(b)) => FilterFlag(b)
    case Some(IgnoreText(s)) => FilterList([DiscardWarning, s])
    case Some(IgnoreList(l)) => FilterList([DiscardWarning] + l)
  }

  /** The patterns a caller's ignore_warning names. */
  function CallerPatterns(iw: Option<IgnoreWarning>): seq<string> {
    match iw
    case None => []
    case Some(IgnoreFlag(_)) => []
    case Some(IgnoreText(s)) => [s]
    case Some(IgnoreList(l)) => l
  }

  /** A bool is passed through as is; otherwise the default warning comes first
      and is followed by every caller pattern, in order. */
  lemma WarningsKeepDefault(iw: Option<IgnoreWarning>)
    ensures iw.Some? && iw.value.IgnoreFlag? ==> EffectiveWarnings(iw) == FilterFlag(iw.value.b)
    ensures !(iw.Some? && iw.value.IgnoreFlag?) ==>
      && EffectiveWarnings(iw).FilterList?
      && EffectiveWarnings(iw).patterns[0] == DiscardWarning
      && EffectiveWarnings(iw).patterns[1..] == CallerPatterns(iw)
  {
  }

  /** The checks open_configuration makes before touching the device. */
  function OpenChecks(mode: string, instance: Option<string>): Result<ConfigMode, Failure> {
    match ParseConfigMode(mode)
    case None => Err(InvalidConfigMode(mode))
    case Some(m) =>
      if mode != "ephemeral" && instance.Some? then Err(EphemeralInstanceWithoutEphemeralMode)
      else Ok(m)
  }

  /** A mode is accepted exactly when it is one of the five names, and an
      ephemeral instance only together with ephemeral mode. */
  lemma OpenChecksAccept(mode: string, instance: Option<string>, m: ConfigMode)
    ensures OpenChecks(mode, instance) == Ok(m) <==> mode == ModeName(m) && (instance.None? || m == Ephemeral)
    ensures OpenChecks(mode, instance).Err? && ParseConfigMode(mode).Some? ==>
      OpenChecks(mode, instance) == Err(EphemeralInstanceWithoutEphemeralMode)
  {
    ModeNames(mode, m);
  }

  /** The open-configuration target of a mode; exclusive mode locks instead. */
  function OpenTargetFor(m: ConfigMode, instance: Option<string>): Option<OpenTarget> {
    match m
    case Exclusive => None
    case Private => Some(PrivateDb)
    case Dynamic => Some(DynamicDb)
    case Batch => Some(BatchDb)
    case Ephemeral => Some(if instance.None? then EphemeralDefault else EphemeralInstance(instance.value))
  }

  /** Only exclusive mode locks; a named ephemeral instance is opened by name. */
  lemma OpenTargets(m: ConfigMode, instance: Option<string>, name: string)
    ensures OpenTargetFor(m, instance).None? <==> m == Exclusive
    ensures OpenTargetFor(m, instance) == Some(EphemeralInstance(name)) <==> m == Ephemeral && instance == Some(name)
    ensures OpenTargetFor(m, instance) == Some(EphemeralDefault) <==> m == Ephemeral && instance.None?
  {
  }

  // ---------------------------------------------------------------------
  // get_configuration

  datatype Database = Candidate | Committed
  datatype ConfigFormat = XmlFormat | SetFormat | TextFormat | JsonFormat

  function DatabaseName(d: Database): string {
    match d
    case Candidate => "candidate"
    case Committed => "committed"
  }

  function FormatName(f: ConfigFormat): string {
    match f
    case XmlFormat => "xml"
    case SetFormat => "set"
    case TextFormat => "text"
    case JsonFormat => "json"
  }

  /** Membership in CONFIG_DATABASE_CHOICES. */
  function ParseDatabase(s: string): (r: Option<Database>)
    ensures r.Some? ==> DatabaseName(r.value) == s
  {
    if s == "candidate" then Some(Candidate) else if s == "committed" then Some(Committed) else None
  }

  /** Membership in CONFIG_FORMAT_CHOICES. */
  function ParseConfigFormat(s: string): (r: Option<ConfigFormat>)
    ensures r.Some? ==> FormatName(r.value) == s
  {
    if s == "xml" then Some(XmlFormat)
    else if s == "set" then Some(SetFormat)
    else if s == "text" then Some(TextFormat)
    else if s == "json" then Some(JsonFormat)
    else None
  }

  lemma FormatNames(f: ConfigFormat, d: Database)
    ensures ParseConfigFormat(FormatName(f)) == Some(f)
    ensures ParseDatabase(DatabaseName(d)) == Some(d)
  {
  }

  const DatabaseChoicesText := "['candidate', 'committed']"
  const FormatChoicesText := "['xml', 'set', 'text', 'json']"

  const DatabaseHead := "The configuration database "
  const DatabaseTail := " is" + " not in the list" + " of recognized" + " configuration" + " databases: "
  const FormatHead := "The configuration format "
  const FormatTail := " is" + " not in the list" + " of recognized" + " configuration" + " formats: "

  /** The invalid-database and invalid-format messages as the source writes
      them: "% is" starts a space-flagged %i conversion. */
  const DatabaseTemplateAsWritten := DatabaseHead + "%" + DatabaseTail + "%s."
  const FormatTemplateAsWritten := FormatHead + "%" + FormatTail + "%s."

  /** The messages as evidently intended. */
  const DatabaseTemplate := DatabaseHead + "%s" + DatabaseTail + "%s" + "."
  const FormatTemplate := FormatHead + "%s" + FormatTail + "%s" + "."

  /** Database and format validation as written: formatting the message of
      either failure raises before fail_json can run. */
  function GetConfigValidationAsWritten(database: string, format: string): (r: Result<(Database, ConfigFormat), Exit>)
    ensures r.Err? ==> r.error.Failed? || r.error.Crashed?
  {
    if ParseDatabase(database).None? then
      match Format(DatabaseTemplateAsWritten, [FStr(database), FStr(DatabaseChoicesText)])
      case Err(c) => Err(Crashed(c))
      case Ok(_) => Err(Failed(InvalidDatabase(database)))
    else if ParseConfigFormat(format).None? then
      match Format(FormatTemplateAsWritten, [FStr(format), FStr(FormatChoicesText)])
      case Err(c) => Err(Crashed(c))
      case Ok(_) => Err(Failed(InvalidConfigFormat(format)))
    else Ok((ParseDatabase(database).value, ParseConfigFormat(format).value))
  }

  /** Database and format validation as intended: each invalid value is reported. */
  function GetConfigValidation(database: string, format: string): Result<(Database, ConfigFormat), Failure> {
    if ParseDatabase(database).None? then Err(InvalidDatabase(database))
    else if ParseConfigFormat(format).None? then Err(InvalidConfigFormat(format))
    else Ok((ParseDatabase(database).value, ParseConfigFormat(format).value))
  }

  /** A template whose first conversion is "% i" (the 's' of " is" read as a
      conversion after a space flag) raises TypeError when given a string. */
  lemma {:induction false} SpaceIntTemplateRaises(head: string, tail: string, v: string, choices: string)
    requires '%' !in head && |tail| >= 2 && tail[0] == ' ' && tail[1] == 'i'
    ensures Format(head + "%" + tail + "%s.", [FStr(v), FStr(choices)]).Err?
    ensures Format(head + "%" + tail + "%s.", [FStr(v), FStr(choices)]).error.TypeError?
  {
    var args := [FStr(v), FStr(choices)];
    assert head + "%" + tail + "%s." == head + ("%" + (tail + "%s."));
    FormatLiteral(head, "%" + (tail + "%s."), args);
    assert args == [FStr(v)] + [FStr(choices)];
    FormatSpaceIntOnStr(tail + "%s.", v, [FStr(choices)]);
  }

  /** As written, any unrecognised database or format ends in a TypeError, not
      the intended failure message; "running" is one such database. */
  lemma ValidationAsWrittenCrashes(database: string, format: string)
    requires ParseDatabase(database).None? || ParseConfigFormat(format).None?
    ensures GetConfigValidationAsWritten(database, format).Err?
    ensures GetConfigValidationAsWritten(database, format).error.Crashed?
    ensures GetConfigValidationAsWritten(database, format).error.crash.TypeError?
    ensures GetConfigValidation(database, format).Err?
  {
    if ParseDatabase(database).None? {
      SpaceIntTemplateRaises(DatabaseHead, DatabaseTail, database, DatabaseChoicesText);
    } else {
      SpaceIntTemplateRaises(FormatHead, FormatTail, format, FormatChoicesText);
    }
  }

  lemma RunningDatabaseCrashes()
    ensures GetConfigValidationAsWritten("running", "text").Err?
    ensures GetConfigValidationAsWritten("running", "text").error.Crashed?
    ensures GetConfigValidation("running", "text") == Err(InvalidDatabase("running"))
  {
    ValidationAsWrittenCrashes("running", "text");
  }

  /** The intended database message names the rejected database and the choices. */
  lemma DatabaseMessage(database: string)
    ensures Format(DatabaseTemplate, [FStr(database), FStr(DatabaseChoicesText)])
      == Ok(DatabaseHead + database + DatabaseTail + DatabaseChoicesText + ".")
  {
    FormatTwoStrings(DatabaseHead, DatabaseTail, ".", database, DatabaseChoicesText);
  }

  /** Accepted values are exactly the listed database and format names. */
  lemma ValidationAccepts(database: string, format: string, d: Database, f: ConfigFormat)
    ensures GetConfigValidation(database, format) == Ok((d, f)) <==> database == DatabaseName(d) && format == FormatName(f)
    ensures GetConfigValidation(database, format).Ok? ==> GetConfigValidationAsWritten(database, format) == Ok(GetConfigValidation(database, format).value)
  {
    FormatNames(f, d);
  }

  /** The get-config request: the caller's options with database and format set. */
  function GetConfigRequestFor(options: Assoc<string>, d: Database, f: ConfigFormat, filter: Option<string>,
                               model: Option<string>, namespace: Option<string>, removeNs: bool): GetConfigRequest {
    GetConfigRequest(Store(Store(options, "database", DatabaseName(d)), "format", FormatName(f)), filter, model, namespace, removeNs)
  }

  /** The request carries the chosen database and format and every other option unchanged. */
  lemma RequestOptions(options: Assoc<string>, d: Database, f: ConfigFormat, filter: Option<string>,
                       model: Option<string>, namespace: Option<string>, removeNs: bool, other: string)
    ensures var o := GetConfigRequestFor(options, d, f, filter, model, namespace, removeNs).options;
      && Lookup(o, "database") == Some(DatabaseName(d))
      && Lookup(o, "format") == Some(FormatName(f))
      && (other != "database" && other != "format" ==> Lookup(o, other) == Lookup(options, other))
  {
    var o1 := Store(options, "database", DatabaseName(d));
    StoreLookup(options, "database", DatabaseName(d), other);
    StoreLookup(o1, "format", FormatName(f), other);
    StoreLookup(o1, "format", FormatName(f), "database");
  }

  /** What get-config returned: an XML element, or any other value (JSON data). */
  datatype ConfigReply =
    | ConfigElement(tag: string, text: Option<string>, xml: string, parsed: string)
    | ConfigData(display: string, dumped: string)

  /** The second part of get_configuration's result. */
  datatype ParsedConfig = NotParsed | ParsedLines(lines: seq<string>) | ParsedXml(jxml: string) | ParsedData(display: string)

  datatype ConfigOutcome =
    | Fetched(text: Option<string>, parsed: ParsedConfig)
    | FetchRefused(failure: Failure)
    | FetchCrashed(crash: Crash)

  /** The root tag a reply in that format must carry when no model is given. */
  function ExpectedTag(f: ConfigFormat): string {
    match f
    case TextFormat => "configuration-text"
    case SetFormat => "configuration-set"
    case XmlFormat => "configuration"
    case JsonFormat => ""
  }

  /** The checks on the reply and the value returned for each format. */
  function ConfigChecked(f: ConfigFormat, model: Option<string>, reply: ConfigReply): ConfigOutcome {
    if f == JsonFormat then
      match reply
      case ConfigElement(_, _, _, _) => FetchCrashed(TypeError("Object of type _Element is not JSON serializable"))
      case ConfigData(display, dumped) => Fetched(Some(dumped), ParsedData(display))
    else if !reply.ConfigElement? then FetchRefused(UnexpectedConfigType(reply.display))
    else if model.None? && reply.tag != ExpectedTag(f) then FetchRefused(UnexpectedConfigTag(reply.xml))
    else match f
      case TextFormat => Fetched(reply.text, NotParsed)
      case SetFormat =>
        if reply.text.None? then FetchCrashed(AttributeError("'NoneType' object has no attribute 'splitlines'"))
        else Fetched(reply.text, ParsedLines(SplitLines(reply.text.value)))
      case XmlFormat => Fetched(Some(reply.xml), ParsedXml(reply.parsed))
  }

  /** A returned configuration in text, set or xml format came from an XML
      element with the expected root tag (unless a model was asked for), and
      only set format is parsed into lines, which are those of the text. */
  lemma ConfigCheckedReturns(f: ConfigFormat, model: Option<string>, reply: ConfigReply)
    ensures var o := ConfigChecked(f, model, reply);
      o.Fetched? && f != JsonFormat ==>
        && reply.ConfigElement?
        && (model.None? ==> reply.tag == ExpectedTag(f))
        && (f == SetFormat <==> o.parsed.ParsedLines?)
        && (f == SetFormat ==> o.text.Some? && o.parsed.lines == SplitLines(o.text.value))
    ensures ConfigChecked(f, model, reply).Fetched? <==>
      if f == JsonFormat then reply.ConfigData?
      else reply.ConfigElement? && (model.None? ==> reply.tag == ExpectedTag(f)) && (f == SetFormat ==> reply.text.Some?)
  {
  }

  /** Set-format text written one line per statement parses back into those statements. */
  lemma {:induction false} SetLinesRoundTrip(statements: seq<string>, model: Option<string>)
    requires forall k :: 0 <= k < |statements| ==> NoLineBreak(statements[k])
    ensures ConfigChecked(SetFormat, model, ConfigElement("configuration-set", Some(Terminated(statements)), "", ""))
      == Fetched(Some(Terminated(statements)), ParsedLines(statements))
  {
    var text := Terminated(statements);
    SplitLinesTerminated(statements);
    assert ConfigChecked(SetFormat, model, ConfigElement("configuration-set", Some(text), "", ""))
      == Fetched(Some(text), ParsedLines(SplitLines(text)));
  }

  // ---------------------------------------------------------------------
  // load_configuration

  /** The load_args built from the load action and sources. */
  function LoadArgsFor(action: string, format: Option<string>, iw: Option<IgnoreWarning>, src: Option<string>,
                       template: Option<string>, vars: Option<TemplateVars>, url: Option<string>,
                       abspath: string -> string): LoadArgs {
    LoadArgs(
      ignoreWarning := iw,
      format := if action == "set" then Some("set") else format,
      merge := action == "merge",
      overwrite := action == "override" || action == "overwrite",
      update := action == "update",
      patch := action == "patch",
      path := if src.Some? then Some(abspath(src.value)) else None,
      template := if template.Some? then Some((template.value, vars)) else None,
      url := url)
  }

  /** At most one of merge/overwrite/update/patch is set, and none for replace
      or set; a set action always loads in set format. */
  lemma LoadArgsFlags(action: string, format: Option<string>, iw: Option<IgnoreWarning>, src: Option<string>,
                      template: Option<string>, vars: Option<TemplateVars>, url: Option<string>, abspath: string -> string)
    ensures var a := LoadArgsFor(action, format, iw, src, template, vars, url, abspath);
      && (a.merge ==> !a.overwrite && !a.update && !a.patch)
      && (a.overwrite ==> !a.update && !a.patch)
      && (a.update ==> !a.patch)
      && (action == "replace" || action == "set" ==> !a.merge && !a.overwrite && !a.update && !a.patch)
      && (action == "set" ==> a.format == Some("set"))
      && (action != "set" ==> a.format == format)
      && (a.path.Some? <==> src.Some?)
  {
  }

  /** The configuration text loaded from `lines`: trailing newlines stripped, joined by "\n". */
  function LoadText(lines: Option<seq<string>>): Option<string> {
    if lines.None? then None else Some(Join("\n", StrippedLines(lines.value)))
  }

  function StrippedLines(lines: seq<string>): (r: seq<string>)
    ensures |r| == |lines| && forall k :: 0 <= k < |lines| ==> r[k] == RStripChar(lines[k], '\n')
  {
    if lines == [] then [] else [RStripChar(lines[0], '\n')] + StrippedLines(lines[1..])
  }

  /** Splitting the loaded text on "\n" gives back the lines without their
      trailing newlines, when no line has a newline elsewhere. */
  lemma LoadTextSplits(lines: seq<string>)
    requires |lines| >= 1
    requires forall k :: 0 <= k < |lines| ==> '\n' !in RStripChar(lines[k], '\n')
    ensures Split(LoadText(Some(lines)).value, '\n') == StrippedLines(lines)
  {
    SplitJoin(StrippedLines(lines), '\n');
  }

  // ---------------------------------------------------------------------
  // save_text_output

  /** "%s" % inventory_hostname */
  function HostText(h: Option<string>): string {
    if h.None? then "None" else h.value
  }

  /** os.path.join(a, b) for two components. */
  function PathJoin(a: string, b: string): string {
    if |b| > 0 && b[0] == '/' then b
    else if a == [] || a[|a| - 1] == '/' then a + b
    else a + "/" + b
  }

  /** The name with spaces and pipes replaced by underscores. */
  function Sanitized(name: string): string {
    ReplaceChar(ReplaceChar(name, ' ', '_'), '|', '_')
  }

  /** The part of the file name after the host: empty for "config". */
  function NameSuffix(name: string): string {
    var n := Sanitized(name);
    if n == "config" then "" else "_" + n
  }

  /** <host><suffix>.<format> */
  function OutputFileName(host: Option<string>, name: string, format: string): string {
    HostText(host) + NameSuffix(name) + "." + format
  }

  /** The suffix is empty exactly for the name "config", and otherwise is an
      underscore and the name with no space or pipe left. */
  lemma NameSuffixShape(name: string)
    ensures NameSuffix(name) == "" <==> name == "config"
    ensures name != "config" ==> NameSuffix(name) == "_" + Sanitized(name)
    ensures ' ' !in Sanitized(name) && '|' !in Sanitized(name) && |Sanitized(name)| == |name|
    ensures forall i :: 0 <= i < |name| && name[i] != ' ' && name[i] != '|' ==> Sanitized(name)[i] == name[i]
  {
    var n := Sanitized(name);
    if n == "config" {
      forall i | 0 <= i < |name|
        ensures name[i] == "config"[i]
      {
        assert n[i] == "config"[i];
        assert n[i] != '_';
      }
    }
  }

  /** Where and how save_text_output writes. */
  datatype OutputPlan = NoOutput | WriteTo(path: string, append: bool)

  function OutputPlanFor(name: string, format: string, diffsFile: Option<string>, dest: Option<string>,
                         destDir: Option<string>, host: Option<string>, destfileSet: bool,
                         normpath: string -> string): OutputPlan {
    if name == "diff" then
      if diffsFile.Some? then WriteTo(normpath(diffsFile.value), false)
      else if destDir.Some? then WriteTo(normpath(PathJoin(destDir.value, HostText(host) + ".diff")), false)
      else NoOutput
    else if dest.Some? then WriteTo(normpath(dest.value), destfileSet)
    else if destDir.Some? then WriteTo(normpath(PathJoin(destDir.value, OutputFileName(host, name, format))), false)
    else NoOutput
  }

  /** Only output saved to `dest` is ever appended, and only after a first
      save; diffs never go to `dest`; nothing is written without a destination. */
  lemma OutputPlanRules(name: string, format: string, diffsFile: Option<string>, dest: Option<string>,
                        destDir: Option<string>, host: Option<string>, destfileSet: bool, normpath: string -> string)
    ensures var plan := OutputPlanFor(name, format, diffsFile, dest, destDir, host, destfileSet, normpath);
      && (plan.WriteTo? && plan.append <==> name != "diff" && dest.Some? && destfileSet)
      && (plan.NoOutput? <==> (name == "diff" && diffsFile.None? && destDir.None?) || (name != "diff" && dest.None? && destDir.None?))
      && (name != "diff" && dest.Some? ==> plan == WriteTo(normpath(dest.value), destfileSet))
      && (name == "diff" && diffsFile.None? && destDir.Some? ==>
            plan == WriteTo(normpath(PathJoin(destDir.value, HostText(host) + ".diff")), false))
  {
  }

  /** self.destfile after a save: the first save of other output than a diff
      to `dest` remembers it. */
  function DestfileAfter(name: string, dest: Option<string>, destfile: Option<string>): Option<string> {
    if name != "diff" && dest.Some? && destfile.None? then dest else destfile
  }

  /** Saving twice to `dest`: the first save overwrites the file, the second
      appends to the same file. */
  lemma SecondSaveAppends(name1: string, name2: string, format1: string, format2: string, diffsFile: Option<string>,
                          dest: string, destDir: Option<string>, host: Option<string>, normpath: string -> string)
    requires name1 != "diff" && name2 != "diff"
    ensures var after := DestfileAfter(name1, Some(dest), None);
      && OutputPlanFor(name1, format1, diffsFile, Some(dest), destDir, host, false, normpath) == WriteTo(normpath(dest), false)
      && after == Some(dest)
      && OutputPlanFor(name2, format2, diffsFile, Some(dest), destDir, host, after.Some?, normpath) == WriteTo(normpath(dest), true)
      && DestfileAfter(name2, Some(dest), after) == after
  {
  }
}
