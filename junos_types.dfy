/** Values shared by the Junos module model: Python values as the modules
    receive them, the device library's outcomes, the library calls the module
    issues, and the reasons a task fails or crashes. */
module JunosTypes {
  import opened Text

  datatype Result<+T, +E> = Ok(value: T) | Err(error: E)

  /** A Python value of the kinds the modules receive from Ansible or YAML. */
  datatype PyVal =
    | PyNone
    | PyBool(b: bool)
    | PyInt(i: int)
    | PyStr(s: string)
    | PyList(items: seq<PyVal>)
    | PyDict(entries: seq<(PyVal, PyVal)>)

  /** A connection parameter that is either an int or a str (port, baud, attempts). */
  datatype ParamVal = IntVal(i: int) | StrVal(s: string)

  /** Exceptions raised by the device library. ConnectError and RpcError are
      the ones the module's handlers catch; ncclient's TimeoutExpiredError is
      caught only around the device close in exit_json and fail_json; anything
      else propagates. */
  datatype LibError =
    | ConnectError(detail: string)
    | RpcError(detail: string)
    | TimeoutExpired(detail: string)
    | OtherError(detail: string)

  predicate Handled(e: LibError) { e.ConnectError? || e.RpcError? }

  /** The close in exit_json and fail_json raised TimeoutExpiredError, which
      they ignore. */
  predicate TimedOut(r: LibResult) { r.Raised? && r.error.TimeoutExpired? }

  /** What a library call did: returned, or raised. */
  datatype LibResult = Done | Raised(error: LibError)

  /** "local" drives the device library directly; anything else forwards to a
      persistent connection broker. */
  datatype ConnType = Local | Delegated

  /** The five candidate-configuration modes. */
  datatype ConfigMode = Exclusive | Private | Dynamic | Batch | Ephemeral

  function ModeName(m: ConfigMode): string {
    match m
    case Exclusive => "exclusive"
    case Private => "private"
    case Dynamic => "dynamic"
    case Batch => "batch"
    case Ephemeral => "ephemeral"
  }

  /** Membership in CONFIG_MODE_CHOICES. */
  function ParseConfigMode(s: string): Option<ConfigMode> {
    if s == "exclusive" then Some(Exclusive)
    else if s == "private" then Some(Private)
    else if s == "dynamic" then Some(Dynamic)
    else if s == "batch" then Some(Batch)
    else if s == "ephemeral" then Some(Ephemeral)
    else None
  }

  /** The mode names and the accepted strings are the same five. */
  lemma ModeNames(s: string, m: ConfigMode)
    ensures ParseConfigMode(ModeName(m)) == Some(m)
    ensures ParseConfigMode(s) == Some(m) <==> s == ModeName(m)
  {
  }

  /** The ignore_warning option after parsing: a bool, one string, or a list of strings. */
  datatype IgnoreWarning = IgnoreFlag(b: bool) | IgnoreText(s: string) | IgnoreList(items: seq<string>)

  /** The ignore_warning value handed to the library: a bool or a list of patterns. */
  datatype WarningFilter = FilterFlag(b: bool) | FilterList(patterns: seq<string>)

  /** A rollback target: the rescue configuration or a numbered rollback. */
  datatype RollbackId = RescueId | NumberedId(n: int)

  datatype Transport = Scp | Ftp
  datatype Direction = Put | Get

  /** Template variables of a load; their contents are opaque here. */
  type TemplateVars = map<string, string>

  /** The keyword arguments of Config.load(). A flag field is true exactly
      when the source puts that key into load_args. */
  datatype LoadArgs = LoadArgs(
    ignoreWarning: Option<IgnoreWarning>,
    format: Option<string>,
    merge: bool,
    overwrite: bool,
    update: bool,
    patch: bool,
    path: Option<string>,
    template: Option<(string, Option<TemplateVars>)>,
    url: Option<string>)

  /** The keyword arguments of Config.commit(). */
  datatype CommitArgs = CommitArgs(
    ignoreWarning: Option<IgnoreWarning>,
    comment: Option<string>,
    confirmed: Option<int>,
    timeout: int,
    full: bool,
    sync: bool,
    forceSync: bool)

  /** Where open-configuration points: the four non-exclusive databases. */
  datatype OpenTarget = PrivateDb | DynamicDb | BatchDb | EphemeralDefault | EphemeralInstance(name: string)

  /** An ordered association list, as a Python dict keeps insertion order. */
  type Assoc<V> = seq<(string, V)>

  function Lookup<V>(kvs: Assoc<V>, k: string): Option<V> {
    if kvs == [] then None
    else if kvs[0].0 == k then Some(kvs[0].1)
    else Lookup(kvs[1..], k)
  }

  /** d[k] = v: replaces the value in place when k is present, appends otherwise. */
  function Store<V>(kvs: Assoc<V>, k: string, v: V): (r: Assoc<V>)
    ensures |r| == |kvs| || |r| == |kvs| + 1
  {
    if kvs == [] then [(k, v)]
    else if kvs[0].0 == k then [(k, v)] + kvs[1..]
    else [kvs[0]] + Store(kvs[1..], k, v)
  }

  /** After d[k] = v, k maps to v and every other key keeps its value. */
  lemma {:induction false} StoreLookup<V>(kvs: Assoc<V>, k: string, v: V, other: string)
    ensures Lookup(Store(kvs, k, v), k) == Some(v)
    ensures other != k ==> Lookup(Store(kvs, k, v), other) == Lookup(kvs, other)
  {
    if kvs != [] && kvs[0].0 != k {
      StoreLookup(kvs[1..], k, v, other);
    }
  }

  /** The options of a get-config request. */
  datatype GetConfigRequest = GetConfigRequest(
    options: Assoc<string>,
    filter: Option<string>,
    model: Option<string>,
    namespace: Option<string>,
    removeNs: bool)

  /** A call the module makes into the device library, in the order it is made. */
  datatype Call =
    | DeviceOpen
    | DeviceClose
    | LockConfig
    | UnlockConfig
    | OpenConfigurationRpc(target: OpenTarget, ignoreWarning: WarningFilter)
    | CloseConfigurationRpc
    | GetConfigRpc(request: GetConfigRequest)
    | RescueReload
    | RollbackTo(id: int)
    | CommitCheck
    | DiffAgainst(rbId: int, diffIgnoreWarning: IgnoreWarning)
    | LoadConfig(text: Option<string>, args: LoadArgs)
    | CommitConfig(commit: CommitArgs)
    | PingRpc
    | ChecksumQuery(path: string)
    | FileTransfer(transport: Transport, direction: Direction, source: string, destination: string)
    | Forwarded(op: string)

  /** The reason fail_json reports. */
  datatype Failure =
    | MissingHost
    | MissingUser
    | PortNotInteger(port: string)
    | BaudNotAllowed(baud: ParamVal)
    | AttemptsNotAllowed(attempts: ParamVal)
    | ConsoleValueError(console: string)
    | ConsoleFormatError(console: string)
    | IgnoreWarningUnexpectedType(value: PyVal)
    | IgnoreWarningBadElement(element: PyVal)
    | IgnoreWarningEmpty
    | RollbackInvalid(rollback: PyVal)
    | ListOfDictsInvalid(option: string, text: string)
    | ConnectFailed(error: LibError)
    | InvalidConfigMode(modeName: string)
    | EphemeralInstanceWithoutEphemeralMode
    | OpenConfigFailed(mode: ConfigMode, error: LibError)
    | CloseConfigFailed(error: LibError)
    | NotOpen
    | InvalidDatabase(database: string)
    | InvalidConfigFormat(format: string)
    | GetConfigFailed(error: LibError)
    | UnexpectedConfigType(display: string)
    | UnexpectedConfigTag(xml: string)
    | RescueFailed(error: LibError)
    | RollbackFailed(id: int, error: LibError)
    | UnrecognizedRollback(id: int)
    | CheckFailed(error: LibError)
    | DiffFailed(error: LibError)
    | LoadFailed(error: LibError)
    | CommitFailed(error: LibError)
    | PingFailed(error: LibError)
    | UnexpectedPingResponse(display: string)
    | SaveFailed(path: string)
    | TransferMismatch(status: string)

  /** A Python exception that no handler catches: the Ansible task ends with a traceback
      and no cleanup. */
  datatype Crash =
    | Uncaught(error: LibError)
    | AttributeError(what: string)
    | TypeError(what: string)
    | ValueError(what: string)
    | OSError(what: string)
    | NameError(what: string)

  /** How the module's process ended. */
  datatype Exit = Completed(failed: bool) | Failed(reason: Failure) | Crashed(crash: Crash)
}
