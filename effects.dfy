/** What each operation of the common Junos module does to the module's
    state, as pure functions: the library calls it makes, in order, how the
    process ends when it ends, and whether the device and the configuration
    are open afterwards. The class in module Session takes the same steps one
    statement at a time and is proved to match these. */
module SessionEffects {
  import opened Text
  import opened JunosTypes
  import opened ConfigOps
  import opened PingCheck
  import opened Transfer

  /** The part of the module's state its control flow depends on: the
      connection type, whether the broker's connection object exists, whether
      a device is open, and the mode of the open configuration. */
  datatype Snapshot = Snapshot(conn: ConnType, broker: bool, devOpen: bool, config: Option<ConfigMode>)

  /** An operation's effect: the calls made, the process's end (None while it
      goes on), and whether device and configuration are open afterwards. */
  datatype Effect = Effect(calls: seq<Call>, exit: Option<Exit>, devOpen: bool, config: Option<ConfigMode>)

  /** What the library does when the configuration and the device are closed. */
  datatype Teardown = Teardown(configClose: LibResult, deviceClose: LibResult)

  /** How an operation's own steps end: it returns to its caller, an
      exception ends the process, or it hands over to fail_json(failure) or
      to exit_json(failed). */
  datatype End = Goes | Crashes(crash: Crash) | Fails(failure: Failure) | Exits(failed: bool)

  /** An operation's own steps: the calls it makes, how they end, and the
      device and configuration state at that point. */
  datatype Step = Step(calls: seq<Call>, end: End, devOpen: bool, config: Option<ConfigMode>)

  function Stay(s: Snapshot): Step { Step([], Goes, s.devOpen, s.config) }

  function Calling(s: Snapshot, cs: seq<Call>): Step { Step(cs, Goes, s.devOpen, s.config) }

  function CrashAt(s: Snapshot, pre: seq<Call>, c: Crash): Step { Step(pre, Crashes(c), s.devOpen, s.config) }

  function FailAt(s: Snapshot, pre: seq<Call>, f: Failure): Step { Step(pre, Fails(f), s.devOpen, s.config) }

  /** a, then b when a returned. */
  function Then(a: Step, b: Step): Step {
    if a.end.Goes? then b.(calls := a.calls + b.calls) else a
  }

  /** The state after the steps a. */
  function Moved(s: Snapshot, a: Step): Snapshot { s.(devOpen := a.devOpen, config := a.config) }

  function After(pre: seq<Call>, e: Effect): Effect { e.(calls := pre + e.calls) }

  /** The error a raising call raised (only read when it did raise). */
  function RaisedError(r: LibResult): LibError {
    if r.Raised? then r.error else OtherError("")
  }

  const NoBroker := AttributeError("'JuniperJunosModule' object has no attribute '_pyez_conn'")
  const NoDevice := "'NoneType' object has no attribute 'rpc'"
  const NoTimeout := "'NoneType' object has no attribute 'timeout'"

  /** Whether the library can be reached: an open device over a local
      connection, the broker's connection object otherwise. */
  predicate Reachable(s: Snapshot) { if s.conn == Local then s.devOpen else s.broker }

  /** A call forwarded to the connection broker; without the broker's
      connection object the attribute lookup raises. */
  function ForwardStep(s: Snapshot, op: string): Step {
    if s.broker then Calling(s, [Forwarded(op)]) else CrashAt(s, [], NoBroker)
  }

  // ---------------------------------------------------------------------
  // close_configuration, close, fail_json, exit_json, open

  /** close_configuration: forwarded when delegated; otherwise a local
      configuration is forgotten, then an exclusive one is unlocked and any
      other closed by RPC; a ConnectError or RpcError goes to fail_json. */
  function CloseConfigEffect(s: Snapshot, td: Teardown): Effect
    decreases if s.config.Some? then 1 else 0, 0
  {
    if s.conn == Delegated then
      if s.broker then Effect([Forwarded("close_configuration")], None, s.devOpen, s.config)
      else Effect([], Some(Crashed(NoBroker)), s.devOpen, s.config)
    else if s.config.None? then Effect([], None, s.devOpen, s.config)
    else
      var s1 := s.(config := None);
      if s.config.value != Exclusive && !s.devOpen then Effect([], Some(Crashed(AttributeError(NoDevice))), s1.devOpen, None)
      else
        var c := if s.config.value == Exclusive then UnlockConfig else CloseConfigurationRpc;
        match td.configClose
        case Done => Effect([c], None, s1.devOpen, None)
        case Raised(e) =>
          if Handled(e) then After([c], FailEffect(s1, td, CloseConfigFailed(e)))
          else Effect([c], Some(Crashed(Uncaught(e))), s1.devOpen, None)
  }

  /** close(): an open device is forgotten, then closed. ConnectError and
      RpcError are passed back only when raiseExceptions; other errors end
      the process. */
  function CloseEffect(s: Snapshot, r: LibResult, raiseExceptions: bool): (Effect, Option<LibError>) {
    if !s.devOpen then (Effect([], None, s.devOpen, s.config), None)
    else
      var closed := Effect([DeviceClose], None, false, s.config);
      match r
      case Done => (closed, None)
      case Raised(e) =>
        if !Handled(e) then (closed.(exit := Some(Crashed(Uncaught(e)))), None)
        else (closed, if raiseExceptions then Some(e) else None)
  }

  /** fail_json(f): close the configuration, then the device, then report f.
      When closing the configuration ends the process (by a crash, or by the
      nested fail_json it starts), that is the end; a TimeoutExpiredError from
      the device close is ignored. */
  function FailEffect(s: Snapshot, td: Teardown, f: Failure): Effect
    decreases if s.config.Some? then 1 else 0, 1
  {
    var c := CloseConfigEffect(s, td);
    if c.exit.Some? then c
    else
      var d := CloseEffect(s.(devOpen := c.devOpen, config := c.config), td.deviceClose, false).0;
      After(c.calls, if d.exit.Some? && !TimedOut(td.deviceClose) then d else d.(exit := Some(Failed(f))))
  }

  /** exit_json: a local connection closes the device, ignoring its
      ConnectError, RpcError and TimeoutExpiredError; the configuration is
      left as it is. */
  function ExitEffect(s: Snapshot, failed: bool, r: LibResult): Effect {
    if s.conn == Local then
      var d := CloseEffect(s, r, false).0;
      if d.exit.Some? && !TimedOut(r) then d else d.(exit := Some(Completed(failed)))
    else Effect([], Some(Completed(failed)), s.devOpen, s.config)
  }

  /** The effect of the steps st taken from s: fail_json and exit_json tear
      down from the state the steps reached. */
  function Resolve(s: Snapshot, st: Step, td: Teardown): Effect {
    match st.end
    case Goes => Effect(st.calls, None, st.devOpen, st.config)
    case Crashes(c) => Effect(st.calls, Some(Crashed(c)), st.devOpen, st.config)
    case Fails(f) => After(st.calls, FailEffect(Moved(s, st), td, f))
    case Exits(failed) => After(st.calls, ExitEffect(Moved(s, st), failed, td.deviceClose))
  }

  /** open(): the new device replaces any previous one before it is opened;
      only a ConnectError is reported through fail_json. */
  function OpenStep(s: Snapshot, opening: LibResult): Step {
    var up := s.(devOpen := true);
    match opening
    case Done => Calling(up, [DeviceOpen])
    case Raised(e) =>
      if e.ConnectError? then FailAt(up, [DeviceOpen], ConnectFailed(e))
      else CrashAt(up, [DeviceOpen], Uncaught(e))
  }

  /** open() when it is wanted and no device is open yet. */
  function OpenIfClosed(s: Snapshot, wanted: bool, opening: LibResult): Step {
    if wanted && !s.devOpen then OpenStep(s, opening) else Stay(s)
  }

  /** A library call c whose ConnectError and RpcError go to fail_json. */
  function GuardStep(s: Snapshot, c: Call, r: LibResult, failure: Failure): Step {
    match r
    case Done => Calling(s, [c])
    case Raised(e) => if Handled(e) then FailAt(s, [c], failure) else CrashAt(s, [c], Uncaught(e))
  }

  // ---------------------------------------------------------------------
  // The configuration operations

  /** open_configuration: forwarded when delegated; a no-op when a
      configuration is already open; otherwise the mode checks, then the
      device is opened if needed, then the lock or open-configuration RPC. */
  function OpenConfigurationStep(s: Snapshot, mode: string, iw: Option<IgnoreWarning>, instance: Option<string>,
                                 opening: LibResult, rpc: LibResult): Step {
    if s.conn == Delegated then ForwardStep(s, "open_configuration")
    else if s.config.Some? then Stay(s)
    else match OpenChecks(mode, instance)
      case Err(f) => FailAt(s, [], f)
      case Ok(m) => OpenModeStep(s, m, iw, instance, opening, rpc)
  }

  /** open_configuration once mode m is accepted: the device is opened if
      needed, then the configuration is locked or opened, and remembered. */
  function OpenModeStep(s: Snapshot, m: ConfigMode, iw: Option<IgnoreWarning>, instance: Option<string>,
                        opening: LibResult, rpc: LibResult): Step {
    var o := OpenIfClosed(s, true, opening);
    Then(o, LockStep(Moved(s, o), m, iw, instance, rpc))
  }

  /** The lock or open-configuration RPC; the mode is remembered once it returns. */
  function LockStep(s: Snapshot, m: ConfigMode, iw: Option<IgnoreWarning>, instance: Option<string>, rpc: LibResult): Step {
    var g := GuardStep(s, OpenRequest(m, iw, instance), rpc, OpenConfigFailed(m, RaisedError(rpc)));
    if g.end.Goes? then g.(config := Some(m)) else g
  }

  /** The call that opens a configuration in mode m. */
  function OpenRequest(m: ConfigMode, iw: Option<IgnoreWarning>, instance: Option<string>): Call {
    match OpenTargetFor(m, instance)
    case None => LockConfig
    case Some(t) => OpenConfigurationRpc(t, EffectiveWarnings(iw))
  }

  /** The device or the configuration is not open on a local connection. */
  predicate Unopened(s: Snapshot) { !s.devOpen || s.config.None? }

  /** rollback_configuration: "rescue" or a rollback number from 0 to 49. */
  function RollbackStep(s: Snapshot, id: RollbackId, r: LibResult): Step {
    if s.conn == Delegated then ForwardStep(s, "rollback_configuration")
    else if Unopened(s) then FailAt(s, [], NotOpen)
    else match id
      case RescueId => GuardStep(s, RescueReload, r, RescueFailed(RaisedError(r)))
      case NumberedId(n) =>
        if 0 <= n <= 49 then GuardStep(s, RollbackTo(n), r, RollbackFailed(n, RaisedError(r)))
        else FailAt(s, [], UnrecognizedRollback(n))
  }

  /** check_configuration: a commit check. */
  function CheckStep(s: Snapshot, r: LibResult): Step {
    if s.conn == Delegated then ForwardStep(s, "check_configuration")
    else if Unopened(s) then FailAt(s, [], NotOpen)
    else GuardStep(s, CommitCheck, r, CheckFailed(RaisedError(r)))
  }

  /** diff_configuration: the difference against rollback 0; the broker's
      errors are not caught. */
  function DiffStep(s: Snapshot, iw: IgnoreWarning, reply: Result<Option<string>, LibError>): (Step, Option<string>) {
    if s.conn == Delegated then
      var f := ForwardStep(s, "diff_configuration");
      if !f.end.Goes? then (f, None)
      else match reply
        case Ok(d) => (f, d)
        case Err(e) => (CrashAt(s, f.calls, Uncaught(e)), None)
    else if Unopened(s) then (FailAt(s, [], NotOpen), None)
    else match reply
      case Ok(d) => (Calling(s, [DiffAgainst(0, iw)]), d)
      case Err(e) => (GuardStep(s, DiffAgainst(0, iw), Raised(e), DiffFailed(e)), None)
  }

  /** load_configuration: the open check (local only), then load_args and the
      text, then the load. */
  function LoadStep(s: Snapshot, action: string, lines: Option<seq<string>>, src: Option<string>,
                    template: Option<string>, vars: Option<TemplateVars>, url: Option<string>,
                    iw: Option<IgnoreWarning>, format: Option<string>, abspath: string -> string,
                    r: LibResult): Step {
    if s.conn == Local && Unopened(s) then FailAt(s, [], NotOpen)
    else if s.conn == Delegated then ForwardStep(s, "load_configuration")
    else
      var args := LoadArgsFor(action, format, iw, src, template, vars, url, abspath);
      GuardStep(s, LoadConfig(LoadText(lines), args), r, LoadFailed(RaisedError(r)))
  }

  /** The timeout a local commit uses: the device's, when it is not zero. */
  function CommitTimeout(devTimeout: int, timeout: int): int {
    if devTimeout != 0 then devTimeout else timeout
  }

  /** commit_configuration: the device's timeout is read first (before any
      check that a device exists), then the open check, then the commit. */
  function CommitStep(s: Snapshot, devTimeout: int, iw: Option<IgnoreWarning>, comment: Option<string>,
                      confirmed: Option<int>, timeout: int, full: bool, sync: bool, forceSync: bool,
                      r: LibResult): Step {
    if s.conn == Local && !s.devOpen then CrashAt(s, [], AttributeError(NoTimeout))
    else if s.conn == Delegated then ForwardStep(s, "commit_configuration")
    else if s.config.None? then FailAt(s, [], NotOpen)
    else
      var args := CommitArgs(iw, comment, confirmed, CommitTimeout(devTimeout, timeout), full, sync, forceSync);
      GuardStep(s, CommitConfig(args), r, CommitFailed(RaisedError(r)))
  }

  /** get_configuration: validation as written (an unrecognised database or
      format raises while its message is built, before fail_json), then a
      local device is opened if needed, then get-config, then the checks on
      the reply. */
  function GetConfigurationStep(s: Snapshot, database: string, format: string, options: Assoc<string>,
                                filter: Option<string>, model: Option<string>, namespace: Option<string>,
                                removeNs: bool, opening: LibResult,
                                reply: Result<ConfigReply, LibError>): (Step, Option<(Option<string>, ParsedConfig)>) {
    match GetConfigValidationAsWritten(database, format)
    case Err(e) => (if e.Crashed? then CrashAt(s, [], e.crash) else FailAt(s, [], e.reason), None)
    case Ok(v) => ValidGetStep(s, GetConfigRequestFor(options, v.0, v.1, filter, model, namespace, removeNs),
                               v.1, model, opening, reply)
  }

  /** get_configuration once its arguments are accepted. */
  function ValidGetStep(s: Snapshot, request: GetConfigRequest, f: ConfigFormat, model: Option<string>,
                        opening: LibResult, reply: Result<ConfigReply, LibError>): (Step, Option<(Option<string>, ParsedConfig)>) {
    var o := OpenIfClosed(s, s.conn == Local, opening);
    var r := FetchStep(Moved(s, o), request, f, model, reply);
    (Then(o, r.0), if o.end.Goes? then r.1 else None)
  }

  /** get_configuration once the device is open: get-config (or its
      forwarding), then the checks on the reply. */
  function FetchStep(s: Snapshot, request: GetConfigRequest, f: ConfigFormat, model: Option<string>,
                     reply: Result<ConfigReply, LibError>): (Step, Option<(Option<string>, ParsedConfig)>) {
    var q := if s.conn == Local then Calling(s, [GetConfigRpc(request)]) else ForwardStep(s, "get_config");
    if !q.end.Goes? then (q, None)
    else
      var r := ConfigReplyStep(Moved(s, q), f, model, reply);
      (Then(q, r.0), r.1)
  }

  /** get_configuration's handling of the reply: library errors, then the
      checks on the configuration returned. */
  function ConfigReplyStep(s: Snapshot, f: ConfigFormat, model: Option<string>,
                           reply: Result<ConfigReply, LibError>): (Step, Option<(Option<string>, ParsedConfig)>) {
    match reply
    case Err(e) => (if Handled(e) then FailAt(s, [], GetConfigFailed(e)) else CrashAt(s, [], Uncaught(e)), None)
    case Ok(rep) =>
      match ConfigChecked(f, model, rep)
      case Fetched(t, p) => (Stay(s), Some((t, p)))
      case FetchRefused(fl) => (FailAt(s, [], fl), None)
      case FetchCrashed(c) => (CrashAt(s, [], c), None)
  }

  /** ping: the RPC (or its forwarding), then the verdict on the reply; an
      early exit ends the process through exit_json with the results so far. */
  function PingStep(s: Snapshot, acceptable: int, reply: Result<PingReply, LibError>,
                    lossOf: string -> Option<int>): (Step, Option<PingResults>) {
    var c := if s.conn == Delegated then ForwardStep(s, "ping_device")
             else if s.devOpen then Calling(s, [PingRpc])
             else CrashAt(s, [], AttributeError(NoDevice));
    if !c.end.Goes? then (c, None)
    else
      var r := PingReplyStep(Moved(s, c), acceptable, reply, lossOf);
      (Then(c, r.0), r.1)
  }

  /** ping's handling of the reply: library errors, then the verdict. */
  function PingReplyStep(s: Snapshot, acceptable: int, reply: Result<PingReply, LibError>,
                         lossOf: string -> Option<int>): (Step, Option<PingResults>) {
    match reply
    case Err(e) => (if Handled(e) then FailAt(s, [], PingFailed(e)) else CrashAt(s, [], Uncaught(e)), None)
    case Ok(rep) =>
      match PingVerdict(rep, acceptable, lossOf)
      case PingRefused(f) => (FailAt(s, [], f), None)
      case PingExited(res) => (Step([], Exits(true), s.devOpen, s.config), Some(res))
      case PingReturned(res) => (Stay(s), Some(res))
  }

  /** save_text_output after its destination is chosen: a failed write is
      reported through fail_json. */
  function SaveStep(s: Snapshot, plan: OutputPlan, writeOk: bool): Step {
    if plan.WriteTo? && !writeOk then FailAt(s, [], SaveFailed(plan.path)) else Stay(s)
  }

  // ---------------------------------------------------------------------
  // File transfers

  function QueryCall(s: Snapshot, remotePath: string): Call {
    if s.conn == Local then ChecksumQuery(remotePath) else Forwarded("get_checksum_information")
  }

  function TransferName(t: Transport, d: Direction): string {
    match (t, d)
    case (Scp, Put) => "scp_file_copy_put"
    case (Scp, Get) => "scp_file_copy_get"
    case (Ftp, Put) => "ftp_file_copy_put"
    case (Ftp, Get) => "ftp_file_copy_get"
  }

  function TransferCall(s: Snapshot, t: Transport, d: Direction, localPath: string, remotePath: string): Call {
    if s.conn == Delegated then Forwarded(TransferName(t, d))
    else if d == Put then FileTransfer(t, Put, localPath, remotePath)
    else FileTransfer(t, Get, remotePath, localPath)
  }

  /** The checksum reply as remote_md5 meets it: without a device or the
      broker's connection the attribute lookup raises inside its try. */
  function Reply(s: Snapshot, r: RemoteReply): RemoteReply {
    if Reachable(s) then r
    else if s.conn == Local then RemoteRaised(OtherError(NoDevice))
    else RemoteRaised(OtherError(NoBroker.what))
  }

  /** The checksum query, when the library can be reached. */
  function Query(s: Snapshot, remotePath: string): seq<Call> {
    if Reachable(s) then [QueryCall(s, remotePath)] else []
  }

  /** The calls made while reading both checksums before a transfer: pushing
      hashes the local file first (and stops if that raises), fetching asks
      the device first. */
  function BeforeCalls(s: Snapshot, d: Direction, remotePath: string, localBefore: LocalFile, digest: Bytes -> string): seq<Call> {
    if d == Put then (if LocalChecksum(localBefore, Put, digest).Ok? then Query(s, remotePath) else [])
    else Query(s, remotePath)
  }

  /** scp/ftp_file_copy_put and _get: both checksums, then, when the copy is
      needed, the transfer and the check of the target. */
  function CopyStep(s: Snapshot, t: Transport, d: Direction, localPath: string, remotePath: string,
                    localBefore: LocalFile, remoteBefore: RemoteReply, copy: LibResult,
                    localAfter: LocalFile, remoteAfter: RemoteReply, digest: Bytes -> string): (Step, Option<(string, bool)>) {
    var before := BeforeCalls(s, d, remotePath, localBefore, digest);
    var src := SourceChecksum(d, localBefore, Reply(s, remoteBefore), digest);
    var tgt := TargetChecksum(d, localBefore, Reply(s, remoteBefore), digest);
    if src.Err? then (CrashAt(s, before, src.error), None)
    else if tgt.Err? then (CrashAt(s, before, tgt.error), None)
    else if !NeedsCopy(tgt.value, src.value) then (Calling(s, before), Some((SkippedStatus, false)))
    else
      var x := TransferStep(s, t, d, localPath, remotePath, src.value, copy, TargetChecksum(d, localAfter, Reply(s, remoteAfter), digest));
      (Then(Calling(s, before), x.0), x.1)
  }

  /** The transfer itself and the check that the target's checksum `after`
      it (read when the transfer returned) is now the source's. */
  function TransferStep(s: Snapshot, t: Transport, d: Direction, localPath: string, remotePath: string,
                        source: string, copy: LibResult, after: Result<string, Crash>): (Step, Option<(string, bool)>) {
    var x := [TransferCall(s, t, d, localPath, remotePath)];
    if copy.Raised? then (CrashAt(s, x, Uncaught(copy.error)), None)
    else
      var q := x + (if d == Put then Query(s, remotePath) else []);
      match after
      case Err(c) => (CrashAt(s, q, c), None)
      case Ok(sum) =>
        if sum != source then
          (FailAt(s, q, TransferMismatch(if d == Put then MismatchStatus(source, sum) else MismatchStatus(sum, source))), None)
        else (Calling(s, q), Some((PushedStatus, true)))
  }

  /** The *_without_checksum transfers. */
  function PlainCopyStep(s: Snapshot, t: Transport, d: Direction, localPath: string, remotePath: string,
                         outcome: PlainCopy): (Step, Option<(string, bool)>) {
    if s.conn == Delegated && !s.broker then (CrashAt(s, [], NoBroker), None)
    else
      var calls := if Reachable(s) then [TransferCall(s, t, d, localPath, remotePath)] else [];
      match UnverifiedCopy(t, s.conn, outcome)
      case Ok(r) => (Calling(s, calls), Some(r))
      case Err(c) => (CrashAt(s, calls, c), None)
  }
}
