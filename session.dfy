/** The common Junos module object: its connection state, configured
    parameters and the operations that change them. Each method takes the
    source's steps in order and is proved to leave the state its effect
    function in SessionEffects describes. */
module Session {
  import opened Text
  import opened JunosTypes
  import opened ModuleParams
  import opened ConfigOps
  import opened PingCheck
  import opened Transfer
  import opened SessionEffects
  import opened SessionLaws

  /** A PyEZ Device as the module sees it: the default RPC timeout is the
      only attribute it reads or writes. */
  class Device {
    var timeout: int

    constructor ()
      ensures timeout == 30
    {
      timeout := 30;
    }
  }

  /** A file written by save_text_output. */
  datatype FileWrite = FileWrite(path: string, append: bool, text: string)

  /** The connection type named by the `_connection` parameter. */
  function ConnTypeOf(connection: Option<string>): ConnType {
    if connection == Some("local") then Local else Delegated
  }

  class JunosModule {
    var params: Params
    var connType: ConnType
    /** Whether the broker's connection object (`_pyez_conn`) exists. */
    var broker: bool
    var inventoryHostname: Option<string>
    var dev: Device?
    var config: Option<ConfigMode>
    var destfile: Option<string>
    /** Every call made into the device library, in order. */
    var calls: seq<Call>
    /** How the process ended; None while it runs. */
    var exit: Option<Exit>

    function Snap(): Snapshot
      reads this
    {
      Snapshot(connType, broker, dev != null, config)
    }

    /** The state reached by the effect e from a state whose calls were `before`. */
    predicate Shows(e: Effect, before: seq<Call>)
      reads this
    {
      calls == before + e.calls && exit == e.exit && (dev != null) == e.devOpen && config == e.config
    }

    /** The state reached by the steps st taken from s. */
    predicate Reached(s: Snapshot, st: Step, td: Teardown, before: seq<Call>)
      reads this
    {
      Shows(Resolve(s, st, td), before)
    }

    /** The state reached by steps that hand over to neither fail_json nor exit_json. */
    predicate Took(st: Step, before: seq<Call>)
      reads this
    {
      && calls == before + st.calls && (dev != null) == st.devOpen && config == st.config
      && exit == (if st.end.Crashes? then Some(Crashed(st.end.crash)) else None)
    }

    /** The state no operation but save_text_output changes. */
    function Settings(): (Params, ConnType, bool, Option<string>, Option<string>)
      reads this
    {
      (params, connType, broker, inventoryHostname, destfile)
    }

    /** The device is the one there was, none, or a new one opened with the
        configured timeout. */
    twostate predicate DeviceKept()
      reads this, dev
    {
      dev == null || dev == old(dev) || (fresh(dev) && (exit.None? ==> dev.timeout == params.timeout))
    }

    /** __init__: defaults, then initialize_params, then the connection: a
        local device is opened, a delegated one looks up the broker. */
    constructor (p: Params, host: Option<string>, parse: ConsoleParse, opening: LibResult, brokerFound: bool, td: Teardown)
      ensures connType == ConnTypeOf(p.connection) && inventoryHostname == host && destfile.None?
      ensures Initialized(p, parse).Err? ==>
        && calls == [] && dev == null && config.None?
        && exit == Some(if connType == Local then Failed(Initialized(p, parse).error) else Crashed(NoBroker))
      ensures Initialized(p, parse).Ok? ==> params == Initialized(p, parse).value
      ensures Initialized(p, parse).Ok? && connType == Local ==>
        && Reached(Snapshot(Local, false, false, None), OpenStep(Snapshot(Local, false, false, None), opening), td, [])
        && (dev != null && exit.None? ==> dev.timeout == params.timeout)
      ensures Initialized(p, parse).Ok? && connType == Delegated ==>
        broker == brokerFound && calls == [] && exit.None? && dev == null && config.None?
    {
      params := p;
      connType := Local;
      broker := false;
      inventoryHostname := host;
      dev := null;
      config := None;
      destfile := None;
      calls := [];
      exit := None;
      new;
      connType := ConnTypeOf(p.connection);
      match Initialized(p, parse) {
        case Err(f) =>
          FailJson(f, td);
        case Ok(q) =>
          params := q;
          if connType == Local {
            Open(opening, td);
          } else {
            broker := brokerFound;
          }
      }
    }

    /** open() */
    method Open(opening: LibResult, td: Teardown)
      requires exit.None?
      modifies this
      ensures Reached(old(Snap()), OpenStep(old(Snap()), opening), td, old(calls))
      ensures Settings() == old(Settings())
      ensures dev != null ==> fresh(dev) && (exit.None? ==> dev.timeout == params.timeout)
    {
      var d := new Device();
      dev := d;
      calls := calls + [DeviceOpen];
      match opening {
        case Done =>
          d.timeout := params.timeout;
        case Raised(e) =>
          if e.ConnectError? {
            FailJson(ConnectFailed(e), td);
          } else {
            exit := Some(Crashed(Uncaught(e)));
          }
      }
    }

    /** open() when it is wanted and no device is open yet. */
    method OpenWanted(wanted: bool, opening: LibResult, td: Teardown)
      requires exit.None?
      modifies this
      ensures Reached(old(Snap()), OpenIfClosed(old(Snap()), wanted, opening), td, old(calls))
      ensures Settings() == old(Settings())
      ensures DeviceKept()
    {
      if wanted && dev == null {
        Open(opening, td);
      }
    }

    /** close(raise_exceptions) */
    method Close(ghost s: Snapshot, raiseExceptions: bool, r: LibResult) returns (raised: Option<LibError>)
      requires exit.None? && s == Snap()
      modifies this
      ensures Shows(CloseEffect(s, r, raiseExceptions).0, old(calls))
      ensures raised == CloseEffect(s, r, raiseExceptions).1
      ensures Settings() == old(Settings()) && dev == null
    {
      raised := None;
      if dev != null {
        dev := null;
        calls := calls + [DeviceClose];
        match r {
          case Done =>
          case Raised(e) =>
            if !Handled(e) {
              exit := Some(Crashed(Uncaught(e)));
            } else if raiseExceptions {
              raised := Some(e);
            }
        }
      }
    }

    /** close_configuration() */
    method CloseConfiguration(td: Teardown)
      requires exit.None?
      modifies this
      decreases if config.Some? then 2 else 0
      ensures Shows(CloseConfigEffect(old(Snap()), td), old(calls))
      ensures Settings() == old(Settings())
      ensures dev == null || dev == old(dev)
    {
      if connType != Local {
        if broker {
          calls := calls + [Forwarded("close_configuration")];
        } else {
          exit := Some(Crashed(NoBroker));
        }
        return;
      }
      if config.Some? {
        var mode := config.value;
        config := None;
        if mode != Exclusive && dev == null {
          exit := Some(Crashed(AttributeError(NoDevice)));
          return;
        }
        calls := calls + [if mode == Exclusive then UnlockConfig else CloseConfigurationRpc];
        match td.configClose {
          case Done =>
          case Raised(e) =>
            if Handled(e) {
              FailJson(CloseConfigFailed(e), td);
            } else {
              exit := Some(Crashed(Uncaught(e)));
            }
        }
      }
    }

    /** fail_json(msg) */
    method FailJson(f: Failure, td: Teardown)
      requires exit.None?
      modifies this
      decreases if config.Some? then 3 else 1
      ensures Shows(FailEffect(old(Snap()), td, f), old(calls))
      ensures Settings() == old(Settings())
      ensures dev == null || dev == old(dev)
    {
      ghost var s0, c0 := Snap(), calls;
      CloseConfiguration(td);
      if exit.Some? {
        return;
      }
      ghost var c := CloseConfigEffect(s0, td);
      ghost var s1 := s0.(devOpen := c.devOpen, config := c.config);
      var _ := Close(s1, false, td.deviceClose);
      AppendAssoc(c0, c.calls, CloseEffect(s1, td.deviceClose, false).0.calls);
      if exit.Some? && !TimedOut(td.deviceClose) {
        return;
      }
      exit := Some(Failed(f));
    }

    /** exit_json(failed) */
    method ExitJson(failed: bool, r: LibResult)
      requires exit.None?
      modifies this
      ensures Shows(ExitEffect(old(Snap()), failed, r), old(calls))
      ensures Settings() == old(Settings())
      ensures dev == null || dev == old(dev)
    {
      if connType == Local {
        var _ := Close(Snap(), false, r);
      }
      if exit.None? || TimedOut(r) {
        exit := Some(Completed(failed));
      }
    }

    /** A call forwarded to the broker. */
    method ForwardCall(op: string)
      requires exit.None?
      modifies this
      ensures Took(ForwardStep(old(Snap()), op), old(calls))
      ensures Settings() == old(Settings()) && dev == old(dev)
    {
      if broker {
        calls := calls + [Forwarded(op)];
      } else {
        exit := Some(Crashed(NoBroker));
      }
    }

    /** A library call whose ConnectError and RpcError go to fail_json. */
    method Guard(c: Call, r: LibResult, td: Teardown, failure: Failure)
      requires exit.None?
      modifies this
      ensures Reached(old(Snap()), GuardStep(old(Snap()), c, r, failure), td, old(calls))
      ensures Settings() == old(Settings())
      ensures dev == null || dev == old(dev)
    {
      calls := calls + [c];
      match r {
        case Done =>
        case Raised(e) =>
          if Handled(e) {
            FailJson(failure, td);
          } else {
            exit := Some(Crashed(Uncaught(e)));
          }
      }
    }

    /** open_configuration(mode, ignore_warning, ephemeral_instance) */
    method OpenConfiguration(mode: string, iw: Option<IgnoreWarning>, instance: Option<string>,
                             opening: LibResult, rpc: LibResult, td: Teardown)
      requires exit.None?
      modifies this
      ensures Reached(old(Snap()), OpenConfigurationStep(old(Snap()), mode, iw, instance, opening, rpc), td, old(calls))
      ensures Settings() == old(Settings())
      ensures DeviceKept()
    {
      if connType != Local {
        ForwardCall("open_configuration");
        return;
      }
      if config.Some? {
        return;
      }
      match OpenChecks(mode, instance) {
        case Err(f) =>
          FailJson(f, td);
        case Ok(m) =>
          OpenInMode(m, iw, instance, opening, rpc, td);
      }
    }

    method OpenInMode(m: ConfigMode, iw: Option<IgnoreWarning>, instance: Option<string>,
                      opening: LibResult, rpc: LibResult, td: Teardown)
      requires exit.None?
      modifies this
      ensures Reached(old(Snap()), OpenModeStep(old(Snap()), m, iw, instance, opening, rpc), td, old(calls))
      ensures Settings() == old(Settings())
      ensures DeviceKept()
    {
      ghost var s0, c0 := Snap(), calls;
      ghost var o := OpenIfClosed(s0, true, opening);
      OpenWanted(true, opening, td);
      ResolveGoesOn(s0, o, td);
      if exit.Some? {
        return;
      }
      OpenRequested(Moved(s0, o), m, iw, instance, rpc, td);
      ghost var g := LockStep(Moved(s0, o), m, iw, instance, rpc);
      ResolveThen(s0, o, g, td);
      AppendAssoc(c0, o.calls, Resolve(Moved(s0, o), g, td).calls);
    }

    /** The lock or open-configuration RPC of open_configuration; the mode is
        remembered once it returns. */
    method OpenRequested(ghost s: Snapshot, m: ConfigMode, iw: Option<IgnoreWarning>, instance: Option<string>,
                         rpc: LibResult, td: Teardown)
      requires exit.None? && s == Snap()
      modifies this
      ensures Reached(s, LockStep(s, m, iw, instance, rpc), td, old(calls))
      ensures Settings() == old(Settings())
      ensures dev == null || dev == old(dev)
    {
      ghost var g := GuardStep(s, OpenRequest(m, iw, instance), rpc, OpenConfigFailed(m, RaisedError(rpc)));
      Guard(OpenRequest(m, iw, instance), rpc, td, OpenConfigFailed(m, RaisedError(rpc)));
      ResolveGoesOn(s, g, td);
      if exit.None? {
        config := Some(m);
      }
    }

    /** rollback_configuration(id) */
    method RollbackConfiguration(id: RollbackId, r: LibResult, td: Teardown)
      requires exit.None?
      modifies this
      ensures Reached(old(Snap()), RollbackStep(old(Snap()), id, r), td, old(calls))
      ensures Settings() == old(Settings())
      ensures dev == null || dev == old(dev)
    {
      if connType != Local {
        ForwardCall("rollback_configuration");
        return;
      }
      if dev == null || config.None? {
        FailJson(NotOpen, td);
        return;
      }
      match id {
        case RescueId =>
          Guard(RescueReload, r, td, RescueFailed(RaisedError(r)));
        case NumberedId(n) =>
          if 0 <= n <= 49 {
            Guard(RollbackTo(n), r, td, RollbackFailed(n, RaisedError(r)));
          } else {
            FailJson(UnrecognizedRollback(n), td);
          }
      }
    }

    /** check_configuration() */
    method CheckConfiguration(r: LibResult, td: Teardown)
      requires exit.None?
      modifies this
      ensures Reached(old(Snap()), CheckStep(old(Snap()), r), td, old(calls))
      ensures Settings() == old(Settings())
      ensures dev == null || dev == old(dev)
    {
      if connType != Local {
        ForwardCall("check_configuration");
        return;
      }
      if dev == null || config.None? {
        FailJson(NotOpen, td);
        return;
      }
      Guard(CommitCheck, r, td, CheckFailed(RaisedError(r)));
    }

    /** diff_configuration(ignore_warning) */
    method DiffConfiguration(iw: IgnoreWarning, reply: Result<Option<string>, LibError>, td: Teardown)
      returns (diff: Option<string>)
      requires exit.None?
      modifies this
      ensures Reached(old(Snap()), DiffStep(old(Snap()), iw, reply).0, td, old(calls))
      ensures diff == DiffStep(old(Snap()), iw, reply).1
      ensures Settings() == old(Settings())
      ensures dev == null || dev == old(dev)
    {
      diff := None;
      if connType != Local {
        ForwardCall("diff_configuration");
        if exit.Some? {
          return;
        }
        match reply {
          case Ok(d) => diff := d;
          case Err(e) => exit := Some(Crashed(Uncaught(e)));
        }
        return;
      }
      if dev == null || config.None? {
        FailJson(NotOpen, td);
        return;
      }
      match reply {
        case Ok(d) =>
          calls := calls + [DiffAgainst(0, iw)];
          diff := d;
        case Err(e) =>
          Guard(DiffAgainst(0, iw), Raised(e), td, DiffFailed(e));
      }
    }

    /** load_configuration(action, lines, src, template, vars, url, ignore_warning, format) */
    method LoadConfiguration(action: string, lines: Option<seq<string>>, src: Option<string>,
                             template: Option<string>, vars: Option<TemplateVars>, url: Option<string>,
                             iw: Option<IgnoreWarning>, format: Option<string>, abspath: string -> string,
                             r: LibResult, td: Teardown)
      requires exit.None?
      modifies this
      ensures Reached(old(Snap()), LoadStep(old(Snap()), action, lines, src, template, vars, url, iw, format, abspath, r), td, old(calls))
      ensures Settings() == old(Settings())
      ensures dev == null || dev == old(dev)
    {
      if connType == Local && (dev == null || config.None?) {
        FailJson(NotOpen, td);
        return;
      }
      var args := LoadArgsFor(action, format, iw, src, template, vars, url, abspath);
      var text := LoadText(lines);
      if connType != Local {
        ForwardCall("load_configuration");
        return;
      }
      Guard(LoadConfig(text, args), r, td, LoadFailed(RaisedError(r)));
    }

    /** commit_configuration(ignore_warning, comment, confirmed, timeout, full, sync, force_sync) */
    method CommitConfiguration(iw: Option<IgnoreWarning>, comment: Option<string>, confirmed: Option<int>,
                               timeout: int, full: bool, sync: bool, forceSync: bool, r: LibResult, td: Teardown)
      requires exit.None?
      modifies this
      ensures Reached(old(Snap()), CommitStep(old(Snap()), if old(dev) != null then old(dev.timeout) else 0,
                                 iw, comment, confirmed, timeout, full, sync, forceSync, r), td, old(calls))
      ensures Settings() == old(Settings())
      ensures dev == null || dev == old(dev)
    {
      var t := timeout;
      if connType == Local {
        if dev == null {
          exit := Some(Crashed(AttributeError(NoTimeout)));
          return;
        }
        t := CommitTimeout(dev.timeout, timeout);
      }
      if connType != Local {
        ForwardCall("commit_configuration");
        return;
      }
      if dev == null || config.None? {
        FailJson(NotOpen, td);
        return;
      }
      Guard(CommitConfig(CommitArgs(iw, comment, confirmed, t, full, sync, forceSync)), r, td, CommitFailed(RaisedError(r)));
    }

    /** get_configuration(database, format, options, filter, model, namespace, remove_ns) */
    method GetConfiguration(database: string, format: string, options: Assoc<string>, filter: Option<string>,
                            model: Option<string>, namespace: Option<string>, removeNs: bool,
                            opening: LibResult, reply: Result<ConfigReply, LibError>, td: Teardown)
      returns (result: Option<(Option<string>, ParsedConfig)>)
      requires exit.None?
      modifies this
      ensures Reached(old(Snap()), GetConfigurationStep(old(Snap()), database, format, options, filter, model, namespace,
                                                       removeNs, opening, reply).0, td, old(calls))
      ensures result == GetConfigurationStep(old(Snap()), database, format, options, filter, model, namespace,
                                             removeNs, opening, reply).1
      ensures Settings() == old(Settings())
      ensures DeviceKept()
    {
      result := None;
      match GetConfigValidationAsWritten(database, format) {
        case Err(e) =>
          if e.Crashed? {
            exit := Some(e);
          } else {
            FailJson(e.reason, td);
          }
        case Ok(v) =>
          var request := GetConfigRequestFor(options, v.0, v.1, filter, model, namespace, removeNs);
          result := GetValidated(request, v.1, model, opening, reply, td);
      }
    }

    method GetValidated(request: GetConfigRequest, f: ConfigFormat, model: Option<string>,
                        opening: LibResult, reply: Result<ConfigReply, LibError>, td: Teardown)
      returns (result: Option<(Option<string>, ParsedConfig)>)
      requires exit.None?
      modifies this
      ensures Reached(old(Snap()), ValidGetStep(old(Snap()), request, f, model, opening, reply).0, td, old(calls))
      ensures result == ValidGetStep(old(Snap()), request, f, model, opening, reply).1
      ensures Settings() == old(Settings())
      ensures DeviceKept()
    {
      result := None;
      ghost var s0, c0 := Snap(), calls;
      ghost var o := OpenIfClosed(s0, s0.conn == Local, opening);
      OpenWanted(connType == Local, opening, td);
      ResolveGoesOn(s0, o, td);
      if exit.Some? {
        return;
      }
      ghost var r := FetchStep(Moved(s0, o), request, f, model, reply);
      result := Fetch(Moved(s0, o), request, f, model, reply, td);
      ResolveThen(s0, o, r.0, td);
      AppendAssoc(c0, o.calls, Resolve(Moved(s0, o), r.0, td).calls);
    }

    method Fetch(ghost s: Snapshot, request: GetConfigRequest, f: ConfigFormat, model: Option<string>,
                 reply: Result<ConfigReply, LibError>, td: Teardown)
      returns (result: Option<(Option<string>, ParsedConfig)>)
      requires exit.None? && s == Snap()
      modifies this
      ensures Reached(s, FetchStep(s, request, f, model, reply).0, td, old(calls))
      ensures result == FetchStep(s, request, f, model, reply).1
      ensures Settings() == old(Settings())
      ensures dev == null || dev == old(dev)
    {
      result := None;
      ghost var c0 := calls;
      ghost var q := if s.conn == Local then Calling(s, [GetConfigRpc(request)]) else ForwardStep(s, "get_config");
      if connType == Local {
        calls := calls + [GetConfigRpc(request)];
      } else {
        ForwardCall("get_config");
        if exit.Some? {
          return;
        }
      }
      ghost var r := ConfigReplyStep(Moved(s, q), f, model, reply);
      result := ConfigReply(Moved(s, q), f, model, reply, td);
      ResolveThen(s, q, r.0, td);
      AppendAssoc(c0, q.calls, Resolve(Moved(s, q), r.0, td).calls);
    }

    /** The reply to get-config: a library error, or the configuration checked. */
    method ConfigReply(ghost s: Snapshot, f: ConfigFormat, model: Option<string>,
                       reply: Result<ConfigReply, LibError>, td: Teardown)
      returns (result: Option<(Option<string>, ParsedConfig)>)
      requires exit.None? && s == Snap()
      modifies this
      ensures Reached(s, ConfigReplyStep(s, f, model, reply).0, td, old(calls))
      ensures result == ConfigReplyStep(s, f, model, reply).1
      ensures Settings() == old(Settings())
      ensures dev == null || dev == old(dev)
    {
      result := None;
      match reply {
        case Err(e) =>
          if Handled(e) {
            FailJson(GetConfigFailed(e), td);
          } else {
            exit := Some(Crashed(Uncaught(e)));
          }
        case Ok(rep) =>
          match ConfigChecked(f, model, rep) {
            case Fetched(t, p) => result := Some((t, p));
            case FetchRefused(fl) => FailJson(fl, td);
            case FetchCrashed(c) => exit := Some(Crashed(c));
          }
      }
    }

    /** ping(params, acceptable_percent_loss) */
    method Ping(acceptable: int, reply: Result<PingReply, LibError>, lossOf: string -> Option<int>, td: Teardown)
      returns (results: Option<PingResults>)
      requires exit.None?
      modifies this
      ensures Reached(old(Snap()), PingStep(old(Snap()), acceptable, reply, lossOf).0, td, old(calls))
      ensures results == PingStep(old(Snap()), acceptable, reply, lossOf).1
      ensures Settings() == old(Settings())
      ensures dev == null || dev == old(dev)
    {
      results := None;
      ghost var s0, c0 := Snap(), calls;
      ghost var c := if s0.conn == Delegated then ForwardStep(s0, "ping_device")
                     else if s0.devOpen then Calling(s0, [PingRpc])
                     else CrashAt(s0, [], AttributeError(NoDevice));
      if connType != Local {
        ForwardCall("ping_device");
        if exit.Some? {
          return;
        }
      } else if dev == null {
        exit := Some(Crashed(AttributeError(NoDevice)));
        return;
      } else {
        calls := calls + [PingRpc];
      }
      ghost var r := PingReplyStep(Moved(s0, c), acceptable, reply, lossOf);
      results := PingReplied(Moved(s0, c), acceptable, reply, lossOf, td);
      ResolveThen(s0, c, r.0, td);
      AppendAssoc(c0, c.calls, Resolve(Moved(s0, c), r.0, td).calls);
    }

    /** The reply to the ping RPC: a library error, or the verdict on it. */
    method PingReplied(ghost s: Snapshot, acceptable: int, reply: Result<PingReply, LibError>,
                       lossOf: string -> Option<int>, td: Teardown)
      returns (results: Option<PingResults>)
      requires exit.None? && s == Snap()
      modifies this
      ensures Reached(s, PingReplyStep(s, acceptable, reply, lossOf).0, td, old(calls))
      ensures results == PingReplyStep(s, acceptable, reply, lossOf).1
      ensures Settings() == old(Settings())
      ensures dev == null || dev == old(dev)
    {
      results := None;
      match reply {
        case Err(e) =>
          if Handled(e) {
            FailJson(PingFailed(e), td);
          } else {
            exit := Some(Crashed(Uncaught(e)));
          }
        case Ok(rep) =>
          match PingVerdict(rep, acceptable, lossOf) {
            case PingRefused(f) =>
              FailJson(f, td);
            case PingExited(res) =>
              results := Some(res);
              ExitJson(true, td.deviceClose);
            case PingReturned(res) =>
              results := Some(res);
          }
      }
    }

    /** save_text_output(name, format, text): the destination is chosen from
        the parameters, the first save to `dest` is remembered so later ones
        append, and the write's success is given. */
    method SaveTextOutput(name: string, format: string, text: string, writeOk: bool,
                          normpath: string -> string, td: Teardown)
      returns (written: Option<FileWrite>)
      requires exit.None?
      modifies this
      ensures var plan := OutputPlanFor(name, format, params.diffsFile, params.dest, params.destDir,
                                        inventoryHostname, old(destfile).Some?, normpath);
        && Reached(old(Snap()), SaveStep(old(Snap()), plan, writeOk), td, old(calls))
        && written == (if plan.WriteTo? && writeOk then Some(FileWrite(plan.path, plan.append, text)) else None)
      ensures destfile == DestfileAfter(name, params.dest, old(destfile))
      ensures params == old(params) && connType == old(connType) && broker == old(broker)
      ensures inventoryHostname == old(inventoryHostname)
      ensures dev == null || dev == old(dev)
    {
      var plan := OutputPlanFor(name, format, params.diffsFile, params.dest, params.destDir,
                                inventoryHostname, destfile.Some?, normpath);
      destfile := DestfileAfter(name, params.dest, destfile);
      written := None;
      if plan.WriteTo? {
        if writeOk {
          written := Some(FileWrite(plan.path, plan.append, text));
        } else {
          FailJson(SaveFailed(plan.path), td);
        }
      }
    }

    /** The checksum of a file on the device, read by remote_md5. */
    method RemoteMd5(remotePath: string, reply: RemoteReply, action: Direction) returns (r: Result<string, Crash>)
      requires exit.None?
      modifies this
      ensures r == RemoteChecksum(Reply(old(Snap()), reply), action)
      ensures calls == old(calls) + Query(old(Snap()), remotePath)
      ensures Settings() == old(Settings()) && Snap() == old(Snap()) && dev == old(dev) && exit == old(exit)
    {
      var s := Snap();
      if Reachable(s) {
        calls := calls + [QueryCall(s, remotePath)];
      }
      r := RemoteChecksum(Reply(s, reply), action);
    }

    /** Both checksums before a transfer, source first. */
    method ChecksumsBefore(d: Direction, remotePath: string, localBefore: LocalFile, remoteBefore: RemoteReply,
                           digest: Bytes -> string) returns (src: Result<string, Crash>, tgt: Result<string, Crash>)
      requires exit.None?
      modifies this
      ensures src == SourceChecksum(d, localBefore, Reply(old(Snap()), remoteBefore), digest)
      ensures src.Ok? ==> tgt == TargetChecksum(d, localBefore, Reply(old(Snap()), remoteBefore), digest)
      ensures calls == old(calls) + BeforeCalls(old(Snap()), d, remotePath, localBefore, digest)
      ensures Settings() == old(Settings()) && Snap() == old(Snap()) && dev == old(dev) && exit == old(exit)
    {
      tgt := Err(OSError(""));
      if d == Put {
        src := LocalMd5(localBefore, Put, digest);
        if src.Ok? {
          tgt := RemoteMd5(remotePath, remoteBefore, Put);
        }
      } else {
        src := RemoteMd5(remotePath, remoteBefore, Get);
        if src.Ok? {
          tgt := LocalMd5(localBefore, Get, digest);
        }
      }
    }

    /** scp_file_copy_put / ftp_file_copy_put (d == Put) and scp_file_copy_get /
        ftp_file_copy_get (d == Get). */
    method CopyVerified(t: Transport, d: Direction, localPath: string, remotePath: string,
                        localBefore: LocalFile, remoteBefore: RemoteReply, copy: LibResult,
                        localAfter: LocalFile, remoteAfter: RemoteReply, digest: Bytes -> string, td: Teardown)
      returns (result: Option<(string, bool)>)
      requires exit.None?
      modifies this
      ensures Reached(old(Snap()), CopyStep(old(Snap()), t, d, localPath, remotePath, localBefore, remoteBefore, copy,
                                            localAfter, remoteAfter, digest).0, td, old(calls))
      ensures result == CopyStep(old(Snap()), t, d, localPath, remotePath, localBefore, remoteBefore, copy,
                                 localAfter, remoteAfter, digest).1
      ensures Settings() == old(Settings())
      ensures dev == null || dev == old(dev)
    {
      result := None;
      ghost var s0, c0 := Snap(), calls;
      var src, tgt := ChecksumsBefore(d, remotePath, localBefore, remoteBefore, digest);
      if src.Err? {
        exit := Some(Crashed(src.error));
        return;
      }
      if tgt.Err? {
        exit := Some(Crashed(tgt.error));
        return;
      }
      if !NeedsCopy(tgt.value, src.value) {
        result := Some((SkippedStatus, false));
        return;
      }
      ghost var before := Calling(s0, BeforeCalls(s0, d, remotePath, localBefore, digest));
      ghost var after := TargetChecksum(d, localAfter, Reply(s0, remoteAfter), digest);
      ghost var x := TransferStep(s0, t, d, localPath, remotePath, src.value, copy, after);
      result := TransferChecked(s0, t, d, localPath, remotePath, src.value, copy, localAfter, remoteAfter, digest, after, td);
      ResolveThen(s0, before, x.0, td);
      AppendAssoc(c0, before.calls, Resolve(s0, x.0, td).calls);
    }

    /** The transfer of a needed copy and the check of its target. */
    method TransferChecked(ghost s: Snapshot, t: Transport, d: Direction, localPath: string, remotePath: string,
                           source: string, copy: LibResult, localAfter: LocalFile, remoteAfter: RemoteReply,
                           digest: Bytes -> string, ghost afterSum: Result<string, Crash>, td: Teardown)
      returns (result: Option<(string, bool)>)
      requires exit.None? && s == Snap()
      requires afterSum == TargetChecksum(d, localAfter, Reply(s, remoteAfter), digest)
      modifies this
      ensures Reached(s, TransferStep(s, t, d, localPath, remotePath, source, copy, afterSum).0, td, old(calls))
      ensures result == TransferStep(s, t, d, localPath, remotePath, source, copy, afterSum).1
      ensures Settings() == old(Settings())
      ensures dev == null || dev == old(dev)
    {
      result := None;
      ghost var c0 := calls;
      ghost var x := [TransferCall(s, t, d, localPath, remotePath)];
      calls := calls + [TransferCall(Snap(), t, d, localPath, remotePath)];
      if copy.Raised? {
        exit := Some(Crashed(Uncaught(copy.error)));
        return;
      }
      ghost var q := x + (if d == Put then Query(s, remotePath) else []);
      var after := ChecksumAfter(s, d, remotePath, localAfter, remoteAfter, digest);
      AppendAssoc(c0, x, if d == Put then Query(s, remotePath) else []);
      if after.Err? {
        exit := Some(Crashed(after.error));
        return;
      }
      if after.value != source {
        var f := TransferMismatch(if d == Put then MismatchStatus(source, after.value)
                                  else MismatchStatus(after.value, source));
        FailJson(f, td);
        AppendAssoc(c0, q, FailEffect(s, td, f).calls);
      } else {
        result := Some((PushedStatus, true));
      }
    }

    /** The target's checksum after a transfer: the device is asked again when pushing. */
    method ChecksumAfter(ghost s: Snapshot, d: Direction, remotePath: string, localAfter: LocalFile, remoteAfter: RemoteReply,
                         digest: Bytes -> string) returns (after: Result<string, Crash>)
      requires exit.None? && s == Snap()
      modifies this
      ensures after == TargetChecksum(d, localAfter, Reply(s, remoteAfter), digest)
      ensures calls == old(calls) + (if d == Put then Query(s, remotePath) else [])
      ensures Settings() == old(Settings()) && Snap() == old(Snap()) && dev == old(dev) && exit == old(exit)
    {
      if d == Put {
        after := RemoteMd5(remotePath, remoteAfter, Put);
      } else {
        after := LocalMd5(localAfter, Get, digest);
      }
    }

    /** The *_without_checksum transfers. */
    method CopyUnverified(t: Transport, d: Direction, localPath: string, remotePath: string, outcome: PlainCopy)
      returns (result: Option<(string, bool)>)
      requires exit.None?
      modifies this
      ensures Took(PlainCopyStep(old(Snap()), t, d, localPath, remotePath, outcome).0, old(calls))
      ensures result == PlainCopyStep(old(Snap()), t, d, localPath, remotePath, outcome).1
      ensures Settings() == old(Settings()) && dev == old(dev)
    {
      result := None;
      var s := Snap();
      if connType == Delegated && !broker {
        exit := Some(Crashed(NoBroker));
        return;
      }
      if Reachable(s) {
        calls := calls + [TransferCall(s, t, d, localPath, remotePath)];
      }
      match UnverifiedCopy(t, connType, outcome) {
        case Ok(r) => result := Some(r);
        case Err(c) => exit := Some(Crashed(c));
      }
    }
  }
}
