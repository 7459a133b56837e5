/** What the session's effect functions promise: fail_json always ends the
    process after tearing everything down, the operations refuse to run on an
    unopened configuration, and the configuration stays open exactly as long
    as the source keeps it. */
module SessionLaws {
  import opened Text
  import opened JunosTypes
  import opened ConfigOps
  import opened PingCheck
  import opened Transfer
  import opened SessionEffects

  /** close_configuration forgets a local configuration and keeps the
      device; when it ends the process through fail_json, the message is the
      close failure and the device is closed. */
  lemma {:induction false} CloseConfigEnds(s: Snapshot, td: Teardown)
    ensures var e := CloseConfigEffect(s, td);
      && (s.conn == Local ==> e.config.None?)
      && (s.conn == Delegated ==> e.config == s.config)
      && (e.exit.None? ==> e.devOpen == s.devOpen)
      && (e.exit.Some? && e.exit.value.Failed? ==>
            !e.devOpen && e.exit.value.reason == CloseConfigFailed(RaisedError(td.configClose)))
    decreases if s.config.Some? then 1 else 0, 0
  {
    if s.conn == Local && s.config.Some? && td.configClose.Raised? && Handled(td.configClose.error) {
      FailEffectEnds(s.(config := None), td, CloseConfigFailed(td.configClose.error));
    }
  }

  /** The device close in exit_json and fail_json returned, or raised an
      error that close() or they catch. */
  predicate CaughtOnClose(r: LibResult) {
    r.Raised? ==> Handled(r.error) || TimedOut(r)
  }

  /** fail_json never returns: it ends the process, with the failure it was
      given unless closing the configuration failed first (and always when
      both closes were returned or caught); a local
      configuration is forgotten, and a device that was open is closed. */
  lemma {:induction false} FailEffectEnds(s: Snapshot, td: Teardown, f: Failure)
    ensures var e := FailEffect(s, td, f);
      && e.exit.Some?
      && (s.conn == Local ==> e.config.None?)
      && (s.conn == Delegated ==> e.config == s.config)
      && (e.exit.value.Failed? ==>
            && !e.devOpen
            && e.exit.value.reason == (if CloseConfigEffect(s, td).exit.Some? then CloseConfigFailed(RaisedError(td.configClose)) else f))
      && (CloseConfigEffect(s, td).exit.None? && CaughtOnClose(td.deviceClose) ==> e.exit == Some(Failed(f)))
    decreases if s.config.Some? then 1 else 0, 1
  {
    CloseConfigEnds(s, td);
  }

  /** After the steps st the process goes on exactly when they returned:
      fail_json and exit_json always end it. */
  lemma ResolveGoesOn(s: Snapshot, st: Step, td: Teardown)
    ensures Resolve(s, st, td).exit.None? <==> st.end.Goes?
  {
    if st.end.Fails? {
      FailEffectEnds(Moved(s, st), td, st.end.failure);
    }
  }

  /** Steps that return are followed by the next ones from the state they
      reached. */
  lemma ResolveThen(s: Snapshot, a: Step, b: Step, td: Teardown)
    requires a.end.Goes?
    ensures Resolve(s, Then(a, b), td) == After(a.calls, Resolve(Moved(s, a), b, td))
  {
    var e := Resolve(Moved(s, a), b, td);
    match b.end {
      case Fails(f) =>
        assert Moved(s, Then(a, b)) == Moved(Moved(s, a), b);
        var x := FailEffect(Moved(s, b), td, f);
        assert (a.calls + b.calls) + x.calls == a.calls + (b.calls + x.calls);
      case Exits(failed) =>
        var x := ExitEffect(Moved(s, b), failed, td.deviceClose);
        assert (a.calls + b.calls) + x.calls == a.calls + (b.calls + x.calls);
      case _ =>
    }
  }

  /** No DeviceClose before the last call. */
  predicate DeviceClosedLast(cs: seq<Call>) {
    forall i :: 0 <= i < |cs| - 1 ==> cs[i] != DeviceClose
  }

  /** close_configuration never closes the device, except as the last call of
      the fail_json it starts when the close fails. */
  lemma {:induction false} CloseConfigDeviceLast(s: Snapshot, td: Teardown)
    ensures DeviceClosedLast(CloseConfigEffect(s, td).calls)
    ensures CloseConfigEffect(s, td).exit.None? ==> DeviceClose !in CloseConfigEffect(s, td).calls
    decreases if s.config.Some? then 1 else 0, 0
  {
    if s.conn == Local && s.config.Some? && (s.config.value == Exclusive || s.devOpen)
       && td.configClose.Raised? && Handled(td.configClose.error) {
      var c := if s.config.value == Exclusive then UnlockConfig else CloseConfigurationRpc;
      var e := FailEffect(s.(config := None), td, CloseConfigFailed(td.configClose.error));
      FailEffectDeviceLast(s.(config := None), td, CloseConfigFailed(td.configClose.error));
      assert CloseConfigEffect(s, td).calls == [c] + e.calls;
      forall i | 0 <= i < |e.calls| ensures ([c] + e.calls)[i + 1] == e.calls[i] { }
    }
  }

  /** fail_json closes the configuration before the device: a DeviceClose
      call, if any, is the last call its teardown makes. */
  lemma {:induction false} FailEffectDeviceLast(s: Snapshot, td: Teardown, f: Failure)
    ensures DeviceClosedLast(FailEffect(s, td, f).calls)
    decreases if s.config.Some? then 1 else 0, 1
  {
    CloseConfigDeviceLast(s, td);
    var c := CloseConfigEffect(s, td);
    if c.exit.None? {
      var d := CloseEffect(s.(devOpen := c.devOpen, config := c.config), td.deviceClose, false).0;
      assert d.calls == [] || d.calls == [DeviceClose];
      assert FailEffect(s, td, f).calls == c.calls + d.calls;
    }
  }

  /** fail_json on an open exclusive configuration: unlock, then close the
      device, then report the failure. */
  lemma FailJsonUnlocksFirst(s: Snapshot, td: Teardown, f: Failure)
    requires s.conn == Local && s.devOpen && s.config == Some(Exclusive)
    requires td.configClose.Done? && td.deviceClose.Done?
    ensures FailEffect(s, td, f) == Effect([UnlockConfig, DeviceClose], Some(Failed(f)), false, None)
  {
  }

  /** close and close_configuration forget the reference before tearing
      down, so a second call does nothing, whatever the first one met. */
  lemma CloseTwice(s: Snapshot, r: LibResult, r2: LibResult, raiseExceptions: bool)
    ensures var e := CloseEffect(s, r, raiseExceptions).0;
      && !e.devOpen && e.config == s.config
      && CloseEffect(s.(devOpen := e.devOpen), r2, raiseExceptions) == (Effect([], None, false, s.config), None)
  {
  }

  lemma CloseConfigTwice(s: Snapshot, td: Teardown, td2: Teardown)
    requires s.conn == Local
    ensures var e := CloseConfigEffect(s, td);
      CloseConfigEffect(s.(devOpen := e.devOpen, config := e.config), td2) == Effect([], None, e.devOpen, None)
  {
    CloseConfigEnds(s, td);
  }

  /** close passes a ConnectError or RpcError back only when asked to, and
      lets every other error end the process. */
  lemma CloseErrors(s: Snapshot, e: LibError, raiseExceptions: bool)
    requires s.devOpen
    ensures var (eff, raised) := CloseEffect(s, Raised(e), raiseExceptions);
      && eff.calls == [DeviceClose]
      && (raised.Some? <==> Handled(e) && raiseExceptions)
      && (raised.Some? ==> raised.value == e)
      && (eff.exit.Some? <==> !Handled(e))
  {
  }

  /** close_configuration unlocks an exclusive configuration and closes any
      other by RPC. */
  lemma CloseConfigCall(s: Snapshot, td: Teardown)
    requires s.conn == Local && s.config.Some? && (s.config.value == Exclusive || s.devOpen)
    ensures var cs := CloseConfigEffect(s, td).calls;
      |cs| > 0 && cs[0] == (if s.config.value == Exclusive then UnlockConfig else CloseConfigurationRpc)
  {
  }

  /** exit_json closes at most the device: the configuration is left as it
      is, and the results are reported unless the close raised an error that
      exit_json does not ignore. */
  lemma ExitKeepsConfiguration(s: Snapshot, failed: bool, r: LibResult)
    ensures var e := ExitEffect(s, failed, r);
      && e.config == s.config && e.exit.Some?
      && |e.calls| <= 1 && (forall i :: 0 <= i < |e.calls| ==> e.calls[i] == DeviceClose)
      && (e.exit.value.Completed? ==> e.exit.value.failed == failed)
      && (CaughtOnClose(r) ==> e.exit == Some(Completed(failed)))
      && (e.exit.value.Crashed? ==> !CaughtOnClose(r))
      && (s.conn == Local ==> !e.devOpen)
  {
  }

  /** On a local connection without an open device and configuration, every
      configuration operation hands `NotOpen` ("The device or configuration
      is not open.") to fail_json before making any call; commit first reads
      the missing device's timeout. */
  lemma OperationsRequireOpen(s: Snapshot, id: RollbackId, r: LibResult, iw: IgnoreWarning,
                              diffReply: Result<Option<string>, LibError>, action: string, lines: Option<seq<string>>,
                              src: Option<string>, template: Option<string>, vars: Option<TemplateVars>,
                              url: Option<string>, format: Option<string>, abspath: string -> string,
                              devTimeout: int, comment: Option<string>, confirmed: Option<int>, timeout: int,
                              full: bool, sync: bool, forceSync: bool)
    requires s.conn == Local && Unopened(s)
    ensures RollbackStep(s, id, r) == FailAt(s, [], NotOpen)
    ensures CheckStep(s, r) == FailAt(s, [], NotOpen)
    ensures DiffStep(s, iw, diffReply) == (FailAt(s, [], NotOpen), None)
    ensures LoadStep(s, action, lines, src, template, vars, url, Some(iw), format, abspath, r) == FailAt(s, [], NotOpen)
    ensures CommitStep(s, devTimeout, Some(iw), comment, confirmed, timeout, full, sync, forceSync, r)
      == if s.devOpen then FailAt(s, [], NotOpen) else CrashAt(s, [], AttributeError(NoTimeout))
  {
  }

  /** A local rollback makes a call exactly for "rescue" or a number from 0 to 49. */
  lemma RollbackRange(s: Snapshot, id: RollbackId, r: LibResult)
    requires s.conn == Local && !Unopened(s)
    ensures RollbackStep(s, id, r).calls != [] <==> id.RescueId? || 0 <= id.n <= 49
    ensures id.NumberedId? && !(0 <= id.n <= 49) ==> RollbackStep(s, id, r) == FailAt(s, [], UnrecognizedRollback(id.n))
  {
  }

  /** A local commit uses the device's timeout whenever it is not zero. */
  lemma CommitUsesDeviceTimeout(s: Snapshot, devTimeout: int, iw: Option<IgnoreWarning>, comment: Option<string>,
                                confirmed: Option<int>, timeout: int, full: bool, sync: bool, forceSync: bool, r: LibResult)
    requires s.conn == Local && !Unopened(s)
    ensures var st := CommitStep(s, devTimeout, iw, comment, confirmed, timeout, full, sync, forceSync, r);
      && |st.calls| == 1 && st.calls[0].CommitConfig?
      && st.calls[0].commit.timeout == (if devTimeout != 0 then devTimeout else timeout)
  {
  }

  /** open_configuration: nothing happens when a configuration is open; a
      bad mode or instance is refused before any call; otherwise the
      configuration is remembered exactly when the lock or open RPC returned,
      and the device is opened first if needed. */
  lemma OpenConfigurationLaws(s: Snapshot, mode: string, iw: Option<IgnoreWarning>, instance: Option<string>,
                              opening: LibResult, rpc: LibResult)
    requires s.conn == Local
    ensures var st := OpenConfigurationStep(s, mode, iw, instance, opening, rpc);
      && (s.config.Some? ==> st == Stay(s))
      && (s.config.None? && OpenChecks(mode, instance).Err? ==> st == FailAt(s, [], OpenChecks(mode, instance).error))
      && (s.config.None? && OpenChecks(mode, instance).Ok? ==>
            && (st.config.Some? <==> st.end.Goes?)
            && (st.end.Goes? ==>
                  && st.config == Some(OpenChecks(mode, instance).value) && st.devOpen
                  && st.calls == (if s.devOpen then [] else [DeviceOpen]) + [OpenRequest(OpenChecks(mode, instance).value, iw, instance)]))
  {
  }

  /** Opening twice is opening once: after a successful open_configuration
      the next one changes nothing. */
  lemma OpenConfigurationIdempotent(s: Snapshot, mode: string, iw: Option<IgnoreWarning>, instance: Option<string>,
                                    opening: LibResult, rpc: LibResult,
                                    mode2: string, iw2: Option<IgnoreWarning>, instance2: Option<string>,
                                    opening2: LibResult, rpc2: LibResult)
    requires s.conn == Local
    requires OpenConfigurationStep(s, mode, iw, instance, opening, rpc).end.Goes?
    ensures var s1 := Moved(s, OpenConfigurationStep(s, mode, iw, instance, opening, rpc));
      OpenConfigurationStep(s1, mode2, iw2, instance2, opening2, rpc2) == Stay(s1)
  {
    OpenConfigurationLaws(s, mode, iw, instance, opening, rpc);
  }

  /** As written, get_configuration crashes with a TypeError on a bad
      database or format, before any call and without teardown; it returns a
      configuration only when get-config returned one that passed the checks
      for the requested format. */
  lemma GetConfigurationLaws(s: Snapshot, database: string, format: string, options: Assoc<string>,
                             filter: Option<string>, model: Option<string>, namespace: Option<string>,
                             removeNs: bool, opening: LibResult, reply: Result<ConfigReply, LibError>)
    ensures var r := GetConfigurationStep(s, database, format, options, filter, model, namespace, removeNs, opening, reply);
      && (GetConfigValidation(database, format).Err? ==>
            && r.1.None? && r.0.calls == [] && r.0.devOpen == s.devOpen && r.0.config == s.config
            && r.0.end.Crashes? && r.0.end.crash.TypeError?)
      && (r.1.Some? ==>
            && r.0.end.Goes?
            && GetConfigValidation(database, format).Ok? && reply.Ok?
            && ConfigChecked(GetConfigValidation(database, format).value.1, model, reply.value) == Fetched(r.1.value.0, r.1.value.1))
  {
    var v := GetConfigValidation(database, format);
    if v.Err? {
      ValidationAsWrittenCrashes(database, format);
    } else {
      ValidationAccepts(database, format, v.value.0, v.value.1);
    }
  }

  /** ping's early exits always report failure. */
  lemma PingExitFails(s: Snapshot, acceptable: int, reply: Result<PingReply, LibError>, lossOf: string -> Option<int>)
    ensures var r := PingStep(s, acceptable, reply, lossOf);
      && (r.0.end.Exits? ==> r.0.end.failed && r.1.Some? && r.1.value.failed)
      && (r.1.Some? ==> reply.Ok? && (PingVerdict(reply.value, acceptable, lossOf).PingExited? || PingVerdict(reply.value, acceptable, lossOf).PingReturned?))
  {
    if reply.Ok? {
      PingExitsFail(reply.value, acceptable, lossOf);
    }
  }

  /** The session's verified transfer ends as the decision function says:
      returned with its status, failed with the mismatch status, or crashed
      with the same exception. */
  lemma CopyStepAgrees(s: Snapshot, t: Transport, d: Direction, localPath: string, remotePath: string,
                       localBefore: LocalFile, remoteBefore: RemoteReply, copy: LibResult,
                       localAfter: LocalFile, remoteAfter: RemoteReply, digest: Bytes -> string)
    ensures var r := CopyStep(s, t, d, localPath, remotePath, localBefore, remoteBefore, copy, localAfter, remoteAfter, digest);
      var o := VerifiedCopy(d, localBefore, Reply(s, remoteBefore), copy, localAfter, Reply(s, remoteAfter), digest);
      && (o.Copied? <==> r.0.end.Goes?)
      && (o.Copied? ==> r.1 == Some((o.status, o.changed)))
      && (o.CopyMismatch? <==> r.0.end.Fails?)
      && (o.CopyMismatch? ==> r.0.end.failure == TransferMismatch(o.status))
      && (o.CopyCrashed? <==> r.0.end.Crashes?)
      && (o.CopyCrashed? ==> r.0.end.crash == o.crash)
  {
    var src := SourceChecksum(d, localBefore, Reply(s, remoteBefore), digest);
    var tgt := TargetChecksum(d, localBefore, Reply(s, remoteBefore), digest);
    if src.Ok? && tgt.Ok? && NeedsCopy(tgt.value, src.value) {
      var after := TargetChecksum(d, localAfter, Reply(s, remoteAfter), digest);
      TransferStepAgrees(s, t, d, localPath, remotePath, src.value, copy, after);
    }
  }

  /** The transfer step ends as the copy-and-compare decision says. */
  lemma TransferStepAgrees(s: Snapshot, t: Transport, d: Direction, localPath: string, remotePath: string,
                           source: string, copy: LibResult, after: Result<string, Crash>)
    ensures var r := TransferStep(s, t, d, localPath, remotePath, source, copy, after);
      var o := CheckedTransfer(d, source, copy, after);
      && (o.Copied? <==> r.0.end.Goes?)
      && (o.Copied? ==> r.1 == Some((o.status, o.changed)))
      && (o.CopyMismatch? <==> r.0.end.Fails?)
      && (o.CopyMismatch? ==> r.0.end.failure == TransferMismatch(o.status))
      && (o.CopyCrashed? <==> r.0.end.Crashes?)
      && (o.CopyCrashed? ==> r.0.end.crash == o.crash)
  {
  }

  /** The transfer itself is made exactly when both checksums were read and
      the copy is needed. */
  lemma CopyStepTransfers(s: Snapshot, t: Transport, d: Direction, localPath: string, remotePath: string,
                          localBefore: LocalFile, remoteBefore: RemoteReply, copy: LibResult,
                          localAfter: LocalFile, remoteAfter: RemoteReply, digest: Bytes -> string)
    ensures var r := CopyStep(s, t, d, localPath, remotePath, localBefore, remoteBefore, copy, localAfter, remoteAfter, digest);
      var src := SourceChecksum(d, localBefore, Reply(s, remoteBefore), digest);
      var tgt := TargetChecksum(d, localBefore, Reply(s, remoteBefore), digest);
      TransferCall(s, t, d, localPath, remotePath) in r.0.calls <==> src.Ok? && tgt.Ok? && NeedsCopy(tgt.value, src.value)
  {
    var before := BeforeCalls(s, d, remotePath, localBefore, digest);
    var x := TransferCall(s, t, d, localPath, remotePath);
    assert x !in before by {
      assert forall i :: 0 <= i < |Query(s, remotePath)| ==> Query(s, remotePath)[i] == QueryCall(s, remotePath);
    }
  }

  /** Concatenation of call traces is associative: a proof aid for the
      session methods' traces, not a property of the modules. */
  lemma AppendAssoc<T>(a: seq<T>, b: seq<T>, c: seq<T>)
    ensures (a + b) + c == a + (b + c)
  {
  }
}
