/** How the common Junos module reads a ping reply: errors, warnings, the
    probe-results summary, the packet loss and the verdict. */
module PingCheck {
  import opened Text
  import opened JunosTypes

  /** The fields of probe-results-summary, each absent or present as text. */
  datatype Summary = Summary(
    packetLoss: Option<string>,
    probesSent: Option<string>,
    responsesReceived: Option<string>,
    rttMinimum: Option<string>,
    rttMaximum: Option<string>,
    rttAverage: Option<string>,
    rttStddev: Option<string>)

  /** The ping RPC's reply: an XML element with its error and warning
      messages, its summary and its serialised form, or something else. */
  datatype PingReply =
    | PingElement(errors: seq<string>, warnings: seq<string>, summary: Option<Summary>, xml: string)
    | PingOther(display: string)

  datatype Required = Required(packetLoss: string, packetsSent: string, packetsReceived: string)
  datatype Rtt = Rtt(minimum: Option<string>, maximum: Option<string>, average: Option<string>, stddev: Option<string>)

  /** The keys ping puts into its results dict. */
  datatype PingResults = PingResults(
    failed: bool,
    msg: string,
    warnings: Option<seq<string>>,
    required: Option<Required>,
    rtt: Option<Rtt>)

  /** A failure (fail_json), an early exit_json with the results so far, or the results returned. */
  datatype PingOutcome = PingRefused(failure: Failure) | PingExited(results: PingResults) | PingReturned(results: PingResults)

  /** The names and values of the required fields, in the order they are checked. */
  function RequiredFields(s: Summary): seq<(string, Option<string>)> {
    [("packet_loss", s.packetLoss), ("packets_sent", s.probesSent), ("packets_received", s.responsesReceived)]
  }

  function OptionalFields(s: Summary): seq<(string, Option<string>)> {
    [("rtt_minimum", s.rttMinimum), ("rtt_maximum", s.rttMaximum), ("rtt_average", s.rttAverage), ("rtt_stddev", s.rttStddev)]
  }

  /** The name of the first field without a value. */
  function FirstMissing(fields: seq<(string, Option<string>)>): (r: Option<string>)
    ensures r.None? <==> forall i :: 0 <= i < |fields| ==> fields[i].1.Some?
    ensures r.Some? ==> exists i :: 0 <= i < |fields| && fields[i].0 == r.value && fields[i].1.None?
  {
    if fields == [] then None
    else if fields[0].1.None? then Some(fields[0].0)
    else FirstMissing(fields[1..])
  }

  function MissingFieldMessage(key: string, xml: string): string {
    "Expected field " + key + " not found in response: " + xml
  }

  function LossMessage(r: Required): string {
    "Loss " + r.packetLoss + "%, (Sent " + r.packetsSent + " | Received " + r.packetsReceived + ")"
  }

  /** The ping method after the RPC: lossOf is round(float(text)), None where
      float() raises ValueError. */
  function PingVerdict(reply: PingReply, acceptable: int, lossOf: string -> Option<int>): PingOutcome {
    match reply
    case PingOther(display) => PingRefused(UnexpectedPingResponse(display))
    case PingElement(errors, warnings, summary, xml) =>
      var base := PingResults(true, "", None, None, None);
      if errors != [] then PingExited(base.(msg := "Ping returned errors: " + Join(", ", errors)))
      else
        var withWarnings := if warnings != [] then base.(warnings := Some(warnings)) else base;
        if summary.None? then
          PingExited(withWarnings.(msg := "Probe-results-summary not found in response: " + xml))
        else
          var s := summary.value;
          match FirstMissing(RequiredFields(s))
          case Some(key) => PingExited(withWarnings.(msg := MissingFieldMessage(key, xml)))
          case None =>
            assert RequiredFields(s)[1].1.Some? && RequiredFields(s)[2].1.Some?;
            var req := Required(s.packetLoss.value, s.probesSent.value, s.responsesReceived.value);
            var withRequired := withWarnings.(required := Some(req));
            match lossOf(req.packetLoss)
            case None => PingExited(withRequired.(msg := "Packet loss " + req.packetLoss + " not an integer. Response: " + xml))
            case Some(loss) =>
              if loss < 100 && FirstMissing(OptionalFields(s)).Some? then
                PingExited(withRequired.(msg := MissingFieldMessage(FirstMissing(OptionalFields(s)).value, xml)))
              else
                var rtt := Rtt(s.rttMinimum, s.rttMaximum, s.rttAverage, s.rttStddev);
                PingReturned(withRequired.(rtt := Some(rtt), msg := LossMessage(req), failed := !(loss <= acceptable)))
  }

  /** Results are returned exactly for an element with no errors, a summary
      with all required fields, a numeric loss, and all round-trip fields
      whenever some packets came back. */
  lemma PingReturnedIff(reply: PingReply, acceptable: int, lossOf: string -> Option<int>)
    ensures PingVerdict(reply, acceptable, lossOf).PingReturned? <==>
      && reply.PingElement?
      && reply.errors == []
      && reply.summary.Some?
      && reply.summary.value.packetLoss.Some? && reply.summary.value.probesSent.Some? && reply.summary.value.responsesReceived.Some?
      && lossOf(reply.summary.value.packetLoss.value).Some?
      && (lossOf(reply.summary.value.packetLoss.value).value < 100 ==>
            && reply.summary.value.rttMinimum.Some? && reply.summary.value.rttMaximum.Some?
            && reply.summary.value.rttAverage.Some? && reply.summary.value.rttStddev.Some?)
  {
    if reply.PingElement? && reply.summary.Some? {
      var s := reply.summary.value;
      var req := RequiredFields(s);
      assert req[0].1 == s.packetLoss && req[1].1 == s.probesSent && req[2].1 == s.responsesReceived;
      var opt := OptionalFields(s);
      assert opt[0].1 == s.rttMinimum && opt[1].1 == s.rttMaximum && opt[2].1 == s.rttAverage && opt[3].1 == s.rttStddev;
    }
  }

  /** A returned result fails exactly when the loss exceeds the acceptable
      percentage, carries the summary's fields, and reports them in its message. */
  lemma PingReturnedResults(reply: PingReply, acceptable: int, lossOf: string -> Option<int>)
    requires PingVerdict(reply, acceptable, lossOf).PingReturned?
    ensures var r := PingVerdict(reply, acceptable, lossOf).results;
      var s := reply.summary.value;
      && s.packetLoss.Some? && s.probesSent.Some? && s.responsesReceived.Some?
      && lossOf(s.packetLoss.value).Some?
      && r.failed == (lossOf(s.packetLoss.value).value > acceptable)
      && r.required == Some(Required(s.packetLoss.value, s.probesSent.value, s.responsesReceived.value))
      && r.rtt == Some(Rtt(s.rttMinimum, s.rttMaximum, s.rttAverage, s.rttStddev))
      && r.msg == "Loss " + s.packetLoss.value + "%, (Sent " + s.probesSent.value + " | Received " + s.responsesReceived.value + ")"
      && (r.warnings.Some? <==> reply.warnings != [])
  {
    PingReturnedIff(reply, acceptable, lossOf);
  }

  /** Every early exit reports a failed ping; errors in the reply end it first,
      listing every error message. */
  lemma PingExitsFail(reply: PingReply, acceptable: int, lossOf: string -> Option<int>)
    ensures PingVerdict(reply, acceptable, lossOf).PingExited? ==> PingVerdict(reply, acceptable, lossOf).results.failed
    ensures reply.PingElement? && reply.errors != [] ==>
      PingVerdict(reply, acceptable, lossOf) == PingExited(PingResults(true, "Ping returned errors: " + Join(", ", reply.errors), None, None, None))
    ensures PingVerdict(reply, acceptable, lossOf).PingRefused? <==> reply.PingOther?
  {
  }
}
