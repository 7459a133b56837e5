/** Path MTU discovery from a Junos device: the option checks, the
    minimally-sized connectivity ping, and the binary search over IPv4 packet
    sizes driven by pings with the do-not-fragment bit set. Each ping is an
    oracle from the payload size to what the common ping helper made of it. */
module Pmtud {
  import opened Text

  /** The smallest IPv4 MTU (RFC 791, section 3.2). */
  const InetMinMtu := 68
  /** The largest packet Junos ping accepts. */
  const InetMaxMtu := 65496
  /** 20 bytes of IPv4 header (RFC 791, section 3.1) and 8 of ICMP echo header (RFC 792). */
  const InetHeaderSize := 20
  const IcmpHeaderSize := 8
  const HeaderSize := InetHeaderSize + IcmpHeaderSize
  /** The payload of the minimally-sized connectivity ping. */
  const ConnectivityPayload := InetMinMtu - HeaderSize

  /** One ping as the module sees it: the packet loss, rounded to a whole
      percentage, or the ping helper ended the Ansible task itself (fail_json on an
      RPC error or a malformed reply, exit_json on errors in the reply). */
  datatype Probe = Loss(percent: int) | Ended

  predicate Succeeded(ping: int -> Probe, payload: int) {
    ping(payload).Loss? && ping(payload).percent < 100
  }

  function Min(a: int, b: int): int { if a <= b then a else b }

  function Pow2(k: nat): (r: int)
    ensures r >= 1
  {
    if k == 0 then 1 else 2 * Pow2(k - 1)
  }

  predicate PowerOfTwo(n: int)
    decreases if n > 0 then n else 0
  {
    n == 1 || (n >= 2 && n % 2 == 0 && PowerOfTwo(n / 2))
  }

  /** The accepted values of max_range: 0 and 2^1 .. 2^16. */
  function MaxRangeChoices(): seq<int> {
    [0] + seq(16, i requires 0 <= i < 16 => Pow2(i + 1))
  }

  lemma {:induction false} Pow2IsPowerOfTwo(k: nat)
    ensures PowerOfTwo(Pow2(k))
  {
    if k > 0 {
      Pow2IsPowerOfTwo(k - 1);
    }
  }

  lemma {:induction false} Pow2Grows(j: nat, k: nat)
    requires j <= k
    ensures Pow2(j) <= Pow2(k)
  {
    if j < k {
      Pow2Grows(j, k - 1);
    }
  }

  lemma {:induction false} PowerOfTwoLog(n: int) returns (k: nat)
    requires PowerOfTwo(n)
    ensures Pow2(k) == n
    decreases if n > 0 then n else 0
  {
    if n == 1 {
      k := 0;
    } else {
      var j := PowerOfTwoLog(n / 2);
      k := j + 1;
    }
  }

  lemma Pow2Sixteen()
    ensures Pow2(16) == 65536
  {
    assert Pow2(4) == 16;
    assert Pow2(8) == 256;
    assert Pow2(12) == 4096;
  }

  /** The choice list is exactly 0 and the powers of two from 2 to 65536. */
  lemma MaxRangeChoicesArePowers(r: int)
    ensures r in MaxRangeChoices() <==> r == 0 || (PowerOfTwo(r) && 2 <= r <= 65536)
  {
    var c := MaxRangeChoices();
    Pow2Sixteen();
    if r in c && r != 0 {
      var i :| 0 <= i < |c| && c[i] == r;
      assert c[i] == Pow2(i);
      Pow2IsPowerOfTwo(i);
      Pow2Grows(1, i);
      Pow2Grows(i, 16);
    }
    if r != 0 && PowerOfTwo(r) && 2 <= r <= 65536 {
      var k := PowerOfTwoLog(r);
      if k > 16 {
        Pow2Grows(17, k);
      }
      assert k != 0;
      assert c[k] == r;
    }
  }

  /** test_size brought into [68, max_size], lower bound first. */
  function Clamp(testSize: int, maxSize: int): (c: int)
    requires InetMinMtu <= maxSize
    ensures InetMinMtu <= c <= maxSize
    ensures InetMinMtu <= testSize <= maxSize ==> c == testSize
  {
    var raised := if testSize < InetMinMtu then InetMinMtu else testSize;
    if raised > maxSize then maxSize else raised
  }

  /** The next step: half of it, or 0 once it is below 2. */
  function Halved(step: int): (h: int)
    requires step >= 0
    ensures 0 <= h && (step >= 1 ==> h < step)
  {
    if step >= 2 then step / 2 else 0
  }

  /** Halving a power of two from 2 up gives a power of two, exactly half. */
  lemma HalvedPower(step: int)
    requires PowerOfTwo(step) && step >= 2
    ensures PowerOfTwo(Halved(step)) && step == 2 * Halved(step)
  {
  }

  /** What the search loop leaves behind: the payload sizes pinged so far, in
      order, the inet_mtu recorded, and whether a ping ended the Ansible task. */
  datatype SearchEnd = SearchEnd(payloads: seq<int>, mtu: int, ended: bool)

  /** The loop's state at the top of an iteration: test_size, step,
      inet_mtu, and the payload sizes pinged so far. */
  datatype Cursor = Cursor(testSize: int, step: int, mtu: int, sent: seq<int>)

  /** An iteration either leaves the loop or goes round again. */
  datatype Turn = Stop(end: SearchEnd) | Again(next: Cursor)

  /** One iteration: clamp test_size, halve the step, ping the clamped size
      less the headers, then stop on a reply at max_size, move test_size up by
      the step after a reply and down after total loss, and stop once the step
      is 0. */
  function Iteration(maxSize: int, c: Cursor, ping: int -> Probe): (r: Turn)
    requires InetMinMtu <= maxSize && c.step >= 0
    ensures var sent := c.sent + [Clamp(c.testSize, maxSize) - HeaderSize];
      && (r.Stop? ==> r.end.payloads == sent)
      && (r.Again? ==> r.next.sent == sent && 0 <= r.next.step < c.step)
  {
    var t := Clamp(c.testSize, maxSize);
    var h := Halved(c.step);
    var payload := t - HeaderSize;
    var now := c.sent + [payload];
    match ping(payload)
    case Ended => Stop(SearchEnd(now, c.mtu, true))
    case Loss(loss) =>
      if loss < 100 && t == maxSize then Stop(SearchEnd(now, t, false))
      else
        var next := if loss < 100 then t + h else t - h;
        var m := if loss < 100 then t else c.mtu;
        if h < 1 then Stop(SearchEnd(now, m, false))
        else Again(Cursor(next, h, m, now))
  }

  /** The whole loop from a state. */
  function Search(maxSize: int, c: Cursor, ping: int -> Probe): SearchEnd
    requires InetMinMtu <= maxSize && c.step >= 0
    decreases c.step
  {
    match Iteration(maxSize, c, ping)
    case Stop(e) => e
    case Again(n) => Search(maxSize, n, ping)
  }

  /** The search loop, starting from test_size = max_size and step = max_range. */
  method SearchLoop(maxSize: int, maxRange: int, sent: seq<int>, ping: int -> Probe) returns (payloads: seq<int>, mtu: int, failed: bool, ended: bool)
    requires InetMinMtu <= maxSize && maxRange >= 0
    ensures SearchEnd(payloads, mtu, ended) == Search(maxSize, Cursor(maxSize, maxRange, 0, sent), ping)
    ensures failed <==> mtu == 0
  {
    var testSize := maxSize;
    var step := maxRange;
    mtu := 0;
    failed := true;
    payloads := sent;
    ended := false;
    ghost var goal := Search(maxSize, Cursor(maxSize, maxRange, 0, sent), ping);
    while true
      invariant step >= 0
      invariant failed <==> mtu == 0
      invariant mtu == 0 || mtu >= InetMinMtu
      invariant goal == Search(maxSize, Cursor(testSize, step, mtu, payloads), ping)
      decreases step
    {
      ghost var turn := Iteration(maxSize, Cursor(testSize, step, mtu, payloads), ping);
      if testSize < InetMinMtu {
        testSize := InetMinMtu;
      }
      if testSize > maxSize {
        testSize := maxSize;
      }
      step := if step >= 2 then step / 2 else 0;
      var payload := testSize - HeaderSize;
      var probe := ping(payload);
      payloads := payloads + [payload];
      if probe.Ended? {
        ended := true;
        assert turn == Stop(SearchEnd(payloads, mtu, ended));
        return;
      }
      var loss := probe.percent;
      if loss < 100 && testSize == maxSize {
        failed := false;
        mtu := testSize;
        assert turn == Stop(SearchEnd(payloads, mtu, ended));
        break;
      } else if loss < 100 {
        failed := false;
        mtu := testSize;
        testSize := testSize + step;
      } else {
        testSize := testSize - step;
      }
      if step < 1 {
        assert turn == Stop(SearchEnd(payloads, mtu, ended));
        break;
      }
      assert turn == Again(Cursor(testSize, step, mtu, payloads));
    }
  }

  /** The search only appends to what was sent, and each of its pings has
      the payload of a size in [68, max_size] less the headers. */
  lemma {:induction false} SearchPings(maxSize: int, c: Cursor, ping: int -> Probe)
    requires InetMinMtu <= maxSize && c.step >= 0
    ensures var r := Search(maxSize, c, ping);
      && |r.payloads| > |c.sent|
      && r.payloads[..|c.sent|] == c.sent
      && (forall i :: |c.sent| <= i < |r.payloads| ==> InetMinMtu - HeaderSize <= r.payloads[i] <= maxSize - HeaderSize)
    decreases c.step
  {
    match Iteration(maxSize, c, ping)
    case Stop(e) =>
    case Again(n) =>
      SearchPings(maxSize, n, ping);
      var r := Search(maxSize, n, ping);
      assert r.payloads[..|c.sent|] == r.payloads[..|n.sent|][..|c.sent|];
      assert r.payloads[|c.sent|] == r.payloads[..|n.sent|][|c.sent|];
  }

  /** The recorded MTU is the starting one or a size in [68, max_size] whose
      ping, sent by this search, got a reply. */
  lemma {:induction false} SearchReportsProbe(maxSize: int, c: Cursor, ping: int -> Probe)
    requires InetMinMtu <= maxSize && c.step >= 0
    ensures var r := Search(maxSize, c, ping);
      && |r.payloads| > |c.sent|
      && (r.mtu == c.mtu || (InetMinMtu <= r.mtu <= maxSize && r.mtu - HeaderSize in r.payloads[|c.sent|..] && Succeeded(ping, r.mtu - HeaderSize)))
    decreases c.step
  {
    var payload := Clamp(c.testSize, maxSize) - HeaderSize;
    match Iteration(maxSize, c, ping)
    case Stop(e) =>
      assert e.payloads[|c.sent|..] == [payload];
    case Again(n) =>
      SearchReportsProbe(maxSize, n, ping);
      SearchPings(maxSize, n, ping);
      var r := Search(maxSize, n, ping);
      assert r.payloads[|c.sent|] == payload by {
        assert r.payloads[..|n.sent|][|c.sent|] == n.sent[|c.sent|];
      }
      assert r.payloads[|n.sent|..] == r.payloads[|c.sent|..][1..];
  }

  /** The search stops the Ansible task only on a ping that the ping helper ended,
      and that is its last ping. */
  lemma {:induction false} SearchEndsOnlyWhenEnded(maxSize: int, c: Cursor, ping: int -> Probe)
    requires InetMinMtu <= maxSize && c.step >= 0
    ensures var r := Search(maxSize, c, ping);
      |r.payloads| > 0 && (r.ended <==> ping(r.payloads[|r.payloads| - 1]).Ended?)
    decreases c.step
  {
    match Iteration(maxSize, c, ping)
    case Stop(e) =>
    case Again(n) =>
      SearchEndsOnlyWhenEnded(maxSize, n, ping);
  }

  /** Starting from no MTU, the search ends with none exactly when none of its
      pings got a reply. */
  lemma {:induction false} SearchZeroIff(maxSize: int, c: Cursor, ping: int -> Probe)
    requires InetMinMtu <= maxSize && c.step >= 0
    requires c.mtu == 0 || c.mtu >= InetMinMtu
    ensures var r := Search(maxSize, c, ping);
      r.mtu == 0 <==> c.mtu == 0 && forall i :: |c.sent| <= i < |r.payloads| ==> !Succeeded(ping, r.payloads[i])
    decreases c.step
  {
    var payload := Clamp(c.testSize, maxSize) - HeaderSize;
    SearchPings(maxSize, c, ping);
    match Iteration(maxSize, c, ping)
    case Stop(e) =>
      assert e.payloads[|c.sent|] == payload;
    case Again(n) =>
      SearchZeroIff(maxSize, n, ping);
      SearchPings(maxSize, n, ping);
      var r := Search(maxSize, n, ping);
      assert r.payloads[|c.sent|] == payload by {
        assert r.payloads[..|n.sent|][|c.sent|] == n.sent[|c.sent|];
      }
  }

  /** The loop pings at most 1 + log2(step) times, so it always stops. */
  lemma {:induction false} SearchProbeCount(maxSize: int, c: Cursor, ping: int -> Probe)
    requires InetMinMtu <= maxSize && c.step >= 0
    ensures var n := |Search(maxSize, c, ping).payloads| - |c.sent|;
      n >= 1 && (c.step == 0 ==> n == 1) && (c.step >= 1 ==> Pow2(n - 1) <= c.step)
    decreases c.step
  {
    match Iteration(maxSize, c, ping)
    case Stop(e) =>
    case Again(n) =>
      SearchProbeCount(maxSize, n, ping);
      assert n.step == Halved(c.step);
  }

  /** min_test_size as written: max_size - (max_range - 1), raised to 68. */
  function MinTestSize(maxSize: int, maxRange: int): int {
    var m := maxSize - (maxRange - 1);
    if m < InetMinMtu then InetMinMtu else m
  }

  /** The smallest size the search can ping: min_test_size, except that with
      max_range 0 only max_size itself is pinged. */
  function MinTestedSize(maxSize: int, maxRange: int): int {
    if maxRange == 0 then maxSize else MinTestSize(maxSize, maxRange)
  }

  /** A state of the search whose window [test_size - step + 1, max_size]
      starts at min_test_size or higher, or with min_test_size at 68. */
  predicate AboveMinimum(maxSize: int, maxRange: int, testSize: int, step: int) {
    maxSize - maxRange + 1 <= testSize - step + 1 || maxSize - maxRange + 1 <= InetMinMtu
  }

  /** With max_range 2 or more, whatever the pings answer, no ping of the
      search is smaller than min_test_size. */
  lemma {:induction false} SearchStaysAboveMinimum(maxSize: int, maxRange: int, c: Cursor, ping: int -> Probe)
    requires InetMinMtu <= maxSize && PowerOfTwo(c.step) && c.step <= maxRange
    requires AboveMinimum(maxSize, maxRange, c.testSize, c.step)
    ensures var r := Search(maxSize, c, ping);
      forall i :: |c.sent| <= i < |r.payloads| ==> MinTestSize(maxSize, maxRange) - HeaderSize <= r.payloads[i]
    decreases c.step
  {
    var payload := Clamp(c.testSize, maxSize) - HeaderSize;
    assert MinTestSize(maxSize, maxRange) - HeaderSize <= payload;
    match Iteration(maxSize, c, ping)
    case Stop(e) =>
    case Again(n) =>
      HalvedPower(c.step);
      assert AboveMinimum(maxSize, maxRange, n.testSize, n.step);
      SearchStaysAboveMinimum(maxSize, maxRange, n, ping);
      SearchPings(maxSize, n, ping);
      var r := Search(maxSize, n, ping);
      assert r.payloads[|c.sent|] == payload by {
        assert r.payloads[..|n.sent|][|c.sent|] == n.sent[|c.sent|];
      }
  }

  /** A path that carries every packet up to pathMtu bytes and none larger,
      and that answers every ping. */
  ghost predicate Monotone(ping: int -> Probe, pathMtu: int) {
    forall p :: ping(p).Loss? && ping(p).percent <= 100 && (ping(p).percent < 100 <==> p + HeaderSize <= pathMtu)
  }

  /** The search's window: inet_mtu is at most the target, and either the
      target lies within step - 1 of test_size, or inet_mtu is already the
      target and the window lies above it. */
  predicate Window(target: int, testSize: int, step: int, mtu: int) {
    mtu <= target &&
    ((testSize - step + 1 <= target <= testSize + step - 1) || (mtu == target && target < testSize - step + 1))
  }

  /** Clamping test_size into [68, max_size] keeps a target of that range in
      the window. */
  lemma ClampKeepsWindow(maxSize: int, target: int, testSize: int, step: int, mtu: int)
    requires InetMinMtu <= target <= maxSize && step >= 1
    requires Window(target, testSize, step, mtu)
    ensures Window(target, Clamp(testSize, maxSize), step, mtu)
  {
  }

  /** Under a monotone path, a search whose window holds the lesser of the
      path MTU and max_size ends with exactly that as inet_mtu. */
  lemma {:induction false} SearchFindsTarget(maxSize: int, c: Cursor, ping: int -> Probe, pathMtu: int)
    requires InetMinMtu <= maxSize && Monotone(ping, pathMtu)
    requires InetMinMtu <= Min(pathMtu, maxSize) && PowerOfTwo(c.step)
    requires Window(Min(pathMtu, maxSize), c.testSize, c.step, c.mtu)
    ensures Search(maxSize, c, ping).mtu == Min(pathMtu, maxSize)
    ensures !Search(maxSize, c, ping).ended
    decreases c.step
  {
    var target := Min(pathMtu, maxSize);
    var t := Clamp(c.testSize, maxSize);
    ClampKeepsWindow(maxSize, target, c.testSize, c.step, c.mtu);
    assert ping(t - HeaderSize).Loss?;
    assert Succeeded(ping, t - HeaderSize) <==> t <= target;
    match Iteration(maxSize, c, ping)
    case Stop(e) =>
    case Again(n) =>
      HalvedPower(c.step);
      SearchFindsTarget(maxSize, n, ping, pathMtu);
  }

  /** The module's options, after Ansible's type conversion. */
  datatype PmtudOptions = PmtudOptions(dest: string, maxSize: int, maxRange: int)

  /** How the Ansible task ended: Ansible refused max_range, the module refused
      max_size, a ping ended it, exit_json(failed, inet_mtu, msg), or
      fail_json(msg) with inet_mtu in the results. */
  datatype PmtudEnd =
    | RangeRefused(maxRange: int)
    | SizeRefused(msg: string)
    | PingEnded
    | ExitJson(failed: bool, inetMtu: int, note: Option<string>)
    | FailJson(msg: string, inetMtu: int)

  /** The payload sizes pinged, in order, and the end. */
  datatype PmtudRun = PmtudRun(payloads: seq<int>, end: PmtudEnd)

  function SizeMessage(maxSize: int): string {
    "The value of the max_size option(" + Decimal(maxSize) + ") must be between "
      + Decimal(InetMinMtu) + " and " + Decimal(InetMaxMtu) + "."
  }

  function UnreachableMessage(dest: string): string {
    "Basic connectivity to " + dest + " failed."
  }

  /** The failure message quotes min_test_size as written. */
  function BelowMinimumMessage(o: PmtudOptions): string {
    "The MTU of the path to " + o.dest + " is less than the minimum tested size("
      + Decimal(MinTestSize(o.maxSize, o.maxRange)) + "). Try decreasing max_size("
      + Decimal(o.maxSize) + ") or increasing max_range(" + Decimal(o.maxRange) + ")."
  }

  /** The search's first state: test_size = max_size, step = max_range, no
      MTU yet, after the connectivity ping. */
  function Start(o: PmtudOptions): Cursor {
    Cursor(o.maxSize, o.maxRange, 0, [ConnectivityPayload])
  }

  /** The module's main after connecting. */
  function Discover(o: PmtudOptions, ping: int -> Probe): PmtudRun {
    if o.maxRange !in MaxRangeChoices() then PmtudRun([], RangeRefused(o.maxRange))
    else if o.maxSize < InetMinMtu || o.maxSize > InetMaxMtu then PmtudRun([], SizeRefused(SizeMessage(o.maxSize)))
    else match ping(ConnectivityPayload)
      case Ended => PmtudRun([ConnectivityPayload], PingEnded)
      case Loss(loss) =>
        if loss == 100 then PmtudRun([ConnectivityPayload], ExitJson(true, 0, Some(UnreachableMessage(o.dest))))
        else
          var r := Search(o.maxSize, Start(o), ping);
          if r.ended then PmtudRun(r.payloads, PingEnded)
          else if r.mtu == 0 then PmtudRun(r.payloads, FailJson(BelowMinimumMessage(o), 0))
          else PmtudRun(r.payloads, ExitJson(false, r.mtu, None))
  }

  method RunPmtud(o: PmtudOptions, ping: int -> Probe) returns (run: PmtudRun)
    ensures run == Discover(o, ping)
  {
    if o.maxRange !in MaxRangeChoices() {
      return PmtudRun([], RangeRefused(o.maxRange));
    }
    if o.maxSize < InetMinMtu || o.maxSize > InetMaxMtu {
      return PmtudRun([], SizeRefused(SizeMessage(o.maxSize)));
    }
    var first := ping(ConnectivityPayload);
    if first.Ended? {
      return PmtudRun([ConnectivityPayload], PingEnded);
    }
    if first.percent == 100 {
      return PmtudRun([ConnectivityPayload], ExitJson(true, 0, Some(UnreachableMessage(o.dest))));
    }
    var payloads, mtu, failed, ended := SearchLoop(o.maxSize, o.maxRange, [ConnectivityPayload], ping);
    if ended {
      return PmtudRun(payloads, PingEnded);
    }
    if mtu == 0 {
      return PmtudRun(payloads, FailJson(BelowMinimumMessage(o), mtu));
    }
    run := PmtudRun(payloads, ExitJson(failed, mtu, None));
  }

  /** Ansible refuses a max_range outside the choices, then the module a
      max_size outside [68, 65496]; neither pings. Otherwise the first ping is
      the 40-byte connectivity ping, and a total loss there exits with failed
      still true. */
  lemma DiscoverChecks(o: PmtudOptions, ping: int -> Probe)
    ensures var run := Discover(o, ping);
      && (run.end.RangeRefused? <==> o.maxRange !in MaxRangeChoices())
      && (run.end.SizeRefused? <==> o.maxRange in MaxRangeChoices() && (o.maxSize < 68 || o.maxSize > 65496))
      && (run.end.RangeRefused? || run.end.SizeRefused? <==> run.payloads == [])
      && (run.payloads != [] ==> run.payloads[0] == 40)
      && (run.payloads != [] && ping(40) == Loss(100) ==>
            run == PmtudRun([40], ExitJson(true, 0, Some(UnreachableMessage(o.dest)))))
  {
    if o.maxRange in MaxRangeChoices() && 68 <= o.maxSize <= 65496 && ping(40).Loss? && ping(40).percent != 100 {
      SearchPings(o.maxSize, Start(o), ping);
      var r := Search(o.maxSize, Start(o), ping);
      assert r.payloads[..1][0] == 40;
    }
  }

  /** The run got past the option checks and the connectivity ping, so the
      search ran. */
  predicate Searches(o: PmtudOptions, ping: int -> Probe) {
    && o.maxRange in MaxRangeChoices()
    && InetMinMtu <= o.maxSize <= InetMaxMtu
    && ping(ConnectivityPayload).Loss?
    && ping(ConnectivityPayload).percent != 100
  }

  /** Whatever the pings answer, the module pings at most 18 times. */
  lemma DiscoverProbeCount(o: PmtudOptions, ping: int -> Probe)
    ensures |Discover(o, ping).payloads| <= 18
  {
    if Searches(o, ping) {
      SearchProbeCount(o.maxSize, Start(o), ping);
      var n := |Search(o.maxSize, Start(o), ping).payloads| - 1;
      MaxRangeChoicesArePowers(o.maxRange);
      if n > 17 {
        Pow2Grows(17, n - 1);
        Pow2Sixteen();
      }
    }
  }

  /** Whatever the pings answer, every ping of the search lies in [min tested
      size, max_size], less the headers. */
  lemma DiscoverPingsInRange(o: PmtudOptions, ping: int -> Probe)
    ensures var run := Discover(o, ping);
      forall i :: 1 <= i < |run.payloads| ==>
        MinTestedSize(o.maxSize, o.maxRange) - HeaderSize <= run.payloads[i] <= o.maxSize - HeaderSize
  {
    if Searches(o, ping) {
      var M, R := o.maxSize, o.maxRange;
      SearchPings(M, Start(o), ping);
      MaxRangeChoicesArePowers(R);
      if R == 0 {
        SearchProbeCount(M, Start(o), ping);
      } else {
        SearchStaysAboveMinimum(M, R, Start(o), ping);
      }
    }
  }

  /** Whatever the pings answer, a reported MTU lies in [min tested size,
      max_size], was pinged by the search, and got a reply. */
  lemma DiscoverReportsProbedSize(o: PmtudOptions, ping: int -> Probe)
    ensures var run := Discover(o, ping);
      run.end.ExitJson? && !run.end.failed ==>
        && MinTestedSize(o.maxSize, o.maxRange) <= run.end.inetMtu <= o.maxSize
        && |run.payloads| > 1
        && run.end.inetMtu - HeaderSize in run.payloads[1..]
        && Succeeded(ping, run.end.inetMtu - HeaderSize)
  {
    if Searches(o, ping) {
      var M, R := o.maxSize, o.maxRange;
      SearchReportsProbe(M, Start(o), ping);
      DiscoverPingsInRange(o, ping);
    }
  }

  /** Failure is reported, with inet_mtu 0, exactly when no ping of the search
      got a reply; an exit with failed set comes only from the connectivity
      ping. */
  lemma DiscoverFailure(o: PmtudOptions, ping: int -> Probe)
    ensures var run := Discover(o, ping);
      && (run.end.FailJson? ==> run.end.inetMtu == 0)
      && (Searches(o, ping) && !Search(o.maxSize, Start(o), ping).ended ==>
            (run.end.FailJson? <==> forall i :: 1 <= i < |run.payloads| ==> !Succeeded(ping, run.payloads[i])))
      && (run.end.ExitJson? && run.end.failed ==> run.payloads == [ConnectivityPayload] && run.end.inetMtu == 0)
  {
    if Searches(o, ping) {
      SearchZeroIff(o.maxSize, Start(o), ping);
    }
  }

  /** Under a monotone path: no reply to 40 bytes exits at once; otherwise the
      reported MTU is the lesser of max_size and the path MTU when that is at
      least the smallest size tested, and failure is reported when it is not. */
  lemma DiscoverMonotone(o: PmtudOptions, ping: int -> Probe, pathMtu: int)
    requires o.maxRange in MaxRangeChoices() && InetMinMtu <= o.maxSize <= InetMaxMtu
    requires Monotone(ping, pathMtu)
    ensures Discover(o, ping).end ==
      if pathMtu < InetMinMtu then ExitJson(true, 0, Some(UnreachableMessage(o.dest)))
      else if Min(pathMtu, o.maxSize) >= MinTestedSize(o.maxSize, o.maxRange) then ExitJson(false, Min(pathMtu, o.maxSize), None)
      else FailJson(BelowMinimumMessage(o), 0)
  {
    assert ping(ConnectivityPayload).Loss?;
    if pathMtu >= InetMinMtu {
      MonotoneSearch(o, ping, pathMtu);
    }
  }

  /** The search under a monotone path that answers the connectivity ping. */
  lemma MonotoneSearch(o: PmtudOptions, ping: int -> Probe, pathMtu: int)
    requires o.maxRange in MaxRangeChoices() && InetMinMtu <= o.maxSize <= InetMaxMtu
    requires Monotone(ping, pathMtu) && InetMinMtu <= pathMtu
    ensures var r := Search(o.maxSize, Start(o), ping);
      && !r.ended
      && r.mtu == if Min(pathMtu, o.maxSize) >= MinTestedSize(o.maxSize, o.maxRange) then Min(pathMtu, o.maxSize) else 0
  {
    var M, R := o.maxSize, o.maxRange;
    var target := Min(pathMtu, M);
    var r := Search(M, Start(o), ping);
    SearchEndsOnlyWhenEnded(M, Start(o), ping);
    var last := r.payloads[|r.payloads| - 1];
    assert ping(last).Loss?;
    MaxRangeChoicesArePowers(R);
    if R == 0 {
      SearchProbeCount(M, Start(o), ping);
      SearchPings(M, Start(o), ping);
    } else if target >= MinTestedSize(M, R) {
      SearchFindsTarget(M, Start(o), ping, pathMtu);
    } else {
      SearchStaysAboveMinimum(M, R, Start(o), ping);
      SearchPings(M, Start(o), ping);
      SearchZeroIff(M, Start(o), ping);
      forall i | 1 <= i < |r.payloads|
        ensures !Succeeded(ping, r.payloads[i])
      {
        assert r.payloads[i] + HeaderSize > target;
      }
    }
  }

  /** As written, max_range 0 makes min_test_size one more than max_size,
      although max_size itself is the one size the search pings: a path MTU
      equal to max_size is reported although it is below min_test_size. */
  lemma MinTestSizeAsWritten(o: PmtudOptions, ping: int -> Probe)
    requires o.maxRange == 0 && InetMinMtu <= o.maxSize <= InetMaxMtu
    requires Monotone(ping, o.maxSize)
    ensures MinTestSize(o.maxSize, 0) == o.maxSize + 1
    ensures Discover(o, ping).payloads == [ConnectivityPayload, o.maxSize - HeaderSize]
    ensures Discover(o, ping).end == ExitJson(false, o.maxSize, None)
  {
    MaxRangeChoicesArePowers(0);
    DiscoverMonotone(o, ping, o.maxSize);
  }

  /** As written, with max_range 0 a path narrower than max_size is reported
      as below a minimum tested size of max_size + 1, a size never pinged. */
  lemma MinTestSizeAsWrittenMessage(o: PmtudOptions, ping: int -> Probe, pathMtu: int)
    requires o.maxRange == 0 && InetMinMtu <= pathMtu < o.maxSize <= InetMaxMtu
    requires Monotone(ping, pathMtu)
    ensures Discover(o, ping).end == FailJson(
      "The MTU of the path to " + o.dest + " is less than the minimum tested size("
        + Decimal(o.maxSize + 1) + "). Try decreasing max_size("
        + Decimal(o.maxSize) + ") or increasing max_range(0).", 0)
  {
    MaxRangeChoicesArePowers(0);
    DiscoverMonotone(o, ping, pathMtu);
  }
}
