/**
 * The six-probe metrics battery shared by SSHManager.get_server_metrics and
 * ServerManager.get_metrics: the probe commands, the parse rule of each probe
 * (lifted out of the inline code into pure functions), the sequential run that
 * stops at the first exception, and the two managers' ways of turning a run
 * into the returned dictionary.
 */
module Probes {
  import opened Wrappers
  import opened Text
  import opened Remote

  /** The exception a probe's parsing can raise (its str() is not reproduced). */
  datatype ParseError =
    | TooFewValues(expected: nat, got: nat)   // ValueError: not enough values to unpack
    | TooManyValues(expected: nat)            // ValueError: too many values to unpack
    | NotAnInt(token: string)                 // ValueError from int(token)
    | NotAFloat(text: string)                 // ValueError from float(text)
    | ZeroDivision                            // ZeroDivisionError from used / total

  /** A value in a metrics dictionary. */
  datatype MetricValue =
    | Flag(b: bool)                    // 'success'
    | Clock(t: int)                    // time.time()
    | Int(i: int)                      // int(token)
    | Str(s: string)                   // text kept as it is
    | Float(literal: string)           // float(literal); the literal is one float() accepts
    | Percent(used: int, total: int)   // round(used / total * 100, 1), with total != 0
    | Failure(error: ParseError)       // str(e) of the exception that stopped the battery

  type Metrics = map<string, MetricValue>

  datatype Probe = Cpu | Memory | Disk | Load | Uptime | Network

  /** The probes, in the order both managers run them. */
  const Battery: seq<Probe> := [Cpu, Memory, Disk, Load, Uptime, Network]

  /** The shell command of each probe. */
  function Command(p: Probe): string
  {
    match p
    case Cpu => "top -bn1 | grep 'Cpu(s)' | awk '{print $2 + $4}'"
    case Memory => "free -m | grep Mem | awk '{print $3,$2}'"
    case Disk => "df -h / | tail -1 | awk '{print $3,$2,$5}'"
    case Load => "cat /proc/loadavg | awk '{print $1,$2,$3}'"
    case Uptime => "uptime -p"
    case Network => "cat /proc/net/dev | grep -v lo | grep ':' | awk '{print $1, $2, $10}' | head -1"
  }

  /** The dictionary keys a probe may write. */
  function Keys(p: Probe): set<string>
  {
    match p
    case Cpu => {"cpu_usage"}
    case Memory => {"memory_used", "memory_total", "memory_percent"}
    case Disk => {"disk_used", "disk_total", "disk_percent"}
    case Load => {"load_1", "load_5", "load_15"}
    case Uptime => {"uptime"}
    case Network => {"network_interface", "network_rx", "network_tx"}
  }

  /** Two different probes never write the same key. */
  lemma KeysDisjoint(p: Probe, q: Probe)
    requires p != q
    ensures Keys(p) !! Keys(q)
  {
  }

  /** Every key any probe may write. */
  function AllProbeKeys(): set<string>
  {
    Keys(Cpu) + Keys(Memory) + Keys(Disk) + Keys(Load) + Keys(Uptime) + Keys(Network)
  }

  /** The keys the managers themselves write are never probe keys. */
  lemma ManagerKeysAreNotProbeKeys()
    ensures "success" !in AllProbeKeys() && "timestamp" !in AllProbeKeys() && "error" !in AllProbeKeys()
  {
  }

  // ---------------------------------------------------------------- unpacking

  datatype Outcome<T> = Ok(value: T) | Fail(error: ParseError)

  /**
   * Items i.. of `x1, ..., xn = map(conv, toks)`: CPython converts the items one at a
   * time as it pulls them, then pulls one more to detect surplus items.
   */
  function PullFrom<T>(toks: seq<string>, i: nat, n: nat, conv: string -> Option<T>, bad: string -> ParseError): (r: Outcome<seq<T>>)
    requires i <= n && i <= |toks|
    ensures r.Ok? <==> |toks| == n && forall j :: i <= j < n ==> conv(toks[j]).Some?
    ensures r.Ok? ==> |r.value| == n - i && forall j :: i <= j < n ==> conv(toks[j]) == Some(r.value[j - i])
    decreases n - i
  {
    if i == n then
      if |toks| > n then
        match conv(toks[n])
        case None => Fail(bad(toks[n]))
        case Some(_) => Fail(TooManyValues(n))
      else Ok([])
    else if i == |toks| then Fail(TooFewValues(n, i))
    else
      match conv(toks[i])
      case None => Fail(bad(toks[i]))
      case Some(v) =>
        match PullFrom(toks, i + 1, n, conv, bad)
        case Ok(rest) => Ok([v] + rest)
        case Fail(e) => Fail(e)
  }

  /** `x1, ..., xn = map(conv, toks)`. */
  function UnpackMapped<T>(toks: seq<string>, n: nat, conv: string -> Option<T>, bad: string -> ParseError): (r: Outcome<seq<T>>)
    ensures r.Ok? <==> |toks| == n && forall j :: 0 <= j < n ==> conv(toks[j]).Some?
    ensures r.Ok? ==> |r.value| == n && forall j :: 0 <= j < n ==> conv(toks[j]) == Some(r.value[j])
  {
    if n <= |toks| then PullFrom(toks, 0, n, conv, bad)
    else
      // the items up to |toks| are pulled and converted before the shortage is seen
      match PullFrom(toks[..|toks|], 0, |toks|, conv, bad)
      case Ok(_) => Fail(TooFewValues(n, |toks|))
      case Fail(e) => Fail(e)
  }

  /** `x1, ..., xn = toks` for a list: the length is checked before anything else. */
  function UnpackList(toks: seq<string>, n: nat): (r: Option<ParseError>)
    ensures r.None? <==> |toks| == n
  {
    if |toks| < n then Some(TooFewValues(n, |toks|))
    else if |toks| > n then Some(TooManyValues(n))
    else None
  }

  /** float() as a conversion: an accepted literal stands for its value. */
  function FloatConv(isFloat: string -> bool): string -> Option<string>
  {
    t => if isFloat(t) then Some(t) else None
  }

  // ---------------------------------------------------------------- the parse rules

  /** The fields a probe wrote, and the exception it raised afterwards if any. */
  datatype ProbeOut = ProbeOut(fields: Metrics, failure: Option<ParseError>)

  const Nothing := ProbeOut(map[], None)

  /** cpu: `float(text)` of the stripped output. */
  function ParseCpu(text: string, isFloat: string -> bool): (r: ProbeOut)
    ensures r.fields.Keys <= Keys(Cpu)
    ensures r.failure.None? <==> isFloat(text)
    ensures r.failure.None? ==> r.fields == map["cpu_usage" := Float(text)]
    ensures r.failure.Some? ==> r.fields == map[]
  {
    if isFloat(text) then ProbeOut(map["cpu_usage" := Float(text)], None)
    else ProbeOut(map[], Some(NotAFloat(text)))
  }

  /**
   * memory: `used, total = map(int, toks)`; used and total are stored before the percentage
   * is computed, so a zero total leaves them in place.
   */
  function ParseMemory(toks: seq<string>): (r: ProbeOut)
    ensures r.fields.Keys <= Keys(Memory)
    ensures r.failure.None? <==>
      |toks| == 2 && ParseInt(toks[0]).Some? && ParseInt(toks[1]).Some? && ParseInt(toks[1]).value != 0
    ensures |toks| == 2 && ParseInt(toks[0]).Some? && ParseInt(toks[1]).Some? ==>
      var used, total := ParseInt(toks[0]).value, ParseInt(toks[1]).value;
      && r.fields == (if total == 0 then map["memory_used" := Int(used), "memory_total" := Int(total)]
                      else map["memory_used" := Int(used), "memory_total" := Int(total), "memory_percent" := Percent(used, total)])
      && (total == 0 ==> r.failure == Some(ZeroDivision))
    ensures !(|toks| == 2 && ParseInt(toks[0]).Some? && ParseInt(toks[1]).Some?) ==> r.fields == map[]
  {
    match UnpackMapped(toks, 2, ParseInt, t => NotAnInt(t))
    case Fail(e) => ProbeOut(map[], Some(e))
    case Ok(vs) =>
      assert ParseInt(toks[0]) == Some(vs[0]) && ParseInt(toks[1]) == Some(vs[1]);
      var used, total := vs[0], vs[1];
      var written := map["memory_used" := Int(used), "memory_total" := Int(total)];
      if total == 0 then ProbeOut(written, Some(ZeroDivision))
      else ProbeOut(written["memory_percent" := Percent(used, total)], None)
  }

  /**
   * disk: `used, total, percent = toks`; used and total are kept as text, then
   * `float(percent.replace('%', ''))`.
   */
  function ParseDisk(toks: seq<string>, isFloat: string -> bool): (r: ProbeOut)
    ensures r.fields.Keys <= Keys(Disk)
    ensures r.failure.None? <==> |toks| == 3 && isFloat(RemoveAll(toks[2], '%'))
    ensures |toks| == 3 ==>
      && "disk_used" in r.fields && r.fields["disk_used"] == Str(toks[0])
      && "disk_total" in r.fields && r.fields["disk_total"] == Str(toks[1])
    ensures r.failure.None? ==> "disk_percent" in r.fields && r.fields["disk_percent"] == Float(RemoveAll(toks[2], '%'))
    ensures |toks| == 3 && r.failure.Some? ==>
      r.fields == map["disk_used" := Str(toks[0]), "disk_total" := Str(toks[1])]
    ensures "disk_percent" in r.fields ==> r.fields["disk_percent"].Float? && '%' !in r.fields["disk_percent"].literal
    ensures |toks| != 3 ==> r.fields == map[]
  {
    match UnpackList(toks, 3)
    case Some(e) => ProbeOut(map[], Some(e))
    case None =>
      var written := map["disk_used" := Str(toks[0]), "disk_total" := Str(toks[1])];
      var percent := RemoveAll(toks[2], '%');
      if isFloat(percent) then ProbeOut(written["disk_percent" := Float(percent)], None)
      else ProbeOut(written, Some(NotAFloat(percent)))
  }

  /** load: `load1, load5, load15 = map(float, toks)`. */
  function ParseLoad(toks: seq<string>, isFloat: string -> bool): (r: ProbeOut)
    ensures r.fields.Keys <= Keys(Load)
    ensures r.failure.None? <==> |toks| == 3 && isFloat(toks[0]) && isFloat(toks[1]) && isFloat(toks[2])
    ensures r.failure.None? ==> r.fields == map["load_1" := Float(toks[0]), "load_5" := Float(toks[1]), "load_15" := Float(toks[2])]
    ensures r.failure.Some? ==> r.fields == map[]
  {
    match UnpackMapped(toks, 3, FloatConv(isFloat), t => NotAFloat(t))
    case Fail(e) => ProbeOut(map[], Some(e))
    case Ok(vs) =>
      assert FloatConv(isFloat)(toks[0]) == Some(vs[0]);
      assert FloatConv(isFloat)(toks[1]) == Some(vs[1]);
      assert FloatConv(isFloat)(toks[2]) == Some(vs[2]);
      ProbeOut(map["load_1" := Float(vs[0]), "load_5" := Float(vs[1]), "load_15" := Float(vs[2])], None)
  }

  /** uptime: the stripped output, which cannot fail. */
  function ParseUptime(text: string): (r: ProbeOut)
    ensures r.failure.None? && r.fields == map["uptime" := Str(text)]
  {
    ProbeOut(map["uptime" := Str(text)], None)
  }

  /**
   * network: `interface, rx, tx = toks`, then the interface without any ':' is stored, then
   * `int(rx)`, then `int(tx)`, each stored as soon as it is parsed.
   */
  function ParseNetwork(toks: seq<string>): (r: ProbeOut)
    ensures r.fields.Keys <= Keys(Network)
    ensures r.failure.None? <==> |toks| == 3 && ParseInt(toks[1]).Some? && ParseInt(toks[2]).Some?
    ensures r.failure.None? ==>
      r.fields == map["network_interface" := Str(RemoveAll(toks[0], ':')),
                      "network_rx" := Int(ParseInt(toks[1]).value),
                      "network_tx" := Int(ParseInt(toks[2]).value)]
    ensures |toks| == 3 && ParseInt(toks[1]).None? ==>
      r.fields == map["network_interface" := Str(RemoveAll(toks[0], ':'))]
    ensures |toks| == 3 && ParseInt(toks[1]).Some? && ParseInt(toks[2]).None? ==>
      r.fields == map["network_interface" := Str(RemoveAll(toks[0], ':')), "network_rx" := Int(ParseInt(toks[1]).value)]
    ensures "network_interface" in r.fields ==> r.fields["network_interface"].Str? && ':' !in r.fields["network_interface"].s
    ensures |toks| != 3 ==> r.fields == map[]
  {
    match UnpackList(toks, 3)
    case Some(e) => ProbeOut(map[], Some(e))
    case None =>
      var withInterface := map["network_interface" := Str(RemoveAll(toks[0], ':'))];
      match ParseInt(toks[1])
      case None => ProbeOut(withInterface, Some(NotAnInt(toks[1])))
      case Some(rx) =>
        var withRx := withInterface["network_rx" := Int(rx)];
        match ParseInt(toks[2])
        case None => ProbeOut(withRx, Some(NotAnInt(toks[2])))
        case Some(tx) => ProbeOut(withRx["network_tx" := Int(tx)], None)
  }

  /**
   * A probe's parse of its command's stdout: the rules above applied to `stdout.strip()`
   * or to `stdout.strip().split()`, which SplitIgnoresStrip shows is `Split(stdout)`.
   */
  function Parse(p: Probe, stdout: string, isFloat: string -> bool): (r: ProbeOut)
    ensures r.fields.Keys <= Keys(p)
    ensures p == Uptime ==> r.failure.None?
  {
    var text := Strip(stdout);
    var toks := Split(text);
    match p
    case Cpu => ParseCpu(text, isFloat)
    case Memory => ParseMemory(toks)
    case Disk => ParseDisk(toks, isFloat)
    case Load => ParseLoad(toks, isFloat)
    case Uptime => ParseUptime(text)
    case Network => ParseNetwork(toks)
  }

  // ---------------------------------------------------------------- the run

  /** What the manager's gate sees of one probe's command: whether it passed, and its stdout. */
  datatype ProbeInput = ProbeInput(passed: bool, stdout: string)

  /** Whether a probe's output is parsed: its command passed, and for network stdout is not blank. */
  predicate Gate(p: Probe, input: ProbeInput)
  {
    input.passed && (p != Network || Strip(input.stdout) != "")
  }

  /** One probe's contribution: its parse when the gate is open, nothing otherwise. */
  function ProbeStep(p: Probe, input: ProbeInput, isFloat: string -> bool): (r: ProbeOut)
    ensures r.fields.Keys <= Keys(p)
    ensures !Gate(p, input) ==> r == Nothing
  {
    if Gate(p, input) then Parse(p, input.stdout, isFloat) else Nothing
  }

  /** The commands a manager runs for the probes `ps` on a client, in order. */
  function ProbeCalls(c: ClientId, ps: seq<Probe>, timeout: int): (r: seq<RemoteCall>)
    ensures |r| == |ps|
    ensures forall i :: 0 <= i < |ps| ==> r[i] == Exec(c, Command(ps[i]), timeout)
  {
    seq(|ps|, i requires 0 <= i < |ps| => Exec(c, Command(ps[i]), timeout))
  }

  lemma ProbeCallsNext(c: ClientId, k: nat, timeout: int)
    requires k < |Battery|
    ensures ProbeCalls(c, Battery[..k + 1], timeout) == ProbeCalls(c, Battery[..k], timeout) + [Exec(c, Command(Battery[k]), timeout)]
  {
  }

  /** The calls after stanza `k`: the calls before it and its own command. */
  lemma ProbeCallsAfter(calls0: seq<RemoteCall>, c: ClientId, k: nat, timeout: int)
    requires k < |Battery|
    ensures calls0 + ProbeCalls(c, Battery[..k], timeout) + [Exec(c, Command(Battery[k]), timeout)]
         == calls0 + ProbeCalls(c, Battery[..k + 1], timeout)
  {
    ProbeCallsNext(c, k, timeout);
  }

  /** The battery so far: fields written, how many probes ran, and the exception that stopped it. */
  datatype Run = Run(fields: Metrics, ran: nat, failure: Option<ParseError>)

  const Start := Run(map[], 0, None)

  /** The next probe's contribution, unless an earlier one raised (the managers then leave the battery). */
  function Then(run: Run, out: ProbeOut): (r: Run)
    ensures run.failure.Some? ==> r == run
    ensures run.failure.None? ==> r == Run(run.fields + out.fields, run.ran + 1, out.failure)
  {
    if run.failure.Some? then run
    else Run(run.fields + out.fields, run.ran + 1, out.failure)
  }

  /** The first `k` contributions, in battery order. */
  function CollectUpTo(outs: Probe -> ProbeOut, k: nat): (r: Run)
    requires k <= |Battery|
    ensures r.ran <= k
    ensures r.failure.None? ==> r.ran == k
  {
    if k == 0 then Start else Then(CollectUpTo(outs, k - 1), outs(Battery[k - 1]))
  }

  /** The six contributions, in battery order. */
  function Collect(outs: Probe -> ProbeOut): Run
  {
    CollectUpTo(outs, |Battery|)
  }

  /** Each probe's contribution, from the outcome of its own command. */
  function Steps(inputs: Probe -> ProbeInput, isFloat: string -> bool): Probe -> ProbeOut
  {
    p => ProbeStep(p, inputs(p), isFloat)
  }

  lemma StepsApply(inputs: Probe -> ProbeInput, isFloat: string -> bool, p: Probe)
    ensures Steps(inputs, isFloat)(p) == ProbeStep(p, inputs(p), isFloat)
  {
  }

  /** The whole battery. */
  function RunBattery(inputs: Probe -> ProbeInput, isFloat: string -> bool): Run
  {
    Collect(Steps(inputs, isFloat))
  }

  /** A run only ever holds probe keys. */
  predicate ProbeKeysOnly(run: Run)
  {
    run.fields.Keys <= AllProbeKeys()
  }

  lemma BatteryKeys(i: nat)
    requires i < |Battery|
    ensures Keys(Battery[i]) <= AllProbeKeys()
  {
  }

  /** Collecting a prefix: a raised run stops at the probe that raised, and writes only probe keys. */
  lemma {:induction false} CollectUpToShape(outs: Probe -> ProbeOut, k: nat)
    requires k <= |Battery|
    requires forall p :: outs(p).fields.Keys <= Keys(p)
    ensures var r := CollectUpTo(outs, k);
      && (k >= 1 ==> 1 <= r.ran)
      && (r.failure.Some? ==> 1 <= r.ran && outs(Battery[r.ran - 1]).failure == r.failure)
      && ProbeKeysOnly(r)
  {
    if k > 0 {
      CollectUpToShape(outs, k - 1);
      BatteryKeys(k - 1);
    }
  }

  /**
   * The shape of collecting six contributions: at least the first runs, a run without an
   * exception runs all six, a run with one stops right after the probe that raised it, and
   * only the contributions' keys are written.
   */
  lemma CollectShape(outs: Probe -> ProbeOut)
    requires forall p :: outs(p).fields.Keys <= Keys(p)
    ensures var r := Collect(outs);
      && 1 <= r.ran <= |Battery|
      && (r.failure.None? <==> r.ran == |Battery| && outs(Network).failure.None?)
      && (r.failure.Some? ==> outs(Battery[r.ran - 1]).failure == r.failure)
      && ProbeKeysOnly(r)
  {
    CollectUpToShape(outs, |Battery|);
  }

  /** A contribution with no fields leaves its probe's keys out of every prefix. */
  lemma {:induction false} CollectUpToSkips(outs: Probe -> ProbeOut, p: Probe, k: nat)
    requires k <= |Battery|
    requires forall q :: outs(q).fields.Keys <= Keys(q)
    requires outs(p).fields == map[]
    ensures CollectUpTo(outs, k).fields.Keys !! Keys(p)
  {
    if k > 0 {
      CollectUpToSkips(outs, p, k - 1);
      var q := Battery[k - 1];
      if q != p {
        KeysDisjoint(q, p);
      }
    }
  }

  /** Once a contribution has raised, the rest of the battery changes nothing. */
  lemma {:induction false} Stopped(outs: Probe -> ProbeOut, k: nat)
    requires 1 <= k <= |Battery|
    requires CollectUpTo(outs, k).failure.Some?
    ensures Collect(outs) == CollectUpTo(outs, k)
    decreases |Battery| - k
  {
    if k < |Battery| {
      Stopped(outs, k + 1);
    }
  }

  /** The battery's shape, for the probes' own parse rules. */
  lemma RunBatteryShape(inputs: Probe -> ProbeInput, isFloat: string -> bool)
    ensures var r := RunBattery(inputs, isFloat);
      && 1 <= r.ran <= |Battery|
      && (r.failure.None? <==> r.ran == |Battery| && ProbeStep(Network, inputs(Network), isFloat).failure.None?)
      && (r.failure.Some? ==> ProbeStep(Battery[r.ran - 1], inputs(Battery[r.ran - 1]), isFloat).failure == r.failure)
      && ProbeKeysOnly(r)
  {
    var outs := Steps(inputs, isFloat);
    assert forall p :: outs(p) == ProbeStep(p, inputs(p), isFloat);
    CollectShape(outs);
  }

  /** A probe whose gate is closed writes none of its keys, whatever the others do. */
  lemma ClosedGateWritesNothing(inputs: Probe -> ProbeInput, isFloat: string -> bool, p: Probe)
    requires !Gate(p, inputs(p))
    ensures RunBattery(inputs, isFloat).fields.Keys !! Keys(p)
  {
    var outs := Steps(inputs, isFloat);
    assert forall q :: outs(q) == ProbeStep(q, inputs(q), isFloat);
    CollectUpToSkips(outs, p, |Battery|);
  }

  /** The battery never stops at the uptime probe, whose parse cannot raise. */
  lemma NeverStopsAtUptime(inputs: Probe -> ProbeInput, isFloat: string -> bool)
    ensures RunBattery(inputs, isFloat).failure.Some? ==> RunBattery(inputs, isFloat).ran != 5
  {
    RunBatteryShape(inputs, isFloat);
    assert ProbeStep(Uptime, inputs(Uptime), isFloat).failure.None?;
  }

  // ---------------------------------------------------------------- the two dictionaries

  /** The dictionary SSHManager.get_server_metrics starts from. */
  function Opening(now: int): Metrics
  {
    map["success" := Flag(false), "timestamp" := Clock(now)]
  }

  /**
   * SSHManager.get_server_metrics: `success` and `timestamp` first; without a connection only
   * `error` is added; otherwise the fields written before any exception are kept, and either
   * `error` is added or `success` becomes True.
   */
  function SshSnapshot(connected: bool, run: Run, now: int): Metrics
  {
    var base := Opening(now);
    if !connected then base["error" := Str("Not connected to server")]
    else
      var filled := base + run.fields;
      match run.failure
      case Some(e) => filled["error" := Failure(e)]
      case None => filled["success" := Flag(true)]
  }

  /**
   * ServerManager.get_metrics: the fields and a final `timestamp`, or on any exception a
   * dictionary holding nothing but `error`.
   */
  function ServerSnapshot(run: Run, now: int): Metrics
  {
    match run.failure
    case Some(e) => map["error" := Failure(e)]
    case None => run.fields["timestamp" := Clock(now)]
  }

  /** SSHManager's dictionary for a run that raised: what was collected, then the error. */
  lemma SshSnapshotRaised(run: Run, now: int)
    requires run.failure.Some?
    ensures SshSnapshot(true, run, now) ==
      (Opening(now) + run.fields)["error" := Failure(run.failure.value)]
  {
  }

  /** SSHManager's dictionary for a run that completed: what was collected, then success. */
  lemma SshSnapshotCompleted(run: Run, now: int)
    requires run.failure.None?
    ensures SshSnapshot(true, run, now) ==
      (Opening(now) + run.fields)["success" := Flag(true)]
  {
  }

  /** What SSHManager's dictionary promises its callers. */
  lemma SshSnapshotContract(connected: bool, run: Run, now: int)
    requires ProbeKeysOnly(run)
    ensures var m := SshSnapshot(connected, run, now);
      && "success" in m && m["success"] == Flag(connected && run.failure.None?)
      && "timestamp" in m && m["timestamp"] == Clock(now)
      && ("error" in m <==> !connected || run.failure.Some?)
      && (!connected ==> m.Keys == {"success", "timestamp", "error"})
      && (connected ==> m.Keys == run.fields.Keys + {"success", "timestamp"} + (if run.failure.Some? then {"error"} else {}))
      && (connected ==> forall k :: k in run.fields ==> m[k] == run.fields[k])
  {
    ManagerKeysAreNotProbeKeys();
  }

  /** What ServerManager's dictionary promises its callers. */
  lemma ServerSnapshotContract(run: Run, now: int)
    requires ProbeKeysOnly(run)
    ensures var m := ServerSnapshot(run, now);
      && "success" !in m
      && (run.failure.Some? <==> "error" in m)
      && (run.failure.Some? ==> m.Keys == {"error"})
      && (run.failure.None? ==> m.Keys == run.fields.Keys + {"timestamp"} && m["timestamp"] == Clock(now))
      && (run.failure.None? ==> forall k :: k in run.fields ==> m[k] == run.fields[k])
  {
    ManagerKeysAreNotProbeKeys();
  }

  /**
   * The two managers on the same run: without an exception they agree except that SSHManager
   * adds `success`; with one, SSHManager keeps what was collected and ServerManager discards it.
   */
  lemma SnapshotsDiverge(run: Run, now: int)
    requires ProbeKeysOnly(run)
    ensures run.failure.None? ==> ServerSnapshot(run, now) == SshSnapshot(true, run, now) - {"success"}
    ensures run.failure.Some? ==>
      && ServerSnapshot(run, now).Keys == {"error"}
      && SshSnapshot(true, run, now).Keys >= run.fields.Keys + {"error"}
  {
    ManagerKeysAreNotProbeKeys();
    if run.failure.None? {
      var s := SshSnapshot(true, run, now) - {"success"};
      var t := ServerSnapshot(run, now);
      assert s.Keys == t.Keys;
      assert forall k :: k in s ==> s[k] == t[k];
    }
  }
}
