/**
 The check itself: read three temperature sensors of the RoomAlert, decide by a
 vote over the working sensors whether an emergency shutdown is required, and if
 so send the shutdown command through NRPE (Nagios Remote Plugin Executor) to every
 configured host; the result is a Nagios status code.
 */
module Control {
  import opened Wrappers
  import opened PyBuiltins
  import opened AvtechCom
  import Quorum

  // Nagios status codes.
  const StateOk: int := 0
  const StateWarning: int := 1
  const StateCritical: int := 2
  const StateUnknown: int := 3
  // Declared, like in check_tss/lib/control.py, but never returned.
  const StateDependent: int := 4

  const DefaultNrpePath: string := "/usr/local/nagios/libexec"
  const DefaultNrpePort: int := 5660
  const ShutdownCommand: string := "emergency_shutdown"
  const NrpeErrorText: string := "Error executing check_nrpe!"

  /** The outcome of launching a process: its captured standard output and exit code, or an exception. */
  datatype ProcessOutcome = Completed(stdout: string, returnCode: int) | LaunchFailed

  /** What `execute_nrpe` returns: `[output, status]`. */
  datatype NrpeResult = NrpeResult(output: string, status: int)

  /** The argument vector of one `check_nrpe` call with a two-second timeout. */
  function NrpeArgv(path: string, host: string, port: int, command: string): seq<string> {
    [path + "/check_nrpe", "-H", host, "-p", IntToString(port), "-c", command, "-t", "2"]
  }

  /**
   The argument vector names the `check_nrpe` executable under `path` and carries the
   host, the port (as a numeral that reads back as `port`), the command and the timeout,
   each after its own flag.
   */
  lemma NrpeArgvCarriesCall(path: string, host: string, port: int, command: string)
    ensures var argv := NrpeArgv(path, host, port, command);
      && |argv| == 9
      && argv[0] == path + "/check_nrpe"
      && argv[1] == "-H" && argv[2] == host
      && argv[3] == "-p" && ParseNumeral(argv[4]) == Some(port)
      && argv[5] == "-c" && argv[6] == command
      && argv[7] == "-t" && argv[8] == "2"
  {
    IntToStringRoundTrip(port);
  }

  /**
   The operating system as seen by the plugin: `run(k, argv)` is the outcome of the `k`-th
   process launched when its argument vector is `argv`; `launched` lists the launches so far.
   */
  class ProcessRunner {
    var launched: seq<seq<string>>
    const run: (nat, seq<string>) -> ProcessOutcome

    constructor (run: (nat, seq<string>) -> ProcessOutcome)
      ensures launched == [] && this.run == run
    {
      launched := [];
      this.run := run;
    }

    /** `subprocess.run(argv, capture_output=True, text=True)`. */
    method Run(argv: seq<string>) returns (outcome: ProcessOutcome)
      modifies this
      ensures launched == old(launched) + [argv]
      ensures outcome == run(|old(launched)|, argv)
    {
      outcome := run(|launched|, argv);
      launched := launched + [argv];
    }
  }

  /**
   `execute_nrpe`: launch `check_nrpe` once for `command` on `host`; the process output
   and exit code on completion, the fixed error text with CRITICAL on any exception.
   */
  method ExecuteNrpe(runner: ProcessRunner, host: string, command: string, path: string, port: int)
    returns (r: NrpeResult)
    modifies runner
    ensures runner.launched == old(runner.launched) + [NrpeArgv(path, host, port, command)]
    ensures var outcome := runner.run(|old(runner.launched)|, NrpeArgv(path, host, port, command));
      r == match outcome
           case Completed(stdout, code) => NrpeResult(stdout, code)
           case LaunchFailed => NrpeResult(NrpeErrorText, StateCritical)
  {
    var outcome := runner.Run(NrpeArgv(path, host, port, command));
    match outcome
    case Completed(stdout, code) =>
      r := NrpeResult(stdout, code);
    case LaunchFailed =>
      r := NrpeResult(NrpeErrorText, StateCritical);
  }

  /**
   The vote of `check_shutdown_condition` over readings that were all obtained: mark the
   failed sensors, mark the working ones above the threshold, lower the requirement for
   failures and compare.
   */
  method Vote(values: seq<real>, required: int, threshold: real) returns (trigger: bool)
    ensures trigger <==> Quorum.ShutdownVote(values, required, threshold)
  {
    var sensorOk := new bool[|values|];
    for i := 0 to |values|
      invariant forall j :: 0 <= j < i ==> sensorOk[j] == (values[j] != Quorum.FailureMarker)
    {
      if values[i] == Quorum.FailureMarker {
        sensorOk[i] := false;
      } else {
        sensorOk[i] := true;
      }
    }
    assert sensorOk[..] == Quorum.OkFlags(values);
    var sensorTrig := new bool[|values|];
    for i := 0 to |values|
      invariant sensorOk[..] == Quorum.OkFlags(values)
      invariant forall j :: 0 <= j < i ==> sensorTrig[j] == (sensorOk[j] && values[j] > threshold)
    {
      if sensorOk[i] && values[i] > threshold {
        sensorTrig[i] := true;
      } else {
        sensorTrig[i] := false;
      }
    }
    assert sensorTrig[..] == Quorum.TriggerFlags(values, threshold);
    var n := required;
    if Quorum.Count(sensorOk[..], false) > 0 && n > Quorum.Count(sensorOk[..], true) {
      n := Quorum.Max(n - Quorum.Count(sensorOk[..], false), 1);
    }
    trigger := Quorum.Count(sensorTrig[..], true) >= n;
  }

  /**
   The value of `check_shutdown_condition` for the three read results: None for a
   requirement outside 1..3 or when a read raised, otherwise the vote.
   */
  function ConditionOutcome(required: int, threshold: real, read1: Reading, read2: Reading, read3: Reading): PyBool {
    if required < 1 || required > 3 then PyNone
    else if read1.ReadRaised? || read2.ReadRaised? || read3.ReadRaised? then PyNone
    else if Quorum.ShutdownVote([read1.value, read2.value, read3.value], required, threshold) then PyTrue
    else PyFalse
  }

  /**
   The condition is None exactly for a requirement outside 1..3 or a read that raised,
   so an invalid requirement is never confused with a vote; otherwise it is True exactly
   when the vote over the three readings calls for a shutdown.
   */
  lemma ConditionOutcomeMeaning(required: int, threshold: real, read1: Reading, read2: Reading, read3: Reading)
    ensures var r := ConditionOutcome(required, threshold, read1, read2, read3);
      && (r == PyNone <==> required < 1 || required > 3 || read1.ReadRaised? || read2.ReadRaised? || read3.ReadRaised?)
      && (r == PyTrue ==> read1.Celsius? && read2.Celsius? && read3.Celsius?)
      && (read1.Celsius? && read2.Celsius? && read3.Celsius? && 1 <= required <= 3 ==>
           (r == PyTrue <==> Quorum.ShutdownVote([read1.value, read2.value, read3.value], required, threshold)))
  {
  }

  /**
   The requests `check_shutdown_condition` sends: none for a requirement outside 1..3,
   otherwise the three sensors in order, stopping after the first read that raised.
   */
  function SensorRequests(required: int, read1: Reading, read2: Reading, q1: Request, q2: Request, q3: Request): seq<Request> {
    if required < 1 || required > 3 then []
    else if read1.ReadRaised? then [q1]
    else if read2.ReadRaised? then [q1, q2]
    else [q1, q2, q3]
  }

  /** `check_shutdown_condition`: True, False or None. */
  method CheckShutdownCondition(avtech: RA32S, agent: SnmpAgent, channel1: string, channel2: string, channel3: string,
                                required: int, threshold: real)
    returns (r: PyBool)
    modifies agent
    ensures var k := |old(agent.requests)|;
      var q1, q2, q3 := avtech.Query(Register(channel1)), avtech.Query(Register(channel2)), avtech.Query(Register(channel3));
      var read1, read2, read3 := TemperatureOf(agent.respond(k, q1)), TemperatureOf(agent.respond(k + 1, q2)),
                                 TemperatureOf(agent.respond(k + 2, q3));
      && r == ConditionOutcome(required, threshold, read1, read2, read3)
      && agent.requests == old(agent.requests) + SensorRequests(required, read1, read2, q1, q2, q3)
  {
    if required < 1 || required > 3 {
      return PyNone;
    }
    // An exception raised by any read is caught and turns into None.
    var read1 := avtech.ReadDiTempC(agent, channel1);
    if read1.ReadRaised? {
      return PyNone;
    }
    var read2 := avtech.ReadDiTempC(agent, channel2);
    if read2.ReadRaised? {
      return PyNone;
    }
    var read3 := avtech.ReadDiTempC(agent, channel3);
    if read3.ReadRaised? {
      return PyNone;
    }
    var trigger := Vote([read1.value, read2.value, read3.value], required, threshold);
    r := if trigger then PyTrue else PyFalse;
  }

  /**
   The status `control` returns for a connectivity result and a decision. Only a
   connectivity result equal to False stops the check; a falsy decision (False or None)
   is OK; the UNKNOWN branch after `elif shutdown_required` can never be taken.
   */
  function Status(connected: PyBool, decision: PyBool): (s: int)
    ensures s == StateCritical <==> connected == PyFalse || decision == PyTrue
    ensures s == StateOk <==> connected != PyFalse && decision != PyTrue
    ensures s != StateUnknown && s != StateWarning
  {
    if connected.EqualsFalse() then StateCritical
    else if !decision.Truthy() then StateOk
    else if decision.Truthy() then StateCritical
    else StateUnknown
  }

  /** The argument vectors of the shutdown fan-out: one per host, in list order. */
  function ShutdownCalls(hosts: seq<string>): (calls: seq<seq<string>>)
    ensures |calls| == |hosts|
    ensures forall i :: 0 <= i < |hosts| ==> calls[i] == NrpeArgv(DefaultNrpePath, hosts[i], DefaultNrpePort, ShutdownCommand)
  {
    if hosts == [] then [] else ShutdownCalls(hosts[..|hosts| - 1]) + [NrpeArgv(DefaultNrpePath, hosts[|hosts| - 1], DefaultNrpePort, ShutdownCommand)]
  }

  /** The shutdown fan-out of `control`: one `execute_nrpe` per host, in order, results ignored. */
  method Dispatch(runner: ProcessRunner, hosts: seq<string>)
    modifies runner
    ensures runner.launched == old(runner.launched) + ShutdownCalls(hosts)
  {
    for i := 0 to |hosts|
      invariant runner.launched == old(runner.launched) + ShutdownCalls(hosts[..i])
    {
      assert hosts[..i + 1][..i] == hosts[..i];
      var _ := ExecuteNrpe(runner, hosts[i], ShutdownCommand, DefaultNrpePath, DefaultNrpePort);
    }
    assert hosts[..|hosts|] == hosts;
  }

  /**
   `control`: store the connection parameters, probe the device, evaluate the shutdown
   condition and, when it holds, send the shutdown command to every host. `connected` is
   the probe result and `decision` the shutdown condition, both as the model computes them
   from the device's answers; the status is `Status` of the two; the device sees the probe
   and then the sensor reads (none when the probe result is False); the hosts are contacted
   exactly when the decision is True, once each, in order, whatever each call returns.
   */
  method RunControl(agent: SnmpAgent, runner: ProcessRunner,
                    snmpHost: PyValue, snmpVersion: PyValue, snmpCommunity: PyValue, snmpPort: PyValue, snmpDevice: PyValue,
                    channel1: string, channel2: string, channel3: string,
                    required: int, threshold: real, hosts: seq<string>)
    returns (status: int, ghost connected: PyBool, ghost decision: PyBool)
    modifies agent, runner
    ensures var k := |old(agent.requests)|;
      var probe := Request(snmpCommunity, snmpHost, snmpPort, SysDescr);
      var q1 := Request(snmpCommunity, snmpHost, snmpPort, Register(channel1));
      var q2 := Request(snmpCommunity, snmpHost, snmpPort, Register(channel2));
      var q3 := Request(snmpCommunity, snmpHost, snmpPort, Register(channel3));
      var read1, read2, read3 := TemperatureOf(agent.respond(k + 1, q1)), TemperatureOf(agent.respond(k + 2, q2)),
                                 TemperatureOf(agent.respond(k + 3, q3));
      && connected == DeviceMatch(Some(snmpDevice), agent.respond(k, probe))
      && decision == ConditionOutcome(required, threshold, read1, read2, read3)
      && agent.requests == old(agent.requests) + [probe]
                           + (if connected == PyFalse then [] else SensorRequests(required, read1, read2, q1, q2, q3))
    ensures status == Status(connected, decision)
    ensures runner.launched == old(runner.launched)
                               + (if connected != PyFalse && decision == PyTrue then ShutdownCalls(hosts) else [])
  {
    ghost var k := |agent.requests|;
    var avtech, probeResult := Connect(agent, snmpHost, snmpVersion, snmpCommunity, snmpPort, snmpDevice);
    connected := probeResult;
    ghost var q1 := Request(snmpCommunity, snmpHost, snmpPort, Register(channel1));
    ghost var q2 := Request(snmpCommunity, snmpHost, snmpPort, Register(channel2));
    ghost var q3 := Request(snmpCommunity, snmpHost, snmpPort, Register(channel3));
    assert avtech.Query(Register(channel1)) == q1 && avtech.Query(Register(channel2)) == q2;
    assert avtech.Query(Register(channel3)) == q3;
    ghost var read1 := TemperatureOf(agent.respond(k + 1, q1));
    ghost var read2 := TemperatureOf(agent.respond(k + 2, q2));
    ghost var read3 := TemperatureOf(agent.respond(k + 3, q3));
    decision := ConditionOutcome(required, threshold, read1, read2, read3);
    if probeResult.EqualsFalse() {
      return StateCritical, connected, decision;
    }
    ghost var d;
    status, d := EvaluateAndDispatch(avtech, agent, runner, channel1, channel2, channel3, required, threshold, hosts);
  }

  /** The first step of `control`: a new `RA32S` holding the parameters, and its probe result. */
  method Connect(agent: SnmpAgent, snmpHost: PyValue, snmpVersion: PyValue, snmpCommunity: PyValue, snmpPort: PyValue,
                 snmpDevice: PyValue)
    returns (avtech: RA32S, connected: PyBool)
    modifies agent
    ensures fresh(avtech)
    ensures avtech.community == snmpCommunity && avtech.host == snmpHost && avtech.port == snmpPort
    ensures avtech.version == snmpVersion && avtech.device == Some(snmpDevice)
    ensures agent.requests == old(agent.requests) + [Request(snmpCommunity, snmpHost, snmpPort, SysDescr)]
    ensures connected == DeviceMatch(Some(snmpDevice), agent.respond(|old(agent.requests)|, Request(snmpCommunity, snmpHost, snmpPort, SysDescr)))
  {
    avtech := new RA32S();
    avtech.Open(snmpVersion, snmpCommunity, snmpHost, snmpPort, snmpDevice);
    connected := avtech.IsConnected(agent);
  }

  /**
   The part of `control` after a probe whose result was not False: evaluate the shutdown
   condition; a falsy decision is OK, a True one sends the shutdown command to every host
   and is CRITICAL.
   */
  method EvaluateAndDispatch(avtech: RA32S, agent: SnmpAgent, runner: ProcessRunner,
                             channel1: string, channel2: string, channel3: string,
                             required: int, threshold: real, hosts: seq<string>)
    returns (status: int, ghost decision: PyBool)
    modifies agent, runner
    ensures var k := |old(agent.requests)|;
      var q1, q2, q3 := avtech.Query(Register(channel1)), avtech.Query(Register(channel2)), avtech.Query(Register(channel3));
      var read1, read2, read3 := TemperatureOf(agent.respond(k, q1)), TemperatureOf(agent.respond(k + 1, q2)),
                                 TemperatureOf(agent.respond(k + 2, q3));
      && decision == ConditionOutcome(required, threshold, read1, read2, read3)
      && agent.requests == old(agent.requests) + SensorRequests(required, read1, read2, q1, q2, q3)
    ensures status == Status(PyTrue, decision)
    ensures runner.launched == old(runner.launched) + (if decision == PyTrue then ShutdownCalls(hosts) else [])
  {
    var shutdownRequired := CheckShutdownCondition(avtech, agent, channel1, channel2, channel3, required, threshold);
    decision := shutdownRequired;
    if !shutdownRequired.Truthy() {
      status := StateOk;
    } else if shutdownRequired.Truthy() {
      Dispatch(runner, hosts);
      status := StateCritical;
    } else {
      status := StateUnknown;
    }
  }

  /** With all three sensors reading the sentinel, the condition is False for every valid requirement. */
  lemma AllSensorsFailedIsFalse(required: int, threshold: real)
    requires 1 <= required <= 3
    ensures ConditionOutcome(required, threshold, Celsius(ErrorReading), Celsius(ErrorReading), Celsius(ErrorReading)) == PyFalse
  {
    Quorum.AllFailedNoShutdown([ErrorReading, ErrorReading, ErrorReading], required, threshold);
  }

  /**
   A requirement outside 1..3 makes the condition None, which `control` reports as OK,
   not UNKNOWN, unless the probe result was False.
   */
  lemma InvalidRequirementReportsOk(connected: PyBool, required: int, threshold: real, read1: Reading, read2: Reading, read3: Reading)
    requires required < 1 || required > 3
    requires connected != PyFalse
    ensures Status(connected, ConditionOutcome(required, threshold, read1, read2, read3)) == StateOk
  {
  }

  /**
   A device that answers every request with an error indication makes the probe None, so
   the check goes on, every sensor reads the sentinel and `control` reports OK without
   contacting any host.
   */
  lemma UnreachableDeviceReportsOk(device: PyValue, required: int, threshold: real)
    ensures var read := TemperatureOf(ErrorIndication);
      Status(DeviceMatch(Some(device), ErrorIndication), ConditionOutcome(required, threshold, read, read, read)) == StateOk
  {
    if 1 <= required <= 3 {
      AllSensorsFailedIsFalse(required, threshold);
    }
  }

  /**
   An answer whose value text is not a sign-and-digits numeral is not turned into the
   sentinel: the model reads it as raising, and the condition is None wherever that
   sensor stands.
   */
  lemma MalformedAnswerIsNone(text: string, required: int, threshold: real, other1: Reading, other2: Reading)
    requires ParseNumeral(TextAfter(text, ValueSeparator)).None?
    ensures TemperatureOf(Answer(text)) == ReadRaised
    ensures ConditionOutcome(required, threshold, TemperatureOf(Answer(text)), other1, other2) == PyNone
    ensures ConditionOutcome(required, threshold, other1, TemperatureOf(Answer(text)), other2) == PyNone
    ensures ConditionOutcome(required, threshold, other1, other2, TemperatureOf(Answer(text))) == PyNone
  {
  }

  /** A failed sensor with a requirement of 3: two hot working sensors suffice, and the check is CRITICAL. */
  lemma OneFailedSensorLowersRequirement()
    ensures ConditionOutcome(3, 60.0, Celsius(65.0), Celsius(70.0), Celsius(ErrorReading)) == PyTrue
    ensures Status(PyTrue, ConditionOutcome(3, 60.0, Celsius(65.0), Celsius(70.0), Celsius(ErrorReading))) == StateCritical
    ensures var ok := Quorum.OkFlags([65.0, 70.0, ErrorReading]);
      Quorum.EffectiveRequired(3, Quorum.Count(ok, false), Quorum.Count(ok, true)) == 2
  {
    var values := [65.0, 70.0, ErrorReading];
    assert Quorum.OkFlags(values) == [true, true, false];
    assert Quorum.TriggerFlags(values, 60.0) == [true, true, false];
  }

  /** Three sensors below the threshold with a requirement of 1: no shutdown, the check is OK. */
  lemma CoolSensorsReportOk()
    ensures ConditionOutcome(1, 60.0, Celsius(50.0), Celsius(55.0), Celsius(58.0)) == PyFalse
    ensures Status(PyTrue, ConditionOutcome(1, 60.0, Celsius(50.0), Celsius(55.0), Celsius(58.0))) == StateOk
  {
    var values := [50.0, 55.0, 58.0];
    assert Quorum.TriggerFlags(values, 60.0) == [false, false, false];
    assert Quorum.OkFlags(values) == [true, true, true];
  }
}
