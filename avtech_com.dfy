/**
 The SNMP side of the plugin: the `RA32S` object that holds the connection
 parameters of an Avtech RoomAlert 32S environmental monitor, and its
 interpretation of the answers to two queries: the system description (is the
 expected device there?) and a temperature register (the reading in degrees
 Celsius, or the 999 sentinel when the device reports an error).

 The SNMP exchange itself is external: `SnmpAgent` stands for the network and
 the device, answers each request with an arbitrary outcome, and records the
 requests it was sent.
 */
module AvtechCom {
  import opened Wrappers
  import opened PyBuiltins

  /** The reading returned for any error the device or the transport reports. */
  const ErrorReading: real := 999.0

  /** What the reading text is cut at: the var-bind is printed as `<name> = <value>`. */
  const ValueSeparator: string := "= "

  /** Largest raw register value the device MIB allows (range 0..65535). */
  const MaxRegister: int := 65535

  /** The object queried: `SNMPv2-MIB::sysDescr.0` or `ROOMALERT32S-MIB::<channel>.0`. */
  datatype Oid = SysDescr | Register(channel: string)

  /** One SNMP GET as the object issues it: the community string, the target and the object. */
  datatype Request = Request(community: PyValue, host: PyValue, port: PyValue, oid: Oid)

  /**
   The first result of the pysnmp command generator:
   - `Raised`: building or running the request raised an exception;
   - `ErrorIndication`: a transport-level error (timeout, unknown host, ...);
   - `ErrorStatus(errorIndex, bindings)`: the agent answered with a non-zero error
     status, pointing at var-bind `errorIndex` (1-based, 0 for none) of `bindings` var-binds;
   - `Answer(text)`: the printed form of the first var-bind.
   */
  datatype SnmpOutcome =
    | Raised
    | ErrorIndication
    | ErrorStatus(errorIndex: int, bindings: nat)
    | Answer(text: string)

  /**
   Printing the error status evaluates `varBinds[int(errorIndex) - 1]` when the index
   is non-zero; that Python index (negative ones count from the end) may be out of range,
   which raises `IndexError`.
   */
  predicate ErrorReportRaises(errorIndex: int, bindings: nat) {
    errorIndex != 0 && !(-(bindings as int) <= errorIndex - 1 < bindings)
  }

  /** The result of a temperature read: a number, or an exception that escapes the read. */
  datatype Reading = Celsius(value: real) | ReadRaised

  /**
   The decision of `is_connected` for a given answer. With an answer, True exactly when the
   text after the first `"= "` equals the stored device string; False when the device string
   was never stored (reading it raises) or when anything raises; None after an error
   indication or a printable error status, because those branches fall through without
   returning a value.
   */
  function DeviceMatch(device: Option<PyValue>, outcome: SnmpOutcome): PyBool {
    match outcome
    case Raised => PyFalse
    case ErrorIndication => PyNone
    case ErrorStatus(index, bindings) => if ErrorReportRaises(index, bindings) then PyFalse else PyNone
    case Answer(text) =>
      var model := TextAfter(text, ValueSeparator);
      match device
      case None => PyFalse
      case Some(d) => if d == PyStr(model) then PyTrue else PyFalse
  }

  /**
   `is_connected` is True exactly for an answer naming the stored device, None exactly after
   an error indication or a printable error status, and False in every other case.
   */
  lemma DeviceMatchMeaning(device: Option<PyValue>, outcome: SnmpOutcome)
    ensures DeviceMatch(device, outcome) == PyTrue <==>
      outcome.Answer? && device == Some(PyStr(TextAfter(outcome.text, ValueSeparator)))
    ensures DeviceMatch(device, outcome) == PyNone <==>
      outcome.ErrorIndication? || (outcome.ErrorStatus? && !ErrorReportRaises(outcome.errorIndex, outcome.bindings))
    ensures DeviceMatch(device, outcome) == PyFalse <==>
      outcome.Raised? || (outcome.ErrorStatus? && ErrorReportRaises(outcome.errorIndex, outcome.bindings))
      || (outcome.Answer? && device != Some(PyStr(TextAfter(outcome.text, ValueSeparator))))
  {
  }

  /**
   The reading `read_di_temp_c` makes of an answer: 999 on an error indication or a
   printable error status, the sign-and-digits numeral after the first `"= "` divided by
   100 on success (any other value text is read as raising);
   it has no exception handler, so every exception escapes.
   */
  function TemperatureOf(outcome: SnmpOutcome): Reading {
    match outcome
    case Raised => ReadRaised
    case ErrorIndication => Celsius(ErrorReading)
    case ErrorStatus(index, bindings) => if ErrorReportRaises(index, bindings) then ReadRaised else Celsius(ErrorReading)
    case Answer(text) =>
      match ParseNumeral(TextAfter(text, ValueSeparator))
      case None => ReadRaised
      case Some(raw) => Celsius(raw as real / 100.0)
  }

  /** Every error the device reports that can be printed reads as exactly the sentinel. */
  lemma ErrorsReadAsSentinel(outcome: SnmpOutcome, device: Option<PyValue>)
    requires outcome.ErrorIndication? || (outcome.ErrorStatus? && !ErrorReportRaises(outcome.errorIndex, outcome.bindings))
    ensures TemperatureOf(outcome) == Celsius(ErrorReading)
    ensures DeviceMatch(device, outcome) == PyNone
  {
  }

  /** A reading other than an exception comes from an answer unless it is the sentinel. */
  lemma ReadingProvenance(outcome: SnmpOutcome)
    requires TemperatureOf(outcome).Celsius?
    ensures TemperatureOf(outcome).value != ErrorReading ==> outcome.Answer?
    ensures outcome.Answer? ==> ParseNumeral(TextAfter(outcome.text, ValueSeparator)).Some?
  {
  }

  /**
   The printed var-bind `<name> = <value>` of a register holding `raw` reads as `raw / 100`
   degrees, provided the name contains no `"= "` of its own.
   */
  lemma RegisterReading(name: string, raw: int)
    requires forall j: nat :: !OccursAt(name + " " + ValueSeparator, ValueSeparator, j) || j >= |name + " "|
    ensures TemperatureOf(Answer(name + " " + ValueSeparator + IntToString(raw))) == Celsius(raw as real / 100.0)
  {
    TextAfterFirstSeparator(name + " ", ValueSeparator, IntToString(raw));
    IntToStringRoundTrip(raw);
  }

  /**
   A successful reading of a register within the MIB range lies in 0..655.35 degrees and
   so can never be mistaken for the 999 sentinel.
   */
  lemma RegisterRangeExcludesSentinel(outcome: SnmpOutcome)
    requires outcome.Answer?
    requires ParseNumeral(TextAfter(outcome.text, ValueSeparator)).Some?
    requires 0 <= ParseNumeral(TextAfter(outcome.text, ValueSeparator)).value <= MaxRegister
    ensures TemperatureOf(outcome).Celsius?
    ensures 0.0 <= TemperatureOf(outcome).value <= 655.35
    ensures TemperatureOf(outcome).value != ErrorReading
  {
  }

  /** The device identifies itself as `model` exactly when `model` is the stored device string. */
  lemma DeviceIdentification(name: string, model: string, device: string)
    requires forall j: nat :: !OccursAt(name + " " + ValueSeparator, ValueSeparator, j) || j >= |name + " "|
    ensures DeviceMatch(Some(PyStr(device)), Answer(name + " " + ValueSeparator + model)) == PyTrue <==> device == model
    ensures DeviceMatch(None, Answer(name + " " + ValueSeparator + model)) == PyFalse
  {
    TextAfterFirstSeparator(name + " ", ValueSeparator, model);
  }

  /**
   The network and the device behind it. `respond(k, q)` is the outcome of the `k`-th
   request of the run when it is `q`; `requests` lists the requests sent so far.
   */
  class SnmpAgent {
    var requests: seq<Request>
    const respond: (nat, Request) -> SnmpOutcome

    constructor (respond: (nat, Request) -> SnmpOutcome)
      ensures requests == [] && this.respond == respond
    {
      requests := [];
      this.respond := respond;
    }

    /** `next(getCmd(...))`: send one request and take its outcome. */
    method Get(q: Request) returns (outcome: SnmpOutcome)
      modifies this
      ensures requests == old(requests) + [q]
      ensures outcome == respond(|old(requests)|, q)
    {
      outcome := respond(|requests|, q);
      requests := requests + [q];
    }
  }

  /** The connection to one RoomAlert 32S: stored parameters only, no open socket. */
  class RA32S {
    var port: PyValue
    var host: PyValue
    var community: PyValue
    var version: PyValue
    /** The expected device description; `None` until `Open` stores one (the attribute does not exist). */
    var device: Option<PyValue>

    constructor ()
      ensures port == PyInt(0) && host == PyInt(0) && community == PyInt(0) && version == PyInt(0)
      ensures device == None
    {
      port, host, community, version := PyInt(0), PyInt(0), PyInt(0), PyInt(0);
      device := None;
    }

    /** Stores the five parameters unchanged; nothing is sent. */
    method Open(version: PyValue, community: PyValue, host: PyValue, port: PyValue, device: PyValue)
      modifies this
      ensures this.port == port && this.host == host && this.community == community
      ensures this.version == version && this.device == Some(device)
    {
      this.port := port;
      this.host := host;
      this.community := community;
      this.version := version;
      this.device := Some(device);
    }

    /**
     The request this object sends for `oid`. The stored version plays no part: the
     request is always built for SNMPv1 (message-processing model 0).
     */
    function Query(oid: Oid): Request
      reads this
    {
      Request(community, host, port, oid)
    }

    /** `is_connected`: ask for the system description and compare it with the device string. */
    method IsConnected(agent: SnmpAgent) returns (r: PyBool)
      modifies agent
      ensures agent.requests == old(agent.requests) + [Query(SysDescr)]
      ensures r == DeviceMatch(device, agent.respond(|old(agent.requests)|, Query(SysDescr)))
    {
      var outcome := agent.Get(Query(SysDescr));
      r := DeviceMatch(device, outcome);
    }

    /** `read_di_temp_c`: read the temperature register of `channel`. */
    method ReadDiTempC(agent: SnmpAgent, channel: string) returns (r: Reading)
      modifies agent
      ensures agent.requests == old(agent.requests) + [Query(Register(channel))]
      ensures r == TemperatureOf(agent.respond(|old(agent.requests)|, Query(Register(channel))))
    {
      var outcome := agent.Get(Query(Register(channel)));
      r := TemperatureOf(outcome);
    }
  }
}
