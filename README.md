# check_tss: thermal server shutdown, modelled in Dafny

This project models the decision core of `check_tss`, a Nagios plugin. The plugin polls an
Avtech RoomAlert 32S environmental monitor over SNMP for three temperature sensors. It votes
on whether enough working sensors are above a shutdown temperature, and if they are it sends
the `emergency_shutdown` command through NRPE (Nagios Remote Plugin Executor) to every
configured host. The result is a Nagios status code (0 OK, 2 CRITICAL, 3 UNKNOWN).

Modules, one per concern:

- `Wrappers` (`wrappers.dfy`): `Option`.
- `PyBuiltins` (`py_builtins.dfy`): the Python behaviour the code depends on.
  - `PyBool` is the three values `True`/`False`/`None`, with truthiness (`not x`) and `x == False`.
  - `PyValue` is a parameter that is either the integer 0 of a fresh object or a configuration string.
  - `str.partition` is `Partition`, built on `FirstOccurrence`.
  - `str(int)` is `IntToString`.
  - The text-to-number conversion is `ParseNumeral`.
- `AvtechCom` (`avtech_com.dfy`): the `RA32S` class and how it reads an SNMP answer.
  - `RA32S` keeps the fields `port`, `host`, `community`, `version` and `device`.
    `device` is an `Option`, because the attribute does not exist until `open` runs.
  - `DeviceMatch` is the decision of `is_connected`.
  - `TemperatureOf` is the reading of `read_di_temp_c`.
  - `SnmpAgent` stands for the network and the device. It answers the k-th request with an
    arbitrary outcome `respond(k, request)` and logs every request it receives.
- `Quorum` (`quorum.dfy`): the specification of the vote.
  - `OkFlags` and `TriggerFlags` are the lists `sensor_ok` and `sensor_trig`; `Count` is `list.count`.
  - `EffectiveRequired` is the lowered requirement; `ShutdownVote` is the vote itself.
- `Control` (`control.dfy`): the three functions of `control.py`.
  - `CheckShutdownCondition` reads the sensors. `Vote` fills two boolean arrays in loops, as the Python code does.
  - `ExecuteNrpe` builds the `check_nrpe` argument vector and maps a failed launch to the `["Error executing check_nrpe!", 2]` result.
  - `RunControl` is `control`, split into `Connect` and `EvaluateAndDispatch`; `Dispatch` is its per-host loop.
  - `ProcessRunner` stands for the operating system. It records every argument vector it launches.

Behaviour of the code that a reader may not expect, and that the model reproduces:

- A required sensor count outside 1..3 makes `check_shutdown_condition` return `None`.
  `control` tests that value with `not`, so it reports OK, not UNKNOWN (`InvalidRequirementReportsOk`).
- After an error indication, `is_connected` falls through and returns `None`, not `False`.
  `control` compares with `== False`, so it does not stop at CRITICAL. For a device that
  answers no request (every request ends in an error indication), every sensor also reads
  999, so the vote is False and the plugin reports OK (`UnreachableDeviceReportsOk`). A
  probe that raises instead gives False, and the status is then CRITICAL.
- The UNKNOWN branch after `elif shutdown_required` can never be taken (`Status`).
- A read whose answer `np.float64` cannot convert raises, and the exception is not turned
  into 999. `MalformedAnswerIsNone` states this for every value text that is not a
  sign-and-digits numeral; the model reads some texts as raising that `np.float64` accepts
  (see "## Left out").
- An error status whose index points outside the var-binds makes the code that prints it raise
  `IndexError`. `is_connected` catches that and gives False. In `read_di_temp_c` it escapes,
  so `check_shutdown_condition` gives None.
- `open` stores the SNMP version, but every request is built for SNMPv1.

In `check_tss/lib/main.py`, the call to `control` passes a `Shutdown_Message` keyword that
`control` does not accept. main.py is not part of this model.

## Model

| member | source | states |
|---|---|---|
| `PyBuiltins.PyBool.Truthy` | check_tss/lib/control.py:161-164 | the truth value `not x` and `elif x` test: only `True` is truthy, `None` and `False` are not |
| `PyBuiltins.PyBool.EqualsFalse` | check_tss/lib/control.py:149 | `x == False`: holds for `False` only, not for `None` |
| `PyBuiltins.FirstOccurrence` | check_tss/lib/avtech_com.py:106 | the position found is an occurrence of the separator and no earlier position is one; `None` only when the separator occurs nowhere |
| `PyBuiltins.Partition` | check_tss/lib/avtech_com.py:106 | `str.partition`: the three parts concatenate back to the input; the middle part is the separator, or it is empty and so is the tail; there is no occurrence before the cut, and when the separator was found it occurs exactly at the cut |
| `PyBuiltins.TextAfter` | check_tss/lib/avtech_com.py:106 | computes `s.partition(sep)[2]`, the text after the first separator, or the empty string when there is none; `TextAfterFirstSeparator` states what it gives for a printed var-bind |
| `PyBuiltins.TextAfterFirstSeparator` | check_tss/lib/avtech_com.py:153 | when the separator occurs in `prefix + sep` only at its end, the text after the first `"= "` of `prefix + sep + tail` is `tail` |
| `PyBuiltins.NatToDigits` | check_tss/lib/control.py:37 | `str` of a natural number is a non-empty string of decimal digits with no leading zero: neither the digits of a positive number nor a string of two or more digits starts with `0` |
| `PyBuiltins.DigitsRoundTrip` | check_tss/lib/control.py:37 | the digits that `str` gives for a natural number denote that number again |
| `PyBuiltins.IntToString` | check_tss/lib/control.py:37 | computes `str(n)` for a Python `int`: a minus sign for a negative number, then the digits of its magnitude from `NatToDigits`; `IntToStringRoundTrip` states that it reads back as `n` |
| `PyBuiltins.ParseNumeral` | check_tss/lib/avtech_com.py:153 | computes the number a value text denotes when it is an optional sign followed by one or more decimal digits, and `None` for every other text, which the model reads as raising; `np.float64` also accepts decimal points, exponents, blanks, underscores, `inf` and `nan`, so for a text such as `12.5` the source gives a number where the model raises; `IntToStringRoundTrip` ties it to `IntToString` |
| `PyBuiltins.IntToStringRoundTrip` | check_tss/lib/control.py:37 | converting `str(n)` back to a number gives `n` again, for every integer |
| `AvtechCom.DeviceMatchMeaning` | check_tss/lib/avtech_com.py:94-114 | `is_connected` is True exactly for an answer whose text after the first `"= "` equals the stored device string; it is None exactly after an error indication or a printable error status; in every other case it is False: an exception, a missing device attribute, or a different device |
| `AvtechCom.DeviceMatch` | check_tss/lib/avtech_com.py:94-114 | computes the value `is_connected` returns for one outcome of the `sysDescr` GET: False for an exception or a missing device attribute, None for an error indication or a printable error status, and for an answer True or False by comparing the text after `"= "` with the stored device; `DeviceMatchMeaning` states each value as an iff |
| `AvtechCom.ErrorReportRaises` | check_tss/lib/avtech_com.py:100-101 | decides whether printing an error status raises: the index is non-zero and `int(errorIndex) - 1` is outside the Python index range `-len(varBinds)..len(varBinds)-1`; the same expression is at avtech_com.py:148 |
| `AvtechCom.DeviceIdentification` | check_tss/lib/avtech_com.py:103-112 | for a printed var-bind `<name> = <model>`, the device matches exactly when the stored device string is `model`; an object whose device was never stored never matches |
| `AvtechCom.ErrorsReadAsSentinel` | check_tss/lib/avtech_com.py:144-149 | an error indication or an error status that prints without raising reads as exactly 999.0, and the same outcomes make the probe None whatever device string is stored |
| `AvtechCom.ReadingProvenance` | check_tss/lib/avtech_com.py:143-155 | a numeric reading other than 999 comes only from an answer, and an answer gives a number only when its value text is a sign-and-digits numeral |
| `AvtechCom.TemperatureOf` | check_tss/lib/avtech_com.py:143-155 | computes what `read_di_temp_c` gives for one outcome of the register GET: 999.0 for an error indication or a printable error status, an escaping exception for an exception, an unprintable error status or a value text that is not a sign-and-digits numeral (modelled as raising), and the value text divided by 100 otherwise; `ErrorsReadAsSentinel`, `ReadingProvenance`, `RegisterReading` and `RegisterRangeExcludesSentinel` state its properties |
| `AvtechCom.RegisterReading` | check_tss/lib/avtech_com.py:150-155 | the printed var-bind `<name> = str(raw)` reads as `raw / 100` degrees |
| `AvtechCom.RegisterRangeExcludesSentinel` | check_tss/etc/ROOMALERT32S-MIB.py:64 | a raw value in the MIB range 0..65535 reads as a number in 0..655.35, so it is never the 999 sentinel |
| `AvtechCom.SnmpAgent.Get` | check_tss/lib/avtech_com.py:86-94 | one SNMP GET: the request is appended to the log and the outcome is that of the k-th request |
| `AvtechCom.RA32S.constructor` | check_tss/lib/avtech_com.py:41-46 | port, host, community and version are 0, and the device attribute is absent |
| `AvtechCom.RA32S.Open` | check_tss/lib/avtech_com.py:56-73 | the five arguments are stored unchanged, and nothing is sent |
| `AvtechCom.RA32S.Query` | check_tss/lib/avtech_com.py:86-92 | computes the GET request for an object identifier from the stored community, host and port; the stored version plays no part, as the request always uses SNMPv1 (`mpModel=0`) |
| `AvtechCom.RA32S.IsConnected` | check_tss/lib/avtech_com.py:77-114 | sends exactly one `sysDescr` request built from the stored parameters, and returns `DeviceMatch` of the stored device and the answer |
| `AvtechCom.RA32S.ReadDiTempC` | check_tss/lib/avtech_com.py:118-155 | sends exactly one request for the channel's register, and returns `TemperatureOf` of the answer |
| `Quorum.FailedAreMarked` | check_tss/lib/control.py:91-95 | the failed sensors counted in `sensor_ok` are the readings equal to 999.0, and the working ones are all the rest |
| `Quorum.ClassifyReading` | check_tss/lib/control.py:91-102 | a 999.0 reading is neither working nor triggered; a reading at or below the threshold never triggers; a working reading triggers iff it is strictly above the threshold |
| `Quorum.OkFlags` | check_tss/lib/control.py:91-95 | computes `sensor_ok`: one flag per reading, true exactly when the reading is not 999.0; `FailedAreMarked` and `ClassifyReading` state its properties |
| `Quorum.TriggerFlags` | check_tss/lib/control.py:97-102 | computes `sensor_trig`: one flag per reading, true exactly when the reading is working and strictly above the threshold; `TriggeredAreWorking` and `ClassifyReading` state its properties |
| `Quorum.Count` | check_tss/lib/control.py:108 | computes `list.count` of a boolean value in a flag list; `CountSplit` states that the true and false counts add up to the length |
| `Quorum.TriggeredAreWorking` | check_tss/lib/control.py:97-102 | the triggered sensors never outnumber the working sensors |
| `Quorum.EffectiveRequiredBounds` | check_tss/lib/control.py:104-109 | for a requirement in 1..n: the lowered requirement lies between 1 and the original; it is at most the number of working sensors, or 1 when none work; it is unchanged with no failures or with enough working sensors; otherwise it is `max(required - failed, 1)` |
| `Quorum.ThreeSensorsAdjustToAvailable` | check_tss/lib/control.py:104-109 | with three sensors and a requirement in 1..3, the lowered requirement is exactly `min(required, max(working, 1))`, i.e. the requirement adjusted to the number of available sensors with a floor of 1 |
| `Quorum.EffectiveRequired` | check_tss/lib/control.py:108-109 | computes the reassigned `N_Sensors`: `max(N - failed, 1)` when some sensor failed and more sensors are required than work, else `N` unchanged; `EffectiveRequiredBounds`, `ThreeSensorsAdjustToAvailable` and `DegradationMonotone` state its properties |
| `Quorum.DegradationMonotone` | check_tss/lib/control.py:104-109 | more failures among the same sensors never raise the effective requirement, which never exceeds the original |
| `Quorum.AllFailedNoShutdown` | check_tss/lib/control.py:104-115 | when every reading is 999.0, no requirement of at least 1 calls for a shutdown |
| `Quorum.NoFailuresVote` | check_tss/lib/control.py:108-115 | without failed sensors, the vote is True iff at least `required` readings are strictly above the threshold |
| `Quorum.ShutdownVote` | check_tss/lib/control.py:112-115 | decides the vote: the number of triggered sensors is at least the effective requirement; `Control.Vote` is proved equal to it, and `NoFailuresVote` and `AllFailedNoShutdown` state its properties |
| `Quorum.TriggeredWithoutFailures` | check_tss/lib/control.py:97-102 | without failed sensors, the triggered sensors are exactly the readings above the threshold |
| `Control.Vote` | check_tss/lib/control.py:91-115 | the two flag loops, the reduction and the comparison give True iff the triggered count reaches the effective requirement (`Quorum.ShutdownVote`) |
| `Control.ConditionOutcomeMeaning` | check_tss/lib/control.py:56-119 | the shutdown condition is None exactly when the requirement is outside 1..3 or a read raised; True needs three numeric readings; with three readings and a valid requirement it is True exactly when the vote holds |
| `Control.ConditionOutcome` | check_tss/lib/control.py:81-119 | computes the value of `check_shutdown_condition` from the requirement, the threshold and the three read results: None for a requirement outside 1..3 or a read that raised, otherwise True or False by `ShutdownVote`; `ConditionOutcomeMeaning` states each value as an iff |
| `Control.SensorRequests` | check_tss/lib/control.py:81-88 | computes the register requests `check_shutdown_condition` sends: none for a requirement outside 1..3, otherwise the three channels in order, cut after the first read that raised |
| `Control.CheckShutdownCondition` | check_tss/lib/control.py:56-119 | the result is the condition of the three channel reads. A requirement outside 1..3 sends no request; otherwise the three channels are read in order, and reading stops after the first read that raised |
| `Control.AllSensorsFailedIsFalse` | check_tss/lib/control.py:86-115 | with all three readings at 999.0, the condition is False for every requirement in 1..3 |
| `Control.MalformedAnswerIsNone` | check_tss/lib/control.py:117-119 | an answer whose value text is not a sign-and-digits numeral is read as raising instead of reading 999, and the condition is then None wherever that sensor stands (for texts such as `12.5` that `np.float64` accepts, the source does not raise) |
| `Control.OneFailedSensorLowersRequirement` | check_tss/lib/control.py:104-115 | readings 65, 70 and 999 with threshold 60 and requirement 3: the requirement drops to 2, the condition is True, and the status is CRITICAL |
| `Control.CoolSensorsReportOk` | check_tss/lib/control.py:97-115 | readings 50, 55 and 58 with threshold 60 and requirement 1: the condition is False and the status is OK |
| `Control.NrpeArgvCarriesCall` | check_tss/lib/control.py:33-37 | the argument vector is `<path>/check_nrpe -H host -p port -c command -t 2`, and its port text reads back as the port |
| `Control.NrpeArgv` | check_tss/lib/control.py:33-37 | computes the argument vector `[path + "/check_nrpe", "-H", host, "-p", str(port), "-c", command, "-t", "2"]`; `NrpeArgvCarriesCall` states its shape and that the port reads back |
| `Control.ProcessRunner.Run` | check_tss/lib/control.py:36-40 | one process launch: the argument vector is logged and the outcome is that of the k-th launch |
| `Control.ExecuteNrpe` | check_tss/lib/control.py:10-53 | launches exactly one `check_nrpe` with that argument vector; returns the output and exit code on completion, and `["Error executing check_nrpe!", 2]` if the launch raised |
| `Control.Status` | check_tss/lib/control.py:147-171 | CRITICAL iff the probe result is False or the decision is True; otherwise OK, which covers a None decision and a None probe; never UNKNOWN and never WARNING |
| `Control.InvalidRequirementReportsOk` | check_tss/lib/control.py:154-163 | an invalid requirement gives None, which `control` reports as OK unless the probe result was False |
| `Control.UnreachableDeviceReportsOk` | check_tss/lib/control.py:147-163 | when every request ends in an error indication, the probe is None and all three readings are 999, so the status is OK |
| `Control.ShutdownCalls` | check_tss/lib/control.py:165-166 | one argument vector per host, in host-list order, each for `emergency_shutdown` with the default path and port |
| `Control.Dispatch` | check_tss/lib/control.py:164-166 | `execute_nrpe` runs exactly once per host, in order, whatever each call returns |
| `Control.Connect` | check_tss/lib/control.py:142-147 | a fresh `RA32S` holds the given parameters, and one probe request has been sent |
| `Control.EvaluateAndDispatch` | check_tss/lib/control.py:153-171 | when the probe was not False: the sensor requests are sent, the status is `Status` of the decision, and the hosts are contacted exactly when the decision is True |
| `Control.RunControl` | check_tss/lib/control.py:126-171 | the status is `Status` of the probe result and the condition. A probe result of False stops after the probe, with no sensor read and no host contacted. Otherwise the sensor reads follow, and every host gets the shutdown command exactly when the condition is True |

## Left out

- The SNMP transport (`getCmd`, `SnmpEngine`, `UdpTransportTarget`, OID resolution) is not modelled. `SnmpAgent` stands in for it: an arbitrary outcome for each request.
- `subprocess.run` is not modelled. `ProcessRunner` stands in for it: an arbitrary completion or exception for each launch.
- Floating point is not modelled. Readings and the threshold are exact `real`s, and `/ 100.0` is exact division.
- PyBuiltins.ParseNumeral, AvtechCom.TemperatureOf, AvtechCom.RA32S.ReadDiTempC, Control.MalformedAnswerIsNone: a numeral is read only as an optional sign followed by decimal digits. `np.float64` also accepts decimal points, exponents, surrounding blanks, underscores, `inf` and `nan`; the model treats those texts as raising. The device's integer registers print as plain integers.
- The success branches assume a first var-bind exists and model only its printed text. The `IndexError` of an empty var-bind list is not modelled.
- The exception handlers of `control` are not modelled. These are the `KeyboardInterrupt` branch, which deletes the object and returns UNKNOWN, and the generic `Exception` branch, whose string concatenation itself raises. Neither is decision logic, and nothing in the model raises out of `control`.
- AvtechCom.RA32S.Open: the default arguments of `open` (`SNMP_VERSION = 2`, `'public'`, `'10.2.3.15'`, `161`, `'AVTECH RoomAlert 32S'`) are not modelled. `Open` takes all five explicitly, as `control` always passes them.
- The `__del__` destructor of `RA32S` does nothing and is not modelled.
- All printed messages are not modelled.
- check_tss/lib/main.py (configuration parsing and start-up) is not part of this model.
- check_tss/lib/test.py (a one-off SNMP probe) is not part of this model.
- check_tss/etc/ROOMALERT32S-MIB.py (a generated OID table) is not part of this model. Only its 0..65535 value range is used.
- `str(x)` on hosts and commands is the identity, because they are strings. The port is a Python `int` and goes through `IntToString`.
