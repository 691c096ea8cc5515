# VNA acquisition driver of the GPR-20 robot, in Dafny

This project models `VNADriver`, the class that controls an Anritsu MS2026C/2
vector network analyzer (VNA) over the VXI-11 protocol. It also models the
request handling of `VNANode`, the ROS node that exposes the driver as
services. The model follows the Python code branch by branch, under Python 3
exception semantics: `socket.error` is an alias of `OSError`.

- **Session.** The driver's three private fields are `__instrument`,
  `__vna_connected` and `__vna_ip`. They are the fields of the class
  `VnaDriver.VNADriver`. Its `Valid()` invariant says two things: the session
  is connected exactly when an address is recorded, and a connected session
  always has an instrument.
- **Transport.** The `vxi11.Instrument` object is modelled abstractly
  (module `Transport`). Each call on it is an `Event` appended to the field
  `log`: `Attach(ip)` for `Instrument(ip_addr)`, then `Ask`, `Write` and
  `Close`. The instrument (`device`) answers each `ask` or `write` with an
  `Outcome`. That outcome is a function of the log up to and including the
  call, so a scripted list of replies is a special case. A transport failure
  is a `Vxi11Exception` (`Vxi11Error`) or a `socket.error` (`SocketError`).
- **Python exceptions.** When an exception leaves a driver method, the
  method's result is `Throw(e)`. The cases are: the `IndexError` of a
  one-field identity reply; the `ValueError` of `int()` on a non-numeric
  calibration reply; the `AttributeError` of any query or write made while
  `__instrument` is `None`, which is before the first connect and after a
  disconnect; and each transport failure that no `except` clause names.
- **Identity check.** The reply to `*IDN?` (section 10.14 of IEEE 488.2) has
  every `"` removed and is split on `,`. Field 0 must then be `Anritsu` and
  field 1 `MS2026C/2` (module `Identity`, built on `Text`). This holds
  exactly when the unquoted reply starts with `Anritsu,MS2026C/2` followed by
  either the end of the text or a comma.
- **Command strings.** SCPI commands are a fixed mnemonic followed by
  Python's `str(n)` (module `Scpi`, built on `Decimal`). `Decimal` models both
  `str(n)` and `int(s)` and proves that Python's `int` reads `str(n)` back as
  `n`. How the instrument parses the numbers it receives is not modelled.
- **Calibration.** The calibration code maps to the four `VNA_CAL_*`
  constants (module `Calibration`).
- **Ordered writes.** Writes with early exit are modelled by
  `Transport.WriteChain`. `set_frequency_sweep` and `set_trace` are proved
  equal to it, and the lemma about it states the ordering and early-exit
  property.

Some behaviours of the code are easy to misread, and the model follows the
code in each:

- **Failed `connect_to_vna`.** After an identity mismatch or a connection
  error, the session keeps its previous `vna_connected` and `vna_ip`; it is
  not forced to "disconnected". `__instrument` has already been replaced by
  the new object. A failed reconnect from a connected session therefore
  leaves the old address recorded while the instrument object points at the
  new one.
- **Messages.** They are the code's own: `"Connected to VNA device"`,
  `"Different device manufacturer and/or model!"` and
  `"VNA connection error!"`.
- **No session.** `test_connection`, `check_calibration_status` and the other
  instrument calls do not check the session first. While `__instrument` is
  `None` (before the first connect and after a disconnect) they raise
  `AttributeError`. After a failed connect they still talk to the replaced
  instrument.
- **Malformed calibration reply.** `int()` raises `ValueError`, and that
  exception leaves the driver. It is not folded into NO_DATA.
- **Socket errors.** Only `test_connection` and `connect_to_vna` catch them.
  Everywhere else they leave the driver.

## Model

| member | source | states |
|---|---|---|
| Decimal.NatToString | src/gpr20_vna_acquisition/vna_driver.py:221 | `str(n)` of a natural number is a non-empty string of decimal digits with no leading zero |
| Decimal.IntToString | src/gpr20_vna_acquisition/vna_driver.py:221-227 | `str(i)` starts with `-` exactly for a negative `i`, and every other character is a digit |
| Decimal.ParseInt | src/gpr20_vna_acquisition/vna_driver.py:171-173 | `int(reply)` succeeds only on text that contains a digit; otherwise it raises `ValueError` (`None`) |
| Decimal.PaddedRoundTrip | src/gpr20_vna_acquisition/vna_driver.py:171-173 | `int()` reads `str(i)` back as `i` whatever run of spaces, tabs, line feeds, vertical tabs, form feeds and carriage returns surrounds it |
| Decimal.IntToStringRoundTrip | src/gpr20_vna_acquisition/vna_driver.py:221-227 | Python's `int` reads `str(i)` back as `i`, for every integer within the digit limit below |
| Decimal.IntToStringInjective | src/gpr20_vna_acquisition/vna_driver.py:221-227 | distinct integers give distinct `str` text |
| Text.RemoveChar | src/gpr20_vna_acquisition/vna_driver.py:65 | `replace('"', '')` leaves no `"`, keeps every other character as often as it occurred, so the length drops by exactly the number of quotes, and leaves quote-free text unchanged |
| Text.RemoveCharAppend | src/gpr20_vna_acquisition/vna_driver.py:65 | removing quotes distributes over concatenation |
| Text.Split | src/gpr20_vna_acquisition/vna_driver.py:68 | `split(',')` yields at least one field and no field contains the separator |
| Text.JoinSplit | src/gpr20_vna_acquisition/vna_driver.py:68 | joining the fields of a split with the separator restores the text |
| Text.SplitJoin | src/gpr20_vna_acquisition/vna_driver.py:68 | splitting a join of separator-free fields gives the fields back |
| Identity.CheckIdentity | src/gpr20_vna_acquisition/vna_driver.py:62-76 | both identity asserts hold exactly when the unquoted reply starts with `Anritsu,MS2026C/2` and the model field ends there or at a comma; the uncaught `IndexError` happens exactly when the unquoted reply is `Anritsu` alone; every other reply fails an assert |
| Identity.ExpectedDeviceFields | src/gpr20_vna_acquisition/vna_driver.py:68-76 | fields 0 and 1 of the split are `Anritsu` and `MS2026C/2` exactly when the text names that device |
| Identity.ManufacturerOnlyFields | src/gpr20_vna_acquisition/vna_driver.py:68-76 | the split is the single field `Anritsu` exactly when the text is `Anritsu` |
| Scpi.FramedArgumentRoundTrip | src/gpr20_vna_acquisition/vna_driver.py:221-227 | a number written with `str` between a fixed prefix and suffix reads back with `int` as that number, and the prefix and suffix are where they were put |
| Scpi.SweepCommandsReadBack | src/gpr20_vna_acquisition/vna_driver.py:221-227 | the sweep writes are `:SENS:FREQ:STAR `, `:SENS:FREQ:STOP ` and `:SENS:SWE:POIN ` in that order, each followed by text that reads back as the start, stop or point count |
| Scpi.TraceCommandsReadBack | src/gpr20_vna_acquisition/vna_driver.py:261-268 | the trace writes are `:SENS:TRACE<n>:SPAR <s>` then `:CALC<n>:FORM <f>`; in each the trace number reads back and the S-parameter or format ends the command |
| Scpi.DataQueriesReadBack | src/gpr20_vna_acquisition/vna_driver.py:297-327 | in `:CALC<n>:DATA? SDAT` and `:SENSE<n>:FREQ:DATA?` the trace number reads back |
| Scpi.TraceCommandsInjective | src/gpr20_vna_acquisition/vna_driver.py:261-268 | the two trace commands determine the trace number, the S-parameter and the format |
| Scpi.DataQueriesInjective | src/gpr20_vna_acquisition/vna_driver.py:297-327 | the trace-data and frequency-data queries determine the trace number |
| Calibration.CalibrationStatus | src/gpr20_vna_acquisition/vna_driver.py:176-192 | code 4 gives LOW, 3 or 2 give MID, 1 gives HIGH, and 0 or any other integer gives NO_DATA, as an exact partition |
| Transport.WriteChain | src/gpr20_vna_acquisition/vna_driver.py:218-236 | a `try` block of writes issues at most one write per command, starting with the first command, none only when there are none, and returns `True` only after writing them all |
| Transport.WriteChainStopsAtFirstFailure | src/gpr20_vna_acquisition/vna_driver.py:218-236 | writes go out in order as a prefix of the commands; every write but the last completed; the result is `True` exactly when all were written and completed; otherwise the last write failed and no later one was issued |
| VnaDriver.ConnectOutcome | src/gpr20_vna_acquisition/vna_driver.py:57-97 | `(True, "Connected to VNA device")` exactly for a reply naming the expected device; the mismatch message for any other reply except `Anritsu` alone; the connection-error message exactly for a socket error; `IndexError` or `Vxi11Exception` escape otherwise |
| VnaDriver.CalibrationOutcome | src/gpr20_vna_acquisition/vna_driver.py:167-198 | the result is always a status constant; a `Vxi11Exception` gives NO_DATA; a non-integer reply raises `ValueError` and a socket error escapes, each exactly then |
| VnaDriver.CalibrationOfDeviceCode | src/gpr20_vna_acquisition/vna_driver.py:171-192 | a device that reports a code as decimal text gets exactly that code's status |
| VnaDriver.QueryOutcome | src/gpr20_vna_acquisition/vna_driver.py:294-305 | a reply is returned verbatim; `None` exactly on a `Vxi11Exception`; a socket error escapes |
| VnaDriver.TestOutcome | src/gpr20_vna_acquisition/vna_driver.py:139-151 | `test_connection` never raises a transport error and returns `True` exactly when `*IDN?` completes |
| VnaDriver.VNADriver.constructor | src/gpr20_vna_acquisition/vna_driver.py:28-37 | no instrument, not connected, no address; the invariant holds |
| VnaDriver.VNADriver.ConnectToVna | src/gpr20_vna_acquisition/vna_driver.py:39-97 | attaches a new instrument and asks `*IDN?`; the result is `ConnectOutcome` of the reply; on success the session is connected to `ip_addr`; otherwise flag and address keep their old values; the invariant is kept |
| VnaDriver.VNADriver.DisconnectFromVna | src/gpr20_vna_acquisition/vna_driver.py:99-126 | always returns `True` and clears instrument, flag and address; `close` is logged only if the session was connected |
| VnaDriver.DisconnectIsIdempotent | src/gpr20_vna_acquisition/vna_driver.py:110-126 | two disconnects have the effect of one: the second closes nothing and leaves the same state |
| VnaDriver.VNADriver.TestConnection | src/gpr20_vna_acquisition/vna_driver.py:128-151 | asks `*IDN?` and returns whether it completed; changes no session field |
| VnaDriver.VNADriver.CheckCalibrationStatus | src/gpr20_vna_acquisition/vna_driver.py:153-198 | asks the calibration query and returns `CalibrationOutcome` of the reply; changes no session field |
| VnaDriver.VNADriver.SetFrequencySweep | src/gpr20_vna_acquisition/vna_driver.py:200-236 | the log grows by exactly the `WriteChain` of the start, stop and points commands, and the result is that chain's; no value checks and no session field changed |
| VnaDriver.VNADriver.SetTrace | src/gpr20_vna_acquisition/vna_driver.py:238-277 | the log grows by exactly the `WriteChain` of the S-parameter and format commands, with defaults 1, `S21` and `SMITh`, and the result is that chain's |
| VnaDriver.VNADriver.GetTrace | src/gpr20_vna_acquisition/vna_driver.py:279-305 | asks `:CALC<n>:DATA? SDAT` and returns `QueryOutcome` of the reply; changes no session field |
| VnaDriver.VNADriver.GetFreq | src/gpr20_vna_acquisition/vna_driver.py:307-333 | asks `:SENSE<n>:FREQ:DATA?` and returns `QueryOutcome` of the reply; changes no session field |
| VnaNode.SweepSetupAccepted | src/gpr20_vna_acquisition/vna_node.py:126-136 | a request passes exactly when `0 <= freq_points <= 4000`, `freq_stop >= 0` and `freq_start <= freq_stop`, so a negative start is accepted |
| VnaNode.ConnectStatus | src/gpr20_vna_acquisition/vna_node.py:89 | `connect_to_vna(...)[0]`: the status flag of a returned pair; an exception is passed on unchanged |
| VnaNode.ConnectStatusOfOutcome | src/gpr20_vna_acquisition/vna_node.py:88-96 | the connection service answers `True` exactly for a reply naming the expected device, `False` exactly for another device or a socket error, and passes on `IndexError` or `Vxi11Exception` exactly when `connect_to_vna` raises them |
| VnaNode.RespondWithData | src/gpr20_vna_acquisition/vna_node.py:164-177 | a returned driver result becomes a response whose flag is set exactly when data is present and which carries that data verbatim; an exception is passed on unchanged |
| VnaNode.DataResponseOf | src/gpr20_vna_acquisition/vna_node.py:164-177 | the flag is set exactly for a present payload, which is passed verbatim; an absent one gives `(False, "")` |
| VnaNode.DataResponseInjective | src/gpr20_vna_acquisition/vna_node.py:191-203 | distinct driver results give distinct responses, so an empty payload is never confused with a failure |
| VnaNode.VNANode.constructor | src/gpr20_vna_acquisition/vna_node.py:66-67 | the node owns a fresh driver in its initial state |
| VnaNode.VNANode.ConnectionHandler | src/gpr20_vna_acquisition/vna_node.py:72-96 | with `connection` set, attaches an instrument at the request's address, asks `*IDN?`, returns the first component of `connect_to_vna`'s result, is `True` only once connected to that address and otherwise keeps flag and address; without it, returns `disconnect_from_vna()`'s `True`, clears the session and logs `close` only if it was connected; the invariant is kept |
| VnaNode.VNANode.GetCalibrationStatusHandler | src/gpr20_vna_acquisition/vna_node.py:98-113 | passes the driver's calibration result through unchanged |
| VnaNode.VNANode.FreqSweepSetupHandler | src/gpr20_vna_acquisition/vna_node.py:115-149 | a rejected request returns `False` and sends nothing; an accepted one writes the sweep, then the default trace even after a failed sweep, and answers with the sweep's result; an exception from either call is passed on |
| VnaNode.VNANode.GetVnaDataHandler | src/gpr20_vna_acquisition/vna_node.py:151-177 | calls `get_trace(1)` and answers `(True, data)`, or `(False, "")` for `None` |
| VnaNode.VNANode.GetFreqDataHandler | src/gpr20_vna_acquisition/vna_node.py:179-203 | calls `get_freq(1)` and answers `(True, freq)`, or `(False, "")` for `None` |

## Left out

- The `vxi11` library is not part of this model: the RPC protocol, sockets, timeouts and what the `Instrument` object does inside. It is replaced by the event log and the `device` function.
- Identity.CheckIdentity: assumes assertions are enabled. Under `python -O` the two `assert` statements are removed, so every completed `*IDN?` reply connects and a reply of `Anritsu` alone no longer raises `IndexError`.
- `close()` is modelled as always succeeding. An exception it might raise during `disconnect_from_vna` is not modelled.
- VnaDriver.ConnectOutcome: treats a `Vxi11Exception` as not an `OSError`, so it escapes `connect_to_vna`. `socket.error` is `OSError` in Python 3 and is caught. Whether `Vxi11Exception` is an `OSError` is decided by the `vxi11` library, which is not part of this model.
- `Instrument(ip_addr)` is modelled as always succeeding. Connection failures surface at the `*IDN?` query, as the library opens its link lazily.
- Decimal.ParseInt: accepts ASCII digits and the six ASCII whitespace characters only. Python's `int()` first turns other Unicode decimal digits and Unicode whitespace into ASCII, and those are not modelled. The ASCII separators 0x1C to 0x1F are not whitespace to `int()`, and the model rejects them as well.
- Decimal.IntToString: does not model Python's limit on decimal conversions (`sys.int_max_str_digits`, 4300 digits by default since Python 3.11 and in the matching security releases). Beyond it `str(n)` and `int(s)` raise `ValueError`, while the model converts integers of any size.
- VnaDriver.VNADriver.SetFrequencySweep: because of that limit, a start, stop or point count of more than 4300 digits raises `ValueError` in `str()` just before the write that would carry it, after the earlier writes have gone out, and no `except` clause catches it. The model writes that command and any later ones instead. `SetTrace`, `GetTrace` and `GetFreq` convert an over-long trace number before their first call, so they raise before anything is sent, while the model sends their commands.
- VnaDriver.CalibrationOutcome: because of that limit, a calibration reply of more than 4300 digits raises `ValueError` in `int()`, and that exception leaves the driver. The model maps the number to its status instead.
- Sweep values and trace numbers are integers, as the driver's docstrings state. Python's `str` of a float or of any other type is not modelled.
- The `vna_connected` and `vna_ip` properties are the fields `vnaConnected` and `vnaIp` themselves.
- ROS plumbing is left out: `rospy.init_node`, the service registrations, `rospy.spin`, the `__del__` log line and the `gpr20_msgs` classes. Requests and responses are plain records.
- The trace and frequency payloads are opaque strings; decoding them is not modelled.
- Concurrency: the model treats handler calls as one at a time; rospy serves each service connection on its own thread, and concurrent calls into the same driver are not modelled.
