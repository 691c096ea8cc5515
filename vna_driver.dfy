/**
 * `VNADriver`: one session with the Anritsu MS2026C/2 vector network analyzer
 * over VXI-11.  The session state is the driver's three private fields; the
 * instrument object it talks to is the `Transport` model, whose calls are
 * recorded in `log` and answered by `device`.
 */
module VnaDriver {
  import opened Wrappers
  import opened Identity
  import opened Decimal
  import opened Scpi
  import opened Calibration
  import opened Transport

  /** A `vxi11.Instrument` object, known by the address it was created for. */
  datatype Instrument = Instrument(address: string)

  const ConnectedMessage: string := "Connected to VNA device"
  const MismatchMessage: string := "Different device manufacturer and/or model!"
  const ConnectionErrorMessage: string := "VNA connection error!"

  /**
   * What `connect_to_vna` returns, or raises, for the outcome of its `*IDN?`
   * query: `except AssertionError` turns a mismatch into a refusal, `except
   * OSError` turns a socket error into a connection error, and the
   * `IndexError` of a one-field reply and a `Vxi11Exception` escape.
   */
  function ConnectOutcome(o: Outcome): (r: Py<(bool, string)>)
    ensures r == Return((true, ConnectedMessage))
      <==> o.Completed? && NamesExpectedDevice(Unquoted(o.reply))
    ensures r == Return((false, MismatchMessage))
      <==> o.Completed? && !NamesExpectedDevice(Unquoted(o.reply)) && Unquoted(o.reply) != Manufacturer
    ensures r == Return((false, ConnectionErrorMessage)) <==> o == Failed(SocketError)
    ensures r == Throw(IndexError) <==> o.Completed? && Unquoted(o.reply) == Manufacturer
    ensures r == Throw(TransportError(Vxi11Error)) <==> o == Failed(Vxi11Error)
    ensures r.Return? && r.value.0 ==> r.value.1 == ConnectedMessage
  {
    match o
    case Completed(reply) =>
      (match CheckIdentity(reply)
       case Genuine => Return((true, ConnectedMessage))
       case Mismatch => Return((false, MismatchMessage))
       case MissingModelField => Throw(IndexError))
    case Failed(SocketError) => Return((false, ConnectionErrorMessage))
    case Failed(Vxi11Error) => Throw(TransportError(Vxi11Error))
  }

  /**
   * What `check_calibration_status` returns for the outcome of its status
   * query: the mapped code, NO_DATA on a `Vxi11Exception`; a reply `int()`
   * rejects raises `ValueError` and a socket error escapes.
   */
  function CalibrationOutcome(o: Outcome): (r: Py<int>)
    ensures r.Return? ==> IsCalibrationStatus(r.value)
    ensures o == Failed(Vxi11Error) ==> r == Return(VnaCalNoData)
    ensures r == Throw(ValueError) <==> o.Completed? && ParseInt(o.reply).None?
    ensures r == Throw(TransportError(SocketError)) <==> o == Failed(SocketError)
    ensures o.Completed? && ParseInt(o.reply).Some? ==> r == Return(CalibrationStatus(ParseInt(o.reply).value))
  {
    match o
    case Completed(reply) =>
      (match ParseInt(reply)
       case None => Throw(ValueError)
       case Some(code) => Return(CalibrationStatus(code)))
    case Failed(Vxi11Error) => Return(VnaCalNoData)
    case Failed(SocketError) => Throw(TransportError(SocketError))
  }

  /** A device that answers the status query with the decimal text of its code gets that code's status. */
  lemma CalibrationOfDeviceCode(code: int)
    ensures CalibrationOutcome(Completed(IntToString(code))) == Return(CalibrationStatus(code))
  {
    IntToStringRoundTrip(code);
  }

  /**
   * What `get_trace` and `get_freq` return for the outcome of their query:
   * the reply verbatim, `None` on a `Vxi11Exception`; a socket error escapes.
   */
  function QueryOutcome(o: Outcome): (r: Py<Option<string>>)
    ensures r.Return? && r.value.Some? <==> o.Completed?
    ensures o.Completed? ==> r == Return(Some(o.reply))
    ensures r == Return(None) <==> o == Failed(Vxi11Error)
    ensures r.Throw? <==> o == Failed(SocketError)
  {
    match o
    case Completed(reply) => Return(Some(reply))
    case Failed(Vxi11Error) => Return(None)
    case Failed(SocketError) => Throw(TransportError(SocketError))
  }

  /** What `test_connection` returns: both transport exceptions are caught. */
  function TestOutcome(o: Outcome): (r: Py<bool>)
    ensures r.Return?
    ensures r.value <==> o.Completed?
  {
    Return(o.Completed?)
  }

  class VNADriver {
    /** `__instrument` */
    var instrument: Option<Instrument>
    /** `__vna_connected`, read through the `vna_connected` property */
    var vnaConnected: bool
    /** `__vna_ip`, read through the `vna_ip` property */
    var vnaIp: Option<string>

    /** Every call made on an instrument object, oldest first. */
    var log: seq<Event>
    /** The instrument on the network. */
    const device: Device

    /** The session invariant: connected exactly when an address is recorded, and never without an instrument. */
    ghost predicate Valid()
      reads this
    {
      && (vnaConnected <==> vnaIp.Some?)
      && (vnaConnected ==> instrument.Some?)
    }

    constructor (device: Device)
      ensures Valid()
      ensures instrument == None && !vnaConnected && vnaIp == None
      ensures log == [] && this.device == device
    {
      this.device := device;
      instrument := None;
      vnaConnected := false;
      vnaIp := None;
      log := [];
    }

    /** One call on the instrument object: the event is logged and the device answers it. */
    method Exchange(e: Event) returns (o: Outcome)
      modifies this`log
      ensures log == old(log) + [e]
      ensures o == device(log)
    {
      log := log + [e];
      o := device(log);
    }

    /**
     * `connect_to_vna(ip_addr)`: a new instrument object replaces the old
     * one in any case; the session becomes connected to `ipAddr` only when
     * the identity reply names the expected device, and otherwise keeps its
     * previous flag and address.
     */
    method ConnectToVna(ipAddr: string) returns (r: Py<(bool, string)>)
      requires Valid()
      modifies this
      ensures Valid()
      ensures instrument == Some(Instrument(ipAddr))
      ensures log == old(log) + [Attach(ipAddr), Ask(IdentityQuery)]
      ensures r == ConnectOutcome(device(log))
      ensures r == Return((true, ConnectedMessage)) ==> vnaConnected && vnaIp == Some(ipAddr)
      ensures r != Return((true, ConnectedMessage)) ==> vnaConnected == old(vnaConnected) && vnaIp == old(vnaIp)
    {
      instrument := Some(Instrument(ipAddr));
      log := log + [Attach(ipAddr)];
      var o := Exchange(Ask(IdentityQuery));
      r := ConnectOutcome(o);
      if r == Return((true, ConnectedMessage)) {
        vnaConnected := true;
        vnaIp := Some(ipAddr);
      }
    }

    /**
     * `disconnect_from_vna`: closes the instrument only if the session was
     * connected; always clears the session and returns `True`.
     */
    method DisconnectFromVna() returns (r: bool)
      requires Valid()
      modifies this
      ensures Valid() && r
      ensures !vnaConnected && vnaIp == None && instrument == None
      ensures log == if old(vnaConnected) then old(log) + [Close] else old(log)
    {
      if vnaConnected {
        log := log + [Close];
      }
      vnaConnected := false;
      vnaIp := None;
      instrument := None;
      r := true;
    }

    /** `test_connection`: `True` exactly when the identification query completes. */
    method TestConnection() returns (r: Py<bool>)
      modifies this`log
      ensures instrument == None ==> r == Throw(AttributeError) && log == old(log)
      ensures instrument != None ==> log == old(log) + [Ask(IdentityQuery)] && r == TestOutcome(device(log))
    {
      if instrument == None {
        return Throw(AttributeError);
      }
      var o := Exchange(Ask(IdentityQuery));
      r := TestOutcome(o);
    }

    /** `check_calibration_status`: the status for the code the instrument reports. */
    method CheckCalibrationStatus() returns (r: Py<int>)
      modifies this`log
      ensures instrument == None ==> r == Throw(AttributeError) && log == old(log)
      ensures instrument != None ==> log == old(log) + [Ask(CalibrationQuery)] && r == CalibrationOutcome(device(log))
    {
      if instrument == None {
        return Throw(AttributeError);
      }
      var o := Exchange(Ask(CalibrationQuery));
      r := CalibrationOutcome(o);
    }

    /**
     * `set_frequency_sweep(f_start, f_stop, n_points)`: the start, stop and
     * point-count writes in that order, without checking the values, up to
     * the first failure.
     */
    method SetFrequencySweep(fStart: int, fStop: int, nPoints: int) returns (r: Py<bool>)
      modifies this`log
      ensures instrument == None ==> r == Throw(AttributeError) && log == old(log)
      ensures instrument != None ==>
        var (events, result) := WriteChain(device, old(log), SweepCommands(fStart, fStop, nPoints));
        log == old(log) + events && r == result
    {
      if instrument == None {
        return Throw(AttributeError);
      }
      ghost var cmds := SweepCommands(fStart, fStop, nPoints);
      var o := Exchange(Write(FreqStartCommand(fStart)));
      if o.Failed? {
        return WriteFailureResult(o.failure);
      }
      WriteChainAfterCompleted(device, old(log), cmds);
      ghost var rest := cmds[1..];
      assert rest[0] == FreqStopCommand(fStop);
      o := Exchange(Write(FreqStopCommand(fStop)));
      if o.Failed? {
        return WriteFailureResult(o.failure);
      }
      WriteChainAfterCompleted(device, old(log) + [Write(cmds[0])], rest);
      assert rest[1..] == [SweepPointsCommand(nPoints)];
      o := Exchange(Write(SweepPointsCommand(nPoints)));
      if o.Failed? {
        return WriteFailureResult(o.failure);
      }
      assert log == old(log) + [Write(cmds[0]), Write(rest[0])] + [Write(rest[1..][0])];
      WriteChainAfterCompleted(device, old(log) + [Write(cmds[0]), Write(rest[0])], rest[1..]);
      assert rest[1..][1..] == [];
      r := Return(true);
    }

    /**
     * `set_trace(n_trace=1, s_param="S21", t_format="SMITh")`: the
     * S-parameter write, then the format write, up to the first failure.
     */
    method SetTrace(nTrace: int := 1, sParam: string := "S21", tFormat: string := "SMITh") returns (r: Py<bool>)
      modifies this`log
      ensures instrument == None ==> r == Throw(AttributeError) && log == old(log)
      ensures instrument != None ==>
        var (events, result) := WriteChain(device, old(log), TraceCommands(nTrace, sParam, tFormat));
        log == old(log) + events && r == result
    {
      if instrument == None {
        return Throw(AttributeError);
      }
      ghost var cmds := TraceCommands(nTrace, sParam, tFormat);
      var o := Exchange(Write(TraceParameterCommand(nTrace, sParam)));
      if o.Failed? {
        return WriteFailureResult(o.failure);
      }
      WriteChainAfterCompleted(device, old(log), cmds);
      assert cmds[1..] == [TraceFormatCommand(nTrace, tFormat)];
      o := Exchange(Write(TraceFormatCommand(nTrace, tFormat)));
      if o.Failed? {
        return WriteFailureResult(o.failure);
      }
      WriteChainAfterCompleted(device, old(log) + [Write(cmds[0])], cmds[1..]);
      assert cmds[1..][1..] == [];
      r := Return(true);
    }

    /** `get_trace(n_trace)`: the trace data reply, verbatim. */
    method GetTrace(nTrace: int) returns (r: Py<Option<string>>)
      modifies this`log
      ensures instrument == None ==> r == Throw(AttributeError) && log == old(log)
      ensures instrument != None ==> log == old(log) + [Ask(TraceDataQuery(nTrace))] && r == QueryOutcome(device(log))
    {
      if instrument == None {
        return Throw(AttributeError);
      }
      var o := Exchange(Ask(TraceDataQuery(nTrace)));
      r := QueryOutcome(o);
    }

    /** `get_freq(n_trace)`: the frequency data reply, verbatim. */
    method GetFreq(nTrace: int) returns (r: Py<Option<string>>)
      modifies this`log
      ensures instrument == None ==> r == Throw(AttributeError) && log == old(log)
      ensures instrument != None ==> log == old(log) + [Ask(FreqDataQuery(nTrace))] && r == QueryOutcome(device(log))
    {
      if instrument == None {
        return Throw(AttributeError);
      }
      var o := Exchange(Ask(FreqDataQuery(nTrace)));
      r := QueryOutcome(o);
    }
  }

  /** Disconnecting twice has the effect of disconnecting once: the second call closes nothing. */
  method DisconnectIsIdempotent(driver: VNADriver) returns (first: bool, second: bool)
    requires driver.Valid()
    modifies driver
    ensures first && second && driver.Valid()
    ensures !driver.vnaConnected && driver.vnaIp == None && driver.instrument == None
    ensures driver.log == if old(driver.vnaConnected) then old(driver.log) + [Close] else old(driver.log)
  {
    first := driver.DisconnectFromVna();
    second := driver.DisconnectFromVna();
  }
}
