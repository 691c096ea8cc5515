/**
 * The request handling of `VNANode`, the ROS node in front of the driver:
 * each handler maps a request record to driver calls and the driver's results
 * to a response record.  Service registration and the ROS runtime are not
 * modelled; an exception that leaves a handler is its `Throw` result.
 */
module VnaNode {
  import opened Wrappers
  import opened Scpi
  import opened Transport
  import opened VnaDriver
  import opened Identity

  datatype ConnectionRequest = ConnectionRequest(connection: bool, ipAddr: string)
  datatype SweepSetupRequest = SweepSetupRequest(freqStart: int, freqStop: int, freqPoints: int)
  /** The response of the data and the frequency services: a flag and the payload. */
  datatype DataResponse = DataResponse(success: bool, data: string)

  const MaxFreqPoints: int := 4000

  /**
   * The sweep handler's three checks in the order it makes them.  The start
   * frequency is only compared with the stop frequency, so a negative start
   * passes.
   */
  function SweepSetupAccepted(req: SweepSetupRequest): (accepted: bool)
    ensures accepted <==>
      && 0 <= req.freqPoints <= MaxFreqPoints
      && 0 <= req.freqStop
      && req.freqStart <= req.freqStop
  {
    if req.freqPoints < 0 || req.freqPoints > MaxFreqPoints then false
    else if req.freqStop < 0 then false
    else if req.freqStart > req.freqStop || req.freqStop < 0 then false
    else true
  }

  /** The response for a driver result: the payload with `True`, or `(False, "")` for `None`. */
  function DataResponseOf(data: Option<string>): (resp: DataResponse)
    ensures resp.success <==> data.Some?
    ensures data.Some? ==> resp.data == data.value
    ensures data.None? ==> resp.data == ""
  {
    if data.Some? then DataResponse(true, data.value) else DataResponse(false, "")
  }

  /**
   * No driver result is lost in the response: an empty payload that was
   * read is told apart from a failed read by the flag.
   */
  lemma DataResponseInjective(a: Option<string>, b: Option<string>)
    requires DataResponseOf(a) == DataResponseOf(b)
    ensures a == b
  {
    if a.Some? {
      assert DataResponseOf(b).success;
    }
  }

  /** A handler's response from a driver result, with an exception passed on. */
  function RespondWithData(result: Py<Option<string>>): (r: Py<DataResponse>)
    ensures r.Return? <==> result.Return?
    ensures result.Return? ==> (r.value.success <==> result.value.Some?)
    ensures result.Return? && result.value.Some? ==> r.value.data == result.value.value
    ensures result.Throw? ==> r == Throw(result.error)
  {
    match result
    case Return(data) => Return(DataResponseOf(data))
    case Throw(e) => Throw(e)
  }

  /** The first component of `connect_to_vna`'s pair, with an exception passed on. */
  function ConnectStatus(result: Py<(bool, string)>): (r: Py<bool>)
    ensures r.Return? <==> result.Return?
    ensures result.Return? ==> r.value == result.value.0
    ensures result.Throw? ==> r == Throw(result.error)
  {
    match result
    case Return(pair) => Return(pair.0)
    case Throw(e) => Throw(e)
  }

  /**
   * What the connection service answers for the outcome of the
   * identification query: `True` exactly for the expected instrument,
   * `False` for another instrument or a socket error, and the exceptions of
   * `connect_to_vna` otherwise.
   */
  lemma ConnectStatusOfOutcome(o: Outcome)
    ensures ConnectStatus(ConnectOutcome(o)) == Return(true)
      <==> o.Completed? && NamesExpectedDevice(Unquoted(o.reply))
    ensures ConnectStatus(ConnectOutcome(o)) == Return(false)
      <==> (|| o == Failed(SocketError)
            || (o.Completed? && !NamesExpectedDevice(Unquoted(o.reply)) && Unquoted(o.reply) != Manufacturer))
    ensures ConnectStatus(ConnectOutcome(o)) == Throw(IndexError)
      <==> o.Completed? && Unquoted(o.reply) == Manufacturer
    ensures ConnectStatus(ConnectOutcome(o)) == Throw(TransportError(Vxi11Error)) <==> o == Failed(Vxi11Error)
  {
  }

  class VNANode {
    /** `__vna_driver` */
    const vnaDriver: VNADriver

    constructor (device: Device)
      ensures fresh(vnaDriver) && vnaDriver.Valid()
      ensures vnaDriver.device == device && vnaDriver.log == []
      ensures vnaDriver.instrument == None && !vnaDriver.vnaConnected && vnaDriver.vnaIp == None
    {
      vnaDriver := new VNADriver(device);
    }

    /** `__connection_handler`: connect to the request's address, or disconnect. */
    method ConnectionHandler(req: ConnectionRequest) returns (r: Py<bool>)
      requires vnaDriver.Valid()
      modifies vnaDriver
      ensures vnaDriver.Valid()
      ensures req.connection ==>
        && vnaDriver.log == old(vnaDriver.log) + [Attach(req.ipAddr), Ask(IdentityQuery)]
        && r == ConnectStatus(ConnectOutcome(vnaDriver.device(vnaDriver.log)))
        && vnaDriver.instrument == Some(Instrument(req.ipAddr))
        && (r == Return(true) ==> vnaDriver.vnaConnected && vnaDriver.vnaIp == Some(req.ipAddr))
        && (r != Return(true) ==>
              vnaDriver.vnaConnected == old(vnaDriver.vnaConnected) && vnaDriver.vnaIp == old(vnaDriver.vnaIp))
      ensures !req.connection ==>
        && r == Return(true)
        && !vnaDriver.vnaConnected && vnaDriver.vnaIp == None && vnaDriver.instrument == None
        && vnaDriver.log == if old(vnaDriver.vnaConnected) then old(vnaDriver.log) + [Close] else old(vnaDriver.log)
    {
      if req.connection {
        var result := vnaDriver.ConnectToVna(req.ipAddr);
        r := ConnectStatus(result);
      } else {
        var status := vnaDriver.DisconnectFromVna();
        r := Return(status);
      }
    }

    /** `__get_calibration_status_handler`: the driver's status, unchanged. */
    method GetCalibrationStatusHandler() returns (r: Py<int>)
      modifies vnaDriver`log
      ensures vnaDriver.instrument == None ==> r == Throw(AttributeError) && vnaDriver.log == old(vnaDriver.log)
      ensures vnaDriver.instrument != None ==>
        && vnaDriver.log == old(vnaDriver.log) + [Ask(CalibrationQuery)]
        && r == CalibrationOutcome(vnaDriver.device(vnaDriver.log))
    {
      r := vnaDriver.CheckCalibrationStatus();
    }

    /**
     * `__freq_sweep_setup_handler`: a rejected request leaves the driver
     * alone; an accepted one sets the sweep, then the default trace whatever
     * the sweep's result, and answers with the sweep's result.
     */
    method FreqSweepSetupHandler(req: SweepSetupRequest) returns (r: Py<bool>)
      modifies vnaDriver`log
      ensures !SweepSetupAccepted(req) ==> r == Return(false) && vnaDriver.log == old(vnaDriver.log)
      ensures SweepSetupAccepted(req) && vnaDriver.instrument == None ==>
        r == Throw(AttributeError) && vnaDriver.log == old(vnaDriver.log)
      ensures SweepSetupAccepted(req) && vnaDriver.instrument != None ==>
        var (sweepEvents, sweep) :=
          WriteChain(vnaDriver.device, old(vnaDriver.log), SweepCommands(req.freqStart, req.freqStop, req.freqPoints));
        if sweep.Throw? then
          vnaDriver.log == old(vnaDriver.log) + sweepEvents && r == sweep
        else
          var (traceEvents, trace) :=
            WriteChain(vnaDriver.device, old(vnaDriver.log) + sweepEvents, TraceCommands(1, "S21", "SMITh"));
          && vnaDriver.log == old(vnaDriver.log) + sweepEvents + traceEvents
          && r == (if trace.Throw? then trace else sweep)
    {
      if !SweepSetupAccepted(req) {
        return Return(false);
      }
      var status := vnaDriver.SetFrequencySweep(req.freqStart, req.freqStop, req.freqPoints);
      if status.Throw? {
        return status;
      }
      var trace := vnaDriver.SetTrace();
      if trace.Throw? {
        return trace;
      }
      r := status;
    }

    /** `__get_vna_data_handler`: trace 1's data, or `(False, "")`. */
    method GetVnaDataHandler() returns (r: Py<DataResponse>)
      modifies vnaDriver`log
      ensures vnaDriver.instrument == None ==> r == Throw(AttributeError) && vnaDriver.log == old(vnaDriver.log)
      ensures vnaDriver.instrument != None ==>
        && vnaDriver.log == old(vnaDriver.log) + [Ask(TraceDataQuery(1))]
        && r == RespondWithData(QueryOutcome(vnaDriver.device(vnaDriver.log)))
    {
      var data := vnaDriver.GetTrace(1);
      r := RespondWithData(data);
    }

    /** `__get_freq_data_handler`: trace 1's frequency vector, or `(False, "")`. */
    method GetFreqDataHandler() returns (r: Py<DataResponse>)
      modifies vnaDriver`log
      ensures vnaDriver.instrument == None ==> r == Throw(AttributeError) && vnaDriver.log == old(vnaDriver.log)
      ensures vnaDriver.instrument != None ==>
        && vnaDriver.log == old(vnaDriver.log) + [Ask(FreqDataQuery(1))]
        && r == RespondWithData(QueryOutcome(vnaDriver.device(vnaDriver.log)))
    {
      var freqData := vnaDriver.GetFreq(1);
      r := RespondWithData(freqData);
    }
  }
}
