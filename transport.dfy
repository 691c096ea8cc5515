/**
 * The VXI-11 transport seen from the driver.  Every call into the
 * `vxi11.Instrument` object is an event appended to a log; the instrument's
 * answer to an `ask` or a `write` is a function of the whole log up to and
 * including that event, so a scripted sequence of answers is one instance of
 * it and a device whose state depends on earlier commands is another.
 * Python exceptions that leave a driver method are a `Throw` result.
 */
module Transport {

  /** The two kinds of transport exception the driver's `except` clauses name. */
  datatype Failure =
    | Vxi11Error   // a `vxi11.Vxi11Exception`
    | SocketError  // a `socket.error`, which is `OSError` in Python 3

  /** The result of one `ask` or `write`: the reply text, or the exception raised. */
  datatype Outcome = Completed(reply: string) | Failed(failure: Failure)

  /** One call on the instrument object. */
  datatype Event =
    | Attach(address: string)  // `Instrument(ip_addr)`
    | Ask(query: string)
    | Write(command: string)
    | Close

  /** The instrument: the outcome of the last event of the given log. */
  type Device = seq<Event> -> Outcome

  /** An exception that escapes a driver method. */
  datatype PyError =
    | IndexError           // field 1 of a one-field identity reply
    | ValueError           // `int()` of a calibration reply that is not an integer
    | AttributeError       // a method of `None`: before the first connect and after a disconnect
    | TransportError(failure: Failure)  // a transport exception no `except` clause names

  /** What a Python call does: returns a value or raises. */
  datatype Py<+T> = Return(value: T) | Throw(error: PyError)

  function Writes(cmds: seq<string>): (events: seq<Event>)
    ensures |events| == |cmds|
    ensures forall i :: 0 <= i < |cmds| ==> events[i] == Write(cmds[i])
  {
    if cmds == [] then [] else [Write(cmds[0])] + Writes(cmds[1..])
  }

  /** A `try` block's answer to the transport failure that ended it, under `except Vxi11Exception: return False`. */
  function WriteFailureResult(f: Failure): Py<bool> {
    if f == Vxi11Error then Return(false) else Throw(TransportError(f))
  }

  /**
   * The writes of one `try` block that issues `cmds` in order and returns
   * `True` at its end: the events appended to `history` and the result.
   * The first failure ends the block, so no later command is written.
   */
  function WriteChain(device: Device, history: seq<Event>, cmds: seq<string>): (res: (seq<Event>, Py<bool>))
    ensures |res.0| <= |cmds|
    ensures res.0 == [] <==> cmds == []
    ensures res.0 != [] ==> res.0[0] == Write(cmds[0])
    ensures res.1 == Return(true) ==> |res.0| == |cmds|
    decreases |cmds|
  {
    if cmds == [] then ([], Return(true))
    else
      var issued := history + [Write(cmds[0])];
      match device(issued)
      case Completed(_) =>
        var (events, r) := WriteChain(device, issued, cmds[1..]);
        ([Write(cmds[0])] + events, r)
      case Failed(f) => ([Write(cmds[0])], WriteFailureResult(f))
  }

  /** After a completed first write, the chain goes on with the remaining commands. */
  lemma WriteChainAfterCompleted(device: Device, history: seq<Event>, cmds: seq<string>)
    requires cmds != [] && device(history + [Write(cmds[0])]).Completed?
    ensures var next := WriteChain(device, history + [Write(cmds[0])], cmds[1..]);
      WriteChain(device, history, cmds) == ([Write(cmds[0])] + next.0, next.1)
  {
  }

  /** Every write before the last one issued succeeded. */
  predicate AllButLastCompleted(device: Device, history: seq<Event>, events: seq<Event>) {
    forall j :: 0 < j < |events| ==> device(history + events[..j]).Completed?
  }

  /** The chain writes a prefix of the commands, in order, and at least one when there is one. */
  lemma {:induction false} WriteChainWritesPrefix(device: Device, history: seq<Event>, cmds: seq<string>)
    ensures var events := WriteChain(device, history, cmds).0;
      && |events| <= |cmds|
      && (cmds != [] ==> events != [])
      && events == Writes(cmds[..|events|])
    decreases |cmds|
  {
    if cmds != [] {
      var issued := history + [Write(cmds[0])];
      if device(issued).Completed? {
        WriteChainAfterCompleted(device, history, cmds);
        WriteChainWritesPrefix(device, issued, cmds[1..]);
        var rest := WriteChain(device, issued, cmds[1..]).0;
        assert cmds[..|rest| + 1] == [cmds[0]] + cmds[1..][..|rest|];
      } else {
        assert cmds[..1] == [cmds[0]];
      }
    }
  }

  /** Every write the chain issued before its last one completed. */
  lemma {:induction false} WriteChainContinuesOnlyAfterSuccess(device: Device, history: seq<Event>, cmds: seq<string>)
    ensures AllButLastCompleted(device, history, WriteChain(device, history, cmds).0)
    decreases |cmds|
  {
    if cmds != [] {
      var issued := history + [Write(cmds[0])];
      if device(issued).Completed? {
        WriteChainAfterCompleted(device, history, cmds);
        WriteChainContinuesOnlyAfterSuccess(device, issued, cmds[1..]);
        var rest := WriteChain(device, issued, cmds[1..]).0;
        var events := [Write(cmds[0])] + rest;
        forall j | 0 < j < |events|
          ensures device(history + events[..j]).Completed?
        {
          if j > 1 {
            assert history + events[..j] == issued + rest[..j - 1];
          } else {
            assert history + events[..1] == issued;
          }
        }
      }
    }
  }

  /**
   * The chain returns `True` exactly when the last write it issued completed
   * (or there was nothing to write); otherwise its result is what the
   * `except` clause makes of the last write's failure.
   */
  lemma {:induction false} WriteChainResultOfLastWrite(device: Device, history: seq<Event>, cmds: seq<string>)
    ensures var (events, r) := WriteChain(device, history, cmds);
      && (r == Return(true) <==> events == [] || device(history + events).Completed?)
      && (r == Return(true) ==> |events| == |cmds|)
      && (r != Return(true) ==>
            events != [] && device(history + events).Failed?
            && r == WriteFailureResult(device(history + events).failure))
    decreases |cmds|
  {
    if cmds != [] {
      var issued := history + [Write(cmds[0])];
      if device(issued).Completed? {
        WriteChainAfterCompleted(device, history, cmds);
        WriteChainResultOfLastWrite(device, issued, cmds[1..]);
        var (rest, r') := WriteChain(device, issued, cmds[1..]);
        assert WriteChain(device, history, cmds) == ([Write(cmds[0])] + rest, r');
        assert history + ([Write(cmds[0])] + rest) == issued + rest;
        if rest == [] {
          assert issued + rest == issued;
        }
      } else {
        assert history + [Write(cmds[0])] == issued;
      }
    }
  }

  /**
   * The chain writes a prefix of `cmds`, in order; every write but the last
   * completed; it returns `True` exactly when it wrote all of them and the
   * last one completed; otherwise the last write failed and the result is
   * what the `except` clause makes of that failure.
   */
  lemma WriteChainStopsAtFirstFailure(device: Device, history: seq<Event>, cmds: seq<string>)
    ensures var (events, r) := WriteChain(device, history, cmds);
      && |events| <= |cmds|
      && events == Writes(cmds[..|events|])
      && AllButLastCompleted(device, history, events)
      && (r == Return(true) <==> |events| == |cmds| && (cmds == [] || device(history + events).Completed?))
      && (r != Return(true) ==>
            events != [] && device(history + events).Failed?
            && r == WriteFailureResult(device(history + events).failure))
  {
    WriteChainWritesPrefix(device, history, cmds);
    WriteChainContinuesOnlyAfterSuccess(device, history, cmds);
    WriteChainResultOfLastWrite(device, history, cmds);
  }
}
