/**
 * The SCPI command and query strings the driver sends to the instrument.
 * Numeric arguments are written with Python's `str(n)`; every string below is
 * a fixed mnemonic concatenated with that text and, for trace commands, with
 * the caller's S-parameter or format name.
 */
module Scpi {
  import opened Wrappers
  import opened Decimal

  const IdentityQuery: string := "*IDN?"
  const CalibrationQuery: string := ":SENS:CORR:COLL:STAT:ACC?"

  const FreqStartMnemonic: string := ":SENS:FREQ:STAR "
  const FreqStopMnemonic: string := ":SENS:FREQ:STOP "
  const SweepPointsMnemonic: string := ":SENS:SWE:POIN "

  function FreqStartCommand(fStart: int): string {
    FreqStartMnemonic + IntToString(fStart)
  }

  function FreqStopCommand(fStop: int): string {
    FreqStopMnemonic + IntToString(fStop)
  }

  function SweepPointsCommand(nPoints: int): string {
    SweepPointsMnemonic + IntToString(nPoints)
  }

  /** The three writes of `set_frequency_sweep`, in the order it issues them. */
  function SweepCommands(fStart: int, fStop: int, nPoints: int): seq<string> {
    [FreqStartCommand(fStart), FreqStopCommand(fStop), SweepPointsCommand(nPoints)]
  }

  function TraceParameterCommand(nTrace: int, sParam: string): string {
    ":SENS:TRACE" + IntToString(nTrace) + ":SPAR " + sParam
  }

  function TraceFormatCommand(nTrace: int, tFormat: string): string {
    ":CALC" + IntToString(nTrace) + ":FORM " + tFormat
  }

  /** The two writes of `set_trace`, in the order it issues them. */
  function TraceCommands(nTrace: int, sParam: string, tFormat: string): seq<string> {
    [TraceParameterCommand(nTrace, sParam), TraceFormatCommand(nTrace, tFormat)]
  }

  function TraceDataQuery(nTrace: int): string {
    ":CALC" + IntToString(nTrace) + ":DATA? SDAT"
  }

  function FreqDataQuery(nTrace: int): string {
    ":SENSE" + IntToString(nTrace) + ":FREQ:DATA?"
  }

  /**
   * `cmd` is `prefix`, then text that Python's `int` reads back as `x`, then
   * `suffix`: the argument can be recovered from the command.
   */
  predicate CarriesArgument(cmd: string, prefix: string, x: int, suffix: string) {
    && |prefix| + |suffix| <= |cmd|
    && cmd[..|prefix|] == prefix
    && cmd[|cmd| - |suffix|..] == suffix
    && ParseInt(cmd[|prefix|..|cmd| - |suffix|]) == Some(x)
  }

  /** A number written with `str` between a fixed prefix and suffix reads back. */
  lemma {:induction false} FramedArgumentRoundTrip(prefix: string, x: int, suffix: string)
    ensures CarriesArgument(prefix + IntToString(x) + suffix, prefix, x, suffix)
  {
    var cmd := prefix + IntToString(x) + suffix;
    assert cmd[..|prefix|] == prefix;
    assert cmd[|cmd| - |suffix|..] == suffix;
    assert cmd[|prefix|..|cmd| - |suffix|] == IntToString(x);
    IntToStringRoundTrip(x);
  }

  /**
   * The sweep writes are the start, stop and point-count mnemonics in that
   * order, each followed by text that reads back as its argument.
   */
  lemma SweepCommandsReadBack(fStart: int, fStop: int, nPoints: int)
    ensures var cmds := SweepCommands(fStart, fStop, nPoints);
      && |cmds| == 3
      && CarriesArgument(cmds[0], FreqStartMnemonic, fStart, "")
      && CarriesArgument(cmds[1], FreqStopMnemonic, fStop, "")
      && CarriesArgument(cmds[2], SweepPointsMnemonic, nPoints, "")
  {
    var cmds := SweepCommands(fStart, fStop, nPoints);
    assert cmds[0] == FreqStartMnemonic + IntToString(fStart) + "";
    FramedArgumentRoundTrip(FreqStartMnemonic, fStart, "");
    assert cmds[1] == FreqStopMnemonic + IntToString(fStop) + "";
    FramedArgumentRoundTrip(FreqStopMnemonic, fStop, "");
    assert cmds[2] == SweepPointsMnemonic + IntToString(nPoints) + "";
    FramedArgumentRoundTrip(SweepPointsMnemonic, nPoints, "");
  }

  /**
   * The trace writes are the S-parameter command, then the format command;
   * in each the trace number reads back and the caller's name ends it.
   */
  lemma TraceCommandsReadBack(nTrace: int, sParam: string, tFormat: string)
    ensures var cmds := TraceCommands(nTrace, sParam, tFormat);
      && |cmds| == 2
      && CarriesArgument(cmds[0], ":SENS:TRACE", nTrace, ":SPAR " + sParam)
      && CarriesArgument(cmds[1], ":CALC", nTrace, ":FORM " + tFormat)
  {
    TrailingNameReadBack(":SENS:TRACE", nTrace, ":SPAR ", sParam);
    TrailingNameReadBack(":CALC", nTrace, ":FORM ", tFormat);
  }

  /** A numbered command that ends in a keyword and a name carries its number. */
  lemma TrailingNameReadBack(prefix: string, n: int, keyword: string, name: string)
    ensures CarriesArgument(prefix + IntToString(n) + keyword + name, prefix, n, keyword + name)
  {
    assert prefix + IntToString(n) + keyword + name == prefix + IntToString(n) + (keyword + name);
    FramedArgumentRoundTrip(prefix, n, keyword + name);
  }

  /** In the trace data and frequency data queries the trace number reads back. */
  lemma DataQueriesReadBack(nTrace: int)
    ensures CarriesArgument(TraceDataQuery(nTrace), ":CALC", nTrace, ":DATA? SDAT")
    ensures CarriesArgument(FreqDataQuery(nTrace), ":SENSE", nTrace, ":FREQ:DATA?")
  {
    FramedArgumentRoundTrip(":CALC", nTrace, ":DATA? SDAT");
    FramedArgumentRoundTrip(":SENSE", nTrace, ":FREQ:DATA?");
  }

  /** If `a + x == b + y`, where `x` and `y` start with `c` and `a`, `b` lack it, the parts agree. */
  lemma {:induction false} SplitAtMarker(a: string, x: string, b: string, y: string, c: char)
    requires c !in a && c !in b
    requires |x| >= 1 && |y| >= 1 && x[0] == c && y[0] == c
    requires a + x == b + y
    ensures a == b && x == y
  {
    if |a| < |b| {
      CharAtSeam(a, x, b, y);
      assert false;
    } else if |b| < |a| {
      CharAtSeam(b, y, a, x);
      assert false;
    }
    assert a == (a + x)[..|a|] && b == (b + y)[..|b|];
    assert x == (a + x)[|a|..] && y == (b + y)[|b|..];
  }

  /** Where `a` ends inside the longer `b`, the next character of `b` is the first of `x`. */
  lemma CharAtSeam(a: string, x: string, b: string, y: string)
    requires |a| < |b| && |x| >= 1 && a + x == b + y
    ensures b[|a|] == x[0]
  {
    assert (a + x)[|a|] == x[0];
    assert (b + y)[|a|] == b[|a|];
  }

  lemma NoColonInNumber(n: int)
    ensures ':' !in IntToString(n)
  {
  }

  /**
   * A trace command is built from an argument-free prefix, the decimal trace
   * number and a tail that starts with `:`; such a command determines both
   * its trace number and its tail.
   */
  lemma {:induction false} NumberedCommandInjective(prefix: string, n1: int, tail1: string, n2: int, tail2: string)
    requires |tail1| >= 1 && |tail2| >= 1 && tail1[0] == ':' && tail2[0] == ':'
    requires prefix + IntToString(n1) + tail1 == prefix + IntToString(n2) + tail2
    ensures n1 == n2 && tail1 == tail2
  {
    var s1 := prefix + IntToString(n1) + tail1;
    assert s1[|prefix|..] == IntToString(n1) + tail1;
    assert (prefix + IntToString(n2) + tail2)[|prefix|..] == IntToString(n2) + tail2;
    NoColonInNumber(n1);
    NoColonInNumber(n2);
    SplitAtMarker(IntToString(n1), tail1, IntToString(n2), tail2, ':');
    IntToStringInjective(n1, n2);
  }

  /** Distinct trace settings give distinct trace commands. */
  lemma TraceCommandsInjective(n1: int, s1: string, f1: string, n2: int, s2: string, f2: string)
    requires TraceCommands(n1, s1, f1) == TraceCommands(n2, s2, f2)
    ensures n1 == n2 && s1 == s2 && f1 == f2
  {
    assert ":SENS:TRACE" + IntToString(n1) + ":SPAR " + s1
      == ":SENS:TRACE" + IntToString(n1) + (":SPAR " + s1);
    assert ":SENS:TRACE" + IntToString(n2) + ":SPAR " + s2
      == ":SENS:TRACE" + IntToString(n2) + (":SPAR " + s2);
    NumberedCommandInjective(":SENS:TRACE", n1, ":SPAR " + s1, n2, ":SPAR " + s2);
    assert s1 == (":SPAR " + s1)[6..] && s2 == (":SPAR " + s2)[6..];
    assert ":CALC" + IntToString(n1) + ":FORM " + f1 == ":CALC" + IntToString(n1) + (":FORM " + f1);
    assert ":CALC" + IntToString(n2) + ":FORM " + f2 == ":CALC" + IntToString(n2) + (":FORM " + f2);
    NumberedCommandInjective(":CALC", n1, ":FORM " + f1, n2, ":FORM " + f2);
    assert f1 == (":FORM " + f1)[6..] && f2 == (":FORM " + f2)[6..];
  }

  /** Distinct trace numbers give distinct data and frequency queries. */
  lemma DataQueriesInjective(n1: int, n2: int)
    requires TraceDataQuery(n1) == TraceDataQuery(n2) || FreqDataQuery(n1) == FreqDataQuery(n2)
    ensures n1 == n2
  {
    if TraceDataQuery(n1) == TraceDataQuery(n2) {
      NumberedCommandInjective(":CALC", n1, ":DATA? SDAT", n2, ":DATA? SDAT");
    } else {
      NumberedCommandInjective(":SENSE", n1, ":FREQ:DATA?", n2, ":FREQ:DATA?");
    }
  }
}
