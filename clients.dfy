/**
 * SingleClient and its MeasurementClient variant.  A client holds at most one
 * socket to the configured server; what it writes is recorded as a log of
 * chunks.  Whether the socket can be opened, whether a write or a close
 * succeeds, and every clock reading are inputs.
 *
 * A MeasurementClient is a SingleClient that also owns a MeasuringThread and
 * shares an InjectorResults record with its injector.  The thread object is
 * created by the client and never shared, so its four fields are kept here as
 * the `meter` value; `results` is Some exactly for measurement clients.
 */
module Clients {
  import opened Wrappers
  import opened Config
  import opened ResponseTimes
  import opened BatchResults

  /** An open socket: the address it was opened to and its read timeout. */
  datatype Socket = Socket(host: string, port: int, soTimeoutMs: int)

  /** The socket every successful connect opens. */
  const SERVER_SOCKET: Socket := Socket(SERVER_HOST, SERVER_PORT, SOCKET_TIME_OUT)

  datatype IOError = IOException(message: string)

  /** The state of a MeasuringThread: the loop flag, the pending flag and the last stamps. */
  datatype Meter = Meter(isRunning: bool, isMeasuring: bool, startTimeNs: int, stopTimeNs: int)

  /** A fresh MeasuringThread: not running, nothing pending, both stamps -1. */
  const IDLE_METER: Meter := Meter(false, false, -1, -1)

  /** What a client is at one moment: its socket, everything it has written, its meter. */
  datatype ClientState = ClientState(socket: Option<Socket>, written: seq<Chunk>, meter: Meter)

  // ---------------------------------------------------------------------
  // Specification: one function per client operation
  // ---------------------------------------------------------------------

  /** measureResponseTime: a request is recorded only when none is pending, so the first start wins. */
  function Requested(m: Meter, startNs: int): (r: Meter)
    ensures r.isMeasuring && r.isRunning == m.isRunning && r.stopTimeNs == m.stopTimeNs
    ensures r.startTimeNs == (if m.isMeasuring then m.startTimeNs else startNs)
  {
    if m.isMeasuring then m else m.(isMeasuring := true, startTimeNs := startNs)
  }

  /** A measurement client requests a measurement; a plain client has no meter to touch. */
  function RequestIf(measures: bool, m: Meter, startNs: int): Meter
  {
    if measures then Requested(m, startNs) else m
  }

  /** connect throws an IOException only when it has to open a socket and the server is unreachable. */
  predicate ConnectFails(s: ClientState, reachable: bool)
  {
    s.socket.None? && !reachable
  }

  /**
   * connect: opens the configured socket when none is held; a measurement
   * client then requests a measurement stamped before the socket was opened.
   * Holding a socket already, nothing happens.
   */
  function Connected(s: ClientState, measures: bool, reachable: bool, nowNs: int): (r: ClientState)
    ensures r.written == s.written
    ensures !ConnectFails(s, reachable) ==> r.socket.Some?
    ensures s.socket.Some? ==> r == s
    ensures ConnectFails(s, reachable) ==> r == s
  {
    if s.socket.Some? || !reachable then s
    else s.(socket := Some(SERVER_SOCKET), meter := RequestIf(measures, s.meter, nowNs))
  }

  /** A write of `chunk`: it happens only while connected and when the stream accepts it. */
  function Wrote(s: ClientState, chunk: Chunk, writeOk: bool): (r: ClientState)
    ensures r.socket == s.socket && r.meter == s.meter
    ensures r.written == (if s.socket.Some? && writeOk then s.written + [chunk] else s.written)
  {
    if s.socket.Some? && writeOk then s.(written := s.written + [chunk]) else s
  }

  /** sendData: writes the payload; a measurement client requests a measurement stamped before the call. */
  function SentData(s: ClientState, measures: bool, payload: seq<bv8>, writeOk: bool, nowNs: int): ClientState
  {
    var w := Wrote(s, Bytes(payload), writeOk);
    w.(meter := RequestIf(measures, w.meter, nowNs))
  }

  /** sendDelimiter: writes the delimiter without a newline. */
  function SentDelimiter(s: ClientState, writeOk: bool): ClientState
  {
    Wrote(s, Text(DELIMITER), writeOk)
  }

  /** The line receiveData writes before reading, so that the server's readLine returns. */
  const DELIMITER_LINE: string := DELIMITER + "\n"

  /** receiveData: writes the delimiter line; a measurement client requests a measurement stamped before the call. */
  function Received(s: ClientState, measures: bool, writeOk: bool, nowNs: int): ClientState
  {
    var w := Wrote(s, Text(DELIMITER_LINE), writeOk);
    w.(meter := RequestIf(measures, w.meter, nowNs))
  }

  /** disconnect throws an IOException only when the held socket fails to close. */
  predicate DisconnectFails(s: ClientState, closeOk: bool)
  {
    s.socket.Some? && !closeOk
  }

  /** disconnect: closes and forgets the socket; without a socket nothing happens. */
  function Disconnected(s: ClientState, closeOk: bool): (r: ClientState)
    ensures r.written == s.written && r.meter == s.meter
    ensures !DisconnectFails(s, closeOk) ==> r.socket.None?
    ensures DisconnectFails(s, closeOk) ==> r == s
  {
    if s.socket.Some? && closeOk then s.(socket := None) else s
  }

  /** Whether the poll step finds a measurement to complete. */
  predicate PollCompletes(m: Meter)
  {
    m.isRunning && m.isMeasuring
  }

  /** The scenarios in which the measuring thread itself waits for the server's reply. */
  predicate AwaitsReply(scenario: Scenario)
  {
    scenario == SendReceive || scenario == Receive
  }

  /**
   * One pass of the MeasuringThread loop under the configured `scenario`:
   * with a measurement pending, RECEIVE and SEND_RECEIVE call receiveData
   * (whose own request is ignored, one being pending), then the stop stamp
   * is taken and pending is cleared.
   */
  function Polled(s: ClientState, scenario: Scenario, writeOk: bool, receiveNs: int, stopNs: int): (r: ClientState)
  {
    if !PollCompletes(s.meter) then s
    else
      var afterReceive := if AwaitsReply(scenario) then Received(s, true, writeOk, receiveNs) else s;
      afterReceive.(meter := afterReceive.meter.(isMeasuring := false, stopTimeNs := stopNs))
  }

  /** The sample a poll step appends to the shared results, if any. */
  function PolledSample(s: ClientState, stopNs: int): (r: Option<ResponseTime>)
  {
    if PollCompletes(s.meter) then Some(ResponseTime(s.meter.startTimeNs, stopNs)) else None
  }

  /** What one completed pass of the measuring loop meets: the outcome of its delimiter write and its two clock readings. */
  datatype PollInput = PollInput(writeOk: bool, receiveNs: int, stopNs: int)

  /** The client after the measuring loop has completed the passes `polls`, in order. */
  function PolledAll(s: ClientState, scenario: Scenario, polls: seq<PollInput>): ClientState
    decreases |polls|
  {
    if polls == [] then s
    else
      var p := polls[|polls| - 1];
      Polled(PolledAll(s, scenario, polls[..|polls| - 1]), scenario, p.writeOk, p.receiveNs, p.stopNs)
  }

  /** The samples those passes append to the shared results, in order. */
  function PolledSamples(s: ClientState, scenario: Scenario, polls: seq<PollInput>): seq<ResponseTime>
    decreases |polls|
  {
    if polls == [] then []
    else
      var p := polls[|polls| - 1];
      var sample := PolledSample(PolledAll(s, scenario, polls[..|polls| - 1]), p.stopNs);
      PolledSamples(s, scenario, polls[..|polls| - 1]) + (if sample.Some? then [sample.value] else [])
  }

  // ---------------------------------------------------------------------
  // The client object
  // ---------------------------------------------------------------------

  class SingleClient {
    const clientID: int
    /** Some(results) for a MeasurementClient: the record its samples go to. */
    const results: Option<InjectorResults>
    var socket: Option<Socket>
    var written: seq<Chunk>
    var meter: Meter

    function State(): ClientState
      reads this
    {
      ClientState(socket, written, meter)
    }

    predicate Measures()
    {
      results.Some?
    }

    /** SingleClient(id): not connected, nothing written. */
    constructor(id: int)
      ensures clientID == id && results == None
      ensures State() == ClientState(None, [], IDLE_METER)
    {
      clientID := id;
      results := None;
      socket := None;
      written := [];
      meter := IDLE_METER;
    }

    /** MeasurementClient(id, results): a client whose samples go to `results`. */
    constructor Measuring(id: int, shared: InjectorResults)
      ensures clientID == id && results == Some(shared)
      ensures State() == ClientState(None, [], IDLE_METER)
    {
      clientID := id;
      results := Some(shared);
      socket := None;
      written := [];
      meter := IDLE_METER;
    }

    /** getClientID */
    function ClientID(): (id: int)
      ensures id == clientID
    {
      clientID
    }

    /** isConnected: a socket is held (a socket opened to a host and port is connected). */
    function IsConnected(): (b: bool)
      reads this
      ensures b <==> State().socket.Some?
    {
      socket.Some?
    }

    /** connect: see Connected; fails with an IOException exactly when ConnectFails. */
    method Connect(reachable: bool, nowNs: int) returns (r: Result<(), IOError>)
      modifies this
      ensures State() == Connected(old(State()), Measures(), reachable, nowNs)
      ensures r.Failure? <==> ConnectFails(old(State()), reachable)
    {
      if socket == None {
        if !reachable {
          return Failure(IOException("Connection refused"));
        }
        socket := Some(SERVER_SOCKET);
        if results.Some? {
          meter := Requested(meter, nowNs);
        }
      }
      r := Success(());
    }

    /** disconnect: see Disconnected; fails with an IOException exactly when DisconnectFails. */
    method Disconnect(closeOk: bool) returns (r: Result<(), IOError>)
      modifies this
      ensures State() == Disconnected(old(State()), closeOk)
      ensures r.Failure? <==> DisconnectFails(old(State()), closeOk)
    {
      if socket.Some? {
        if !closeOk {
          return Failure(IOException("Socket close failed"));
        }
        socket := None;
      }
      r := Success(());
    }

    /** sendData: true exactly when connected and the write went through. */
    method SendData(payload: seq<bv8>, writeOk: bool, nowNs: int) returns (ok: bool)
      modifies this
      ensures State() == SentData(old(State()), Measures(), payload, writeOk, nowNs)
      ensures ok <==> old(socket).Some? && writeOk
    {
      ok := false;
      if socket.Some? {
        if writeOk {
          written := written + [Bytes(payload)];
          ok := true;
        }
      }
      if results.Some? {
        meter := Requested(meter, nowNs);
      }
    }

    /** sendDelimiter: true exactly when connected and the write went through. */
    method SendDelimiter(writeOk: bool) returns (ok: bool)
      modifies this
      ensures State() == SentDelimiter(old(State()), writeOk)
      ensures ok <==> old(socket).Some? && writeOk
    {
      ok := false;
      if socket.Some? {
        if writeOk {
          written := written + [Text(DELIMITER)];
          ok := true;
        }
      }
    }

    /** receiveData: writes the delimiter line, discards the reply, and always reports false. */
    method ReceiveData(writeOk: bool, nowNs: int) returns (ok: bool)
      modifies this
      ensures State() == Received(old(State()), Measures(), writeOk, nowNs)
      ensures !ok
    {
      var successfulRead := false;
      if socket.Some? {
        if writeOk {
          written := written + [Text(DELIMITER_LINE)];
        }
      }
      if results.Some? {
        meter := Requested(meter, nowNs);
      }
      ok := successfulRead;
    }

    /** startMeasuring: the measuring loop is switched on. */
    method StartMeasuring()
      modifies this
      ensures meter == old(meter).(isRunning := true)
      ensures socket == old(socket) && written == old(written)
    {
      meter := meter.(isRunning := true);
    }

    /** stopMeasuring: the loop is switched off if it was on; a second call does nothing. */
    method StopMeasuring()
      modifies this
      ensures meter == old(meter).(isRunning := false)
      ensures old(!meter.isRunning) ==> meter == old(meter)
      ensures socket == old(socket) && written == old(written)
    {
      if meter.isRunning {
        meter := meter.(isRunning := false);
      }
    }

    /**
     * One pass of MeasuringThread.run's loop body (waitForResponse when a
     * measurement is pending), under the configured scenario.  Its sample
     * goes to the shared results.
     */
    method MeasuringStep(scenario: Scenario, writeOk: bool, receiveNs: int, stopNs: int)
      requires results.Some?
      modifies this, results.value
      ensures State() == Polled(old(State()), scenario, writeOk, receiveNs, stopNs)
      ensures var r := results.value;
        r.responseTimes == old(r.responseTimes) +
          (if PolledSample(old(State()), stopNs).Some? then [PolledSample(old(State()), stopNs).value] else [])
      ensures var r := results.value;
        r.startTimeInNanos == old(r.startTimeInNanos) && r.stopTimeInNanos == old(r.stopTimeInNanos) &&
        r.totalClients == old(r.totalClients) && r.injectionMethod == old(r.injectionMethod)
    {
      if meter.isRunning && meter.isMeasuring {
        if scenario == SendReceive || scenario == Receive {
          var _ := ReceiveData(writeOk, receiveNs);
        }
        meter := meter.(stopTimeNs := stopNs);
        results.value.AddResponseTime(meter.startTimeNs, meter.stopTimeNs);
        meter := meter.(isMeasuring := false);
      }
    }
  }

  // ---------------------------------------------------------------------
  // Properties
  // ---------------------------------------------------------------------

  /** Requests made while one is pending are ignored: the first start stamp stays. */
  lemma FirstStartWins(m: Meter, first: int, later: seq<int>)
    ensures RequestedAll(Requested(m, first), later) == Requested(m, first)
  {
    RequestedWhilePending(Requested(m, first), later);
  }

  /** Folding a sequence of requests into a meter. */
  function RequestedAll(m: Meter, starts: seq<int>): Meter
    decreases |starts|
  {
    if starts == [] then m else RequestedAll(Requested(m, starts[0]), starts[1..])
  }

  lemma {:induction false} RequestedWhilePending(m: Meter, starts: seq<int>)
    requires m.isMeasuring
    ensures RequestedAll(m, starts) == m
  {
    if starts != [] {
      RequestedWhilePending(m, starts[1..]);
    }
  }

  /** Connecting a connected client changes nothing, and does not measure again. */
  lemma ConnectIsIdempotent(s: ClientState, measures: bool, reachable: bool, again: bool, t0: int, t1: int)
    requires !ConnectFails(s, reachable)
    ensures var c := Connected(s, measures, reachable, t0);
      Connected(c, measures, again, t1) == c
  {
  }

  /** A measurement client measures on connect exactly when it opens a socket. */
  lemma ConnectMeasuresOnlyWhenOpening(s: ClientState, reachable: bool, nowNs: int)
    ensures var c := Connected(s, true, reachable, nowNs);
      c.meter == (if s.socket.None? && reachable then Requested(s.meter, nowNs) else s.meter)
  {
  }

  /** After a disconnect that does not fail, the client is not connected; disconnecting twice is disconnecting once. */
  lemma DisconnectIsIdempotent(s: ClientState, closeOk: bool, again: bool)
    requires !DisconnectFails(s, closeOk)
    ensures Disconnected(s, closeOk).socket.None?
    ensures Disconnected(Disconnected(s, closeOk), again) == Disconnected(s, closeOk)
  {
  }

  /** Without a socket, nothing is written by any send or receive. */
  lemma UnconnectedWritesNothing(s: ClientState, measures: bool, payload: seq<bv8>, writeOk: bool, nowNs: int)
    requires s.socket.None?
    ensures SentData(s, measures, payload, writeOk, nowNs).written == s.written
    ensures SentDelimiter(s, writeOk).written == s.written
    ensures Received(s, measures, writeOk, nowNs).written == s.written
  {
  }

  /**
   * The nested receiveData of a poll step cannot start a second measurement:
   * the sample appended carries the start stamp that was pending.
   */
  lemma PollKeepsPendingStart(s: ClientState, scenario: Scenario, writeOk: bool, receiveNs: int, stopNs: int)
    requires PollCompletes(s.meter)
    ensures PolledSample(s, stopNs) == Some(ResponseTime(s.meter.startTimeNs, stopNs))
    ensures var r := Polled(s, scenario, writeOk, receiveNs, stopNs);
      !r.meter.isMeasuring && r.meter.startTimeNs == s.meter.startTimeNs && r.meter.stopTimeNs == stopNs
  {
  }

  /** The poll step reads the reply itself only in RECEIVE and SEND_RECEIVE. */
  lemma PollReceivesOnlyWhenAwaitingReply(s: ClientState, scenario: Scenario, writeOk: bool, receiveNs: int, stopNs: int)
    requires PollCompletes(s.meter) && s.socket.Some? && writeOk
    ensures Polled(s, scenario, writeOk, receiveNs, stopNs).written ==
      s.written + (if AwaitsReply(scenario) then [Text(DELIMITER_LINE)] else [])
  {
  }

  /**
   * However many passes the measuring loop completes, it records the pending
   * measurement once, stamped by the first pass, and nothing else: every
   * pass after it finds nothing pending.  The loop flag is left as it was.
   */
  lemma {:induction false} PollsRecordPendingOnce(s: ClientState, scenario: Scenario, polls: seq<PollInput>)
    ensures PolledSamples(s, scenario, polls) ==
      if PollCompletes(s.meter) && polls != [] then [ResponseTime(s.meter.startTimeNs, polls[0].stopNs)] else []
    ensures PolledAll(s, scenario, polls).meter.isRunning == s.meter.isRunning
    ensures polls != [] ==> !PollCompletes(PolledAll(s, scenario, polls).meter)
    ensures !PollCompletes(s.meter) ==> PolledAll(s, scenario, polls) == s
    decreases |polls|
  {
    if polls != [] {
      var init := polls[..|polls| - 1];
      PollsRecordPendingOnce(s, scenario, init);
      if init != [] {
        assert init[0] == polls[0];
      }
    }
  }

  /** With the loop off or nothing pending, a poll step changes nothing and appends nothing. */
  lemma IdlePollDoesNothing(s: ClientState, scenario: Scenario, writeOk: bool, receiveNs: int, stopNs: int)
    requires !PollCompletes(s.meter)
    ensures Polled(s, scenario, writeOk, receiveNs, stopNs) == s
    ensures PolledSample(s, stopNs) == None
  {
  }
}
