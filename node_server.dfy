/**
 * The event-based Node.js server: a NodeServer object whose counters are
 * updated by connection and end events, and one Connection object per
 * socket holding the closure variable sendFileToClient, the file reads
 * issued and not yet completed, and what was written to the socket.  Each
 * event handler is a method; the event loop's choice of which event comes
 * next is the caller's.
 */
module NodeServers {
  import opened Wrappers
  import opened Config

  /** The JavaScript values the mode argument can take. */
  datatype JsValue = Undefined | Null | Bool(b: bool) | Num(n: real) | Str(s: string)

  /** JavaScript truthiness (NaN is not modelled). */
  predicate Truthy(v: JsValue)
  {
    match v
    case Undefined => false
    case Null => false
    case Bool(b) => b
    case Num(n) => n != 0.0
    case Str(s) => s != ""
  }

  /** The mode start stores: the argument unless it is the string 'undefined', which becomes true. */
  function ModeFrom(arg: JsValue): JsValue
  {
    if arg != Str("undefined") then arg else Bool(true)
  }

  /** Whether a mode dispatches data to processParallel (otherwise processSequential). */
  predicate Parallel(mode: JsValue)
  {
    Truthy(mode)
  }

  // ---------------------------------------------------------------
  // The reply: a Content-Length header, an empty line, the file
  // ---------------------------------------------------------------

  function DigitChar(d: nat): (c: char)
    requires d < 10
    ensures '0' <= c <= '9' && c as int - '0' as int == d
  {
    ('0' as int + d) as char
  }

  /** A string of decimal digits. */
  predicate IsDigits(s: string)
  {
    forall i | 0 <= i < |s| :: '0' <= s[i] <= '9'
  }

  /** JavaScript's conversion of a non-negative integer to a string in base 10. */
  function Decimal(n: nat): (s: string)
    ensures |s| >= 1 && IsDigits(s)
    ensures n > 0 ==> s[0] != '0'
    decreases n
  {
    if n < 10 then [DigitChar(n)] else Decimal(n / 10) + [DigitChar(n % 10)]
  }

  /** The number a string of decimal digits denotes. */
  function DecimalValue(s: string): nat
    requires IsDigits(s)
    decreases |s|
  {
    if s == [] then 0 else DecimalValue(s[..|s| - 1]) * 10 + (s[|s| - 1] as int - '0' as int)
  }

  /** The header's digits read back give the length: Decimal is a faithful rendering. */
  lemma {:induction false} DecimalRoundTrip(n: nat)
    ensures DecimalValue(Decimal(n)) == n
    decreases n
  {
    if n >= 10 {
      DecimalRoundTrip(n / 10);
      var s := Decimal(n);
      assert s[..|s| - 1] == Decimal(n / 10);
    }
  }

  /** What the readFile callback writes to the socket for a file of `file` bytes. */
  function Reply(file: seq<bv8>): seq<Chunk>
  {
    [Text("Content-Length: " + Decimal(|file|) + "\r\n"), Text("\r\n"), Bytes(file)]
  }

  /** The reply announces exactly the number of bytes that follow the empty line. */
  lemma ReplyAnnouncesLength(file: seq<bv8>)
    ensures var r := Reply(file);
            |r| == 3 && r[1] == Text("\r\n") && r[2] == Bytes(file) &&
            r[0].Text? && |r[0].text| >= 18 && r[0].text[..16] == "Content-Length: " &&
            r[0].text[|r[0].text| - 2..] == "\r\n" &&
            IsDigits(r[0].text[16..|r[0].text| - 2]) &&
            DecimalValue(r[0].text[16..|r[0].text| - 2]) == |file|
  {
    var t := "Content-Length: " + Decimal(|file|) + "\r\n";
    assert t[16..|t| - 2] == Decimal(|file|);
    DecimalRoundTrip(|file|);
  }

  // ---------------------------------------------------------------
  // One connection
  // ---------------------------------------------------------------

  /**
   * A connection's state: the sendFileToClient flag, the file reads issued
   * and not yet completed (true for a parallel-mode read whose callback sets
   * the flag), and the chunks written to the socket.
   */
  datatype ConnState = ConnState(sendFileToClient: bool, pending: seq<bool>, written: seq<Chunk>)

  /** The connection after a 'data' event carrying `data` (decoded as UTF-8). */
  function AfterData(c: ConnState, parallel: bool, data: string): ConnState
  {
    if !parallel then
      if Contains(data, DELIMITER) then c.(pending := c.pending + [false]) else c
    else
      if !c.sendFileToClient then c.(pending := c.pending + [true]) else c
  }

  /** The connection after its oldest pending read completed with `file`. */
  function AfterFileRead(c: ConnState, file: seq<bv8>): ConnState
    requires c.pending != []
  {
    ConnState(c.sendFileToClient || c.pending[0], c.pending[1..], c.written + Reply(file))
  }

  /** The per-connection closure state and socket. */
  class Connection {
    var sendFileToClient: bool
    var pending: seq<bool>
    var written: seq<Chunk>

    constructor()
      ensures State() == ConnState(false, [], [])
    {
      sendFileToClient := false;
      pending := [];
      written := [];
    }

    function State(): ConnState
      reads this
    {
      ConnState(sendFileToClient, pending, written)
    }
  }

  /** The exception a readFile callback throws on an error; it ends the process. */
  datatype Thrown = FileError

  class NodeServer {
    /** `_server != null` */
    var hasServer: bool
    var parallelProgress: JsValue
    var acceptedConnections: int
    var connections: int
    /** How many times server.close has been called. */
    var closeCalls: nat
    /** 'end' events seen so far. */
    ghost var ends: nat

    /** Every accepted connection is either still counted as current or has ended. */
    ghost predicate Valid()
      reads this
    {
      acceptedConnections >= 0 && connections == acceptedConnections - ends
    }

    /** The constructor: no server, sequential mode, counters at zero. */
    constructor()
      ensures Valid()
      ensures !hasServer && parallelProgress == Bool(false) && !Parallel(parallelProgress)
      ensures acceptedConnections == 0 && connections == 0 && closeCalls == 0
    {
      hasServer := false;
      parallelProgress := Bool(false);
      acceptedConnections := 0;
      connections := 0;
      closeCalls := 0;
      ends := 0;
    }

    /** start: creates the server and fixes the processing mode from the argument. */
    method Start(arg: JsValue)
      requires Valid()
      modifies this
      ensures Valid() && hasServer
      ensures parallelProgress == ModeFrom(arg)
      ensures acceptedConnections == old(acceptedConnections) && connections == old(connections)
      ensures closeCalls == old(closeCalls)
    {
      hasServer := true;
      parallelProgress := if arg != Str("undefined") then arg else Bool(true);
    }

    /** The 'connection' handler: a fresh connection, both counters up by one. */
    method OnConnection() returns (c: Connection)
      requires Valid()
      modifies this
      ensures Valid()
      ensures fresh(c) && c.State() == ConnState(false, [], [])
      ensures acceptedConnections == old(acceptedConnections) + 1 && connections == old(connections) + 1
      ensures hasServer == old(hasServer) && parallelProgress == old(parallelProgress) && closeCalls == old(closeCalls)
    {
      c := new Connection();
      acceptedConnections := acceptedConnections + 1;
      connections := connections + 1;
    }

    /** The 'end' handler: only the current count goes down. */
    method OnEnd()
      requires Valid()
      modifies this
      ensures Valid()
      ensures connections == old(connections) - 1 && acceptedConnections == old(acceptedConnections)
      ensures hasServer == old(hasServer) && parallelProgress == old(parallelProgress) && closeCalls == old(closeCalls)
    {
      connections := connections - 1;
      ends := ends + 1;
    }

    /** stop: server.close is called only when a server exists (the field is never cleared). */
    method Stop()
      modifies this
      ensures closeCalls == old(closeCalls) + (if hasServer then 1 else 0)
      ensures hasServer == old(hasServer) && parallelProgress == old(parallelProgress)
      ensures acceptedConnections == old(acceptedConnections) && connections == old(connections)
      ensures ends == old(ends)
    {
      if hasServer {
        closeCalls := closeCalls + 1;
      }
    }

    /** The socket 'error' handler: stop the server. */
    method OnError()
      modifies this
      ensures closeCalls == old(closeCalls) + (if hasServer then 1 else 0)
      ensures hasServer == old(hasServer) && parallelProgress == old(parallelProgress)
      ensures acceptedConnections == old(acceptedConnections) && connections == old(connections)
      ensures ends == old(ends)
    {
      Stop();
    }

    /** processSequential: only a chunk with the delimiter starts a file read. */
    method ProcessSequential(c: Connection, data: string)
      modifies c
      ensures c.State() == AfterData(old(c.State()), false, data)
    {
      if Contains(data, DELIMITER) {
        c.pending := c.pending + [false];
      }
    }

    /** processParallel: a file read starts whenever the connection's flag is still false. */
    method ProcessParallel(c: Connection, data: string)
      modifies c
      ensures c.State() == AfterData(old(c.State()), true, data)
    {
      if !c.sendFileToClient {
        c.pending := c.pending + [true];
      }
    }

    /** The 'data' handler: a falsy mode processes sequentially, a truthy one in parallel. */
    method OnData(c: Connection, data: string)
      modifies c
      ensures c.State() == AfterData(old(c.State()), Parallel(parallelProgress), data)
    {
      if !Truthy(parallelProgress) {
        ProcessSequential(c, data);
      } else {
        ProcessParallel(c, data);
      }
    }

    /**
     * A readFile callback of `c` runs (the oldest pending one): on an error
     * it throws and nothing is written; otherwise header, empty line and file
     * are written and, for a parallel-mode read, the flag is set.
     */
    method OnFileRead(c: Connection, file: Option<seq<bv8>>) returns (r: Result<(), Thrown>)
      requires c.pending != []
      modifies c
      ensures r.Failure? <==> file.None?
      ensures file.None? ==> c.State() == old(c.State())
      ensures file.Some? ==> c.State() == AfterFileRead(old(c.State()), file.value)
    {
      if file.None? {
        return Failure(FileError);
      }
      var data := file.value;
      c.written := c.written + [Text("Content-Length: " + Decimal(|data|) + "\r\n")];
      c.written := c.written + [Text("\r\n")];
      c.written := c.written + [Bytes(data)];
      if c.pending[0] {
        c.sendFileToClient := true;
      }
      c.pending := c.pending[1..];
      return Success(());
    }
  }

  // ---------------------------------------------------------------
  // Properties of the protocol
  // ---------------------------------------------------------------

  /** No mode argument at all (JavaScript undefined) is stored as-is and means sequential processing. */
  lemma MissingModeIsSequential()
    ensures ModeFrom(Undefined) == Undefined && !Parallel(ModeFrom(Undefined))
  {
  }

  /** Only the string 'undefined' is replaced, and it selects parallel processing; every other argument is kept. */
  lemma ModeKeepsArgument(arg: JsValue)
    ensures arg == Str("undefined") ==> Parallel(ModeFrom(arg))
    ensures arg != Str("undefined") ==> (Parallel(ModeFrom(arg)) <==> Truthy(arg))
  {
  }

  /** Sequential mode: a chunk without the delimiter starts nothing, so nothing is sent back. */
  lemma SequentialSilentWithoutDelimiter(c: ConnState, data: string)
    requires !Contains(data, DELIMITER)
    ensures AfterData(c, false, data) == c
  {
  }

  /** Sequential mode: a chunk with the delimiter, once its read completes, writes the reply after what was there. */
  lemma SequentialRepliesOnDelimiter(c: ConnState, data: string, file: seq<bv8>)
    requires Contains(data, DELIMITER) && c.pending == []
    ensures AfterFileRead(AfterData(c, false, data), file) == c.(written := c.written + Reply(file))
  {
  }

  /** Parallel mode: while the flag is false every chunk starts a read, delimiter or not. */
  lemma ParallelReadsUntilFlag(c: ConnState, data: string)
    ensures !c.sendFileToClient ==> AfterData(c, true, data).pending == c.pending + [true]
    ensures c.sendFileToClient ==> AfterData(c, true, data) == c
  {
  }

  /** Parallel mode: once a reply completed, the flag is set and later chunks send nothing. */
  lemma ParallelSilentAfterReply(c: ConnState, data1: string, file: seq<bv8>, data2: string)
    requires !c.sendFileToClient && c.pending == []
    ensures var replied := AfterFileRead(AfterData(c, true, data1), file);
            replied.sendFileToClient && replied.written == c.written + Reply(file) &&
            AfterData(replied, true, data2) == replied
  {
  }

  /**
   * Parallel mode: the flag is set only in the callback, so two chunks that
   * arrive before the first read completes both start a read, and the file
   * is sent twice.
   */
  lemma ParallelSendsTwiceBeforeCallback(data1: string, data2: string, file: seq<bv8>)
    ensures var c0 := ConnState(false, [], []);
            var c2 := AfterData(AfterData(c0, true, data1), true, data2);
            c2.pending == [true, true] &&
            AfterFileRead(AfterFileRead(c2, file), file).written == Reply(file) + Reply(file)
  {
  }

  /** The connection after `chunks` arrive one by one with no read completing in between. */
  function Feed(c: ConnState, parallel: bool, chunks: seq<string>): ConnState
    decreases |chunks|
  {
    if chunks == [] then c else Feed(AfterData(c, parallel, chunks[0]), parallel, chunks[1..])
  }

  /** How many of the chunks carry the delimiter. */
  function DelimiterChunks(chunks: seq<string>): nat
  {
    if chunks == [] then 0
    else (if Contains(chunks[0], DELIMITER) then 1 else 0) + DelimiterChunks(chunks[1..])
  }

  /**
   * Sequential mode: each chunk with the delimiter starts exactly one read
   * (so one reply), the others none; the flag and the socket are untouched.
   */
  lemma {:induction false} SequentialReadsPerDelimiter(c: ConnState, chunks: seq<string>)
    ensures Feed(c, false, chunks).sendFileToClient == c.sendFileToClient
    ensures Feed(c, false, chunks).written == c.written
    ensures Feed(c, false, chunks).pending == c.pending + seq(DelimiterChunks(chunks), _ => false)
    decreases |chunks|
  {
    if chunks != [] {
      SequentialReadsPerDelimiter(AfterData(c, false, chunks[0]), chunks[1..]);
    }
  }

  /**
   * Parallel mode: before any read completes, every chunk starts a read, so
   * n chunks give n replies; with the flag already set, none.
   */
  lemma {:induction false} ParallelReadsPerChunk(c: ConnState, chunks: seq<string>)
    ensures !c.sendFileToClient ==>
      Feed(c, true, chunks) == c.(pending := c.pending + seq(|chunks|, _ => true))
    ensures c.sendFileToClient ==> Feed(c, true, chunks) == c
    decreases |chunks|
  {
    if chunks != [] {
      ParallelReadsPerChunk(AfterData(c, true, chunks[0]), chunks[1..]);
    }
  }
}
