/**
 * SocketClient of the thread-based server: the thread serving one accepted
 * connection.  It reads until a line carrying the delimiter arrives, answers
 * once with the file, and closes the connection.  The socket's streams are
 * replaced by inputs: what each read returns (see Receipt), whether the file
 * could be read, and whether the write and the closing succeed.
 */
module SocketClients {
  import opened Wrappers
  import opened Config

  /** ClientState: ACTIVE while serving, IN_ACTIVE once the answer has gone out. */
  datatype ClientState = Active | InActive

  /**
   * What one call of receive finds on the input stream: either read() throws
   * an IOException, or it returns `result` (a byte, or -1 at the end of the
   * stream) and parseInput's readLine then returns `lines` before it returns
   * null or throws (parseInput catches that exception itself).
   */
  datatype Receipt =
    | ReadFails
    | ReadByte(result: int, lines: seq<string>)

  /** The exception that escapes run: collectSendingBytes returned null and the write dereferences it. */
  datatype Fault = NullPointer

  /** Some line carries the delimiter. */
  predicate HasDelimiterLine(lines: seq<string>)
  {
    exists k | 0 <= k < |lines| :: Contains(lines[k], DELIMITER)
  }

  /**
   * parseInput: reads lines until one contains the delimiter, and no further.
   * `consumed` is the number of lines taken from the reader.
   */
  method ParseInput(lines: seq<string>) returns (delimiterDetected: bool, consumed: nat)
    ensures delimiterDetected <==> HasDelimiterLine(lines)
    ensures consumed <= |lines|
    ensures delimiterDetected ==> 1 <= consumed && Contains(lines[consumed - 1], DELIMITER)
    ensures delimiterDetected ==> forall k | 0 <= k < consumed - 1 :: !Contains(lines[k], DELIMITER)
    ensures !delimiterDetected ==> consumed == |lines|
  {
    delimiterDetected := false;
    consumed := 0;
    while consumed < |lines|
      invariant 0 <= consumed <= |lines|
      invariant forall k | 0 <= k < consumed :: !Contains(lines[k], DELIMITER)
    {
      var line := lines[consumed];
      consumed := consumed + 1;
      if Contains(line, DELIMITER) {
        delimiterDetected := true;
        break;
      }
    }
  }

  /** The value receive returns: -1 when the socket cannot be read or read() throws. */
  function ReadResult(usable: bool, r: Receipt): int
  {
    if usable && r.ReadByte? then r.result else -1
  }

  /** delimiterDetected after receive: recomputed only when read() returned. */
  predicate DetectedAfter(usable: bool, detected: bool, r: Receipt)
  {
    if usable && r.ReadByte? then HasDelimiterLine(r.lines) else detected
  }

  /** How run's loop ends. */
  datatype SessionEnd =
    | Replied(pass: nat)     // the delimiter was detected on this pass: send, then IN_ACTIVE
    | PeerClosed(pass: nat)  // no delimiter and read returned -1 on this pass: break
    | Waiting                // the given reads ran out with the thread still serving

  /** run's loop from pass `i` on, with delimiterDetected equal to `detected`. */
  function Session(usable: bool, detected: bool, receipts: seq<Receipt>, i: nat): SessionEnd
    decreases |receipts| - i
  {
    if i >= |receipts| then Waiting
    else if DetectedAfter(usable, detected, receipts[i]) then Replied(i)
    else if ReadResult(usable, receipts[i]) == -1 then PeerClosed(i)
    else Session(usable, false, receipts, i + 1)
  }

  class SocketClient {
    const id: int
    /** `socket != null` */
    const hasSocket: bool
    /** `socket.isConnected()`: true once the socket was ever connected */
    const isConnected: bool
    var clientState: ClientState
    var delimiterDetected: bool
    /** Payloads written to the output stream, in order. */
    var written: seq<seq<bv8>>
    /** The streams and the socket have been closed. */
    var closed: bool

    /** A new client serving `socket`: ACTIVE, nothing detected, written or closed. */
    constructor(id: int, hasSocket: bool, isConnected: bool)
      ensures this.id == id && this.hasSocket == hasSocket && this.isConnected == isConnected
      ensures clientState == Active && !delimiterDetected && written == [] && !closed
    {
      this.id := id;
      this.hasSocket := hasSocket;
      this.isConnected := isConnected;
      clientState := Active;
      delimiterDetected := false;
      written := [];
      closed := false;
    }

    /** The guard of send and receive: `socket != null && socket.isConnected()`. */
    predicate Usable()
    {
      hasSocket && isConnected
    }

    /**
     * receive: -1 without reading unless the socket is usable; otherwise
     * read()'s result, and delimiterDetected becomes parseInput's answer
     * (unless read() threw, which leaves both untouched).
     */
    method Receive(r: Receipt) returns (readBytes: int)
      modifies this
      ensures readBytes == ReadResult(Usable(), r)
      ensures delimiterDetected == DetectedAfter(Usable(), old(delimiterDetected), r)
      ensures clientState == old(clientState) && written == old(written) && closed == old(closed)
    {
      readBytes := -1;
      if hasSocket && isConnected {
        match r
        case ReadFails =>
        case ReadByte(result, lines) =>
          readBytes := result;
          var detected, _ := ParseInput(lines);
          delimiterDetected := detected;
      }
    }

    /**
     * send: false without writing unless the socket is usable; otherwise the
     * file is written and the result says whether the write succeeded.  A
     * file that could not be read (`payload` None) ends in a NullPointerException.
     */
    method Send(payload: Option<seq<bv8>>, writeOk: bool) returns (r: Result<bool, Fault>)
      modifies this
      ensures !Usable() ==> r == Success(false) && written == old(written)
      ensures Usable() && payload.None? ==> r == Failure(NullPointer) && written == old(written)
      ensures Usable() && payload.Some? ==>
        r == Success(writeOk) && written == old(written) + (if writeOk then [payload.value] else [])
      ensures clientState == old(clientState) && delimiterDetected == old(delimiterDetected) && closed == old(closed)
    {
      r := Success(false);
      if hasSocket && isConnected {
        if payload.None? {
          return Failure(NullPointer);
        }
        if writeOk {
          written := written + [payload.value];
          r := Success(true);
        }
      }
    }

    /** cleanUp: with a socket, the streams and the socket are closed (unless closing throws). */
    method CleanUp(closeOk: bool)
      modifies this
      ensures closed == (old(closed) || (hasSocket && closeOk))
      ensures clientState == old(clientState) && delimiterDetected == old(delimiterDetected) && written == old(written)
    {
      if hasSocket && closeOk {
        closed := true;
      }
    }

    /**
     * run over the reads `receipts`: receive on every pass; on a detected
     * delimiter send once and turn IN_ACTIVE; on -1 without a delimiter stop;
     * cleanUp after the loop.  A NullPointerException from send ends the
     * thread before cleanUp.
     */
    method Run(receipts: seq<Receipt>, payload: Option<seq<bv8>>, writeOk: bool, closeOk: bool)
      returns (r: Result<SessionEnd, Fault>)
      requires clientState == Active && !delimiterDetected
      modifies this
      ensures r.Failure? <==> Session(Usable(), false, receipts, 0).Replied? && payload.None?
      ensures r.Success? ==> r.value == Session(Usable(), false, receipts, 0)
      ensures r.Success? && r.value.Replied? ==>
        clientState == InActive && written == old(written) + (if writeOk then [payload.value] else [])
      ensures !(r.Success? && r.value.Replied?) ==> clientState == Active && written == old(written)
      ensures closed == (old(closed) || (r.Success? && !r.value.Waiting? && hasSocket && closeOk))
    {
      ghost var spec := Session(Usable(), false, receipts, 0);
      var end := Waiting;
      var i := 0;
      while clientState == Active
        invariant 0 <= i <= |receipts|
        invariant closed == old(closed)
        invariant clientState == Active ==>
          spec == Session(Usable(), false, receipts, i) && written == old(written) && !delimiterDetected
        invariant clientState == InActive ==>
          spec == end && end.Replied? && payload.Some? &&
          written == old(written) + (if writeOk then [payload.value] else [])
        decreases |receipts| - i
      {
        if i == |receipts| {
          return Success(Waiting);
        }
        var readBytes := Receive(receipts[i]);
        if delimiterDetected {
          var sent := Send(payload, writeOk);
          if sent.Failure? {
            return Failure(sent.error);
          }
          clientState := InActive;
          end := Replied(i);
        } else if readBytes == -1 {
          end := PeerClosed(i);
          break;
        }
        i := i + 1;
      }
      CleanUp(closeOk);
      r := Success(end);
    }
  }

  /** On a socket that cannot be read, a fresh client's first pass ends the loop without answering. */
  lemma UnusableSessionCloses(receipts: seq<Receipt>)
    requires receipts != []
    ensures Session(false, false, receipts, 0) == PeerClosed(0)
  {
  }

  /** The read on a pass detects the delimiter. */
  predicate Detects(r: Receipt)
  {
    r.ReadByte? && HasDelimiterLine(r.lines)
  }

  /** The pass that ends the loop comes no earlier than the pass it starts from. */
  lemma {:induction false} SessionPassFrom(usable: bool, detected: bool, receipts: seq<Receipt>, i: nat)
    ensures !Session(usable, detected, receipts, i).Waiting? ==> Session(usable, detected, receipts, i).pass >= i
    decreases |receipts| - i
  {
    if i < |receipts| && !DetectedAfter(usable, detected, receipts[i]) && ReadResult(usable, receipts[i]) != -1 {
      SessionPassFrom(usable, false, receipts, i + 1);
    }
  }

  /**
   * On a usable socket the client answers on pass k exactly when pass k
   * brings a delimiter line and every earlier pass read something without one.
   */
  lemma {:induction false} RepliedIff(receipts: seq<Receipt>, i: nat, k: nat)
    requires i <= k
    ensures Session(true, false, receipts, i) == Replied(k) <==>
      k < |receipts| && Detects(receipts[k]) &&
      forall j | i <= j < k :: !Detects(receipts[j]) && ReadResult(true, receipts[j]) != -1
    decreases |receipts| - i
  {
    if i < |receipts| {
      if i == k {
        SessionPassFrom(true, false, receipts, i + 1);
      } else if !Detects(receipts[i]) && ReadResult(true, receipts[i]) != -1 {
        RepliedIff(receipts, i + 1, k);
      }
    }
  }
}
