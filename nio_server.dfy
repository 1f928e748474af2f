/**
 * NIOJavaSocketServer: one selector thread multiplexing every connection.
 * A selection key and its socket channel are modelled together as a Key
 * object; which operations a key is ready for, and what each channel call
 * does (read result, write success, accept or finishConnect failure), are
 * inputs.
 */
module NioServers {
  import opened Wrappers
  import opened Config

  /** The interest set a key is registered with (the code only ever sets one operation). */
  datatype Interest = OpAccept | OpRead | OpWrite | OpConnect

  /** The ByteBuffer parseInput inspects: whether it has a backing array, and its bytes decoded as UTF-8. */
  datatype Buffer = Buffer(hasArray: bool, text: string)

  /** parseInput: the decoded buffer contains the delimiter; false for a buffer without a backing array. */
  predicate ParseInput(b: Buffer)
  {
    b.hasArray && Contains(b.text, DELIMITER)
  }

  /** What channel.read does: throw an IOException, or return `count` (-1 at end of stream) with the buffer holding `text`. */
  datatype ChannelRead = ReadThrows | Read(count: int, text: string)

  /** The exception writeOperation throws when there is nothing to send; it leaves the key loop. */
  datatype SocketException = NoDataToSend

  /** Which operations a selected key is ready for (isAcceptable, isConnectable, isWritable, isReadable). */
  datatype Ready = Ready(acceptable: bool, connectable: bool, writable: bool, readable: bool)

  /**
   * Everything the handling of one selected key depends on: its readiness,
   * whether accept and finishConnect succeed, the file's bytes (None when it
   * could not be read), whether the write succeeds, and what the read returns.
   */
  datatype Event = Event(ready: Ready, acceptOk: bool, finishOk: bool,
                         data: Option<seq<bv8>>, writeOk: bool, read: ChannelRead)

  /** A key's observable state: interest, validity, its channel's openness and pending connection, bytes written. */
  datatype KeyState = KeyState(interest: Interest, valid: bool, open: bool, pending: bool, written: seq<seq<bv8>>)

  /** A selection key together with its socket channel. */
  class Key {
    var interest: Interest
    var valid: bool
    var open: bool
    var connectionPending: bool
    var written: seq<seq<bv8>>

    /** A key registered for `interest` on an open channel with no pending connection. */
    constructor(interest: Interest)
      ensures State() == KeyState(interest, true, true, false, [])
    {
      this.interest := interest;
      valid := true;
      open := true;
      connectionPending := false;
      written := [];
    }

    function State(): KeyState
      reads this
    {
      KeyState(interest, valid, open, connectionPending, written)
    }
  }

  /** The key after readOperation. */
  function AfterRead(s: KeyState, read: ChannelRead): KeyState
  {
    match read
    case ReadThrows => s.(valid := false, open := false)
    case Read(count, text) =>
      if ParseInput(Buffer(true, text)) then s.(interest := OpWrite)
      else if count == -1 then s.(valid := false, open := false)
      else s
  }

  /** The key after a writeOperation that had data to send. */
  function AfterWrite(s: KeyState, data: seq<bv8>, writeOk: bool): KeyState
  {
    if writeOk then s.(written := s.written + [data], interest := OpConnect) else s
  }

  /** The key after connectOperation. */
  function AfterConnect(s: KeyState, finishOk: bool): KeyState
  {
    if s.pending && finishOk then s.(pending := false) else s
  }

  /** The outcome of handling one selected key: its new state, whether the loop was left by an exception, whether a connection was accepted. */
  datatype Handling = Handling(state: KeyState, threw: bool, accepted: bool)

  /**
   * The key loop's body: an invalid key is skipped; otherwise accept,
   * connect, write and read are tested in that order, each independently.
   */
  function Handle(s: KeyState, e: Event): Handling
  {
    if !s.valid then Handling(s, false, false)
    else
      var accepted := e.ready.acceptable && e.acceptOk;
      var connected := if e.ready.connectable then AfterConnect(s, e.finishOk) else s;
      if e.ready.writable && e.data.None? then Handling(connected, true, accepted)
      else
        var wrote := if e.ready.writable then AfterWrite(connected, e.data.value, e.writeOk) else connected;
        var read := if e.ready.readable then AfterRead(wrote, e.read) else wrote;
        Handling(read, false, accepted)
  }

  /** How many selected keys one pass of the key loop removes: all of them, or up to the one whose write threw. */
  function HandledCount(states: seq<KeyState>, events: seq<Event>, i: nat): (n: nat)
    requires |states| == |events| && i <= |states|
    ensures i <= n <= |states|
    decreases |states| - i
  {
    if i == |states| then i
    else if Handle(states[i], events[i]).threw then i + 1
    else HandledCount(states, events, i + 1)
  }

  /** The server object's state: `serverSocketChannel != null`, `selector != null`, and whether each is still open. */
  datatype ServerState = ServerState(hasChannel: bool, hasSelector: bool, channelOpen: bool, selectorOpen: bool)

  /**
   * stop: with both references present, the channel is closed, then the
   * selector, then both references are cleared.  A JDK channel or selector
   * counts as closed as soon as its close() begins, even when the close then
   * throws, and closing it again returns at once.  A close that throws ends
   * stop there, with the references kept: a failing channel close leaves the
   * selector as it was, a failing selector close leaves both closed.
   * Without both references nothing happens.
   */
  function Stopped(s: ServerState, channelCloseOk: bool, selectorCloseOk: bool): (r: ServerState)
    ensures !(s.hasChannel && s.hasSelector) ==> r == s
    ensures s.hasChannel && s.hasSelector ==> !r.channelOpen
    ensures s.hasChannel && s.hasSelector ==> r.selectorOpen == (s.selectorOpen && s.channelOpen && !channelCloseOk)
    ensures s.hasChannel && s.hasSelector ==> r.hasChannel == r.hasSelector
    ensures s.hasChannel && s.hasSelector ==>
      (r.hasChannel <==> (s.channelOpen && !channelCloseOk) || (s.selectorOpen && !selectorCloseOk))
  {
    if !(s.hasChannel && s.hasSelector) then s
    else if s.channelOpen && !channelCloseOk then s.(channelOpen := false)
    else if s.selectorOpen && !selectorCloseOk then s.(channelOpen := false, selectorOpen := false)
    else ServerState(false, false, false, false)
  }

  class NioServer {
    /** `serverSocketChannel != null` */
    var hasChannel: bool
    /** `selector != null` */
    var hasSelector: bool
    var channelOpen: bool
    var selectorOpen: bool

    /** setUp: the channel is opened and bound and the selector opened (a failure exits the process). */
    constructor()
      ensures hasChannel && hasSelector && channelOpen && selectorOpen
    {
      hasChannel := true;
      hasSelector := true;
      channelOpen := true;
      selectorOpen := true;
    }

    /** The server's own fields: which references are held and which of the two are still open. */
    function State(): ServerState
      reads this
    {
      ServerState(hasChannel, hasSelector, channelOpen, selectorOpen)
    }

    /**
     * stop: only when both channel and selector are present are they closed
     * and cleared; see Stopped.  The two close outcomes are inputs.
     */
    method Stop(channelCloseOk: bool, selectorCloseOk: bool)
      modifies this
      ensures State() == Stopped(old(State()), channelCloseOk, selectorCloseOk)
    {
      if hasChannel && hasSelector {
        var channelThrows := channelOpen && !channelCloseOk;
        channelOpen := false;
        if channelThrows {
          return;  // IOException from serverSocketChannel.close(): logged
        }
        var selectorThrows := selectorOpen && !selectorCloseOk;
        selectorOpen := false;
        if selectorThrows {
          return;  // IOException from selector.close(): logged
        }
        hasSelector := false;
        hasChannel := false;
      }
    }

    /** acceptOperation: a successful accept registers the new channel for OP_READ. */
    method AcceptOperation(acceptOk: bool) returns (accepted: Option<Key>)
      ensures accepted.Some? <==> acceptOk
      ensures accepted.Some? ==> fresh(accepted.value) && accepted.value.State() == KeyState(OpRead, true, true, false, [])
    {
      if acceptOk {
        var k := new Key(OpRead);
        return Some(k);
      }
      return None;
    }

    /** connectOperation: finishConnect only while a connection is pending. */
    method ConnectOperation(key: Key, finishOk: bool)
      modifies key
      ensures key.State() == AfterConnect(old(key.State()), finishOk)
    {
      if key.connectionPending {
        if finishOk {
          key.connectionPending := false;
        }
      }
    }

    /**
     * writeOperation: without data a SocketException and no write; otherwise
     * the data is written and the interest becomes OP_CONNECT (a failed
     * write is logged and changes nothing).
     */
    method WriteOperation(key: Key, data: Option<seq<bv8>>, writeOk: bool) returns (r: Result<(), SocketException>)
      modifies key
      ensures r.Failure? <==> data.None?
      ensures data.None? ==> key.State() == old(key.State())
      ensures data.Some? ==> key.State() == AfterWrite(old(key.State()), data.value, writeOk)
    {
      if data.None? {
        return Failure(NoDataToSend);
      }
      if writeOk {
        key.written := key.written + [data.value];
        key.interest := OpConnect;
      }
      return Success(());
    }

    /**
     * readOperation: a delimiter in the buffer sets the interest to OP_WRITE;
     * otherwise a read of -1 closes the channel and cancels the key; an
     * IOException cancels and closes too.
     */
    method ReadOperation(key: Key, read: ChannelRead)
      modifies key
      ensures key.State() == AfterRead(old(key.State()), read)
    {
      match read
      case ReadThrows =>
        key.valid := false;
        key.open := false;
      case Read(readBytes, text) =>
        if ParseInput(Buffer(true, text)) {
          key.interest := OpWrite;
        } else if readBytes == -1 {
          key.open := false;
          key.valid := false;
        }
    }

    /** The body of the key loop for one selected key, already removed from the selected set. */
    method HandleKey(key: Key, e: Event) returns (r: Result<Option<Key>, SocketException>)
      modifies key
      ensures key.State() == Handle(old(key.State()), e).state
      ensures r.Failure? <==> Handle(old(key.State()), e).threw
      ensures r.Success? ==> (r.value.Some? <==> Handle(old(key.State()), e).accepted)
      ensures r.Success? && r.value.Some? ==>
        fresh(r.value.value) && r.value.value.State() == KeyState(OpRead, true, true, false, [])
    {
      if !key.valid {
        return Success(None);
      }
      var accepted := None;
      if e.ready.acceptable {
        accepted := AcceptOperation(e.acceptOk);
      }
      if e.ready.connectable {
        ConnectOperation(key, e.finishOk);
      }
      if e.ready.writable {
        var w := WriteOperation(key, e.data, e.writeOk);
        if w.Failure? {
          return Failure(w.error);
        }
      }
      if e.ready.readable {
        ReadOperation(key, e.read);
      }
      return Success(accepted);
    }

    /**
     * One pass over the selected keys, in order: each is removed and
     * handled; a SocketException from a write leaves the loop (start's
     * catch logs it) with the later keys still selected.  Returns how many
     * keys were removed and the keys accepted meanwhile.
     */
    method HandleSelected(keys: seq<Key>, events: seq<Event>, ghost before: seq<KeyState>)
      returns (handled: nat, accepted: seq<Key>)
      requires |keys| == |events| == |before|
      requires forall j, k | 0 <= j < k < |keys| :: keys[j] != keys[k]
      requires forall k | 0 <= k < |keys| :: keys[k].State() == before[k]
      modifies set k | 0 <= k < |keys| :: keys[k]
      ensures handled == HandledCount(before, events, 0)
      ensures forall k | 0 <= k < |keys| ::
        keys[k].State() == (if k < handled then Handle(before[k], events[k]).state else before[k])
      ensures forall a | a in accepted :: fresh(a) && a.State() == KeyState(OpRead, true, true, false, [])
    {
      handled := 0;
      accepted := [];
      while handled < |keys|
        invariant 0 <= handled <= |keys|
        invariant HandledCount(before, events, 0) == HandledCount(before, events, handled)
        invariant forall k | 0 <= k < |keys| ::
          keys[k].State() == (if k < handled then Handle(before[k], events[k]).state else before[k])
        invariant forall a | a in accepted :: fresh(a) && a.State() == KeyState(OpRead, true, true, false, [])
      {
        var key := keys[handled];
        var r := HandleKey(key, events[handled]);
        handled := handled + 1;
        if r.Failure? {
          return;
        }
        if r.value.Some? {
          accepted := accepted + [r.value.value];
        }
      }
    }

    /**
     * start over the selector rounds `rounds` (the thread is interrupted once
     * they run out): a round that selects nothing continues, any other round
     * is one pass of the key loop; afterwards stop runs.  Each round's keys
     * are the keys selected in it, with their states before it.
     */
    method Start(rounds: seq<Round>, channelCloseOk: bool, selectorCloseOk: bool)
      requires hasChannel && hasSelector
      requires forall r | r in rounds :: r.WellFormed()
      modifies this, set r, k | r in rounds && 0 <= k < |r.keys| :: r.keys[k]
      ensures State() == Stopped(old(State()), channelCloseOk, selectorCloseOk)
    {
      var i := 0;
      while i < |rounds|
        invariant 0 <= i <= |rounds|
        invariant State() == old(State())
      {
        var round := rounds[i];
        i := i + 1;
        if |round.keys| == 0 {
          continue;
        }
        assert round in rounds;
        var _, _ := HandleSelected(round.keys, round.events, round.States());
      }
      Stop(channelCloseOk, selectorCloseOk);
    }
  }

  /** One selector round: the keys select() reported, with what happens to each. */
  datatype Round = Round(keys: seq<Key>, events: seq<Event>)
  {
    /** The selected-key set holds each key once, with one event per key. */
    ghost predicate WellFormed()
    {
      |keys| == |events| && forall j, k | 0 <= j < k < |keys| :: keys[j] != keys[k]
    }

    /** The keys' states when the round begins. */
    function States(): (ss: seq<KeyState>)
      reads set k | 0 <= k < |keys| :: keys[k]
      ensures |ss| == |keys|
      ensures forall k | 0 <= k < |keys| :: ss[k] == keys[k].State()
    {
      seq(|keys|, k reads set k | 0 <= k < |keys| :: keys[k] requires 0 <= k < |keys| => keys[k].State())
    }
  }

  /** A stop whose two closes succeed closes and clears both, and any later stop changes nothing. */
  lemma StopIsIdempotent(s: ServerState, c1: bool, c2: bool, d1: bool, d2: bool)
    requires s.hasChannel && s.hasSelector && c1 && c2
    ensures Stopped(s, c1, c2) == ServerState(false, false, false, false)
    ensures Stopped(Stopped(s, c1, c2), d1, d2) == Stopped(s, c1, c2)
  {
  }

  /**
   * A selector that fails to close leaves both closed but still referenced;
   * a later stop closes nothing that can throw, so it clears both whatever
   * the outcomes it is given.
   */
  lemma SelectorFailureLeavesClosedChannel(s: ServerState, c1: bool, d1: bool, d2: bool)
    requires s.hasChannel && s.hasSelector && s.selectorOpen && (c1 || !s.channelOpen)
    ensures var r := Stopped(s, c1, false);
      r.hasChannel && r.hasSelector && !r.channelOpen && !r.selectorOpen
    ensures Stopped(Stopped(s, c1, false), d1, d2) == ServerState(false, false, false, false)
  {
  }

  /**
   * A channel that fails to close ends stop before the selector is touched;
   * a later stop skips the closed channel, and clears both unless the
   * selector's own close throws.
   */
  lemma ChannelFailureSkipsSelector(s: ServerState, d1: bool, c2: bool, d2: bool)
    requires s.hasChannel && s.hasSelector && s.channelOpen
    ensures Stopped(s, false, d1) == s.(channelOpen := false)
    ensures Stopped(Stopped(s, false, d1), c2, d2) ==
      if s.selectorOpen && !d2 then s.(channelOpen := false, selectorOpen := false)
      else ServerState(false, false, false, false)
  {
  }

  /** Whatever the outcomes, at most three stops leave both closed and cleared. */
  lemma ThirdStopClears(s: ServerState, c1: bool, d1: bool, c2: bool, d2: bool, c3: bool, d3: bool)
    requires s.hasChannel && s.hasSelector
    ensures Stopped(Stopped(Stopped(s, c1, d1), c2, d2), c3, d3) == ServerState(false, false, false, false)
  {
  }

  /**
   * readOperation's three outcomes: a delimiter switches the key to OP_WRITE
   * and keeps it; a read of -1 or an IOException cancels the key and closes
   * the channel; any other read leaves the key as it was.
   */
  lemma ReadOutcomes(s: KeyState, read: ChannelRead)
    ensures read.Read? && Contains(read.text, DELIMITER) ==>
      AfterRead(s, read) == s.(interest := OpWrite)
    ensures (read.ReadThrows? || (read.count == -1 && !Contains(read.text, DELIMITER))) ==>
      !AfterRead(s, read).valid && !AfterRead(s, read).open && AfterRead(s, read).written == s.written
    ensures read.Read? && read.count != -1 && !Contains(read.text, DELIMITER) ==> AfterRead(s, read) == s
  {
  }

  /**
   * The life of an accepted connection: registered for OP_READ, a request
   * carrying the delimiter turns it to OP_WRITE, and the next writable
   * selection writes the file once and turns it to OP_CONNECT.  This is one
   * illustrative path; ReadOutcomes covers every read outcome.
   */
  lemma RequestResponseCycle(request: string, n: int, data: seq<bv8>)
    requires Contains(request, DELIMITER)
    ensures var start := KeyState(OpRead, true, true, false, []);
            var afterRead := Handle(start, Event(Ready(false, false, false, true), false, false, None, false, Read(n, request)));
            var afterWrite := Handle(afterRead.state, Event(Ready(false, false, true, false), false, false, Some(data), true, Read(0, "")));
            afterRead.state.interest == OpWrite && afterRead.state.valid && !afterRead.threw &&
            afterWrite.state.interest == OpConnect && afterWrite.state.written == [data] && !afterWrite.threw
  {
  }

  /** A cancelled key is skipped: nothing changes, nothing is thrown or accepted. */
  lemma CancelledKeySkipped(s: KeyState, e: Event)
    requires !s.valid
    ensures Handle(s, e) == Handling(s, false, false)
  {
  }

  /** A key that throws is the last one the loop removes: keys before it did not throw. */
  lemma {:induction false} HandledCountStopsAtThrow(states: seq<KeyState>, events: seq<Event>, i: nat)
    requires |states| == |events| && i <= |states|
    ensures forall k | i <= k < HandledCount(states, events, i) - 1 :: !Handle(states[k], events[k]).threw
    ensures HandledCount(states, events, i) < |states| ==>
      Handle(states[HandledCount(states, events, i) - 1], events[HandledCount(states, events, i) - 1]).threw
    decreases |states| - i
  {
    if i < |states| && !Handle(states[i], events[i]).threw {
      HandledCountStopsAtThrow(states, events, i + 1);
    }
  }

  /** Without a throwing key every selected key is removed. */
  lemma {:induction false} HandledAllWithoutThrow(states: seq<KeyState>, events: seq<Event>, i: nat)
    requires |states| == |events| && i <= |states|
    requires forall k | i <= k < |states| :: !Handle(states[k], events[k]).threw
    ensures HandledCount(states, events, i) == |states|
    decreases |states| - i
  {
    if i < |states| {
      HandledAllWithoutThrow(states, events, i + 1);
    }
  }
}
