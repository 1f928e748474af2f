/**
 * MultiClient: a fixed list of clients and the four communication
 * scenarios.  Every scenario visits the clients one after the other, in list
 * order; each visit is connect, the scenario's exchange, a dwell, and
 * disconnect.  An IOException or an interrupted dwell ends that client's
 * visit only.  The dwell's outcome, the socket outcomes and the clock are
 * given per client in an `Env`.
 */
module MultiClients {
  import opened Wrappers
  import opened Config
  import opened Clients

  /**
   * What happens to one client during its visit: whether the server can be
   * reached, whether each of the three writes (payload, delimiter, delimiter
   * line) goes through, whether the dwell is interrupted, whether the socket
   * closes, and the clock.
   */
  datatype Env = Env(reachable: bool, dataOk: bool, delimiterOk: bool, lineOk: bool, dwellInterrupted: bool, closeOk: bool, clockNs: int)

  /** The client calls a scenario makes (a dwell is the Thread.sleep, of the injection duration, between exchange and disconnect). */
  datatype Op = ConnectOp | SendDataOp | SendDelimiterOp | ReceiveDataOp | DwellOp(millis: int) | DisconnectOp

  datatype Call = Call(clientID: int, op: Op)

  /** Thrown by the send scenarios when there is no payload to send. */
  datatype ScenarioError = ConnectionPendingException

  /** The calls a scenario makes between connect and the dwell. */
  function ExchangeOps(scenario: Scenario): seq<Op>
  {
    match scenario
    case Connection => []
    case Send => [SendDataOp]
    case Receive => [ReceiveDataOp]
    case SendReceive => [SendDataOp, SendDelimiterOp, ReceiveDataOp]
  }

  /** The calls made on one client: a failed connect ends the visit, an interrupted dwell skips disconnect. */
  function TurnOps(s: ClientState, scenario: Scenario, dwellMs: int, env: Env): seq<Op>
  {
    if ConnectFails(s, env.reachable) then [ConnectOp]
    else [ConnectOp] + ExchangeOps(scenario) + [DwellOp(dwellMs)] + (if env.dwellInterrupted then [] else [DisconnectOp])
  }

  /** The exchange of a scenario on a connected client. */
  function Exchanged(c: ClientState, measures: bool, scenario: Scenario, payload: seq<bv8>, env: Env): ClientState
  {
    match scenario
    case Connection => c
    case Send => SentData(c, measures, payload, env.dataOk, env.clockNs)
    case Receive => Received(c, measures, env.lineOk, env.clockNs)
    case SendReceive =>
      var sent := SentDelimiter(SentData(c, measures, payload, env.dataOk, env.clockNs), env.delimiterOk);
      Received(sent, measures, env.lineOk, env.clockNs)
  }

  /** A client's state after its visit. */
  function TurnState(s: ClientState, measures: bool, scenario: Scenario, payload: seq<bv8>, env: Env): ClientState
  {
    if ConnectFails(s, env.reachable) then s
    else
      var exchanged := Exchanged(Connected(s, measures, env.reachable, env.clockNs), measures, scenario, payload, env);
      if env.dwellInterrupted then exchanged else Disconnected(exchanged, env.closeOk)
  }

  function Tagged(id: int, ops: seq<Op>): (calls: seq<Call>)
    ensures |calls| == |ops|
  {
    if ops == [] then [] else [Call(id, ops[0])] + Tagged(id, ops[1..])
  }

  lemma {:induction false} TaggedAt(id: int, ops: seq<Op>, k: int)
    requires 0 <= k < |ops|
    ensures Tagged(id, ops)[k] == Call(id, ops[k])
  {
    if k > 0 {
      TaggedAt(id, ops[1..], k - 1);
    }
  }

  /** The calls of each client's visit, in list order. */
  function VisitsOps(before: seq<ClientState>, scenario: Scenario, dwellMs: int, envs: seq<Env>): (visits: seq<seq<Op>>)
    requires |before| == |envs|
    ensures |visits| == |before|
  {
    if before == [] then []
    else
      var n := |before| - 1;
      VisitsOps(before[..n], scenario, dwellMs, envs[..n]) + [TurnOps(before[n], scenario, dwellMs, envs[n])]
  }

  lemma {:induction false} VisitsOpsAt(before: seq<ClientState>, scenario: Scenario, dwellMs: int, envs: seq<Env>, k: int)
    requires |before| == |envs| && 0 <= k < |before|
    ensures VisitsOps(before, scenario, dwellMs, envs)[k] == TurnOps(before[k], scenario, dwellMs, envs[k])
  {
    var n := |before| - 1;
    if k < n {
      VisitsOpsAt(before[..n], scenario, dwellMs, envs[..n], k);
    }
  }

  /** Every client's state after its visit, in list order. */
  function AfterVisits(before: seq<ClientState>, measures: seq<bool>, scenario: Scenario, payload: seq<bv8>, envs: seq<Env>): (after: seq<ClientState>)
    requires |before| == |measures| == |envs|
    ensures |after| == |before|
  {
    if before == [] then []
    else
      var n := |before| - 1;
      AfterVisits(before[..n], measures[..n], scenario, payload, envs[..n]) +
        [TurnState(before[n], measures[n], scenario, payload, envs[n])]
  }

  lemma {:induction false} AfterVisitsAt(before: seq<ClientState>, measures: seq<bool>, scenario: Scenario, payload: seq<bv8>, envs: seq<Env>, k: int)
    requires |before| == |measures| == |envs| && 0 <= k < |before|
    ensures AfterVisits(before, measures, scenario, payload, envs)[k] == TurnState(before[k], measures[k], scenario, payload, envs[k])
  {
    var n := |before| - 1;
    if k < n {
      AfterVisitsAt(before[..n], measures[..n], scenario, payload, envs[..n], k);
    }
  }

  /** All calls of a scenario: the visits of the clients one after the other. */
  function Trace(ids: seq<int>, visits: seq<seq<Op>>): seq<Call>
    requires |ids| == |visits|
  {
    if ids == [] then []
    else
      var n := |ids| - 1;
      Trace(ids[..n], visits[..n]) + Tagged(ids[n], visits[n])
  }

  lemma TraceStep(ids: seq<int>, visits: seq<seq<Op>>, i: int)
    requires |ids| == |visits| && 0 <= i < |ids|
    ensures Trace(ids[..i + 1], visits[..i + 1]) == Trace(ids[..i], visits[..i]) + Tagged(ids[i], visits[i])
  {
    assert ids[..i + 1][..i] == ids[..i] && visits[..i + 1][..i] == visits[..i];
  }

  function Ids(cs: seq<SingleClient>): (ids: seq<int>)
    ensures |ids| == |cs|
  {
    if cs == [] then [] else Ids(cs[..|cs| - 1]) + [cs[|cs| - 1].clientID]
  }

  function MeasuresOf(cs: seq<SingleClient>): (ms: seq<bool>)
    ensures |ms| == |cs|
  {
    if cs == [] then [] else MeasuresOf(cs[..|cs| - 1]) + [cs[|cs| - 1].Measures()]
  }

  lemma {:induction false} IdsAt(cs: seq<SingleClient>, k: int)
    requires 0 <= k < |cs|
    ensures Ids(cs)[k] == cs[k].clientID && MeasuresOf(cs)[k] == cs[k].Measures()
  {
    if k < |cs| - 1 {
      IdsAt(cs[..|cs| - 1], k);
    }
  }

  function States(cs: seq<SingleClient>): (ss: seq<ClientState>)
    reads cs
    ensures |ss| == |cs|
  {
    if cs == [] then [] else States(cs[..|cs| - 1]) + [cs[|cs| - 1].State()]
  }

  lemma {:induction false} StatesAt(cs: seq<SingleClient>, k: int)
    requires 0 <= k < |cs|
    ensures States(cs)[k] == cs[k].State()
  {
    if k < |cs| - 1 {
      StatesAt(cs[..|cs| - 1], k);
    }
  }

  /** States(cs) is `ss` when every client's state is the matching entry. */
  lemma StatesAtAll(cs: seq<SingleClient>)
    ensures forall k :: 0 <= k < |cs| ==> States(cs)[k] == cs[k].State()
  {
    forall k | 0 <= k < |cs|
      ensures States(cs)[k] == cs[k].State()
    {
      StatesAt(cs, k);
    }
  }

  lemma StatesAreAll(cs: seq<SingleClient>, ss: seq<ClientState>)
    requires |cs| == |ss|
    requires forall k :: 0 <= k < |cs| ==> cs[k].State() == ss[k]
    ensures States(cs) == ss
  {
    forall k | 0 <= k < |cs|
      ensures States(cs)[k] == ss[k]
    {
      StatesAt(cs, k);
    }
  }

  class MultiClient {
    const clients: seq<SingleClient>

    /** No client object occurs twice in the list. */
    ghost predicate Valid()
    {
      forall i, j :: 0 <= i < |clients| && 0 <= j < |clients| && i != j ==> clients[i] != clients[j]
    }

    /** MultiClient(n): n fresh plain clients with ids 1..n, in order (none for n <= 0). */
    constructor(numberOfClients: int)
      ensures Valid()
      ensures |clients| == (if numberOfClients > 0 then numberOfClients else 0)
      ensures forall k :: 0 <= k < |clients| ==>
        fresh(clients[k]) && clients[k].clientID == k + 1 && !clients[k].Measures() &&
        clients[k].State() == ClientState(None, [], IDLE_METER)
    {
      var cs: seq<SingleClient> := [];
      var i := 0;
      while i < numberOfClients
        invariant i == 0 || i <= numberOfClients
        invariant |cs| == i
        invariant forall k :: 0 <= k < i ==>
          fresh(cs[k]) && cs[k].clientID == k + 1 && !cs[k].Measures() &&
          cs[k].State() == ClientState(None, [], IDLE_METER)
        invariant forall k, l :: 0 <= k < l < i ==> cs[k] != cs[l]
      {
        var c := new SingleClient(i + 1);
        cs := cs + [c];
        i := i + 1;
      }
      clients := cs;
    }

    /** MultiClient(list): the given clients, in the given order. */
    constructor FromList(cs: seq<SingleClient>)
      requires forall i, j :: 0 <= i < j < |cs| ==> cs[i] != cs[j]
      ensures Valid() && clients == cs
    {
      clients := cs;
    }

    /** One client's visit: connect, the exchange, the dwell, disconnect; errors end the visit. */
    method Visit(c: SingleClient, scenario: Scenario, dwellMs: int, payload: seq<bv8>, env: Env) returns (ops: seq<Op>)
      modifies c
      ensures c.State() == TurnState(old(c.State()), c.Measures(), scenario, payload, env)
      ensures ops == TurnOps(old(c.State()), scenario, dwellMs, env)
    {
      ops := [ConnectOp];
      var connected := c.Connect(env.reachable, env.clockNs);
      if connected.Failure? {
        return;  // IOException: logged, next client
      }
      match scenario {
        case Connection =>
        case Send =>
          var _ := c.SendData(payload, env.dataOk, env.clockNs);
        case Receive =>
          var _ := c.ReceiveData(env.lineOk, env.clockNs);
        case SendReceive =>
          var _ := c.SendData(payload, env.dataOk, env.clockNs);
          var _ := c.SendDelimiter(env.delimiterOk);
          var _ := c.ReceiveData(env.lineOk, env.clockNs);
      }
      ops := ops + ExchangeOps(scenario) + [DwellOp(dwellMs)];
      if env.dwellInterrupted {
        return;  // InterruptedException: logged, next client
      }
      ops := ops + [DisconnectOp];
      var _ := c.Disconnect(env.closeOk);
    }

    /** The visit of the i-th client, as entry i of the per-client specifications. */
    method VisitAt(i: int, scenario: Scenario, dwellMs: int, payload: seq<bv8>, envs: seq<Env>, ghost before: seq<ClientState>,
                   ghost after: seq<ClientState>, ghost visits: seq<seq<Op>>)
      returns (calls: seq<Call>)
      requires 0 <= i < |clients| == |before| == |envs| && clients[i].State() == before[i]
      requires after == AfterVisits(before, MeasuresOf(clients), scenario, payload, envs)
      requires visits == VisitsOps(before, scenario, dwellMs, envs)
      modifies clients[i]
      ensures clients[i].State() == after[i]
      ensures calls == Tagged(Ids(clients)[i], visits[i])
    {
      AfterVisitsAt(before, MeasuresOf(clients), scenario, payload, envs, i);
      VisitsOpsAt(before, scenario, dwellMs, envs, i);
      IdsAt(clients, i);
      var c := clients[i];
      var ops := Visit(c, scenario, dwellMs, payload, envs[i]);
      calls := Tagged(c.clientID, ops);
    }

    /**
     * The loop all four scenarios share: each client visited once, in list
     * order; client k ends as TurnState of its state before (AfterVisitsAt).
     */
    method VisitAll(scenario: Scenario, dwellMs: int, payload: seq<bv8>, envs: seq<Env>, ghost before: seq<ClientState>)
      returns (trace: seq<Call>)
      requires Valid() && |envs| == |clients| && States(clients) == before
      modifies clients
      ensures forall k :: 0 <= k < |clients| ==>
        clients[k].State() == AfterVisits(before, MeasuresOf(clients), scenario, payload, envs)[k]
      ensures trace == Trace(Ids(clients), VisitsOps(before, scenario, dwellMs, envs))
    {
      ghost var measures := MeasuresOf(clients);
      ghost var after := AfterVisits(before, measures, scenario, payload, envs);
      ghost var visits := VisitsOps(before, scenario, dwellMs, envs);
      ghost var ids := Ids(clients);
      StatesAtAll(clients);
      trace := [];
      var i := 0;
      while i < |clients|
        invariant 0 <= i <= |clients|
        invariant forall k :: 0 <= k < |clients| ==> clients[k].State() == (if k < i then after[k] else before[k])
        invariant trace == Trace(ids[..i], visits[..i])
      {
        TraceStep(ids, visits, i);
        var calls := VisitAt(i, scenario, dwellMs, payload, envs, before, after, visits);
        trace := trace + calls;
        i := i + 1;
      }
      assert ids[..i] == ids && visits[..i] == visits;
    }

    /** simulateConnection: connect, dwell, disconnect, for every client. */
    method SimulateConnection(injectionDurationMillis: int, envs: seq<Env>) returns (trace: seq<Call>)
      requires Valid() && |envs| == |clients|
      modifies clients
      ensures States(clients) == AfterVisits(old(States(clients)), MeasuresOf(clients), Connection, [], envs)
      ensures trace == Trace(Ids(clients), VisitsOps(old(States(clients)), Connection, injectionDurationMillis, envs))
    {
      ghost var after := AfterVisits(States(clients), MeasuresOf(clients), Connection, [], envs);
      trace := VisitAll(Connection, injectionDurationMillis, [], envs, States(clients));
      StatesAreAll(clients, after);
    }

    /** simulateReceiveServerCommunication: connect, receiveData, dwell, disconnect, for every client. */
    method SimulateReceive(injectionDurationMillis: int, envs: seq<Env>) returns (trace: seq<Call>)
      requires Valid() && |envs| == |clients|
      modifies clients
      ensures States(clients) == AfterVisits(old(States(clients)), MeasuresOf(clients), Receive, [], envs)
      ensures trace == Trace(Ids(clients), VisitsOps(old(States(clients)), Receive, injectionDurationMillis, envs))
    {
      ghost var after := AfterVisits(States(clients), MeasuresOf(clients), Receive, [], envs);
      trace := VisitAll(Receive, injectionDurationMillis, [], envs, States(clients));
      StatesAreAll(clients, after);
    }

    /**
     * simulateSendServerCommunication: without a payload (the file could not
     * be read) it throws before any client is touched.
     */
    method SimulateSend(injectionDurationMillis: int, payload: Option<seq<bv8>>, envs: seq<Env>) returns (r: Result<seq<Call>, ScenarioError>)
      requires Valid() && |envs| == |clients|
      modifies clients
      ensures payload.None? <==> r.Failure?
      ensures payload.None? ==> States(clients) == old(States(clients))
      ensures payload.Some? ==> States(clients) == AfterVisits(old(States(clients)), MeasuresOf(clients), Send, payload.value, envs)
      ensures payload.Some? ==> r.value == Trace(Ids(clients), VisitsOps(old(States(clients)), Send, injectionDurationMillis, envs))
    {
      if payload.None? {
        return Failure(ConnectionPendingException);
      }
      ghost var after := AfterVisits(States(clients), MeasuresOf(clients), Send, payload.value, envs);
      var trace := VisitAll(Send, injectionDurationMillis, payload.value, envs, States(clients));
      StatesAreAll(clients, after);
      r := Success(trace);
    }

    /** simulateSendReceiveServerCommunication: like send, then sendDelimiter and receiveData. */
    method SimulateSendReceive(injectionDurationMillis: int, payload: Option<seq<bv8>>, envs: seq<Env>) returns (r: Result<seq<Call>, ScenarioError>)
      requires Valid() && |envs| == |clients|
      modifies clients
      ensures payload.None? <==> r.Failure?
      ensures payload.None? ==> States(clients) == old(States(clients))
      ensures payload.Some? ==> States(clients) == AfterVisits(old(States(clients)), MeasuresOf(clients), SendReceive, payload.value, envs)
      ensures payload.Some? ==> r.value == Trace(Ids(clients), VisitsOps(old(States(clients)), SendReceive, injectionDurationMillis, envs))
    {
      if payload.None? {
        return Failure(ConnectionPendingException);
      }
      ghost var after := AfterVisits(States(clients), MeasuresOf(clients), SendReceive, payload.value, envs);
      var trace := VisitAll(SendReceive, injectionDurationMillis, payload.value, envs, States(clients));
      StatesAreAll(clients, after);
      r := Success(trace);
    }
  }

  // ---------------------------------------------------------------------
  // Properties
  // ---------------------------------------------------------------------

  /** The clients whose visit begins at each ConnectOp of a trace, in trace order. */
  function VisitOrder(trace: seq<Call>): seq<int>
  {
    if trace == [] then []
    else VisitOrder(trace[..|trace| - 1]) + (if trace[|trace| - 1].op == ConnectOp then [trace[|trace| - 1].clientID] else [])
  }

  lemma {:induction false} VisitOrderAppend(a: seq<Call>, b: seq<Call>)
    ensures VisitOrder(a + b) == VisitOrder(a) + VisitOrder(b)
  {
    if b != [] {
      var n := |b| - 1;
      assert (a + b)[..|a + b| - 1] == a + b[..n];
      VisitOrderAppend(a, b[..n]);
    } else {
      assert a + b == a;
    }
  }

  /** A visit's calls: it begins with connect, and connects nowhere else. */
  ghost predicate OneConnectFirst(ops: seq<Op>)
  {
    ops != [] && ops[0] == ConnectOp && forall k :: 1 <= k < |ops| ==> ops[k] != ConnectOp
  }

  /** Every visit connects exactly once, at its start. */
  lemma VisitConnectsFirst(s: ClientState, scenario: Scenario, dwellMs: int, env: Env)
    ensures OneConnectFirst(TurnOps(s, scenario, dwellMs, env))
  {
  }

  lemma {:induction false} VisitOrderOfVisit(id: int, ops: seq<Op>)
    requires OneConnectFirst(ops)
    ensures VisitOrder(Tagged(id, ops)) == [id]
  {
    var calls := Tagged(id, ops);
    forall k | 0 <= k < |ops|
      ensures calls[k] == Call(id, ops[k])
    {
      TaggedAt(id, ops, k);
    }
    OnlyFirstConnects(calls, id);
  }

  lemma {:induction false} OnlyFirstConnects(calls: seq<Call>, id: int)
    requires calls != [] && calls[0] == Call(id, ConnectOp)
    requires forall k :: 1 <= k < |calls| ==> calls[k].op != ConnectOp
    ensures VisitOrder(calls) == [id]
  {
    if |calls| > 1 {
      OnlyFirstConnects(calls[..|calls| - 1], id);
    } else {
      assert calls[..0] == [];
    }
  }

  /** Visits that each connect once, at their start, connect the clients in list order. */
  lemma {:induction false} ConnectsInListOrder(ids: seq<int>, visits: seq<seq<Op>>)
    requires |ids| == |visits|
    requires forall k :: 0 <= k < |visits| ==> OneConnectFirst(visits[k])
    ensures VisitOrder(Trace(ids, visits)) == ids
  {
    if ids != [] {
      var n := |ids| - 1;
      ConnectsInListOrder(ids[..n], visits[..n]);
      VisitOrderAppend(Trace(ids[..n], visits[..n]), Tagged(ids[n], visits[n]));
      VisitOrderOfVisit(ids[n], visits[n]);
      assert ids == ids[..n] + [ids[n]];
    }
  }

  /** Every scenario visits each client exactly once, in list order, one visit after the other. */
  lemma ClientsVisitedInOrder(ids: seq<int>, before: seq<ClientState>, scenario: Scenario, dwellMs: int, envs: seq<Env>)
    requires |ids| == |before| == |envs|
    ensures VisitOrder(Trace(ids, VisitsOps(before, scenario, dwellMs, envs))) == ids
  {
    var visits := VisitsOps(before, scenario, dwellMs, envs);
    forall k | 0 <= k < |visits|
      ensures OneConnectFirst(visits[k])
    {
      VisitsOpsAt(before, scenario, dwellMs, envs, k);
      VisitConnectsFirst(before[k], scenario, dwellMs, envs[k]);
    }
    ConnectsInListOrder(ids, visits);
  }

  /** A client that cannot be connected is left as it was and gets no further call. */
  lemma FailedConnectEndsVisit(s: ClientState, measures: bool, scenario: Scenario, dwellMs: int, payload: seq<bv8>, env: Env)
    requires ConnectFails(s, env.reachable)
    ensures TurnState(s, measures, scenario, payload, env) == s
    ensures TurnOps(s, scenario, dwellMs, env) == [ConnectOp]
  {
  }

  /** A visit whose dwell is interrupted skips disconnect and leaves the client connected. */
  lemma InterruptedDwellStaysConnected(s: ClientState, measures: bool, scenario: Scenario, dwellMs: int, payload: seq<bv8>, env: Env)
    requires !ConnectFails(s, env.reachable) && env.dwellInterrupted
    ensures TurnState(s, measures, scenario, payload, env).socket.Some?
    ensures DisconnectOp !in TurnOps(s, scenario, dwellMs, env)
  {
  }

  /** A connected client dwells exactly once, for the given duration, and never for another. */
  lemma ConnectedVisitDwells(s: ClientState, scenario: Scenario, dwellMs: int, env: Env)
    requires !ConnectFails(s, env.reachable)
    ensures DwellOp(dwellMs) in TurnOps(s, scenario, dwellMs, env)
    ensures forall op :: op in TurnOps(s, scenario, dwellMs, env) && op.DwellOp? ==> op.millis == dwellMs
  {
  }

  /** A visit whose dwell and close succeed ends disconnected. */
  lemma CleanVisitDisconnects(s: ClientState, measures: bool, scenario: Scenario, payload: seq<bv8>, env: Env)
    requires !ConnectFails(s, env.reachable) && !env.dwellInterrupted && env.closeOk
    ensures TurnState(s, measures, scenario, payload, env).socket.None?
  {
  }

  /**
   * Send-receive on a client that connects and whose writes succeed writes
   * the payload, the delimiter, and the delimiter again with a newline.
   */
  lemma SendReceiveWritesDelimiterTwice(s: ClientState, measures: bool, payload: seq<bv8>, env: Env)
    requires !ConnectFails(s, env.reachable) && env.dataOk && env.delimiterOk && env.lineOk
    ensures TurnState(s, measures, SendReceive, payload, env).written ==
      s.written + [Bytes(payload), Text(DELIMITER), Text(DELIMITER + "\n")]
  {
  }

  /**
   * Each write of send-receive catches its own IOException: a failed write
   * loses only its own chunk, and the later writes still go out.
   */
  lemma SendReceiveWritesIndependently(s: ClientState, measures: bool, payload: seq<bv8>, env: Env)
    requires !ConnectFails(s, env.reachable)
    ensures TurnState(s, measures, SendReceive, payload, env).written ==
      s.written + (if env.dataOk then [Bytes(payload)] else []) +
      (if env.delimiterOk then [Text(DELIMITER)] else []) +
      (if env.lineOk then [Text(DELIMITER_LINE)] else [])
  {
  }
}
