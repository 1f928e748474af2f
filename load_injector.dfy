/**
 * LoadInjector with its only subclass MultiplexLoadInjector: one batch of
 * clients, the last of them measuring, whose scenario runs once on the
 * injector's own thread.  The thread's lifetime is the `alive` flag; its
 * body is Run.
 */
module Injectors {
  import opened Wrappers
  import opened Config
  import opened ResponseTimes
  import opened BatchResults
  import opened Clients
  import opened MultiClients

  /** getClass().getSimpleName() of the one concrete injector. */
  const INJECTION_METHOD: string := "MultiplexLoadInjector"

  /** The scenarios that first read the payload file (and throw without one). */
  predicate NeedsPayload(scenario: Scenario)
  {
    scenario == Send || scenario == SendReceive
  }

  /** The payload the scenario hands to its clients: none for the scenarios that send nothing. */
  function SentPayload(scenario: Scenario, payload: Option<seq<bv8>>): seq<bv8>
  {
    if NeedsPayload(scenario) && payload.Some? then payload.value else []
  }

  /** The batch size createClients produces: totalClients - 1 plain clients plus the measurement client. */
  function BatchSize(totalClients: int): (n: nat)
    ensures n >= 1
    ensures n == totalClients || (totalClients <= 0 && n == 1)
  {
    if totalClients >= 1 then totalClients else 1
  }

  /** The states with the measuring loop of the last client (the measurement client) set to `on`. */
  function WithMeasuring(ss: seq<ClientState>, on: bool): (r: seq<ClientState>)
    requires |ss| > 0
    ensures |r| == |ss|
    ensures forall k :: 0 <= k < |ss| - 1 ==> r[k] == ss[k]
    ensures r[|ss| - 1] == ss[|ss| - 1].(meter := ss[|ss| - 1].meter.(isRunning := on))
  {
    var last := ss[|ss| - 1];
    ss[|ss| - 1 := last.(meter := last.meter.(isRunning := on))]
  }

  /** The states with the measuring loop's passes applied to the last client (the measurement client). */
  function WithPolls(ss: seq<ClientState>, scenario: Scenario, polls: seq<PollInput>): (r: seq<ClientState>)
    requires |ss| > 0
    ensures |r| == |ss|
    ensures forall k :: 0 <= k < |ss| - 1 ==> r[k] == ss[k]
    ensures r[|ss| - 1] == PolledAll(ss[|ss| - 1], scenario, polls)
  {
    ss[|ss| - 1 := PolledAll(ss[|ss| - 1], scenario, polls)]
  }

  /** A visit leaves the measuring loop's flag as it found it. */
  lemma TurnKeepsLoop(s: ClientState, measures: bool, scenario: Scenario, payload: seq<bv8>, env: Env)
    ensures TurnState(s, measures, scenario, payload, env).meter.isRunning == s.meter.isRunning
  {
  }

  class LoadInjector {
    const clientIdRange: int
    const injectionDurationMillis: int
    /** Config.MEASURING_TYPE, fixed when the injector is built. */
    const measuringType: Scenario
    const results: InjectorResults
    const multiClient: MultiClient
    const measurementClient: SingleClient
    /** Thread.isAlive: started and not yet finished. */
    var alive: bool

    /**
     * The shape createClients builds: distinct clients with consecutive ids
     * from clientIdRange on, plain ones first and the measurement client,
     * sharing `results`, last.
     */
    ghost predicate Valid()
    {
      var cs := multiClient.clients;
      multiClient.Valid() && |cs| >= 1 &&
      measurementClient == cs[|cs| - 1] &&
      measurementClient.results == Some(results) &&
      (forall k :: 0 <= k < |cs| - 1 ==> cs[k].results == None) &&
      (forall k :: 0 <= k < |cs| ==> cs[k].clientID == clientIdRange + k)
    }

    /**
     * LoadInjector(clientIdRange, totalClients, injectionDurationMillis, results)
     * with prepareInjection and createClients: the record is labelled and
     * sized, and max(totalClients, 1) fresh idle clients are built.
     */
    constructor(clientIdRange: int, totalClients: int, injectionDurationMillis: int, results: InjectorResults, measuringType: Scenario)
      modifies results
      ensures Valid() && !alive
      ensures this.clientIdRange == clientIdRange && this.injectionDurationMillis == injectionDurationMillis
      ensures this.results == results && this.measuringType == measuringType
      ensures |multiClient.clients| == BatchSize(totalClients)
      ensures forall k :: 0 <= k < |multiClient.clients| ==>
        fresh(multiClient.clients[k]) && multiClient.clients[k].State() == ClientState(None, [], IDLE_METER)
      ensures results.injectionMethod == Some(INJECTION_METHOD) && results.totalClients == totalClients
      ensures results.startTimeInNanos == old(results.startTimeInNanos)
      ensures results.stopTimeInNanos == old(results.stopTimeInNanos)
      ensures results.responseTimes == old(results.responseTimes)
    {
      results.SetInjectionMethod(Some(INJECTION_METHOD));
      results.SetTotalClients(totalClients);
      var id := clientIdRange;
      var cs: seq<SingleClient> := [];
      var i := 0;
      while i < totalClients - 1
        invariant i == 0 || i <= totalClients - 1
        invariant |cs| == i && id == clientIdRange + i
        invariant forall k :: 0 <= k < i ==>
          fresh(cs[k]) && cs[k].clientID == clientIdRange + k && cs[k].results == None &&
          cs[k].State() == ClientState(None, [], IDLE_METER)
        invariant forall k, l :: 0 <= k < l < i ==> cs[k] != cs[l]
        modifies {}
      {
        var c := new SingleClient(id);
        cs := cs + [c];
        id := id + 1;
        i := i + 1;
      }
      var m := new SingleClient.Measuring(id, results);
      cs := cs + [m];
      this.clientIdRange := clientIdRange;
      this.injectionDurationMillis := injectionDurationMillis;
      this.measuringType := measuringType;
      this.results := results;
      measurementClient := m;
      multiClient := new MultiClient.FromList(cs);
      alive := false;
    }

    /** getMultiClient */
    function GetMultiClient(): (mc: MultiClient)
      ensures mc == multiClient
    {
      multiClient
    }

    /** getInjectionDurationMillis: the value given to the constructor. */
    function GetInjectionDurationMillis(): (d: int)
      ensures d == injectionDurationMillis
    {
      injectionDurationMillis
    }

    /** Thread.start: the thread is alive until its body returns. */
    method Start()
      modifies this
      ensures alive
    {
      alive := true;
    }

    /**
     * The thread has returned from run (or been joined): isAlive is false
     * from now on.  Run models what the thread does meanwhile.
     */
    method Terminate()
      modifies this
      ensures !alive
    {
      alive := false;
    }

    /**
     * MultiplexLoadInjector.inject: exactly one MultiClient scenario, the one
     * measuringType names, with the injection duration as every client's
     * dwell (the enumeration has no other value, so the System.exit branch
     * cannot be taken).
     */
    method Inject(payload: Option<seq<bv8>>, envs: seq<Env>) returns (r: Result<seq<Call>, ScenarioError>)
      requires Valid() && |envs| == |multiClient.clients|
      modifies multiClient.clients
      ensures r.Failure? <==> NeedsPayload(measuringType) && payload.None?
      ensures r.Failure? ==> States(multiClient.clients) == old(States(multiClient.clients))
      ensures r.Success? ==>
        States(multiClient.clients) == AfterVisits(old(States(multiClient.clients)), MeasuresOf(multiClient.clients), measuringType, SentPayload(measuringType, payload), envs)
      ensures r.Success? ==> r.value == Trace(Ids(multiClient.clients), VisitsOps(old(States(multiClient.clients)), measuringType, injectionDurationMillis, envs))
    {
      var mc := GetMultiClient();
      ghost var sent := SentPayload(measuringType, payload);
      match measuringType {
        case Connection =>
          assert sent == [];
          var trace := mc.SimulateConnection(GetInjectionDurationMillis(), envs);
          r := Success(trace);
        case Send =>
          assert payload.Some? ==> sent == payload.value;
          r := mc.SimulateSend(GetInjectionDurationMillis(), payload, envs);
        case Receive =>
          assert sent == [];
          var trace := mc.SimulateReceive(GetInjectionDurationMillis(), envs);
          r := Success(trace);
        case SendReceive =>
          assert payload.Some? ==> sent == payload.value;
          r := mc.SimulateSendReceive(GetInjectionDurationMillis(), payload, envs);
      }
    }

    /**
     * run: stamp the start, then MeasuredInject, then stamp the stop.  An
     * exception from inject ends the thread before the stop stamp.  The
     * clock readings are inputs; `polls` are the passes the measuring thread
     * completes while run is under way, and every sample they take lands in
     * this injector's record.  Once run has returned the thread is no longer
     * alive, which is Terminate.
     */
    method Run(startNs: int, stopNs: int, payload: Option<seq<bv8>>, envs: seq<Env>, polls: seq<PollInput>, ghost before: seq<ClientState>)
      returns (r: Result<seq<Call>, ScenarioError>)
      requires Valid() && |envs| == |multiClient.clients| && States(multiClient.clients) == before
      modifies results, multiClient.clients
      ensures r.Failure? <==> NeedsPayload(measuringType) && payload.None?
      ensures results.startTimeInNanos == startNs
      ensures results.stopTimeInNanos == if r.Success? then stopNs else old(results.stopTimeInNanos)
      ensures results.injectionMethod == old(results.injectionMethod) && results.totalClients == old(results.totalClients)
      ensures results.responseTimes == old(results.responseTimes) + RunSamples(before, r.Success?, payload, envs, polls)
      ensures States(multiClient.clients) == Measured(before, r.Success?, payload, envs, polls)
      ensures r.Success? ==>
        r.value == Trace(Ids(multiClient.clients), VisitsOps(WithMeasuring(before, true), measuringType, injectionDurationMillis, envs))
    {
      // the record is none of the clients
      assert forall k | 0 <= k < |multiClient.clients| :: multiClient.clients[k] as object != results as object;
      results.MeasureStartTime(startNs);
      assert States(multiClient.clients) == before;
      r := MeasuredInject(payload, envs, polls, before);
      ghost var final := Measured(before, r.Success?, payload, envs, polls);
      if r.Success? {
        results.MeasureStopTime(stopNs);
      }
      assert States(multiClient.clients) == final;
    }

    /**
     * The client side of the states run passes through: the measuring loop
     * on, then (unless inject threw) the visits, then the measuring thread's
     * passes, and (unless inject threw) the loop off again.
     */
    ghost function Measured(before: seq<ClientState>, injected: bool, payload: Option<seq<bv8>>, envs: seq<Env>, polls: seq<PollInput>): seq<ClientState>
      requires |before| == |multiClient.clients| == |envs| > 0
    {
      var polled := WithPolls(Injected(before, injected, payload, envs), measuringType, polls);
      if injected then WithMeasuring(polled, false) else polled
    }

    /** The clients after startMeasuring and, unless it threw, inject. */
    ghost function Injected(before: seq<ClientState>, injected: bool, payload: Option<seq<bv8>>, envs: seq<Env>): (r: seq<ClientState>)
      requires |before| == |multiClient.clients| == |envs| > 0
      ensures |r| == |before|
    {
      var started := WithMeasuring(before, true);
      if !injected then started
      else AfterVisits(started, MeasuresOf(multiClient.clients), measuringType, SentPayload(measuringType, payload), envs)
    }

    /** The samples the measuring thread adds to the record during run. */
    ghost function RunSamples(before: seq<ClientState>, injected: bool, payload: Option<seq<bv8>>, envs: seq<Env>, polls: seq<PollInput>): seq<ResponseTime>
      requires |before| == |multiClient.clients| == |envs| > 0
    {
      var visited := Injected(before, injected, payload, envs);
      PolledSamples(visited[|visited| - 1], measuringType, polls)
    }

    /**
     * After a normal run the measuring loop is off again; when inject throws
     * it is left running, since stopMeasuring is never reached.
     */
    lemma MeasuringLoopAfterRun(before: seq<ClientState>, injected: bool, payload: Option<seq<bv8>>, envs: seq<Env>, polls: seq<PollInput>)
      requires Valid() && |before| == |multiClient.clients| == |envs|
      ensures Measured(before, injected, payload, envs, polls)[|before| - 1].meter.isRunning == !injected
    {
      var visited := Injected(before, injected, payload, envs);
      VisitKeepsLoop(before, injected, payload, envs);
      PollsRecordPendingOnce(visited[|before| - 1], measuringType, polls);
    }

    /** The measurement client's loop is on once startMeasuring has run: visits do not switch it. */
    lemma VisitKeepsLoop(before: seq<ClientState>, injected: bool, payload: Option<seq<bv8>>, envs: seq<Env>)
      requires Valid() && |before| == |multiClient.clients| == |envs|
      ensures Injected(before, injected, payload, envs)[|before| - 1].meter.isRunning
    {
      var n := |before| - 1;
      if injected {
        var started := WithMeasuring(before, true);
        AfterVisitsAt(started, MeasuresOf(multiClient.clients), measuringType, SentPayload(measuringType, payload), envs, n);
        TurnKeepsLoop(started[n], MeasuresOf(multiClient.clients)[n], measuringType, SentPayload(measuringType, payload), envs[n]);
      }
    }

    /**
     * The measuring thread records during a run exactly one sample when the
     * measurement client's visit left a measurement pending and the thread
     * completes at least one pass, stamped by the first pass; otherwise none.
     */
    lemma RunRecordsPendingMeasurement(before: seq<ClientState>, injected: bool, payload: Option<seq<bv8>>, envs: seq<Env>, polls: seq<PollInput>)
      requires Valid() && |before| == |multiClient.clients| == |envs|
      ensures var last := Injected(before, injected, payload, envs)[|before| - 1];
        RunSamples(before, injected, payload, envs, polls) ==
          if last.meter.isMeasuring && polls != [] then [ResponseTime(last.meter.startTimeNs, polls[0].stopNs)] else []
    {
      var visited := Injected(before, injected, payload, envs);
      VisitKeepsLoop(before, injected, payload, envs);
      PollsRecordPendingOnce(visited[|before| - 1], measuringType, polls);
    }

    /**
     * Every client but the last ends a normal run exactly as its own visit
     * leaves it: switching the measuring loop and its passes touch only the
     * measurement client.
     */
    lemma PlainClientsSeeOnlyTheirVisit(before: seq<ClientState>, payload: Option<seq<bv8>>, envs: seq<Env>, polls: seq<PollInput>, k: int)
      requires Valid() && |before| == |multiClient.clients| == |envs|
      requires 0 <= k < |before| - 1
      ensures Measured(before, true, payload, envs, polls)[k] ==
        TurnState(before[k], false, measuringType, SentPayload(measuringType, payload), envs[k])
    {
      var started := WithMeasuring(before, true);
      IdsAt(multiClient.clients, k);
      AfterVisitsAt(started, MeasuresOf(multiClient.clients), measuringType, SentPayload(measuringType, payload), envs, k);
    }

    /**
     * startMeasuring, inject, stopMeasuring: the last step only when inject
     * returns normally.  Meanwhile the measuring thread completes `polls`.
     */
    method MeasuredInject(payload: Option<seq<bv8>>, envs: seq<Env>, polls: seq<PollInput>, ghost before: seq<ClientState>)
      returns (r: Result<seq<Call>, ScenarioError>)
      requires Valid() && |envs| == |multiClient.clients| && States(multiClient.clients) == before
      modifies multiClient.clients, results
      ensures r.Failure? <==> NeedsPayload(measuringType) && payload.None?
      ensures States(multiClient.clients) == Measured(before, r.Success?, payload, envs, polls)
      ensures results.responseTimes == old(results.responseTimes) + RunSamples(before, r.Success?, payload, envs, polls)
      ensures results.startTimeInNanos == old(results.startTimeInNanos) && results.stopTimeInNanos == old(results.stopTimeInNanos)
      ensures results.injectionMethod == old(results.injectionMethod) && results.totalClients == old(results.totalClients)
      ensures r.Success? ==>
        r.value == Trace(Ids(multiClient.clients), VisitsOps(WithMeasuring(before, true), measuringType, injectionDurationMillis, envs))
    {
      ghost var started := WithMeasuring(before, true);
      SwitchMeasuring(true, before);
      assert States(multiClient.clients) == started;
      // the shared record is none of the clients, so injecting leaves it alone
      assert forall k | 0 <= k < |multiClient.clients| :: multiClient.clients[k] as object != results as object;
      r := Inject(payload, envs);
      ghost var injected := Injected(before, r.Success?, payload, envs);
      assert States(multiClient.clients) == injected;
      ghost var polled := WithPolls(injected, measuringType, polls);
      assert RunSamples(before, r.Success?, payload, envs, polls) == PolledSamples(injected[|injected| - 1], measuringType, polls);
      PollMeasuring(polls, injected);
      if r.Failure? {
        assert Measured(before, false, payload, envs, polls) == polled;
        return;  // the RuntimeException propagates out of run
      }
      assert Measured(before, true, payload, envs, polls) == WithMeasuring(polled, false);
      SwitchMeasuring(false, polled);
    }

    /** The passes the measuring thread completes, on the measurement client and the shared record. */
    method PollMeasuring(polls: seq<PollInput>, ghost ss: seq<ClientState>)
      requires Valid() && States(multiClient.clients) == ss
      modifies measurementClient, results
      ensures States(multiClient.clients) == WithPolls(ss, measuringType, polls)
      ensures results.responseTimes == old(results.responseTimes) + PolledSamples(ss[|ss| - 1], measuringType, polls)
      ensures results.startTimeInNanos == old(results.startTimeInNanos) && results.stopTimeInNanos == old(results.stopTimeInNanos)
      ensures results.injectionMethod == old(results.injectionMethod) && results.totalClients == old(results.totalClients)
    {
      forall k | 0 <= k < |multiClient.clients|
        ensures ss[k] == multiClient.clients[k].State()
      {
        StatesAt(multiClient.clients, k);
      }
      var last := ss[|ss| - 1];
      var i := 0;
      while i < |polls|
        invariant 0 <= i <= |polls|
        invariant measurementClient.State() == PolledAll(last, measuringType, polls[..i])
        invariant results.responseTimes == old(results.responseTimes) + PolledSamples(last, measuringType, polls[..i])
        invariant results.startTimeInNanos == old(results.startTimeInNanos) && results.stopTimeInNanos == old(results.stopTimeInNanos)
        invariant results.injectionMethod == old(results.injectionMethod) && results.totalClients == old(results.totalClients)
      {
        var p := polls[i];
        measurementClient.MeasuringStep(measuringType, p.writeOk, p.receiveNs, p.stopNs);
        assert polls[..i + 1][..i] == polls[..i];
        i := i + 1;
      }
      assert polls[..|polls|] == polls;
      StatesAreAll(multiClient.clients, WithPolls(ss, measuringType, polls));
    }

    /** startMeasuring or stopMeasuring on the measurement client, seen on the whole batch. */
    method SwitchMeasuring(on: bool, ghost ss: seq<ClientState>)
      requires Valid() && States(multiClient.clients) == ss
      modifies measurementClient
      ensures States(multiClient.clients) == WithMeasuring(ss, on)
    {
      forall k | 0 <= k < |multiClient.clients|
        ensures ss[k] == multiClient.clients[k].State()
      {
        StatesAt(multiClient.clients, k);
      }
      if on {
        measurementClient.StartMeasuring();
      } else {
        measurementClient.StopMeasuring();
      }
      StatesAreAll(multiClient.clients, WithMeasuring(ss, on));
    }
  }
}
