/**
 * LoadGenerator with its only subclass RealisticLoadGenerator: the polling
 * loop that turns the injection profile into a target load and starts a
 * batch of load injectors whenever the injectors still alive fall short of
 * it.  The loop runs over a given sequence of clock readings; between two
 * readings some injector threads may end, and which ones is given with the
 * reading.
 */
module Generators {
  import opened Config
  import opened InjectionProfiles
  import opened BatchResults
  import opened RunResults
  import opened Clients
  import opened Injectors

  /** INJECTION_FREQUENCY_IN_K */
  const INJECTION_FREQUENCY_IN_K: int := 100

  /** The polling sleep `(long) (1.0 / INJECTION_FREQUENCY_IN_K) * 1000`: the cast applies before the product. */
  function PollIntervalMs(): (ms: int)
  {
    Trunc(1.0 / INJECTION_FREQUENCY_IN_K as real) * 1000
  }

  /** One clock reading of the loop, with the injectors (by list index) whose threads ended before it. */
  datatype Tick = Tick(nowMs: int, ended: set<int>)

  /** What the generator reads of one injector: its id offset, size, dwell and liveness. */
  datatype InjectorView = InjectorView(offset: int, size: int, durationMs: int, alive: bool)

  function ViewOf(inj: LoadInjector): InjectorView
    reads inj
  {
    InjectorView(inj.clientIdRange, |inj.multiClient.clients|, inj.injectionDurationMillis, inj.alive)
  }

  function Views(injs: seq<LoadInjector>): (vs: seq<InjectorView>)
    reads injs
    ensures |vs| == |injs|
  {
    if injs == [] then [] else Views(injs[..|injs| - 1]) + [ViewOf(injs[|injs| - 1])]
  }

  lemma {:induction false} ViewsAt(injs: seq<LoadInjector>, k: int)
    requires 0 <= k < |injs|
    ensures Views(injs)[k] == ViewOf(injs[k])
  {
    if k < |injs| - 1 {
      ViewsAt(injs[..|injs| - 1], k);
    }
  }

  /** getCurrentLoad's value: the sizes of the injectors still alive, added up. */
  function LoadOf(vs: seq<InjectorView>): int
  {
    if vs == [] then 0
    else LoadOf(vs[..|vs| - 1]) + (if vs[|vs| - 1].alive then vs[|vs| - 1].size else 0)
  }

  /** The size of every injector injectPayload starts for a deficit `d`: d mod 10, or 1 when that is 0. */
  function BatchSizeFor(d: nat): int
  {
    if d % 10 < 1 then 1 else d % 10
  }

  /** The id offset of the k-th injector one injectPayload call starts. */
  function IdOffset(k: int): int
  {
    k * ID_RANGE_STEPS
  }

  /** `vs` followed by `n` running injectors of `size` clients each, at id offsets 0, 1000, 2000, ... */
  function WithBatches(vs: seq<InjectorView>, n: nat, size: int, timeLeftMs: int): (r: seq<InjectorView>)
    ensures |r| == |vs| + n
  {
    if n == 0 then vs
    else WithBatches(vs, n - 1, size, timeLeftMs) + [InjectorView(IdOffset(n - 1), size, timeLeftMs, true)]
  }

  /** One more batch appends one more running injector, at the next id offset. */
  lemma WithBatchesStep(vs: seq<InjectorView>, i: nat, size: int, timeLeftMs: int)
    ensures WithBatches(vs, i + 1, size, timeLeftMs) ==
      WithBatches(vs, i, size, timeLeftMs) + [InjectorView(IdOffset(i), size, timeLeftMs, true)]
  {
  }

  /** The injectors after injectLoad with a deficit of `d`: `d` new ones of BatchSizeFor(d) clients when `d > 0`. */
  function Injected(vs: seq<InjectorView>, d: int, timeLeftMs: int): (r: seq<InjectorView>)
  {
    if d > 0 then WithBatches(vs, d, BatchSizeFor(d), timeLeftMs) else vs
  }

  /** The injectors after the threads listed in `ended` have finished. */
  function Ended(vs: seq<InjectorView>, ended: set<int>): (r: seq<InjectorView>)
    ensures |r| == |vs|
  {
    seq(|vs|, k requires 0 <= k < |vs| => if k in ended then vs[k].(alive := false) else vs[k])
  }

  /** The injectors after finishInjection has joined every thread. */
  function AllEnded(vs: seq<InjectorView>): (r: seq<InjectorView>)
    ensures |r| == |vs|
  {
    seq(|vs|, k requires 0 <= k < |vs| => vs[k].(alive := false))
  }

  /** `(timePastMs / durationInMillis) * 100` over the reals. */
  function Progress(timePastMs: int, durationMs: int): real
    requires durationMs != 0
  {
    (timePastMs as real / durationMs as real) * 100.0
  }

  /**
   * Whether `progress >= 100` for this elapsed time, decided without the
   * division (ElapsedIsFullProgress shows the two agree).
   */
  predicate Elapsed(timePastMs: int, durationMs: int)
  {
    if durationMs > 0 then timePastMs >= durationMs else timePastMs <= durationMs
  }

  /** The loop's exit test `progress >= 100` holds exactly when the elapsed time has reached the duration. */
  lemma ElapsedIsFullProgress(timePastMs: int, durationMs: int)
    requires durationMs != 0
    ensures Elapsed(timePastMs, durationMs) <==> Progress(timePastMs, durationMs) >= 100.0
  {
    var t, d := timePastMs as real, durationMs as real;
    var q := t / d;
    assert q * d == t;
    assert Progress(timePastMs, durationMs) == q * 100.0;
    if durationMs > 0 {
      assert q >= 1.0 <==> q * d >= d;
    } else {
      assert q >= 1.0 <==> q * d <= d;
    }
  }

  /** `(int) (profile.getValue(progress) * totalClients)` */
  function Target(profile: InjectionProfile, totalClients: int, progress: real): int
  {
    Trunc(Scale(Value(profile, progress), totalClients))
  }

  /**
   * `v * n`, written as `n` additions of `v` so that the loop's proofs stay in
   * linear arithmetic; ScaleIsProduct shows it is the product.
   */
  function Scale(v: real, n: int): real
    decreases if n < 0 then -n else n
  {
    if n == 0 then 0.0 else if n < 0 then Scale(v, n + 1) - v else Scale(v, n - 1) + v
  }

  /** Clients connected right now among `cs`. */
  function ConnectedIn(cs: seq<SingleClient>): int
    reads cs
  {
    if cs == [] then 0
    else ConnectedIn(cs[..|cs| - 1]) + (if cs[|cs| - 1].socket.Some? then 1 else 0)
  }

  /** All clients of the injectors `injs`. */
  function ClientsOf(injs: seq<LoadInjector>): set<SingleClient>
  {
    set i, c | 0 <= i < |injs| && c in injs[i].multiClient.clients :: c
  }

  /** getCurrentClientsCount's value: connected clients of the injectors still alive. */
  function ConnectedCount(injs: seq<LoadInjector>): int
    reads injs, ClientsOf(injs)
  {
    if injs == [] then 0
    else
      var init, last := injs[..|injs| - 1], injs[|injs| - 1];
      assert forall c :: c in last.multiClient.clients ==> c in ClientsOf(injs);
      assert forall c :: c in ClientsOf(init) ==> c in ClientsOf(injs) by {
        forall c | c in ClientsOf(init) ensures c in ClientsOf(injs) {
          var i :| 0 <= i < |init| && c in init[i].multiClient.clients;
          assert init[i] == injs[i];
        }
      }
      ConnectedCount(init) + (if last.alive then ConnectedIn(last.multiClient.clients) else 0)
  }

  class LoadGenerator {
    const testResults: GeneratorResults
    var isRunning: bool
    const totalClients: int
    const durationInMillis: int
    const injectionProfile: InjectionProfile
    /** RealisticLoadGenerator's list of every injector it started, in start order. */
    var loadInjectors: seq<LoadInjector>
    /** Every injector ever listed: the objects the generator's methods may change. */
    ghost var Repr: set<LoadInjector>

    /**
     * Every injector is built as createClients builds it, for the configured
     * scenario, and injector k reports to the k-th registered record.
     */
    ghost predicate Valid()
      reads this, testResults
    {
      Consistent(loadInjectors, testResults.injectorResults, Repr)
    }

    /** One tick of the loop on the injectors: threads end, then (unless it is the exit tick) injectLoad. */
    function TickViews(vs: seq<InjectorView>, startMs: int, tick: Tick): seq<InjectorView>
      requires durationInMillis != 0
    {
      Steered(Ended(vs, tick.ended), startMs, tick)
    }

    /** The second half of a tick, on the injectors `ended` left after the threads that ended are gone. */
    function Steered(ended: seq<InjectorView>, startMs: int, tick: Tick): seq<InjectorView>
      requires durationInMillis != 0
    {
      var timePastMs := tick.nowMs - startMs;
      if Exits(startMs, tick) then ended
      else
        var targetLoad := Target(injectionProfile, totalClients, Progress(timePastMs, durationInMillis));
        Injected(ended, targetLoad - LoadOf(ended), durationInMillis - timePastMs)
    }

    /** Steered on a reading that does not end the loop, with its parts named. */
    lemma SteeredInjects(ended: seq<InjectorView>, startMs: int, tick: Tick, targetLoad: int, timeLeftMs: int)
      requires durationInMillis != 0 && !Exits(startMs, tick)
      requires targetLoad == Target(injectionProfile, totalClients, Progress(tick.nowMs - startMs, durationInMillis))
      requires timeLeftMs == durationInMillis - (tick.nowMs - startMs)
      ensures Steered(ended, startMs, tick) == Injected(ended, targetLoad - LoadOf(ended), timeLeftMs)
    {
      var progress := Progress(tick.nowMs - startMs, durationInMillis);
      assert Steered(ended, startMs, tick) == Injected(ended, Target(injectionProfile, totalClients, progress) - LoadOf(ended), durationInMillis - (tick.nowMs - startMs));
    }

    /**
     * A reading that does not end the loop leaves at least the profile's
     * target running: injectLoad makes up any shortfall of the live load.
     */
    lemma SteeredReachesTarget(ended: seq<InjectorView>, startMs: int, tick: Tick)
      requires durationInMillis != 0 && !Exits(startMs, tick)
      ensures LoadOf(Steered(ended, startMs, tick)) >=
        Target(injectionProfile, totalClients, Progress(tick.nowMs - startMs, durationInMillis))
    {
      var targetLoad := Target(injectionProfile, totalClients, Progress(tick.nowMs - startMs, durationInMillis));
      var timeLeftMs := durationInMillis - (tick.nowMs - startMs);
      SteeredInjects(ended, startMs, tick, targetLoad, timeLeftMs);
      InjectedReachesTarget(ended, targetLoad, timeLeftMs);
    }

    /** Whether a reading ends the loop. */
    predicate Exits(startMs: int, tick: Tick)
    {
      Elapsed(tick.nowMs - startMs, durationInMillis)
    }

    /** The injectors after the loop has consumed `ticks`, stopping at the first exit reading. */
    function Generated(vs: seq<InjectorView>, startMs: int, ticks: seq<Tick>): seq<InjectorView>
      requires durationInMillis != 0
      decreases |ticks|
    {
      if ticks == [] then vs
      else
        var next := TickViews(vs, startMs, ticks[0]);
        if Exits(startMs, ticks[0]) then next else Generated(next, startMs, ticks[1..])
    }

    /** Whether some reading of `ticks` ends the loop. */
    predicate ExitsWithin(startMs: int, ticks: seq<Tick>)
      decreases |ticks|
    {
      ticks != [] && (Exits(startMs, ticks[0]) || ExitsWithin(startMs, ticks[1..]))
    }

    /** Generated and ExitsWithin on the readings from index `i` on, unfolded once at reading `i`. */
    lemma GeneratedFrom(vs: seq<InjectorView>, startMs: int, ticks: seq<Tick>, i: int)
      requires durationInMillis != 0 && 0 <= i < |ticks|
      ensures Generated(vs, startMs, ticks[i..]) ==
        if Exits(startMs, ticks[i]) then TickViews(vs, startMs, ticks[i])
        else Generated(TickViews(vs, startMs, ticks[i]), startMs, ticks[i + 1..])
      ensures ExitsWithin(startMs, ticks[i..]) == (Exits(startMs, ticks[i]) || ExitsWithin(startMs, ticks[i + 1..]))
    {
      assert ticks[i..][0] == ticks[i] && ticks[i..][1..] == ticks[i + 1..];
    }

    /** LoadGenerator(totalClients, durationInMillis, profile): not running, no injectors, empty results. */
    constructor(totalClients: int, durationInMillis: int, injectionProfile: InjectionProfile)
      ensures Valid() && !isRunning && loadInjectors == []
      ensures this.totalClients == totalClients && this.durationInMillis == durationInMillis
      ensures this.injectionProfile == injectionProfile
      ensures fresh(testResults) && testResults.injectorResults == []
    {
      testResults := new GeneratorResults();
      isRunning := false;
      this.totalClients := totalClients;
      this.durationInMillis := durationInMillis;
      this.injectionProfile := injectionProfile;
      loadInjectors := [];
      Repr := {};
    }

    /** isRunning */
    function IsRunning(): (b: bool)
      reads this
      ensures b == isRunning
    {
      isRunning
    }

    /** getGeneratorResults */
    function GetGeneratorResults(): (r: GeneratorResults)
      ensures r == testResults
    {
      testResults
    }

    /** getCurrentLoad: the sizes of the injectors still alive; finished ones do not count. */
    method GetCurrentLoad() returns (loadResult: int)
      ensures loadResult == LoadOf(Views(loadInjectors))
    {
      ghost var vs := Views(loadInjectors);
      loadResult := 0;
      var i := 0;
      while i < |loadInjectors|
        invariant 0 <= i <= |loadInjectors|
        invariant loadResult == LoadOf(vs[..i])
      {
        ViewsAt(loadInjectors, i);
        assert vs[..i + 1][..i] == vs[..i];
        var injector := loadInjectors[i];
        if injector.alive {
          loadResult := loadResult + |injector.multiClient.clients|;
        }
        i := i + 1;
      }
      assert vs[..i] == vs;
    }

    /**
     * getCurrentClientsCount: connected clients of the injectors still alive,
     * which never exceeds getCurrentLoad.
     */
    method GetCurrentClientsCount() returns (currentLoad: int)
      ensures currentLoad == ConnectedCount(loadInjectors)
      ensures 0 <= currentLoad <= LoadOf(Views(loadInjectors))
    {
      currentLoad := 0;
      var i := 0;
      while i < |loadInjectors|
        invariant 0 <= i <= |loadInjectors|
        invariant currentLoad == ConnectedCount(loadInjectors[..i])
      {
        var injector := loadInjectors[i];
        assert loadInjectors[..i + 1][..i] == loadInjectors[..i] && loadInjectors[..i + 1][i] == injector;
        if injector.alive {
          var cs := injector.multiClient.clients;
          ghost var before := currentLoad;
          var j := 0;
          while j < |cs|
            invariant 0 <= j <= |cs|
            invariant currentLoad == before + ConnectedIn(cs[..j])
          {
            assert cs[..j + 1][..j] == cs[..j];
            if cs[j].IsConnected() {
              currentLoad := currentLoad + 1;
            }
            j := j + 1;
          }
          assert cs[..j] == cs;
        }
        i := i + 1;
      }
      assert loadInjectors[..i] == loadInjectors;
      ConnectedAtMostLoad(loadInjectors);
    }

    /** Registers a fresh record and builds an injector of `size` clients on it, not yet listed or started. */
    method NewInjector(clientIdRange: int, size: int, timeLeftMs: int, ghost vs: seq<InjectorView>)
      returns (injector: LoadInjector)
      requires size >= 1 && Views(loadInjectors) == vs
      modifies testResults
      ensures Views(loadInjectors) == vs
      ensures fresh(injector) && fresh(injector.results)
      ensures injector.Valid() && injector.measuringType == MEASURING_TYPE
      ensures ViewOf(injector) == InjectorView(clientIdRange, size, timeLeftMs, false)
      ensures testResults.injectorResults == old(testResults.injectorResults) + [injector.results]
      ensures BatchOf(injector.results) == Batch(UNSET, UNSET, size)
      ensures testResults.startTimeInNanos == old(testResults.startTimeInNanos)
      ensures testResults.stopTimeInNanos == old(testResults.stopTimeInNanos)
    {
      var injectorResults := testResults.NewInjectorResults();
      injector := new LoadInjector(clientIdRange, size, timeLeftMs, injectorResults, MEASURING_TYPE);
      assert Views(loadInjectors) == vs;
    }

    /** loadInjectors.add followed by start: the new injector is listed last and its thread is alive. */
    method ListAndStart(injector: LoadInjector, ghost vs: seq<InjectorView>, ghost records: seq<InjectorResults>)
      requires Views(loadInjectors) == vs && injector !in loadInjectors
      requires Consistent(loadInjectors, records, Repr) && testResults.injectorResults == records + [injector.results]
      requires injector.Valid() && injector.measuringType == MEASURING_TYPE
      modifies this, injector
      ensures Valid()
      ensures loadInjectors == old(loadInjectors) + [injector] && Repr == old(Repr) + {injector}
      ensures Views(loadInjectors) == vs + [ViewOf(injector)] && injector.alive
      ensures isRunning == old(isRunning)
    {
      ghost var injs := loadInjectors;
      loadInjectors := loadInjectors + [injector];
      Repr := Repr + {injector};
      injector.Start();
      ConsistentAppend(injs, records, old(Repr), injector);
      assert Views(injs) == vs;
      assert loadInjectors[..|injs|] == injs;
    }

    /**
     * One iteration of injectPayload's loop: registers a fresh record, builds
     * the injector on it, lists the injector, then starts its thread.  `vs`
     * names the injectors' views beforehand.
     */
    method StartInjector(clientIdRange: int, size: int, timeLeftMs: int, ghost vs: seq<InjectorView>)
      requires Valid() && size >= 1 && Views(loadInjectors) == vs
      modifies this, testResults
      ensures Valid()
      ensures Views(loadInjectors) == vs + [InjectorView(clientIdRange, size, timeLeftMs, true)]
      ensures fresh(Repr - old(Repr))
      ensures isRunning == old(isRunning)
      ensures testResults.startTimeInNanos == old(testResults.startTimeInNanos)
      ensures testResults.stopTimeInNanos == old(testResults.stopTimeInNanos)
    {
      ghost var records := testResults.injectorResults;
      var injector := NewInjector(clientIdRange, size, timeLeftMs, vs);
      ListAndStart(injector, vs, records);
    }

    /**
     * injectPayload: `clientsToInject` injectors of BatchSizeFor(clientsToInject)
     * clients each, with id offsets restarting at 0.  Each one's record is
     * registered and the injector listed before it is started.
     */
    method InjectPayload(clientsToInject: int, timeLeftMs: int, ghost vs: seq<InjectorView>)
      requires Valid() && Views(loadInjectors) == vs
      modifies this, testResults
      ensures Valid()
      ensures Views(loadInjectors) == Injected(vs, clientsToInject, timeLeftMs)
      ensures fresh(Repr - old(Repr))
      ensures isRunning == old(isRunning)
      ensures testResults.startTimeInNanos == old(testResults.startTimeInNanos)
      ensures testResults.stopTimeInNanos == old(testResults.stopTimeInNanos)
    {
      ghost var size := BatchSizeFor(if clientsToInject > 0 then clientsToInject else 0);
      ghost var now := vs;
      var clientIdRangeSteps := 0;
      var i := 0;
      while i < clientsToInject
        invariant 0 <= i <= (if clientsToInject > 0 then clientsToInject else 0)
        invariant Valid()
        invariant clientIdRangeSteps == IdOffset(i)
        invariant now == WithBatches(vs, i, size, timeLeftMs)
        invariant Views(loadInjectors) == now
        invariant fresh(Repr - old(Repr))
        invariant isRunning == old(isRunning)
        invariant testResults.startTimeInNanos == old(testResults.startTimeInNanos)
        invariant testResults.stopTimeInNanos == old(testResults.stopTimeInNanos)
      {
        var numberOfMultiplexClients := BatchSizeFor(clientsToInject);
        ghost var next := now + [InjectorView(clientIdRangeSteps, size, timeLeftMs, true)];
        assert next == WithBatches(vs, i + 1, size, timeLeftMs) by {
          WithBatchesStep(vs, i, size, timeLeftMs);
        }
        StartInjector(clientIdRangeSteps, numberOfMultiplexClients, timeLeftMs, now);
        now := next;
        clientIdRangeSteps := clientIdRangeSteps + ID_RANGE_STEPS;
        i := i + 1;
      }
    }

    /** injectLoad: starts injectors only when the target exceeds the current load. */
    method InjectLoad(targetLoad: int, timeLeftMs: int, ghost vs: seq<InjectorView>)
      requires Valid() && Views(loadInjectors) == vs
      modifies this, testResults
      ensures Valid()
      ensures Views(loadInjectors) == Injected(vs, targetLoad - LoadOf(vs), timeLeftMs)
      ensures fresh(Repr - old(Repr))
      ensures isRunning == old(isRunning)
      ensures testResults.startTimeInNanos == old(testResults.startTimeInNanos)
      ensures testResults.stopTimeInNanos == old(testResults.stopTimeInNanos)
    {
      var currentLoad := GetCurrentLoad();
      var loadToInject := targetLoad - currentLoad;
      if loadToInject > 0 {
        InjectPayload(loadToInject, timeLeftMs, vs);
      }
    }

    /** The threads of the injectors listed in `ended` finish. */
    method EndThreads(ended: set<int>, ghost vs: seq<InjectorView>)
      requires Valid() && Views(loadInjectors) == vs
      modifies Repr
      ensures Views(loadInjectors) == Ended(vs, ended)
      ensures Valid() && loadInjectors == old(loadInjectors) && Repr == old(Repr) && isRunning == old(isRunning)
      ensures testResults.startTimeInNanos == old(testResults.startTimeInNanos)
      ensures testResults.stopTimeInNanos == old(testResults.stopTimeInNanos)
    {
      ViewsAtAll(loadInjectors);
      ConsistentDistinct(loadInjectors, testResults.injectorResults, Repr);
      var i := 0;
      while i < |loadInjectors|
        invariant 0 <= i <= |loadInjectors|
        invariant forall k :: 0 <= k < |loadInjectors| ==>
          ViewOf(loadInjectors[k]) == (if k < i && k in ended then vs[k].(alive := false) else vs[k])
      {
        if i in ended {
          loadInjectors[i].Terminate();
        }
        i := i + 1;
      }
      ViewsAreAll(loadInjectors, Ended(vs, ended));
    }

    /**
     * One pass of generateLoad's loop on the reading `tick`: the threads that
     * ended meanwhile are gone; then either the loop ends (`exit`) or
     * injectLoad runs with the profile's target and the time left.
     */
    method Poll(startMs: int, tick: Tick, ghost vs: seq<InjectorView>) returns (exit: bool)
      requires Valid() && durationInMillis != 0 && Views(loadInjectors) == vs
      modifies this, testResults, Repr
      ensures Valid()
      ensures exit == Exits(startMs, tick)
      ensures Views(loadInjectors) == TickViews(vs, startMs, tick)
      ensures fresh(Repr - old(Repr))
      ensures isRunning == old(isRunning)
      ensures testResults.startTimeInNanos == old(testResults.startTimeInNanos)
      ensures testResults.stopTimeInNanos == old(testResults.stopTimeInNanos)
    {
      EndThreads(tick.ended, vs);
      exit := Steer(startMs, tick, Ended(vs, tick.ended));
    }

    /**
     * The rest of the pass, once the ended threads are gone: progress is
     * computed; at 100 percent or more the loop ends, otherwise injectLoad
     * runs with the profile's target and the time left.
     */
    method Steer(startMs: int, tick: Tick, ghost ended: seq<InjectorView>) returns (exit: bool)
      requires Valid() && durationInMillis != 0 && Views(loadInjectors) == ended
      modifies this, testResults, Repr
      ensures Valid()
      ensures exit == Exits(startMs, tick)
      ensures Views(loadInjectors) == Steered(ended, startMs, tick)
      ensures fresh(Repr - old(Repr))
      ensures isRunning == old(isRunning)
      ensures testResults.startTimeInNanos == old(testResults.startTimeInNanos)
      ensures testResults.stopTimeInNanos == old(testResults.stopTimeInNanos)
    {
      var timePastMs := tick.nowMs - startMs;
      var progressInPercent := Progress(timePastMs, durationInMillis);
      exit := progressInPercent >= 100.0;
      assert exit == Exits(startMs, tick) by {
        ElapsedIsFullProgress(timePastMs, durationInMillis);
      }
      if !exit {
        var targetLoad := Target(injectionProfile, totalClients, progressInPercent);
        var timeLeftMs := durationInMillis - timePastMs;
        InjectLoad(targetLoad, timeLeftMs, ended);
        SteeredInjects(ended, startMs, tick, targetLoad, timeLeftMs);
      }
    }

    /**
     * generateLoad over the clock readings `ticks`: a reading at or past the
     * full duration ends the loop without injecting; every other reading calls
     * injectLoad once.  Returns whether the loop ended (rather than the
     * readings running out).
     */
    method GenerateLoad(startMs: int, ticks: seq<Tick>, ghost vs: seq<InjectorView>) returns (exited: bool)
      requires Valid() && durationInMillis != 0 && Views(loadInjectors) == vs
      modifies this, testResults, Repr
      ensures Valid()
      ensures exited <==> ExitsWithin(startMs, ticks)
      ensures Views(loadInjectors) == Generated(vs, startMs, ticks)
      ensures fresh(Repr - old(Repr))
      ensures isRunning == old(isRunning)
      ensures testResults.startTimeInNanos == old(testResults.startTimeInNanos)
      ensures testResults.stopTimeInNanos == old(testResults.stopTimeInNanos)
    {
      ghost var now := vs;
      exited := false;
      var i := 0;
      while i < |ticks| && !exited
        invariant 0 <= i <= |ticks|
        invariant Valid() && Views(loadInjectors) == now
        invariant fresh(Repr - old(Repr))
        invariant exited ==> Generated(vs, startMs, ticks) == now && ExitsWithin(startMs, ticks)
        invariant !exited ==> Generated(vs, startMs, ticks) == Generated(now, startMs, ticks[i..])
        invariant !exited ==> ExitsWithin(startMs, ticks) == ExitsWithin(startMs, ticks[i..])
        invariant isRunning == old(isRunning)
        invariant testResults.startTimeInNanos == old(testResults.startTimeInNanos)
        invariant testResults.stopTimeInNanos == old(testResults.stopTimeInNanos)
      {
        GeneratedFrom(now, startMs, ticks, i);
        exited := Poll(startMs, ticks[i], now);
        now := TickViews(now, startMs, ticks[i]);
        i := i + 1;
      }
      if !exited {
        assert ticks[i..] == [];
      }
    }

    /** finishInjection: joins every injector thread, so none is alive afterwards. */
    method FinishInjection(ghost vs: seq<InjectorView>)
      requires Valid() && Views(loadInjectors) == vs
      modifies Repr
      ensures Views(loadInjectors) == AllEnded(vs)
      ensures Valid() && loadInjectors == old(loadInjectors) && Repr == old(Repr) && isRunning == old(isRunning)
      ensures testResults.startTimeInNanos == old(testResults.startTimeInNanos)
      ensures testResults.stopTimeInNanos == old(testResults.stopTimeInNanos)
    {
      ViewsAtAll(loadInjectors);
      ConsistentDistinct(loadInjectors, testResults.injectorResults, Repr);
      var i := 0;
      while i < |loadInjectors|
        invariant 0 <= i <= |loadInjectors|
        invariant forall k :: 0 <= k < |loadInjectors| ==>
          ViewOf(loadInjectors[k]) == (if k < i then vs[k].(alive := false) else vs[k])
      {
        loadInjectors[i].Terminate();
        i := i + 1;
      }
      ViewsAreAll(loadInjectors, AllEnded(vs));
    }

    /**
     * run: isRunning is set, the start stamp `t0Ns` taken and load generated
     * from the injectors `vs` describe.  Only once the loop has ended (a
     * reading at full progress) is every injector joined, the stop stamp
     * `t1Ns` taken and isRunning cleared; when the readings run out first,
     * run is still inside its loop.  Returns whether run got that far.
     */
    method Run(t0Ns: int, t1Ns: int, startMs: int, ticks: seq<Tick>, ghost vs: seq<InjectorView>) returns (finished: bool)
      requires Valid() && durationInMillis != 0 && Views(loadInjectors) == vs
      modifies this, testResults, Repr
      ensures Valid() && testResults.startTimeInNanos == t0Ns
      ensures finished <==> ExitsWithin(startMs, ticks)
      ensures finished ==>
        !isRunning && testResults.stopTimeInNanos == t1Ns &&
        Views(loadInjectors) == AllEnded(Generated(vs, startMs, ticks))
      ensures !finished ==>
        isRunning && testResults.stopTimeInNanos == old(testResults.stopTimeInNanos) &&
        Views(loadInjectors) == Generated(vs, startMs, ticks)
    {
      Begin(t0Ns, vs);
      finished := GenerateLoad(startMs, ticks, vs);
      if finished {
        FinishInjection(Generated(vs, startMs, ticks));
        End(t1Ns, AllEnded(Generated(vs, startMs, ticks)));
      }
    }

    /** The opening of run: isRunning set and the start stamp taken; the injectors are untouched. */
    method Begin(t0Ns: int, ghost vs: seq<InjectorView>)
      requires Valid() && Views(loadInjectors) == vs
      modifies this, testResults
      ensures Valid() && isRunning && Views(loadInjectors) == vs
      ensures loadInjectors == old(loadInjectors) && Repr == old(Repr)
      ensures testResults.startTimeInNanos == t0Ns && testResults.stopTimeInNanos == old(testResults.stopTimeInNanos)
    {
      isRunning := true;
      testResults.MeasureStartTime(t0Ns);
    }

    /** The close of run: the stop stamp taken and isRunning cleared; the injectors are untouched. */
    method End(t1Ns: int, ghost vs: seq<InjectorView>)
      requires Valid() && Views(loadInjectors) == vs
      modifies this, testResults
      ensures Valid() && !isRunning && Views(loadInjectors) == vs
      ensures testResults.startTimeInNanos == old(testResults.startTimeInNanos)
      ensures testResults.stopTimeInNanos == t1Ns
    {
      testResults.MeasureStopTime(t1Ns);
      isRunning := false;
    }
  }

  /**
   * Distinct injectors built for the configured scenario, each one in `repr`
   * and injector k reporting to record k (stated on the last one, then on the
   * rest).
   */
  ghost predicate Consistent(injs: seq<LoadInjector>, records: seq<InjectorResults>, repr: set<LoadInjector>)
    decreases |injs|
  {
    |injs| == |records| &&
    (injs != [] ==>
      var n := |injs| - 1;
      Consistent(injs[..n], records[..n], repr) &&
      injs[n].Valid() && injs[n].measuringType == MEASURING_TYPE &&
      injs[n].results == records[n] && injs[n] in repr && injs[n] !in injs[..n])
  }

  /** Consistency survives a larger `repr`. */
  lemma {:induction false} ConsistentWider(injs: seq<LoadInjector>, records: seq<InjectorResults>, repr: set<LoadInjector>, wider: set<LoadInjector>)
    requires Consistent(injs, records, repr) && repr <= wider
    ensures Consistent(injs, records, wider)
    decreases |injs|
  {
    if injs != [] {
      var n := |injs| - 1;
      ConsistentWider(injs[..n], records[..n], repr, wider);
    }
  }

  /** Listing one more such injector together with its record keeps the lists consistent. */
  lemma ConsistentAppend(injs: seq<LoadInjector>, records: seq<InjectorResults>, repr: set<LoadInjector>, injector: LoadInjector)
    requires Consistent(injs, records, repr)
    requires injector.Valid() && injector.measuringType == MEASURING_TYPE && injector !in injs
    ensures Consistent(injs + [injector], records + [injector.results], repr + {injector})
  {
    ConsistentWider(injs, records, repr, repr + {injector});
    assert (injs + [injector])[..|injs|] == injs;
    assert (records + [injector.results])[..|records|] == records;
  }

  /** The injectors of consistent lists are pairwise distinct and all in `repr`. */
  lemma {:induction false} ConsistentDistinct(injs: seq<LoadInjector>, records: seq<InjectorResults>, repr: set<LoadInjector>)
    requires Consistent(injs, records, repr)
    ensures forall k :: 0 <= k < |injs| ==> injs[k] in repr
    ensures forall j, k :: 0 <= j < k < |injs| ==> injs[j] != injs[k]
    decreases |injs|
  {
    if injs != [] {
      var n := |injs| - 1;
      ConsistentDistinct(injs[..n], records[..n], repr);
      forall k | 0 <= k < n
        ensures injs[k] in repr
      {
        assert injs[k] == injs[..n][k];
      }
      forall j, k | 0 <= j < k < |injs|
        ensures injs[j] != injs[k]
      {
        if k < n {
          assert injs[j] == injs[..n][j] && injs[k] == injs[..n][k];
        } else {
          assert injs[j] in injs[..n];
        }
      }
    }
  }

  lemma ViewsAtAll(injs: seq<LoadInjector>)
    ensures forall k :: 0 <= k < |injs| ==> Views(injs)[k] == ViewOf(injs[k])
  {
    forall k | 0 <= k < |injs| {
      ViewsAt(injs, k);
    }
  }

  /** Views(injs) is `vs` when every injector's view is the matching entry. */
  lemma ViewsAreAll(injs: seq<LoadInjector>, vs: seq<InjectorView>)
    requires |injs| == |vs|
    requires forall k :: 0 <= k < |injs| ==> ViewOf(injs[k]) == vs[k]
    ensures Views(injs) == vs
  {
    ViewsAtAll(injs);
  }

  /** No injector has more connected clients than clients. */
  lemma {:induction false} ConnectedAtMostSize(cs: seq<SingleClient>)
    ensures 0 <= ConnectedIn(cs) <= |cs|
  {
    if cs != [] {
      ConnectedAtMostSize(cs[..|cs| - 1]);
    }
  }

  /** getCurrentClientsCount never exceeds getCurrentLoad. */
  lemma {:induction false} ConnectedAtMostLoad(injs: seq<LoadInjector>)
    ensures 0 <= ConnectedCount(injs) <= LoadOf(Views(injs))
  {
    if injs != [] {
      var n := |injs| - 1;
      ConnectedAtMostLoad(injs[..n]);
      ConnectedAtMostSize(injs[n].multiClient.clients);
    }
  }

  // ---------------------------------------------------------------------------
  // Properties of the injection arithmetic
  // ---------------------------------------------------------------------------

  /** The cast truncates 1/100 to 0 before the product, so the loop sleeps 0 ms between polls. */
  lemma PollIntervalIsZero()
    ensures PollIntervalMs() == 0
  {
    var k := Trunc(1.0 / INJECTION_FREQUENCY_IN_K as real);
    assert 0.0 <= 1.0 / INJECTION_FREQUENCY_IN_K as real < 1.0;
    assert k == 0;
  }

  /** The polling sleep with the cast applied to the whole product: one poll every 1/INJECTION_FREQUENCY_IN_K s. */
  function IntendedPollIntervalMs(): (ms: int)
  {
    Trunc((1.0 / INJECTION_FREQUENCY_IN_K as real) * 1000.0)
  }

  /** With the cast applied last the loop sleeps 10 ms, i.e. polls INJECTION_FREQUENCY_IN_K times per second. */
  lemma IntendedPollRate()
    ensures IntendedPollIntervalMs() == 10
    ensures IntendedPollIntervalMs() * INJECTION_FREQUENCY_IN_K == 1000
  {
    assert (1.0 / INJECTION_FREQUENCY_IN_K as real) * 1000.0 == 10.0;
    TruncOfInt(10);
  }

  /** Scale is the product `v * n`. */
  lemma {:induction false} ScaleIsProduct(v: real, n: int)
    ensures Scale(v, n) == v * n as real
    decreases if n < 0 then -n else n
  {
    if n < 0 {
      ScaleIsProduct(v, n + 1);
      assert v * (n + 1) as real == v * n as real + v;
    } else if n > 0 {
      ScaleIsProduct(v, n - 1);
      assert v * (n - 1) as real == v * n as real - v;
    }
  }

  /** A fraction in [0, 1] of a non-negative count lies between 0 and the count. */
  lemma FractionInRange(v: real, n: real)
    requires 0.0 <= v <= 1.0 && 0.0 <= n
    ensures 0.0 <= v * n <= n
  {
    assert (1.0 - v) * n >= 0.0;
  }

  /** On progress in [0, 100] every profile asks for between 0 and totalClients clients. */
  lemma TargetInRange(profile: InjectionProfile, totalClients: int, progress: real)
    requires 0.0 <= progress <= 100.0 && totalClients >= 0
    ensures 0 <= Target(profile, totalClients, progress) <= totalClients
  {
    var v := Value(profile, progress);
    var x := Scale(v, totalClients);
    ValueInRange(profile, progress);
    ScaleIsProduct(v, totalClients);
    FractionInRange(v, totalClients as real);
    assert 0.0 <= x <= totalClients as real;
    TruncMonotone(0.0, x);
    TruncMonotone(x, totalClients as real);
    TruncOfInt(0);
    TruncOfInt(totalClients);
    assert Target(profile, totalClients, progress) == Trunc(x);
  }

  /** The constant profile asks for every configured client at any progress. */
  lemma BigBangTargetIsTotal(totalClients: int, progress: real)
    ensures Target(BigBang, totalClients, progress) == totalClients
  {
    ScaleIsProduct(1.0, totalClients);
    TruncOfInt(totalClients);
  }

  /** Every batch of injectPayload has between 1 and 9 clients; a multiple of 10 gives batches of 1. */
  lemma BatchSizeBounds(d: nat)
    ensures 1 <= BatchSizeFor(d) <= 9
    ensures d % 10 == 0 ==> BatchSizeFor(d) == 1
    ensures d % 10 != 0 ==> BatchSizeFor(d) == d % 10
  {
  }

  /** LoadOf over a concatenation adds up. */
  lemma {:induction false} LoadOfAppend(vs: seq<InjectorView>, ws: seq<InjectorView>)
    ensures LoadOf(vs + ws) == LoadOf(vs) + LoadOf(ws)
    decreases |ws|
  {
    if ws != [] {
      var n := |ws| - 1;
      assert (vs + ws)[..|vs + ws| - 1] == vs + ws[..n];
      LoadOfAppend(vs, ws[..n]);
    } else {
      assert vs + ws == vs;
    }
  }

  /** `n` batches of `size` running clients add `n * size` to the load. */
  lemma {:induction false} LoadOfWithBatches(vs: seq<InjectorView>, n: nat, size: int, timeLeftMs: int)
    ensures LoadOf(WithBatches(vs, n, size, timeLeftMs)) == LoadOf(vs) + n * size
  {
    if n > 0 {
      LoadOfWithBatches(vs, n - 1, size, timeLeftMs);
      var prev := WithBatches(vs, n - 1, size, timeLeftMs);
      var last := InjectorView(IdOffset(n - 1), size, timeLeftMs, true);
      assert (prev + [last])[..|prev|] == prev;
      assert (n - 1) * size + size == n * size;
    }
  }

  /**
   * The batches keep `vs` in front and start the k-th new injector at id
   * offset k * 1000, so the new injectors' id ranges restart at 0 on every
   * call and never coincide with each other.
   */
  lemma {:induction false} WithBatchesAt(vs: seq<InjectorView>, n: nat, size: int, timeLeftMs: int)
    ensures WithBatches(vs, n, size, timeLeftMs)[..|vs|] == vs
    ensures forall k :: 0 <= k < n ==>
      WithBatches(vs, n, size, timeLeftMs)[|vs| + k] == InjectorView(IdOffset(k), size, timeLeftMs, true)
  {
    if n > 0 {
      WithBatchesAt(vs, n - 1, size, timeLeftMs);
      var prev := WithBatches(vs, n - 1, size, timeLeftMs);
      assert WithBatches(vs, n, size, timeLeftMs) == prev + [InjectorView(IdOffset(n - 1), size, timeLeftMs, true)];
    }
  }

  /** Different batches of one call have different id offsets, ID_RANGE_STEPS apart. */
  lemma IdOffsetsApart(j: int, k: int)
    requires j < k
    ensures IdOffset(k) - IdOffset(j) >= ID_RANGE_STEPS
  {
    assert IdOffset(k) - IdOffset(j) == (k - j) * ID_RANGE_STEPS;
  }

  /**
   * injectLoad reaches its target: when the live load falls short, the load
   * afterwards is at least the target (it overshoots unless every batch has
   * one client); otherwise nothing is started and the load stays as it was.
   */
  lemma InjectedReachesTarget(vs: seq<InjectorView>, targetLoad: int, timeLeftMs: int)
    ensures targetLoad > LoadOf(vs) ==> LoadOf(Injected(vs, targetLoad - LoadOf(vs), timeLeftMs)) >= targetLoad
    ensures targetLoad <= LoadOf(vs) ==> Injected(vs, targetLoad - LoadOf(vs), timeLeftMs) == vs
  {
    var d := targetLoad - LoadOf(vs);
    if d > 0 {
      LoadOfWithBatches(vs, d, BatchSizeFor(d), timeLeftMs);
      BatchSizeBounds(d);
      assert d * BatchSizeFor(d) >= d * 1;
    }
  }

  /**
   * With no load running, a target of 25 starts 25 injectors of 5 clients:
   * 125 clients in all.  One illustrative case of the overshoot; the bound
   * for every input is InjectedReachesTarget.
   */
  lemma OvershootExample(timeLeftMs: int)
    ensures |Injected([], 25, timeLeftMs)| == 25
    ensures LoadOf(Injected([], 25, timeLeftMs)) == 125
  {
    LoadOfWithBatches([], 25, 5, timeLeftMs);
  }

  /** Ending threads never raises the load (every injector has a non-negative size). */
  lemma {:induction false} EndedLoadAtMost(vs: seq<InjectorView>, ended: set<int>)
    requires forall k :: 0 <= k < |vs| ==> vs[k].size >= 0
    ensures 0 <= LoadOf(Ended(vs, ended)) <= LoadOf(vs)
    decreases |vs|
  {
    if vs != [] {
      var n := |vs| - 1;
      assert Ended(vs, ended)[..n] == Ended(vs[..n], ended);
      EndedLoadAtMost(vs[..n], ended);
    }
  }

  /** Once finishInjection has joined every thread, getCurrentLoad is 0. */
  lemma {:induction false} AllEndedLoadIsZero(vs: seq<InjectorView>)
    ensures LoadOf(AllEnded(vs)) == 0
    decreases |vs|
  {
    if vs != [] {
      var n := |vs| - 1;
      assert AllEnded(vs)[..n] == AllEnded(vs[..n]);
      AllEndedLoadIsZero(vs[..n]);
    }
  }

  /** A reading that does not end the loop leaves time for the injectors it starts. */
  lemma TimeLeftPositive(timePastMs: int, durationMs: int)
    requires durationMs > 0 && !Elapsed(timePastMs, durationMs)
    ensures durationMs - timePastMs > 0
  {
  }
}
