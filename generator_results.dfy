/**
 * GeneratorResults: the run-wide record.  It holds the run's own start and
 * stop stamps and the list of per-batch InjectorResults in registration
 * order, and derives the client total and the throughput timeline from them.
 */
module RunResults {
  import opened BatchResults
  import opened ResponseTimes
  import opened Timeline

  /** What the timeline reads of one registered batch: its stamps and its size. */
  datatype Batch = Batch(start: int, stop: int, clients: int)

  function BatchOf(r: InjectorResults): Batch
    reads r
  {
    Batch(r.startTimeInNanos, r.stopTimeInNanos, r.totalClients)
  }

  /** The batches as the registered records describe them now, in registration order. */
  function Snapshot(rs: seq<InjectorResults>): (bs: seq<Batch>)
    reads rs
    ensures |bs| == |rs|
  {
    if rs == [] then [] else Snapshot(rs[..|rs| - 1]) + [BatchOf(rs[|rs| - 1])]
  }

  /** Entry `i` of the snapshot describes record `i`. */
  lemma {:induction false} SnapshotAt(rs: seq<InjectorResults>, i: int)
    requires 0 <= i < |rs|
    ensures Snapshot(rs)[i] == BatchOf(rs[i])
  {
    if i < |rs| - 1 {
      SnapshotAt(rs[..|rs| - 1], i);
    }
  }

  /** A batch counts at time `t` when it started at or before `t` and stops after `t`. */
  predicate RunsAt(b: Batch, t: int)
  {
    b.start <= t < b.stop
  }

  /** Sum of the sizes of the batches running at `t`. */
  function ClientsAt(bs: seq<Batch>, t: int): int
  {
    if bs == [] then 0
    else ClientsAt(bs[..|bs| - 1], t) + (if RunsAt(bs[|bs| - 1], t) then bs[|bs| - 1].clients else 0)
  }

  /** Sum of all batch sizes. */
  function TotalClients(bs: seq<Batch>): int
  {
    if bs == [] then 0 else TotalClients(bs[..|bs| - 1]) + bs[|bs| - 1].clients
  }

  /** The sample taken at time `t` over all batches `bs`. */
  function SampleAt(bs: seq<Batch>, t: int): Throughput
  {
    Throughput(t, ClientsAt(bs, t))
  }

  /** The samples emitted for the batches `part`, each counted over all batches `bs`. */
  function Emit(bs: seq<Batch>, part: seq<Batch>): (h: seq<Throughput>)
    ensures |h| == 2 * |part|
  {
    if part == [] then []
    else
      var last := part[|part| - 1];
      Emit(bs, part[..|part| - 1]) + [SampleAt(bs, last.start), SampleAt(bs, last.stop)]
  }

  /** The unsorted history: one sample at each batch's start and one at its stop, in registration order. */
  function Emitted(bs: seq<Batch>): seq<Throughput>
  {
    Emit(bs, bs)
  }

  class GeneratorResults {
    var startTimeInNanos: int
    var stopTimeInNanos: int
    var injectorResults: seq<InjectorResults>

    /** Both stamps start at 0 (the Java default) and no batch is registered. */
    constructor()
      ensures startTimeInNanos == 0 && stopTimeInNanos == 0
      ensures injectorResults == []
    {
      startTimeInNanos := 0;
      stopTimeInNanos := 0;
      injectorResults := [];
    }

    /** measureStartTime, with the clock reading `nowNs` supplied by the caller. */
    method MeasureStartTime(nowNs: int)
      modifies this
      ensures startTimeInNanos == nowNs
      ensures stopTimeInNanos == old(stopTimeInNanos) && injectorResults == old(injectorResults)
    {
      startTimeInNanos := nowNs;
    }

    /** measureStopTime, with the clock reading `nowNs` supplied by the caller. */
    method MeasureStopTime(nowNs: int)
      modifies this
      ensures stopTimeInNanos == nowNs
      ensures startTimeInNanos == old(startTimeInNanos) && injectorResults == old(injectorResults)
    {
      stopTimeInNanos := nowNs;
    }

    /** getTestDurationInSec: the run's length in seconds, with no check that the stamps were taken. */
    function TestDurationInSec(): (d: real)
      reads this
      ensures d * NANOS_PER_SEC == (stopTimeInNanos - startTimeInNanos) as real
      ensures d < 0.0 <==> stopTimeInNanos < startTimeInNanos
    {
      (stopTimeInNanos - startTimeInNanos) as real / NANOS_PER_SEC
    }

    /**
     * newInjectorResults: registers one fresh record at the end of the list
     * and returns that same record; the earlier entries stay where they were.
     */
    method NewInjectorResults() returns (r: InjectorResults)
      modifies this
      ensures fresh(r)
      ensures r.startTimeInNanos == UNSET && r.stopTimeInNanos == UNSET
      ensures r.totalClients == 0 && r.responseTimes == [] && r.injectionMethod.None?
      ensures injectorResults == old(injectorResults) + [r]
      ensures startTimeInNanos == old(startTimeInNanos) && stopTimeInNanos == old(stopTimeInNanos)
    {
      r := new InjectorResults();
      injectorResults := injectorResults + [r];
    }

    /** getTotalClients: the sizes of all registered batches added up. */
    method GetTotalClients() returns (total: int)
      ensures total == TotalClients(Snapshot(injectorResults))
    {
      ghost var bs := Snapshot(injectorResults);
      total := 0;
      var i := 0;
      while i < |injectorResults|
        invariant 0 <= i <= |injectorResults|
        invariant total == TotalClients(bs[..i])
      {
        assert bs[..i + 1][..i] == bs[..i];
        SnapshotAt(injectorResults, i);
        total := total + injectorResults[i].totalClients;
        i := i + 1;
      }
      assert bs[..i] == bs;
    }

    /** getThroughputForTime: the sizes of the batches running at `timeInNanos` added up. */
    method GetThroughputForTime(timeInNanos: int) returns (clientsCount: int)
      ensures clientsCount == ClientsAt(Snapshot(injectorResults), timeInNanos)
    {
      ghost var bs := Snapshot(injectorResults);
      clientsCount := 0;
      var i := 0;
      while i < |injectorResults|
        invariant 0 <= i <= |injectorResults|
        invariant clientsCount == ClientsAt(bs[..i], timeInNanos)
      {
        assert bs[..i + 1][..i] == bs[..i];
        SnapshotAt(injectorResults, i);
        if injectorResults[i].startTimeInNanos <= timeInNanos && injectorResults[i].stopTimeInNanos > timeInNanos {
          clientsCount := clientsCount + injectorResults[i].totalClients;
        }
        i := i + 1;
      }
      assert bs[..i] == bs;
    }

    /** newThroughput: the sample at `timeInNanos`, counted over the registered batches. */
    method NewThroughput(timeInNanos: int) returns (sample: Throughput)
      ensures sample == SampleAt(Snapshot(injectorResults), timeInNanos)
    {
      var clientsCount := GetThroughputForTime(timeInNanos);
      sample := Throughput(timeInNanos, clientsCount);
    }

    /** fillThroughputHistory: a start sample and a stop sample per batch, in registration order. */
    method FillThroughputHistory() returns (history: seq<Throughput>)
      ensures history == Emitted(Snapshot(injectorResults))
    {
      ghost var bs := Snapshot(injectorResults);
      history := [];
      var i := 0;
      while i < |injectorResults|
        invariant 0 <= i <= |injectorResults|
        invariant history == Emit(bs, bs[..i])
      {
        EmitStep(bs, i);
        SnapshotAt(injectorResults, i);
        var atStart := NewThroughput(injectorResults[i].startTimeInNanos);
        var atStop := NewThroughput(injectorResults[i].stopTimeInNanos);
        history := history + [atStart, atStop];
        i := i + 1;
      }
      assert bs[..i] == bs;
    }

    /**
     * getThroughputHistory: the emitted samples, stably sorted by timestamp.
     * The registered records are only read.
     */
    method GetThroughputHistory() returns (history: seq<Throughput>)
      ensures |history| == 2 * |injectorResults|
      ensures SortedByTime(history)
      ensures SameAtEveryTime(history, Emitted(Snapshot(injectorResults)))
      ensures multiset(history) == multiset(Emitted(Snapshot(injectorResults)))
    {
      var emitted := FillThroughputHistory();
      var a := new Throughput[|emitted|](i requires 0 <= i < |emitted| => emitted[i]);
      assert a[..] == emitted;
      SortByTime(a);
      history := a[..];
      SameAtEveryTimeIsPermutation(history, emitted);
      assert |history| == |multiset(history)| == |multiset(emitted)| == |emitted|;
    }
  }

  /** getThroughputHistory always has two samples per batch, the start one before the stop one. */
  lemma EmittedShape(bs: seq<Batch>, i: int)
    requires 0 <= i < |bs|
    ensures |Emitted(bs)| == 2 * |bs|
    ensures Emitted(bs)[2 * i] == Throughput(bs[i].start, ClientsAt(bs, bs[i].start))
    ensures Emitted(bs)[2 * i + 1] == Throughput(bs[i].stop, ClientsAt(bs, bs[i].stop))
  {
    EmitShape(bs, bs, i);
  }

  lemma EmitStep(bs: seq<Batch>, i: int)
    requires 0 <= i < |bs|
    ensures Emit(bs, bs[..i + 1]) == Emit(bs, bs[..i]) + [SampleAt(bs, bs[i].start), SampleAt(bs, bs[i].stop)]
  {
    assert bs[..i + 1][..i] == bs[..i];
  }

  lemma {:induction false} EmitShape(bs: seq<Batch>, part: seq<Batch>, i: int)
    requires 0 <= i < |part|
    ensures Emit(bs, part)[2 * i] == SampleAt(bs, part[i].start)
    ensures Emit(bs, part)[2 * i + 1] == SampleAt(bs, part[i].stop)
  {
    var n := |part|;
    if i < n - 1 {
      EmitShape(bs, part[..n - 1], i);
    }
  }

  /** The count at `t` is the count without batch `i`, plus batch `i`'s size when it runs at `t`. */
  lemma {:induction false} ClientsAtSplit(bs: seq<Batch>, i: int, t: int)
    requires 0 <= i < |bs|
    ensures ClientsAt(bs, t) ==
      ClientsAt(bs[..i] + bs[i + 1..], t) + (if RunsAt(bs[i], t) then bs[i].clients else 0)
  {
    var n := |bs|;
    if i < n - 1 {
      var init := bs[..n - 1];
      ClientsAtSplit(init, i, t);
      assert init[..i] == bs[..i];
      assert init[i] == bs[i];
      var rest := bs[..i] + bs[i + 1..];
      assert rest[..|rest| - 1] == init[..i] + init[i + 1..];
      assert rest[|rest| - 1] == bs[n - 1];
    } else {
      assert bs[..i] + bs[i + 1..] == bs[..n - 1];
    }
  }

  /** A batch's own stop sample never counts that batch. */
  lemma StopSampleExcludesOwnBatch(bs: seq<Batch>, i: int)
    requires 0 <= i < |bs|
    ensures ClientsAt(bs, bs[i].stop) == ClientsAt(bs[..i] + bs[i + 1..], bs[i].stop)
  {
    ClientsAtSplit(bs, i, bs[i].stop);
  }

  /** A batch whose stop stamp is still unset contributes to no sample at any time >= -1. */
  lemma UnsetStopNeverCounts(bs: seq<Batch>, i: int, t: int)
    requires 0 <= i < |bs| && bs[i].stop == UNSET && t >= UNSET
    ensures ClientsAt(bs, t) == ClientsAt(bs[..i] + bs[i + 1..], t)
  {
    ClientsAtSplit(bs, i, t);
  }

  /** A batch that runs at `t` adds exactly its size to the count at `t`. */
  lemma RunningBatchCounts(bs: seq<Batch>, i: int, t: int)
    requires 0 <= i < |bs| && RunsAt(bs[i], t)
    ensures ClientsAt(bs, t) == ClientsAt(bs[..i] + bs[i + 1..], t) + bs[i].clients
  {
    ClientsAtSplit(bs, i, t);
  }

  /** With non-negative sizes, no sample exceeds the client total. */
  lemma {:induction false} ClientsAtMostTotal(bs: seq<Batch>, t: int)
    requires forall i :: 0 <= i < |bs| ==> bs[i].clients >= 0
    ensures 0 <= ClientsAt(bs, t) <= TotalClients(bs)
  {
    if bs != [] {
      ClientsAtMostTotal(bs[..|bs| - 1], t);
    }
  }

  /**
   * Back-to-back batches [0,10) of 3 clients and [10,20) of 5 clients: the
   * sorted history is (0,3), (10,5), (10,5), (20,0).
   */
  lemma BackToBackBatches(history: seq<Throughput>)
    requires SortedByTime(history)
    requires SameAtEveryTime(history, Emitted([Batch(0, 10, 3), Batch(10, 20, 5)]))
    ensures history == [Throughput(0, 3), Throughput(10, 5), Throughput(10, 5), Throughput(20, 0)]
  {
    var bs := [Batch(0, 10, 3), Batch(10, 20, 5)];
    var expected := [Throughput(0, 3), Throughput(10, 5), Throughput(10, 5), Throughput(20, 0)];
    var first := [Batch(0, 10, 3)];
    assert bs[..1] == first && first[..0] == [];
    assert ClientsAt(first, 0) == 3 && ClientsAt(first, 10) == 0 && ClientsAt(first, 20) == 0;
    assert ClientsAt(bs, 0) == 3 && ClientsAt(bs, 10) == 5 && ClientsAt(bs, 20) == 0;
    assert Emit(bs, first) == [Throughput(0, 3), Throughput(10, 5)];
    assert Emitted(bs) == Emit(bs, first) + [Throughput(10, 5), Throughput(20, 0)];
    assert Emitted(bs) == expected;
    StableSortIsUnique(history, expected);
  }
}
