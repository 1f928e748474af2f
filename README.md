# Load tester and servers under test, in Dafny

This project models the core of a benchmark that compares an event-based Node.js server with thread-based and NIO Java servers. It has three parts.

- **The load tester**
  - The injection profiles: big bang, linear ramp and stepped ramp.
  - The result records: `ResponseTime`, `InjectorResults` and `GeneratorResults` with its sorted throughput timeline.
  - The clients: `SingleClient`, `MeasurementClient` with its measuring loop, and `MultiClient` with its four scenarios.
  - The load injectors: `LoadInjector` and `MultiplexLoadInjector`.
  - The polling load generator: `LoadGenerator` and `RealisticLoadGenerator`.
- **The Java servers**
  - The per-connection `SocketClient` thread of the thread-based server.
  - The selector loop of `NIOJavaSocketServer`.
- **The Node.js server**
  - The connection counters and the sequential and parallel reply rules of `server.js`.

The protocol is the same everywhere. A client sends data and ends its request with the delimiter `$::_$`. On seeing it, the server answers with a file.

The model takes the source's own form:
- Value types (profiles, response times, timeline samples) are datatypes and functions.
- Objects whose fields change are classes with `modifies` and `reads` frames:
  - `InjectorResults`, `GeneratorResults`;
  - the clients, the injectors, the generator;
  - `SocketClient`;
  - the NIO key and server;
  - the Node server and its connections.
- Loops are methods with invariants. Each is proved against a specification function, and the properties are lemmas about those functions.
- Inheritance has been folded into one class per hierarchy. `MeasurementClient` is a `SingleClient` with a results record. `MultiplexLoadInjector` is `LoadInjector`. `RealisticLoadGenerator` is `LoadGenerator`.

The environment becomes inputs:
- **I/O outcomes:** whether a connect, write, read or close succeeds; what a read returns; the bytes of the file to send (`None` when it cannot be read).
- **Clocks:** each clock reading is an integer parameter.
- **Threads:** a thread is a sequential step method plus an `alive` flag.
- **Event order:** for the Node server, the caller picks which event comes next.

Java `double` is modelled as `real`, and the `(int)`/`(long)` casts as truncation toward zero. `long` and `int` are unbounded integers.

Behaviours of the code a reader may not expect:
- For back-to-back batches `[0,10)` of 3 clients and `[10,20)` of 5 clients, the sorted timeline is `(0,3), (10,5), (10,5), (20,0)`. A batch's own stop sample never counts that batch (`RunResults.BackToBackBatches`).
- The stepped ramp stays below 1 while the run is in progress and gives exactly 1 at 100 percent (`InjectionProfiles.SteppedBelowFull`, `InjectionProfiles.SteppedAtFull`). The generator loop never asks for the value at 100 percent.
- In `server.js` the doc comment at line 44 says TRUE means sequential, but the code dispatches a truthy mode to `processParallel` (lines 71-78), and the tests start the parallel suite with `true`. A missing argument (JavaScript `undefined`) is stored as-is and therefore selects sequential mode. Only the string `'undefined'` is replaced by `true`.

## Model

| member | source | states |
|---|---|---|
| InjectionProfiles.Trunc | loadtester/src/main/java/de/hdm/uls/loadtests/loadgenerator/load/injectionprofiles/IncreasingClientsWithStepInjectionProfile.java:32 | Java's `(int)` cast of a double: the greatest integer not above a non-negative value, the least not below a negative one |
| InjectionProfiles.BigBangValue | loadtester/src/main/java/de/hdm/uls/loadtests/loadgenerator/load/injectionprofiles/BigBangInjectionProfile.java:11-14 | getValue of the big-bang profile is the full load 1.0 |
| InjectionProfiles.IncreasingValue | loadtester/src/main/java/de/hdm/uls/loadtests/loadgenerator/load/injectionprofiles/IncreasingClientsInjectionProfile.java:11-14 | getValue of the linear ramp: 100 times the value is the progress in percent |
| InjectionProfiles.SteppedValue | loadtester/src/main/java/de/hdm/uls/loadtests/loadgenerator/load/injectionprofiles/IncreasingClientsWithStepInjectionProfile.java:30-35 | getValue of the stepped ramp: N+1 times the value is the whole step index trunc(p/100·(N+1)) |
| InjectionProfiles.Value | loadtester/src/main/java/de/hdm/uls/loadtests/loadgenerator/load/injectionprofiles/InjectionProfile.java:18 | getValue of the profile in use: 1.0 for big bang, p/100 for the ramp, the step index over N+1 for the stepped ramp |
| InjectionProfiles.BigBangConstant | loadtester/src/main/java/de/hdm/uls/loadtests/loadgenerator/load/injectionprofiles/BigBangInjectionProfile.java:11-14 | the big-bang profile is 1.0 at every progress, inside the documented range [0, 1] |
| InjectionProfiles.IncreasingEndpointsAndRange | loadtester/src/main/java/de/hdm/uls/loadtests/loadgenerator/load/injectionprofiles/IncreasingClientsInjectionProfile.java:11-14 | the linear ramp is 0 at 0 %, 1 at 100 %, and within [0, 1] in between |
| InjectionProfiles.IncreasingStrictlyMonotone | loadtester/src/main/java/de/hdm/uls/loadtests/loadgenerator/load/injectionprofiles/IncreasingClientsInjectionProfile.java:11-14 | the linear ramp is strictly increasing |
| InjectionProfiles.IncreasingNotClamped | loadtester/src/main/java/de/hdm/uls/loadtests/loadgenerator/load/injectionprofiles/IncreasingClientsInjectionProfile.java:11-14 | there is no clamping: beyond 100 % the ramp exceeds 1 |
| InjectionProfiles.StepBounds | loadtester/src/main/java/de/hdm/uls/loadtests/loadgenerator/load/injectionprofiles/IncreasingClientsWithStepInjectionProfile.java:30-35 | on [0, 100] the step index lies in [0, N+1], and below 100 % in [0, N] |
| InjectionProfiles.SteppedValueIsQuantised | loadtester/src/main/java/de/hdm/uls/loadtests/loadgenerator/load/injectionprofiles/IncreasingClientsWithStepInjectionProfile.java:30-35 | getValue(p)·(N+1) is the step index, and the step index is trunc(p/100·(N+1)) characterised exactly |
| InjectionProfiles.SteppedAtZero | loadtester/src/main/java/de/hdm/uls/loadtests/loadgenerator/load/injectionprofiles/IncreasingClientsWithStepInjectionProfile.java:32-33 | getValue(0) = 0 |
| InjectionProfiles.SteppedBelowFull | loadtester/src/main/java/de/hdm/uls/loadtests/loadgenerator/load/injectionprofiles/IncreasingClientsWithStepInjectionProfile.java:32-33 | for 0 ≤ p < 100 the value lies in [0, N/(N+1)], so full load is never asked for while the run is in progress |
| InjectionProfiles.SteppedAtFull | loadtester/src/main/java/de/hdm/uls/loadtests/loadgenerator/load/injectionprofiles/IncreasingClientsWithStepInjectionProfile.java:32-33 | getValue(100) = 1 exactly, because trunc(N+1) = N+1 |
| InjectionProfiles.SteppedMonotone | loadtester/src/main/java/de/hdm/uls/loadtests/loadgenerator/load/injectionprofiles/IncreasingClientsWithStepInjectionProfile.java:32 | the stepped ramp is non-decreasing in p |
| InjectionProfiles.SteppedValueIsALevel | loadtester/src/main/java/de/hdm/uls/loadtests/loadgenerator/load/injectionprofiles/IncreasingClientsWithStepInjectionProfile.java:33 | every value on [0, 100] is one of the N+2 levels k/(N+1), so at most N+2 distinct values occur |
| InjectionProfiles.SteppedWithoutSteps | loadtester/src/main/java/de/hdm/uls/loadtests/loadgenerator/load/injectionprofiles/IncreasingClientsWithStepInjectionProfile.java:20-23 | with N = 0 the stepped ramp is 0 for every p in [0, 100) |
| InjectionProfiles.ValueInRange | loadtester/src/main/java/de/hdm/uls/loadtests/loadgenerator/load/injectionprofiles/IncreasingClientsWithStepInjectionProfile.java:30-35 | every profile's value lies in [0, 1] for progress in [0, 100] |
| InjectionProfiles.ValueMonotone | loadtester/src/main/java/de/hdm/uls/loadtests/loadgenerator/load/injectionprofiles/IncreasingClientsWithStepInjectionProfile.java:30-35 | every profile is non-decreasing in the progress |
| ResponseTimes.StartTimeInMs | loadtester/src/main/java/de/hdm/uls/loadtests/loadgenerator/load/model/ResponseTime.java:32-35 | the start stamp in milliseconds: multiplied by 10^6 it gives the nanoseconds back |
| ResponseTimes.ResponseTimeInSec | loadtester/src/main/java/de/hdm/uls/loadtests/loadgenerator/load/model/ResponseTime.java:37-40 | the elapsed time in seconds: multiplied by 10^9 it gives stop − start in nanoseconds |
| ResponseTimes.ResponseTimeInMs | loadtester/src/main/java/de/hdm/uls/loadtests/loadgenerator/load/model/ResponseTime.java:42-45 | the elapsed time in milliseconds: multiplied by 10^6 it gives stop − start in nanoseconds |
| ResponseTimes.MsIsThousandTimesSec | loadtester/src/main/java/de/hdm/uls/loadtests/loadgenerator/load/model/ResponseTime.java:37-45 | the millisecond figure is exactly 1000 times the second figure |
| ResponseTimes.NegativeIffReversed | loadtester/src/main/java/de/hdm/uls/loadtests/loadgenerator/load/model/ResponseTime.java:22-26 | nothing orders the stamps: the response time is negative exactly when stop precedes start |
| ResponseTimes.UnitSample | loadtester/src/test/java/de/hdm/uls/loadtests/loadgenerator/load/model/ResponseTimeTest.java:41-57 | the sample (1, 2) gives 1/10^6 ms, 1/10^9 s and a start of 1/10^6 ms |
| BatchResults.InjectorResults.constructor | loadtester/src/main/java/de/hdm/uls/loadtests/loadgenerator/load/model/InjectorResults.java:20-24 | a fresh record: no method name, both stamps −1, no clients, no samples |
| BatchResults.InjectorResults.MeasureStartTime | loadtester/src/main/java/de/hdm/uls/loadtests/loadgenerator/load/model/InjectorResults.java:30-33 | the start stamp becomes the clock reading; nothing else changes |
| BatchResults.InjectorResults.MeasureStopTime | loadtester/src/main/java/de/hdm/uls/loadtests/loadgenerator/load/model/InjectorResults.java:35-38 | the stop stamp becomes the clock reading; nothing else changes |
| BatchResults.InjectorResults.DurationInSec | loadtester/src/main/java/de/hdm/uls/loadtests/loadgenerator/load/model/InjectorResults.java:43-57 | a MeasurementException exactly when a stamp is unset (not > −1); otherwise (stop − start)/10^9 |
| BatchResults.InjectorResults.AddResponseTime | loadtester/src/main/java/de/hdm/uls/loadtests/loadgenerator/load/model/InjectorResults.java:59-62 | appends exactly one sample at the end; nothing else changes |
| BatchResults.InjectorResults.AverageResponseTimeInMs | loadtester/src/main/java/de/hdm/uls/loadtests/loadgenerator/load/model/InjectorResults.java:64-79 | the loop's result is the mean of the samples in ms, 0 without samples |
| BatchResults.InjectorResults.SetTotalClients | loadtester/src/main/java/de/hdm/uls/loadtests/loadgenerator/load/model/InjectorResults.java:85 | the total becomes the argument; nothing else changes |
| BatchResults.InjectorResults.SetInjectionMethod | loadtester/src/main/java/de/hdm/uls/loadtests/loadgenerator/load/model/InjectorResults.java:87 | the method name becomes the argument; nothing else changes |
| BatchResults.MeanOfNoSamples | loadtester/src/test/java/de/hdm/uls/loadtests/loadgenerator/load/model/InjectorResultsTest.java:56-60 | without samples the average is 0 |
| BatchResults.MeanOfUnitSample | loadtester/src/test/java/de/hdm/uls/loadtests/loadgenerator/load/model/InjectorResultsTest.java:62-67 | the single sample (1, 2) averages to 1/10^6 ms |
| BatchResults.SumAtLeast | loadtester/src/main/java/de/hdm/uls/loadtests/loadgenerator/load/model/InjectorResults.java:68-71 | the accumulated sum is at least the count times a lower bound of every sample |
| BatchResults.SumAtMost | loadtester/src/main/java/de/hdm/uls/loadtests/loadgenerator/load/model/InjectorResults.java:68-71 | the accumulated sum is at most the count times an upper bound of every sample |
| BatchResults.MeanBetweenBounds | loadtester/src/main/java/de/hdm/uls/loadtests/loadgenerator/load/model/InjectorResults.java:64-79 | the average lies between the smallest and the largest sample |
| BatchResults.OrderedStampsGiveDuration | loadtester/src/test/java/de/hdm/uls/loadtests/loadgenerator/load/model/InjectorResultsTest.java:47-54 | with both stamps set and stop not before start, the duration is defined and non-negative |
| BatchResults.FreshRecordHasNoDuration | loadtester/src/test/java/de/hdm/uls/loadtests/loadgenerator/load/model/InjectorResultsTest.java:40-45 | a record with an unset stamp always raises a MeasurementException |
| Timeline.CompareTo | loadtester/src/main/java/de/hdm/uls/loadtests/loadgenerator/load/model/GeneratorResults.java:148-162 | −1, 0 or 1 exactly when the first timestamp is smaller, equal or larger; the client counts play no part |
| Timeline.SortByTime | loadtester/src/main/java/de/hdm/uls/loadtests/loadgenerator/load/model/GeneratorResults.java:112-115 | the in-place sort leaves the array sorted by timestamp, with the samples of each timestamp in their original order (stable, as Collections.sort is) |
| Timeline.InsertAt | loadtester/src/main/java/de/hdm/uls/loadtests/loadgenerator/load/model/GeneratorResults.java:112-115 | one insertion step extends the sorted prefix by one sample and moves samples of equal timestamp past none of each other |
| Timeline.SwapNeighbours | loadtester/src/main/java/de/hdm/uls/loadtests/loadgenerator/load/model/GeneratorResults.java:112-115 | swapping neighbours with different timestamps keeps every per-timestamp order |
| Timeline.SameAtEveryTimeIsPermutation | loadtester/src/main/java/de/hdm/uls/loadtests/loadgenerator/load/model/GeneratorResults.java:112-115 | a stable reordering is a permutation (equal multisets) |
| Timeline.StableSortIsUnique | loadtester/src/main/java/de/hdm/uls/loadtests/loadgenerator/load/model/GeneratorResults.java:112-115 | two sorted stable reorderings of the same samples are equal, so the sorted history is determined by its input |
| Timeline.AtTimeAppend | loadtester/src/main/java/de/hdm/uls/loadtests/loadgenerator/load/model/GeneratorResults.java:112-115 | the samples at a timestamp of a concatenation are those of each part, in order |
| Timeline.AtTimeMembers | loadtester/src/main/java/de/hdm/uls/loadtests/loadgenerator/load/model/GeneratorResults.java:112-115 | the samples at time t are exactly the samples stamped t |
| Timeline.CountAtTime | loadtester/src/main/java/de/hdm/uls/loadtests/loadgenerator/load/model/GeneratorResults.java:112-115 | a sample's multiplicity is read off the samples at its own timestamp |
| RunResults.GeneratorResults.constructor | loadtester/src/main/java/de/hdm/uls/loadtests/loadgenerator/load/model/GeneratorResults.java:22-24 | both stamps 0 and no registered records |
| RunResults.GeneratorResults.MeasureStartTime | loadtester/src/main/java/de/hdm/uls/loadtests/loadgenerator/load/model/GeneratorResults.java:30-33 | the start stamp becomes the clock reading; nothing else changes |
| RunResults.GeneratorResults.MeasureStopTime | loadtester/src/main/java/de/hdm/uls/loadtests/loadgenerator/load/model/GeneratorResults.java:35-38 | the stop stamp becomes the clock reading; nothing else changes |
| RunResults.GeneratorResults.TestDurationInSec | loadtester/src/main/java/de/hdm/uls/loadtests/loadgenerator/load/model/GeneratorResults.java:40-43 | (stop − start)/10^9 with no check that the stamps were taken; negative exactly when stop precedes start |
| RunResults.GeneratorResults.NewInjectorResults | loadtester/src/main/java/de/hdm/uls/loadtests/loadgenerator/load/model/GeneratorResults.java:45-50 | a fresh record is appended at the end of the list and returned; earlier entries and stamps stay |
| RunResults.GeneratorResults.GetTotalClients | loadtester/src/main/java/de/hdm/uls/loadtests/loadgenerator/load/model/GeneratorResults.java:57-66 | the loop's result is the sum of the registered batch sizes |
| RunResults.GeneratorResults.GetThroughputForTime | loadtester/src/main/java/de/hdm/uls/loadtests/loadgenerator/load/model/GeneratorResults.java:92-105 | the loop's result is the sum of the sizes of the batches with start ≤ t < stop |
| RunResults.GeneratorResults.NewThroughput | loadtester/src/main/java/de/hdm/uls/loadtests/loadgenerator/load/model/GeneratorResults.java:85-90 | the sample (t, clients running at t) |
| RunResults.GeneratorResults.FillThroughputHistory | loadtester/src/main/java/de/hdm/uls/loadtests/loadgenerator/load/model/GeneratorResults.java:76-83 | one start sample and one stop sample per batch, in registration order |
| RunResults.GeneratorResults.GetThroughputHistory | loadtester/src/main/java/de/hdm/uls/loadtests/loadgenerator/load/model/GeneratorResults.java:68-74 | two samples per batch, sorted by time, a stable permutation of the filled history |
| RunResults.EmittedShape | loadtester/src/main/java/de/hdm/uls/loadtests/loadgenerator/load/model/GeneratorResults.java:76-83 | sample 2i of the filled history is batch i's start sample and 2i+1 its stop sample |
| RunResults.ClientsAtSplit | loadtester/src/main/java/de/hdm/uls/loadtests/loadgenerator/load/model/GeneratorResults.java:92-105 | the count at t is the count without batch i plus batch i's size when it runs at t |
| RunResults.StopSampleExcludesOwnBatch | loadtester/src/main/java/de/hdm/uls/loadtests/loadgenerator/load/model/GeneratorResults.java:98 | a batch's own stop sample never counts that batch (stop > t is strict) |
| RunResults.UnsetStopNeverCounts | loadtester/src/main/java/de/hdm/uls/loadtests/loadgenerator/load/model/GeneratorResults.java:98 | a batch whose stop stamp is still −1 contributes to no sample at any t ≥ −1 |
| RunResults.RunningBatchCounts | loadtester/src/main/java/de/hdm/uls/loadtests/loadgenerator/load/model/GeneratorResults.java:98-101 | a batch running at t adds exactly its size to the count at t |
| RunResults.ClientsAtMostTotal | loadtester/src/main/java/de/hdm/uls/loadtests/loadgenerator/load/model/GeneratorResults.java:57-105 | with non-negative sizes, no sample exceeds getTotalClients |
| RunResults.BackToBackBatches | loadtester/src/main/java/de/hdm/uls/loadtests/loadgenerator/load/model/GeneratorResults.java:68-115 | batches [0,10) of 3 and [10,20) of 5 give the sorted history (0,3), (10,5), (10,5), (20,0) |
| Clients.Requested | loadtester/src/main/java/de/hdm/uls/loadtests/loadgenerator/client/MeasurementClient.java:166-173 | measureResponseTime marks a measurement pending, and keeps the pending start stamp if there is one |
| Clients.Connected | loadtester/src/main/java/de/hdm/uls/loadtests/loadgenerator/client/SingleClient.java:52-59 | connect opens a socket unless it fails; a held socket means no change; a failed connect changes nothing |
| Clients.Wrote | loadtester/src/main/java/de/hdm/uls/loadtests/loadgenerator/client/SingleClient.java:84-101 | a write appends the chunk only while a socket is held and the stream accepts it |
| Clients.Disconnected | loadtester/src/main/java/de/hdm/uls/loadtests/loadgenerator/client/SingleClient.java:62-69 | disconnect forgets the socket unless closing fails; a failure changes nothing |
| Clients.SingleClient.constructor | loadtester/src/main/java/de/hdm/uls/loadtests/loadgenerator/client/SingleClient.java:42-45 | a client with the given id, no socket, nothing written, measuring idle |
| Clients.SingleClient.Measuring | loadtester/src/main/java/de/hdm/uls/loadtests/loadgenerator/client/MeasurementClient.java:40-44 | a measurement client with the given id reporting to the given record |
| Clients.SingleClient.ClientID | loadtester/src/main/java/de/hdm/uls/loadtests/loadgenerator/client/SingleClient.java:228-231 | getClientID returns the id given at construction |
| Clients.SingleClient.IsConnected | loadtester/src/main/java/de/hdm/uls/loadtests/loadgenerator/client/SingleClient.java:72-81 | isConnected holds exactly when the client holds a socket |
| Clients.SingleClient.Connect | loadtester/src/main/java/de/hdm/uls/loadtests/loadgenerator/client/MeasurementClient.java:65-74 | the state becomes Connected(...) and an IOException is raised exactly when the socket must be opened and cannot be |
| Clients.SingleClient.Disconnect | loadtester/src/main/java/de/hdm/uls/loadtests/loadgenerator/client/SingleClient.java:62-69 | the state becomes Disconnected(...) and an IOException is raised exactly when the held socket fails to close |
| Clients.SingleClient.SendData | loadtester/src/main/java/de/hdm/uls/loadtests/loadgenerator/client/MeasurementClient.java:77-84 | true exactly when connected and the write succeeded; a measurement client requests a measurement stamped before the call |
| Clients.SingleClient.SendDelimiter | loadtester/src/main/java/de/hdm/uls/loadtests/loadgenerator/client/SingleClient.java:128-146 | true exactly when connected and the delimiter write succeeded |
| Clients.SingleClient.ReceiveData | loadtester/src/main/java/de/hdm/uls/loadtests/loadgenerator/client/MeasurementClient.java:87-94 | writes the delimiter line when connected and always returns false |
| Clients.SingleClient.StartMeasuring | loadtester/src/main/java/de/hdm/uls/loadtests/loadgenerator/client/MeasurementClient.java:50-54 | the measuring loop is switched on; the socket and the writes are untouched |
| Clients.SingleClient.StopMeasuring | loadtester/src/main/java/de/hdm/uls/loadtests/loadgenerator/client/MeasurementClient.java:56-62 | the loop is switched off; when it was already off nothing changes |
| Clients.SingleClient.MeasuringStep | loadtester/src/main/java/de/hdm/uls/loadtests/loadgenerator/client/MeasurementClient.java:119-164 | one pass of the measuring loop: with a measurement pending, the reply is read in RECEIVE/SEND_RECEIVE, the sample (start, stop) is appended to the shared record and pending is cleared |
| Clients.PollsRecordPendingOnce | loadtester/src/main/java/de/hdm/uls/loadtests/loadgenerator/client/MeasurementClient.java:119-173 | however many passes the measuring loop completes, it appends exactly one sample (the pending start, stopped by the first pass) when a measurement is pending and the loop is on, and none otherwise; later passes find nothing pending |
| Clients.FirstStartWins | loadtester/src/main/java/de/hdm/uls/loadtests/loadgenerator/client/MeasurementClient.java:166-173 | after a first request, later requests leave the meter as it is |
| Clients.RequestedWhilePending | loadtester/src/main/java/de/hdm/uls/loadtests/loadgenerator/client/MeasurementClient.java:169 | while a measurement is pending, any sequence of requests changes nothing |
| Clients.ConnectIsIdempotent | loadtester/src/main/java/de/hdm/uls/loadtests/loadgenerator/client/SingleClient.java:52-59 | connecting a connected client changes nothing and measures nothing again |
| Clients.ConnectMeasuresOnlyWhenOpening | loadtester/src/main/java/de/hdm/uls/loadtests/loadgenerator/client/MeasurementClient.java:65-74 | a measurement client starts a measurement on connect exactly when it opens a socket |
| Clients.DisconnectIsIdempotent | loadtester/src/main/java/de/hdm/uls/loadtests/loadgenerator/client/SingleClient.java:62-69 | after a successful disconnect the client holds no socket, and a second disconnect changes nothing |
| Clients.UnconnectedWritesNothing | loadtester/src/main/java/de/hdm/uls/loadtests/loadgenerator/client/SingleClient.java:84-146 | without a socket, sendData, sendDelimiter and receiveData write nothing |
| Clients.PollKeepsPendingStart | loadtester/src/main/java/de/hdm/uls/loadtests/loadgenerator/client/MeasurementClient.java:154-164 | the nested receiveData cannot restart the measurement: the sample carries the pending start stamp |
| Clients.PollReceivesOnlyWhenAwaitingReply | loadtester/src/main/java/de/hdm/uls/loadtests/loadgenerator/client/MeasurementClient.java:156-160 | the poll step writes the delimiter line only in RECEIVE and SEND_RECEIVE |
| Clients.IdlePollDoesNothing | loadtester/src/main/java/de/hdm/uls/loadtests/loadgenerator/client/MeasurementClient.java:121-129 | with the loop off or nothing pending, a poll step changes nothing and appends no sample |
| MultiClients.MultiClient.constructor | loadtester/src/main/java/de/hdm/uls/loadtests/loadgenerator/client/MultiClient.java:41-47 | n fresh plain clients with ids 1..n, in order |
| MultiClients.MultiClient.FromList | loadtester/src/main/java/de/hdm/uls/loadtests/loadgenerator/client/MultiClient.java:49-55 | the given clients in the given order |
| MultiClients.MultiClient.Visit | loadtester/src/main/java/de/hdm/uls/loadtests/loadgenerator/client/MultiClient.java:155-176 | one client's visit: the calls made and the client's end state are TurnOps and TurnState of its state before |
| MultiClients.MultiClient.VisitAll | loadtester/src/main/java/de/hdm/uls/loadtests/loadgenerator/client/MultiClient.java:157-175 | each client visited once in list order; client k ends in TurnState of its state before; the trace is the visits one after the other |
| MultiClients.MultiClient.VisitAt | loadtester/src/main/java/de/hdm/uls/loadtests/loadgenerator/client/MultiClient.java:157-175 | the visit of client i: its end state and calls are entry i of AfterVisits and VisitsOps |
| MultiClients.MultiClient.SimulateConnection | loadtester/src/main/java/de/hdm/uls/loadtests/loadgenerator/client/MultiClient.java:155-176 | connect, dwell, disconnect per client; the trace and end states are those of VisitAll |
| MultiClients.MultiClient.SimulateReceive | loadtester/src/main/java/de/hdm/uls/loadtests/loadgenerator/client/MultiClient.java:61-83 | connect, receiveData, dwell, disconnect per client |
| MultiClients.MultiClient.SimulateSend | loadtester/src/main/java/de/hdm/uls/loadtests/loadgenerator/client/MultiClient.java:121-153 | without a payload a ConnectionPendingException before any client is touched; otherwise connect, sendData, dwell, disconnect per client |
| MultiClients.MultiClient.SimulateSendReceive | loadtester/src/main/java/de/hdm/uls/loadtests/loadgenerator/client/MultiClient.java:85-119 | like send, plus sendDelimiter and receiveData, with the same failure rule |
| MultiClients.ClientsVisitedInOrder | loadtester/src/main/java/de/hdm/uls/loadtests/loadgenerator/client/MultiClient.java:63-82 | every scenario connects each client exactly once, in list order |
| MultiClients.VisitConnectsFirst | loadtester/src/main/java/de/hdm/uls/loadtests/loadgenerator/client/MultiClient.java:157-163 | every visit starts with connect and connects nowhere else |
| MultiClients.FailedConnectEndsVisit | loadtester/src/main/java/de/hdm/uls/loadtests/loadgenerator/client/MultiClient.java:165-170 | a client that cannot connect is left as it was and gets no further call |
| MultiClients.InterruptedDwellStaysConnected | loadtester/src/main/java/de/hdm/uls/loadtests/loadgenerator/client/MultiClient.java:171-174 | an interrupted dwell skips disconnect, so the client stays connected |
| MultiClients.ConnectedVisitDwells | loadtester/src/main/java/de/hdm/uls/loadtests/loadgenerator/client/MultiClient.java:161-162 | a connected client dwells exactly once, for the injection duration |
| MultiClients.CleanVisitDisconnects | loadtester/src/main/java/de/hdm/uls/loadtests/loadgenerator/client/MultiClient.java:157-164 | a visit whose dwell and close succeed ends disconnected |
| MultiClients.SendReceiveWritesDelimiterTwice | loadtester/src/main/java/de/hdm/uls/loadtests/loadgenerator/client/MultiClient.java:95-98 | send-receive on a working connection writes the payload, the delimiter, then the delimiter with a newline |
| MultiClients.SendReceiveWritesIndependently | loadtester/src/main/java/de/hdm/uls/loadtests/loadgenerator/client/SingleClient.java:84-146 | each of send-receive's three writes catches its own IOException: a failed write loses only its own chunk and the later ones still go out |
| Injectors.BatchSize | loadtester/src/main/java/de/hdm/uls/loadtests/loadgenerator/load/LoadInjector.java:74-85 | createClients builds totalClients clients (the last a measurement client), or one when totalClients ≤ 0 |
| Injectors.WithMeasuring | loadtester/src/main/java/de/hdm/uls/loadtests/loadgenerator/load/LoadInjector.java:48-50 | switching the measuring loop touches only the last client (the measurement client) |
| Injectors.LoadInjector.constructor | loadtester/src/main/java/de/hdm/uls/loadtests/loadgenerator/load/LoadInjector.java:34-85 | the record is labelled MultiplexLoadInjector and sized; consecutive ids from clientIdRange, plain clients first, the measurement client last sharing the record; the thread is not alive |
| Injectors.LoadInjector.GetMultiClient | loadtester/src/main/java/de/hdm/uls/loadtests/loadgenerator/load/LoadInjector.java:92 | returns the injector's MultiClient |
| Injectors.LoadInjector.GetInjectionDurationMillis | loadtester/src/main/java/de/hdm/uls/loadtests/loadgenerator/load/LoadInjector.java:94 | returns the duration given to the constructor |
| Injectors.LoadInjector.Start | loadtester/src/main/java/de/hdm/uls/loadtests/loadgenerator/load/LoadInjector.java:18 | after Thread.start the thread is alive |
| Injectors.LoadInjector.Inject | loadtester/src/main/java/de/hdm/uls/loadtests/loadgenerator/load/injectors/MultiplexLoadInjector.java:39-65 | exactly the configured scenario runs, with the injection duration as the dwell; it fails exactly when the scenario needs the payload and there is none |
| Injectors.LoadInjector.SwitchMeasuring | loadtester/src/main/java/de/hdm/uls/loadtests/loadgenerator/load/LoadInjector.java:48-50 | startMeasuring/stopMeasuring on the measurement client: only the last client's loop flag changes |
| Injectors.LoadInjector.Terminate | loadtester/src/main/java/de/hdm/uls/loadtests/loadgenerator/load/LoadInjector.java:45-52 | when the run method returns the thread is no longer alive |
| Injectors.LoadInjector.Run | loadtester/src/main/java/de/hdm/uls/loadtests/loadgenerator/load/LoadInjector.java:45-52 | start stamp, measuring loop on, inject, loop off, stop stamp; when inject throws, the stop stamp is not taken and the loop stays on; the record gains exactly the samples the measuring thread's passes take |
| Injectors.LoadInjector.MeasuredInject | loadtester/src/main/java/de/hdm/uls/loadtests/loadgenerator/load/LoadInjector.java:48-50 | startMeasuring, inject, and stopMeasuring only when inject returns; the measuring thread's passes meanwhile append their samples to the injector's record |
| Injectors.LoadInjector.PollMeasuring | loadtester/src/main/java/de/hdm/uls/loadtests/loadgenerator/client/MeasurementClient.java:119-164 | the measuring thread's passes change only the measurement client and append exactly their samples to the shared record, whose stamps stay |
| Injectors.LoadInjector.RunRecordsPendingMeasurement | loadtester/src/main/java/de/hdm/uls/loadtests/loadgenerator/load/LoadInjector.java:45-52 | a run records one sample exactly when the measurement client's visit left a measurement pending and the measuring thread completes a pass, stamped by the first pass; otherwise none |
| Injectors.LoadInjector.MeasuringLoopAfterRun | loadtester/src/main/java/de/hdm/uls/loadtests/loadgenerator/load/LoadInjector.java:48-50 | after a normal run the measuring loop is off; after a throwing inject it is still on |
| Injectors.LoadInjector.PlainClientsSeeOnlyTheirVisit | loadtester/src/main/java/de/hdm/uls/loadtests/loadgenerator/load/LoadInjector.java:45-52 | every client but the measurement client ends a run exactly as its own visit left it |
| Generators.PollIntervalIsZero | loadtester/src/main/java/de/hdm/uls/loadtests/loadgenerator/load/LoadGenerator.java:82 | the polling pause `(long)(1.0/100) * 1000` is 0 ms |
| Generators.IntendedPollRate | loadtester/src/main/java/de/hdm/uls/loadtests/loadgenerator/load/LoadGenerator.java:24 | with the cast applied to the product the pause is 10 ms, i.e. 100 polls per second |
| Generators.ElapsedIsFullProgress | loadtester/src/main/java/de/hdm/uls/loadtests/loadgenerator/load/LoadGenerator.java:72-74 | the exit test `progress >= 100` holds exactly when the elapsed time reaches the duration (for a positive duration) |
| Generators.ScaleIsProduct | loadtester/src/main/java/de/hdm/uls/loadtests/loadgenerator/load/LoadGenerator.java:79 | the target computation's product is the real product value·totalClients |
| Generators.TargetInRange | loadtester/src/main/java/de/hdm/uls/loadtests/loadgenerator/load/LoadGenerator.java:78-79 | on progress in [0, 100] every profile's target lies between 0 and totalClients |
| Generators.BigBangTargetIsTotal | loadtester/src/main/java/de/hdm/uls/loadtests/loadgenerator/load/LoadGenerator.java:78-79 | the big-bang profile targets every configured client |
| Generators.BatchSizeBounds | loadtester/src/main/java/de/hdm/uls/loadtests/loadgenerator/load/generators/RealisticLoadGenerator.java:125 | every batch has between 1 and 9 clients; a multiple of 10 gives batches of one |
| Generators.LoadOfWithBatches | loadtester/src/main/java/de/hdm/uls/loadtests/loadgenerator/load/generators/RealisticLoadGenerator.java:123-131 | n started batches of `size` clients add n·size to the live load |
| Generators.WithBatchesAt | loadtester/src/main/java/de/hdm/uls/loadtests/loadgenerator/load/generators/RealisticLoadGenerator.java:121-130 | the batches follow the existing injectors, the k-th at id offset k·1000 |
| Generators.IdOffsetsApart | loadtester/src/main/java/de/hdm/uls/loadtests/loadgenerator/load/generators/RealisticLoadGenerator.java:130 | different batches of one call have id offsets ID_RANGE_STEPS apart |
| Generators.InjectedReachesTarget | loadtester/src/main/java/de/hdm/uls/loadtests/loadgenerator/load/generators/RealisticLoadGenerator.java:49-61 | when the live load falls short of the target the load afterwards is at least the target; otherwise nothing is started |
| Generators.OvershootExample | loadtester/src/main/java/de/hdm/uls/loadtests/loadgenerator/load/generators/RealisticLoadGenerator.java:119-131 | from no load, a target of 25 starts 25 injectors of 5 clients: 125 clients |
| Generators.EndedLoadAtMost | loadtester/src/main/java/de/hdm/uls/loadtests/loadgenerator/load/generators/RealisticLoadGenerator.java:103-117 | threads ending never raise getCurrentLoad |
| Generators.AllEndedLoadIsZero | loadtester/src/main/java/de/hdm/uls/loadtests/loadgenerator/load/generators/RealisticLoadGenerator.java:64-77 | once every injector is joined, getCurrentLoad is 0 |
| Generators.TimeLeftPositive | loadtester/src/main/java/de/hdm/uls/loadtests/loadgenerator/load/LoadGenerator.java:74-80 | a reading that does not end the loop hands the injectors a positive time left |
| Generators.ConnectedAtMostLoad | loadtester/src/main/java/de/hdm/uls/loadtests/loadgenerator/load/generators/RealisticLoadGenerator.java:80-117 | getCurrentClientsCount never exceeds getCurrentLoad |
| Generators.LoadGenerator.SteeredReachesTarget | loadtester/src/main/java/de/hdm/uls/loadtests/loadgenerator/load/LoadGenerator.java:66-84 | after a tick that does not end the loop, at least the profile's target is running |
| Generators.LoadGenerator.constructor | loadtester/src/main/java/de/hdm/uls/loadtests/loadgenerator/load/LoadGenerator.java:37-42 | stores clients, duration and profile; not running, no injectors, empty results |
| Generators.LoadGenerator.IsRunning | loadtester/src/main/java/de/hdm/uls/loadtests/loadgenerator/load/LoadGenerator.java:115-118 | returns the running flag |
| Generators.LoadGenerator.GetGeneratorResults | loadtester/src/main/java/de/hdm/uls/loadtests/loadgenerator/load/LoadGenerator.java:107-110 | returns the results object |
| Generators.LoadGenerator.GetCurrentLoad | loadtester/src/main/java/de/hdm/uls/loadtests/loadgenerator/load/generators/RealisticLoadGenerator.java:103-117 | the loop's result is the sum of the sizes of the injectors still alive |
| Generators.LoadGenerator.GetCurrentClientsCount | loadtester/src/main/java/de/hdm/uls/loadtests/loadgenerator/load/generators/RealisticLoadGenerator.java:80-101 | the loop's result is the number of connected clients of the injectors still alive, at most getCurrentLoad |
| Generators.LoadGenerator.InjectPayload | loadtester/src/main/java/de/hdm/uls/loadtests/loadgenerator/load/generators/RealisticLoadGenerator.java:119-132 | clientsToInject injectors of BatchSizeFor(clientsToInject) clients, id offsets 0, 1000, …, each registered and listed before started |
| Generators.LoadGenerator.InjectLoad | loadtester/src/main/java/de/hdm/uls/loadtests/loadgenerator/load/generators/RealisticLoadGenerator.java:49-61 | starts target − currentLoad injectors only when that is positive |
| Generators.LoadGenerator.NewInjector | loadtester/src/main/java/de/hdm/uls/loadtests/loadgenerator/load/generators/RealisticLoadGenerator.java:126-127 | a fresh injector of the batch size, id offset and time left, reporting to a freshly registered record, not yet alive |
| Generators.LoadGenerator.ListAndStart | loadtester/src/main/java/de/hdm/uls/loadtests/loadgenerator/load/generators/RealisticLoadGenerator.java:128-130 | the injector is appended to the generator's list and then started |
| Generators.LoadGenerator.StartInjector | loadtester/src/main/java/de/hdm/uls/loadtests/loadgenerator/load/generators/RealisticLoadGenerator.java:126-130 | the list gains exactly one live injector with the given offset, size and time left; earlier injectors are unchanged |
| Generators.LoadGenerator.Steer | loadtester/src/main/java/de/hdm/uls/loadtests/loadgenerator/load/LoadGenerator.java:72-80 | exits exactly at full progress; otherwise the injectors afterwards are those injectLoad starts for the profile's target |
| Generators.LoadGenerator.SteeredInjects | loadtester/src/main/java/de/hdm/uls/loadtests/loadgenerator/load/LoadGenerator.java:78-80 | a non-final tick starts exactly target − current load injectors, for the time left |
| Generators.LoadGenerator.Begin | loadtester/src/main/java/de/hdm/uls/loadtests/loadgenerator/load/LoadGenerator.java:48-51 | the running flag is set and the start stamp taken; the stop stamp and the injectors are untouched |
| Generators.LoadGenerator.End | loadtester/src/main/java/de/hdm/uls/loadtests/loadgenerator/load/LoadGenerator.java:54-56 | the stop stamp is taken and the running flag cleared; the start stamp and the injectors are untouched |
| Generators.LoadGenerator.Poll | loadtester/src/main/java/de/hdm/uls/loadtests/loadgenerator/load/LoadGenerator.java:68-83 | one pass of the loop: ended threads are gone; the loop exits at 100 % progress; otherwise injectLoad runs with the profile's target and the time left |
| Generators.LoadGenerator.GenerateLoad | loadtester/src/main/java/de/hdm/uls/loadtests/loadgenerator/load/LoadGenerator.java:66-84 | over the readings, the injectors become Generated(...): every non-final reading injects once and the first reading at full progress ends the loop |
| Generators.LoadGenerator.FinishInjection | loadtester/src/main/java/de/hdm/uls/loadtests/loadgenerator/load/generators/RealisticLoadGenerator.java:64-77 | every injector is joined: none is alive afterwards, and the list is unchanged |
| Generators.LoadGenerator.Run | loadtester/src/main/java/de/hdm/uls/loadtests/loadgenerator/load/LoadGenerator.java:48-57 | running set, start stamp, load generated; only when the loop has exited at a full-progress reading are all injectors joined, the stop stamp taken and running cleared; otherwise run is still looping, running stays set and the stop stamp is unchanged |
| SocketClients.ParseInput | java_thread_based_server/src/main/java/de/hdm/uls/threadbasedserver/client/SocketClient.java:172-194 | lines are read until one contains the delimiter and no further; true exactly when some line has it |
| SocketClients.SocketClient.constructor | java_thread_based_server/src/main/java/de/hdm/uls/threadbasedserver/client/SocketClient.java:60-75 | a new client is ACTIVE with nothing detected, written or closed |
| SocketClients.SocketClient.Receive | java_thread_based_server/src/main/java/de/hdm/uls/threadbasedserver/client/SocketClient.java:127-145 | −1 without reading unless the socket is usable; otherwise read()'s result, and delimiterDetected becomes parseInput's answer unless read() threw |
| SocketClients.SocketClient.Send | java_thread_based_server/src/main/java/de/hdm/uls/threadbasedserver/client/SocketClient.java:105-124 | false without writing on an unusable socket; a missing file is a NullPointerException; otherwise the file is written and the result says whether the write succeeded |
| SocketClients.SocketClient.CleanUp | java_thread_based_server/src/main/java/de/hdm/uls/threadbasedserver/client/SocketClient.java:148-163 | with a socket, the streams and the socket are closed unless closing throws |
| SocketClients.SocketClient.Run | java_thread_based_server/src/main/java/de/hdm/uls/threadbasedserver/client/SocketClient.java:78-98 | the loop ends as Session says: answer once and go IN_ACTIVE when the delimiter arrives, stop on −1, clean up after the loop; a NullPointerException skips the clean-up |
| SocketClients.RepliedIff | java_thread_based_server/src/main/java/de/hdm/uls/threadbasedserver/client/SocketClient.java:80-95 | on a usable socket the client answers on pass k exactly when pass k brings a delimiter line and every earlier pass read something without one |
| SocketClients.UnusableSessionCloses | java_thread_based_server/src/main/java/de/hdm/uls/threadbasedserver/client/SocketClient.java:127-131 | on an unusable socket the first pass reads −1 and the loop ends without an answer |
| SocketClients.SessionPassFrom | java_thread_based_server/src/main/java/de/hdm/uls/threadbasedserver/client/SocketClient.java:80-95 | the pass that ends the loop is not before the pass it starts from |
| NioServers.Key.constructor | java_thread_based_server/src/main/java/de/hdm/uls/threadbasedserver/server/NIOJavaSocketServer.java:197-211 | a key registered for one operation on an open channel with no pending connection |
| NioServers.HandledCount | java_thread_based_server/src/main/java/de/hdm/uls/threadbasedserver/server/NIOJavaSocketServer.java:91-138 | one pass of the key loop removes between 0 and all of the selected keys |
| NioServers.NioServer.constructor | java_thread_based_server/src/main/java/de/hdm/uls/threadbasedserver/server/NIOJavaSocketServer.java:50-61 | setUp opens the channel and the selector |
| NioServers.Stopped | java_thread_based_server/src/main/java/de/hdm/uls/threadbasedserver/server/NIOJavaSocketServer.java:151-168 | with both references present: the channel is closed, then the selector, then both are cleared; a close marks its object closed even when it throws, as the JDK's close does, and a throw ends stop with the references kept, so the selector stays open only when the channel close threw; the references are cleared exactly when neither close threw; without both references nothing changes |
| NioServers.NioServer.Stop | java_thread_based_server/src/main/java/de/hdm/uls/threadbasedserver/server/NIOJavaSocketServer.java:151-168 | the server's new state is Stopped of its old state and the two close outcomes |
| NioServers.StopIsIdempotent | java_thread_based_server/src/main/java/de/hdm/uls/threadbasedserver/server/NIOJavaSocketServer.java:153 | after a stop whose closes succeed both are closed and cleared, and a later stop changes nothing |
| NioServers.SelectorFailureLeavesClosedChannel | java_thread_based_server/src/main/java/de/hdm/uls/threadbasedserver/server/NIOJavaSocketServer.java:157-164 | a failed selector close leaves both closed but referenced, and a later stop clears both whatever its outcomes |
| NioServers.ChannelFailureSkipsSelector | java_thread_based_server/src/main/java/de/hdm/uls/threadbasedserver/server/NIOJavaSocketServer.java:155-164 | a failed channel close ends stop before the selector is closed; a later stop skips the closed channel and clears both unless the selector's close throws |
| NioServers.ThirdStopClears | java_thread_based_server/src/main/java/de/hdm/uls/threadbasedserver/server/NIOJavaSocketServer.java:151-168 | whatever the close outcomes, three stops leave both closed and cleared |
| NioServers.NioServer.AcceptOperation | java_thread_based_server/src/main/java/de/hdm/uls/threadbasedserver/server/NIOJavaSocketServer.java:197-211 | a successful accept registers a fresh channel for OP_READ; a failed one registers nothing |
| NioServers.NioServer.ConnectOperation | java_thread_based_server/src/main/java/de/hdm/uls/threadbasedserver/server/NIOJavaSocketServer.java:218-233 | finishConnect only while a connection is pending |
| NioServers.NioServer.WriteOperation | java_thread_based_server/src/main/java/de/hdm/uls/threadbasedserver/server/NIOJavaSocketServer.java:241-268 | without data a SocketException and no write; otherwise a successful write appends the data and sets OP_CONNECT, a failed one changes nothing |
| NioServers.NioServer.ReadOperation | java_thread_based_server/src/main/java/de/hdm/uls/threadbasedserver/server/NIOJavaSocketServer.java:276-310 | the key becomes AfterRead of its state: a delimiter gives OP_WRITE, −1 without one or an IOException closes and cancels, anything else changes nothing |
| NioServers.NioServer.HandleKey | java_thread_based_server/src/main/java/de/hdm/uls/threadbasedserver/server/NIOJavaSocketServer.java:97-137 | an invalid key is skipped; a valid one is tested for accept, connect, write and read in that order; a SocketException leaves the loop |
| NioServers.NioServer.HandleSelected | java_thread_based_server/src/main/java/de/hdm/uls/threadbasedserver/server/NIOJavaSocketServer.java:91-138 | each selected key is removed and handled in order until a write throws; handled keys end as Handle says and the rest are untouched |
| NioServers.NioServer.Start | java_thread_based_server/src/main/java/de/hdm/uls/threadbasedserver/server/NIOJavaSocketServer.java:68-148 | the selector loop over the rounds, which leaves the server's own fields alone, then stop: the server ends as Stopped says |
| NioServers.ReadOutcomes | java_thread_based_server/src/main/java/de/hdm/uls/threadbasedserver/server/NIOJavaSocketServer.java:289-309 | a delimiter sets OP_WRITE and keeps the key; −1 without one or an IOException cancels and closes; any other read changes nothing |
| NioServers.RequestResponseCycle | java_thread_based_server/src/main/java/de/hdm/uls/threadbasedserver/server/NIOJavaSocketServer.java:241-300 | an accepted key is turned by a delimiter read to OP_WRITE, and by the next write to OP_CONNECT, having written the file once |
| NioServers.CancelledKeySkipped | java_thread_based_server/src/main/java/de/hdm/uls/threadbasedserver/server/NIOJavaSocketServer.java:101-105 | a cancelled key is skipped: nothing changes, nothing is thrown or accepted |
| NioServers.HandledCountStopsAtThrow | java_thread_based_server/src/main/java/de/hdm/uls/threadbasedserver/server/NIOJavaSocketServer.java:91-138 | the keys before the last one removed did not throw, and if the pass stopped early the last one removed threw |
| NioServers.HandledAllWithoutThrow | java_thread_based_server/src/main/java/de/hdm/uls/threadbasedserver/server/NIOJavaSocketServer.java:91-138 | without a throwing key the pass removes every selected key |
| NodeServers.Decimal | node_event_based_server/src/main/server.js:135 | the decimal rendering of a length: digits only, no leading zero |
| NodeServers.DecimalRoundTrip | node_event_based_server/src/main/server.js:135 | reading the rendered digits back gives the length |
| NodeServers.ReplyAnnouncesLength | node_event_based_server/src/main/server.js:133-138 | the reply is "Content-Length: " + digits + CRLF, then CRLF, then the file, and the digits denote the file's length |
| NodeServers.Connection.constructor | node_event_based_server/src/main/server.js:58 | a new connection's flag is false, with no read pending and nothing written |
| NodeServers.NodeServer.constructor | node_event_based_server/src/main/server.js:15-34 | no server, mode false, both counters 0 |
| NodeServers.NodeServer.Start | node_event_based_server/src/main/server.js:48-51 | the server exists and the mode is the argument, or true for the string 'undefined' |
| NodeServers.NodeServer.OnConnection | node_event_based_server/src/main/server.js:56-61 | each connection adds one to both the accepted and the current counter |
| NodeServers.NodeServer.OnEnd | node_event_based_server/src/main/server.js:81-83 | each end subtracts one from the current counter only; the accepted counter stays |
| NodeServers.NodeServer.Stop | node_event_based_server/src/main/server.js:97-110 | server.close is called exactly when a server exists; since the field is never cleared, every later stop calls it again |
| NodeServers.NodeServer.OnError | node_event_based_server/src/main/server.js:85-87 | a socket error stops the server |
| NodeServers.NodeServer.ProcessSequential | node_event_based_server/src/main/server.js:123-140 | only a chunk containing the delimiter starts a file read |
| NodeServers.NodeServer.ProcessParallel | node_event_based_server/src/main/server.js:150-171 | a file read starts whenever the connection's flag is false, delimiter or not |
| NodeServers.NodeServer.OnData | node_event_based_server/src/main/server.js:64-79 | a falsy mode dispatches to processSequential, a truthy one to processParallel |
| NodeServers.NodeServer.OnFileRead | node_event_based_server/src/main/server.js:133-138 | a read error throws and writes nothing; otherwise the reply is written and a parallel-mode read sets the flag |
| NodeServers.MissingModeIsSequential | node_event_based_server/src/main/server.js:51 | without an argument the mode is JavaScript undefined, which selects sequential processing |
| NodeServers.ModeKeepsArgument | node_event_based_server/src/main/server.js:51 | only the string 'undefined' is replaced, by true; any other argument's truthiness decides the mode |
| NodeServers.SequentialSilentWithoutDelimiter | node_event_based_server/src/main/server.js:127-128 | sequential mode: a chunk without the delimiter changes nothing, so nothing is sent |
| NodeServers.SequentialRepliesOnDelimiter | node_event_based_server/src/main/server.js:129-138 | sequential mode: a chunk with the delimiter, once its read completes, appends exactly the reply |
| NodeServers.SequentialReadsPerDelimiter | node_event_based_server/src/main/server.js:123-140 | sequential mode: over a run of chunks, one read per chunk containing the delimiter, none for the others, and the flag never set |
| NodeServers.ParallelReadsUntilFlag | node_event_based_server/src/main/server.js:162-170 | parallel mode: with the flag false every chunk starts a read; with it set none does |
| NodeServers.ParallelSilentAfterReply | node_event_based_server/src/main/server.js:75-77 | parallel mode: once a reply completes, the flag is set and later chunks send nothing |
| NodeServers.ParallelReadsPerChunk | node_event_based_server/src/main/server.js:150-171 | parallel mode: before any read completes, n chunks start n reads |
| NodeServers.ParallelSendsTwiceBeforeCallback | node_event_based_server/src/main/server.js:162-168 | parallel mode: two chunks arriving before the first read completes make the file go out twice |

## Left out

- Real sockets, channels, selectors, streams and file reads. Their outcomes are inputs: connect, write and close results; read results; whether the file could be read and its bytes.
- Threads and timing.
  - Thread scheduling is not modelled. A thread is a step method plus an `alive` flag. The passes the measuring thread completes during an injector's run are an input to that run.
  - `Thread.sleep` (the client dwell, the measuring loop's 1 ms pause, the generator's poll pause) is not modelled. Only whether a dwell is interrupted is an input.
  - The generator's `sleep` helper catches the interruption and carries on, so it has no effect on the model.
  - Unsynchronised reads of the result lists by the GUI are not modelled.
- Clock readings are parameters.
- `long` and `int` overflow, and the saturation of the `(int)` cast, are not modelled: integers are unbounded.
- IEEE-754 rounding, NaN and infinities are not modelled: doubles are reals.
- A generator duration of 0 is not modelled. The progress division is then IEEE NaN at elapsed time 0 and +Infinity afterwards. A negative duration is modelled by the generator loop, but the dwell it leads to is not (next line).
- MultiClients.MultiClient.Visit: a negative dwell does not throw in the model. It is logged as `DwellOp` and the visit goes on to disconnect and the next client. In Java, `Thread.sleep` with a negative argument throws `IllegalArgumentException`, which none of MultiClient's handlers catch, so `inject` and the injector's `run` end at the first connected client. A negative dwell arises only from a negative generator duration: with a positive duration every injecting reading leaves positive time (`Generators.TimeLeftPositive`).
- A stepped profile with a negative number of steps is not modelled: `numberOfSteps` is a `nat`, while the Java constructor takes any `int`. With −1 steps `getValue` divides 0.0 by 0 and gives NaN. With fewer than −1 steps it gives values outside [0, 1].
- The generator loop and `SocketClient.run` consume finitely many readings. When the readings run out, the result is `Waiting`, or the loop is simply not finished: the generator's `Run` then reports `finished == false`, joins nothing and takes no stop stamp.
- The `SocketClient` constructor's failure to obtain the socket's streams is not modelled, and neither is `socket.isConnected` changing after construction.
- `SingleClient.parseInput`'s skip-and-discard of the reply and `biDirAsyncSendAndReceiveData` are not modelled. `receiveData` writes the delimiter line and reports false.
- `GeneratorResults.Throughput`'s `getTimeInMillis`, `getTimeInSec` and `getTimeProgress` are display-only arithmetic and are left out.
- `InjectorResults` and `GeneratorResults` getters are left out: fields are read directly.
- NIO server:
  - A partial `channel.write` is not modelled; a write either sends everything or throws.
  - `accept()` returning null is not modelled.
  - `channel.close()` throwing inside `readOperation`'s handler is not modelled.
  - A `select()` that throws is not modelled.
  - A `setUp` failure is not modelled; it exits the process.
- NioServers.NioServer.Start: states the loop's end (through stop) and that the rounds leave the server's own fields alone. Each round's effect on its keys is HandleSelected's contract, and keys are not tracked across rounds.
- Node server:
  - UTF-8 decoding of chunks is not modelled.
  - `buffer.write` into the shared message buffer is not modelled; nothing reads that buffer.
  - The `server.close` callback's log entry (`collectLogData`, dates, `fs.appendFile`) is not modelled.
  - Which event the event loop delivers next is the caller's choice.
  - Pending file reads complete in the order they were issued.
  - The module-level `start` call is not modelled.
- The UI, the load cases, the environment and process management, `JavaSocketServer` and the configuration classes are not part of this model. Their constants (delimiter `$::_$`, `ID_RANGE_STEPS` 1000, server host and port, measuring scenario) are declared in `config.dfy`.
- Generators.LoadGenerator.InjectPayload: states the injectors' views (offset, size, duration, alive) and that each reports to a freshly registered record, not the records' later contents.
- Generators.LoadGenerator.InjectLoad: like InjectPayload, states the injectors' views rather than the records' contents.
- Injectors.LoadInjector.Run: the measuring thread's passes are placed after the last visit and before stopMeasuring. A pass that falls inside the measurement client's own visit is not modelled. Example: a pass between its connect and its sendData, after which sendData would start a second measurement. So the model records at most one sample per run, and the real thread can record more.
- Injectors.LoadInjector.Terminate: states only that the thread is no longer alive; what the thread did before is Run's contract.

## Findings

| source | as written | input that shows it | evidently intended | confidence | as-written member | corrected member |
|---|---|---|---|---|---|---|
| loadtester/src/main/java/de/hdm/uls/loadtests/loadgenerator/load/LoadGenerator.java:82 | `(long) (1.0 / INJECTION_FREQUENCY_IN_K) * 1000` casts 1/100 to 0 before multiplying, so the loop sleeps 0 ms and polls without pause | INJECTION_FREQUENCY_IN_K = 100 (the constant at line 24) | `(long) ((1.0 / INJECTION_FREQUENCY_IN_K) * 1000)`: a 10 ms pause, 100 polls per second | high; not executed | Generators.PollIntervalIsZero | Generators.IntendedPollRate |
