# Verification of the acadock monitor

This Dafny project models the four stateful parts of the monitor and proves properties of them.

* **Container events and CPU monitors.** `Broadcast` is the fan-out of docker events to registered channels of
  capacity one, with the mutex that guards the registrations and one goroutine per registration that pushes the
  containers already running into the same channel. `EventStream` is the event loop of `CPUUsageMonitor.Start` with
  its map of cancel functions. `CpuMonitor` is the monitor's shared state, method by method as critical sections.
  `Lifecycle` lets the event loop and any number of monitor goroutines interleave freely, and `EndToEnd` plugs the
  event loop into the channel it registers. `Events` defines order-preserving interleavings. `UsageLaws` bounds the
  reported usages. `BroadcastRuns` and `LifecycleRuns` tell from the steps of a run alone what was sent, committed
  and ended, and that nothing blocks for good.
* **Queue length smoothing.** `Sampler` is the sampling loop with its batches, bounded queue of averages and
  reader; `Smoothing` is the recursive smoothing function with its closed form.
* **cgroup statistics.** `Cgroup` holds both readers and the v1 block-IO aggregation over mutable device records;
  `CgroupLaws` holds its laws and the agreement of the two versions; `BlkIOLaws` restates the report on the entries
  as the kernel spells them.
* **procfs.** `Decimal` and `Text` print, parse and split; `MemInfo`, `CpuStat` and `MountInfo` are the readers of
  `/proc/meminfo`, `/proc/stat` and the mount and block-device tables; `MountRuns` states the lookups on strings and
  on the steps of concurrent refreshes. `Prelude` holds Go's 64-bit arithmetic.

`dafny verify dfyconfig.toml` checks everything.

## How to read the model

Code that updates state in place is a class or a loop here, proved against a specification function; the laws are
lemmas about those functions. Concurrent code is a state machine: a `Step` datatype with one constructor per atomic
step, `Enabled`, `Apply`, and `ValidRun`/`After` for runs. A section that runs under one mutex is one step, every
blocking operation and every read made outside a mutex is a step of its own, and every theorem quantifies over all
valid runs.

Inputs the program does not control are parameters: docker events, listings and their failures, cgroup readings and
their two kinds of errors, file contents, directory listings, resolved symlinks, metric readings, the clock (which
only moves forward) and when `Stop` is called. `float64` is `real`, and the smoothing factor `exp(-n)` is any real
strictly between 0 and 1. `uint64` and `int64`, including durations, wrap around as in Go.

Where a promise turns out to be conditional, the exact condition is proved:

* Stopping a container cancels all its monitors if and only if none of its Starts was repeated
  (`EventStream.StopCancelsAllIffAlternating`). The list that a registration pushes can repeat a Start, so one
  monitor can be left that nothing cancels; `EndToEnd.OrphanIsReachable` is a run of the whole system that does so
  and `EndToEnd.UncancelableBound` bounds how many there can be.
* cgroup v1 and v2 report the same devices if and only if no device is listed twice, and the same statistics if and
  only if, in addition, no sum of memory and swap exceeds 64 bits.
* Host usage lies in [0, 1] when no counter goes backwards. It never exceeds 1, and it is negative if and only if the
  ticks that were not idle went backwards, which takes a counter that did. Totals beyond 64 bits do no harm.
* The event loop holds an entry for a container that the live stream has stopped if and only if a listed Start of it
  was handled after its last live Stop; `EndToEnd.LateStartIsReachable` is such a run.
* A quantity in kB is exact if and only if it is below 2^54, and a scaled clock-tick counter if and only if the tick
  rate divides a second or the counter is zero.
* The spacing between samples is positive if and only if `averageLength` does not exceed the interval in nanoseconds.

The model follows the code in three places where a reader might expect otherwise: a first sample stores a zero value
as its predecessor and counts as present; the system samples survive the cleaning of a container, so that a
container's first sample after a restart is compared with a much older system sample; and with the factor `exp(-n)`
the smoothed value stays close to the *oldest* entry of the window (`Smoothing.StaysNearOldest`).

## Model

| member | source | states |
|---|---|---|
| Broadcast.DeliveryInOrder | docker/container_repository.go:44-78 | in every reachable state and for every subscriber, what was put into its channel interleaves, in order and without loss or repetition, a prefix of its listed Starts with consecutive broadcast events from its registration on; at most one is still buffered |
| Broadcast.BroadcastSkew | docker/container_repository.go:48-54 | with the mutex free every subscriber has been sent every event since its registration; inside the loop those before its position are exactly one event ahead; no two subscribers differ by more than one |
| BroadcastRuns.Delivery | docker/container_repository.go:44-78 | told from the steps of any run: what was put into a channel interleaves Starts of exactly the listed containers, as many as its lister pushed, with exactly the events taken from docker, from the first one broadcast after the registration on; the consumer has received all of it but at most one |
| BroadcastRuns.LiveFromSteps | docker/container_repository.go:48-54 | the broadcast events are exactly those taken from docker for which the mutex was locked, in order; at most one more is waiting |
| BroadcastRuns.RegisteredFromSteps | docker/container_repository.go:61-63 | a registration counts from the events locked before it |
| BroadcastRuns.ChannelFromSteps | docker/container_repository.go:64-76 | a lister holds the listing it was given and has pushed as many of its containers as there were pushes; without a listing nothing was pushed |
| BroadcastRuns.FailedListingPushesNothing | docker/container_repository.go:65-69 | after a failed listing nothing is ever pushed |
| BroadcastRuns.CanPushAll | docker/container_repository.go:70-75 | as long as the consumer receives, a lister can always push its whole listing |
| BroadcastRuns.CanBroadcast | docker/container_repository.go:48-54 | from every reachable state any event can still be broadcast to everybody registered |
| Broadcast.StepKeepsInv | docker/container_repository.go:44-78 | each atomic step of broadcaster, registrations, listers and consumers keeps the delivery invariant |
| Broadcast.SendInOrder | docker/container_repository.go:51 | a broadcast send extends the interleaving on the live side |
| Broadcast.PushInOrder | docker/container_repository.go:70-75 | a lister's send extends the interleaving on the listed side |
| Broadcast.ReceiveInOrder | docker/container_repository.go:60 | taking an event out of the channel changes nothing that was sent |
| Broadcast.ContainerRepository.Broadcast | docker/container_repository.go:48-54 | one round of the loop, whatever others do while it blocks, leaves every registered channel with the whole broadcast history since its registration, keeps the invariant and releases the mutex |
| Broadcast.ContainerRepository.SendNext | docker/container_repository.go:51 | one blocking send advances the loop by one subscriber and keeps the invariant |
| Broadcast.ContainerRepository.AwaitRoom | docker/container_repository.go:51 | a send into a full channel waits while consumers and listers move in any order, and finds the channel empty and the invariant kept |
| Broadcast.ContainerRepository.RegisterToContainersStream | docker/container_repository.go:58-78 | a registration appends one empty channel whose history begins at the present event |
| Events.InterleavesPrefix | docker/container_repository.go:60-76 | every prefix of an interleaving interleaves prefixes of the two streams |
| Events.InterleavesCut | docker/container_repository.go:60-76 | both parts of a cut interleaving interleave the parts of the two streams |
| Events.InterleavesLength | docker/container_repository.go:60-76 | an interleaving holds exactly as many events as the two streams together |
| EventStream.HandleEvent | cpu/cpu.go:53-71 | one iteration on real cancel functions acts as the accounting says and touches no other monitor |
| EventStream.Start | cpu/cpu.go:48-72 | the event loop spawns and cancels exactly the contexts of the account, on pairwise different objects |
| EventStream.CancelsAreRunning | cpu/cpu.go:51-66 | the cancel map holds exactly the ids whose latest Start or Stop is a Start, each with its latest, uncancelled monitor |
| EventStream.FateOfMonitor | cpu/cpu.go:56-67 | for any stream and each spawned monitor: it is cancelled if and only if the next Start or Stop of its container after its own Start is a Stop, and it is the one the cancel map holds if and only if there is none |
| EventStream.ContextsAreStarts | cpu/cpu.go:56-60 | monitor number m belongs to the container of Start number m |
| EventStream.Accounting | cpu/cpu.go:51-71 | for any stream, uncancelled monitors of an id are its Starts minus the Stops that found an entry, which is the running one plus one per repeated Start |
| EventStream.StopCancelsAllIffAlternating | cpu/cpu.go:61-67 | after a Stop nothing is left uncancelled if and only if no Start of the id was repeated |
| EventStream.AlternatingKeepsOne | cpu/cpu.go:56-67 | with alternating events at most one monitor per id is uncancelled, and none after a Stop |
| EventStream.NoRepeatsIffAlternates | cpu/cpu.go:56-60 | counting repeated Starts agrees with the definition of alternation |
| EventStream.RepeatedStartLeavesMonitor | cpu/cpu.go:56-67 | Start, Start, Stop of one id leaves its first monitor uncancelled |
| EventStream.ListingAddsRepeats | cpu/cpu.go:52-60 | interleaving listed Starts into a stream adds at most one uncancelled monitor per listed occurrence |
| EventStream.RunningIffListedLate | cpu/cpu.go:52-66 | with a listing mixed in, a container counts as running if and only if the live stream says so or a listed Start of it was handled after its last live Stop |
| CpuMonitor.CPUUsageMonitor.constructor | cpu/cpu.go:34-46 | a new monitor has no samples |
| CpuMonitor.CPUUsageMonitor.UpdateHostCPUUsage | cpu/cpu.go:93-105 | a successful read shifts current into previous; a failed one changes nothing |
| CpuMonitor.CPUUsageMonitor.UpdateContainerCPUUsage | cpu/cpu.go:134-152 | both reads succeeding commits all four maps at once; otherwise nothing changes |
| CpuMonitor.CPUUsageMonitor.CleanMonitoringData | cpu/cpu.go:154-159 | removes the id from the two container maps and from nothing else |
| CpuMonitor.CPUUsageMonitor.GetContainerUsage | cpu/cpu.go:183-203 | returns the usage specified on the four maps |
| CpuMonitor.CPUUsageMonitor.GetHostUsage | cpu/cpu.go:161-181 | returns the usage specified on the two host samples |
| CpuMonitor.NoGrowthNoUsage | cpu/cpu.go:194-198 | without growth of both the CPU and the system time the usage is zero |
| CpuMonitor.OneSampleIsUnavailable | cpu/cpu.go:164-166 | host usage takes two samples |
| Lifecycle.PresentStatsHaveLiveWriter | cpu/cpu.go:107-159 | no leaked statistics: in every interleaving, present statistics of an id were written by a monitor of that id that has not ended |
| Lifecycle.EndedMonitorsLeaveNothing | cpu/cpu.go:107-132 | once every monitor of an id has ended, by cancellation or cgroup error, the id is in neither map and its usage is zero |
| Lifecycle.TablesRefineHistory | cpu/cpu.go:134-203 | in every reachable state the maps hold the last two samples since the last clean and the last two system samples ever, domains agree in pairs, and the reported usage is a function of those histories |
| Lifecycle.CancellationAccounting | cpu/cpu.go:51-71 | the accounting of cancellations holds in every reachable state of event loop and monitors |
| LifecycleRuns.MonitorIsAt | cpu/cpu.go:107-132 | told from the steps of any run: the last steps of a monitor determine where it is; a cgroup error or a done context makes it end, any other failure and a commit bring it back to its select |
| LifecycleRuns.EndingHasCause | cpu/cpu.go:112-125 | a monitor that is ending or has ended was cancelled, or its parent was, or it has met a cgroup error |
| LifecycleRuns.CgroupErrorEnds | cpu/cpu.go:121-125 | after a cgroup error a monitor is ending or has ended in every later state |
| LifecycleRuns.OtherFailuresDoNotEnd | cpu/cpu.go:126-129 | after any other failure, and after a commit, the monitor can tick again |
| LifecycleRuns.LoopHandles | cpu/cpu.go:53-71 | the event loop has handled exactly the events of its steps |
| LifecycleRuns.LogIsLogged | cpu/cpu.go:134-149 | every commit carries the two readings that its monitor took right before it, under the id of the Start that spawned the monitor |
| LifecycleRuns.TablesHoldReadings | cpu/cpu.go:134-203 | in every run the tables hold the last two such readings since the last clean and the last two system readings ever, and usage is computed from these |
| LifecycleRuns.CleanedUpLeavesNothing | cpu/cpu.go:107-132 | once every monitor that a Start of an id spawned has cleaned up, the id is in neither map and its usage is zero |
| LifecycleRuns.DoneMonitorCanEnd | cpu/cpu.go:114-117 | a monitor whose context is done can always end by steps of its own |
| LifecycleRuns.LiveMonitorCanCommit | cpu/cpu.go:118-121 | a monitor that is not ending can always commit any sample by steps of its own |
| Lifecycle.StepKeepsInv | cpu/cpu.go:48-159 | each atomic step of event loop and monitors keeps account, histories and live writers |
| EndToEnd.HandledInOrder | cpu/cpu.go:52-53 | what the event loop has handled interleaves a prefix of its listing with a prefix of the events broadcast since its registration; outstanding are exactly the event in the channel and the one still to be sent to it, at most two |
| EndToEnd.HandledFromSteps | cpu/cpu.go:52-53 | told from the steps: the event loop has handled Starts of the first listed containers mixed, in order, with the first events taken from docker and broadcast after its registration; at most two are outstanding |
| EndToEnd.RepositoryRuns | docker/container_repository.go:44-78 | within the composed system the repository runs on its own steps |
| EndToEnd.MonitorRuns | cpu/cpu.go:48-159 | within the composed system event loop and monitors run on their own steps, handling the delivered events |
| EndToEnd.EverythingHandled | cpu/cpu.go:52-53 | with the channel empty and the mutex free, the event loop has handled all that was pushed and all that was broadcast since its registration |
| EndToEnd.EntryIffRunningOrListedLate | cpu/cpu.go:52-66 | in every reachable state the event loop holds an entry for a container if and only if the live events it has handled say it runs or a listed Start of it was handled after its last live Stop |
| EndToEnd.LateStartIsReachable | docker/container_repository.go:64-76 | a run of the whole system in which the Stop of a container overtakes its listed Start and its monitor is kept |
| EndToEnd.UncancelableBound | cpu/cpu.go:52-71 | in every reachable state of the whole system the uncancelled monitors of an id are at most its repeated live Starts plus its listed occurrences, plus one while it is running |
| EndToEnd.AtMostOneOrphan | cpu/cpu.go:52-71 | with alternating live events and one listed occurrence, at most one monitor besides the running one is uncancelled |
| EndToEnd.OrphanIsReachable | docker/container_repository.go:64-76 | a run of the whole system in which a container that starts while being listed keeps an uncancelled monitor after its Stop |
| EndToEnd.StepKeepsInv | cpu/cpu.go:52-53 | each step of the composed system keeps both invariants and hands events over without loss |
| UsageLaws.HostUsageInTicks | cpu/cpu.go:161-181 | for any two lines, however large their totals, whose growth fits into a duration: host usage is a function of the growth of all ticks and of the idle ticks, whatever the tick scale; unavailable exactly when one of them shrank |
| UsageLaws.HostUsageIsBusyShare | cpu/cpu.go:161-181 | when no counter goes backwards and the growth fits, host usage is the share of ticks that were not idle, lies in [0, 1], and is undefined exactly when no tick passed |
| UsageLaws.SumDelta | cpu/cpu.go:168 | the difference of two sums is the wrapped, scaled growth of the raw totals, also when the totals exceed 64 bits |
| UsageLaws.UsageOfTicks | cpu/cpu.go:171-175 | a usage is at most 1 and negative exactly when the idle ticks grew by more than all ticks |
| UsageLaws.UsageRange | cpu/cpu.go:168-175 | for any two lines whose total grew and whose idle ticks did not shrink, the reported usage is at most 1, and negative if and only if the ticks that were not idle went backwards |
| UsageLaws.BusyShrinks | cpu/cpu.go:168-175 | that takes a counter other than the idle one going backwards |
| UsageLaws.ResetMakesUsageNegative | cpu/cpu.go:168-175 | a reset of the user time during a longer idle time makes the usage negative |
| UsageLaws.PercentsIsFloor | cpu/cpu.go:194-198 | the reported percentage p is the integer with p * system <= 100 * numCPU * cpu < (p + 1) * system |
| UsageLaws.UsageWithinMachine | cpu/cpu.go:194-198 | a percentage is at most 100 * numCPU if and only if the CPU time exceeds the system time by less than one part in 100 * numCPU |
| UsageLaws.UsagesShareMachine | cpu/cpu.go:183-203 | containers sharing one positive system delta whose CPU deltas sum to at most it are together reported at most at 100 * numCPU, and none negative |
| Smoothing.ClosedForm | filters/exponential_smoothing.go:128-134 | the recursion is the weighted sum with weights (1-a)^n for the oldest and a(1-a)^(n-i) for value i |
| Smoothing.WeightsSumToOne | filters/exponential_smoothing.go:128-134 | the weights are positive and sum to one |
| Smoothing.SmoothWithin | filters/exponential_smoothing.go:128-134 | the result stays within any bounds of the values |
| Smoothing.SmoothMonotone | filters/exponential_smoothing.go:128-134 | raising values never lowers the result, and raising any one of them strictly raises it |
| Smoothing.SmoothAffine | filters/exponential_smoothing.go:128-134 | a change of unit or origin of the values changes the result the same way |
| Smoothing.DeviationFromOldest | filters/exponential_smoothing.go:123-134 | the result differs from the oldest value by at most the share 1 - (1-a)^n of the range |
| Smoothing.StaysNearOldest | filters/exponential_smoothing.go:123-134 | the result differs from the oldest value by at most n * a times the range |
| Sampler.NewExponentialSmoothing | filters/exponential_smoothing.go:49-80 | a filter is built exactly when the three checks pass, with the configured values and an empty queue |
| Sampler.ExponentialSmoothing.WaitForNextSample | filters/exponential_smoothing.go:136-146 | the next sampling instant is at least the spacing after the last one |
| Sampler.ExponentialSmoothing.AppendToQueue | filters/exponential_smoothing.go:148-156 | the queue becomes the last queueLength of its values and the new one |
| Sampler.ExponentialSmoothing.AppendAverage | filters/exponential_smoothing.go:103-107 | the summing loop queues the mean of the batch, which is never empty |
| Sampler.ExponentialSmoothing.SampleOnce | filters/exponential_smoothing.go:92-110 | the part after the wait is one pipeline round that the clock allows, made of the metric read and the instants observed, and of nothing else |
| Sampler.ExponentialSmoothing.Iterate | filters/exponential_smoothing.go:86-110 | an iteration either finds the flag set after its wait and changes nothing, or is one round made of exactly what it observed |
| Sampler.ExponentialSmoothing.IsStopped | filters/exponential_smoothing.go:158-162 | the flag is read as set if and only if it was set before or another goroutine has set it by then |
| Sampler.ExponentialSmoothing.Start | filters/exponential_smoothing.go:82-112 | after any number of iterations queue and pending values are those of the pipeline on possible rounds, and these rounds are exactly the sequence of waits, metrics and instants the loop has observed; it returns early only after a wait that found the flag set |
| Sampler.LoopKeepsMetrics | filters/exponential_smoothing.go:92-109 | the averaged batches followed by the pending values are exactly the values that the metrics reader returned to the loop, in order |
| Sampler.ExponentialSmoothing.Read | filters/exponential_smoothing.go:114-126 | smooths a full queue and refuses any other |
| Sampler.Conservation | filters/exponential_smoothing.go:82-112 | the averaged batches followed by the pending values are exactly the successful readings in order, and the queue is the last queueLength averages |
| Sampler.TotalIsConserved | filters/exponential_smoothing.go:101-109 | averages weighted by batch size plus pending values sum to everything read |
| Sampler.ReadWithinRecentSamples | filters/exponential_smoothing.go:114-126 | whenever Read succeeds its result lies within any bounds of the raw samples of the last queueLength batches |
| Sampler.ReadIsWeightedAverages | filters/exponential_smoothing.go:114-134 | whenever Read succeeds it returns the weighted sum of the means of the last queueLength batches, oldest first, with positive weights that add up to one |
| Sampler.ReadIsMonotone | filters/exponential_smoothing.go:119-125 | raising any entry of a full queue strictly raises what Read returns |
| Sampler.LastSettingWins | filters/exponential_smoothing.go:34-77 | the last setting of each kind wins over its default; a configuration is refused exactly when one of the three bounds is violated |
| Sampler.ReadSucceedsOnceFull | filters/exponential_smoothing.go:119-121 | Read succeeds if and only if at least queueLength averages were made |
| Sampler.TimingBounds | filters/exponential_smoothing.go:86-109 | samples are at least the spacing d apart, averages more than the interval I apart, every batch has at most I/d + 2 samples however many readings fail; d > 0 if and only if averageLength is at most the interval |
| Cgroup.CgroupV1IOUsage | cgroup/stats.go:162-198 | the loops over mutable records return the group-by of the rows |
| Cgroup.Aggregation.Update | cgroup/stats.go:200-223 | one entry updates or creates exactly the record of its key; the order slice keeps listing the keys once each |
| Cgroup.Aggregation.FindOrCreate | cgroup/stats.go:206-220 | a missing key gets a zeroed record at the end of the order |
| Cgroup.Aggregation.Feed | cgroup/stats.go:170-190 | a loop over one list extends the table by its rows |
| Cgroup.Aggregation.Collect | cgroup/stats.go:192-197 | the result lists the records in order of creation |
| Cgroup.DeviceRecord.Add | cgroup/stats.go:171-188 | a callback adds to its own counter only, modulo 2^64 |
| Cgroup.TableIsGroupBy | cgroup/stats.go:162-223 | the map and order slice built row by row hold the group-by: one record per key, counters the sums modulo 2^64, identity from the first row |
| Cgroup.KeysInFirstAppearanceOrder | cgroup/stats.go:206-220 | the keys are those of the read and write rows, once each, ordered by their first row |
| Cgroup.CgroupV2IOUsage | cgroup/stats.go:140-160 | v2 entries map one to one, in order |
| CgroupLaws.Conservation | cgroup/stats.go:170-195 | summed over the devices each counter is the sum of all rows of its list and operation, modulo 2^64 |
| CgroupLaws.RowOrderIsIrrelevant | cgroup/stats.go:170-190 | permuting the rows within each list changes neither the reported keys nor any counter |
| CgroupLaws.OtherRowsAreInert | cgroup/stats.go:201-204 | rows with any other operation have no effect on the report |
| BlkIOLaws.ReportIsGrouping | cgroup/stats.go:162-223 | told from the entries: one record per device in the order in which devices first count, with the numbers of that first entry and the sums modulo 2^64 of the device's reads and writes in the two lists; every counted entry belongs to a record |
| BlkIOLaws.SameKey | cgroup/stats.go:206-209 | two entries share a record if and only if they have the same name, or the same numbers when unnamed, or one's name spells the other's numbers |
| BlkIOLaws.OpSpelling | cgroup/stats.go:201-204 | an entry counts as read or write exactly when its operation is a case spelling of that word |
| BlkIOLaws.OtherEntriesAreInert | cgroup/stats.go:201-204 | removing all entries with any other operation leaves the report unchanged |
| BlkIOLaws.V1MemoryAndSwap | cgroup/stats.go:113-138 | memory is what was measured, and memory and swap together are the larger of the two measurements, for usage, maximum and limit |
| CgroupLaws.ReadersAgree | cgroup/stats.go:140-198 | v1 on the encoding of a v2 list equals v2 on the list, order included, if and only if no device is listed twice |
| CgroupLaws.SwapRecovered | cgroup/stats.go:132-138 | the swap difference recovers swap from memory plus swap if and only if their sum does not overflow |
| CgroupLaws.NanosecondsAgree | cgroup/stats.go:119 | v1 nanoseconds and v2 microseconds of the same time give the same duration, also when they wrap |
| CgroupLaws.StatsAgree | cgroup/stats.go:94-129 | the whole statistics agree if and only if neither memory and swap sum overflows and no device is listed twice |
| Decimal.FormatIsCanonical | procfs/mountinfo.go:173-175 | printing is exact and never has a leading zero |
| Decimal.CanonicalIsFormat | procfs/mountinfo.go:173-175 | every canonical digit string is the printed form of its value |
| Decimal.ParseInvertsFormat | procfs/meminfo.go:121 | parsing inverts printing on every uint64 |
| Decimal.DeviceKeyParses | procfs/mountinfo.go:173-175 | a string parses to a device if and only if it is the key of that device |
| Decimal.DeviceKeyInjective | procfs/mountinfo.go:173-175 | two devices share a key if and only if they are the same |
| Text.FieldsCons | procfs/meminfo.go:115 | splitting takes off one word whatever spacing precedes it |
| Text.SpacingOfText | procfs/meminfo.go:115 | blanks and tabs separate, printable ASCII characters do not |
| Text.ReadStringLine | procfs/meminfo.go:103 | reading a line takes the text up to and including its newline |
| MemInfo.Read | procfs/meminfo.go:87-138 | the line loop returns the specified struct or gives up on a malformed line |
| MemInfo.FillStruct | procfs/meminfo.go:141-159 | each tagged field gets the value of its header, or zero |
| MemInfo.RenderedLineParses | procfs/meminfo.go:111-133 | a rendered line parses to its header and quantity, whatever its spacing |
| MemInfo.RoundTrip | procfs/meminfo.go:97-158 | reading a rendered file gives each tagged field the last quantity of its header and zero when absent; unknown headers and an unterminated last line change nothing |
| MemInfo.TotalsRoundTrip | procfs/meminfo.go:97-158 | for files with blanks and tabs, the fields that the memory totals use have the last quantities of their headers, by name |
| MemInfo.PlainIsWellFormed | procfs/meminfo.go:111-115 | entries with printable headers and with blanks and tabs as spacing are among those of the round trip |
| MemInfo.GivesUpIffBadLine | procfs/meminfo.go:115-132 | for any text, reading gives up if and only if a complete line has fewer than two words, a second word that is no uint64, or a third and last word other than kB |
| MemInfo.GoodLineMeans | procfs/meminfo.go:120-133 | any other line stores its number under its first word without one trailing colon, times 1024 if and only if it has exactly three words |
| MemInfo.QuantityIsExact | procfs/meminfo.go:126-128 | scaling kB to bytes is exact if and only if the value is below 2^54 |
| CpuStat.Read | procfs/cpu_stat.go:76-98 | the line loop returns the specified table, or an error on a malformed cpu line |
| CpuStat.ReadOneCPULine | procfs/cpu_stat.go:101-137 | a scanned line becomes the ten scaled durations in the order of the fields |
| CpuStat.ConvertBuffer | procfs/cpu_stat.go:120-123 | the buffer loop scales every counter |
| CpuStat.RenderedLineScans | procfs/cpu_stat.go:112-118 | a rendered cpu line scans to its name and counters |
| CpuStat.RenderedFileParses | procfs/cpu_stat.go:76-98 | a rendered file gives every cpu its last line's counters, scaled; other lines and an unterminated last line are inert |
| CpuStat.AllOfRenderedFile | procfs/cpu_stat.go:40-42 | All of a rendered file holds the counters of the last line named cpu, scaled, field by field, and zeros when there is none |
| CpuStat.StatHolds | procfs/cpu_stat.go:120-134 | the ten counters end up in the fields they belong to |
| CpuStat.ScannedNumbersAreSpelled | procfs/cpu_stat.go:112-118 | whatever scans as n numbers is n blank-separated digit strings with these values |
| CpuStat.FailsIffBadCPULine | procfs/cpu_stat.go:77-98 | for any text, reading fails if and only if a complete line begins like a cpu line and does not scan |
| CpuStat.SumIsScaledTotal | procfs/cpu_stat.go:36-38 | the sum of a line is the scale times the raw total, modulo 2^64 and exactly when it fits |
| CpuStat.DurationTimesWraps | procfs/cpu_stat.go:122 | converting before multiplying wraps to the same duration as the exact product |
| CpuStat.TruncationLoss | procfs/cpu_stat.go:120-123 | truncating the scale loses less than a counter's tick count in nanoseconds, and nothing if and only if the tick rate divides a second or the counter is zero |
| MountInfo.MountInfoReader.Refresh | procfs/mountinfo.go:81-107 | publishes both maps when every read succeeds and otherwise leaves both alone |
| MountInfo.MountInfoReader.MapperPaths | procfs/mountinfo.go:154-171 | the alias loop returns the specified map, or an error when one symlink does not resolve |
| MountInfo.MountInfoReader.DevicePaths | procfs/mountinfo.go:123-139 | the device loop returns the specified map, or an error when one symlink does not resolve |
| MountInfo.MountInfoReader.Mountpoint | procfs/mountinfo.go:109-114 | looks the device up in the published mount points |
| MountInfo.MountInfoReader.DevicePath | procfs/mountinfo.go:116-121 | looks the device up in the published device paths |
| MountInfo.MountMapScans | procfs/mountinfo.go:96-99 | a lookup by key is the last line of the mount table for that device |
| MountInfo.DeviceMapScans | procfs/mountinfo.go:123-152 | a device path is the last mapper alias resolving to the device node, else the node under /dev |
| MountInfo.BuiltIndexScans | procfs/mountinfo.go:81-121 | both lookups in a built index answer as linear scans of what the refresh read |
| MountInfo.LookupsScanLatestPublication | procfs/mountinfo.go:81-121 | after any interleaving of refreshes, successful or not, lookups scan the reading published last, and find nothing before the first |
| MountRuns.LookupsScanLastRead | procfs/mountinfo.go:81-121 | told from the steps of any run: lookups scan what the refresher that published last had read in its last three steps |
| MountRuns.DevicePathAsString | procfs/mountinfo.go:123-171 | the device path, as a string: the last alias under /dev/mapper of the element that the device's symlink ends in, else that element under /dev |
| MountRuns.BaseOfPath | procfs/mountinfo.go:146 | the base of a path is its last element, whatever slashes follow |
| MountRuns.JoinOfName | procfs/mountinfo.go:162 | joining puts one slash between a directory and a name |
| MountRuns.UnlistedHasNoPath | procfs/mountinfo.go:116-121 | a device that is not listed has no path |
| MountRuns.BuiltIffAllReadsSucceed | procfs/mountinfo.go:81-107 | an index is built if and only if all three listings succeed and every listed symlink resolves |
| MountRuns.IdleRefresherCanPublish | procfs/mountinfo.go:81-107 | whatever else is under way, an idle refresher whose reads succeed publishes what it has read |
| MountRuns.CanBecomeIdle | procfs/mountinfo.go:81-107 | a refresher can always finish |
| Prelude.WrapUShift | cgroup/stats.go:174 | the stored uint64 depends on the exact result modulo 2^64 only |
| Prelude.WrapIShift | procfs/cpu_stat.go:122 | the stored int64 depends on the exact result modulo 2^64 only |

## Left out

- webserver/, client/ and cmd/: HTTP routing, JSON and request building hold no hard state.
- net/: its interface statistics come from libraries that are not part of this model.
- procfs/loadavg.go, procfs/utils.go, config/ and resources/: single scans, environment reading and field copying.
- docker/client.go, docker/list.go and the reconnect loop of docker/container_repository.go: docker events and listings are arbitrary sequences here.
- cgroup/manager.go and the calls of Stat: a cgroup reading is an arbitrary value or one of the two kinds of errors.
- The host totals of procfs/meminfo.go (free, used and swap used): plain sums and differences.
- Logging, mocks and context values other than the cancelled flag.
- Rounding, infinities and NaN of float64: reals are used; the division by a zero sum in GetHostUsage is the separate outcome `NotFinite`.
- The error values of a malformed meminfo line: they are built by a library that is not part of this model, so such a line is only `Malformed`.
- CpuStat.ReadOneCPULine: requires a positive tick rate; the panic on zero is not modelled.
- Unicode lower-casing in cgroup/stats.go: only what a comparison with `read` and `write` can observe.
- Real directory reads and symlinks: each refresh is given its listings and a finite map of resolved paths, and filepath.Join is limited to a clean directory and one element.
- Cgroup.CgroupV1IOUsage: one mount index serves the whole call, although the program looks up mount point and device path under separate read locks.
- Whether an empty device list is nil or of length zero.
- The struct of procfs/meminfo.go is a sequence indexed by its tags; reflection is not modelled.
- EventStream.Start and Sampler.ExponentialSmoothing.Start: observed after finitely many iterations, because the loops need not end.
- Sampler.ExponentialSmoothing: queue and stop flag are guarded by mutexes in the program; here each guarded section is one statement, and other goroutines may call Stop until the flag is read.
- Liveness and fairness: safety, counting and bounds only.
