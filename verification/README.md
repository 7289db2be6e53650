# Verified model of the agent's reductions

A Dafny model of the parts of the agent that reduce what it sees without losing
any of it: mergeable usage rollups, the counter baselines that feed them, the
window journals, the delivery protocol, the inventory store, and four smaller
algorithms (glob matching, the chunked marker search, the profile puller's
schedule, the cadence gate). `dafny verify dfyconfig.toml` checks everything.

Each component is modelled twice where the program updates things in place: as
functions on values, about which the laws over whole runs are proved, and as a
class or a method with the program's loops and fields, proved to compute those
functions.

| file | what it models |
|---|---|
| `Windows`, `Histograms`, `HistogramCodec`, `Records`, `Rollups`, `Samples`, `Recovery`, `Conservation`, `Accumulators` | `internal/rollup`: splitting, the bucket grid, records, the merge property, what a record means, restarts, the accumulator object |
| `Baselines`, `Trackers`, `Telescoping`, `Readings`, `Resumption`, `UsagePollers` | `internal/collector/usage.go`, `cadvisor.go`: counter baselines, one tracker's account, whole poller runs, what a reading files where, resumed windows and crashes, the poller object |
| `Spans`, `Journals`, `StateJournals`, `CounterJournals`, `Restarts` | `internal/journal` and the collector's restart baselines |
| `Shipping`, `Shippers`, `ShipperRuns` | `internal/shipper`: the protocol as a state machine against its environment, the shipper object, and that the object's rounds are the protocol's |
| `NodeIndexes`, `Modules`, `Inventory`, `Measurements`, `Stores` | `internal/inventory/store.go`: the node-keyed index, agreement over runs, what records mean, the store object |
| `Globs`, `Markers`, `Pullers`, `Cadences` | the smaller algorithms |
| `Orders`, `Basics` | the order payload records are written in; sums over maps and sequences, the int64 range |

Time is integer nanoseconds since the zero instant, so `0` is Go's zero time.
Totals are mathematical integers; the places where the program saturates, clamps
or works in two 64-bit words (`Sub`, `MulDiv`, `Bound`, `Clamp`) are written out.

## What the proofs found

- `split` yields a negative part when the interval is longer than a `Duration`
  can hold. `Windows.SplitNonNegativeIff` gives the exact condition;
  `Windows.ZeroStartExample` is the input a container without a start time makes
  on one-hour windows, `Windows.SplitSaturatedExample` a small one.
- A reading whose PSI block is missing once reads as a PSI counter that fell to
  zero: the CPU rise of that reading is dropped, and the stall already emitted, of
  CPU and of memory alike, is emitted again. `Trackers.TelescopeFromStart` says
  exactly when no rise is dropped, `Trackers.TelescopeExact` exactly when nothing is
  emitted beyond where the counter stands, for each of the five counters the poller
  follows; `Telescoping.VanishingPSIExample` and
  `Telescoping.VanishingMemoryPSIExample` are inputs.
- A tracker swept after five minutes unseen and read again is attributed from
  container start a second time. `Trackers.OnceIff` and, over whole poller runs,
  `Telescoping.ReplicasCountedOnce` say that this happens exactly when a reading finds
  its tracker forgotten after a value above zero was read - a deleted pod is forgotten
  and nothing is counted twice; `Telescoping.SweptTrackerExample` is an input.
- A successor that first sees a replica after the resumed set was cleared, or without
  its key in the snapshot, files what its predecessor had filed again.
  `Resumption.CrashExactly` is the exact account over both processes with the
  condition per replica, `Resumption.GuardLiftedExample` an input.
- The guard of a resumed window is dated by the record's length in seconds, so it ends
  before the window does where the window length has a fraction of a second.
  `Resumption.GuardReachesEnd` gives the exact condition.
- An episode still open over a restart is counted once more where the successor first
  looks in another window than its predecessor last did, as
  `docs/adr/0088-a-window-says-how-long-a-state-held.md` also says.
  `StateJournals.EntriesAcrossRestart` gives the exact condition and the surplus of
  one, `StateJournals.RestartOverBoundaryExample` an input.
- `internal/journal/counters.go` documents that a record is true up to
  `AccruedTo`, but a pass that goes past a window counts time into it without
  moving its `AccruedTo`, and a window it passes over whole keeps the zero instant.
  The model follows the code. `CounterJournals.AccruedToExact` gives the exact
  condition over whole runs, `CounterJournals.MiddleWindowExample` an input.
- `MarkBuildWritten` arriving after the build was dropped hides that build when
  it comes back. `Inventory.HiddenIff` gives the exact condition,
  `Inventory.LateMarkExample` an input. The program's one caller
  (`cmd/agent/main.go:519-574`) retains and marks under one mutex in one pass, so it
  always meets the condition: this is a property of the store's interface only.
- A profile target with ten places without an address ahead of it, none held off, is
  never visited. `Pullers.VisitedIff` gives the exact condition,
  `Pullers.NeverPulledStarves` an input.

## Model

| member | source | states |
|---|---|---|
| `Rollups.MergeProperty` | internal/rollup/histogram.go:1-5 | however observations are divided between N accumulators and ordered, merging the N partial rollups gives exactly the rollup over the union: records created, totals, extrema, histograms |
| `Rollups.ObserveAllIsMerge` | internal/rollup/accumulator.go:52-114 | observing onto any open windows equals merging in the rollup those observations make alone |
| `Rollups.RollupOrder` | internal/rollup/accumulator.go:52-114 | the order observations arrive in does not change any record |
| `Records.CombineCommutes` | internal/rollup/record.go:143-181 | merging two records of one key and window is commutative |
| `Records.CombineAssociates` | internal/rollup/record.go:143-181 | and associative, for every record a run can hold |
| `Records.CombineEmpty` | internal/rollup/record.go:111-119 | a fresh record is the identity of the merge |
| `Records.EditIsCombine` | internal/rollup/record.go:57-96 | every field update equals a merge with the record that update alone would make |
| `Samples.RecordMeaning` | internal/rollup/accumulator.go:52-114 | in the rollup of any observations, and so in any merge of partial rollups, a window has a record exactly when some observation opens it, and the record holds exactly what the observations file under it: every counter, the three counts, extrema, byte sum and every bucket |
| `Samples.ObservationFiles` | internal/rollup/accumulator.go:65-114 | one observation files a rate of core time times 1000 over its interval, capped at the int64 maximum, in the one window holding its last instant, its count there too, its amounts in the parts of its interval, and a working set in the window holding its instant |
| `Samples.HalfCoreExample` | internal/rollup/accumulator.go:71-71 | five core-seconds in ten seconds are one sample of 500 |
| `Samples.ExtremesBracketBuckets` | internal/rollup/histogram.go:88-119 | lowest and highest occupied bucket are those of the smallest and largest sample |
| `Samples.BucketsTotal` | internal/rollup/histogram.go:122-128 | the bucket counts add up to the number of samples |
| `Recovery.RestartInvisible` | internal/rollup/accumulator.go:122-160 | crashing after a snapshot and seeding a fresh accumulator from its decoded payload leads, over any further events, to the same open and handed-over windows as never crashing |
| `Recovery.SeedingRebuilds` | internal/rollup/accumulator.go:122-135 | seeding every record of a snapshot rebuilds exactly the open windows, in any order of the listing |
| `Recovery.SeedAdopts` | internal/rollup/accumulator.go:122-135 | a record is adopted exactly when its length in seconds is the accumulator's and it starts on the grid, and then its own window alone changes, to the merge |
| `Recovery.DecodeEncode` | internal/rollup/record.go:125-138 | decoding the encoding of a record returns it |
| `Recovery.RunSound` | internal/rollup/accumulator.go:38-46 | every reachable record is aligned, filed under its own key, on its own grids, and without trace of samples it does not have |
| `Conservation.ObservationConserved` | internal/rollup/accumulator.go:52-105 | one observation adds exactly its amount to a key's counter over all windows, however the interval falls |
| `Conservation.ObservationsConserved` | internal/rollup/accumulator.go:52-105 | the same over any sequence of observations |
| `Journals.HandOver` | internal/rollup/accumulator.go:139-149 | handing windows over moves their counters and leaves the total over all windows as it was |
| `Journals.ClosedIff` | internal/rollup/accumulator.go:139-149 | a record is handed over, unchanged, exactly when no instant from now on falls in its window, and kept, unchanged, otherwise |
| `Windows.StartOfUnique` | internal/rollup/window.go:18-18 | the window start is the one multiple of the length whose window holds the instant |
| `Windows.Split` | internal/rollup/window.go:30-49 | the splitting loop terminates and yields the specified parts |
| `Windows.SplitExact` | internal/rollup/window.go:30-49 | consecutive aligned windows covering the interval, non-negative parts adding up to exactly the amount, each part but the last the floor of its share |
| `Windows.SplitDuration` | internal/rollup/window.go:30-49 | splitting the interval's duration gives each window exactly its overlap |
| `Windows.SplitNonNegativeIff` | internal/rollup/window.go:31-44 | all parts of all amounts are non-negative if and only if the last window starts within the int64 range of the interval's start |
| `Windows.SplitSaturatedExample` | internal/rollup/window.go:31-44 | an interval past that point charges a window -1 |
| `Windows.ZeroStartExample` | internal/rollup/window.go:31-44 | one core-hour from the zero instant over one-hour windows charges the last window minus 21341 seconds |
| `Windows.MulDivExact` | internal/rollup/window.go:54-67 | the two-word arithmetic is the mathematical quotient capped at the int64 maximum |
| `Histograms.BucketOf` | internal/rollup/histogram.go:88-101 | the octave-then-compare loop finds the bucket the next rows characterise |
| `Histograms.IndexExact` | internal/rollup/histogram.go:88-114 | the value lies within its bucket's bounds, and the boundaries at or below it are exactly those below its index |
| `Histograms.IndexMonotone` | internal/rollup/histogram.go:88-101 | a larger value never gets a smaller index |
| `Histograms.IndexUnderflow` | internal/rollup/histogram.go:88-92 | index zero is exactly the values below the anchor, negative ones included |
| `Histograms.BoundExact` | internal/rollup/histogram.go:72-82 | the two-word boundary is the exact fixed-point product |
| `Histograms.BoundMonotone` | internal/rollup/histogram.go:72-82 | boundaries never cross, saturated ones included |
| `Histograms.BucketWidth` | internal/rollup/histogram.go:26-35 | no bucket below the top is wider than 9.1 percent plus one unit |
| `Histograms.StepsNearest` | internal/rollup/histogram.go:26-35 | each of the eight steps is the nearest 32.32 fixed-point value of its power of the eighth root of two |
| `HistogramCodec.Merge` | internal/rollup/histogram.go:138-148 | merging adds bucket by bucket in any ranging order, refuses a foreign grid |
| `HistogramCodec.Marshal` | internal/rollup/histogram.go:159-178 | entries come in ascending, distinct bounds and parse back to the encoded object |
| `HistogramCodec.Unmarshal` | internal/rollup/histogram.go:184-207 | the decoding loop accepts and rejects as specified, in any ranging order |
| `HistogramCodec.RoundTrip` | internal/rollup/histogram.go:159-207 | decoding the encoding of any histogram whose buckets are reachable returns it |
| `HistogramCodec.ObservedValid` | internal/rollup/histogram.go:117-119 | observing keeps every bucket reachable and every count positive |
| `HistogramCodec.MergedValid` | internal/rollup/histogram.go:138-148 | and so does merging |
| `HistogramCodec.DecodeThenEncode` | internal/rollup/histogram.go:184-207 | whatever decodes encodes to the same object, zero counts included |
| `HistogramCodec.AcceptedKeys` | internal/rollup/histogram.go:184-207 | a key is accepted if and only if it is zero or a boundary of that grid within int64 |
| `HistogramCodec.LowerBoundsAscend` | internal/rollup/histogram.go:104-109 | reachable buckets have distinct lower bounds in index order |
| `Accumulators.Record.ObserveRate` | internal/rollup/record.go:57-66 | one CPU rate sample updates the record in place as specified |
| `Accumulators.Record.ObserveBytes` | internal/rollup/record.go:86-96 | one working-set sample updates the record in place as specified |
| `Accumulators.Record.Merge` | internal/rollup/record.go:143-181 | merges a record of the same key and window, refuses any other and leaves the record alone |
| `Accumulators.Record.Clone` | internal/rollup/record.go:183-188 | a copy with the same value |
| `Accumulators.Accumulator.RecordAt` | internal/rollup/accumulator.go:38-46 | the window's record, created on first touch, no record shared between windows |
| `Accumulators.Accumulator.AddProRata` | internal/rollup/accumulator.go:52-56 | adds each window its part and changes nothing else |
| `Accumulators.Accumulator.ObserveCPUDelta` | internal/rollup/accumulator.go:65-72 | what one CPU delta does to the open windows, the rows on `Samples` saying what that is |
| `Accumulators.Accumulator.ObserveThrottling` | internal/rollup/accumulator.go:80-86 | what one throttling delta does |
| `Accumulators.Accumulator.ObserveCPUPSI` | internal/rollup/accumulator.go:91-96 | what one CPU stall delta does |
| `Accumulators.Accumulator.ObserveMemoryPSI` | internal/rollup/accumulator.go:100-105 | what one memory stall delta does |
| `Accumulators.Accumulator.ObserveMemory` | internal/rollup/accumulator.go:109-114 | what one working-set sample does |
| `Accumulators.Accumulator.Seed` | internal/rollup/accumulator.go:122-135 | adopts a record of its own window grid, refuses any other without opening a window |
| `Accumulators.Accumulator.CloseBefore` | internal/rollup/accumulator.go:139-149 | removes and lists exactly the records whose window ended, each once, in payload order |
| `Accumulators.Accumulator.Snapshots` | internal/rollup/accumulator.go:153-160 | fresh copies of every open record, each once, in payload order |
| `Orders.SortedUnique` | internal/rollup/accumulator.go:162-179 | a map of records has one sorted listing, so equal contents are written alike whatever order they were ranged over in |
| `Rollups.OrderIs` | internal/rollup/accumulator.go:162-179 | payload order: window, then namespace, workload kind, workload name, container |
| `Baselines.PollingConserved` | internal/collector/usage.go:514-641 | over any run of readings, scrapes, sweeps and flushes a key's counter over all windows grows by exactly the deltas the baselines emitted |
| `Trackers.Telescope` | internal/collector/usage.go:522-573 | for each of a pair of counters read together: emitted plus unattributed, minus fallen and forgotten, is how far the counter moved, for any mix of fresh, re-served and reset readings and sweeps |
| `Trackers.TelescopeFromStart` | internal/collector/usage.go:531-549 | on a rising run of a tracker that is not forgotten, the emitted total is where the counter stands if and only if no reading is one the rules skip; it never exceeds it |
| `Trackers.TelescopeExact` | internal/collector/usage.go:531-605 | where every rise is attributed, the emitted total is where the counter stands plus every fall and every forgotten value; it is where the counter stands if and only if no fresh reading is below its baseline (an absent PSI block is zero) and no sweep forgets the tracker above zero |
| `Trackers.OnceIff` | internal/collector/usage.go:531-605 | on a rising run with every rise attributed, the emitted total is the last value read plus what was counted again, and the last value read if and only if no reading finds the tracker forgotten after a value above zero |
| `Trackers.ShowsIff` | internal/collector/usage.go:531-549 | the guards are exact: a reading leaves a rise unattributed, a counter falls, or a sweep forgets a value, exactly under the conditions named |
| `Trackers.CoveredTelescopes` | internal/collector/usage.go:531-549 | a tracker read without a break since the container's start has covered exactly the time from that start to its latest reading |
| `Telescoping.VanishingPSIExample` | internal/collector/usage.go:525-549 | one reading without PSI drops a CPU rise, and the stall already emitted is emitted again |
| `Telescoping.VanishingMemoryPSIExample` | internal/collector/usage.go:552-573 | so is the memory stall |
| `Telescoping.ReadingMoves` | internal/collector/usage.go:514-589 | what a reading or a scrape adds to its key, for core time, CPU stall, memory stall, throttled and total periods, is its tracker's move |
| `Telescoping.TrackerFollows` | internal/collector/usage.go:514-605 | a tracker stands where its own readings and the sweeps that forget it lead, whatever else the run does |
| `Telescoping.ReplicaMoves` | internal/collector/usage.go:514-589 | what a run adds to a key is what the trackers of its replicas emit |
| `Telescoping.ReplicasTelescope` | internal/collector/usage.go:514-605 | for replicas first seen in a run whose every rise is attributed, a key's total over every window grows by where their counters stand plus falls and forgotten values; by exactly where they stand if and only if none falls and no sweep forgets one above zero |
| `Telescoping.ReplicasCountedOnce` | internal/collector/usage.go:514-605 | it grows by what the counters were last read at, forgotten ones included, plus falls and what was counted again; by exactly that if and only if none falls and no reading finds its tracker forgotten after a value above zero |
| `Telescoping.CoveredTime` | internal/collector/usage.go:514-605 | a key's covered time over every window grows, replica by replica, by the reading's instant minus the fresh reading's before it (the container's start at a first sight) over the attributed readings; for replicas read without a break, by latest reading minus container start |
| `Readings.ReadingShares` | internal/collector/usage.go:531-573 | a reading's rise is spread over the time since the fresh reading before it, or since the container's start, and each window gets the share of that interval falling to it: core and covered time, both stalls, both throttling counters |
| `Readings.CPUSamples` | internal/collector/usage.go:531-549 | an attributed CPU reading is one rate sample over that interval, in the window holding its last instant, and one stall count there where PSI was read |
| `Readings.MemorySamples` | internal/collector/usage.go:552-573 | every fresh memory reading is one working-set sample where it was taken; a stall count only where its rise is attributed and PSI was read |
| `Readings.ScrapeCounts` | internal/collector/cadvisor.go:165-216 | an attributed scrape is counted once, where its interval ends |
| `Readings.RunRollsUp` | internal/collector/usage.go:514-589 | between flushes the open windows are the rollup of the emitted observations, so records mean what `Samples.RecordMeaning` says of those |
| `Readings.KeptFiveMinutes` | internal/collector/usage.go:599-611 | over any run a tracker is held exactly when its latest reading was followed by no sweep more than five minutes later, and remembers that reading's instant |
| `Readings.MinuteExample` | internal/collector/usage.go:531-549 | readings at 30 and 90 seconds over one-minute windows: half the core time and half the covered time in each, a rate sample of 1000 in the second |
| `Resumption.NoDoubleAttribution` | internal/collector/usage.go:202-225 | where replicas are first seen under a resumed key, a run adds at most what their counters rose after that sight, plus falls and forgotten values |
| `Resumption.CrashAttributesOnce` | internal/collector/usage.go:202-225 | across a crash: what two processes filed for a key over every window never exceeds what its replicas' counters were seen at, plus where those stood whose first sight is not resumed |
| `Resumption.CrashExactly` | internal/collector/usage.go:202-225 | the exact account: filed plus missed is seen plus filed twice; per replica nothing is filed twice if and only if it is not seen again, is first seen resumed, or stood at zero |
| `Trackers.FiledExactly` | internal/collector/usage.go:531-549 | the same account for one tracker of two processes |
| `Resumption.GuardLiftedExample` | internal/collector/usage.go:616-620 | a container first read again after the guard lifted is filed twice |
| `Resumption.PollingSound` | internal/collector/usage.go:514-641 | every window a poller run leaves open can be encoded, decoded and seeded |
| `Resumption.ResumedFirstSight` | internal/collector/usage.go:531-575 | the first sight of a counter under a resumed key adds no CPU, stall or throttling amount |
| `Resumption.ResumedUntilSwept` | internal/collector/usage.go:616-620 | a key leaves the resumed set exactly at a sweep at or after the last resumed window's end |
| `Resumption.ResumedWhileRunning` | internal/collector/usage.go:202-215 | no key is unmarked while any seeded window of it still runs |
| `Resumption.GuardReachesEnd` | internal/collector/usage.go:202-215 | the guard reaches the end of a seeded window if and only if windows are a whole number of seconds; it never passes it |
| `Telescoping.SweptTrackerExample` | internal/collector/usage.go:599-605 | a swept tracker attributes the same counter twice |
| `UsagePollers.UsagePoller.IngestContainer` | internal/collector/usage.go:514-575 | one container's readings change the tracker and the open windows as specified |
| `UsagePollers.UsagePoller.IngestScrape` | internal/collector/cadvisor.go:165-216 | one cAdvisor row, under the same rules on a pair of counters |
| `UsagePollers.UsagePoller.Sweep` | internal/collector/usage.go:599-621 | exactly the stale baselines go, and the resumed set once its windows ended |
| `UsagePollers.UsagePoller.Seed` | internal/collector/usage.go:202-215 | an adopted record marks its key resumed, a refused one changes nothing |
| `UsagePollers.UsagePoller.Flush` | internal/collector/usage.go:627-641 | hands over the ended windows and copies of the rest, each in payload order |
| `Spans.Cut` | internal/journal/states.go:211-222 | the cutting loop terminates and yields the specified spans |
| `Spans.SpansCover` | internal/journal/counters.go:129-140 | spans are consecutive, each inside one window, from the interval's start to its end |
| `Spans.SpansSum` | internal/journal/states.go:211-222 | spans account for the interval exactly |
| `StateJournals.RunGood` | internal/journal/states.go:106-222 | over any run of looks in order and closings every record keeps 0 <= occupied <= observed <= accrued <= window length |
| `StateJournals.RunGoodAfterRestart` | internal/journal/states.go:244-258 | and so through a second process resumed from what the first left open |
| `StateJournals.PassIsLooks` | internal/journal/states.go:106-126 | a pass is a run of looks |
| `StateJournals.StatesConserved` | internal/journal/states.go:106-178 | occupied time, observed time and entries over all windows grow by exactly what each look states |
| `StateJournals.ObservedTelescopes` | internal/journal/states.go:106-160 | a subject's observed time over all windows, open or handed over, grows by last look minus first |
| `StateJournals.OccupiedTelescopes` | internal/journal/states.go:106-160 | its occupied time grows by the sum over adjacent looks of nothing where the later is closed, the whole interval where both are open, and the time since the episode began, cut to the interval, where only the later is |
| `StateJournals.LookAt` | internal/journal/states.go:106-178 | one look window by window: observed and occupied time are the window's overlaps with the interval and with the part of it that was open, an entry is filed where the look falls, and the stamps say how far and what was open |
| `StateJournals.NamelessIgnored` | internal/journal/states.go:106-126 | a look with no state or no subject changes nothing |
| `StateJournals.EntriesCountEpisodes` | internal/journal/states.go:169-178 | its entries over all windows grow by the episode starts seen, counted from what the record of the first look's own window held open |
| `StateJournals.EntriesAcrossRestart` | internal/journal/states.go:169-178 | over two processes on one clock entries are the episode starts in all sights together, and exactly one more if and only if the successor first looks in another window than its predecessor last did and finds the same episode open |
| `StateJournals.RestartOverBoundaryExample` | internal/journal/states.go:169-178 | one episode looked at before and after a restart over a boundary makes two entries |
| `StateJournals.HeldIsResumed` | internal/journal/states.go:244-258 | an episode goes uncounted at first sight only where a resumed record holds exactly that episode open |
| `StateJournals.States.Observe` | internal/journal/states.go:106-126 | one pass changes open windows and last sights as specified |
| `StateJournals.States.Accrue` | internal/journal/states.go:135-160 | the interval since the previous pass folded into the windows it spans |
| `StateJournals.States.Resume` | internal/journal/states.go:244-258 | seeds what is not held, leaves what is, counts what it seeded |
| `StateJournals.States.CloseBefore` | internal/journal/states.go:263-276 | hands over exactly the ended windows, in payload order |
| `StateJournals.OrderIs` | internal/journal/states.go:287-299 | payload order: window, state, subject |
| `CounterJournals.CountersConserved` | internal/journal/counters.go:78-140 | deltas and observed time over all windows grow by exactly the changes between adjacent passes on one base |
| `CounterJournals.CountersTelescope` | internal/journal/counters.go:78-111 | on one base observed time over all windows grows by last pass minus first, and a counter that never falls by last reading minus first; a start or resume adds nothing twice |
| `CounterJournals.CountersMeaning` | internal/journal/counters.go:78-111 | over any run of a fresh or just resumed journal a counter's delta and observed time over all windows grow by exactly what its adjacent passes on one base say |
| `CounterJournals.AccruedToExact` | internal/journal/counters.go:78-111 | over any run, also resumed, the time an open record counts lies at or before its AccruedTo if and only if no pass that counted into its window went past it |
| `CounterJournals.PassAt` | internal/journal/counters.go:78-111 | one pass adds each window its overlap, files rises under the window holding the pass and stamps only that one |
| `CounterJournals.LeftWindowLags` | internal/journal/counters.go:98-111 | a record accrued up to the previous pass is accrued up to what it counts after this one if and only if the pass stays in its window |
| `CounterJournals.MiddleWindowExample` | internal/journal/counters.go:98-103 | a pass over two boundaries counts ten units in the window between and leaves its AccruedTo at the zero instant |
| `CounterJournals.Counters.Observe` | internal/journal/counters.go:78-91 | one pass changes records and baseline as specified |
| `CounterJournals.Counters.Accrue` | internal/journal/counters.go:98-111 | time split at boundaries, rises filed under the pass's own window |
| `CounterJournals.Counters.Resume` | internal/journal/counters.go:161-175 | seeds windows, not readings |
| `CounterJournals.Counters.CloseBefore` | internal/journal/counters.go:179-192 | hands over exactly the ended windows, in payload order |
| `CounterJournals.OrderIs` | internal/journal/counters.go:202-210 | payload order: window, counter |
| `Restarts.CounterAccounts` | internal/collector/restart_counters.go:51-69 | the shipped counter is the count at first sight plus every advance reported since that baseline |
| `Restarts.BaselineMeaning` | internal/collector/restarts.go:40-96 | a baseline exists exactly while its container was seen since its pod was deleted: the latest count seen, and the count and instant of the sight observation began with, a fallen count beginning anew |
| `Restarts.JournalAccounts` | internal/journal/restarts.go:109-146 | journaled restarts over all windows are exactly the advances the collector reported |
| `Restarts.RestartsMeaning` | internal/journal/restarts.go:109-146 | a container's journaled restarts over all windows are the rises between its adjacent statuses |
| `Restarts.JournalMeaning` | internal/journal/restarts.go:109-154 | a window has a record exactly when an event falls in it; restarts add up, each reason is counted under its own name or the catch-all, those unseen are unobserved, the exit code is the latest given with a reason |
| `Restarts.RunJournals` | internal/collector/restarts.go:40-81 | between closings the journal is that of the events the watcher reported |
| `Restarts.RunAccounted` | internal/journal/restarts.go:109-146 | every record keeps restarts equal to its reasons plus reasons unobserved |
| `Journals.ResumeKeeps` | internal/journal/restarts.go:177-194 | resuming keeps what is open and adds each missing slot once, from its records |
| `Journals.CloseTotal` | internal/journal/restarts.go:204-217 | closing moves records and loses none |
| `Restarts.PodWatcher.ReportRestarts` | internal/collector/restarts.go:40-81 | baselines and reported advances after one pod's statuses |
| `Restarts.PodWatcher.ForgetRestarts` | internal/collector/restarts.go:87-96 | a deleted pod's baselines go, no other |
| `Restarts.PodWatcher.RestartCounter` | internal/collector/restart_counters.go:39-69 | count, count before observation and the instant come from the one baseline, the count never below the one before observation; absent without restarts or baseline |
| `Restarts.RestartJournal.Observe` | internal/journal/restarts.go:109-146 | one restart event changes the journal as specified |
| `Restarts.RestartJournal.CloseBefore` | internal/journal/restarts.go:204-217 | hands over exactly the ended windows, in payload order |
| `Restarts.OrderIs` | internal/journal/restarts.go:229-243 | payload order: window, namespace, pod, container |
| `Shipping.ShipperSafe` | internal/shipper/shipper.go:193-374 | over every interleaving with writers, renames, sweeps and arbitrary statuses: only an identity answered 2xx is removed, a held identity is never offered again, nothing is offered after a refused identity, no round passes a deferral, and the failure count is the deferrals since the last acknowledgement |
| `Shipping.PayloadsKept` | internal/shipper/shipper.go:354-374 | the shipper's own steps leave every file as it is, except one whose own identity was posted and answered 2xx |
| `Shipping.NeverPostedAgain` | internal/shipper/shipper.go:325-334 | an identity answered 400 or 413 is in no later request |
| `Shipping.SilentForever` | internal/shipper/shipper.go:314-319 | after 401 or 403 the agent stays halted and no request is ever in flight again |
| `Shipping.TransientAnswer` | internal/shipper/shipper.go:336-344 | every status but 2xx, 400, 413, 401 and 403 adds one failure and ends the round, leaves spool, marks and standing as they were, and the payload is in the next round's queue |
| `Shipping.ReadOffers` | internal/shipper/shipper.go:270-298 | a payload is offered exactly when it can be read, is at most 4 MiB and names a kind; a larger one is held, anything else is left |
| `Shipping.EveryStateInv` | internal/shipper/shipper.go:232-374 | the protocol invariant: held files still in the spool stay marked, through listings that race with writers |
| `Shipping.QueueOldestFirst` | internal/shipper/shipper.go:260-266 | a round's queue is its candidates, each once, by modification time and then name |
| `Shipping.QuietRound` | internal/shipper/shipper.go:187-205 | a whole round answered 2xx with nobody else at work removes exactly what is deliverable and not held |
| `Shippers.Shipper.Pending` | internal/shipper/shipper.go:232-267 | the listing loop yields the protocol's queue and keeps exactly the marks still true |
| `Shippers.FoundMeaning` | internal/shipper/shipper.go:232-258 | a name is a candidate exactly when an entry shows it as a file that is there, is no write in progress and is not the file marked under it |
| `Shipping.TemporaryNames` | internal/shipper/shipper.go:245-247 | a write in progress is exactly a name ending in `.tmp` |
| `Shippers.Shipper.Deliver` | internal/shipper/shipper.go:270-346 | one delivery takes the protocol's steps for whatever it reads, is answered and finds afterwards; by status code: what is held, what halts, what defers, what may be removed and whether the round goes on |
| `Shippers.VisitedAnswers` | internal/shipper/shipper.go:303-345 | the protocol's steps satisfy that table of status codes |
| `Shippers.Shipper.Acknowledged` | internal/shipper/shipper.go:354-374 | removes only the file that was sent |
| `Shippers.Shipper.Round` | internal/shipper/shipper.go:193-205 | a round is the listing and then deliveries until one ends it; nothing when halted or unlistable |
| `ShipperRuns.RoundRefines` | internal/shipper/shipper.go:193-374 | a round of the object that reads off one evolving spool is a round of the protocol, whatever writers and the sweep do in between |
| `ShipperRuns.ObjectSafe` | internal/shipper/shipper.go:193-374 | so the safety laws hold of the object's own trace over any number of rounds |
| `Shippers.Shipper.NextDelay` | internal/shipper/shipper.go:498-515 | the interval without failures, otherwise the upper half of the capped backoff |
| `Shippers.BackoffGrows` | internal/shipper/shipper.go:498-515 | five seconds, doubled by every deferral, never shrinking, five minutes exactly from the seventh |
| `Inventory.IndexAgreement` | internal/inventory/store.go:359-566 | after any reports, retentions and departures each index holds exactly what recomputation from the live nodes' latest reports, restricted to retained keys, would hold, and no empty inner map |
| `Inventory.IndexIsRecomputed` | internal/inventory/store.go:359-566 | so the maintained index equals the one built afresh from the latest reports |
| `Inventory.SnapshotAgreement` | internal/inventory/store.go:833-948 | a snapshot has a record for a build exactly when some live node's latest report states something for it, and it is the sum of exactly those statements |
| `Inventory.SnapshotNeverEmpty` | internal/inventory/store.go:861-863 | every build the peak, counter and port indexes hold has something to show: the record a snapshot would skip never arises |
| `Inventory.BuildOrderIs` | internal/inventory/store.go:1176-1187 | payload order: namespace, workload kind, workload name, container, digest |
| `Inventory.OldestIsMinimum` | internal/inventory/store.go:627-632 | folding instants gives the earliest that is set |
| `Inventory.HiddenIff` | internal/inventory/store.go:738-749 | written builds stay held ones through a run if and only if every mark names a build held when it arrives |
| `Inventory.ReturningBuildPending` | internal/inventory/store.go:637-652 | then a build that left and comes back is pending again |
| `Inventory.LateMarkExample` | internal/inventory/store.go:810-814 | a mark after the drop hides the returning build |
| `Inventory.UnionAssociates` | internal/nodescan/listeners.go:77-97 | merging port lists is associative |
| `Inventory.UnionIdempotent` | internal/nodescan/listeners.go:77-97 | and merging a list with itself or nothing changes nothing |
| `Measurements.PeakRecordMeaning` | internal/inventory/store.go:415-455 | a build has a peak record exactly when some process of the live nodes' latest reports was measured; each field is the maximum, for the two limits the minimum of those read, over those processes, and is attained; the process count is their number |
| `Measurements.PortRecordMeaning` | internal/inventory/store.go:481-497 | a build has a port record exactly when some such process listens; a port is named exactly when one listens on it, exposed exactly when one binding is not loopback |
| `Measurements.CounterRecordMeaning` | internal/inventory/store.go:505-533 | a build has a counter record exactly when some such process carries a delta; each of the ten delta fields is its sum over those processes, and the process count is their number |
| `Measurements.RecordAdds` | internal/inventory/store.go:877-900 | an additive field of any index's record is its total over the processes |
| `Measurements.AdditiveFields` | internal/inventory/store.go:877-900 | the process counts and every counter field are such fields |
| `Measurements.AssertedAgreement` | internal/inventory/store.go:833-846 | a record is dated by the oldest last report among the nodes contributing to it |
| `Stores.Store.Ingest` | internal/inventory/store.go:359-405 | one report changes indexes, records, builds, scan and profiling state and counts as specified; received is joined plus unjoined |
| `Stores.JoinedMeaning` | internal/inventory/store.go:376-381 | exactly the binaries the resolver attributes are joined, each under the build it gives |
| `Stores.RecordsMeaning` | internal/inventory/store.go:382-395 | a container's record is what the report's last binary for it says, dated by the report; an unmentioned one keeps its record |
| `Stores.BuildsMeaning` | internal/inventory/store.go:575-595 | a build is filed once, from the first binary naming its digest, and none without a digest |
| `Stores.Store.Retain` | internal/inventory/store.go:698-751 | keeps exactly the live keys, drops unreferenced builds together with their marks, and counts what it evicted |
| `Stores.RetentionMeaning` | internal/inventory/store.go:698-751 | a build stays held exactly when a surviving record names it; a mark goes exactly with its build |
| `Stores.Store.RetainNodes` | internal/inventory/store.go:757-803 | drops exactly the departed nodes, what they said of themselves and what they contributed |
| `Stores.Store.PendingBuilds` | internal/inventory/store.go:637-652 | the builds held and not yet written, by digest |
| `Modules.ModulesMeaning` | internal/inventory/store.go:583-585 | a build fact lists exactly its dependencies, by path and version, no two equal side by side; strictly ascending where path and version name one module |
| `Stores.Store.MarkBuildWritten` | internal/inventory/store.go:810-814 | marks the digest |
| `Stores.Store.PeakSnapshot` | internal/inventory/store.go:833-873 | one record per measured build, every node's contribution merged, dated by the stalest, in payload order |
| `Stores.Store.CounterSnapshot` | internal/inventory/store.go:877-913 | the same for counter deltas |
| `Stores.Store.PortSnapshot` | internal/inventory/store.go:917-948 | the same for ports |
| `Stores.MergeListeningPorts` | internal/nodescan/listeners.go:77-97 | the union of the lists, strictly ascending by port, loopback only where every binding is |
| `Globs.MatchGlob` | internal/collector/filter.go:283-301 | the greedy matcher is true exactly when the string can be cut so that each star takes some run |
| `Globs.GreedyStep` | internal/collector/filter.go:289-299 | the exchange argument: taking the leftmost occurrence loses no match |
| `Globs.PiecesMeaning` | internal/collector/filter.go:283-301 | cutting at stars means the same as the pattern |
| `Globs.MatchAny` | internal/collector/filter.go:271-278 | true exactly when some pattern matches |
| `Globs.NamespaceAllowed` | internal/collector/filter.go:193-198 | denied by any deny match, else allowed by an empty allow list or an allow match |
| `Markers.ScanForMarker` | internal/nodescan/pprofmark.go:60-81 | for every chunking, true exactly when the marker occurs in the concatenation; what is carried between chunks is shorter than the marker |
| `Markers.TailSuffices` | internal/nodescan/pprofmark.go:64-78 | an occurrence not seen yet is visible from the carried tail and the new chunk |
| `Pullers.BoundedWaiting` | internal/pprofpull/pull.go:163-223 | with u < 10 places without an address ahead of it, a listed target due in ceil((n-u)/(10-u)) cycles has been visited, however candidates share targets or are held off; for u = 0 this is ceil(n/10) |
| `Pullers.VisitedIff` | internal/pprofpull/pull.go:163-223 | where none of those places is held off, a target due in as many cycles as there are candidates is visited if and only if fewer than ten stand ahead of it |
| `Pullers.Starves` | internal/pprofpull/pull.go:219-223 | once ten due places without an address stand ahead of a target, it is visited in no later cycle |
| `Pullers.BlockedCycle` | internal/pprofpull/pull.go:163-189 | they keep it from being visited in a cycle |
| `Pullers.NeverPulledStarves` | internal/pprofpull/pull.go:219-223 | ten such targets listed first with nothing pulled yet are an input |
| `Pullers.WaitingCost` | internal/pprofpull/pull.go:163-189 | every due cycle without a visit moves behind at least ten places that were ahead, less those ahead without an address |
| `Pullers.DueUpToSorted` | internal/pprofpull/pull.go:174-189 | the due list is every place not held off, once, least recently pulled first, ties in list order |
| `Pullers.Puller.Due` | internal/pprofpull/pull.go:174-189 | the filter-and-sort computes it |
| `Pullers.Puller.VisitTarget` | internal/pprofpull/pull.go:219-271 | each outcome's stamp, hold-off and count |
| `Pullers.HeldOffUntil` | internal/pprofpull/pull.go:174-271 | a target refused at t is in no due list before t plus six hours, an unreachable or invalid one before t plus half an hour, and in every one from then on, through any further cycles, whatever their candidates, that come before that instant or do not reach it; a capture holds nothing off |
| `Pullers.CoverageMeaning` | internal/pprofpull/pull.go:219-271 | the coverage counts are the numbers of visits that came to each outcome, a capture counting only when spooled |
| `Pullers.Puller.RunCycle` | internal/pprofpull/pull.go:163-171 | at most ten visits, in due order, each counted |
| `Pullers.TenAtMost` | internal/pprofpull/pull.go:163-171 | a cycle that is not cut short makes ten visits, or as many as are due |
| `Cadences.DueExactly` | internal/sink/cadence.go:65-84 | at every pass of every run: due exactly when nothing landed before, the ceiling passed, or the floor passed and the content differs from the latest landed write's |
| `Cadences.LandedApart` | internal/sink/cadence.go:65-99 | landed writes are at least the floor apart, or the ceiling where that is smaller |
| `Cadences.Fingerprint` | internal/sink/cadence.go:125-142 | the hashing loop feeds exactly the lines that are not top-level capture instants |
| `Cadences.FingerprintDecides` | internal/sink/cadence.go:125-142 | equal fingerprints if and only if equal content |
| `Cadences.OnlyCapturedAt` | internal/sink/cadence.go:117-142 | payloads differing in one line have equal content if and only if both those lines are top-level capture instants |
| `Cadences.Gate.Due` | internal/sink/cadence.go:65-84 | one decision |
| `Cadences.Gate.Wrote` | internal/sink/cadence.go:89-99 | only change-triggered kinds are remembered |
| `Cadences.Gate.Prune` | internal/sink/cadence.go:104-112 | forgets exactly what was last written before the cutoff |
| `Cadences.Gate.Write` | internal/sink/spool.go:1294-1320 | only a publish that landed is remembered |

## Left out

- Integer overflow of totals: sums are unbounded, so int64 wrap-around of a counter or a byte sum is not modelled; saturating helpers are.
- `Accumulators.Record.Clone`: a histogram is a value of its record, so aliasing of the `counts` map between a record and its copy is not modelled; records themselves are objects.
- JSON text: payloads are maps and records, not characters; unknown or malformed JSON is not modelled.
- `internal/rollup/network.go` and the disruption, job, node and goroutine journals: the same patterns with fewer branches.
- Five counters telescope; the network counters, followed by the same rules, are not modelled.
- Subject, counter and restart keys are tuples rather than joined strings.
- `Modules.ModulesOf`: modules equal in path and version that differ in being replaced keep the order they were recorded in; the program's sort leaves it open.
- `Stores.Store.Ingest`: the one loop over binaries is one loop per index; a node's profiling counts are a map by name.
- Port contributions are kept as maps from port to loopback, the meaning `MergeListeningPorts` is proved to preserve.
- Kubernetes informers, the container resolver, HTTP, gzip, TLS, /proc and cgroup reading: their outcomes are parameters.
- Coverage counts of the shipper, its logging and its final-round budget; a final round is a round.
- A listing entry that cannot be stat'ed for another reason than having gone, and a stat and remove interleaved with a writer: the pair is one step, and file identities are never reused.
- SHA-256 is taken as injective: a fingerprint is the bytes hashed.
- Mutexes and goroutines: each locked method is one step.
- A second process sharing a spool, and `internal/sink/recover.go`: a restart is given the decoded records.
- `Cadences.LandedApart`: runs of one key without pruning, as forgetting a key makes its next pass due.
