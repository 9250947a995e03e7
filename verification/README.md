# Hayvenhurst: a verified model of its daemon and trace client

Hayvenhurst keeps a code graph of every repository on a machine, serves it from one
long-running daemon, and feeds it with observations from trace clients. This project models
the parts of it in which something has to hold over many steps or for every input, and proves
it with Dafny.

- **Automatic ingest** (`IngestGuard`, `WorkLimiter`, `IngestProtocol`, `IngestSystem`). The
  per-project guard (sliding window, minimum interval, latched breaker, coalescing slot), the
  daemon-wide limiter and the per-project chain, cut at their awaits. The system machine lets
  any number of projects interleave any steps, at any time the clock answers.
- **pprof reader** (`ProtoWire`, `Pprof`). The protobuf wire reader with its 64-bit wrap-around,
  an encoder, and all serializations of a profile.
- **G-Set CRDT** (`Hlc`, `Gset`). Keys, order, merge, replicas built by any sequence of applies,
  merges and clones, and the materialized view.
- **Printers and parsers** (`JsonScanner`, `ShellQuote`, `Spine`). The brace scanner against the
  object and string grammar of RFC 8259; shell quoting against sections 2.2.1, 2.2.2 and 2.3 of
  the POSIX Shell Command Language; the bounded event line with its UTF-16 escapes and UTF-8 size.
- **Trace client** (`TraceCounts`, `TraceAggregators`, `TraceStacks`, `TraceFlusher`). Counting
  under any interleaving of adds and drains, edges and coverage from stacks, the wire clamp.
- **Graph walks** (`Neighbors`, `VerifyDist`). The breadth-first walk against undirected
  distance, and the reference walk against least closed sets.
- **Conflict layer and config** (`Adjacency`, `ClaimVerdict`, `Config`). The gates, the
  contract-diff verdict, and the algebra of layered JSON configs.
- **Branch re-point and live map** (`Repoint`, `LiveMap`). The handle swap with its poller and
  backoff, and the serialized map of served projects with its startup loader.

Each loop and each object of the source that is modelled here is a method or a class that is
proved equal to a function on values; the lemmas are about those functions. Names of source
entities are kept where Dafny allows; a method that shares its name with the function that
specifies it is prefixed with `Do`. `After`, `Run` and `Reachable` quantify over every run.

Where the code and its own comments disagree the model follows the code:

- A bare module id of two segments does have a containing module (`Adjacency.BareModuleHasPrefix`).
- The contract-diff oracle is documented to ask whether the other entity depends on the changed
  one; the production edge index forgets the direction (`ClaimVerdict.ProductionForgetsDirection`).
- A failed freshen is documented as non-fatal with the swap still happening; the code swaps only
  onto an index that was freshened or is intact and not empty (`Repoint.SwapIsSafe`).

Properties that turned out not to hold, each with its exact condition:

- The clamp of the trace client is exact if and only if the 64-bit product does not wrap into
  range (`TraceFlusher.ClampIsExactIff`, `TraceFlusher.HugeRateBreaksClamp`).
- `deepMerge` groups freely if and only if no plain value cuts off an object that a later layer
  replaces in part (`Config.MergeAssociatesIff`, `Config.MergeIsNotAssociative`).
- `hayven config` writes the accepted value, of any kind, if and only if, outside the models, an
  object has every key of the default object at its path and, inside them, the value is a provider
  or a model name, a tier of just these two, or all four tiers of that form
  (`Config.SetIsWrittenIff`). A temperature for a tier is accepted and then absent
  (`Config.TemperatureIsDropped`); an object for `conflict` without an oracle gets the default one
  back (`Config.OracleComesBack`).
- A path that parts from the one being set keeps what it had, unless the way to the parting meets
  an array: that array makes way for an object, and the path then has no value, whether or not it
  had one (`Config.SetElsewhere`, `Config.ArrayMakesWay`).
- After a re-point attempt the poller's key agrees with the served key if and only if the branch
  that was read is the served one or none, or resolved to a file that is the served one, or is too
  new for this daemon, or opened, migrated and answered the integrity check
  (`Repoint.AttemptAgreesIff`). The failing branch is not tried again
  (`Repoint.RejectionIsNotRetried`, `Repoint.ThrowingResolverStrandsBranch`).
- The walk of `hayven neighbors` returns exactly the nodes within its depth, the flag clamped to
  1..5, whatever the table, if and only if that depth is a whole number (`Neighbors.RoundsMatchDepth`, `Neighbors.FractionOvershoots`,
  `Neighbors.FractionalDepthOvershoots`).
- A view row belongs to one edge and bucket if and only if neither id holds a NUL
  (`Gset.ViewKeyIsOwnIff`, `Gset.ViewKeyCollision`).
- What is served under the primary's alias is the primary if and only if the primary can be started;
  else it is the entry that brings the alias, has a directory, starts and finds room, if there is one
  (`LiveMap.LoadedIsSound`, `LiveMap.OtherRootStandsIn`).
- Replicas that received the same operations agree if and only if no two of these share a key
  (`Gset.ConvergesIff`).

## Model

| member | source | states |
|---|---|---|
| IngestGuard.RunawayBound | daemon/src/cli/daemon.ts:399-560 | after any reset, until the next, at whatever times the clock answers and whatever outcomes, manual runs and requests are mixed in, every window holds at most `maxRuns` admissions, admissions are an interval apart, and any horizon is bounded by both quotients |
| IngestGuard.NoAdmissionAfterTrip | daemon/src/cli/daemon.ts:440-441 | once tripped, no further event admits a run or clears the trip |
| IngestGuard.RecentRefinesHistory | daemon/src/cli/daemon.ts:440-460 | however the clock is set, the decision and the rate trip of a call that is not too soon are those the whole history calls for |
| IngestGuard.ForwardClockIsExact | daemon/src/cli/daemon.ts:440-460 | with a clock that only moves forward the pruned queue counts exactly the admissions of the last window, too soon or not |
| IngestGuard.TripsOnFailureRun | daemon/src/cli/daemon.ts:412-434 | in every mix of events after a reset the failure breaker trips exactly when some prefix of the automatic outcomes ends in `threshold` failures in a row before the rate breaker has tripped |
| IngestGuard.ResetStartsOver | daemon/src/cli/daemon.ts:537-552 | whatever tripped it, a guard that was reset admits, counts and trips in every later mix of events as a new one does; slot, numbering and manual record stay |
| IngestGuard.FirstIsAdmitted | daemon/src/cli/daemon.ts:440-460 | the first run that asks after a reset is admitted if and only if the allowance is not zero and failures have not tripped the guard meanwhile |
| IngestGuard.AdmitKeepsInv | daemon/src/cli/daemon.ts:440-460 | a call at any time keeps the history sorted, spaced and windowed, and appends exactly the admitted time |
| IngestGuard.CountInWindow | daemon/src/cli/daemon.ts:443-446 | a closed window of any start holds at most `maxRuns` admissions |
| IngestGuard.CountByInterval | daemon/src/cli/daemon.ts:456 | a horizon holds at most one admission more than intervals fit into it |
| IngestGuard.CountByWindows | daemon/src/cli/daemon.ts:443-446 | a horizon holds at most `maxRuns` per started window |
| IngestGuard.Guard.constructor | daemon/src/cli/daemon.ts:373-397 | a new guard is the initial state |
| IngestGuard.Guard.DoTrip | daemon/src/cli/daemon.ts:399-410 | the first trip latches its reason |
| IngestGuard.Guard.DoNote | daemon/src/cli/daemon.ts:412-434 | successes zero the counter, failures count and trip at the threshold |
| IngestGuard.Guard.DropStale | daemon/src/cli/daemon.ts:443-445 | the loop drops exactly the leading starts that are out of the window |
| IngestGuard.Guard.AdmitWholeRepoRun | daemon/src/cli/daemon.ts:440-460 | the object's answer and new state are those of `Admit` |
| IngestGuard.Guard.DoClearSlot | daemon/src/cli/daemon.ts:462-464 | a slot is cleared only by its own id |
| IngestGuard.Guard.DoRequest | daemon/src/cli/daemon.ts:518-535 | a request joins the queued run or takes the next id |
| IngestGuard.Guard.DoNoteManual | daemon/src/cli/daemon.ts:510-515 | a manual outcome changes nothing but its own record |
| IngestGuard.Guard.DoReset | daemon/src/cli/daemon.ts:537-560 | a reset forgets failures, trip and recent starts, and leaves the slot alone |
| WorkLimiter.Limiter.constructor | daemon/src/cli/daemon.ts:248-253 | at least one slot, nobody active or waiting |
| WorkLimiter.Limiter.TryEnter | daemon/src/cli/daemon.ts:261-264 | the loop test: take a free slot or park at the tail |
| WorkLimiter.Limiter.Exit | daemon/src/cli/daemon.ts:267-270 | give the slot back and wake the longest waiter |
| WorkLimiter.WokenInOrder | daemon/src/cli/daemon.ts:257-271 | over every run whoever parks is woken once, in the order of parking |
| IngestProtocol.SubmitKeepsInv | daemon/src/cli/daemon.ts:1748-1763 | putting a body on the chain keeps the project invariant |
| IngestProtocol.EnterChainKeepsInv | daemon/src/cli/daemon.ts:482-488 | a full run that enters the chain keeps it |
| IngestProtocol.GiveUpKeepsInv | daemon/src/cli/daemon.ts:467-485 | a full run that gives up on a tripped breaker keeps it |
| IngestProtocol.RequestKeepsInv | daemon/src/cli/daemon.ts:518-536 | a request keeps it, whether it coalesces or launches a run |
| IngestProtocol.BeginKeepsInv | daemon/src/cli/daemon.ts:488-497 | a body that begins clears its own slot first and keeps it |
| IngestProtocol.SetPhaseKeepsInv | daemon/src/cli/daemon.ts:1749-1756 | moving through the body and settling it keeps it |
| IngestProtocol.EndRunKeepsInv | daemon/src/cli/daemon.ts:499-505 | the final clearing of a run never takes another run's slot; what the run counts as is `IngestSystem.FailuresAreCounted` |
| IngestSystem.StartInv | daemon/src/cli/daemon.ts:1746-1747 | a fresh daemon satisfies the invariant |
| IngestSystem.StepKeepsInv | daemon/src/cli/daemon.ts:248-273 | every step of every interleaving keeps the invariant of limiter, chains, slots and histories |
| IngestSystem.LimiterIsSafe | daemon/src/cli/daemon.ts:257-271 | holders never exceed the limit, and while anybody is parked every slot is held or promised to a woken body: no lost wake-up |
| IngestSystem.ChainIsExclusive | daemon/src/cli/daemon.ts:1746-1763 | bodies of one chain run one at a time in submission order, rejections included, and `inFlight` tells whether one runs |
| IngestSystem.OneRunQueued | daemon/src/cli/daemon.ts:462-464 | the slot names exactly the one run that is requested and not begun |
| IngestSystem.RunBeginsAfterItsRequests | daemon/src/cli/daemon.ts:518-536 | every request is answered by a run that begins, if at all, after the request |
| IngestSystem.EndLeavesSlot | daemon/src/cli/daemon.ts:502-504 | an ending run leaves the slot as it is |
| IngestSystem.RequestMeans | daemon/src/cli/daemon.ts:466-536 | a request joins the queued run; else the new run ends at once on a trip, sleeps if the last start is too recent, and else enters the chain |
| IngestSystem.WakeMeans | daemon/src/cli/daemon.ts:482-488 | a run that slept ends if the breaker tripped meanwhile, and else enters the chain |
| IngestSystem.BeginMeans | daemon/src/cli/daemon.ts:488-497 | the body of a full run frees the slot and works if and only if there is no trip, an interval has passed and the window has room, and counts exactly then |
| IngestSystem.RepointMeans | daemon/src/cli/daemon.ts:2168-2188 | a re-point enters the chain, and counts, if and only if it is due in the same sense |
| IngestSystem.EnterMeans | daemon/src/cli/daemon.ts:261-264 | a body that comes or was woken holds a slot if and only if one is free, and else parks at the tail |
| IngestSystem.ReleaseMeans | daemon/src/cli/daemon.ts:266-270 | a body that leaves wakes the one parked longest and nobody else |
| IngestSystem.FailuresAreCounted | daemon/src/cli/daemon.ts:412-504 | over every run the counter is the number of failures that the noted outcomes and the ended full runs since the last reset end in, a rejected body failing, an admitted one that settled succeeding, a refused one leaving no mark; the failure trip happens exactly when they reach the threshold before a rate trip |
| IngestSystem.SettledAsFinished | daemon/src/cli/daemon.ts:1749-1763 | over every run a settled body stays settled with the outcome that it finished with |
| IngestSystem.AdmissionsAreBounded | daemon/src/cli/daemon.ts:494-497 | the admissions of each project since its last reset are spaced, windowed and bounded by both quotients in every interleaving, with any clock |
| IngestSystem.NeverStuck | daemon/src/cli/daemon.ts:497 | while work is outstanding some step that serves it is possible: chain and limiter cannot deadlock |
| IngestSystem.InternalStepWorks | daemon/src/cli/daemon.ts:466-505 | each such step lowers a measure of the outstanding work |
| IngestSystem.DrainsInBoundedSteps | daemon/src/cli/daemon.ts:466-505 | left alone, the daemon finishes in a bounded number of steps under every schedule |
| ProtoWire.VarintRoundTrip | trace/go/pprof.go:323-330 | decoding undoes base-128 encoding of every 64-bit number |
| ProtoWire.VarintMeans | trace/go/pprof.go:323-330 | a number is read if and only if it ends within ten bytes and 64 bits, and then it is the sum of its places, padding included |
| ProtoWire.CheckLengthMeans | trace/go/pprof.go:340-351 | the wrapping length check accepts, errs or panics exactly as stated in plain arithmetic |
| ProtoWire.FieldRoundTrip | trace/go/pprof.go:332-376 | one encoded field is read back exactly, with the rest untouched |
| ProtoWire.TruncatedFieldFails | trace/go/pprof.go:323-376 | a field cut off at any byte is an error |
| ProtoWire.UnknownWireFails | trace/go/pprof.go:373-375 | exactly the wire types 3, 4, 6 and 7 are unknown |
| ProtoWire.MessageRoundTrip | trace/go/pprof.go:321-376 | a parser loop over encoded fields sees exactly those fields |
| ProtoWire.ProtoReader.DoVarint | trace/go/pprof.go:323-330 | the cursor advances by exactly the number read |
| ProtoWire.ProtoReader.DoTag | trace/go/pprof.go:332-338 | field number and wire type |
| ProtoWire.ProtoReader.DoBytes | trace/go/pprof.go:340-351 | the length-prefixed bytes, within the buffer |
| ProtoWire.ProtoReader.DoSkip | trace/go/pprof.go:353-376 | a skipped field ends where a read one would |
| Pprof.PackedRoundTrip | trace/go/pprof.go:184-191 | packed ids are read back in order |
| Pprof.SampleMeans | trace/go/pprof.go:170-208 | any mix of packed, repeated and foreign fields yields the ids in order |
| Pprof.LocationMeans | trace/go/pprof.go:210-242 | id and non-zero function ids of the lines, in order |
| Pprof.FuncMeans | trace/go/pprof.go:266-293 | the last id and name index count |
| Pprof.ProfileRoundTrip | trace/go/pprof.go:80-168 | every serialization of a profile parses to exactly its leaf-first name lists |
| Pprof.NamesMean | trace/go/pprof.go:152-162 | the names of a sample are those of its frames that have one, each frame once, in the order of locations and lines |
| Pprof.StacksMean | trace/go/pprof.go:152-167 | one stack for each sample with at least two names, in order |
| Pprof.SerializationDoesNotMatter | trace/go/pprof.go:94-141 | two serializations of one profile parse alike |
| Pprof.ParseSample | trace/go/pprof.go:170-208 | the loop over a sample equals the fold of its fields |
| Pprof.ParseLine | trace/go/pprof.go:244-264 | the loop over a line equals the fold |
| Pprof.ParseLocation | trace/go/pprof.go:210-242 | the loop over a location equals the fold |
| Pprof.ParseFunction | trace/go/pprof.go:266-293 | the loop over a function equals the fold |
| Pprof.ParseTables | trace/go/pprof.go:94-141 | the top-level loop equals the fold |
| Pprof.ResolveStack | trace/go/pprof.go:152-162 | ids are resolved to the non-empty names, in order |
| Pprof.ParseProfileStacks | trace/go/pprof.go:80-168 | the whole reader equals `ParseStacks`, errors included |
| Hlc.OpKeyInjective | daemon/src/crdt/gset.ts:39-46 | two valid stamps have one key only if they are equal |
| Hlc.LessIsStrictTotal | daemon/src/crdt/hlc.ts:66-96 | the composite order is a strict total order |
| Hlc.LessIsByteOrder | daemon/src/crdt/hlc.ts:66-100 | the composite order is the big-endian order of the 28 encoded bytes |
| Gset.Convergence | daemon/src/crdt/gset.ts:57-88 | replicas that received the same operations, in any order, duplication and merge topology, hold equal sets |
| Gset.ReplicaHoldsReceived | daemon/src/crdt/gset.ts:57-88 | a replica holds exactly the operations it received, each under its key |
| Gset.ConvergesIff | daemon/src/crdt/gset.ts:57-88 | that all replicas with the same received operations agree is equivalent to one operation per key |
| Gset.ViewsConverge | daemon/src/crdt/gset.ts:104-125 | and show the same view, row by row |
| Gset.MergeIsJoin | daemon/src/crdt/gset.ts:63-73 | merge is the least state that includes both |
| Gset.MergeGrowth | daemon/src/crdt/gset.ts:63-73 | the set grows by exactly the keys that were new |
| Gset.IncreasingIsUnique | daemon/src/crdt/gset.ts:76-80 | there is one ordered list of given operations |
| Gset.SortSorts | daemon/src/crdt/gset.ts:77-78 | sorting distinct stamps gives an increasing list of the same operations |
| Gset.DecimalInjective | daemon/src/crdt/gset.ts:107 | printed time buckets are distinct and free of NUL |
| Gset.ViewKeyInjective | daemon/src/crdt/gset.ts:107 | sources without NUL are enough to keep rows apart |
| Gset.ViewKeyIsOwnIff | daemon/src/crdt/gset.ts:107 | a coordinate shares its key with no other one if and only if neither of its ids holds a NUL |
| Gset.ViewKeyCollision | daemon/src/crdt/gset.ts:107 | two edges that share a row |
| Gset.ViewConserves | daemon/src/crdt/gset.ts:104-125 | the view's totals of observed, weight and observers are those of the operations |
| Gset.ViewGroups | daemon/src/crdt/gset.ts:106-124 | each coordinate has exactly one row, carrying exactly its operations' sums |
| Gset.GsetState.constructor | daemon/src/crdt/gset.ts:49-50 | a new state is empty |
| Gset.GsetState.DoApply | daemon/src/crdt/gset.ts:58-61 | an operation enters once |
| Gset.GsetState.DoMerge | daemon/src/crdt/gset.ts:64-73 | the merged set, and the count is exactly its growth, also when merging with itself |
| Gset.GsetState.SortedOps | daemon/src/crdt/gset.ts:76-80 | exactly the held operations in composite order, whatever the insertion order |
| Gset.GsetState.DoClone | daemon/src/crdt/gset.ts:83-87 | a fresh object with the same operations |
| Gset.MaterializeGset | daemon/src/crdt/gset.ts:104-125 | the loop computes the view |
| Gset.BucketizeIsMinute | daemon/src/crdt/gset.ts:31-33 | a bucket is the one whole minute that contains the timestamp |
| JsonScanner.ExtractJsonObject | daemon/src/conflict/extractor_oracle.ts:198-222 | a returned slice is the shortest text from the first brace that balances outside strings; none is returned only if there is none |
| JsonScanner.FirstObjectIsUnique | daemon/src/conflict/extractor_oracle.ts:198-222 | that leaves no choice |
| JsonScanner.PrintIsNeutral | daemon/src/conflict/extractor_oracle.ts:207-216 | any printed JSON value leaves the scanner outside strings at the depth it had, never below it |
| JsonScanner.BracedIsFirstObject | daemon/src/conflict/extractor_oracle.ts:201-220 | braces around neutral text are found exactly, after any brace-free prefix and before any suffix |
| JsonScanner.ExtractsPrintedObject | daemon/src/conflict/extractor_oracle.ts:198-222 | every printed JSON object comes back exactly, braces and escaped quotes in its strings included |
| ShellQuote.SplitUndoesQuoting | daemon/src/cli/affected_tests.ts:79-81 | splitting the quoted and joined arguments as a POSIX shell does gives back exactly the arguments |
| ShellQuote.QuoteReadsAs | daemon/src/cli/affected_tests.ts:79-81 | a quoted argument is read as one word, itself, the empty one included |
| ShellQuote.RunnerInvocationArgs | daemon/src/cli/affected_tests.ts:109-128 | subcommand and deduplicated files, or nothing; skipped plus contributing is the number of tests |
| ShellQuote.FilesAreFirsts | daemon/src/cli/affected_tests.ts:115-126 | the files are those of the contributing tests, each once, in order of first appearance |
| ShellQuote.RunnerCommand | daemon/src/cli/affected_tests.ts:265-268 | the pasted command runs the runner with exactly the chosen files, or there is none |
| Spine.ParseUndoesPrint | daemon/src/spine.ts:43-50 | what is serialized is read back exactly, every UTF-16 code unit included |
| Spine.PrintIsFine | daemon/src/spine.ts:43-50 | serialized text holds no control character and no lone surrogate, within a length bound |
| Spine.ByteLenIsUtf8 | daemon/src/spine.ts:53-55 | the counted length is the length in UTF-8, lone surrogates as U+FFFD |
| Spine.FitsMeans | daemon/src/spine.ts:53-55 | a line fits if and only if it and its newline are fewer than 4096 bytes of UTF-8 |
| Spine.MarkerFits | daemon/src/spine.ts:82-83 | the marker of an id and timestamp as produced always fits |
| Spine.LineIsRichestThatFits | daemon/src/spine.ts:65-84 | the line fits, holds no newline, and reads back as the first of the three payloads that fits |
| Spine.EventDetermines | daemon/src/spine.ts:71-83 | the payload determines id, timestamp, shape, the files unless fully truncated, and the symbols if untruncated |
| Spine.LogSplits | daemon/src/spine.ts:95-110 | whole-line appends in any interleaving split at newlines into exactly the appended lines |
| Spine.LogAnnounces | daemon/src/spine.ts:65-110 | the log of any announced changes splits into one line each, in order, and each reads back as its change in the richest shape that fits |
| TraceCounts.Conservation | trace/go/aggregator.go:53-114 | for every interleaving and key, accepted counts are held or were drained: modulo 2^64, and exactly below 2^63 |
| TraceCounts.BumpAllCounts | trace/go/aggregator.go:68-80 | a batch adds each kept key as often as it occurs |
| TraceAggregators.Aggregator.DoAdd | trace/go/aggregator.go:53-64 | one counted edge, blanks and non-positive counts dropped |
| TraceAggregators.Aggregator.DoAddMany | trace/go/aggregator.go:68-80 | a batch under one lock |
| TraceAggregators.Aggregator.DoDrain | trace/go/aggregator.go:96-114 | every held count once, and nothing is held any more |
| TraceAggregators.CoverageAggregator.DoAdd | trace/go/coverage.go:50-61 | one counted coverage cell |
| TraceAggregators.CoverageAggregator.DoDrain | trace/go/coverage.go:74-85 | every held cell once, and nothing is held any more |
| TraceStacks.EdgesFromNames | trace/go/collector.go:328-342 | the loop lists the edges of adjacent frames |
| TraceStacks.EdgesCountPairs | trace/go/collector.go:328-342 | each edge is listed as often as its two frames are adjacent, never blank or reflexive |
| TraceStacks.SymbolLeaf | trace/go/coverage.go:101-124 | the text after the last dot outside parenthesized groups |
| TraceStacks.LeafAfterPath | trace/go/coverage.go:101-124 | a leaf is found after any package path |
| TraceStacks.TestRootIndex | trace/go/coverage.go:161-168 | the loop finds the root |
| TraceStacks.RootIsOutermostTest | trace/go/coverage.go:161-168 | the root is a test and no frame outside it is one |
| TraceStacks.TestNames | trace/go/coverage.go:126-153 | after any path a plain name is a test if and only if it is `Test`, alone or before an upper-case letter, a digit or an underscore |
| TraceStacks.AddCoverage | trace/go/coverage.go:182-194 | every cell grows by exactly the units of the stack |
| TraceStacks.OnlyRootCovers | trace/go/coverage.go:182-194 | units go to other, non-blank frames of the outermost test, never to a test's own cell |
| TraceStacks.CoversMeans | trace/go/coverage.go:170-194 | a frame is covered by the outermost test as often as it is in the stack, and by nothing else |
| TraceStacks.AddEdges | trace/go/collector.go:212-214 | every edge grows by its adjacent pairs in the stack |
| TraceStacks.SampleOnce | trace/go/collector.go:208-222 | a sample adds exactly the pairs and units of all its stacks |
| TraceFlusher.ClampIsExactIff | trace/go/flusher.go:279-290 | the clamp sends the largest count whose weight is exact and in range, if and only if the product does not wrap into range |
| TraceFlusher.ExactClampIsMin | trace/go/flusher.go:279-290 | that count is the smaller of the count and the quotient |
| TraceFlusher.ModestRatesAreExact | trace/go/flusher.go:279-290 | no rate below 2^47 goes wrong |
| TraceFlusher.HugeRateBreaksClamp | trace/go/flusher.go:283 | four observations at rate 2^62 are sent with weight zero |
| TraceFlusher.CoverageIsClamped | trace/go/flusher.go:310-320 | exactly the well-formed cells are sent, each clamped |
| TraceFlusher.RowMeans | trace/go/flusher.go:268-292 | a sent row keeps ends, time and kind of its edge, an empty kind being a call, and never more than the observed count |
| TraceFlusher.Encode | trace/go/flusher.go:273-330 | one clamped row per observation in order, and the coverage cells |
| TraceFlusher.Flusher.FlushOnce | trace/go/flusher.go:236-266 | both aggregators are emptied into one batch, each count once; a failed send only records the failure |
| Neighbors.Walk | daemon/src/cli/neighbors.ts:65-96 | exactly the nodes within the walked distance and exactly the edges at a node one step nearer, each once |
| Neighbors.BallGrows | daemon/src/cli/neighbors.ts:75-94 | one round turns the ball of one radius into the ball of the next |
| Neighbors.MapKeyIsInjective | daemon/src/cli/neighbors.ts:78 | the NUL-joined key tells edges apart |
| Neighbors.RoundsMatchDepth | daemon/src/cli/neighbors.ts:65-96 | for all tables the walk returns exactly the nodes within the depth if and only if the depth is a whole number that is not negative |
| Neighbors.FractionOvershoots | daemon/src/cli/neighbors.ts:75-94 | for every other depth there are a table and a node that is returned and farther than the depth |
| Neighbors.FractionalDepthOvershoots | daemon/src/cli/neighbors.ts:35 | depth 1.5 walks two steps |
| VerifyDist.CheckRefs | viewer/scripts/verify-dist.ts:53-66 | the walk ends, `checked` is the least closed set of existing chunks, each reference is counted once and the missing ones are listed in order |
| VerifyDist.WalkStaysInClosed | viewer/scripts/verify-dist.ts:53-66 | nothing outside a closed set is ever checked |
| VerifyDist.AllRefsCount | viewer/scripts/verify-dist.ts:55 | the count is the HTML references plus the summed imports of the checked chunks |
| VerifyDist.VerifyDist | viewer/scripts/verify-dist.ts:29-79 | success if and only if every reference of the HTML and of reachable chunks exists; the two early failures |
| Adjacency.GatesAreSymmetric | daemon/src/conflict/adjacency.ts:209-222 | every gate is symmetric, even if the lookup is not |
| Adjacency.EdgeGateIsStrictest | daemon/src/conflict/adjacency.ts:190-207 | the edge gate implies both others |
| Adjacency.GatesAreMonotone | daemon/src/conflict/adjacency.ts:209-222 | enlarging a scope loses no adjacency |
| Adjacency.SharedOutsideOrDirect | daemon/src/conflict/adjacency.ts:133-147 | dropping each scope's own ids loses no connection |
| Adjacency.ScopesGraphConnected | daemon/src/conflict/adjacency.ts:133-147 | some two entities are joined directly or share a looked-up neighbor |
| Adjacency.EdgeAdjacency | daemon/src/conflict/adjacency.ts:99-119 | some two entities are joined in either direction |
| Adjacency.IsAdjacent | daemon/src/conflict/adjacency.ts:160-169 | joined, or in one module |
| Adjacency.ScopeNeighbors | daemon/src/conflict/adjacency.ts:176-188 | the looked-up neighbors outside the scope, each once |
| Adjacency.ShareModulePrefix | daemon/src/conflict/adjacency.ts:150-157 | some two entities have one module |
| Adjacency.ModulePrefixes | daemon/src/conflict/adjacency.ts:61-68 | the modules of the entities |
| Adjacency.PrefixOfMember | daemon/src/conflict/adjacency.ts:54-58 | an entity's prefix is its module |
| Adjacency.ColocatedAreAdjacent | daemon/src/conflict/adjacency.ts:160-169 | two scopes that touch one module pass the default gate |
| Adjacency.BareModuleHasPrefix | daemon/src/conflict/adjacency.ts:48-58 | a two-segment id has its first segment as prefix |
| Adjacency.GatePredicate | daemon/src/conflict/adjacency.ts:209-222 | the selected search decides the selected gate |
| Adjacency.FindAdjacent | daemon/src/conflict/adjacency.ts:229-241 | the order-preserving filter of the gate |
| Adjacency.FindOverlap | daemon/src/conflict/adjacency.ts:75-84 | the first claim that overlaps, with exactly the common ids |
| ClaimVerdict.PairIsSymmetric | daemon/src/conflict/contract_diff_oracle.ts:346-404 | a pair's verdict does not depend on who came first |
| ClaimVerdict.PairIsMonotone | daemon/src/conflict/contract_diff_oracle.ts:334-339 | more known dependencies never weaken a pair's conflict |
| ClaimVerdict.PairMeans | daemon/src/conflict/contract_diff_oracle.ts:232-404 | a pair is certain for one entity, 0.85 if one edit changes a contract that the other entity references, 0.6 if both change contracts of one module, and else benign, with contract changes given by intent, visibility and callable |
| ClaimVerdict.Assess | daemon/src/conflict/contract_diff_oracle.ts:492-527 | the loops return the strongest conflict among the pairs, benign without one, abstaining without entities; what that is over intents and signatures is `ClaimVerdict.VerdictMeans` |
| ClaimVerdict.EntitiesFor | daemon/src/conflict/contract_diff_oracle.ts:471-488 | the entities that the ids resolve to |
| ClaimVerdict.VerdictIsUnique | daemon/src/conflict/contract_diff_oracle.ts:492-527 | that determines the verdict |
| ClaimVerdict.VerdictMeans | daemon/src/conflict/contract_diff_oracle.ts:492-527 | the verdict on two claims, over intents, signatures, references and modules alone |
| ClaimVerdict.InternalEditsAreBenign | daemon/src/conflict/contract_diff_oracle.ts:241 | internal edits of different entities never conflict |
| ClaimVerdict.ContractEditBlocksImporters | daemon/src/conflict/contract_diff_oracle.ts:242 | a contract edit of an entity that is not private conflicts, at 0.85 or more, with every claim on an importer of it |
| ClaimVerdict.VerdictIsSymmetric | daemon/src/conflict/contract_diff_oracle.ts:492-527 | the claim-level verdict is symmetric |
| ClaimVerdict.VerdictIgnoresOrder | daemon/src/conflict/contract_diff_oracle.ts:508-517 | it ignores the order and repetition of ids |
| ClaimVerdict.CertainIffShared | daemon/src/conflict/contract_diff_oracle.ts:347-355 | confidence 1 if and only if the resolved scopes share an entity |
| ClaimVerdict.VerdictIsMonotone | daemon/src/conflict/contract_diff_oracle.ts:334-339 | a conflict is never lost or weakened by edges, call-graph facts, imports or scope entries |
| ClaimVerdict.DbDependsOn | daemon/src/conflict/native_signatures.ts:339-347 | an edge in either direction |
| ClaimVerdict.DbIndexMeans | daemon/src/conflict/native_signatures.ts:339-347 | the index is the undirected edge relation |
| ClaimVerdict.ProductionForgetsDirection | daemon/src/conflict/native_signatures.ts:339-347 | in production two joined entities conflict if and only if either end's contract is edited |
| Config.DeepMerge | daemon/src/config/load.ts:30-43 | the recursive loop computes the merge |
| Config.MergeSelf | daemon/src/config/load.ts:30-43 | merging a config into itself changes nothing |
| Config.MergeTwice | daemon/src/config/load.ts:30-43 | applying a layer twice is applying it once |
| Config.MergeAbsorbs | daemon/src/config/load.ts:30-43 | what was merged over a config already contains it |
| Config.MergeAssociatesIff | daemon/src/config/load.ts:30-43 | grouping matters exactly when a plain value cuts off an object |
| Config.MergeIsNotAssociative | daemon/src/config/load.ts:30-43 | three one-key layers whose grouping matters |
| Config.ValidateIsIdempotent | daemon/src/config/load.ts:71-110 | an accepted config is accepted again, unchanged |
| Config.AcceptsIff | daemon/src/config/load.ts:55-110 | a config is accepted if and only if it is an object and, over the defaults, every tier has two non-empty names and every checked field meets its rule |
| Config.FirstIsReported | daemon/src/config/load.ts:88-109 | the reported field is the first in order whose rule is broken |
| Config.FirstModelIsReported | daemon/src/config/load.ts:55-86 | the reported tier is the first in order that is no model, with the name it lacks |
| Config.ModelsAgain | daemon/src/config/load.ts:55-68 | normalized models are valid and stay as they are |
| Config.DefaultIsDefault | daemon/src/config/defaults.ts:128-160 | the shipped defaults have the shape that the proofs need |
| Config.LoadConfig | daemon/src/config/load.ts:45-156 | a broken file or port is reported, in that order; else the layers are merged in order and validated |
| Config.EnvironmentWins | daemon/src/config/load.ts:152-153 | a plain environment value is the one in force, unless validation drops that part of the models |
| Config.VariablesWin | daemon/src/config/load.ts:112-126 | in an accepted config the port variable and a non-blank host variable are in force |
| Config.UnsetIsSilent | daemon/src/config/load.ts:112-126 | the environment speaks of these two keys alone, and only when set |
| Config.LocalWins | daemon/src/config/load.ts:144-150 | else the repository file's value, models included |
| Config.GlobalWins | daemon/src/config/load.ts:138-142 | else the global file's value, models included |
| Config.DefaultStands | daemon/src/config/load.ts:136 | else the default, models included |
| Config.GetByPath | daemon/src/cli/config.ts:90-98 | the loop finds the value at a dotted path, through arrays too |
| Config.SetByPath | daemon/src/cli/config.ts:100-112 | the loop with its cursor computes `Set` |
| Config.GetAfterSet | daemon/src/cli/config.ts:100-112 | a value that was set is there |
| Config.SetElsewhere | daemon/src/cli/config.ts:100-112 | a path that parts from the one set afterwards has no value if the way to the parting meets an array, and else what it had |
| Config.ArrayMakesWay | daemon/src/cli/config.ts:104-108 | setting `a.b` takes the value at `a.0` away when `a` is an array |
| Config.SetIsWrittenIff | daemon/src/cli/config.ts:63-79 | an accepted value of any kind is written if and only if it covers the default object at its path or, inside the models, is at and has no more than what they keep |
| Config.TemperatureIsDropped | daemon/src/cli/config.ts:63-79 | over the defaults a temperature for a tier is accepted and then absent |
| Config.OracleComesBack | daemon/src/cli/config.ts:63-88 | an object for `conflict` without an oracle is accepted and gets the default oracle back |
| Repoint.StepKeepsInv | daemon/src/cli/daemon.ts:669-780 | every step keeps the report, handle and claim invariants |
| Repoint.SwapIsSafe | daemon/src/cli/daemon.ts:669-780 | over every run, a served handle and file other than the first were opened and migrated, and then freshened to a completed or an intact non-empty index, in that run |
| Repoint.SwapHappensIff | daemon/src/cli/daemon.ts:725-778 | a freshened handle, path and key are served if and only if the integrity could be read and the freshen completed or the index is intact and holds nodes; else nothing served changes |
| Repoint.AttemptServesIff | daemon/src/cli/daemon.ts:669-780 | one whole attempt serves what was resolved, and clears the backoff, exactly under the stated answers of the environment; else the served stays and the failure is noted |
| Repoint.ServedWasResolved | daemon/src/cli/daemon.ts:673-767 | over every run, a served file and key other than the first are one answer of the resolver in that run |
| Repoint.LeaksOnlyByAccident | daemon/src/cli/daemon.ts:691-713 | a step leaks a handle exactly on a failed close or a rejection after opening, and no leaked handle comes back |
| Repoint.OneHandleBetweenAttempts | daemon/src/cli/daemon.ts:669-780 | over every run, whenever nothing is being freshened the served handle is open, and it is the only one if and only if no step so far was such an accident |
| Repoint.AgreementWithoutRejection | daemon/src/cli/daemon.ts:2157-2213 | as long as no attempt rejects, the tracked key is the served one between attempts |
| Repoint.AttemptAgreesIff | daemon/src/cli/daemon.ts:2188-2212 | one attempt, whatever came before, ends in agreement if and only if the branch that was read is the served one or none, or resolves to a file that is the served one, too new, or migrates with a readable integrity |
| Repoint.NoBranchClearsBackoff | daemon/src/cli/daemon.ts:2188-2203 | outside a repository nothing is tried, what is served stays, and the backoff is cleared |
| Repoint.TickStartsIff | daemon/src/cli/daemon.ts:2157-2188 | a tick starts an attempt exactly when none is under way, another branch was read, its backoff is over and the guard admits |
| Repoint.RejectionIsNotRetried | daemon/src/cli/daemon.ts:2168 | after a rejection polls that keep reading the same branch change nothing, ever |
| Repoint.ThrowingResolverStrandsBranch | daemon/src/cli/daemon.ts:2188-2212 | one poll whose resolver throws: the old branch stays served and no later tick tries the new one |
| Repoint.DelayDoublesThenStays | daemon/src/cli/daemon.ts:2215-2225 | five seconds, doubling, five minutes from the seventh failure on |
| Repoint.FailureCounts | daemon/src/cli/daemon.ts:2215-2225 | consecutive failures of one branch are counted, another branch starts over |
| Repoint.BackoffHolds | daemon/src/cli/daemon.ts:2169 | until the delay has passed no tick tries the failed branch again |
| Repoint.OtherBranchIsNotDelayed | daemon/src/cli/daemon.ts:2169 | a different branch is tried at once |
| Repoint.BranchPoller.constructor | daemon/src/cli/daemon.ts:1709 | tracked and served key agree at the start |
| Repoint.BranchPoller.DoPoll | daemon/src/cli/daemon.ts:2157-2188 | the tick equals its step |
| Repoint.BranchPoller.DoBegin | daemon/src/cli/daemon.ts:673-711 | resolve, open and migrate equal their step |
| Repoint.BranchPoller.DoEndFreshen | daemon/src/cli/daemon.ts:712-778 | swap or give up equals its step |
| Repoint.BranchPoller.DoSettle | daemon/src/cli/daemon.ts:2189-2212 | the continuation equals its step |
| Repoint.BranchPoller.NoteRepointFailure | daemon/src/cli/daemon.ts:2215-2225 | the counter, the key and the time of the next attempt |
| LiveMap.StepKeepsInv | daemon/src/cli/daemon.ts:2486-2701 | every step keeps at most 64 runtimes, distinct roots, the primary, and the relation of routing map and runtimes |
| LiveMap.EveryRunIsSafe | daemon/src/cli/daemon.ts:2468-2701 | over every run, failed starts and shutdowns included, the map stays safe and the primary stays the same and served |
| LiveMap.OnlyRetiredDisappear | daemon/src/cli/daemon.ts:2647-2683 | a runtime disappears or changes only by being retired |
| LiveMap.AddEvictsOnlyStale | daemon/src/cli/daemon.ts:2592-2612 | an add evicts only a non-primary runtime whose root is gone |
| LiveMap.AnswersAreTrue | daemon/src/cli/daemon.ts:2496-2640 | an answer tells exactly how the runtimes changed: the added or the named one and no other, nothing for a refused primary, and gone also when its shutdown failed |
| LiveMap.AddSucceedsIff | daemon/src/cli/daemon.ts:2496-2640 | an add of an unserved directory is answered with an alias if and only if the directory is there, the registry answers that alias, it is free or its stale holder makes way, there is room, and the project starts |
| LiveMap.ServedRootIsAnswered | daemon/src/cli/daemon.ts:2499-2502 | an add of a served directory is answered with its alias |
| LiveMap.RemoveIsAnswered | daemon/src/cli/daemon.ts:2647-2701 | a removal finds nothing exactly when its name stands for nothing, and succeeds if and only if it stands for a runtime other than the primary whose shutdown succeeds |
| LiveMap.MutationsAreFifo | daemon/src/cli/daemon.ts:2486-2494 | operations are answered once each, in order of submission, whatever became of the earlier ones |
| LiveMap.DrainsInBoundedSteps | daemon/src/cli/daemon.ts:2486-2701 | over every run, two turns per waiting operation answer all of them, whatever is submitted in between, and while one waits some turn is possible |
| LiveMap.LoadIsComplete | daemon/src/cli/daemon.ts:2335-2386 | no startable project is left out, unless its alias is taken or the cap is reached |
| LiveMap.LoadedIff | daemon/src/cli/daemon.ts:2335-2386 | an alias is loaded if and only if some entry with it has a directory, starts and comes before the cap is reached |
| LiveMap.LoadedIsSound | daemon/src/cli/daemon.ts:2323-2386 | the loaded runtimes are within the cap and distinct; the primary's alias is served if and only if some entry brings it, and stands for the primary if and only if it could start |
| LiveMap.OtherRootStandsIn | daemon/src/cli/daemon.ts:2335-2386 | a primary that does not start and an entry with its alias: the other root is served as the primary |
| LiveMap.ListProjects | daemon/src/cli/daemon.ts:2323-2331 | the primary and every entry at another root, in order, or none if one of these entries has a broken config |
| LiveMap.DistinctAreFirsts | daemon/src/cli/daemon.ts:2323-2331 | exactly the first entry at each root is listed, in order |
| LiveMap.LoadAll | daemon/src/cli/daemon.ts:2335-2386 | the loading loop equals `Load` |
| LiveMap.StartUp | daemon/src/cli/daemon.ts:2323-2430 | a daemon starts if and only if the listed configs load and some entry brings the primary's alias; it then serves what was loaded and satisfies the invariant |
| LiveMap.LiveProjects.constructor | daemon/src/cli/daemon.ts:2468 | the routing map starts as the runtimes |
| LiveMap.LiveProjects.AddProjectLive | daemon/src/cli/daemon.ts:2496-2612 | an add up to its end, or up to the wait for a stale runtime |
| LiveMap.LiveProjects.CompleteLive | daemon/src/cli/daemon.ts:2613-2640 | second cap check, alias check, start, both maps |
| LiveMap.LiveProjects.RemoveProjectLive | daemon/src/cli/daemon.ts:2685-2701 | a remove up to the wait for its runtime |
| LiveMap.LiveProjects.FinishRetire | daemon/src/cli/daemon.ts:2660-2683 | ownership is dropped whatever the shutdown answered |

## Left out

- HTTP, processes, pidfiles, signals, logs, timers and file watching; they appear only as outcomes of steps or as parameters.
- SQLite, the registry and the native parser; the branch resolver, the registry's alias choice, integrity checks and edge queries are parameters with any answer.
- Language-model and cloud oracles, prompts, the code-fence expression (its match is a parameter), the phrase lists that classify an intent, and signature extraction.
- The deterministic judge of `extractor_oracle.ts`, a single branching on two fact sheets, would only add an easy member.
- The reasons and messages in verdicts and errors; the reason of a contract-diff verdict does depend on the order of the claims.
- IngestSystem.NeverStuck: does not promise that a particular body gets its turn, because the limiter is not starvation-free: a newcomer may take the slot of a woken body, which then parks at the tail.
- IngestSystem.RunBeginsAfterItsRequests: says nothing of a run that is refused when it begins, because a re-point may have used its interval.
- IngestGuard.RunawayBound: takes times as integers; a negative interval, which the daemon never passes, is outside the model.
- Sleeping never rejects in the model of `runFull`.
- Repoint.SwapIsSafe: the guard's own verdict on a re-point and the notes it gets are steps of the ingest system, not of this one.
- LiveMap.EveryRunIsSafe: the canonical form of a path is a fixed function for the length of a run; a symbolic link that changes its target in between is not modelled.
- LiveMap.StartUp: warnings, identities and the lists of skipped projects are not kept.
- Gset.SortSorts: the engine's sort is modelled as an insertion sort; on distinct stamps there is only one result.
- Gset.Convergence: assumes that operations with one key are equal, as the design of the set demands; the generation of stamps is not modelled.
- Pprof.ProfileRoundTrip: messages shorter than 2^63 bytes and field numbers below 2^61, as Go's `int` can hold; decompression is not modelled.
- JsonScanner.ExtractsPrintedObject: numbers and literals are any text without braces and quotes, which is more than RFC 8259 allows.
- ShellQuote.SplitUndoesQuoting: the shell is modelled on words of plain, escaped and single-quoted characters; expansions, operators, comments and reserved words are outside and are refused.
- Spine.LogSplits: an append of one whole line is one step; the operating system's promise for short writes is taken as given.
- TraceCounts.Conservation: speaks of what a drain handed out; a batch whose transmission fails is drained and lost, as in the source.
- TraceStacks.SampleOnce: stacks arrive as lists of names; profiling, frame filters and symbol lookup are not modelled.
- TraceFlusher.Flusher.FlushOnce: the two drains and the bookkeeping are one step, so what another goroutine adds between them is not seen here; an encoding error is recorded like a failed send and is not told from one; the background loop, start and stop are not modelled.
- Neighbors.Walk: weights are carried along and not constrained; ids contain no NUL.
- Config.SetElsewhere: configs are trees, so writing in place is modelled as a new tree and aliasing with the defaults is not captured; members inherited from prototypes are not modelled, nor is the order of keys.
- ClaimVerdict.Assess: confidences are exact rationals.
- Command-line rendering, help texts, exit codes and the adapters of the trace clients for other languages.
