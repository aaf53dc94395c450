# meteor_server_info telemetry core, in Dafny

This project models the metric engine of `meteor_server_info`. The engine
collects process and database telemetry from a Meteor server and shapes it
into one JSON-ready tree. The model covers:

- **Counters and info data** (`counters.dfy`, `info.dfy`). A Counter is a
  JavaScript `Map<number|string, number>`. It is modelled as its entries in
  insertion order, with `has`, `get` and `set` semantics. An `IInfoData` is
  the list of entries of a plain object: each metric name carries a number
  or a Counter.
- **MongoInfo** (`mongo_info.dfy`, module `Mongo`). An imperative class
  whose `info` field is updated handle by handle. For each observe handle it
  counts the handle, picks the handle's own observe driver or falls back to
  its multiplexer's driver, and bumps the oplog or polling total and the
  per-collection Counter. `GetInfo` is proved against `Tally`, a fold over
  all handles of all multiplexers. The invariants it preserves are proved
  about `Tally`: the totals equal the Counters' sums, and the two strategy
  totals add up to `nObserveHandles`.
- **NodeInfo** (`node_info.dfy`, module `Sampler`). An imperative class
  holding the previous CPU reading, poll timestamp, high-resolution time,
  latest loop delay and the timer.
  - CPU normalisation is proved to be a rate over the elapsed time, with
    the 1 ms substitute when two polls share a timestamp.
  - The event-loop delay is proved to be the drift past the 10 000 ms
    interval.
  - `stop` is proved idempotent.
- **ServerInfo** (`server_info.dfy`, module `Aggregator`).
  - `InfoReducer` flattens each section: numbers are copied and Counters
    become key→count objects.
  - `GetInformation` folds the four sections (`sockets`, `sessions`,
    `mongo`, `process`) into one tree and attaches a copy of the facts
    bundle.
  - `GetDescriptions` lists the section descriptions; the keys of the
    collected sections are proved to equal those descriptions.
  - `SelectSettings` falls back to the default settings.

Clocks, CPU and memory readings, and the Meteor internals (socket and
session data, the observe multiplexers) are parameters of the model.

In these places the model follows the code as written:

- The facts bundle is copied with `Object.assign({}, …)`. That is a shallow
  copy, so each package's fact object is shared with the live bundle.
  `Aggregator.CollectThenUpdateFact` states that a later change to a
  package's facts is visible through a result already returned. Only adding
  or replacing a whole package stays invisible
  (`Aggregator.CollectThenPublish`).
- `getInformation` builds a new `MongoInfo` and a new `NodeInfo` on every
  call. So the `process` section always reports a loop delay of 0, and its
  CPU rate is measured between the construction and the `getInfo` of that
  same call (`Aggregator.ProcessLoopDelayIsZero`, `Sampler.FirstGetInfo`).
  A reused `MongoInfo` would count every handle once per call
  (`Mongo.GetInfoTwice`).
- `getInformation` never calls `stop()` on the `NodeInfo` it builds, and
  its constructor starts an interval timer (`src/ServerInfo.ts:101`,
  `src/NodeInfo.ts:174`). Every call therefore leaves one more timer
  running. In `Aggregator.ServerInfo.GetInformation` the new sampler's
  `timer` is still set when the method returns.

## Model

| member | source | states |
|---|---|---|
| Counters.Find | src/ServerInfo.ts:49 | the position it reports holds the key and no earlier entry does; None exactly when no entry has the key |
| Counters.Has | src/MongoInfo.ts:64 | `Map.prototype.has`: whether some entry carries the key |
| Counters.Get | src/MongoInfo.ts:69 | `Map.prototype.get`: the count of the entry carrying the key, or None for `undefined` |
| Counters.Set | src/MongoInfo.ts:65-69 | `Map.prototype.set`: an existing key keeps its place and takes the new count; a new key is appended last |
| Counters.Count | src/MongoInfo.ts:69 | the count `get` reports, 0 for a key not yet present |
| Counters.Increment | src/MongoInfo.ts:64-69 | the Counter after the `has`/`set(name, 0)`/`set(name, get(name) + 1)` sequence: the key set to its count plus one |
| Counters.ToObject | src/ServerInfo.ts:193-200 | the plain object obtained by assigning every entry, in order, onto `{}` |
| Counters.FindAt | src/ServerInfo.ts:49 | the first entry carrying a key is the one a Map lookup finds |
| Counters.FindAgrees | src/ServerInfo.ts:49 | appending or rewriting entries of other keys does not change where a key is found |
| Counters.HasIffInKeySet | src/MongoInfo.ts:64 | `has(k)` holds exactly when k is among the Counter's keys |
| Counters.SetGet | src/MongoInfo.ts:65-69 | after `set(k, v)`, `get(k)` is v and every other key reads as before |
| Counters.SetKeys | src/MongoInfo.ts:65-69 | `set` adds its key to the key set and keeps the keys unique |
| Counters.SetTwice | src/MongoInfo.ts:64-69 | setting a key twice equals setting it once to the second value, which is why the `set(name, 0)` before the increment leaves no trace |
| Counters.SumAppend | src/MongoInfo.ts:65 | appending an entry adds its count to the total |
| Counters.SumUpdate | src/MongoInfo.ts:67-69 | overwriting an entry moves the total by the difference |
| Counters.SumSet | src/MongoInfo.ts:64-69 | `set(k, v)` moves the total by v minus the old count of k |
| Counters.IncrementSpec | src/MongoInfo.ts:64-69 | incrementing adds one to k's count (starting from 0 when absent) and to the total, adds k to the keys and leaves every other count unchanged |
| Counters.CountOfEntry | src/ServerInfo.ts:49 | with unique keys, each listed entry's count is what `get` reports |
| Counters.ToObjectSpec | src/ServerInfo.ts:196-199 | the object a Counter flattens into has exactly the Counter's keys, and each maps to its entry's count |
| Counters.ToObjectAgreesWithMap | src/ServerInfo.ts:196-199 | the flattened object agrees with `has` and `get` on every key |
| Mongo.DriverOf | src/MongoInfo.ts:86 | the handle's own `_observeDriver`, or else its multiplexer's |
| Mongo.TypeOf | src/MongoInfo.ts:89 | the oplog strategy when the driver uses the oplog, the polling strategy otherwise |
| Mongo.Collected | src/MongoInfo.ts:54-70 | the info after `buildCollectionInfo`: that strategy's total plus one and the collection incremented in that strategy's Counter |
| Mongo.HandleBuilt | src/MongoInfo.ts:82-91 | the info after `buildHandleInfo`: `nObserveHandles` plus one, then the collection recorded under the strategy of the handle's driver |
| Mongo.Tally | src/MongoInfo.ts:127-133 | the info after `buildHandleInfo` on each handle in turn |
| Mongo.AllHandles | src/MongoInfo.ts:128-130 | the handles of every multiplexer, multiplexer after multiplexer |
| Mongo.OfType | src/MongoInfo.ts:123-125 | the number of handles whose driver uses the given strategy |
| Mongo.Occurrences | src/MongoInfo.ts:122-124 | the number of handles observing the given collection with the given strategy |
| Mongo.Observed | src/MongoInfo.ts:122-124 | the collections some handle observes with the given strategy |
| Mongo.ObservedSpec | src/MongoInfo.ts:122-124 | a key is among the observed collections exactly when it names a collection that at least one handle observes with that strategy |
| Mongo.EmptyInfoInvariant | src/MongoInfo.ts:32-38 | the zeroed info has every count 0 and satisfies both invariants |
| Mongo.CollectedSpec | src/MongoInfo.ts:54-70 | recording one collection adds one to that strategy's total and to the collection's count, adds the collection to that Counter's keys, leaves the other strategy and `nObserveHandles` untouched, and keeps totals equal to Counter sums |
| Mongo.HandleBuiltSpec | src/MongoInfo.ts:82-91 | a handle adds one to `nObserveHandles` and is recorded under the strategy and collection of its own driver, or of its multiplexer's driver when it has none; both invariants are kept |
| Mongo.TallyTotals | src/MongoInfo.ts:127-136 | a fold over handles adds their number to `nObserveHandles` and the number of handles of each strategy to that strategy's total; the two strategy counts add up to the number of handles |
| Mongo.TallyCounters | src/MongoInfo.ts:127-136 | each collection's count grows by the number of handles of that strategy observing it |
| Mongo.TallyKeys | src/MongoInfo.ts:127-136 | a strategy's Counter gains exactly the keys of the collections observed with that strategy, and no others |
| Mongo.TallyPreservesInvariant | src/MongoInfo.ts:127-136 | the fold keeps the totals equal to the Counter sums and their sum equal to `nObserveHandles` |
| Mongo.TallyAppend | src/MongoInfo.ts:128-133 | folding two handle lists in turn equals folding their concatenation |
| Mongo.TallyStep | src/MongoInfo.ts:130-132 | folding one more handle is one `buildHandleInfo` step |
| Mongo.AllHandlesHaveDrivers | src/MongoInfo.ts:86 | when every multiplexer's handles have a driver, so do all handles together |
| Mongo.FreshInfo | src/MongoInfo.ts:127-136 | what the first `getInfo` of a newly built provider returns: the fold from the zeroed info over all handles |
| Mongo.FreshInfoSpec | src/MongoInfo.ts:121-125 | a fresh `getInfo` reports the number of handles, the number per strategy, and per collection the number of handles of that strategy observing it; each strategy's Counter has exactly the collections observed with it as keys, so no entry counts 0; both invariants hold |
| Mongo.ToInfoData | src/MongoInfo.ts:3-9 | the report as its five entries, numbers for the totals and Counters for the per-collection hashes |
| Mongo.DataMatchesMetrics | src/MongoInfo.ts:3-9 | the info data has exactly the five described metric names, each once; consistent info has numbers for the totals and Counters for the per-collection maps |
| Mongo.MongoInfo.constructor | src/MongoInfo.ts:31-40 | the info starts zeroed and the multiplexers are kept |
| Mongo.MongoInfo.BuildCollectionInfo | src/MongoInfo.ts:54-70 | the info becomes the collection recorded under the strategy: that total and that count go up by one, the other strategy is unchanged, and consistency is kept |
| Mongo.MongoInfo.BuildHandleInfo | src/MongoInfo.ts:82-91 | `nObserveHandles` goes up by one and the handle's driver is recorded; the invariants are kept |
| Mongo.MongoInfo.GetDescription | src/MongoInfo.ts:105-115 | the description has exactly the five metric names the info data carries |
| Mongo.MongoInfo.GetInfo | src/MongoInfo.ts:127-136 | after visiting every handle of every multiplexer, the info and the result equal the fold of the previous info over all handles; the invariants are kept |
| Mongo.TallyExample | src/MongoInfo.ts:82-91 | two oplog handles through a multiplexer on `orders` plus one direct polling handle on `users` give totals 3, 2 and 1 with `{orders: 2}` and `{users: 1}` |
| Mongo.TallyOfExample | src/MongoInfo.ts:127-136 | the same totals come out of any multiplexers holding those handles |
| Mongo.CollectExample | src/MongoInfo.ts:127-136 | a newly built `MongoInfo` over those multiplexers returns exactly that info |
| Mongo.GetInfoTwice | src/MongoInfo.ts:127-136 | `getInfo` does not reset `info`, so a second call counts every handle again and doubles `nObserveHandles` |
| Sampler.TsDiff | src/NodeInfo.ts:143-148 | the elapsed time is never 0: it is the difference when the timestamps differ and 1000 µs when they are equal, and positive when time moved forward |
| Sampler.Normalize | src/NodeInfo.ts:155-158 | each CPU field's growth divided by the elapsed time |
| Sampler.NormalizeIsRate | src/NodeInfo.ts:155-158 | each normalised field times the elapsed time gives back the CPU time consumed |
| Sampler.NormalizeSameTick | src/NodeInfo.ts:145-148 | two polls at the same timestamp are divided by 1000 µs |
| Sampler.NormalizeNonNegative | src/NodeInfo.ts:141-160 | with time moving forward and non-decreasing CPU counters, both rates are non-negative |
| Sampler.LoopDelay | src/NodeInfo.ts:176-179 | the `hrtime` difference in milliseconds minus the 10 000 ms interval |
| Sampler.LoopDelayIsDrift | src/NodeInfo.ts:175-181 | the delay is the elapsed milliseconds minus the 10 000 ms interval: 0 exactly when one interval elapsed, positive exactly when the tick was late, and increasing in the tick time |
| Sampler.FirstInfo | src/NodeInfo.ts:110-123 | the first `getInfo` of a new sampler: CPU rates since the construction baseline, a loop delay of 0 and the memory readings |
| Sampler.NodeInfo.constructor | src/NodeInfo.ts:49-63 | the info starts zeroed; the baseline time, poll timestamp (in µs) and CPU reading are those taken at construction; the delay is 0 and the timer runs |
| Sampler.NodeInfo.GetDescription | src/NodeInfo.ts:71-105 | the description has exactly the seven metric names, all of type "number" |
| Sampler.NodeInfo.GetInfo | src/NodeInfo.ts:110-123 | the result carries the CPU rates since the previous poll, the latest loop delay and the memory readings; only the poll state changes |
| Sampler.NodeInfo.Stop | src/NodeInfo.ts:128-133 | the timer is cleared and nothing else changes |
| Sampler.NodeInfo.PollCpuUsage | src/NodeInfo.ts:141-160 | the result is the rate between the previous and the new reading; the new timestamp (in µs) and reading become the previous state; nothing else changes |
| Sampler.NodeInfo.PollLoop | src/NodeInfo.ts:162-164 | the latest stored delay is returned without a new probe |
| Sampler.NodeInfo.StartEventLoopObserver | src/NodeInfo.ts:173-185 | the timer is set and nothing else changes |
| Sampler.NodeInfo.Tick | src/NodeInfo.ts:175-181 | the delay becomes the drift since the previous tick and the tick time becomes the previous time; nothing else changes |
| Sampler.ToInfoData | src/NodeInfo.ts:14-22 | the report as its seven number entries |
| Sampler.DataNames | src/NodeInfo.ts:14-22 | the info data has exactly the seven described metric names |
| Sampler.DataWellFormed | src/NodeInfo.ts:14-22 | the seven names are distinct and every value is a number |
| Sampler.FirstGetInfo | src/NodeInfo.ts:49-63 | the first `getInfo` of a new sampler reports a loop delay of 0 and the CPU rate since construction |
| Sampler.StopTwice | src/NodeInfo.ts:128-133 | stopping twice leaves the timer cleared and every other field, the info included, as before |
| Aggregator.Flatten | src/ServerInfo.ts:188-200 | a number is kept; a Counter becomes the object of its entries |
| Aggregator.FlattenSpec | src/ServerInfo.ts:186-202 | a number stays the same number; a Counter becomes an object with the Counter's keys, each mapped to its count |
| Aggregator.ReduceSection | src/ServerInfo.ts:183-202 | the `infoRaw` object after the loop: each metric name assigned its flattened value, in order |
| Aggregator.ReduceSectionSpec | src/ServerInfo.ts:183-202 | the reduced section has exactly the metric names, and each name maps to its flattened value |
| Aggregator.ReducedValues | src/ServerInfo.ts:188-200 | in a reduced section, number metrics are copied verbatim and Counter metrics become their key→count objects |
| Aggregator.FlattenExample | src/ServerInfo.ts:196-199 | a Counter with two keys counting 2 and 3 becomes the object mapping them to 2 and 3 |
| Aggregator.Assemble | src/ServerInfo.ts:104 | the `reduce` over the sources: each section assigned its reduced info data, in order |
| Aggregator.SourceNamesSnoc | src/ServerInfo.ts:97-102 | the section names of a source list are those of its prefix plus the last one |
| Aggregator.AssembleKeys | src/ServerInfo.ts:104 | the folded tree has the accumulator's keys plus every section name |
| Aggregator.AssembleLookup | src/ServerInfo.ts:104 | with distinct section names, each section name maps to its reduced section |
| Aggregator.AssembleOrderFree | src/ServerInfo.ts:97-104 | with distinct section names, any reordering of the sources folds to the same tree, so registration order does not change the result |
| Aggregator.AssembleKeepsOthers | src/ServerInfo.ts:104 | an accumulator key no section uses keeps its value |
| Aggregator.SelectSettings | src/ServerInfo.ts:43-47 | configured settings are used as given; without them the path is "/serverInfo", the user "insecure" and the password "secureme" |
| Aggregator.NamedSources | src/ServerInfo.ts:97-102 | the four sources carry the distinct names sockets, sessions, mongo and process |
| Aggregator.AssembleNamed | src/ServerInfo.ts:97-104 | folding the four sources sets the four sections in registration order |
| Aggregator.PackageFacts.constructor | src/ServerInfo.ts:106 | one package's facts object keeps the given values |
| Aggregator.Facts.constructor | src/ServerInfo.ts:106 | the facts collector keeps its `_factsByPackage` map |
| Aggregator.Results.constructor | src/ServerInfo.ts:104 | the reduction starts from an empty object with no facts |
| Aggregator.ServerInfo.constructor | src/ServerInfo.ts:75-88 | the settings are the configured ones or the defaults; the facts collector is kept |
| Aggregator.ServerInfo.GetDescriptions | src/ServerInfo.ts:121-130 | the descriptions have the four section names, each mapped to that provider's description |
| Aggregator.ServerInfo.InfoReducer | src/ServerInfo.ts:175-206 | the accumulator gains (or replaces) the named section, set to the reduced info data; nothing else in it changes |
| Aggregator.ServerInfo.GetInformation | src/ServerInfo.ts:96-109 | the result is a new object whose sections are the fold of the four reduced sections: the given socket and session data, a fresh Mongo fold, and a first process sample; its facts are a copy of the packages map |
| Aggregator.ReduceTwice | src/ServerInfo.ts:175-206 | reducing the same data twice gives the same section both times, and the accumulator holds it once |
| Aggregator.SectionsMatchDescriptions | src/ServerInfo.ts:96-130 | the collected tree and the descriptions have the same section names, and the mongo and process sections have exactly their described metric names |
| Aggregator.ProcessLoopDelayIsZero | src/ServerInfo.ts:101 | the process section of a result reports a loop delay of 0, because the sampler is new on every call |
| Aggregator.CollectThenPublish | src/ServerInfo.ts:106 | a package published after a collection does not show in the result already returned |
| Aggregator.CollectThenUpdateFact | src/ServerInfo.ts:106 | a fact updated inside a package after a collection does show in the result already returned, because the copy is shallow |

## Left out

- The HTTP layer: `handle`, `handleDescription` and `register` with its Connect authentication middleware. They only serialise the two trees the model builds.
- `console.log` output, including the `toFixed(2)` in the tick.
- `SocketInfo` and `SessionInfo` are not part of this model. Their info data and descriptions are parameters of `GetInformation` and `GetDescriptions`. Their names are assumed distinct, as a JavaScript object's keys are.
- Meteor's `MongoInternals`: the observe multiplexers are given as a list of handle lists, one per multiplexer.
- `setInterval` and `clearInterval` are a boolean `timer`. A tick is a call of `Tick` with the tick's `process.hrtime()` reading.
- `Date`, `process.hrtime()`, `process.cpuUsage()` and `process.memoryUsage()` are parameters.
- Numbers are modelled as exact mathematical values: CPU rates and delays are `real`, counts and memory sizes `nat`. IEEE floating-point rounding is not modelled.
- JavaScript converts a numeric Counter key to a string property name, so `1` and `"1"` would collide in the flattened object. The model keeps the keys apart.
- The order of properties in the output objects is not modelled: sections are Dafny maps.
- `getInfo` results are values. The live aliasing of `MongoInfo.info` and its Maps with the returned object is not modelled, nor is the live reference to the multiplexers changing between calls.
- Aggregator.ServerInfo.GetDescriptions: `src/ServerInfo.ts:126` reads `NodeInfo.getDescription` from the class, but `src/NodeInfo.ts:71` declares `getDescription` on instances only. As written, the property is undefined and the call throws a TypeError. The model returns the process description, reading it statically as `ServerInfo.ts` intends (`Sampler.NodeInfo.GetDescription` is `static`).
- `src/ServerInfo.ts` also imports a `NodeInfoStore` type and builds `NodeInfo` with a second `store` argument (`src/ServerInfo.ts:85-87`, `src/ServerInfo.ts:101`). Neither exists in `src/NodeInfo.ts`, so the model uses the one-argument constructor of `src/NodeInfo.ts:49` and has no store.
- `src/runner.ts` and `lib/NodeInfo.d.ts` are not part of this model.
- The facts bundle's values are integers in the model; the shape of Meteor's facts is not modelled.
- Mongo.MongoInfo.BuildHandleInfo: requires that the handle or its multiplexer has an observe driver. The TypeError the source raises otherwise, after it has already incremented `nObserveHandles`, is not modelled.
- Sampler.NodeInfo.Tick: requires that the timer is set, since the interval callback only runs while it is registered.
- Aggregator.ServerInfo.InfoReducer: takes the section's info data as a parameter. The source calls the provider's `getInfo()` itself (`src/ServerInfo.ts:180`); the model's `GetInformation` makes that call just before the reducer.
