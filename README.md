# Siddhi query runtime: assembly and partition cloning

A query runtime in the Siddhi complex-event-processing engine holds one
query's pipeline: stream intake, selector, output rate limiter and output
callback. This project models `QueryRuntime` from
`modules/siddhi-core/src/main/java/io/siddhi/core/query/QueryRuntime.java`
in Dafny and proves the rules of its wiring. It covers:

- how the constructor and `init` link the stages into one chain;
- how `clone(key, junctionMap)` builds an independent copy of the pipeline
  for a partition key;
- how `isFromLocalStream` decides whether a query reads from an inner
  (engine-internal, `#`-prefixed) stream.

Files:

- `query_api.dfy`, module `QueryApi`: the query-language types that the
  runtime inspects. The input stream is a datatype with four shapes: single,
  join (a pair of single inputs), state (pattern or sequence, known by its
  stream ids) and any other shape. It also holds `startsWith`, the
  specification `IsLocalInput`, and the `Query` object, which a runtime and
  its clones share.
- `stages.dfy`, module `CoreStages`: the collaborators as small classes
  with reference fields. Each `clone(key)` promises new (`fresh`) objects
  and changes nothing that already existed. The callback factory promises a
  new callback and may change only the junction registry.
  `QueryParserHelper.initStreamRuntime` is reduced to giving the lock to the
  intake's receivers.
- `query_runtime.dfy`, module `CoreQuery`: the `QueryRuntime` class. Its
  fields are those of the Java class. The constructor, the two setters,
  `Init`, `SetToLocalStream`, `AddCallback` and `Clone` are methods with
  frames. The predicate `Wired()` states the chain invariant that
  construction sets up and cloning sets up again on the copy.
  `IsFromLocalStream` is a method that loops over the ids, as the Java
  does, and is proved equal to `QueryApi.IsLocalInput`.

`Clone` is one Java method. In the model it is split into three steps, each
with its own contract, so that each proof stays small:

- `CloneStages`: lines 123-131.
- `BuildClone`: lines 133-137.
- `BindCloneDelivery`: lines 139-150.

`Clone` runs the three steps in the Java order.

Three points of the code's behaviour that the model keeps:

- No configuration error is raised: the constructor checks neither the
  schema nor the intake, and `clone` does not check that the original was
  initialised.
- Cloning does not run a second pass that points the multi-process
  receivers at the clone's limiter. The clone's constructor calls `init()`
  (line 73), which does that. `QueryParserHelper.initStreamRuntime`
  (line 136) gets the lock.
- For single and join inputs, the code decides "local input" by the inner
  flag and not by the `#` prefix of the id. For example, a join whose left
  id is `#inner_0` and whose right side is unflagged is local only when the
  left flag is set.
  `LocalInputIffInnerId` shows that the flag test and the id test agree
  whenever each flag matches its id's prefix.

## Model

| member | source | states |
|---|---|---|
| `QueryApi.StartsWith` | modules/siddhi-core/src/main/java/io/siddhi/core/query/QueryRuntime.java:113 | Java's `startsWith`: true exactly when the prefix is no longer than the string and equals its first characters |
| `QueryApi.InnerStreamIdIsHashPrefixed` | modules/siddhi-core/src/main/java/io/siddhi/core/query/QueryRuntime.java:113 | an id counts as an inner-stream id exactly when it is non-empty and its first character is `#` |
| `QueryApi.IsInnerStreamId` | modules/siddhi-core/src/main/java/io/siddhi/core/query/QueryRuntime.java:113 | the `startsWith("#")` test on one stream id; `InnerStreamIdIsHashPrefixed` shows it holds exactly for a non-empty id whose first character is `#` |
| `QueryApi.HasInnerStreamId` | modules/siddhi-core/src/main/java/io/siddhi/core/query/QueryRuntime.java:112-116 | the front-to-back scan over stream ids is true exactly when some id starts with `#` |
| `QueryApi.IsLocalInput` | modules/siddhi-core/src/main/java/io/siddhi/core/query/QueryRuntime.java:104-119 | a state input is local exactly when one of its stream ids starts with `#`; an input of any other shape is never local |
| `QueryApi.LocalInputIffInnerId` | modules/siddhi-core/src/main/java/io/siddhi/core/query/QueryRuntime.java:104-119 | for single, join and state inputs whose inner flags agree with their ids, the input is local exactly when one of its stream ids has the `#` marker, so the flag tests and the id test agree |
| `QueryApi.JoinWithInnerLeftIsLocal` | modules/siddhi-core/src/main/java/io/siddhi/core/query/QueryRuntime.java:107-110 | a join whose left side is the inner stream `#inner_0` and whose right side is `OuterStream` is local |
| `QueryApi.StateInputScenarios` | modules/siddhi-core/src/main/java/io/siddhi/core/query/QueryRuntime.java:111-117 | a pattern over `OuterStream` and `#inner_1` is local; one over two outer streams is not |
| `CoreQuery.QueryRuntime.IsFromLocalStream` | modules/siddhi-core/src/main/java/io/siddhi/core/query/QueryRuntime.java:104-119 | the result equals `IsLocalInput` of the query's input: the single input's flag, left flag OR right flag for a join, an early-exit search for a `#` id for a state input, false otherwise; it changes no state (no modifies clause) |
| `CoreQuery.QueryRuntime.Wired` | modules/siddhi-core/src/main/java/io/siddhi/core/query/QueryRuntime.java:66-73 | the chain invariant: the selector's next processor is the bound limiter, the limiter delivers to the runtime's callback, the intake's common processor is the selector, and every multi-process receiver holds the limiter; the constructor and `Clone` establish it |
| `CoreQuery.QueryRuntime.constructor` | modules/siddhi-core/src/main/java/io/siddhi/core/query/QueryRuntime.java:60-74 | stores query, stages, callback, flag and context; the output definition is the metadata's; `toLocalStream` starts false; afterwards the pipeline is wired (`Wired`): selector's next processor is the limiter, the limiter's callback is the runtime's callback, the intake's common processor is the selector, every multi-process receiver holds the limiter |
| `CoreQuery.QueryRuntime.SetOutputRateLimiter` | modules/siddhi-core/src/main/java/io/siddhi/core/query/QueryRuntime.java:155-158 | the bound limiter and the selector's next processor become the same object in one step |
| `CoreQuery.QueryRuntime.SetMetaComplexEvent` | modules/siddhi-core/src/main/java/io/siddhi/core/query/QueryRuntime.java:172-175 | the output definition becomes the metadata's output definition and the metadata is stored |
| `CoreQuery.QueryRuntime.Init` | modules/siddhi-core/src/main/java/io/siddhi/core/query/QueryRuntime.java:185-193 | the intake's common processor becomes the selector and every multi-process receiver holds the bound limiter; receivers of any other kind are outside the frame and unchanged |
| `CoreQuery.QueryRuntime.SetToLocalStream` | modules/siddhi-core/src/main/java/io/siddhi/core/query/QueryRuntime.java:96-102 | `IsToLocalStream()` afterwards returns the value set |
| `CoreQuery.QueryRuntime.AddCallback` | modules/siddhi-core/src/main/java/io/siddhi/core/query/QueryRuntime.java:80-82 | the query callback is appended to the bound limiter's callback list; nothing else changes |
| `CoreQuery.QueryRuntime.Clone` | modules/siddhi-core/src/main/java/io/siddhi/core/query/QueryRuntime.java:121-153 | the clone and its intake, receivers, selector and limiter are new objects; its intake has as many legs as the original's, each receiver of the same kind as the one at that position (`SameReceiverKinds`); it shares query, metadata, `synchronised` and context, copies `toLocalStream`, takes its output definition from the metadata, so the definition is the original's whenever the original's still matches the metadata; its limiter holds a new lock exactly when synchronised (else null), that same lock is on every receiver of its intake, and it holds the shared context; external output: the original's callback; local output: a new callback for `key`, for the query's output stream and this runtime's definition; the clone is wired, its limiter started; only the junction registry may change |
| `CoreQuery.QueryRuntime.CloneStages` | modules/siddhi-core/src/main/java/io/siddhi/core/query/QueryRuntime.java:123-131 | a new lock with a new `ReentrantLock` exactly when synchronised, else null; new intake, selector and limiter, the intake with the original's number of legs and receiver kinds; the new limiter holds that lock and the shared context and is not started |
| `CoreQuery.QueryRuntime.BuildClone` | modules/siddhi-core/src/main/java/io/siddhi/core/query/QueryRuntime.java:133-137 | a new runtime over the given stages sharing query, callback, metadata, flag and context; it is wired and every receiver of the new intake holds the lock |
| `CoreQuery.QueryRuntime.BindCloneDelivery` | modules/siddhi-core/src/main/java/io/siddhi/core/query/QueryRuntime.java:139-150 | the clone's `toLocalStream` becomes the original's; its callback is the original's when output is external, else a new callback for `key`; the limiter's callback is the same object (wiring kept); the limiter is started |
| `CoreQuery.ClonePartitions` | modules/siddhi-core/src/main/java/io/siddhi/core/query/QueryRuntime.java:121-153 | two clones for two keys are distinct and own distinct intakes, selectors and limiters (and distinct locks when synchronised); with external output both and their limiters hold the prototype's callback, with local output their callbacks differ from each other and from the prototype's; the prototype is unchanged |
| `CoreStages.StreamRuntime.Clone` | modules/siddhi-core/src/main/java/io/siddhi/core/query/QueryRuntime.java:128 | a new intake with the same number of legs, each leg and receiver new and of the same kind as the one it copies, with no common processor |
| `CoreStages.QuerySelector.Clone` | modules/siddhi-core/src/main/java/io/siddhi/core/query/QueryRuntime.java:129 | a new selector with no next processor |
| `CoreStages.OutputRateLimiter.Clone` | modules/siddhi-core/src/main/java/io/siddhi/core/query/QueryRuntime.java:130 | a new limiter that is not started |
| `CoreStages.OutputRateLimiter.Init` | modules/siddhi-core/src/main/java/io/siddhi/core/query/QueryRuntime.java:131 | the limiter holds exactly the given lock (or null) and the given context |
| `CoreStages.ConstructOutputCallback` | modules/siddhi-core/src/main/java/io/siddhi/core/query/QueryRuntime.java:145-146 | a new callback tagged with the partition key, for the given output stream and definition; only the junction registry may change |
| `CoreStages.InitStreamRuntime` | modules/siddhi-core/src/main/java/io/siddhi/core/query/QueryRuntime.java:136-137 | every receiver of the intake holds the given lock; no other field changes |
| `CoreStages.OutputRateLimiter.SetOutputCallback` | modules/siddhi-core/src/main/java/io/siddhi/core/query/QueryRuntime.java:70 | the limiter's callback becomes the given one (possibly null) |
| `CoreStages.OutputRateLimiter.Start` | modules/siddhi-core/src/main/java/io/siddhi/core/query/QueryRuntime.java:150 | the limiter is started |
| `QueryApi.AllStreamIds` | modules/siddhi-core/src/main/java/io/siddhi/core/query/QueryRuntime.java:93 | a single input yields exactly its own id, a join its left id then its right id, a state input its ids in order; `LocalInputIffInnerId` relates these ids to the local-input test |
| `CoreQuery.QueryRuntime.GetQueryId` | modules/siddhi-core/src/main/java/io/siddhi/core/query/QueryRuntime.java:76-78 | the query id is the name of the query's context; `Clone` promises that a clone reports the same id |
| `CoreQuery.QueryRuntime.GetInputStreamId` | modules/siddhi-core/src/main/java/io/siddhi/core/query/QueryRuntime.java:92-94 | the ids are those of the query's input; for a state input, the query reads a local stream exactly when one of these ids has the `#` marker; `Clone` promises that a clone reports the same ids |
| `CoreQuery.QueryRuntime.IsToLocalStream` | modules/siddhi-core/src/main/java/io/siddhi/core/query/QueryRuntime.java:96-98 | returns the routing flag; `SetToLocalStream` makes it return the value set, and `Clone` promises that a clone reports the original's value |
| `CoreStages.OutputRateLimiter.AddQueryCallback` | modules/siddhi-core/src/main/java/io/siddhi/core/query/QueryRuntime.java:81 | the query callback is appended to the limiter's list, after the earlier ones |
| `CoreStages.QuerySelector.SetNextProcessor` | modules/siddhi-core/src/main/java/io/siddhi/core/query/QueryRuntime.java:157 | the selector's next processor becomes the given limiter |
| `CoreStages.StreamRuntime.SetCommonProcessor` | modules/siddhi-core/src/main/java/io/siddhi/core/query/QueryRuntime.java:186 | the intake's common processor becomes the given selector |
| `CoreStages.ProcessStreamReceiver.SetOutputRateLimiter` | modules/siddhi-core/src/main/java/io/siddhi/core/query/QueryRuntime.java:189-190 | a multi-process receiver holds the given limiter; only multi-process receivers may be called |
| `CoreStages.LockWrapper.SetLock` | modules/siddhi-core/src/main/java/io/siddhi/core/query/QueryRuntime.java:126 | the wrapper holds the given lock |
| `CoreStages.StreamRuntime.MultiReceivers` | modules/siddhi-core/src/main/java/io/siddhi/core/query/QueryRuntime.java:187-188 | the multi-process receivers are exactly the receivers of the intake that are multi-process receivers |

## Left out

- Mutual exclusion of `LockWrapper`/`ReentrantLock` (lines 125-126) is
  left out, because it is concurrency. A lock is an object identity only.
- The internals of `StreamRuntime.clone`, `QuerySelector.clone` and
  `OutputRateLimiter.clone` (lines 128-130) are not part of this model.
  Their bodies build minimal new objects, and the model assumes what their
  contracts promise:
  - each returns a new object and changes nothing that already existed;
  - the new intake has as many legs as the original, each leg and each
    receiver new and of the same kind as the one it copies, and no common
    processor (`c.commonProcessor == null`);
  - the new selector has no next processor (`c.nextProcessor == null`);
  - the new limiter is not started (`!c.started`). `CloneStages` passes this
    on as its own promise.
- `OutputParser.constructOutputCallback` (lines 145-146) is not modelled
  beyond its result. The model assumes that it returns a new callback
  tagged with the key, for the given output stream and definition, and that
  it may change the junction registry and nothing else. How it looks up and
  creates the key-qualified junction is not modelled.
- The bodies of the collaborators' setters are not part of this model:
  `OutputRateLimiter.init` (line 131), `setOutputCallback` (lines 70, 142
  and 147), `start` (line 150), `addQueryCallback` (line 81),
  `QuerySelector.setNextProcessor` (line 157),
  `StreamRuntime.setCommonProcessor` (line 186),
  `MultiProcessStreamReceiver.setOutputRateLimiter` (line 190) and
  `LockWrapper.setLock` (line 126). The model assumes that each stores its
  argument in one field (`addQueryCallback` appends it to a list) and
  changes nothing else. `Wired()` depends on this assumption, and so do
  `Clone`'s promises that its limiter holds the new lock and the shared
  context and is started.
- `QueryParserHelper.initStreamRuntime` (line 136) is not part of this
  model. Its only modelled effect is that each receiver of the clone's
  intake gets the lock, and its frame is only the receivers' lock field
  (`Receivers()`lockWrapper`). The model thus assumes that it leaves the
  intake's common processor and the multi-process receivers' limiter alone;
  it is given neither the selector nor the limiter. `Clone`'s promises
  `Wired()` and `IntakeHasLock` depend on this assumption. Its other
  initialisation of the receivers is left out.
- The cast in the join branch of `isFromLocalStream` (line 108) is not
  modelled. A join is a pair of single inputs, so its `ClassCastException`
  cannot happen.
- Event processing, dispatch to query callbacks (beyond the append that
  `addCallback` does) and `MemoryCalculable` are left out. They lie outside
  the assembly protocol.
- The getters that only return a field are plain field reads in the model:
  `getOutputRateManager`, `getOutputStreamDefinition`,
  `getSiddhiQueryContext`, `getStreamRuntime`, `getMetaComplexEvent`,
  `getQuery`, `getOutputCallback` and `getSelector`.
- Java's `null` references are modelled only where the code relies on
  them. The output callback may be absent. So may the metadata's output
  definition: `setMetaComplexEvent` (line 173) copies a `null` definition as
  is, and `clone` passes it on to the callback factory. The clone's lock is
  `null` for an unsynchronised query (line 123) and is passed on as `null`
  at lines 131 and 136. The collaborators' links that are set after
  construction are nullable as well: the limiter's callback, lock and
  context, the selector's next processor, the intake's common processor and
  a receiver's limiter and lock. The other fields and constructor arguments
  of `QueryRuntime` are non-null in the model. With a `null` stream runtime, selector, limiter
  or metadata the Java constructor fails with a `NullPointerException`
  (lines 70-73). A `null` query or query context is only stored by the
  constructor (lines 64 and 69); the failure comes later, in
  `isFromLocalStream` (line 105), `getInputStreamId` (line 93),
  `getQueryId` (line 77) or `clone`: line 137 for a `null` context, and
  line 145 for a `null` query when output is local. The model does not have
  these later failures.
- `CoreQuery.QueryRuntime.Clone`: the clone's output definition is read
  again from the shared metadata (lines 134 and 173), as in Java. It equals
  the original's definition only while the metadata's definition is the one
  the original read. `MetaComplexEvent.outputStreamDefinition` is mutable,
  so `Clone` promises the equality under that condition only.
- `QueryRuntime.streamRuntime`, `query`, `synchronised`,
  `siddhiQueryContext` and `selector` are `const`. The class assigns them
  only in its constructor. Code outside the class could not reassign them
  in Java either, because they are private.
