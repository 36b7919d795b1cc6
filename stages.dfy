/**
 * The collaborators a query runtime wires together: the stream intake, the
 * selector, the output rate limiter, the delivery callbacks, the lock and
 * the query context.  Only the part of each that the runtime touches is
 * modelled; their internals are not.  The `Clone` methods say that they
 * return new objects and change nothing that already existed; the callback
 * factory returns a new callback and may change only the junction registry.
 */
module CoreStages {
  import opened QueryApi

  datatype Option<T> = None | Some(value: T)

  /** `SiddhiQueryContext`: per-query metadata shared by a runtime and its clones. */
  class SiddhiQueryContext {
    const name: string

    constructor (name: string)
      ensures this.name == name
    {
      this.name := name;
    }
  }

  /** `StreamDefinition`: the declared shape of the events a query emits. */
  class StreamDefinition {
    const id: string

    constructor (id: string)
      ensures this.id == id
    {
      this.id := id;
    }
  }

  /**
   * `MetaComplexEvent`: event metadata, from which the output definition is
   * read.  The definition may be absent (`null`); the runtime copies it as is.
   */
  class MetaComplexEvent {
    var outputStreamDefinition: StreamDefinition?

    constructor (outputStreamDefinition: StreamDefinition?)
      ensures this.outputStreamDefinition == outputStreamDefinition
    {
      this.outputStreamDefinition := outputStreamDefinition;
    }
  }

  /** `java.util.concurrent.locks.ReentrantLock`, as an identity only. */
  class ReentrantLock {
    constructor ()
    {
    }
  }

  /** `LockWrapper`: a named holder of a lock, set after construction. */
  class LockWrapper {
    const name: string
    var lock: ReentrantLock?

    constructor (name: string)
      ensures this.name == name && lock == null
    {
      this.name := name;
      lock := null;
    }

    method SetLock(lock: ReentrantLock)
      modifies this`lock
      ensures this.lock == lock
    {
      this.lock := lock;
    }
  }

  /**
   * `OutputCallback`: the terminal delivery stage.  A callback built for a
   * partition carries that partition's key; other callbacks carry none.
   */
  class OutputCallback {
    const partitionKey: Option<string>
    const outputStream: OutputStream
    const definition: StreamDefinition?

    constructor (partitionKey: Option<string>, outputStream: OutputStream, definition: StreamDefinition?)
      ensures this.partitionKey == partitionKey
      ensures this.outputStream == outputStream && this.definition == definition
    {
      this.partitionKey := partitionKey;
      this.outputStream := outputStream;
      this.definition := definition;
    }
  }

  /** `QueryCallback`: an auxiliary observer of a query's output. */
  class QueryCallback {
    constructor ()
    {
    }
  }

  /** The registry of internal stream junctions (`ConcurrentMap<String, StreamJunction>`), opaque here. */
  class StreamJunctionMap {
    constructor ()
    {
    }
  }

  /**
   * `OutputRateLimiter`: sits between the selector and the delivery
   * callback.  The runtime binds its callback, gives it a lock and the query
   * context, registers query callbacks on it and starts it.
   */
  class OutputRateLimiter {
    var outputCallback: OutputCallback?
    var lockWrapper: LockWrapper?
    var queryContext: SiddhiQueryContext?
    var queryCallbacks: seq<QueryCallback>
    var started: bool

    constructor ()
      ensures outputCallback == null && lockWrapper == null && queryContext == null
      ensures queryCallbacks == [] && !started
    {
      outputCallback, lockWrapper, queryContext := null, null, null;
      queryCallbacks := [];
      started := false;
    }

    method SetOutputCallback(outputCallback: OutputCallback?)
      modifies this`outputCallback
      ensures this.outputCallback == outputCallback
    {
      this.outputCallback := outputCallback;
    }

    method AddQueryCallback(callback: QueryCallback)
      modifies this`queryCallbacks
      ensures queryCallbacks == old(queryCallbacks) + [callback]
    {
      queryCallbacks := queryCallbacks + [callback];
    }

    /** `init(lockWrapper, siddhiQueryContext)`. */
    method Init(lockWrapper: LockWrapper?, queryContext: SiddhiQueryContext)
      modifies this`lockWrapper, this`queryContext
      ensures this.lockWrapper == lockWrapper && this.queryContext == queryContext
    {
      this.lockWrapper := lockWrapper;
      this.queryContext := queryContext;
    }

    method Start()
      modifies this`started
      ensures started
    {
      started := true;
    }

    /** `clone(key)`: a new limiter of the same policy, not yet started. */
    method Clone(key: string) returns (c: OutputRateLimiter)
      ensures fresh(c) && !c.started
    {
      c := new OutputRateLimiter();
    }
  }

  /** `QuerySelector`: the selection stage; its next processor is the rate limiter. */
  class QuerySelector {
    var nextProcessor: OutputRateLimiter?

    constructor ()
      ensures nextProcessor == null
    {
      nextProcessor := null;
    }

    method SetNextProcessor(next: OutputRateLimiter)
      modifies this`nextProcessor
      ensures nextProcessor == next
    {
      nextProcessor := next;
    }

    /** `clone(key)`: a new selector, not yet linked to a limiter. */
    method Clone(key: string) returns (c: QuerySelector)
      ensures fresh(c) && c.nextProcessor == null
    {
      c := new QuerySelector();
    }
  }

  /**
   * `ProcessStreamReceiver`: the entry of one single-stream runtime.  The
   * flag stands for `instanceof MultiProcessStreamReceiver`; only such a
   * receiver is told about the rate limiter.
   */
  class ProcessStreamReceiver {
    const isMultiProcess: bool
    var outputRateLimiter: OutputRateLimiter?
    var lockWrapper: LockWrapper?

    constructor (isMultiProcess: bool)
      ensures this.isMultiProcess == isMultiProcess
      ensures outputRateLimiter == null && lockWrapper == null
    {
      this.isMultiProcess := isMultiProcess;
      outputRateLimiter, lockWrapper := null, null;
    }

    /** `MultiProcessStreamReceiver.setOutputRateLimiter`. */
    method SetOutputRateLimiter(limiter: OutputRateLimiter)
      requires isMultiProcess
      modifies this`outputRateLimiter
      ensures outputRateLimiter == limiter
    {
      outputRateLimiter := limiter;
    }
  }

  /** `SingleStreamRuntime`: one single-stream leg of the intake. */
  class SingleStreamRuntime {
    const processStreamReceiver: ProcessStreamReceiver

    constructor (receiver: ProcessStreamReceiver)
      ensures processStreamReceiver == receiver
    {
      processStreamReceiver := receiver;
    }
  }

  /**
   * `StreamRuntime`: the stream intake, made of single-stream runtimes, with
   * a common processor (the selector) that they all feed.
   */
  class StreamRuntime {
    const singleStreamRuntimes: seq<SingleStreamRuntime>
    var commonProcessor: QuerySelector?

    constructor (singleStreamRuntimes: seq<SingleStreamRuntime>)
      ensures this.singleStreamRuntimes == singleStreamRuntimes && commonProcessor == null
    {
      this.singleStreamRuntimes := singleStreamRuntimes;
      commonProcessor := null;
    }

    /** The receivers of all single-stream runtimes. */
    ghost function Receivers(): set<ProcessStreamReceiver>
    {
      set i | 0 <= i < |singleStreamRuntimes| :: singleStreamRuntimes[i].processStreamReceiver
    }

    /** The receivers that are multi-process receivers. */
    ghost function MultiReceivers(): (rs: set<ProcessStreamReceiver>)
      ensures rs <= Receivers()
      ensures forall r :: r in rs ==> r.isMultiProcess
      ensures forall r :: r in Receivers() && r.isMultiProcess ==> r in rs
    {
      set i | 0 <= i < |singleStreamRuntimes| && singleStreamRuntimes[i].processStreamReceiver.isMultiProcess
        :: singleStreamRuntimes[i].processStreamReceiver
    }

    method SetCommonProcessor(selector: QuerySelector)
      modifies this`commonProcessor
      ensures commonProcessor == selector
    {
      commonProcessor := selector;
    }

    /**
     * `clone(key)`: a new intake with the same legs, each leg and each
     * receiver new, each receiver of the same kind as the one it copies.
     */
    method Clone(key: string) returns (c: StreamRuntime)
      ensures fresh(c) && c.commonProcessor == null
      ensures |c.singleStreamRuntimes| == |singleStreamRuntimes|
      ensures forall i :: 0 <= i < |c.singleStreamRuntimes| ==>
                fresh(c.singleStreamRuntimes[i]) &&
                fresh(c.singleStreamRuntimes[i].processStreamReceiver) &&
                c.singleStreamRuntimes[i].processStreamReceiver.isMultiProcess ==
                singleStreamRuntimes[i].processStreamReceiver.isMultiProcess
      ensures fresh(c.Receivers())
    {
      var legs: seq<SingleStreamRuntime> := [];
      var i := 0;
      while i < |singleStreamRuntimes|
        invariant 0 <= i <= |singleStreamRuntimes| && |legs| == i
        invariant forall j :: 0 <= j < i ==>
                    fresh(legs[j]) && fresh(legs[j].processStreamReceiver) &&
                    legs[j].processStreamReceiver.isMultiProcess ==
                    singleStreamRuntimes[j].processStreamReceiver.isMultiProcess
      {
        var receiver := new ProcessStreamReceiver(singleStreamRuntimes[i].processStreamReceiver.isMultiProcess);
        var leg := new SingleStreamRuntime(receiver);
        legs := legs + [leg];
        i := i + 1;
      }
      c := new StreamRuntime(legs);
    }
  }

  /**
   * Two intakes have the same structure: as many legs, and at each position
   * a receiver of the same kind.
   */
  predicate SameReceiverKinds(a: StreamRuntime, b: StreamRuntime)
  {
    && |a.singleStreamRuntimes| == |b.singleStreamRuntimes|
    && forall i :: 0 <= i < |a.singleStreamRuntimes| ==>
         a.singleStreamRuntimes[i].processStreamReceiver.isMultiProcess ==
         b.singleStreamRuntimes[i].processStreamReceiver.isMultiProcess
  }

  /** Every receiver of the intake holds this lock (or none, for `null`). */
  ghost predicate IntakeHasLock(streamRuntime: StreamRuntime, lockWrapper: LockWrapper?)
    reads streamRuntime.Receivers()`lockWrapper
  {
    forall r :: r in streamRuntime.Receivers() ==> r.lockWrapper == lockWrapper
  }

  /**
   * `OutputParser.constructOutputCallback` for a partition: a new callback
   * for the query's output stream, tagged with the partition key.  It may
   * look up or create a junction in the registry, which is not modelled.
   */
  method ConstructOutputCallback(outputStream: OutputStream, key: string, junctions: StreamJunctionMap,
                                 definition: StreamDefinition?, queryContext: SiddhiQueryContext)
    returns (cb: OutputCallback)
    modifies junctions
    ensures fresh(cb)
    ensures cb.partitionKey == Some(key)
    ensures cb.outputStream == outputStream && cb.definition == definition
  {
    cb := new OutputCallback(Some(key), outputStream, definition);
  }

  /**
   * `QueryParserHelper.initStreamRuntime`, reduced to the one effect the
   * runtime relies on: every receiver of the intake is given the lock.
   * Nothing outside the receivers' lock field changes.
   */
  method InitStreamRuntime(streamRuntime: StreamRuntime, metaComplexEvent: MetaComplexEvent,
                           lockWrapper: LockWrapper?, queryName: string)
    modifies streamRuntime.Receivers()`lockWrapper
    ensures IntakeHasLock(streamRuntime, lockWrapper)
  {
    var i := 0;
    while i < |streamRuntime.singleStreamRuntimes|
      invariant 0 <= i <= |streamRuntime.singleStreamRuntimes|
      invariant forall j :: 0 <= j < i ==>
                  streamRuntime.singleStreamRuntimes[j].processStreamReceiver.lockWrapper == lockWrapper
    {
      var receiver := streamRuntime.singleStreamRuntimes[i].processStreamReceiver;
      receiver.lockWrapper := lockWrapper;
      i := i + 1;
    }
  }
}
