/**
 * Siddhi's `QueryRuntime`: the holder of one query's pipeline (stream
 * intake -> selector -> output rate limiter -> output callback).  It wires
 * the stages together when it is built and duplicates the whole pipeline
 * for a partition key.
 */
module CoreQuery {
  import opened QueryApi
  import opened CoreStages

  class QueryRuntime {
    // Assigned only by the constructor.
    const streamRuntime: StreamRuntime
    const query: Query
    const synchronised: bool
    const siddhiQueryContext: SiddhiQueryContext
    const selector: QuerySelector
    // Assigned by the setters, or by `Clone` on the runtime it builds.
    var outputRateLimiter: OutputRateLimiter
    var outputCallback: OutputCallback?
    var outputStreamDefinition: StreamDefinition?
    var toLocalStream: bool
    var metaComplexEvent: MetaComplexEvent

    /**
     * The pipeline is wired: the selector feeds the bound limiter, the
     * limiter delivers to the runtime's callback, the intake feeds the
     * selector, and every multi-process receiver knows the bound limiter.
     */
    ghost predicate Wired()
      reads this, selector`nextProcessor, outputRateLimiter`outputCallback, streamRuntime`commonProcessor
      reads streamRuntime.MultiReceivers()`outputRateLimiter
    {
      && selector.nextProcessor == outputRateLimiter
      && outputRateLimiter.outputCallback == outputCallback
      && streamRuntime.commonProcessor == selector
      && forall r :: r in streamRuntime.MultiReceivers() ==> r.outputRateLimiter == outputRateLimiter
    }

    /**
     * Builds the runtime and wires the pipeline.  The limiter is given the
     * callback, then bound (which links the selector to it), the output
     * definition is read from the metadata, then `Init` links the intake.
     */
    constructor (query: Query, streamRuntime: StreamRuntime, selector: QuerySelector,
                 outputRateLimiter: OutputRateLimiter, outputCallback: OutputCallback?,
                 metaComplexEvent: MetaComplexEvent, synchronised: bool,
                 siddhiQueryContext: SiddhiQueryContext)
      modifies outputRateLimiter`outputCallback, selector`nextProcessor, streamRuntime`commonProcessor
      modifies streamRuntime.MultiReceivers()`outputRateLimiter
      ensures this.query == query && this.streamRuntime == streamRuntime && this.selector == selector
      ensures this.outputRateLimiter == outputRateLimiter && this.outputCallback == outputCallback
      ensures this.synchronised == synchronised && this.siddhiQueryContext == siddhiQueryContext
      ensures this.metaComplexEvent == metaComplexEvent
      ensures this.outputStreamDefinition == metaComplexEvent.outputStreamDefinition
      ensures !toLocalStream
      ensures Wired()
    {
      this.query := query;
      this.streamRuntime := streamRuntime;
      this.selector := selector;
      this.outputCallback := outputCallback;
      this.synchronised := synchronised;
      this.siddhiQueryContext := siddhiQueryContext;
      // Dafny wants every field set before `new`; the setters below set
      // these three again, as the Java constructor does through them.
      this.outputRateLimiter := outputRateLimiter;
      this.metaComplexEvent := metaComplexEvent;
      this.outputStreamDefinition := metaComplexEvent.outputStreamDefinition;
      this.toLocalStream := false;
      new;
      outputRateLimiter.SetOutputCallback(outputCallback);
      SetOutputRateLimiter(outputRateLimiter);
      SetMetaComplexEvent(metaComplexEvent);
      Init();
    }

    /** Binds the limiter and links the selector to it in the same step. */
    method SetOutputRateLimiter(limiter: OutputRateLimiter)
      modifies this`outputRateLimiter, selector`nextProcessor
      ensures outputRateLimiter == limiter && selector.nextProcessor == limiter
    {
      outputRateLimiter := limiter;
      selector.SetNextProcessor(limiter);
    }

    /** Stores the metadata and the output definition it declares. */
    method SetMetaComplexEvent(meta: MetaComplexEvent)
      modifies this`outputStreamDefinition, this`metaComplexEvent
      ensures outputStreamDefinition == meta.outputStreamDefinition && metaComplexEvent == meta
    {
      outputStreamDefinition := meta.outputStreamDefinition;
      metaComplexEvent := meta;
    }

    /**
     * Makes the selector the intake's common processor and points every
     * multi-process receiver at the bound limiter.  Other receivers are
     * outside the frame, so they are left as they were.
     */
    method Init()
      modifies streamRuntime`commonProcessor, streamRuntime.MultiReceivers()`outputRateLimiter
      ensures streamRuntime.commonProcessor == selector
      ensures forall r :: r in streamRuntime.MultiReceivers() ==> r.outputRateLimiter == outputRateLimiter
    {
      streamRuntime.SetCommonProcessor(selector);
      var legs := streamRuntime.singleStreamRuntimes;
      var i := 0;
      while i < |legs|
        invariant 0 <= i <= |legs|
        invariant streamRuntime.commonProcessor == selector
        invariant forall j :: 0 <= j < i && legs[j].processStreamReceiver.isMultiProcess ==>
                    legs[j].processStreamReceiver.outputRateLimiter == outputRateLimiter
      {
        var receiver := legs[i].processStreamReceiver;
        if receiver.isMultiProcess {
          receiver.SetOutputRateLimiter(outputRateLimiter);
        }
        i := i + 1;
      }
    }

    /** `getQueryId()`: the query's name, from its context. */
    function GetQueryId(): (id: string)
      reads this
      ensures id == siddhiQueryContext.name
    {
      siddhiQueryContext.name
    }

    /** `getInputStreamId()`: the ids of the streams the query reads. */
    function GetInputStreamId(): (ids: seq<string>)
      reads this
      ensures ids == AllStreamIds(query.inputStream)
      ensures query.inputStream.State? ==> (IsLocalInput(query.inputStream) <==> HasInnerStreamId(ids))
    {
      AllStreamIds(query.inputStream)
    }

    /** `isToLocalStream()`: whether the query writes to an inner stream. */
    function IsToLocalStream(): (r: bool)
      reads this
      ensures r == toLocalStream
    {
      toLocalStream
    }

    method SetToLocalStream(toLocalStream: bool)
      modifies this`toLocalStream
      ensures IsToLocalStream() == toLocalStream
    {
      this.toLocalStream := toLocalStream;
    }

    /** Registers a query callback on the bound limiter. */
    method AddCallback(callback: QueryCallback)
      modifies outputRateLimiter`queryCallbacks
      ensures outputRateLimiter.queryCallbacks == old(outputRateLimiter.queryCallbacks) + [callback]
    {
      outputRateLimiter.AddQueryCallback(callback);
    }

    /**
     * Whether the query reads from an inner stream.  The state case scans
     * the stream ids and stops at the first one with the inner marker.
     */
    method IsFromLocalStream() returns (r: bool)
      ensures r == IsLocalInput(query.inputStream)
    {
      match query.inputStream
      case Single(s) =>
        r := s.isInnerStream;
      case Join(left, right) =>
        r := left.isInnerStream || right.isInnerStream;
      case State(_) =>
        var ids := AllStreamIds(query.inputStream);
        var i := 0;
        while i < |ids|
          invariant 0 <= i <= |ids|
          invariant forall j :: 0 <= j < i ==> !IsInnerStreamId(ids[j])
        {
          if StartsWith(ids[i], InnerStreamFlag) {
            return true;
          }
          i := i + 1;
        }
        r := false;
      case Other(_) =>
        r := false;
    }

    /**
     * The first steps of `Clone`: a new lock exactly when the query is
     * synchronised, new stages for `key`, and the new limiter initialised
     * with that lock and the shared context.
     */
    method CloneStages(key: string)
      returns (lockWrapper: LockWrapper?, clonedStreamRuntime: StreamRuntime,
               clonedSelector: QuerySelector, clonedOutputRateLimiter: OutputRateLimiter)
      ensures synchronised ==> lockWrapper != null && fresh(lockWrapper) && lockWrapper.lock != null && fresh(lockWrapper.lock)
      ensures !synchronised ==> lockWrapper == null
      ensures fresh(clonedStreamRuntime) && fresh(clonedStreamRuntime.Receivers()) && clonedStreamRuntime.commonProcessor == null
      ensures SameReceiverKinds(clonedStreamRuntime, streamRuntime)
      ensures fresh(clonedSelector) && fresh(clonedOutputRateLimiter)
      ensures clonedOutputRateLimiter.lockWrapper == lockWrapper
      ensures clonedOutputRateLimiter.queryContext == siddhiQueryContext
      ensures !clonedOutputRateLimiter.started
    {
      lockWrapper := null;
      if synchronised {
        lockWrapper := new LockWrapper("");
        var lock := new ReentrantLock();
        lockWrapper.SetLock(lock);
      }
      clonedStreamRuntime := streamRuntime.Clone(key);
      clonedSelector := selector.Clone(key);
      clonedOutputRateLimiter := outputRateLimiter.Clone(key);
      clonedOutputRateLimiter.Init(lockWrapper, siddhiQueryContext);
    }

    /**
     * Duplicates the pipeline for partition `key`.  The clone has its own
     * intake, selector and limiter, a lock of its own exactly when the
     * query is synchronised, the same query, metadata, context and routing
     * flag, and a delivery callback that is the original's when output is
     * external and a new one for `key` when output goes to an inner stream.
     * Its limiter is started and its pipeline is wired.  Nothing that
     * existed before the call changes, except the junction registry.
     */
    method Clone(key: string, localStreamJunctionMap: StreamJunctionMap) returns (queryRuntime: QueryRuntime)
      modifies localStreamJunctionMap
      ensures fresh(queryRuntime)
      ensures fresh(queryRuntime.streamRuntime) && fresh(queryRuntime.streamRuntime.Receivers())
      ensures fresh(queryRuntime.selector) && fresh(queryRuntime.outputRateLimiter)
      ensures SameReceiverKinds(queryRuntime.streamRuntime, streamRuntime)
      // shared definition state, copied flags
      ensures queryRuntime.query == query && queryRuntime.metaComplexEvent == metaComplexEvent
      ensures queryRuntime.synchronised == synchronised && queryRuntime.siddhiQueryContext == siddhiQueryContext
      ensures queryRuntime.outputStreamDefinition == metaComplexEvent.outputStreamDefinition
      ensures outputStreamDefinition == metaComplexEvent.outputStreamDefinition ==>
                queryRuntime.outputStreamDefinition == outputStreamDefinition
      ensures queryRuntime.toLocalStream == toLocalStream
      ensures queryRuntime.GetQueryId() == GetQueryId() && queryRuntime.GetInputStreamId() == GetInputStreamId()
      ensures queryRuntime.IsToLocalStream() == IsToLocalStream()
      // the lock: new exactly for a synchronised query, given to the limiter and the intake
      ensures synchronised ==>
                var lw := queryRuntime.outputRateLimiter.lockWrapper;
                lw != null && fresh(lw) && lw.lock != null && fresh(lw.lock)
      ensures !synchronised ==> queryRuntime.outputRateLimiter.lockWrapper == null
      ensures IntakeHasLock(queryRuntime.streamRuntime, queryRuntime.outputRateLimiter.lockWrapper)
      ensures queryRuntime.outputRateLimiter.queryContext == siddhiQueryContext
      // delivery: shared when external, new for the key when local
      ensures !toLocalStream ==> queryRuntime.outputCallback == outputCallback
      ensures toLocalStream ==>
                && queryRuntime.outputCallback != null && fresh(queryRuntime.outputCallback)
                && queryRuntime.outputCallback.partitionKey == Some(key)
                && queryRuntime.outputCallback.outputStream == query.outputStream
                && queryRuntime.outputCallback.definition == outputStreamDefinition
      ensures queryRuntime.Wired() && queryRuntime.outputRateLimiter.started
      ensures unchanged(this)
    {
      var lockWrapper, clonedStreamRuntime, clonedSelector, clonedOutputRateLimiter := CloneStages(key);

      queryRuntime := BuildClone(lockWrapper, clonedStreamRuntime, clonedSelector, clonedOutputRateLimiter);
      BindCloneDelivery(queryRuntime, key, localStreamJunctionMap);
    }

    /**
     * The middle steps of `Clone`: a runtime over the new stages that shares
     * this one's query, callback, metadata, flag and context, then the new
     * intake initialised with the new lock.
     */
    method BuildClone(lockWrapper: LockWrapper?, clonedStreamRuntime: StreamRuntime,
                      clonedSelector: QuerySelector, clonedOutputRateLimiter: OutputRateLimiter)
      returns (queryRuntime: QueryRuntime)
      modifies clonedOutputRateLimiter`outputCallback, clonedSelector`nextProcessor
      modifies clonedStreamRuntime`commonProcessor, clonedStreamRuntime.MultiReceivers()`outputRateLimiter
      modifies clonedStreamRuntime.Receivers()`lockWrapper
      ensures fresh(queryRuntime)
      ensures queryRuntime.streamRuntime == clonedStreamRuntime && queryRuntime.selector == clonedSelector
      ensures queryRuntime.outputRateLimiter == clonedOutputRateLimiter
      ensures queryRuntime.query == query && queryRuntime.metaComplexEvent == metaComplexEvent
      ensures queryRuntime.synchronised == synchronised && queryRuntime.siddhiQueryContext == siddhiQueryContext
      ensures queryRuntime.outputStreamDefinition == metaComplexEvent.outputStreamDefinition
      ensures queryRuntime.outputCallback == outputCallback
      ensures queryRuntime.Wired() && IntakeHasLock(clonedStreamRuntime, lockWrapper)
    {
      queryRuntime := new QueryRuntime(query, clonedStreamRuntime, clonedSelector,
                                       clonedOutputRateLimiter, outputCallback, metaComplexEvent,
                                       synchronised, siddhiQueryContext);
      InitStreamRuntime(clonedStreamRuntime, metaComplexEvent, lockWrapper, siddhiQueryContext.name);
    }

    /**
     * The last steps of `Clone` on the new runtime: copy the routing flag,
     * bind the original's callback when output is external or a new one for
     * `key` when it goes to an inner stream, and start the limiter.
     */
    method BindCloneDelivery(queryRuntime: QueryRuntime, key: string, localStreamJunctionMap: StreamJunctionMap)
      requires queryRuntime != this && queryRuntime.Wired()
      modifies queryRuntime`toLocalStream, queryRuntime`outputCallback
      modifies queryRuntime.outputRateLimiter`outputCallback, queryRuntime.outputRateLimiter`started
      modifies localStreamJunctionMap
      ensures queryRuntime.toLocalStream == toLocalStream
      ensures !toLocalStream ==> queryRuntime.outputCallback == outputCallback
      ensures toLocalStream ==>
                && queryRuntime.outputCallback != null && fresh(queryRuntime.outputCallback)
                && queryRuntime.outputCallback.partitionKey == Some(key)
                && queryRuntime.outputCallback.outputStream == query.outputStream
                && queryRuntime.outputCallback.definition == outputStreamDefinition
      ensures queryRuntime.Wired() && queryRuntime.outputRateLimiter.started
    {
      queryRuntime.SetToLocalStream(toLocalStream);

      if !toLocalStream {
        queryRuntime.outputRateLimiter.SetOutputCallback(outputCallback);
        queryRuntime.outputCallback := outputCallback;
      } else {
        var clonedQueryOutputCallback := ConstructOutputCallback(query.outputStream, key, localStreamJunctionMap,
                                                                 outputStreamDefinition, siddhiQueryContext);
        queryRuntime.outputRateLimiter.SetOutputCallback(clonedQueryOutputCallback);
        queryRuntime.outputCallback := clonedQueryOutputCallback;
      }
      queryRuntime.outputRateLimiter.Start();
    }
  }

  /**
   * Two partitions of one query: their stages and locks are their own, and
   * their delivery callback is the prototype's when output is external and
   * one of their own when output goes to an inner stream.
   */
  method ClonePartitions(prototype: QueryRuntime, keyA: string, keyB: string, junctions: StreamJunctionMap)
    returns (a: QueryRuntime, b: QueryRuntime)
    modifies junctions
    ensures a != b && a.selector != b.selector && a.outputRateLimiter != b.outputRateLimiter
    ensures a.streamRuntime != b.streamRuntime
    ensures prototype.synchronised ==> a.outputRateLimiter.lockWrapper != b.outputRateLimiter.lockWrapper
    ensures !prototype.toLocalStream ==>
              && a.outputCallback == prototype.outputCallback && b.outputCallback == prototype.outputCallback
              && a.outputRateLimiter.outputCallback == prototype.outputCallback
              && b.outputRateLimiter.outputCallback == prototype.outputCallback
    ensures prototype.toLocalStream ==>
              && a.outputCallback != b.outputCallback
              && a.outputCallback != prototype.outputCallback && b.outputCallback != prototype.outputCallback
    ensures unchanged(prototype)
  {
    a := prototype.Clone(keyA, junctions);
    b := prototype.Clone(keyB, junctions);
  }
}
