/**
 * The part of Siddhi's query-language API that the query runtime inspects:
 * the shape of a query's input stream, its output stream and the query
 * object itself.  The input shape is a value; the query is an object that a
 * runtime and all of its partition clones share by reference.
 */
module QueryApi {

  /** Java's `String.startsWith(prefix)`. */
  function StartsWith(s: string, prefix: string): (r: bool)
    ensures r <==> |prefix| <= |s| && s[..|prefix|] == prefix
  {
    if prefix == [] then true
    else if s == [] then false
    else s[0] == prefix[0] && StartsWith(s[1..], prefix[1..])
  }

  /** The marker that names an engine-internal (inner) stream. */
  const InnerStreamFlag: string := "#"

  /** A stream id names an inner stream when it starts with the marker. */
  predicate IsInnerStreamId(id: string)
  {
    StartsWith(id, InnerStreamFlag)
  }

  lemma InnerStreamIdIsHashPrefixed(id: string)
    ensures IsInnerStreamId(id) <==> |id| > 0 && id[0] == '#'
  {
  }

  /** A single input stream: its id and the flag that marks it as inner. */
  datatype SingleInputStream = SingleInputStream(streamId: string, isInnerStream: bool)

  /**
   * The input of a query.  A join is a pair of single inputs; a state input
   * (pattern or sequence) is known here only by the ids of the streams it
   * reads.  `Other` stands for any further subclass of the Java type.
   */
  datatype InputStream =
    | Single(single: SingleInputStream)
    | Join(left: SingleInputStream, right: SingleInputStream)
    | State(stateStreamIds: seq<string>)
    | Other(otherStreamIds: seq<string>)

  /** The output target of a query (an `insert into` stream or similar). */
  datatype OutputStream = OutputStream(id: string)

  /**
   * `getAllStreamIds()` of an input stream: a single input's own id, a
   * join's left id then its right id, a state input's ids in order.
   */
  function AllStreamIds(input: InputStream): (ids: seq<string>)
    ensures input.Single? ==> ids == [input.single.streamId]
    ensures input.Join? ==> |ids| == 2 && ids[0] == input.left.streamId && ids[1] == input.right.streamId
    ensures input.State? ==> ids == input.stateStreamIds
  {
    match input
    case Single(s) => [s.streamId]
    case Join(l, r) => [l.streamId, r.streamId]
    case State(ids) => ids
    case Other(ids) => ids
  }

  /** Whether some id of the list names an inner stream, scanning from the front. */
  function HasInnerStreamId(ids: seq<string>): (r: bool)
    ensures r <==> exists i :: 0 <= i < |ids| && IsInnerStreamId(ids[i])
  {
    if ids == [] then false
    else IsInnerStreamId(ids[0]) || HasInnerStreamId(ids[1..])
  }

  /**
   * Whether a query with this input reads from an inner stream: a single
   * input by its flag, a join when either side's flag is set, a state input
   * when one of its stream ids carries the marker, any other shape never.
   */
  function IsLocalInput(input: InputStream): (r: bool)
    ensures input.State? ==>
              (r <==> exists i :: 0 <= i < |input.stateStreamIds| && IsInnerStreamId(input.stateStreamIds[i]))
    ensures input.Other? ==> !r
  {
    match input
    case Single(s) => s.isInnerStream
    case Join(l, r) => l.isInnerStream || r.isInnerStream
    case State(ids) => HasInnerStreamId(ids)
    case Other(_) => false
  }

  /** A single input whose inner flag agrees with the marker on its id. */
  predicate FlagMatchesId(s: SingleInputStream)
  {
    s.isInnerStream == IsInnerStreamId(s.streamId)
  }

  /**
   * For the three known shapes, when every single input's flag agrees with
   * its id, the input is local exactly when one of its stream ids carries
   * the inner-stream marker: flags and ids give the same answer.
   */
  lemma {:induction false} LocalInputIffInnerId(input: InputStream)
    requires !input.Other?
    requires input.Single? ==> FlagMatchesId(input.single)
    requires input.Join? ==> FlagMatchesId(input.left) && FlagMatchesId(input.right)
    ensures IsLocalInput(input) <==>
              exists i :: 0 <= i < |AllStreamIds(input)| && IsInnerStreamId(AllStreamIds(input)[i])
  {
    var ids := AllStreamIds(input);
    match input
    case Single(s) =>
      assert ids[0] == s.streamId;
    case Join(l, r) =>
      assert ids[0] == l.streamId && ids[1] == r.streamId;
    case State(_) =>
  }

  /** A two-way join whose left side is the inner stream `#inner_0` reads a local stream. */
  lemma JoinWithInnerLeftIsLocal()
    ensures IsLocalInput(Join(SingleInputStream("#inner_0", true), SingleInputStream("OuterStream", false)))
  {
  }

  /** A pattern over `OuterStream` and `#inner_1` reads a local stream; one over outer streams only does not. */
  lemma StateInputScenarios()
    ensures IsLocalInput(State(["OuterStream", "#inner_1"]))
    ensures !IsLocalInput(State(["OuterStream", "OtherStream"]))
  {
  }

  /**
   * A query definition.  It is read only: the runtime and its clones hold
   * the same object.
   */
  class Query {
    const inputStream: InputStream
    const outputStream: OutputStream

    constructor (inputStream: InputStream, outputStream: OutputStream)
      ensures this.inputStream == inputStream && this.outputStream == outputStream
    {
      this.inputStream := inputStream;
      this.outputStream := outputStream;
    }
  }
}
