/** The records the streams API stores and exchanges with the StreamView page. */
module Api {
  import opened Wrappers

  /** A row of the stream table: the `Video` fields that come from the database. */
  datatype StreamRow = StreamRow(
    id: string,
    kind: string,  // the `type` column
    url: string,
    extractedId: string,
    title: string,
    smallImg: string,
    bigImg: string,
    active: bool,
    userId: string)

  datatype User = User(id: string, email: string)

  /** One (user, stream) upvote. */
  datatype Upvote = Upvote(userId: string, streamId: string)

  /** A listed stream as the client's `Video` interface reads it. */
  datatype Video = Video(stream: StreamRow, upvotes: int, haveUpvoted: bool)

  /** The per-creator current-stream row, with its stream included. */
  datatype ActiveStream = ActiveStream(userId: string, streamId: string, stream: Option<StreamRow>)

  /** The JSON body a client sends to create a stream; a field is None when it
      is absent or not a string. */
  datatype CreateBody = CreateBody(creatorId: Option<string>, url: Option<string>)

  /** What POST /api/streams answers. */
  datatype PostResponse =
    | Created(stream: StreamRow, hasUpvoted: bool, upvotes: int)
    | PostFailed(status: int, message: string)

  /** The outcome of a database call: its answer, or the exception it threw. */
  datatype Query<+T> = Answered(value: T) | Threw

  /** What GET /api/streams answers. `Unhandled` is the framework's reply
      when the handler rejects with an exception it does not catch. */
  datatype ListResponse =
    | Listing(streams: seq<Video>, activeStream: Option<ActiveStream>)
    | ListMessage(status: int, message: string)
    | Unhandled(status: int)

  /** What GET /api/streams/next answers: `{stream}` (possibly null) or a message. */
  datatype NextResponse =
    | NextStream(stream: Option<StreamRow>)
    | NextFailed(status: int, message: string)
    | NextUnhandled(status: int)
}
