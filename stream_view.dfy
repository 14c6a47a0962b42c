/** The state of the StreamView page (app/components/StreamView.tsx) and its
    handlers. Each handler takes the response of the request it awaits as a
    parameter. */
module StreamViewState {
  import opened Wrappers
  import opened Api
  import opened VideoUrl
  import opened Queue

  /** What `currentVideo` holds: null or undefined, the current-stream row of
      the listing (`json.activeStream`), or the row `next` answered with
      (`json.stream`). */
  datatype CurrentVideo = NoVideo | ActiveRow(row: ActiveStream) | NextRow(stream: StreamRow)

  /** The embed shown under the input: its `id` is undefined (None) when the
      link holds no "?v=". */
  datatype Preview = Hidden | Shown(videoId: Option<string>)

  /** The request a vote fires and forgets. */
  datatype VoteRequest = VoteRequest(path: string, streamId: string)

  const UpvotesPath: string := "/api/streams/upvotes"
  const DownvotesPath: string := "/api/streams/downvotes"

  /** `json.stream` of a parsed `next` response; a message has no `stream`. */
  function NextVideo(resp: NextResponse): (c: CurrentVideo)
    ensures c != NoVideo <==> resp.NextStream? && resp.stream.Some?
    ensures c != NoVideo ==> c == NextRow(resp.stream.value)
  {
    match resp
    case NextStream(Some(s)) => NextRow(s)
    case _ => NoVideo
  }

  class StreamView {
    const creatorId: string
    const playVideo: bool
    var inputLink: string
    var queue: seq<QueueItem>
    var currentVideo: CurrentVideo
    var isLoading: bool

    constructor(creatorId: string, playVideo: bool)
      ensures this.creatorId == creatorId && this.playVideo == playVideo
      ensures inputLink == "" && queue == [] && currentVideo == NoVideo && !isLoading
    {
      this.creatorId := creatorId;
      this.playVideo := playVideo;
      inputLink := "";
      queue := [];
      currentVideo := NoVideo;
      isLoading := false;
    }

    /** refreshStreams with the listing it fetched: the queue becomes the
        server's streams ordered by non-increasing upvotes. The comparator
        `a.upvotes < b.upvotes ? 1 : -1` never answers 0, so it is not a
        consistent comparator and ECMAScript leaves the whole order to the
        engine; the model assumes the engine still orders by votes and leaves
        only the order among equal counts open. A message carries no `streams`, so the
        `sort` throws; a 500 reply's body fails to parse or has no `streams`
        either. In both cases nothing is set. */
    method RefreshStreams(resp: ListResponse)
      modifies this
      ensures resp.Listing? ==> multiset(queue) == multiset(Items(resp.streams)) && ByVotesDesc(queue)
      ensures resp.Listing? ==> currentVideo == (if resp.activeStream.Some? then ActiveRow(resp.activeStream.value) else NoVideo)
      ensures !resp.Listing? ==> queue == old(queue) && currentVideo == old(currentVideo)
      ensures inputLink == old(inputLink) && isLoading == old(isLoading)
    {
      if resp.Listing? {
        var items := Items(resp.streams);
        SortOrdered(items);
        var sorted :| multiset(sorted) == multiset(items) && ByVotesDesc(sorted);
        queue := sorted;
        currentVideo := if resp.activeStream.Some? then ActiveRow(resp.activeStream.value) else NoVideo;
      }
    }

    /** The submit half of handleAddVideo: sets `isLoading` and sends the
        creator and the link. */
    method BeginAddVideo() returns (req: CreateBody)
      modifies this
      ensures req == CreateBody(Some(creatorId), Some(inputLink))
      ensures isLoading
      ensures queue == old(queue) && currentVideo == old(currentVideo) && inputLink == old(inputLink)
    {
      isLoading := true;
      req := CreateBody(Some(creatorId), Some(inputLink));
    }

    /** The second half of handleAddVideo: the response body, whatever it is,
        goes to the end of the queue; then the loading flag and the input are
        cleared. */
    method FinishAddVideo(resp: PostResponse)
      modifies this
      ensures queue == old(queue) + [ItemOf(resp)]
      ensures !isLoading && inputLink == ""
      ensures currentVideo == old(currentVideo)
    {
      queue := queue + [ItemOf(resp)];
      isLoading := false;
      inputLink := "";
    }

    /** handleVote: rewrites the entries with `id`, re-sorts by votes and
        sends the vote to the matching endpoint. */
    method HandleVote(id: string, isUpvote: bool) returns (req: VoteRequest)
      modifies this
      ensures queue == VoteQueue(old(queue), id, isUpvote)
      ensures |queue| == |old(queue)| && multiset(Ids(queue)) == multiset(Ids(old(queue)))
      ensures AllListed(old(queue)) ==> ByVotesDesc(queue)
      ensures req == VoteRequest(if isUpvote then UpvotesPath else DownvotesPath, id)
      ensures currentVideo == old(currentVideo) && isLoading == old(isLoading) && inputLink == old(inputLink)
    {
      queue := VoteQueue(queue, id, isUpvote);
      req := VoteRequest(if isUpvote then UpvotesPath else DownvotesPath, id);
    }

    /** playNextVideo with the `next` response. Its button is rendered only
        when `playVideo` holds, which is all that field decides; the handler
        itself does not read it. Nothing happens on an empty
        queue; otherwise `currentVideo` becomes `json.stream`. The `next`
        route catches nothing, so a query or delete that throws gives a 500
        with no JSON body; `data.json()` then throws and the video stays.
        Reports whether the request was sent. */
    method PlayNextVideo(resp: NextResponse) returns (fetched: bool)
      modifies this
      ensures fetched <==> |old(queue)| > 0
      ensures fetched && !resp.NextUnhandled? ==> currentVideo == NextVideo(resp)
      ensures !fetched || resp.NextUnhandled? ==> currentVideo == old(currentVideo)
      ensures queue == old(queue) && isLoading == old(isLoading) && inputLink == old(inputLink)
    {
      fetched := |queue| > 0;
      if fetched && !resp.NextUnhandled? {
        currentVideo := NextVideo(resp);
      }
    }

    /** The input's onChange. */
    method SetInputLink(link: string)
      modifies this
      ensures inputLink == link
      ensures queue == old(queue) && currentVideo == old(currentVideo) && isLoading == old(isLoading)
    {
      inputLink := link;
    }

    /** The preview: shown for a non-empty link that matches `YT_REGEX` while
        nothing is loading, with the id the server extracts from the same URL. */
    function PreviewOf(isYt: string -> bool): (p: Preview)
      reads this
      ensures p.Shown? <==> inputLink != "" && isYt(inputLink) && !isLoading
      ensures p.Shown? ==> p.videoId == ExtractedId(inputLink)
    {
      if inputLink != "" && isYt(inputLink) && !isLoading then Shown(ExtractedId(inputLink))
      else Hidden
    }
  }

  /** A link of the form `prefix + "?v=" + id` that matches `YT_REGEX`
      previews exactly `id`, the id the server stores for the same URL. */
  lemma PreviewOfCanonical(view: StreamView, isYt: string -> bool, prefix: string, id: string)
    requires view.inputLink == prefix + Separator + id
    requires Free(prefix, Separator) && Free(id, Separator)
    requires isYt(view.inputLink) && !view.isLoading
    ensures view.PreviewOf(isYt) == Shown(Some(id))
  {
    ExtractedIdOfCanonical(prefix, id);
  }
}
