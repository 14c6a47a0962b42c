/** The POST and GET handlers of app/api/streams/route.ts. The database, the
    session, the YouTube lookup and `YT_REGEX` are parameters. */
module StreamsRoute {
  import opened Wrappers
  import opened Api
  import opened VideoUrl

  /** One entry of `res.thumbnail.thumbnails`; `url` may be missing. */
  datatype Thumbnail = Thumbnail(width: int, url: Option<string>)

  /** The part of the lookup's answer the handler reads. */
  datatype VideoDetails = VideoDetails(title: Option<string>, thumbnails: seq<Thumbnail>)

  /** A body that passed `CreateStreamSchema`. */
  datatype CreateRequest = CreateRequest(creatorId: string, url: string)

  /** The `data` handed to `stream.create`; `extractedId` is undefined (None)
      when the URL holds no "?v=". */
  datatype StreamData = StreamData(
    userId: string,
    url: string,
    extractedId: Option<string>,
    kind: string,
    title: string,
    smallImg: string,
    bigImg: string)

  datatype Images = Images(small: string, big: string)

  const ErrorMessage: string := "An error occured"
  const InvalidUrlMessage: string := "Invalid url"
  const YoutubeType: string := "Youtube"

  /** `CreateStreamSchema.parse`: both fields must be strings; otherwise it
      throws. */
  function ParseCreateBody(body: Option<CreateBody>): (r: Option<CreateRequest>)
    ensures r.Some? <==> body.Some? && body.value.creatorId.Some? && body.value.url.Some?
    ensures r.Some? ==> r.value.creatorId == body.value.creatorId.value && r.value.url == body.value.url.value
  {
    match body
    case Some(CreateBody(Some(creatorId), Some(url))) => Some(CreateRequest(creatorId, url))
    case _ => None
  }

  // ---- thumbnails ----

  predicate AscendingByWidth(s: seq<Thumbnail>)
  {
    forall i, j :: 0 <= i < j < |s| ==> s[i].width <= s[j].width
  }

  /** `s` is `t` after the in-place ascending sort by width. The comparator
      never answers 0, so it is not consistent and ECMAScript leaves the whole
      order to the engine; the model assumes the engine still sorts by width
      and leaves only the order among equal widths open. */
  predicate ArrangedByWidth(s: seq<Thumbnail>, t: seq<Thumbnail>)
  {
    multiset(s) == multiset(t) && AscendingByWidth(s)
  }

  /** `thumbnails.sort((a, b) => a.width < b.width ? -1 : 1)`, in place, as
      an insertion sort. */
  method SortByWidth(a: array<Thumbnail>)
    modifies a
    ensures ArrangedByWidth(a[..], old(a[..]))
  {
    var i := 0;
    while i < a.Length
      invariant 0 <= i <= a.Length
      invariant multiset(a[..]) == multiset(old(a[..]))
      invariant AscendingByWidth(a[..i])
    {
      InsertAt(a, i);
      i := i + 1;
    }
    assert a[..a.Length] == a[..];
  }

  /** Moves `a[i]` left into the sorted prefix `a[..i]`. */
  method InsertAt(a: array<Thumbnail>, i: nat)
    requires i < a.Length && AscendingByWidth(a[..i])
    modifies a
    ensures AscendingByWidth(a[..i + 1])
    ensures multiset(a[..]) == multiset(old(a[..]))
  {
    var j := i;
    while j > 0 && a[j - 1].width > a[j].width
      invariant 0 <= j <= i
      invariant multiset(a[..]) == multiset(old(a[..]))
      invariant forall k, l :: 0 <= k < l <= i && k != j && l != j ==> a[k].width <= a[l].width
      invariant forall l :: j < l <= i ==> a[j].width < a[l].width
    {
      SwapDown(a, j);
      j := j - 1;
    }
  }

  /** Exchanges `a[j - 1]` and `a[j]`. */
  method SwapDown(a: array<Thumbnail>, j: nat)
    requires 0 < j < a.Length
    modifies a
    ensures a[j - 1] == old(a[j]) && a[j] == old(a[j - 1])
    ensures forall k :: 0 <= k < a.Length && k != j - 1 && k != j ==> a[k] == old(a[k])
    ensures multiset(a[..]) == multiset(old(a[..]))
  {
    a[j - 1], a[j] := a[j], a[j - 1];
  }

  /** `thumbnail.url ?? ""`. */
  function UrlOrEmpty(t: Thumbnail): (r: string)
    ensures t.url.Some? ==> r == t.url.value
    ensures t.url.None? ==> r == ""
  {
    t.url.GetOr("")
  }

  /** `smallImg` and `bigImg` from the sorted list: the last entry is big, the
      one before it small (the last again when there is only one). Indexing
      `thumbnails[-1]` of an empty list throws: None. */
  function PickImages(s: seq<Thumbnail>): (r: Option<Images>)
    ensures r.None? <==> s == []
    ensures r.Some? ==> r.value.big == UrlOrEmpty(s[|s| - 1])
    ensures r.Some? ==> r.value.small == UrlOrEmpty(s[if |s| > 1 then |s| - 2 else |s| - 1])
  {
    if |s| == 0 then None
    else
      var last := s[|s| - 1];
      var small := if |s| > 1 then s[|s| - 2] else last;
      Some(Images(UrlOrEmpty(small), UrlOrEmpty(last)))
  }

  /** The last entry of a sorted rearrangement is at least as wide as every
      entry of the original list. */
  lemma LastIsWidest(t: seq<Thumbnail>, s: seq<Thumbnail>)
    requires ArrangedByWidth(s, t) && s != []
    ensures s[|s| - 1] in multiset(t)
    ensures forall x | x in t :: x.width <= s[|s| - 1].width
  {
    assert s[|s| - 1] in multiset(s);
    forall x | x in t ensures x.width <= s[|s| - 1].width {
      assert x in multiset(s);
      var k :| 0 <= k < |s| && s[k] == x;
    }
  }

  /** The second-to-last entry of a sorted rearrangement is at least as wide
      as every entry left once the last one is taken out. */
  lemma SecondIsWidestOfRest(t: seq<Thumbnail>, s: seq<Thumbnail>)
    requires ArrangedByWidth(s, t) && |s| >= 2
    ensures s[|s| - 2] in multiset(t) - multiset{s[|s| - 1]}
    ensures forall x | x in multiset(t) - multiset{s[|s| - 1]} :: x.width <= s[|s| - 2].width
  {
    var init := s[..|s| - 1];
    var last := s[|s| - 1];
    assert s == init + [last];
    assert multiset(s) == multiset(init) + multiset{last};
    assert multiset(t) - multiset{last} == multiset(init);
    AscendingInit(s);
    LastIsWidest(init, init);
    assert init[|init| - 1] == s[|s| - 2];
  }

  /** Dropping the last entry keeps a list sorted by width. */
  lemma AscendingInit(s: seq<Thumbnail>)
    requires AscendingByWidth(s) && s != []
    ensures AscendingByWidth(s[..|s| - 1])
  {
  }

  /** After the sort, `bigImg` is the URL of a widest thumbnail and `smallImg`
      that of a widest one among the rest (the same one when there is only
      one). */
  lemma PickedWidest(t: seq<Thumbnail>, s: seq<Thumbnail>)
    requires ArrangedByWidth(s, t) && t != []
    ensures
      var big := s[|s| - 1];
      && big in multiset(t)
      && (forall x | x in t :: x.width <= big.width)
      && PickImages(s).value.big == UrlOrEmpty(big)
    ensures |t| == 1 ==> PickImages(s).value.small == PickImages(s).value.big
    ensures |t| >= 2 ==>
      var big := s[|s| - 1];
      var small := s[|s| - 2];
      var rest := multiset(t) - multiset{big};
      && small in rest
      && (forall x | x in rest :: x.width <= small.width)
      && PickImages(s).value.small == UrlOrEmpty(small)
  {
    assert |s| == |multiset(s)| == |t|;
    LastIsWidest(t, s);
    if |s| >= 2 {
      SecondIsWidestOfRest(t, s);
    }
  }

  // ---- POST ----

  /** What the handler hands to `stream.create` for a valid request. */
  ghost predicate RecordFor(d: StreamData, req: CreateRequest, details: VideoDetails)
  {
    && d.userId == req.creatorId
    && d.url == req.url
    && d.extractedId == ExtractedId(req.url)
    && d.kind == YoutubeType
    && d.title == details.title.GetOr("")
    && exists s :: ArrangedByWidth(s, details.thumbnails) && PickImages(s) == Some(Images(d.smallImg, d.bigImg))
  }

  /** POST /api/streams. `isYt` is `url.match(YT_REGEX)`, `lookup` the
      YouTube lookup (None when it throws), `create` the insert (None when it
      throws). Also returns the record handed to `create`, if any. */
  method Post(
    body: Option<CreateBody>,
    isYt: string -> bool,
    lookup: Option<string> -> Option<VideoDetails>,
    create: StreamData -> Option<StreamRow>)
    returns (r: PostResponse, record: Option<StreamData>)
    ensures ParseCreateBody(body).None? ==> r == PostFailed(400, ErrorMessage) && record.None?
    ensures r.PostFailed? ==> (r.status == 411 && r.message == InvalidUrlMessage) || (r.status == 400 && r.message == ErrorMessage)
    ensures r.PostFailed? && r.status == 411 <==> ParseCreateBody(body).Some? && !isYt(ParseCreateBody(body).value.url)
    ensures record.Some? <==>
      && ParseCreateBody(body).Some?
      && isYt(ParseCreateBody(body).value.url)
      && lookup(ExtractedId(ParseCreateBody(body).value.url)).Some?
      && lookup(ExtractedId(ParseCreateBody(body).value.url)).value.thumbnails != []
    ensures record.Some? ==>
      RecordFor(record.value, ParseCreateBody(body).value, lookup(ExtractedId(ParseCreateBody(body).value.url)).value)
    ensures r.Created? <==> record.Some? && create(record.value).Some?
    ensures r.Created? ==> r == Created(create(record.value).value, false, 0)
  {
    record := None;
    var parsed := ParseCreateBody(body);
    if parsed.None? {
      return PostFailed(400, ErrorMessage), None;
    }
    var req := parsed.value;
    if !isYt(req.url) {
      return PostFailed(411, InvalidUrlMessage), None;
    }
    var extractedId := ExtractedId(req.url);
    var res := lookup(extractedId);
    if res.None? {
      return PostFailed(400, ErrorMessage), None;
    }
    var thumbnails := new Thumbnail[|res.value.thumbnails|](k requires 0 <= k < |res.value.thumbnails| => res.value.thumbnails[k]);
    assert thumbnails[..] == res.value.thumbnails;
    SortByWidth(thumbnails);
    var sorted := thumbnails[..];
    var images := PickImages(sorted);
    if images.None? {
      return PostFailed(400, ErrorMessage), None;
    }
    var data := StreamData(req.creatorId, req.url, extractedId, YoutubeType,
                           res.value.title.GetOr(""), images.value.small, images.value.big);
    record := Some(data);
    var stream := create(data);
    if stream.None? {
      return PostFailed(400, ErrorMessage), record;
    }
    r := Created(stream.value, false, 0);
  }

  // ---- GET ----

  /** A stream of the creator with all of its upvotes, as the database holds it. */
  datatype StreamRecord = StreamRecord(stream: StreamRow, upvotes: seq<Upvote>)

  /** The `upvotes: { where: { userId } }` include: the caller's own upvotes. */
  function CallerUpvotes(votes: seq<Upvote>, userId: string): (r: seq<Upvote>)
    ensures forall u :: u in r <==> u in votes && u.userId == userId
  {
    if votes == [] then []
    else (if votes[0].userId == userId then [votes[0]] else []) + CallerUpvotes(votes[1..], userId)
  }

  /** The listing projection `{...rest, upvotes: _count.upvotes,
      haveUpvoted: rest.upvotes.length ? true : false}`. */
  function ListedVideo(rec: StreamRecord, userId: string): (v: Video)
    ensures v.stream == rec.stream
    ensures v.upvotes == |rec.upvotes|
    ensures v.haveUpvoted <==> exists u :: u in rec.upvotes && u.userId == userId
  {
    var mine := CallerUpvotes(rec.upvotes, userId);
    assert mine != [] ==> mine[0] in mine;
    Video(rec.stream, |rec.upvotes|, |mine| > 0)
  }

  /** The session's user was found. */
  predicate SignedIn(user: Query<Option<User>>)
  {
    user.Answered? && user.value.Some?
  }

  /** `creatorId` is truthy: present and non-empty. */
  predicate HasCreator(creatorId: Option<string>)
  {
    creatorId.Some? && creatorId.value != ""
  }

  /** GET /api/streams. `user` is the lookup of the caller from the session,
      `creatorId` the query parameter; `findStreams` and `findActive` are the
      two queries, by creator. The handler catches nothing: a call that
      throws makes the framework answer 500. */
  function Get(
    user: Query<Option<User>>,
    creatorId: Option<string>,
    findStreams: string -> Query<seq<StreamRecord>>,
    findActive: string -> Query<Option<ActiveStream>>): (r: ListResponse)
    ensures user.Threw? ==> r == Unhandled(500)
    ensures user == Answered(None) ==> r == ListMessage(405, "Not authenticated")
    ensures SignedIn(user) && !HasCreator(creatorId) ==> r == ListMessage(200, "Missing creatorId")
    ensures r.Unhandled? <==>
      || user.Threw?
      || (SignedIn(user) && HasCreator(creatorId)
          && (findStreams(creatorId.value).Threw? || findActive(creatorId.value).Threw?))
    ensures r.Unhandled? ==> r.status == 500
    ensures r.Listing? <==>
      && SignedIn(user) && HasCreator(creatorId)
      && findStreams(creatorId.value).Answered? && findActive(creatorId.value).Answered?
    ensures r.Listing? ==>
      var rows := findStreams(creatorId.value).value;
      && r.activeStream == findActive(creatorId.value).value
      && |r.streams| == |rows|
      && forall i :: 0 <= i < |rows| ==>
           && r.streams[i].stream == rows[i].stream
           && r.streams[i].upvotes == |rows[i].upvotes|
           && (r.streams[i].haveUpvoted <==> exists u :: u in rows[i].upvotes && u.userId == user.value.value.id)
  {
    match user
    case Threw => Unhandled(500)
    case Answered(None) => ListMessage(405, "Not authenticated")
    case Answered(Some(caller)) =>
      if !HasCreator(creatorId) then ListMessage(200, "Missing creatorId")
      else
        match (findStreams(creatorId.value), findActive(creatorId.value))
        case (Answered(rows), Answered(active)) =>
          Listing(seq(|rows|, i requires 0 <= i < |rows| => ListedVideo(rows[i], caller.id)), active)
        case _ => Unhandled(500)
  }
}
