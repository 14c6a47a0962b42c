# Watch-party queue and streams API, modelled in Dafny

The application is a shared watch party. A creator queues YouTube videos,
viewers vote on them, and the page polls the server for the queue. This
project models the two pieces of the code that hold self-contained data logic:

- **The StreamView page** (`app/components/StreamView.tsx`). The page state
  (`queue`, `currentVideo`, `isLoading`, `inputLink`) is the class
  `StreamViewState.StreamView`. Its handlers are methods: `refreshStreams`,
  `handleAddVideo` (split at its `await` into a submit half and a completion
  half), `handleVote`, `playNextVideo`, and the input's `onChange`. Each takes
  the response of the request it awaits as a parameter. The queue transforms
  are pure functions in module `Queue`: the vote `map`, the `sort` by votes,
  and the lemmas about them. A queue entry is either a listed stream or the
  error object that a failed POST answered with. `handleAddVideo` appends the
  response body whatever it is, so such an object can reach the queue.
- **The streams route** (`app/api/streams/route.ts`), in module
  `StreamsRoute`:
  - `POST`: schema check, `YT_REGEX` check (411), `extractedId`, the in-place
    thumbnail sort (`SortByWidth`, an insertion sort on an array), the image
    choice, and the reply.
  - The error branches: every exception becomes 400.
  - `GET`: the session check (405), the `creatorId` check, and the listing
    projection. `GET` has no `try`: a session lookup or query that throws
    rejects the handler, and the framework answers 500 (`Unhandled`).

The id split `url.split("?v=")[1]` is shared by server and client. It lives
in module `VideoUrl`, with a round-trip lemma.

Abstract inputs:
- `YT_REGEX` is a parameter `isYt: string -> bool`.
- The YouTube lookup is `lookup`, and the insert is `create`. Each returns
  None where the call throws; `POST` catches both.
- `GET`'s calls return a `Query`: `Answered` with the result, or `Threw`.
  The session's user is a `Query<Option<User>>`, where `Answered(None)` is
  no matching user. The two queries are `findStreams` (the creator's
  streams) and `findActive` (the creator's active stream, where
  `Answered(None)` is the normal "no active stream").

Two `sort` calls in the source use comparators that never answer 0:
`a.upvotes < b.upvotes ? 1 : -1` in `refreshStreams`, and
`a.width < b.width ? -1 : 1` for the thumbnails. The order among equal keys
is therefore left open. ECMAScript goes further: with a comparator that is
not consistent, the whole resulting order is implementation-defined. Both
models assume the engine still sorts by the key, as common engines do.
Under that assumption, `RefreshStreams` picks any ordered rearrangement
(`:|`), and `SortByWidth` promises only an ordered rearrangement.
On a queue of streams, `handleVote`'s comparator `b.upvotes - a.upvotes` is
consistent, and `Array.prototype.sort` is stable. `Queue.SortByVotes` is
therefore a stable insertion sort, proved stable on such queues by
`Queue.SortKeepsTies`.

A created stream is returned with the key `hasUpvoted`, not `haveUpvoted`.
Read through the client's `Video` interface, `haveUpvoted` is then
undefined, and every client use treats that as false. `Queue.ItemOf` records
it as false.

## Model

| member | source | states |
|---|---|---|
| `VideoUrl.IndexOf` | app/api/streams/route.ts:31 | the position found is an occurrence of the separator and none occurs earlier; None exactly when no occurrence exists |
| `VideoUrl.SecondPiece` | app/api/streams/route.ts:31 | `split(sep)[1]` is undefined iff `sep` does not occur; otherwise it is the piece that starts just after the first occurrence (`PieceAt`): it ends at the next occurrence or the end of the string, no occurrence starts inside that span of `s`, and the piece holds no `sep` |
| `VideoUrl.PieceFrom` | app/api/streams/route.ts:31 | the text taken from a start position is exactly the piece there (`PieceAt`), whatever the separator, including one that can overlap itself |
| `VideoUrl.ExtractedId` | app/api/streams/route.ts:31 | the id is undefined iff the URL holds no "?v="; an id never holds "?v=" itself |
| `VideoUrl.ExtractedIdOfCanonical` | app/api/streams/route.ts:31 | for `prefix + "?v=" + id`, with no "?v=" in `prefix` or `id`, the extracted id is exactly `id`; no occurrence can straddle the boundaries |
| `Seqs.MapSeq` | app/components/StreamView.tsx:76-85 | `.map` gives one result per element, `f` of the element at the same index |
| `Seqs.MapPermutation` | app/components/StreamView.tsx:76-86 | mapping two rearrangements of the same elements yields rearrangements of the same results |
| `Queue.ItemOf` | app/components/StreamView.tsx:69 | a created stream enters the queue with its row and its `upvotes`, as not upvoted (the server's key is `hasUpvoted`); a failed POST's body enters as an error object with its message |
| `Queue.Voted` | app/components/StreamView.tsx:79-83 | the voted entry keeps its stream row; `upvotes` goes up by 1 on an upvote and down by 1 otherwise; `haveUpvoted` is negated |
| `Queue.ApplyVote` | app/components/StreamView.tsx:76-85 | same length; every entry carrying the id is replaced by its voted version and every other entry is left as it was, at the same index |
| `Queue.VoteItem` | app/components/StreamView.tsx:77-84 | an entry keeps its id; the entry carrying the voted id becomes its voted version, and any other entry is returned as it was |
| `Queue.Compare` | app/components/StreamView.tsx:86 | `b.upvotes - a.upvotes` is positive iff `a` has fewer votes, negative iff it has more, and 0 on equal votes |
| `Queue.SortByVotes` | app/components/StreamView.tsx:86 | the sort by votes is a rearrangement (same multiset of entries) |
| `Queue.SortOrdered` | app/components/StreamView.tsx:86 | on a queue of streams, the sort yields non-increasing `upvotes` |
| `Queue.SortKeepsTies` | app/components/StreamView.tsx:86 | on a queue of streams the sort is stable: for every vote count, the entries with that count keep their relative order |
| `Queue.VoteQueue` | app/components/StreamView.tsx:74-87 | the queue after a vote has the same length and the same multiset of ids; it is a rearrangement of the voted map; it is ordered by non-increasing votes when every entry is a stream |
| `Queue.VoteKeepsOthers` | app/components/StreamView.tsx:77-85 | every entry whose id differs from the voted id occurs exactly as often as before: unchanged apart from its position |
| `Queue.VoteChangesOneEntry` | app/components/StreamView.tsx:77-86 | with unique ids, the queue after a vote holds the same entries except that the voted one is replaced by its voted version |
| `Queue.VoteKeepsTieOrder` | app/components/StreamView.tsx:86 | on a queue of streams, after the vote's sort, entries with equal votes keep the order the map left them in |
| `Queue.ApplyVoteUndo` | app/components/StreamView.tsx:78-83 | voting one way and then the other on the same id restores every entry in place |
| `Queue.ClickUpvotes` | app/components/StreamView.tsx:229 | the click upvotes iff the entry is not upvoted; the voted entry's `haveUpvoted` is the click's direction; a click in the other direction undoes it |
| `Queue.DoubleClickRestores` | app/components/StreamView.tsx:228-229 | with unique ids, two clicks on one entry hold the queue's entries as before; the second click's direction is read from the rewritten entry, as `video.haveUpvoted ? false : true` does |
| `StreamsRoute.ParseCreateBody` | app/api/streams/route.ts:10-17 | the schema accepts a body iff both `creatorId` and `url` are strings, and the parsed request carries them |
| `StreamsRoute.SortByWidth` | app/api/streams/route.ts:37-39 | the array, sorted in place, is a rearrangement of its old contents in non-decreasing width |
| `StreamsRoute.UrlOrEmpty` | app/api/streams/route.ts:48-52 | a thumbnail's URL when it has one, "" when it has none |
| `StreamsRoute.PickImages` | app/api/streams/route.ts:48-52 | no choice (the throw) iff the list is empty; `bigImg` is the last entry's URL or ""; `smallImg` is the second-to-last's when there are at least two, else the last's |
| `StreamsRoute.PickedWidest` | app/api/streams/route.ts:37-52 | after the sort, `bigImg` comes from a thumbnail at least as wide as every other. With two or more, `smallImg` comes from the widest of the rest. With one, both are the same |
| `StreamsRoute.Post` | app/api/streams/route.ts:15-71 | a body failing the schema gives 400; a URL failing `YT_REGEX` gives 411 with "Invalid url" and creates nothing; a record is created iff the lookup succeeds with a non-empty thumbnail list, and it carries the creator, the URL, the `"?v="` id, type "Youtube", the title or "", and the images chosen after the sort; success returns the stored row with `hasUpvoted` false and `upvotes` 0; every other failure is 400 |
| `StreamsRoute.CallerUpvotes` | app/api/streams/route.ts:104-108 | the included upvotes are exactly the stream's upvotes by the caller |
| `StreamsRoute.ListedVideo` | app/api/streams/route.ts:122-126 | a listed stream keeps its row, `upvotes` is its total upvote count, and `haveUpvoted` holds iff the caller has an upvote on it |
| `StreamsRoute.Get` | app/api/streams/route.ts:73-129 | a session lookup that throws gives 500; no user gives 405 before `creatorId` is looked at; a missing or empty `creatorId` gives a message with status 200; past those checks, a query that throws gives 500; a listing is returned iff the user is found, `creatorId` is non-empty and both queries answer, and it holds one entry per stream in query order, with the creator's active stream |
| `StreamViewState.NextVideo` | app/components/StreamView.tsx:100-101 | `json.stream` is a stream exactly when the `next` answer carries a non-null stream; a message or null gives no video |
| `StreamViewState.StreamView.constructor` | app/components/StreamView.tsx:36-39 | the page starts with an empty link, an empty queue, no current video and not loading |
| `StreamViewState.StreamView.RefreshStreams` | app/components/StreamView.tsx:41-50 | on a listing, the queue becomes a rearrangement of the server's streams with non-increasing votes, and the current video becomes the active stream; on a message or a 500 reply nothing changes (parsing or the `sort` throws first) |
| `StreamViewState.StreamView.BeginAddVideo` | app/components/StreamView.tsx:59-68 | `isLoading` is set and the request carries the creator and the current link; nothing else changes |
| `StreamViewState.StreamView.FinishAddVideo` | app/components/StreamView.tsx:69-71 | the response body, even an error object, is appended after the unchanged earlier entries; `isLoading` is cleared and the link reset to "" |
| `StreamViewState.StreamView.HandleVote` | app/components/StreamView.tsx:74-93 | the queue becomes the voted and re-sorted queue, with the same length and multiset of ids, ordered when it holds only streams; the vote goes to the upvotes or downvotes endpoint with the id; nothing else changes |
| `StreamViewState.StreamView.PlayNextVideo` | app/components/StreamView.tsx:95-103 | on an empty queue nothing is fetched and nothing changes; otherwise the current video becomes `json.stream`, except that a 500 reply (the route throws and sends no JSON body) leaves it as it was |
| `StreamViewState.StreamView.SetInputLink` | app/components/StreamView.tsx:194 | the link becomes the typed text; nothing else changes |
| `StreamViewState.StreamView.PreviewOf` | app/components/StreamView.tsx:178-184 | the preview shows iff the link is non-empty, matches `YT_REGEX` and nothing is loading, and its id is the server's extracted id of the same link |
| `StreamViewState.PreviewOfCanonical` | app/components/StreamView.tsx:181 | a matching link `prefix + "?v=" + id` previews exactly `id` |

## Left out

- Network I/O is not modelled: every `fetch` and `res.json()`, and polling with `setInterval` every 10 seconds. Each handler receives the response it awaits as a parameter.
- A failed `fetch` in `handleAddVideo` would leave `isLoading` set. This is not modelled: `FinishAddVideo` always receives a body.
- Handlers act on the latest state. React's stale closures, such as `handleAddVideo` spreading the `queue` it captured before its `await`, are not modelled.
- `StreamViewState.StreamView.HandleVote` takes a string id. The vote button on an error object's card would call it with an undefined id. That id matches every error object and turns its `upvotes` into NaN; this is not modelled.
- `Queue.SortKeepsTies` and `Queue.VoteKeepsTieOrder` say nothing about the tie order of a queue that holds an error object: there the comparator is not consistent and the engine decides.
- `Queue.VoteQueue` promises only a rearrangement when an error object is in the queue. Its `upvotes` is undefined, so the comparator gives NaN and is not a consistent order. ECMAScript then leaves the result to the engine.
- `StreamsRoute.SortByWidth` assumes the engine still sorts by ascending width when widths tie. Its comparator never answers 0, and ECMAScript makes the order under an inconsistent comparator implementation-defined.
- `StreamsRoute.Get` evaluates both queries' outcomes. The source awaits `findMany` before it starts `findFirst`, so when `findMany` throws, `findFirst` never runs. The reply is 500 either way.
- `StreamViewState.StreamView.RefreshStreams` assumes the engine still orders by votes. Its comparator never answers 0, which ECMAScript also treats as inconsistent.
- `upvotes` and thumbnail widths are JavaScript numbers. The model uses unbounded integers: no NaN, and no precision loss past 2^53.
- Foreign libraries are parameters: the session lookup, the YouTube lookup (and its `console.log`), the Prisma queries and inserts, and `YT_REGEX`, whose file is not part of this model.
- The Prisma schema is not part of this model. `ActiveStream` carries only `userId`, `streamId` and the included stream.
- `GET` receives each stream with all its upvotes. The `_count` and the `where` filter on the include are modelled as the handler's query semantics.
- `handleShare` (clipboard and toasts) and all rendering are not modelled; the preview's condition and id are.
- app/api/streams/next/route.ts is not part of this model. It is a database query plus a delete and an upsert run together in `Promise.all`. Its replies are the parameter `NextResponse`: the stream, a message, or `NextUnhandled`, the 500 the framework sends when the route throws (for instance when its `delete` matches no row).
- The upvotes and downvotes routes are not part of this model: each is one insert or delete behind an auth check.
- app/api/route.ts, app/page.tsx, app/components/Appbar.tsx and app/creator/creatorId/page.tsx are not part of this model. They are a duplicate create handler, static pages and wrappers.
