/** The pure queue transforms of StreamView (app/components/StreamView.tsx):
    the `map` that applies a vote, the `sort` by votes, and the lemmas that say
    what a vote does to the queue. */
module Queue {
  import opened Wrappers
  import opened Api
  import opened Seqs

  /** An element of the client's queue: a listed or created stream, or the
      error object a failed POST answered with, which handleAddVideo appends
      all the same. */
  datatype QueueItem = Listed(video: Video) | ErrorBody(message: string)

  /** `video.id`; undefined (None) for an error object. */
  function IdOf(e: QueueItem): Option<string>
  {
    if e.Listed? then Some(e.video.stream.id) else None
  }

  /** A POST response body read through the `Video` interface. A created
      stream carries the key `hasUpvoted`, so `haveUpvoted` reads as
      undefined, which every use on the client treats as false. */
  function ItemOf(resp: PostResponse): (e: QueueItem)
    ensures resp.Created? ==>
      e.Listed? && e.video.stream == resp.stream && e.video.upvotes == resp.upvotes && !e.video.haveUpvoted
    ensures resp.PostFailed? ==> e == ErrorBody(resp.message)
  {
    match resp
    case Created(stream, _, upvotes) => Listed(Video(stream, upvotes, false))
    case PostFailed(_, message) => ErrorBody(message)
  }

  /** The direction a click on the vote button asks for:
      `video.haveUpvoted ? false : true`. */
  function ClickUpvotes(v: Video): (up: bool)
    ensures up <==> !v.haveUpvoted
    ensures Voted(v, up).haveUpvoted == up
    ensures Voted(Voted(v, up), !up) == v
  {
    !v.haveUpvoted
  }

  /** The spread `{...video, upvotes: isUpvote ? upvotes + 1 : upvotes - 1,
      haveUpvoted: !haveUpvoted}`. */
  function Voted(v: Video, isUpvote: bool): (w: Video)
    ensures w.stream == v.stream
    ensures w.upvotes == v.upvotes + (if isUpvote then 1 else -1)
    ensures w.haveUpvoted == !v.haveUpvoted
  {
    v.(upvotes := if isUpvote then v.upvotes + 1 else v.upvotes - 1, haveUpvoted := !v.haveUpvoted)
  }

  /** The callback handleVote maps over the queue. */
  function VoteItem(e: QueueItem, id: string, isUpvote: bool): (r: QueueItem)
    ensures IdOf(r) == IdOf(e)
    ensures IdOf(e) == Some(id) ==> r == Listed(Voted(e.video, isUpvote))
    ensures IdOf(e) != Some(id) ==> r == e
  {
    if IdOf(e) == Some(id) then Listed(Voted(e.video, isUpvote)) else e
  }

  /** `queue.map(...)` in handleVote, before the sort. */
  function ApplyVote(q: seq<QueueItem>, id: string, isUpvote: bool): (r: seq<QueueItem>)
    ensures |r| == |q|
    ensures forall i :: 0 <= i < |q| && IdOf(q[i]) == Some(id) ==> r[i] == Listed(Voted(q[i].video, isUpvote))
    ensures forall i :: 0 <= i < |q| && IdOf(q[i]) != Some(id) ==> r[i] == q[i]
  {
    MapSeq(e => VoteItem(e, id, isUpvote), q)
  }

  /** The comparator `(a, b) => b.upvotes - a.upvotes`: positive when `a`
      belongs after `b`. An error object has no `upvotes`, the difference is
      NaN, and `sort` reads NaN as 0. */
  function Compare(a: QueueItem, b: QueueItem): (r: int)
    ensures r > 0 <==> a.Listed? && b.Listed? && a.video.upvotes < b.video.upvotes
    ensures r < 0 <==> a.Listed? && b.Listed? && a.video.upvotes > b.video.upvotes
    ensures !a.Listed? || !b.Listed? ==> r == 0
  {
    if a.Listed? && b.Listed? then b.video.upvotes - a.video.upvotes else 0
  }

  /** Inserts `x` before the first element it does not belong after. */
  function Insert(x: QueueItem, s: seq<QueueItem>): seq<QueueItem>
  {
    if s == [] || Compare(x, s[0]) <= 0 then [x] + s else [s[0]] + Insert(x, s[1..])
  }

  /** `Array.prototype.sort` with Compare: a stable insertion sort. It only
      rearranges the queue; SortOrdered and SortKeepsTies give the order. */
  function SortByVotes(q: seq<QueueItem>): (r: seq<QueueItem>)
    ensures multiset(r) == multiset(q)
  {
    if q == [] then []
    else
      InsertPermutes(q[0], SortByVotes(q[1..]));
      assert q == [q[0]] + q[1..];
      Insert(q[0], SortByVotes(q[1..]))
  }

  predicate AllListed(q: seq<QueueItem>)
  {
    forall i :: 0 <= i < |q| ==> q[i].Listed?
  }

  /** Every entry is a stream and `upvotes` never increases along the queue. */
  predicate ByVotesDesc(q: seq<QueueItem>)
  {
    && AllListed(q)
    && forall i, j :: 0 <= i < j < |q| ==> q[i].video.upvotes >= q[j].video.upvotes
  }

  /** The listed entries with exactly `k` upvotes, in queue order. */
  function WithVotes(q: seq<QueueItem>, k: int): seq<QueueItem>
  {
    if q == [] then []
    else (if q[0].Listed? && q[0].video.upvotes == k then [q[0]] else []) + WithVotes(q[1..], k)
  }

  /** A server listing as queue entries. */
  function Items(streams: seq<Video>): seq<QueueItem>
  {
    MapSeq(v => Listed(v), streams)
  }

  /** The ids carried by a queue, in order. */
  function Ids(q: seq<QueueItem>): seq<Option<string>>
  {
    MapSeq(IdOf, q)
  }

  predicate UniqueIds(q: seq<QueueItem>)
  {
    forall i, j :: 0 <= i < j < |q| && q[i].Listed? && q[j].Listed? ==> IdOf(q[i]) != IdOf(q[j])
  }

  // ---- the sort ----

  lemma {:induction false} InsertPermutes(x: QueueItem, s: seq<QueueItem>)
    ensures multiset(Insert(x, s)) == multiset(s) + multiset{x}
    decreases |s|
  {
    if s != [] && Compare(x, s[0]) > 0 {
      InsertPermutes(x, s[1..]);
      assert s == [s[0]] + s[1..];
    }
  }

  /** Every entry is a stream with at most `b` upvotes. */
  predicate AtMost(q: seq<QueueItem>, b: int)
  {
    forall i :: 0 <= i < |q| ==> q[i].Listed? && q[i].video.upvotes <= b
  }

  lemma {:induction false} InsertAtMost(x: QueueItem, s: seq<QueueItem>, b: int)
    requires x.Listed? && x.video.upvotes <= b && AtMost(s, b)
    ensures AtMost(Insert(x, s), b)
    decreases |s|
  {
    if s != [] && Compare(x, s[0]) > 0 {
      assert AtMost(s[1..], b) by {
        forall i | 0 <= i < |s| - 1 ensures s[1..][i] == s[i + 1] { }
      }
      InsertAtMost(x, s[1..], b);
    }
  }

  lemma {:induction false} InsertOrdered(x: QueueItem, s: seq<QueueItem>)
    requires x.Listed? && ByVotesDesc(s)
    ensures ByVotesDesc(Insert(x, s))
    decreases |s|
  {
    if s == [] {
    } else if Compare(x, s[0]) <= 0 {
      var r := [x] + s;
      forall i, j | 0 <= i < j < |r| ensures r[i].video.upvotes >= r[j].video.upvotes {
        assert r[j] == s[j - 1];
        if i > 0 { assert r[i] == s[i - 1]; }
      }
    } else {
      var t := s[1..];
      assert ByVotesDesc(t) by {
        forall i, j | 0 <= i < j < |t| ensures t[i].video.upvotes >= t[j].video.upvotes {
          assert t[i] == s[i + 1] && t[j] == s[j + 1];
        }
      }
      assert AtMost(t, s[0].video.upvotes) by {
        forall i | 0 <= i < |t| ensures t[i] == s[i + 1] { }
      }
      InsertOrdered(x, t);
      InsertAtMost(x, t, s[0].video.upvotes);
      var u := Insert(x, t);
      var r := [s[0]] + u;
      forall i, j | 0 <= i < j < |r| ensures r[i].video.upvotes >= r[j].video.upvotes {
        assert r[j] == u[j - 1];
        if i > 0 { assert r[i] == u[i - 1]; }
      }
    }
  }

  /** Sorting a queue of streams orders it by non-increasing upvotes. */
  lemma {:induction false} SortOrdered(q: seq<QueueItem>)
    requires AllListed(q)
    ensures ByVotesDesc(SortByVotes(q))
    decreases |q|
  {
    if q != [] {
      assert AllListed(q[1..]) by {
        forall i | 0 <= i < |q| - 1 ensures q[1..][i].Listed? { assert q[1..][i] == q[i + 1]; }
      }
      SortOrdered(q[1..]);
      InsertOrdered(q[0], SortByVotes(q[1..]));
    }
  }

  lemma {:induction false} WithVotesConcat(a: seq<QueueItem>, b: seq<QueueItem>, k: int)
    ensures WithVotes(a + b, k) == WithVotes(a, k) + WithVotes(b, k)
    decreases |a|
  {
    if a != [] {
      assert (a + b)[0] == a[0] && (a + b)[1..] == a[1..] + b;
      WithVotesConcat(a[1..], b, k);
    } else {
      assert a + b == b;
    }
  }

  lemma {:induction false} InsertKeepsTies(x: QueueItem, s: seq<QueueItem>, k: int)
    ensures WithVotes(Insert(x, s), k) == WithVotes([x], k) + WithVotes(s, k)
    decreases |s|
  {
    if s == [] || Compare(x, s[0]) <= 0 {
      WithVotesConcat([x], s, k);
    } else {
      var t := s[1..];
      InsertKeepsTies(x, t, k);
      assert Insert(x, s) == [s[0]] + Insert(x, t);
      WithVotesConcat([s[0]], Insert(x, t), k);
      assert s == [s[0]] + t;
      WithVotesConcat([s[0]], t, k);
      // s[0] has strictly more upvotes than x, so at most one of them has k
      assert WithVotes([s[0]], k) == [] || WithVotes([x], k) == [];
    }
  }

  /** The sort is stable: on a queue of streams, where the comparator is a
      consistent order, entries with equal upvotes keep their relative order. */
  lemma {:induction false} SortKeepsTies(q: seq<QueueItem>, k: int)
    requires AllListed(q)
    ensures WithVotes(SortByVotes(q), k) == WithVotes(q, k)
    decreases |q|
  {
    if q != [] {
      assert AllListed(q[1..]) by {
        forall i | 0 <= i < |q| - 1 ensures q[1..][i].Listed? { assert q[1..][i] == q[i + 1]; }
      }
      SortKeepsTies(q[1..], k);
      InsertKeepsTies(q[0], SortByVotes(q[1..]), k);
      WithVotesConcat([q[0]], q[1..], k);
      assert q == [q[0]] + q[1..];
    }
  }

  // ---- handleVote ----

  /** The queue handleVote installs: the vote applied, then sorted by votes,
      descending. With an error object in the queue the comparator is not a
      consistent order and only the rearrangement is promised. */
  function VoteQueue(q: seq<QueueItem>, id: string, isUpvote: bool): (r: seq<QueueItem>)
    ensures |r| == |q|
    ensures multiset(r) == multiset(ApplyVote(q, id, isUpvote))
    ensures multiset(Ids(r)) == multiset(Ids(q))
    ensures AllListed(q) ==> ByVotesDesc(r)
  {
    var applied := ApplyVote(q, id, isUpvote);
    assert |SortByVotes(applied)| == |multiset(SortByVotes(applied))|;
    MapPermutation(IdOf, SortByVotes(applied), applied);
    assert Ids(applied) == Ids(q);
    if AllListed(q) then
      SortOrdered(applied);
      SortByVotes(applied)
    else
      SortByVotes(applied)
  }

  lemma {:induction false} ApplyVoteCount(q: seq<QueueItem>, id: string, isUpvote: bool, e: QueueItem)
    requires IdOf(e) != Some(id)
    ensures multiset(ApplyVote(q, id, isUpvote))[e] == multiset(q)[e]
    decreases |q|
  {
    if q != [] {
      ApplyVoteCount(q[1..], id, isUpvote, e);
      assert q == [q[0]] + q[1..];
      assert ApplyVote(q, id, isUpvote) == [VoteItem(q[0], id, isUpvote)] + ApplyVote(q[1..], id, isUpvote);
    }
  }

  /** Every entry that does not carry the voted id is still in the queue, as
      often as before, unchanged apart from its position. */
  lemma VoteKeepsOthers(q: seq<QueueItem>, id: string, isUpvote: bool, e: QueueItem)
    requires IdOf(e) != Some(id)
    ensures multiset(VoteQueue(q, id, isUpvote))[e] == multiset(q)[e]
  {
    ApplyVoteCount(q, id, isUpvote, e);
  }

  /** With unique ids (rows of the stream table), a vote replaces exactly the
      entry at `i` by its voted version and leaves every other entry alone. */
  lemma VoteChangesOneEntry(q: seq<QueueItem>, id: string, isUpvote: bool, i: int)
    requires UniqueIds(q) && 0 <= i < |q| && IdOf(q[i]) == Some(id)
    ensures multiset(VoteQueue(q, id, isUpvote))
         == multiset(q) - multiset{q[i]} + multiset{Listed(Voted(q[i].video, isUpvote))}
  {
    var applied := ApplyVote(q, id, isUpvote);
    assert applied == q[i := Listed(Voted(q[i].video, isUpvote))] by {
      forall j | 0 <= j < |q| && j != i ensures IdOf(q[j]) != Some(id) {
        if q[j].Listed? {
          if j < i { assert IdOf(q[j]) != IdOf(q[i]); } else { assert IdOf(q[i]) != IdOf(q[j]); }
        }
      }
    }
  }

  /** On a queue of streams, sorting keeps a vote's entries by vote count in
      their previous order. */
  lemma VoteKeepsTieOrder(q: seq<QueueItem>, id: string, isUpvote: bool, k: int)
    requires AllListed(q)
    ensures WithVotes(VoteQueue(q, id, isUpvote), k) == WithVotes(ApplyVote(q, id, isUpvote), k)
  {
    var applied := ApplyVote(q, id, isUpvote);
    assert AllListed(applied) by {
      forall i | 0 <= i < |applied| ensures applied[i].Listed? {
        assert applied[i] == VoteItem(q[i], id, isUpvote);
      }
    }
    SortKeepsTies(applied, k);
  }

  /** Voting one way and then the other on the same id gives back the queue,
      entry for entry, before the two sorts. */
  lemma ApplyVoteUndo(q: seq<QueueItem>, id: string, isUpvote: bool)
    ensures ApplyVote(ApplyVote(q, id, isUpvote), id, !isUpvote) == q
  {
  }

  /** With unique ids, the only entry carrying the id after a vote is the
      voted version of the entry at `i`. */
  lemma {:induction false} VotedEntryIsUnique(q: seq<QueueItem>, id: string, isUpvote: bool, i: int, e: QueueItem)
    requires UniqueIds(q) && 0 <= i < |q| && IdOf(q[i]) == Some(id)
    requires e in multiset(VoteQueue(q, id, isUpvote)) && IdOf(e) == Some(id)
    ensures e == Listed(Voted(q[i].video, isUpvote))
  {
    var applied := ApplyVote(q, id, isUpvote);
    assert e in multiset(applied);
    var k :| 0 <= k < |applied| && applied[k] == e;
    assert IdOf(q[k]) == Some(id);
    assert k == i;
  }

  /** Two clicks on the same entry (ids unique): the second click reads the
      direction from the entry the first one rewrote, and the queue afterwards
      holds exactly the entries it held before. */
  lemma DoubleClickRestores(q: seq<QueueItem>, i: int, j: int)
    requires UniqueIds(q) && 0 <= i < |q| && q[i].Listed?
    requires
      var r1 := VoteQueue(q, q[i].video.stream.id, ClickUpvotes(q[i].video));
      0 <= j < |r1| && IdOf(r1[j]) == IdOf(q[i])
    ensures
      var id := q[i].video.stream.id;
      var r1 := VoteQueue(q, id, ClickUpvotes(q[i].video));
      multiset(VoteQueue(r1, id, ClickUpvotes(r1[j].video))) == multiset(q)
  {
    var id := q[i].video.stream.id;
    var d := ClickUpvotes(q[i].video);
    var r1 := VoteQueue(q, id, d);
    assert r1[j] in multiset(r1);
    VotedEntryIsUnique(q, id, d, i, r1[j]);
    assert ClickUpvotes(r1[j].video) == !d;
    // the sorts only rearrange, and the second vote undoes the first entry by entry
    MapPermutation(e => VoteItem(e, id, !d), r1, ApplyVote(q, id, d));
    calc {
      multiset(VoteQueue(r1, id, !d));
      multiset(ApplyVote(r1, id, !d));
      multiset(ApplyVote(ApplyVote(q, id, d), id, !d));
      { ApplyVoteUndo(q, id, d); }
      multiset(q);
    }
  }
}
