/** `Array.prototype.map` on the model's sequences, with the facts the queue
    and the listing proofs need about it. */
module Seqs {

  /** `s.map(f)`: one result per element, in the same order. */
  function MapSeq<A, B>(f: A -> B, s: seq<A>): (r: seq<B>)
    ensures |r| == |s|
    ensures forall i :: 0 <= i < |s| ==> r[i] == f(s[i])
  {
    if s == [] then [] else [f(s[0])] + MapSeq(f, s[1..])
  }

  lemma {:induction false} MapConcat<A, B>(f: A -> B, a: seq<A>, b: seq<A>)
    ensures MapSeq(f, a + b) == MapSeq(f, a) + MapSeq(f, b)
  {
    var whole, parts := MapSeq(f, a + b), MapSeq(f, a) + MapSeq(f, b);
    assert |whole| == |parts|;
    forall i | 0 <= i < |whole| ensures whole[i] == parts[i] {
      if i < |a| {
        assert (a + b)[i] == a[i];
      } else {
        assert (a + b)[i] == b[i - |a|];
      }
    }
  }

  /** Mapping two rearrangements of the same elements gives two rearrangements
      of the same results. */
  lemma {:induction false} MapPermutation<A, B>(f: A -> B, a: seq<A>, b: seq<A>)
    requires multiset(a) == multiset(b)
    ensures multiset(MapSeq(f, a)) == multiset(MapSeq(f, b))
    decreases |a|
  {
    if a == [] {
      assert |b| == |multiset(b)| == 0;
    } else {
      var x := a[0];
      assert x in multiset(b);
      var k :| 0 <= k < |b| && b[k] == x;
      var rest := b[..k] + b[k + 1..];
      assert b == b[..k] + [x] + b[k + 1..];
      assert a == [x] + a[1..];
      calc {
        multiset(a[1..]);
        multiset(a) - multiset{x};
        multiset(b[..k]) + multiset{x} + multiset(b[k + 1..]) - multiset{x};
        multiset(rest);
      }
      MapPermutation(f, a[1..], rest);
      MapConcat(f, b[..k] + [x], b[k + 1..]);
      MapConcat(f, b[..k], [x]);
      MapConcat(f, b[..k], b[k + 1..]);
      MapConcat(f, [x], a[1..]);
    }
  }
}
