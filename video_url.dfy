/** The video id of a YouTube URL, taken as `url.split("?v=")[1]` both by the
    create handler (app/api/streams/route.ts) and by the preview in StreamView. */
module VideoUrl {
  import opened Wrappers

  /** The separator both sides split on. */
  const Separator: string := "?v="

  predicate OccursAt(s: string, pat: string, i: nat)
  {
    i + |pat| <= |s| && s[i..i + |pat|] == pat
  }

  /** No occurrence of `pat` starts anywhere in `s`. */
  predicate Free(s: string, pat: string)
  {
    forall i: nat :: i < |s| ==> !OccursAt(s, pat, i)
  }

  /** The first position at or after `from` where `pat` occurs, the search
      JavaScript's `split` performs for each separator. */
  function IndexOf(s: string, pat: string, from: nat): (r: Option<nat>)
    requires |pat| > 0
    ensures r.Some? ==> from <= r.value && OccursAt(s, pat, r.value)
    ensures r.Some? ==> forall j: nat :: from <= j < r.value ==> !OccursAt(s, pat, j)
    ensures r.None? ==> forall j: nat :: from <= j ==> !OccursAt(s, pat, j)
    decreases |s| - from
  {
    if from + |pat| > |s| then None
    else if OccursAt(s, pat, from) then Some(from)
    else IndexOf(s, pat, from + 1)
  }

  /** `s.split(sep)[1]`: the piece between the first occurrence of `sep` and the
      next one (or the end of `s`); `undefined` (None) when `sep` does not occur. */
  function SecondPiece(s: string, sep: string): (r: Option<string>)
    requires |sep| > 0
    ensures r.None? <==> Free(s, sep)
    ensures r.Some? ==> IndexOf(s, sep, 0).Some? && PieceAt(s, sep, IndexOf(s, sep, 0).value + |sep|, r.value)
  {
    FirstOccurrence(s, sep);
    match IndexOf(s, sep, 0)
    case None => None
    case Some(i) => Some(PieceFrom(s, sep, i + |sep|))
  }

  /** The search from the start finds nothing exactly when `pat` is absent. */
  lemma FirstOccurrence(s: string, pat: string)
    requires |pat| > 0
    ensures IndexOf(s, pat, 0).None? <==> Free(s, pat)
  {
    match IndexOf(s, pat, 0)
    case None =>
    case Some(i) =>
      assert OccursAt(s, pat, i) && i < |s|;
  }

  /** `p` is the text of `s` from `start` up to the next occurrence of `sep`
      or the end: no occurrence starts inside it, and it holds none itself. */
  predicate PieceAt(s: string, sep: string, start: nat, p: string)
  {
    && start + |p| <= |s|
    && p == s[start..start + |p|]
    && (start + |p| == |s| || OccursAt(s, sep, start + |p|))
    && (forall j: nat :: start <= j < start + |p| ==> !OccursAt(s, sep, j))
    && Free(p, sep)
  }

  /** The piece of `s` that starts at `start`. */
  function PieceFrom(s: string, sep: string, start: nat): (p: string)
    requires |sep| > 0 && start <= |s|
    ensures PieceAt(s, sep, start, p)
  {
    var rest := s[start..];
    match IndexOf(rest, sep, 0)
    case None =>
      FreeRun(s, sep, start, |rest|);
      assert rest == s[start..start + |rest|];
      rest
    case Some(j) =>
      FreeRun(s, sep, start, j);
      FreePrefix(rest, sep, j);
      ShiftOccurrence(s, sep, start, j);
      assert rest[..j] == s[start..start + j];
      rest[..j]
  }

  /** An occurrence at `j` in `s[k..]` is one at `k + j` in `s`. */
  lemma ShiftOccurrence(s: string, pat: string, k: nat, j: nat)
    requires k <= |s| && OccursAt(s[k..], pat, j)
    ensures OccursAt(s, pat, k + j)
  {
    assert s[k..][j..j + |pat|] == s[k + j..k + j + |pat|];
  }

  /** A prefix that ends before the first occurrence of `pat` holds none. */
  lemma FreePrefix(s: string, pat: string, j: nat)
    requires |pat| > 0 && j <= |s|
    requires forall k: nat :: k < j ==> !OccursAt(s, pat, k)
    ensures Free(s[..j], pat)
  {
    forall k: nat | k < j ensures !OccursAt(s[..j], pat, k) {
      if k + |pat| <= j {
        assert s[..j][k..k + |pat|] == s[k..k + |pat|];
        assert !OccursAt(s, pat, k);
      }
    }
  }

  /** No occurrence starts in the first `n` positions of `s[k..]`, so none
      starts in `s` at `k` up to `k + n`. */
  lemma FreeRun(s: string, pat: string, k: nat, n: nat)
    requires k + n <= |s|
    requires forall j: nat :: j < n ==> !OccursAt(s[k..], pat, j)
    ensures forall j: nat :: k <= j < k + n ==> !OccursAt(s, pat, j)
  {
    forall j: nat | k <= j < k + n ensures !OccursAt(s, pat, j) {
      assert !OccursAt(s[k..], pat, j - k);
      if j + |pat| <= |s| {
        assert s[k..][j - k..j - k + |pat|] == s[j..j + |pat|];
      }
    }
  }


  /** The extracted id of a submitted URL: undefined when the URL holds no
      "?v=", and never holding one itself. */
  function ExtractedId(url: string): (r: Option<string>)
    ensures r.None? <==> Free(url, Separator)
    ensures r.Some? ==> Free(r.value, Separator)
  {
    SecondPiece(url, Separator)
  }

  /** Round trip: a URL built as `prefix + "?v=" + id`, with no "?v=" inside
      `prefix` or `id`, gives back exactly `id`. */
  lemma {:induction false} ExtractedIdOfCanonical(prefix: string, id: string)
    requires Free(prefix, Separator) && Free(id, Separator)
    ensures ExtractedId(prefix + Separator + id) == Some(id)
  {
    var s := prefix + Separator + id;
    var p := |prefix|;
    assert OccursAt(s, Separator, p) by {
      assert s[p..p + 3] == Separator;
    }
    forall j: nat | j < p ensures !OccursAt(s, Separator, j) {
      if j + 3 <= p {
        assert s[j..j + 3] == prefix[j..j + 3];
        assert !OccursAt(prefix, Separator, j);
      } else if j + 3 <= |s| {
        // an occurrence straddling the end of prefix would need a '?' where
        // the separator puts its 'v' or '='
        assert s[j..j + 3][p - j] == s[p] == '?' != Separator[p - j];
      }
    }
    assert IndexOf(s, Separator, 0) == Some(p);
    assert s[p + 3..] == id;
    // no occurrence starts inside the id, so the piece runs to the end
    FreeRun(s, Separator, p + 3, |id|);
    assert s[p + 3..p + 3 + |id|] == id;
  }
}
