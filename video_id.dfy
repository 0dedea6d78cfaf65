/** `get_video_id` of `YoutubeCommentFetch.py`: the video id is read off a
    watch URL as the text after the first `v=`, cut at the next `v=` and then
    at the first `&`. Nothing checks that what remains looks like an id. */
module VideoId {
  import opened Text

  datatype UrlError = InvalidUrl

  /** `url.split('v=')[1].split('&')[0]`, or `ValueError` when the URL has no
      `v=` at all. */
  function VideoId(url: string): (r: Result<string, UrlError>)
    ensures r.Failure? <==> !Contains(url, "v=")
  {
    match Find(url, "v=")
    case None => Failure(InvalidUrl)
    case Some(i) => Success(UpTo(SecondPiece(url[i + 2..]), '&'))
  }

  /** `split('v=')[1]` once the text before the first `v=` is dropped: what
      lies before the next `v=`. */
  function SecondPiece(rest: string): (piece: string)
    ensures StartsWith(rest, piece) && !Contains(piece, "v=")
    ensures |piece| == |rest| || OccursAt(rest, "v=", |piece|)
  {
    match Find(rest, "v=")
    case None => rest
    case Some(j) =>
      BeforeFirstAvoids(rest, j, "v=");
      rest[..j]
  }

  /** A successful result starts right after the first `v=` and stops at the
      first `&`, at the next `v=` or at the end of the URL, whichever comes
      first; it contains neither `&` nor `v=`. */
  lemma {:induction false} VideoIdBounds(url: string, i: nat)
    requires Find(url, "v=") == Some(i)
    ensures VideoId(url).Success?
    ensures var id, rest := VideoId(url).value, url[i + 2..];
      && StartsWith(rest, id)
      && '&' !in id && !Contains(id, "v=")
      && (|id| == |rest| || rest[|id|] == '&' || OccursAt(rest, "v=", |id|))
  {
    var rest := url[i + 2..];
    var piece := SecondPiece(rest);
    var id := UpTo(piece, '&');
    assert VideoId(url) == Success(id);
    PrefixAvoids(piece, id, "v=");
    if |id| < |piece| {
      assert rest[|id|] == piece[|id|];
    }
  }

  /** A prefix of a text free of `pat` is free of it too. */
  lemma {:induction false} PrefixAvoids(s: string, prefix: string, pat: string)
    requires StartsWith(s, prefix) && !Contains(s, pat)
    ensures !Contains(prefix, pat)
  {
    forall p: nat | p <= |prefix| && OccursAt(prefix, pat, p) ensures OccursAt(s, pat, p) {
      assert prefix[p..p + |pat|] == s[p..p + |pat|];
    }
  }

  /** The text before the first occurrence of `pat` is free of it. */
  lemma {:induction false} BeforeFirstAvoids(s: string, j: nat, pat: string)
    requires j <= |s| && |pat| > 0
    requires forall p: nat :: p < j ==> !OccursAt(s, pat, p)
    ensures !Contains(s[..j], pat)
  {
    forall p: nat | p <= j && OccursAt(s[..j], pat, p) ensures OccursAt(s, pat, p) {
      assert s[..j][p..p + |pat|] == s[p..p + |pat|];
    }
  }

  /** The usual shape `p + "v=" + id + "&" + r`, with no `v=` in `p` and
      neither `&` nor `v=` in `id`, yields `id`. */
  lemma {:induction false} VideoIdOfWatchUrl(p: string, id: string, r: string)
    requires !Contains(p, "v=") && '&' !in id && !Contains(id, "v=")
    ensures VideoId(p + "v=" + id + "&" + r) == Success(id)
  {
    var url := p + "v=" + id + "&" + r;
    var rest := id + "&" + r;
    FirstMarkAfterClean(p, id + "&" + r);
    assert url == p + "v=" + rest;
    assert url[|p| + 2..] == rest;
    IdBeforeAmpersand(id, r);
  }

  /** In `p + "v=" + tail` with no `v=` in `p`, the first `v=` is the one
      right after `p`. */
  lemma {:induction false} FirstMarkAfterClean(p: string, tail: string)
    requires !Contains(p, "v=")
    ensures Find(p + "v=" + tail, "v=") == Some(|p|)
  {
    var url := p + "v=" + tail;
    forall j: nat | j < |p| ensures !OccursAt(url, "v=", j) {
      if j + 2 <= |p| {
        assert url[j..j + 2] == p[j..j + 2];
        assert OccursAt(p, "v=", j) == OccursAt(url, "v=", j);
      } else {
        assert url[j + 1] == 'v';
      }
    }
    assert OccursAt(url, "v=", |p|);
  }

  /** With neither `&` nor `v=` in `id`, the id is what `id + "&" + r` keeps
      once cut at `v=` and then at `&`. */
  lemma {:induction false} IdBeforeAmpersand(id: string, r: string)
    requires '&' !in id && !Contains(id, "v=")
    ensures UpTo(SecondPiece(id + "&" + r), '&') == id
  {
    var rest := id + "&" + r;
    forall j: nat | j <= |id| ensures !OccursAt(rest, "v=", j) {
      if j + 2 <= |id| {
        assert rest[j..j + 2] == id[j..j + 2];
        assert !OccursAt(id, "v=", j);
      } else if j < |id| {
        assert rest[j + 1] == '&';
        assert rest[j..j + 2][1] == '&';
      } else {
        assert rest[j] == '&';
        if j + 2 <= |rest| {
          assert rest[j..j + 2][0] == '&';
        }
      }
    }
    var piece := SecondPiece(rest);
    assert |piece| > |id|;
    assert piece[..|id| + 1] == rest[..|id| + 1] == id + "&";
    assert piece[..|id|] == id && piece[|id|] == '&';
  }

  /** Nothing checks the id: `watch?v=&t=1` yields the empty id. */
  lemma {:induction false} EmptyVideoId()
    ensures VideoId("watch?v=&t=1") == Success("")
  {
    var url := "watch?v=&t=1";
    assert OccursAt(url, "v=", 6);
    forall j: nat | j < 6 ensures !OccursAt(url, "v=", j) {
      assert url[j + 1] != '=';
    }
    assert Find(url, "v=") == Some(6);
    assert url[8..] == "&t=1";
    assert IndexOf(SecondPiece("&t=1"), '&') == Some(0);
  }
}
