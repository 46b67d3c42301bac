/** `normalize_playlist_ref`: free text, a bare ID, an open.spotify.com URL
    or a `spotify:playlist:` URI become either a canonical playlist URI or
    the trimmed text, which is later used as a search query. */
module PlaylistRef {
  import opened Wrappers
  import opened Text

  const UriPrefix := "spotify:playlist:"
  const UrlMarker := "open.spotify.com/playlist/"
  const IdLength := 22

  /** At offset `i` of `s` the marker is followed by at least one
      alphanumeric: a place where `open\.spotify\.com/playlist/([A-Za-z0-9]+)`
      matches. */
  predicate UrlMatchAt(s: string, i: nat) {
    i + |UrlMarker| < |s| && s[i..i + |UrlMarker|] == UrlMarker && IsAlnum(s[i + |UrlMarker|])
  }

  /** The leftmost match offset at or after `from`, as `re.search` finds it. */
  function FirstUrlMatch(s: string, from: nat): (r: Option<nat>)
    decreases |s| - from
    ensures r.Some? ==> from <= r.value && UrlMatchAt(s, r.value)
    ensures r.Some? ==> forall k :: from <= k < r.value ==> !UrlMatchAt(s, k)
    ensures r.None? ==> forall k: nat :: from <= k ==> !UrlMatchAt(s, k)
  {
    if from >= |s| then None
    else if UrlMatchAt(s, from) then Some(from)
    else FirstUrlMatch(s, from + 1)
  }

  /** End of the longest alphanumeric run starting at `k` (the greedy `+`). */
  function AlnumRunEnd(s: string, k: nat): (e: nat)
    requires k <= |s|
    decreases |s| - k
    ensures k <= e <= |s| && AllAlnum(s[k..e])
    ensures e == |s| || !IsAlnum(s[e])
  {
    if k < |s| && IsAlnum(s[k]) then
      var e := AlnumRunEnd(s, k + 1);
      assert s[k..e] == [s[k]] + s[k + 1..e];
      e
    else k
  }

  /** The greedy run is the only alphanumeric run from `k` that cannot be extended. */
  lemma AlnumRunEndUnique(s: string, k: nat, e: nat)
    requires k <= e <= |s| && AllAlnum(s[k..e])
    requires e == |s| || !IsAlnum(s[e])
    ensures AlnumRunEnd(s, k) == e
  {
    var e' := AlnumRunEnd(s, k);
    forall j | k <= j < e ensures IsAlnum(s[j]) {
      assert s[j] == s[k..e][j - k];
    }
    forall j | k <= j < e' ensures IsAlnum(s[j]) {
      assert s[j] == s[k..e'][j - k];
    }
  }

  /** The playlist ID captured by the URL pattern, if it matches anywhere. */
  function UrlPlaylistId(s: string): (r: Option<string>)
    ensures r.Some? <==> FirstUrlMatch(s, 0).Some?
    ensures r.Some? ==> r.value != [] && AllAlnum(r.value)
  {
    match FirstUrlMatch(s, 0)
    case None => None
    case Some(i) =>
      var start := i + |UrlMarker|;
      Some(s[start..AlnumRunEnd(s, start)])
  }

  /** `re.fullmatch(r"[A-Za-z0-9]{22}", s)`. */
  predicate IsBareId(s: string) {
    |s| == IdLength && AllAlnum(s)
  }

  function NormalizePlaylistRef(s: string): (r: string)
    ensures StartsWith(r, UriPrefix) || r == Strip(s)
  {
    var t := Strip(s);
    if StartsWith(t, UriPrefix) then t
    else match UrlPlaylistId(t)
      case Some(id) => UriPrefix + id
      case None => if IsBareId(t) then UriPrefix + t else t
  }

  /** Rule 1: a trimmed input that is already a playlist URI is returned
      unchanged, whatever else it contains. */
  lemma NormalizeKeepsUri(s: string)
    requires StartsWith(Strip(s), UriPrefix)
    ensures NormalizePlaylistRef(s) == Strip(s)
  {
  }

  /** Rule 2: otherwise the leftmost URL match wins, and the result is the
      URI prefix followed by the whole alphanumeric run after the marker. */
  lemma NormalizeUrl(s: string, i: nat, e: nat)
    requires !StartsWith(Strip(s), UriPrefix)
    requires UrlMatchAt(Strip(s), i)
    requires forall k :: 0 <= k < i ==> !UrlMatchAt(Strip(s), k)
    requires i + |UrlMarker| < e <= |Strip(s)| && AllAlnum(Strip(s)[i + |UrlMarker|..e])
    requires e == |Strip(s)| || !IsAlnum(Strip(s)[e])
    ensures NormalizePlaylistRef(s) == UriPrefix + Strip(s)[i + |UrlMarker|..e]
  {
    var t := Strip(s);
    var m := FirstUrlMatch(t, 0);
    assert m == Some(i);
    AlnumRunEndUnique(t, i + |UrlMarker|, e);
  }

  /** A bare ID contains neither ':' nor '.', so neither the URI rule nor the
      URL rule can apply to it. */
  lemma BareIdIsNotUriOrUrl(t: string)
    requires IsBareId(t)
    ensures !StartsWith(t, UriPrefix)
    ensures forall k: nat :: !UrlMatchAt(t, k)
  {
    assert UriPrefix[7] == ':' && UrlMarker[4] == '.';
  }

  /** Rule 3: an input that trims to 22 ASCII alphanumerics becomes that
      playlist's URI. */
  lemma NormalizeBareId(s: string)
    requires IsBareId(Strip(s))
    ensures NormalizePlaylistRef(s) == UriPrefix + Strip(s)
  {
    BareIdIsNotUriOrUrl(Strip(s));
  }

  /** Rule 4: anything else is returned trimmed, as a search query. */
  lemma NormalizeSearch(s: string)
    requires !StartsWith(Strip(s), UriPrefix)
    requires forall k: nat :: !UrlMatchAt(Strip(s), k)
    requires !IsBareId(Strip(s))
    ensures NormalizePlaylistRef(s) == Strip(s)
  {
    assert FirstUrlMatch(Strip(s), 0).None?;
  }

  /** A URI that the normalizer builds itself (rather than passes through)
      names a non-empty alphanumeric ID. */
  lemma NormalizeBuildsCanonicalUri(s: string)
    ensures var r := NormalizePlaylistRef(s);
      !StartsWith(Strip(s), UriPrefix) && r != Strip(s) ==>
        StartsWith(r, UriPrefix) && r[|UriPrefix|..] != [] && AllAlnum(r[|UriPrefix|..])
  {
    var t := Strip(s);
    var r := NormalizePlaylistRef(s);
    if StartsWith(t, UriPrefix) || r == t {
      return;
    }
    match UrlPlaylistId(t)
    case Some(id) =>
      assert r[|UriPrefix|..] == id;
    case None =>
      assert r[|UriPrefix|..] == t;
  }

  lemma CanonicalUriIsStripped(r: string)
    requires StartsWith(r, UriPrefix)
    requires var id := r[|UriPrefix|..]; id != [] && AllAlnum(id)
    ensures Strip(r) == r && NormalizePlaylistRef(r) == r
  {
    var id := r[|UriPrefix|..];
    assert r[0] == UriPrefix[0];
    assert IsAlnum(r[|r| - 1]) by { assert r[|r| - 1] == id[|id| - 1]; }
    StripOfStripped(r);
  }

  /** Normalizing a normalized reference gives it back unchanged. */
  lemma NormalizeIdempotent(s: string)
    ensures NormalizePlaylistRef(NormalizePlaylistRef(s)) == NormalizePlaylistRef(s)
  {
    var t := Strip(s);
    var r := NormalizePlaylistRef(s);
    if r == t {
      StripOfStripped(t);
    } else {
      NormalizeBuildsCanonicalUri(s);
      CanonicalUriIsStripped(r);
    }
  }

  lemma LinkSpelling()
    ensures "https://" + UrlMarker + "abc123XYZ" == "https://open.spotify.com/playlist/abc123XYZ"
    ensures UriPrefix + "abc123XYZ" == "spotify:playlist:abc123XYZ"
  {
  }

  /** Nothing before the marker in the example link can start a match. */
  lemma LinkHasNoEarlyMatch(s: string)
    requires s == "https://" + UrlMarker + "abc123XYZ"
    ensures forall k :: 0 <= k < 8 ==> !UrlMatchAt(s, k)
  {
    assert s[0] != 'o' && s[1] != 'o' && s[2] != 'o' && s[3] != 'o';
    assert s[4] != 'o' && s[5] != 'o' && s[6] != 'o' && s[7] != 'o';
    forall k | 0 <= k < 8 ensures !UrlMatchAt(s, k) {
      assert s[k..k + |UrlMarker|][0] == s[k];
    }
  }

  /** The example link is already trimmed, is not a URI, and has its only
      match right after the scheme. */
  lemma LinkShape(s: string)
    requires s == "https://" + UrlMarker + "abc123XYZ"
    ensures Strip(s) == s && !StartsWith(s, UriPrefix)
    ensures UrlMatchAt(s, 8) && s[8 + |UrlMarker|..] == "abc123XYZ"
    ensures AllAlnum(s[8 + |UrlMarker|..])
  {
    assert s[0] == 'h' && s[|s| - 1] == 'Z';
    StripOfStripped(s);
    assert s[..|UriPrefix|] != UriPrefix by { assert s[0] != UriPrefix[0]; }
    assert s[8..8 + |UrlMarker|] == UrlMarker;
    assert s[8 + |UrlMarker|..] == "abc123XYZ";
  }

  /** A browser link becomes the canonical URI of the playlist it shows. */
  lemma NormalizeUrlExample()
    ensures NormalizePlaylistRef("https://open.spotify.com/playlist/abc123XYZ") == "spotify:playlist:abc123XYZ"
  {
    var s := "https://" + UrlMarker + "abc123XYZ";
    LinkSpelling();
    LinkShape(s);
    LinkHasNoEarlyMatch(s);
    NormalizeUrl(s, 8, |s|);
  }

  /** Free text that is neither a URI, a link nor a bare ID is kept as the
      search query. */
  lemma NormalizeSearchExample()
    ensures NormalizePlaylistRef("Lo-fi beats") == "Lo-fi beats"
  {
    var s := "Lo-fi beats";
    assert IsStripped(s);
    StripOfStripped(s);
    assert |s| < |UriPrefix|;
    assert forall k: nat :: !UrlMatchAt(s, k);
    NormalizeSearch(s);
  }
}
