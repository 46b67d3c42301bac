/** `resolve_playlist_uri`: the decision part. A URI reference is looked up
    by its trailing ID; anything else is searched for and the first hit
    taken. The service's replies are inputs. */
module Resolver {
  import opened Wrappers
  import opened Text
  import opened Spotify
  import PlaylistRef

  const SearchLimit := 5

  /** Python's `s.split(":")[-1]`: the text after the last ':' (all of `s`
      when it has none). */
  function LastSegment(s: string): (r: string)
    ensures ':' !in r
    ensures |r| <= |s| && r == s[|s| - |r|..]
    ensures |r| < |s| ==> s[|s| - |r| - 1] == ':'
  {
    if s == [] then ""
    else if s[|s| - 1] == ':' then ""
    else
      var r := LastSegment(s[..|s| - 1]);
      assert s[|s| - |r| - 1..] == s[..|s| - 1][|s| - 1 - |r|..] + [s[|s| - 1]];
      r + [s[|s| - 1]]
  }

  /** The trailing segment is the whole of any colon-free suffix after a ':'. */
  lemma {:induction false} LastSegmentAfterColon(prefix: string, id: string)
    requires ':' !in id
    ensures LastSegment(prefix + ":" + id) == id
  {
    var s := prefix + ":" + id;
    if id == [] {
      assert s[|s| - 1] == ':';
    } else {
      assert s[..|s| - 1] == prefix + ":" + id[..|id| - 1];
      LastSegmentAfterColon(prefix, id[..|id| - 1]);
      assert id == id[..|id| - 1] + [id[|id| - 1]];
    }
  }

  /** The ID the bot looks up for a canonical URI is exactly the ID the URI
      was built from. */
  lemma PlaylistIdOfUri(id: string)
    requires AllAlnum(id)
    ensures LastSegment(PlaylistRef.UriPrefix + id) == id
  {
    assert PlaylistRef.UriPrefix + id == "spotify:playlist" + ":" + id;
    LastSegmentAfterColon("spotify:playlist", id);
  }

  /** The one request resolution makes for a (normalized) reference. */
  function ResolveCall(ref: string): (c: Call)
    ensures c.FetchPlaylist? <==> StartsWith(ref, PlaylistRef.UriPrefix)
    ensures c.FetchPlaylist? ==> c == FetchPlaylist(LastSegment(ref), "name,uri")
    ensures c.SearchPlaylists? ==> c == SearchPlaylists(ref, "playlist", SearchLimit)
  {
    if StartsWith(ref, PlaylistRef.UriPrefix) then FetchPlaylist(LastSegment(ref), "name,uri")
    else SearchPlaylists(ref, "playlist", SearchLimit)
  }

  /** The error raised when a search finds nothing. */
  function NoPlaylistFound(ref: string): Error {
    Error("RuntimeError", "No playlist found for: " + ref)
  }

  /** The `(uri, name)` pair resolution returns, or the error it raises. */
  function ResolvePlaylist(ref: string, svc: Service): (r: Result<Playlist, Error>)
    ensures StartsWith(ref, PlaylistRef.UriPrefix) ==> r == svc.playlistReply
    ensures !StartsWith(ref, PlaylistRef.UriPrefix) && svc.searchReply.Success? ==>
      (svc.searchReply.value == [] <==> r == Failure(NoPlaylistFound(ref)))
    ensures !StartsWith(ref, PlaylistRef.UriPrefix) && svc.searchReply.Success? && svc.searchReply.value != [] ==>
      r == Success(svc.searchReply.value[0])
    ensures !StartsWith(ref, PlaylistRef.UriPrefix) && svc.searchReply.Failure? ==>
      r == Failure(svc.searchReply.error)
  {
    if StartsWith(ref, PlaylistRef.UriPrefix) then svc.playlistReply
    else match svc.searchReply
      case Failure(e) => Failure(e)
      case Success(items) =>
        if items == [] then Failure(NoPlaylistFound(ref)) else Success(items[0])
  }

  /** Whatever resolution returns on success came from the service verbatim:
      the looked-up playlist or one of the search hits. */
  lemma ResolvedComesFromService(ref: string, svc: Service)
    requires ResolvePlaylist(ref, svc).Success?
    ensures var pl := ResolvePlaylist(ref, svc).value;
      (svc.playlistReply.Success? && pl == svc.playlistReply.value) ||
      (svc.searchReply.Success? && pl in svc.searchReply.value)
  {
  }
}
