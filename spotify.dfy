/** The values the bot exchanges with the Spotify Web API, with the API
    itself replaced by the replies it gives. */
module Spotify {
  import opened Wrappers

  /** A raised exception, reduced to the two things the bot shows:
      the exception's class name and its `str()`. */
  datatype Error = Error(category: string, message: string)

  /** A playlist as `(uri, name)`, taken verbatim from the service. */
  datatype Playlist = Playlist(uri: string, name: string)

  /** One string-valued key of a JSON object the service returns: missing,
      present with `null` (Python's `None`), or present with a string. */
  datatype Field = Absent | Null | Str(text: string)

  /** A Spotify Connect device as the service describes it. `isActive` is
      the truth value of `d.get("is_active")`, so a missing or `null` flag
      reads as false. */
  datatype Device = Device(id: Field, name: Field, kind: Field, isActive: bool)

  /** One request the bot sends to the service, with the arguments it passes;
      a device id of `None` is Python's `None`. */
  datatype Call =
    | FetchPlaylist(playlistId: string, fields: string)
    | SearchPlaylists(query: string, searchType: string, limit: nat)
    | ListDevices
    | TransferPlayback(deviceId: Option<string>, forcePlay: bool)
    | StartPlayback(deviceId: Option<string>, contextUri: string)

  /** What the service answers to each kind of request; a command issues at
      most one request of each kind, so one reply per kind suffices. A
      missing or `null` `"devices"` list reads as the empty list. */
  datatype Service = Service(
    playlistReply: Result<Playlist, Error>,      // sp.playlist(id, fields="name,uri")
    searchReply: Result<seq<Playlist>, Error>,   // the "playlists"."items" list of sp.search(...)
    devicesReply: Result<seq<Device>, Error>,    // the "devices" list of sp.devices()
    transferReply: Outcome<Error>,               // sp.transfer_playback(...)
    startReply: Outcome<Error>)                  // sp.start_playback(...)

  /** Python's `KeyError(key)`, whose `str()` is the quoted key. */
  function MissingKey(key: string): (e: Error)
    ensures e.category == "KeyError"
    ensures |e.message| == |key| + 2 && e.message[1..|key| + 1] == key
  {
    Error("KeyError", "'" + key + "'")
  }

  /** `obj.get(key, default)`: `None` for a `null` value. */
  function Get(f: Field, default: string): (v: Option<string>)
    ensures v.None? <==> f.Null?
    ensures f.Str? ==> v == Some(f.text)
    ensures f.Absent? ==> v == Some(default)
  {
    match f
    case Absent => Some(default)
    case Null => None
    case Str(s) => Some(s)
  }

  /** `obj[key]`: a `KeyError` for a missing key, `None` for a `null` value. */
  function Subscript(f: Field, key: string): (r: Result<Option<string>, Error>)
    ensures r.Failure? <==> f.Absent?
    ensures r.Failure? ==> r.error == MissingKey(key)
    ensures r.Success? ==> (r.value.None? <==> f.Null?)
    ensures f.Str? ==> r == Success(Some(f.text))
  {
    match f
    case Absent => Failure(MissingKey(key))
    case Null => Success(None)
    case Str(s) => Success(Some(s))
  }

  /** How an f-string shows a looked-up value: `None` prints as `None`. */
  function Shown(v: Option<string>): string {
    match v
    case None => "None"
    case Some(t) => t
  }
}
