# spotify-irc-bot: the command core, modelled in Dafny

The bot watches an IRC channel. When someone types `!pl <playlist>`, it
starts that playlist on a Spotify Connect device. When someone types
`!devices`, it lists the devices. This project models the part of the bot
that makes decisions, once the IRC connection and the Spotify Web API are
replaced by the replies they give:

- `normalize_playlist_ref` (module `PlaylistRef`). It turns free text, a
  bare 22-character ID, an `open.spotify.com/playlist/<id>` link or a
  `spotify:playlist:` URI into a canonical URI or into the trimmed text. The
  trimmed text is later used as a search query.
- `resolve_playlist_uri` (module `Resolver`). It picks the request to make:
  a fetch by the URI's last `:`-separated segment, or a search limited to 5
  results. It then takes the service's `(uri, name)` verbatim. An empty
  search result is an error.
- `pick_device` (module `DeviceSelector`). It chooses a device by a
  case-insensitive name match, else the first active device, else the first
  device. An empty list gives no device, and a `null` name the name scan
  reaches raises `AttributeError`. `PickDevice` keeps the source's two
  early-return loops and is proved equal to the function `PickedDevice`.
- `on_pubmsg` (module `Dispatcher`). It classifies the trimmed message and
  formats the device listing with the source's loop (`FormatDevices`). It
  runs the `!pl` pipeline in order: resolve, list devices and pick one,
  transfer playback with `force_play=True`, then start the playlist there.
  The first failure becomes the reply `Error: <type>: <message>`.
  `OnPubmsg`, `RunPlay` and `PlayOnDevice` build the trace of requests by
  appending one request at a time. They are proved equal to the functions
  `Handle`, `PlayResponse` and `StartOnDevice`. `PlayResponse` normalizes
  the argument and hands the reference to `PlayReference`. The module
  `DispatcherProperties` proves what these functions promise.

The service is a value of type `Spotify.Service`. It holds one reply for
each kind of request. A command never makes two requests of the same kind,
so one reply per kind is enough. An exception is a pair: its class name and
its `str()`.

Behaviour of the code that the model keeps:

- The normalizer returns plain text, not a tagged value. A bare ID becomes
  a `spotify:playlist:` URI at once. A text that already starts with
  `spotify:playlist:` passes through unchecked, even if what follows is not
  a valid ID.
- A failed lookup or search reports whatever the service raised. Only an
  empty search result produces an error of the bot's own:
  `RuntimeError: No playlist found for: <ref>`.
- `!pl` is matched as a plain prefix. So `!playlist x` runs the pipeline
  with the argument `aylist x`, and `!devices now` is ignored.
- A device key may be missing, present with `null`, or a string, and the
  code treats the three differently:
  - In the `!devices` listing, a missing name or type shows as `?` and a
    `null` one as `None`. Nothing is raised.
  - The name scan in `pick_device` reads a missing name as empty. A `null`
    name raises `AttributeError` if the scan reaches that device before a
    name match.
  - A picked device with no `id` key ends the command with
    `Error: KeyError: 'id'` before any transfer. A `null` id is sent as
    `device_id=None` to both the transfer and the start.
  - A picked device with no `name` key is only noticed after playback has
    started. It gives `Error: KeyError: 'name'` instead of the success
    message. A `null` name is shown as `None` in that message.

## Model

| member | source | states |
|---|---|---|
| Spotify.MissingKey | spotify-irc-bot.py:149-152 | the `KeyError` of a missing key: class `KeyError`, message the key in single quotes |
| Spotify.Get | spotify-irc-bot.py:119-120 | `obj.get(key, default)`: the default for a missing key, `None` exactly for a `null` value, the string otherwise |
| Spotify.Subscript | spotify-irc-bot.py:149-152 | `obj[key]`: a `KeyError` exactly for a missing key, `None` exactly for a `null` value, the string otherwise |
| Spotify.Shown | spotify-irc-bot.py:122 | how an f-string shows a looked-up value: the string itself, or `None` |
| Text.Strip | spotify-irc-bot.py:33 | the result is the input with its leading and trailing whitespace runs removed: it starts and ends with non-whitespace, and what lies around it in the input is all whitespace |
| Text.StripOfPadded | spotify-irc-bot.py:33 | stripping any whitespace-padded stripped text gives back exactly that text, so `strip` is fully determined by its output |
| Text.StripOfStripped | spotify-irc-bot.py:33 | stripping an already stripped text changes nothing |
| Text.JoinAppend | spotify-irc-bot.py:123 | `sep.join` of one more part is the old join, then the separator, then the new part |
| Text.Lower | spotify-irc-bot.py:65 | `str.lower` on ASCII: same length, and each character is lowered on its own, with only `A`-`Z` changed |
| Text.Join | spotify-irc-bot.py:123 | `sep.join(parts)`: empty for no parts, the one part alone, otherwise the first part, the separator and the join of the rest |
| PlaylistRef.UrlMatchAt | spotify-irc-bot.py:36 | the link pattern matches at an offset: the marker sits there and an alphanumeric follows it |
| PlaylistRef.UrlPlaylistId | spotify-irc-bot.py:36-38 | the captured ID exists exactly when the pattern matches somewhere, and it is a non-empty alphanumeric run |
| PlaylistRef.IsBareId | spotify-irc-bot.py:39 | `re.fullmatch(r"[A-Za-z0-9]{22}", s)`: exactly 22 ASCII alphanumerics |
| PlaylistRef.FirstUrlMatch | spotify-irc-bot.py:36 | finds the leftmost offset where the link marker is followed by an alphanumeric, and no earlier one; none when no offset matches |
| PlaylistRef.AlnumRunEnd | spotify-irc-bot.py:36 | the greedy `[A-Za-z0-9]+`: the run is all alphanumeric and ends at the end of the text or at a non-alphanumeric |
| PlaylistRef.AlnumRunEndUnique | spotify-irc-bot.py:36 | the greedy run is the only alphanumeric run that cannot be extended |
| PlaylistRef.NormalizePlaylistRef | spotify-irc-bot.py:32-41 | the result either starts with `spotify:playlist:` or is the trimmed input |
| PlaylistRef.NormalizeKeepsUri | spotify-irc-bot.py:33-35 | a trimmed input starting with `spotify:playlist:` is returned unchanged, ahead of the other rules |
| PlaylistRef.NormalizeUrl | spotify-irc-bot.py:36-38 | otherwise the leftmost link match wins, and the result is `spotify:playlist:` plus the whole alphanumeric run after the marker |
| PlaylistRef.BareIdIsNotUriOrUrl | spotify-irc-bot.py:34-39 | 22 alphanumerics can neither start with the URI prefix nor contain a link match |
| PlaylistRef.NormalizeBareId | spotify-irc-bot.py:39-40 | an input that trims to exactly 22 ASCII alphanumerics becomes `spotify:playlist:` plus that ID |
| PlaylistRef.NormalizeSearch | spotify-irc-bot.py:41 | when no rule applies, the trimmed input is returned as the search text |
| PlaylistRef.NormalizeBuildsCanonicalUri | spotify-irc-bot.py:36-40 | a URI the normalizer builds itself carries a non-empty alphanumeric ID |
| PlaylistRef.NormalizeIdempotent | spotify-irc-bot.py:32-41 | normalizing a normalized reference returns it unchanged |
| PlaylistRef.NormalizeUrlExample | spotify-irc-bot.py:36-38 | `https://open.spotify.com/playlist/abc123XYZ` becomes `spotify:playlist:abc123XYZ` |
| PlaylistRef.NormalizeSearchExample | spotify-irc-bot.py:41 | `Lo-fi beats` stays a search text |
| Resolver.LastSegment | spotify-irc-bot.py:46 | `split(":")[-1]`: a colon-free suffix of the input, preceded by a ':' unless it is the whole input |
| Resolver.LastSegmentAfterColon | spotify-irc-bot.py:46 | whatever precedes the last ':', the segment after it is returned whole |
| Resolver.PlaylistIdOfUri | spotify-irc-bot.py:45-47 | the ID fetched for a canonical URI is exactly the ID it was built from |
| Resolver.NoPlaylistFound | spotify-irc-bot.py:52-53 | the error of an empty search: `RuntimeError` with `No playlist found for: ` and the reference |
| Resolver.ResolveCall | spotify-irc-bot.py:45-50 | a URI reference leads to a fetch of its last segment with fields `name,uri`; anything else leads to a playlist search for the reference, limit 5 |
| Resolver.ResolvePlaylist | spotify-irc-bot.py:44-55 | a URI reference returns the fetch reply verbatim; a search returns its first hit, its error, or the `RuntimeError` exactly when it finds nothing |
| Resolver.ResolvedComesFromService | spotify-irc-bot.py:48-55 | a resolved playlist is always one the service returned |
| DeviceSelector.LoweredName | spotify-irc-bot.py:65 | `d.get("name", "").lower()`: raises `AttributeError` exactly for a `null` name, gives the empty text for a missing name, and the lowered name otherwise |
| DeviceSelector.NameMatches | spotify-irc-bot.py:65 | the name test of the first scan holds; it never holds for a `null` name |
| DeviceSelector.NameScanStop | spotify-irc-bot.py:64-66 | index of the first device at which the name scan returns or raises (a name match or a `null` name), none if the scan runs through |
| DeviceSelector.FirstActive | spotify-irc-bot.py:69-71 | index of the first active device, none if no device is active |
| DeviceSelector.PickedDevice | spotify-irc-bot.py:58-73 | the device chosen by name, else the first active one, else the first, or none for an empty list; the only error is `AttributeError`, and a chosen device is one the service listed |
| DeviceSelector.PickDevice | spotify-irc-bot.py:58-73 | the source's two early-return scans compute the specified choice |
| DeviceSelector.PickedNoneIffEmpty | spotify-irc-bot.py:59-61 | no device is chosen, without error, exactly when the list is empty, and a chosen device is in the list |
| DeviceSelector.PickedFailsOnNullName | spotify-irc-bot.py:64-66 | the choice raises exactly when a device with a `null` name comes before every name match |
| DeviceSelector.PickedByName | spotify-irc-bot.py:64-66 | the first device whose name matches the target case-insensitively is chosen, when no `null` name comes before it |
| DeviceSelector.PickedActive | spotify-irc-bot.py:69-71 | with no name match and no `null` name, the first active device is chosen |
| DeviceSelector.PickedFirst | spotify-irc-bot.py:73 | with no name match, no `null` name and no active device, the first device is chosen |
| DeviceSelector.PickedIgnoresTargetCase | spotify-irc-bot.py:65 | target names that differ only in case choose the same device |
| DeviceSelector.PickedExamples | spotify-irc-bot.py:58-73 | a name match beats an active device, an active device beats the first one, an empty list gives none, and a `null` name ahead of the match raises `AttributeError` |
| Dispatcher.ErrorText | spotify-irc-bot.py:154 | `Error: <class name>: <message>` |
| Dispatcher.ErrorTextShape | spotify-irc-bot.py:154 | every error reply starts with `Error: ` and shows the class name and message in full after it |
| Dispatcher.ActivityText | spotify-irc-bot.py:121 | `active` exactly for an active device, `idle` exactly for any other |
| Dispatcher.DeviceEntry | spotify-irc-bot.py:119-122 | one listing entry `<name> (<type>, active or idle)`, a missing name or type shown as `?`, a `null` one as `None` |
| Dispatcher.DeviceListing | spotify-irc-bot.py:114-123 | the `!devices` reply: the empty-list notice, or `Devices: ` and the entries joined by the bar separator |
| Dispatcher.DeviceListingShape | spotify-irc-bot.py:114-123 | the empty-list notice is given exactly for an empty list, and any other listing starts with `Devices: ` |
| Dispatcher.FormatDevices | spotify-irc-bot.py:113-123 | the loop that collects `<name> (<type>, active)` or `(…, idle)` entries produces the specified listing |
| Dispatcher.DeviceListingSmall | spotify-irc-bot.py:114-123 | no devices gives `No Spotify Connect devices found.`; one device gives `Devices: ` and its entry |
| Dispatcher.DeviceListingAppend | spotify-irc-bot.py:117-123 | each further device adds the bar separator and its entry at the end, in the service's order |
| Dispatcher.DevicesResponse | spotify-irc-bot.py:111-126 | `!devices` makes exactly one request, the device list, and always replies |
| Dispatcher.PlayResponse | spotify-irc-bot.py:136-154 | the `!pl` pipeline is the normalized reference played by `PlayReference` |
| Dispatcher.PlayReference | spotify-irc-bot.py:137-154 | one reply, one to four requests, the first the resolve request, and only the resolve request exactly when resolution fails |
| Dispatcher.StartOnDevice | spotify-irc-bot.py:139-152 | after the requests made so far, always a reply, one to three more requests, the first of them the device list |
| Dispatcher.Handle | spotify-irc-bot.py:108-154 | no reply exactly for a trimmed message that is neither `!devices` nor starts with `!pl`, and then no request |
| Dispatcher.OnPubmsg | spotify-irc-bot.py:108-154 | the handler, run step by step, produces the specified reply and request trace |
| Dispatcher.RunPlay | spotify-irc-bot.py:136-154 | the `!pl` pipeline, run step by step with early returns, produces the specified reply and request trace |
| Dispatcher.PlayOnDevice | spotify-irc-bot.py:140-152 | the steps after resolution (list devices, pick, transfer, start, reply), run with early returns, produce the specified reply and trace |
| DispatcherProperties.IgnoredMessage | spotify-irc-bot.py:109-129 | a trimmed message that is not `!devices` and does not start with `!pl` gets no reply and makes no request |
| DispatcherProperties.EmptyPlayArgument | spotify-irc-bot.py:131-134 | `!pl` with a blank argument gets the usage text and makes no request |
| DispatcherProperties.DevicesMessage | spotify-irc-bot.py:111-126 | `!devices` makes one device-list request and replies with the listing or with the error |
| DispatcherProperties.PlayMessage | spotify-irc-bot.py:128-137 | a message starting with `!pl` and a non-blank argument runs the pipeline on the trimmed argument |
| DispatcherProperties.PlayCallOrder | spotify-irc-bot.py:136-154 | every `!pl` run gets one reply; its requests are resolve, list devices, transfer, start, in that order, none skipped and none repeated |
| DispatcherProperties.PlayCallArguments | spotify-irc-bot.py:137-150 | the first request resolves the reference and the second lists devices; transfer (force_play) and start go to the picked device's `id`, `None` included, and start plays the resolved URI |
| DispatcherProperties.PlayStopsAtFailure | spotify-irc-bot.py:136-154 | a failing request or device choice is the last step taken and its error is the reply: a failed resolve after one request, a failed device list or an `AttributeError` from the choice after two, a failed transfer with no start |
| DispatcherProperties.PlayWithoutDevice | spotify-irc-bot.py:140-146 | with an empty device list the reply is the no-device message and there is no transfer and no start |
| DispatcherProperties.PlayMissingId | spotify-irc-bot.py:149 | a picked device without an `id` key gives `Error: KeyError: 'id'` after the resolve and device-list requests, with no transfer |
| DispatcherProperties.PlayNullId | spotify-irc-bot.py:149-150 | a picked device whose `id` is `null` gets the transfer and the start with `device_id=None` |
| DispatcherProperties.PlayMissingName | spotify-irc-bot.py:149-152 | a picked device without a `name` key gets all four requests, then `Error: KeyError: 'name'` instead of the success message |
| DispatcherProperties.PlaySucceeds | spotify-irc-bot.py:149-152 | when every request succeeds the reply is `Playing '<name>' on <device name>` after four requests, with `None` for a `null` device name |
| DispatcherProperties.PlayBareIdCommand | spotify-irc-bot.py:131-138 | `!pl <22 alphanumerics>` fetches exactly that ID and uses the fetch reply |
| DispatcherProperties.PlayBareIdOnActiveDevice | spotify-irc-bot.py:108-152 | `!pl <id>` with one active device `Office` and playlist `Chill Mix` replies `Playing 'Chill Mix' on Office` after fetch, list, transfer and start |

## Left out

- Startup configuration, `getenv_required` and its exit on a missing credential (spotify-irc-bot.py:11-29, 76-80): process start-up I/O. The target device name is a parameter. `DeviceSelector.DefaultDeviceName` records its default.
- OAuth, building the Spotipy client, the TLS context, the IRC reactor and connection, and handler registration (spotify-irc-bot.py:82-102, 156-159): network and library plumbing. Each Spotify request is a `Spotify.Call` in the trace, and its answer is a field of `Spotify.Service`.
- `on_welcome` (spotify-irc-bot.py:104-106): it joins the channel and posts a fixed banner, with no decision in it. Every reply goes to the one configured channel, so the model keeps only the reply text.
- The regular-expression engine: the link pattern and the 22-character pattern are specified directly (`UrlMatchAt`, `AlnumRunEnd`, `IsBareId`).
- Text.Strip: only ASCII whitespace is removed (tab to carriage return, 0x1C-0x1F, space). Python's `strip` also removes Unicode spaces such as U+00A0 and U+2028.
- DeviceSelector.PickDevice: case folding is ASCII-only. Python's `lower()` also folds non-ASCII letters, so two non-ASCII names that Python treats as equal may not match here.
- Replies the service shapes oddly, where the model's reply types cover the outcome:
  - A playlist without `uri` or `name` raises `KeyError` right after the fetch or search. This is the same outcome as a failed request, so it is a `Failure` reply.
  - A search reply without `playlists` or `items`, or with `null` items, gives the `RuntimeError` of an empty search. It is the reply `Success([])`.
  - A `null` `playlists` object raises `AttributeError`, and a `null` first item raises `TypeError`. Both are a `Failure` reply.
  - A missing or `null` `devices` list is treated as empty, as the source does. It is the reply `Success([])`.
- Spotify.Playlist: a `null` `uri` or `name` in a playlist is not modelled. The source would then start playback with `context_uri=None` or print `None` as the playlist name. The model holds both as strings.
- Spotify.Service: a `null` entry inside the device list is not modelled. The source raises `AttributeError` only when a scan reaches that entry, so no single reply describes it.
- The exact class names and messages of the exceptions raised by Spotipy and by the network: they are opaque `Spotify.Error` values chosen by the service.
- Timing, blocking and one-message-at-a-time processing: the model handles one message as one call.
