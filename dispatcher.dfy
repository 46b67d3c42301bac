/** `on_pubmsg`: classify a channel message, run the matching command against
    the service, and produce the one reply the bot posts together with the
    requests it sends, in order. */
module Dispatcher {
  import opened Wrappers
  import opened Text
  import opened Spotify
  import PlaylistRef
  import Resolver
  import DeviceSelector

  const DevicesCommand := "!devices"
  const PlayCommand := "!pl"
  const UsageText := "Usage: !pl <playlist name|id|url|uri>"
  const NoDevicesText := "No Spotify Connect devices found."
  const NoDeviceText := "No Spotify Connect device found. Start a player (e.g., spotatui) and try again."

  /** What handling one message produced: the reply posted to the channel,
      if any, and the requests sent to the service. */
  datatype Response = Response(reply: Option<string>, calls: seq<Call>)

  /** `f"Error: {type(e).__name__}: {e}"`. */
  function ErrorText(e: Error): string {
    "Error: " + e.category + ": " + e.message
  }

  /** Every error reply starts with `Error: `, and the class name and the
      message follow it, so the reply shows the exception in full. */
  lemma ErrorTextShape(e: Error)
    ensures StartsWith(ErrorText(e), "Error: ")
    ensures ErrorText(e)[7..] == e.category + ": " + e.message
  {
  }

  /** `"active" if d.get("is_active") else "idle"`. */
  function ActivityText(d: Device): (r: string)
    ensures r == "active" <==> d.isActive
    ensures r == "idle" <==> !d.isActive
  {
    if d.isActive then "active" else "idle"
  }

  /** One entry of the device listing: `<name> (<type>, active|idle)`, where
      a missing name or type shows as `?` and a `null` one as `None`. */
  function DeviceEntry(d: Device): string
  {
    Shown(Get(d.name, "?")) + " (" + Shown(Get(d.kind, "?")) + ", " + ActivityText(d) + ")"
  }

  function DeviceEntries(ds: seq<Device>): (parts: seq<string>)
    ensures |parts| == |ds|
    ensures forall i :: 0 <= i < |ds| ==> parts[i] == DeviceEntry(ds[i])
  {
    seq(|ds|, i requires 0 <= i < |ds| => DeviceEntry(ds[i]))
  }

  /** The reply to `!devices` once the service has listed the devices. */
  function DeviceListing(ds: seq<Device>): string {
    if ds == [] then NoDevicesText
    else "Devices: " + Join(DeviceEntries(ds), " | ")
  }

  /** The empty-list notice is given exactly for an empty list; any other
      listing starts with `Devices: `. */
  lemma DeviceListingShape(ds: seq<Device>)
    ensures DeviceListing(ds) == NoDevicesText <==> ds == []
    ensures ds != [] ==> StartsWith(DeviceListing(ds), "Devices: ")
  {
    if ds != [] {
      assert DeviceListing(ds)[0] != NoDevicesText[0];
    }
  }

  /** The loop that collects the entries, then joins them. */
  method FormatDevices(ds: seq<Device>) returns (text: string)
    ensures text == DeviceListing(ds)
  {
    if ds == [] {
      return NoDevicesText;
    }
    var parts: seq<string> := [];
    for i := 0 to |ds|
      invariant |parts| == i
      invariant forall k :: 0 <= k < i ==> parts[k] == DeviceEntry(ds[k])
    {
      parts := parts + [DeviceEntry(ds[i])];
    }
    assert parts == DeviceEntries(ds);
    text := "Devices: " + Join(parts, " | ");
  }

  /** An empty list gets the fixed notice; one device is listed alone. */
  lemma DeviceListingSmall(d: Device)
    ensures DeviceListing([]) == NoDevicesText
    ensures DeviceListing([d]) == "Devices: " + DeviceEntry(d)
  {
  }

  /** Each further device adds `" | "` and its own entry at the end, so the
      listing names the devices in the service's order. */
  lemma DeviceListingAppend(ds: seq<Device>, d: Device)
    requires ds != []
    ensures DeviceListing(ds + [d]) == DeviceListing(ds) + " | " + DeviceEntry(d)
  {
    assert DeviceEntries(ds + [d]) == DeviceEntries(ds) + [DeviceEntry(d)];
    JoinAppend(DeviceEntries(ds), DeviceEntry(d), " | ");
  }

  /** The `!devices` branch. */
  function DevicesResponse(svc: Service): (r: Response)
    ensures r.calls == [ListDevices] && r.reply.Some?
  {
    match svc.devicesReply
    case Failure(e) => Response(Some(ErrorText(e)), [ListDevices])
    case Success(ds) => Response(Some(DeviceListing(ds)), [ListDevices])
  }

  /** The `!pl <arg>` pipeline: normalize the argument, then play the
      reference. */
  function PlayResponse(arg: string, deviceName: string, svc: Service): Response {
    PlayReference(PlaylistRef.NormalizePlaylistRef(arg), deviceName, svc)
  }

  /** Resolve the normalized reference `ref`, then `StartOnDevice`. The first
      failure ends the pipeline with an error reply. */
  function PlayReference(ref: string, deviceName: string, svc: Service): (r: Response)
    ensures r.reply.Some? && 1 <= |r.calls| <= 4 && r.calls[0] == Resolver.ResolveCall(ref)
    ensures |r.calls| == 1 <==> Resolver.ResolvePlaylist(ref, svc).Failure?
  {
    var resolve := Resolver.ResolveCall(ref);
    match Resolver.ResolvePlaylist(ref, svc)
    case Failure(e) => Response(Some(ErrorText(e)), [resolve])
    case Success(pl) => StartOnDevice([resolve], pl, deviceName, svc)
  }

  /** The rest of the pipeline once the requests `done` have produced `pl`:
      list devices and pick one, transfer playback to it, start the playlist
      there. */
  function StartOnDevice(done: seq<Call>, pl: Playlist, deviceName: string, svc: Service): (r: Response)
    ensures r.reply.Some? && |done| + 1 <= |r.calls| <= |done| + 3
    ensures r.calls[..|done| + 1] == done + [ListDevices]
  {
    var listed := done + [ListDevices];
    match svc.devicesReply
    case Failure(e) => Response(Some(ErrorText(e)), listed)
    case Success(ds) =>
      match DeviceSelector.PickedDevice(ds, deviceName)
      case Failure(e) => Response(Some(ErrorText(e)), listed)
      case Success(None) => Response(Some(NoDeviceText), listed)
      case Success(Some(d)) =>
        match Subscript(d.id, "id")
        case Failure(e) => Response(Some(ErrorText(e)), listed)
        case Success(id) =>
          var transferred := listed + [TransferPlayback(id, true)];
          match svc.transferReply
          case Fail(e) => Response(Some(ErrorText(e)), transferred)
          case Pass =>
            var started := transferred + [StartPlayback(id, pl.uri)];
            match svc.startReply
            case Fail(e) => Response(Some(ErrorText(e)), started)
            case Pass =>
              match Subscript(d.name, "name")
              case Failure(e) => Response(Some(ErrorText(e)), started)
              case Success(name) => Response(Some("Playing '" + pl.name + "' on " + Shown(name)), started)
  }

  /** The whole handler for one public message. */
  function Handle(text: string, deviceName: string, svc: Service): (r: Response)
    ensures r.reply.None? <==> Strip(text) != DevicesCommand && !StartsWith(Strip(text), PlayCommand)
    ensures r.reply.None? ==> r.calls == []
  {
    var msg := Strip(text);
    if msg == DevicesCommand then DevicesResponse(svc)
    else if !StartsWith(msg, PlayCommand) then Response(None, [])
    else
      var arg := Strip(msg[|PlayCommand|..]);
      if arg == [] then Response(Some(UsageText), [])
      else PlayResponse(arg, deviceName, svc)
  }

  /** The handler as the bot runs it. */
  method OnPubmsg(text: string, deviceName: string, svc: Service) returns (reply: Option<string>, calls: seq<Call>)
    ensures Response(reply, calls) == Handle(text, deviceName, svc)
  {
    var msg := Strip(text);
    calls := [];
    if msg == DevicesCommand {
      calls := calls + [ListDevices];
      match svc.devicesReply {
        case Failure(e) =>
          reply := Some(ErrorText(e));
        case Success(ds) =>
          var listing := FormatDevices(ds);
          reply := Some(listing);
      }
      return;
    }
    if !StartsWith(msg, PlayCommand) {
      return None, calls;
    }
    var arg := Strip(msg[|PlayCommand|..]);
    if arg == [] {
      return Some(UsageText), calls;
    }

    reply, calls := RunPlay(arg, deviceName, svc);
  }

  /** The `!pl` pipeline as the bot runs it: each request is appended to the
      trace as it is made, and every failure returns at once. */
  method RunPlay(arg: string, deviceName: string, svc: Service) returns (reply: Option<string>, calls: seq<Call>)
    ensures Response(reply, calls) == PlayResponse(arg, deviceName, svc)
  {
    calls := [];
    var ref := PlaylistRef.NormalizePlaylistRef(arg);
    assert PlayResponse(arg, deviceName, svc) == PlayReference(ref, deviceName, svc);
    var resolve := Resolver.ResolveCall(ref);
    calls := calls + [resolve];
    assert calls == [resolve];
    var resolved := Resolver.ResolvePlaylist(ref, svc);
    if resolved.Failure? {
      assert PlayReference(ref, deviceName, svc) == Response(Some(ErrorText(resolved.error)), calls);
      return Some(ErrorText(resolved.error)), calls;
    }
    assert PlayReference(ref, deviceName, svc) == StartOnDevice(calls, resolved.value, deviceName, svc);
    reply, calls := PlayOnDevice(calls, resolved.value, deviceName, svc);
  }

  /** The requests after `done` has produced `pl`, appended to the trace one
      by one. */
  method PlayOnDevice(done: seq<Call>, pl: Playlist, deviceName: string, svc: Service)
    returns (reply: Option<string>, calls: seq<Call>)
    ensures Response(reply, calls) == StartOnDevice(done, pl, deviceName, svc)
  {
    calls := done + [ListDevices];
    if svc.devicesReply.Failure? {
      return Some(ErrorText(svc.devicesReply.error)), calls;
    }
    var device := DeviceSelector.PickDevice(svc.devicesReply.value, deviceName);
    if device.Failure? {
      return Some(ErrorText(device.error)), calls;
    }
    if device.value.None? {
      return Some(NoDeviceText), calls;
    }
    var d := device.value.value;
    var id := Subscript(d.id, "id");
    if id.Failure? {
      return Some(ErrorText(id.error)), calls;
    }

    calls := calls + [TransferPlayback(id.value, true)];
    if svc.transferReply.Fail? {
      return Some(ErrorText(svc.transferReply.error)), calls;
    }
    calls := calls + [StartPlayback(id.value, pl.uri)];
    if svc.startReply.Fail? {
      return Some(ErrorText(svc.startReply.error)), calls;
    }
    var name := Subscript(d.name, "name");
    if name.Failure? {
      return Some(ErrorText(name.error)), calls;
    }
    reply := Some("Playing '" + pl.name + "' on " + Shown(name.value));
  }
}

module DispatcherProperties {
  import opened Wrappers
  import opened Text
  import opened Spotify
  import opened Dispatcher
  import PlaylistRef
  import Resolver
  import DeviceSelector

  /** Position of each kind of request in the `!pl` pipeline. */
  function Stage(c: Call): nat {
    match c
    case FetchPlaylist(_, _) => 0
    case SearchPlaylists(_, _, _) => 0
    case ListDevices => 1
    case TransferPlayback(_, _) => 2
    case StartPlayback(_, _) => 3
  }

  /** A message that is neither `!devices` nor starts with `!pl` gets no
      reply and sends nothing. */
  lemma IgnoredMessage(text: string, deviceName: string, svc: Service)
    requires Strip(text) != DevicesCommand && !StartsWith(Strip(text), PlayCommand)
    ensures Handle(text, deviceName, svc) == Response(None, [])
  {
  }

  /** `!pl` with nothing but whitespace after it gets the usage text and
      sends nothing. */
  lemma EmptyPlayArgument(text: string, deviceName: string, svc: Service)
    requires StartsWith(Strip(text), PlayCommand)
    requires Strip(Strip(text)[|PlayCommand|..]) == []
    ensures Handle(text, deviceName, svc) == Response(Some(UsageText), [])
  {
  }

  /** `!devices` (after trimming) lists the devices once and replies with the
      listing, or with the error the listing raised. */
  lemma DevicesMessage(text: string, deviceName: string, svc: Service)
    requires Strip(text) == DevicesCommand
    ensures Handle(text, deviceName, svc).calls == [ListDevices]
    ensures svc.devicesReply.Success? ==>
      Handle(text, deviceName, svc).reply == Some(DeviceListing(svc.devicesReply.value))
    ensures svc.devicesReply.Failure? ==>
      Handle(text, deviceName, svc).reply == Some(ErrorText(svc.devicesReply.error))
  {
  }

  /** Each request sits at its own stage's position. */
  predicate InPipelineOrder(calls: seq<Call>) {
    forall i :: 0 <= i < |calls| ==> Stage(calls[i]) == i
  }

  lemma StagesInOrder(calls: seq<Call>)
    requires |calls| <= 4
    requires |calls| > 0 ==> Stage(calls[0]) == 0
    requires |calls| > 1 ==> calls[1] == ListDevices
    requires |calls| > 2 ==> calls[2].TransferPlayback?
    requires |calls| > 3 ==> calls[3].StartPlayback?
    ensures InPipelineOrder(calls)
  {
  }

  /** Every `!pl` run gets exactly one reply, and its requests are made in
      pipeline order (resolve, list devices, transfer, start), each at most
      once, with none skipped: the pipeline only ever stops early. */
  lemma PlayCallOrder(ref: string, deviceName: string, svc: Service)
    ensures var r := PlayReference(ref, deviceName, svc);
      r.reply.Some? && 1 <= |r.calls| <= 4 && InPipelineOrder(r.calls)
  {
    var r := PlayReference(ref, deviceName, svc);
    var resolve := Resolver.ResolveCall(ref);
    match Resolver.ResolvePlaylist(ref, svc)
    case Failure(e) =>
      StagesInOrder([resolve]);
    case Success(pl) =>
      match svc.devicesReply
      case Failure(e) =>
        StagesInOrder([resolve, ListDevices]);
      case Success(ds) =>
        match DeviceSelector.PickedDevice(ds, deviceName)
        case Failure(e) =>
          StagesInOrder([resolve, ListDevices]);
        case Success(None) =>
          StagesInOrder([resolve, ListDevices]);
        case Success(Some(d)) =>
          match Subscript(d.id, "id")
          case Failure(e) =>
            StagesInOrder([resolve, ListDevices]);
          case Success(id) =>
            match svc.transferReply
            case Fail(e) =>
              StagesInOrder([resolve, ListDevices, TransferPlayback(id, true)]);
            case Pass =>
              StagesInOrder([resolve, ListDevices, TransferPlayback(id, true), StartPlayback(id, pl.uri)]);
  }

  /** The first request resolves the reference; the transfer (with
      force_play) and the start go to the picked device's `id`, `None`
      included, and the start plays the resolved playlist's URI. */
  lemma PlayCallArguments(ref: string, deviceName: string, svc: Service)
    ensures var r := PlayReference(ref, deviceName, svc);
      var resolved := Resolver.ResolvePlaylist(ref, svc);
      r.calls != [] && r.calls[0] == Resolver.ResolveCall(ref) &&
      (|r.calls| >= 2 ==> resolved.Success? && r.calls[1] == ListDevices) &&
      (|r.calls| >= 3 ==>
        && svc.devicesReply.Success?
        && var p := DeviceSelector.PickedDevice(svc.devicesReply.value, deviceName);
        && p.Success? && p.value.Some? && !p.value.value.id.Absent?
        && var id := Subscript(p.value.value.id, "id").value;
        && r.calls[2] == TransferPlayback(id, true)
        && (|r.calls| == 4 ==> r.calls[3] == StartPlayback(id, resolved.value.uri)))
  {
  }

  /** Fail-fast: a failing request or step is the last one made, and its
      error is the reply. */
  lemma PlayStopsAtFailure(ref: string, deviceName: string, svc: Service)
    ensures var r := PlayReference(ref, deviceName, svc);
      var resolved := Resolver.ResolvePlaylist(ref, svc);
      var listed := [Resolver.ResolveCall(ref), ListDevices];
      && (resolved.Failure? ==> r == Response(Some(ErrorText(resolved.error)), [Resolver.ResolveCall(ref)]))
      && (resolved.Success? && svc.devicesReply.Failure? ==>
            r == Response(Some(ErrorText(svc.devicesReply.error)), listed))
      && (resolved.Success? && svc.devicesReply.Success? &&
          DeviceSelector.PickedDevice(svc.devicesReply.value, deviceName).Failure? ==>
            r == Response(Some(ErrorText(DeviceSelector.NoneHasNoLower)), listed))
      && (|r.calls| >= 3 && svc.transferReply.Fail? ==>
            |r.calls| == 3 && r.reply == Some(ErrorText(svc.transferReply.error)))
      && (|r.calls| == 4 && svc.startReply.Fail? ==>
            r.reply == Some(ErrorText(svc.startReply.error)))
  {
  }

  /** With no device available the bot says so and neither transfers nor
      starts playback. */
  lemma PlayWithoutDevice(ref: string, deviceName: string, svc: Service)
    requires Resolver.ResolvePlaylist(ref, svc).Success?
    requires svc.devicesReply == Success([])
    ensures PlayReference(ref, deviceName, svc) ==
      Response(Some(NoDeviceText), [Resolver.ResolveCall(ref), ListDevices])
  {
  }

  /** A picked device without an `id` key ends the command with
      `KeyError: 'id'` before any transfer. */
  lemma PlayMissingId(ref: string, deviceName: string, svc: Service, d: Device)
    requires Resolver.ResolvePlaylist(ref, svc).Success?
    requires svc.devicesReply.Success?
    requires DeviceSelector.PickedDevice(svc.devicesReply.value, deviceName) == Success(Some(d))
    requires d.id.Absent?
    ensures PlayReference(ref, deviceName, svc) ==
      Response(Some("Error: KeyError: 'id'"), [Resolver.ResolveCall(ref), ListDevices])
  {
    MissingKeyText();
  }

  /** A picked device without a `name` key is only noticed after playback
      has started: all four requests are made, and the reply is
      `KeyError: 'name'` instead of the success message. */
  lemma PlayMissingName(ref: string, deviceName: string, svc: Service, d: Device)
    requires Resolver.ResolvePlaylist(ref, svc).Success?
    requires svc.devicesReply.Success?
    requires DeviceSelector.PickedDevice(svc.devicesReply.value, deviceName) == Success(Some(d))
    requires !d.id.Absent? && d.name.Absent?
    requires svc.transferReply == Pass && svc.startReply == Pass
    ensures var r := PlayReference(ref, deviceName, svc);
      r.reply == Some("Error: KeyError: 'name'") && |r.calls| == 4 && r.calls[3].StartPlayback?
  {
    MissingKeyText();
  }

  lemma MissingKeyText()
    ensures ErrorText(MissingKey("id")) == "Error: KeyError: 'id'"
    ensures ErrorText(MissingKey("name")) == "Error: KeyError: 'name'"
  {
  }

  /** A picked device whose `id` is `null` is still sent to: the transfer and
      the start name the device `None`. */
  lemma PlayNullId(ref: string, deviceName: string, svc: Service, d: Device)
    requires Resolver.ResolvePlaylist(ref, svc).Success?
    requires svc.devicesReply.Success?
    requires DeviceSelector.PickedDevice(svc.devicesReply.value, deviceName) == Success(Some(d))
    requires d.id.Null? && svc.transferReply == Pass
    ensures var r := PlayReference(ref, deviceName, svc);
      |r.calls| == 4 && r.calls[2] == TransferPlayback(None, true) &&
      r.calls[3] == StartPlayback(None, Resolver.ResolvePlaylist(ref, svc).value.uri)
  {
  }

  /** When every request succeeds, the reply names the playlist as the service
      gave it and the device that was picked; a `null` name shows as `None`. */
  lemma PlaySucceeds(ref: string, deviceName: string, svc: Service, pl: Playlist, d: Device)
    requires Resolver.ResolvePlaylist(ref, svc) == Success(pl)
    requires svc.devicesReply.Success?
    requires DeviceSelector.PickedDevice(svc.devicesReply.value, deviceName) == Success(Some(d))
    requires !d.id.Absent? && !d.name.Absent?
    requires svc.transferReply == Pass && svc.startReply == Pass
    ensures PlayReference(ref, deviceName, svc).reply ==
      Some("Playing '" + pl.name + "' on " + (if d.name.Null? then "None" else d.name.text))
    ensures |PlayReference(ref, deviceName, svc).calls| == 4
  {
  }

  /** A message that starts with `!pl` and has a non-blank argument runs the
      pipeline on the trimmed argument. */
  lemma PlayMessage(text: string, deviceName: string, svc: Service)
    ensures var msg := Strip(text);
      msg != DevicesCommand && StartsWith(msg, PlayCommand) && Strip(msg[|PlayCommand|..]) != [] ==>
        Handle(text, deviceName, svc) == PlayResponse(Strip(msg[|PlayCommand|..]), deviceName, svc)
  {
  }

  lemma ExampleFacts(office: Device)
    requires office.name == Str("Office")
    ensures PlaylistRef.IsBareId("37i9dQZF1DXcBWIGoYBM5M")
    ensures !DeviceSelector.StopsNameScan(office, DeviceSelector.DefaultDeviceName)
  {
    assert AllAlnum("37i9dQZF1DXcBWIGoYBM5M");
    assert |Lower("Office")| != |Lower(DeviceSelector.DefaultDeviceName)|;
  }

  lemma PlayingText()
    ensures "Playing '" + "Chill Mix" + "' on " + "Office" == "Playing 'Chill Mix' on Office"
  {
  }

  /** `!pl <22 alphanumerics>` fetches exactly that playlist ID and plays
      what the lookup returns. */
  lemma PlayBareIdCommand(id: string, deviceName: string, svc: Service)
    requires PlaylistRef.IsBareId(id)
    ensures Handle("!pl " + id, deviceName, svc) == PlayResponse(id, deviceName, svc)
    ensures PlaylistRef.NormalizePlaylistRef(id) == PlaylistRef.UriPrefix + id
    ensures Resolver.ResolveCall(PlaylistRef.UriPrefix + id) == FetchPlaylist(id, "name,uri")
    ensures Resolver.ResolvePlaylist(PlaylistRef.UriPrefix + id, svc) == svc.playlistReply
  {
    BareIdCommandText(id);
    PlayMessage("!pl " + id, deviceName, svc);
    StripOfStripped(id);
    PlaylistRef.NormalizeBareId(id);
    Resolver.PlaylistIdOfUri(id);
  }

  /** `!pl <id>` is already trimmed, is a `!pl` command, and its trimmed
      argument is the ID. */
  lemma BareIdCommandText(id: string)
    requires PlaylistRef.IsBareId(id)
    ensures var text := "!pl " + id;
      Strip(text) == text && text != DevicesCommand && StartsWith(text, PlayCommand) &&
      Strip(text[|PlayCommand|..]) == id && IsStripped(id)
  {
    var text := "!pl " + id;
    assert IsAlnum(id[|id| - 1]);
    StripOfStripped(text);
    assert text[|PlayCommand|..] == " " + id + [];
    StripOfPadded(" ", id, []);
    assert |text| != |DevicesCommand|;
    assert text[..3] == PlayCommand;
  }

  /** End to end: `!pl` with a bare 22-character ID, one active device
      "Office", and the service naming the playlist "Chill Mix". */
  lemma PlayBareIdOnActiveDevice()
    ensures var id := "37i9dQZF1DXcBWIGoYBM5M";
      var office := Device(Str("dev-1"), Str("Office"), Str("Computer"), true);
      var svc := Service(
        Success(Playlist("spotify:playlist:" + id, "Chill Mix")),
        Success([]), Success([office]), Pass, Pass);
      Handle("!pl " + id, DeviceSelector.DefaultDeviceName, svc) ==
        Response(Some("Playing 'Chill Mix' on Office"),
                 [FetchPlaylist(id, "name,uri"), ListDevices,
                  TransferPlayback(Some("dev-1"), true), StartPlayback(Some("dev-1"), "spotify:playlist:" + id)])
  {
    var id := "37i9dQZF1DXcBWIGoYBM5M";
    var office := Device(Str("dev-1"), Str("Office"), Str("Computer"), true);
    var pl := Playlist(PlaylistRef.UriPrefix + id, "Chill Mix");
    var svc := Service(Success(pl), Success([]), Success([office]), Pass, Pass);
    ExampleFacts(office);
    DeviceSelector.PickedActive([office], DeviceSelector.DefaultDeviceName, 0);
    BareIdStartsOnDevice(id, pl, DeviceSelector.DefaultDeviceName, svc);
    StartOnOffice(FetchPlaylist(id, "name,uri"), pl, svc, office);
    PlayingText();
  }

  /** `!pl <id>` comes down to the steps after a fetch of `id` that
      returned `pl`. */
  lemma BareIdStartsOnDevice(id: string, pl: Playlist, deviceName: string, svc: Service)
    requires PlaylistRef.IsBareId(id)
    requires svc.playlistReply == Success(pl)
    ensures Handle("!pl " + id, deviceName, svc) ==
      StartOnDevice([FetchPlaylist(id, "name,uri")], pl, deviceName, svc)
  {
    var ref := PlaylistRef.UriPrefix + id;
    PlayBareIdCommand(id, deviceName, svc);
    assert PlayResponse(id, deviceName, svc) == PlayReference(ref, deviceName, svc);
  }

  /** The steps after resolution, with the active device `Office` as the
      only device and every request succeeding. */
  lemma StartOnOffice(resolve: Call, pl: Playlist, svc: Service, office: Device)
    requires office == Device(Str("dev-1"), Str("Office"), Str("Computer"), true)
    requires svc.devicesReply == Success([office])
    requires DeviceSelector.PickedDevice([office], DeviceSelector.DefaultDeviceName) == Success(Some(office))
    requires svc.transferReply == Pass && svc.startReply == Pass
    ensures StartOnDevice([resolve], pl, DeviceSelector.DefaultDeviceName, svc) ==
      Response(Some("Playing '" + pl.name + "' on " + "Office"),
               [resolve, ListDevices, TransferPlayback(Some("dev-1"), true), StartPlayback(Some("dev-1"), pl.uri)])
  {
  }
}
