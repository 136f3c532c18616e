/** The selection and shaping rules of the Spotify client: how raw tracks and
    devices from the Web API are turned into the dictionaries the backend
    returns, which device playback goes to, and what each playback call
    sends. The API calls themselves are not modelled; their answers are
    parameters. */
module SpotifyClient {
  import opened Wrappers
  import opened PyText

  // -----------------------------------------------------------------------
  // Raw API objects; a key that is absent or null is None
  // -----------------------------------------------------------------------

  datatype ApiArtist = ApiArtist(name: string, uri: Option<string>)

  datatype ApiAlbum = ApiAlbum(name: Option<string>, uri: Option<string>)

  /** A track object; a missing album is the album with no name and no uri. */
  datatype ApiTrack = ApiTrack(
    id: string,
    name: string,
    uri: Option<string>,
    artists: seq<ApiArtist>,
    album: ApiAlbum,
    durationMs: Option<int>,
    externalUrl: Option<string>,
    popularity: Option<int>,
    previewUrl: Option<string>)

  /** A device object, with one of the keys the listing drops. */
  datatype ApiDevice = ApiDevice(
    id: Option<string>,
    name: Option<string>,
    kind: Option<string>,
    isActive: Option<bool>,
    volumePercent: Option<int>,
    isRestricted: Option<bool>)

  // -----------------------------------------------------------------------
  // Shaped results
  // -----------------------------------------------------------------------

  /** A formatted track. `popularity` and `previewUrl` are None exactly when
      the key is left out of the dictionary. */
  datatype Track = Track(
    id: string,
    name: string,
    uri: Option<string>,
    artists: seq<string>,
    artistUris: seq<string>,
    album: Option<string>,
    albumUri: Option<string>,
    durationMs: Option<int>,
    externalUrl: Option<string>,
    popularity: Option<int>,
    previewUrl: Option<string>)

  datatype RankedTrack = RankedTrack(track: Track, rank: int)

  datatype DeviceView = DeviceView(
    id: Option<string>,
    name: Option<string>,
    kind: Option<string>,
    isActive: Option<bool>,
    volumePercent: Option<int>)

  /** A string value that Python treats as true: present and non-empty. */
  predicate Truthy(v: Option<string>) {
    v.Some? && v.value != ""
  }

  // -----------------------------------------------------------------------
  // _format_track
  // -----------------------------------------------------------------------

  /** The uris of the artists that have one, in order. */
  function ArtistUris(artists: seq<ApiArtist>): (r: seq<string>)
    ensures |r| <= |artists|
    ensures forall j :: 0 <= j < |r| ==> r[j] != ""
  {
    if artists == [] then []
    else
      var rest := ArtistUris(artists[1..]);
      if Truthy(artists[0].uri) then [artists[0].uri.value] + rest else rest
  }

  /** A string is collected exactly when some artist has it as its uri. */
  lemma {:induction false} ArtistUrisFromArtists(artists: seq<ApiArtist>, u: string)
    ensures u in ArtistUris(artists) <==> u != "" && exists a :: a in artists && a.uri == Some(u)
    decreases |artists|
  {
    if artists != [] {
      ArtistUrisFromArtists(artists[1..], u);
      assert artists == [artists[0]] + artists[1..];
    }
  }

  /** No uri is collected exactly when no artist has one. */
  lemma {:induction false} ArtistUrisEmpty(artists: seq<ApiArtist>)
    ensures ArtistUris(artists) == [] <==> forall a :: a in artists ==> !Truthy(a.uri)
    decreases |artists|
  {
    if artists != [] {
      ArtistUrisEmpty(artists[1..]);
      assert artists == [artists[0]] + artists[1..];
    }
  }

  /** Collecting uris commutes with concatenation, so their order is the
      artists' order. */
  lemma {:induction false} ArtistUrisAppend(xs: seq<ApiArtist>, ys: seq<ApiArtist>)
    ensures ArtistUris(xs + ys) == ArtistUris(xs) + ArtistUris(ys)
    decreases |xs|
  {
    if xs != [] {
      assert (xs + ys)[1..] == xs[1..] + ys;
      ArtistUrisAppend(xs[1..], ys);
    } else {
      assert xs + ys == ys;
    }
  }

  function Names(artists: seq<ApiArtist>): (r: seq<string>)
    ensures |r| == |artists|
    ensures forall j :: 0 <= j < |r| ==> r[j] == artists[j].name
  {
    seq(|artists|, j requires 0 <= j < |artists| => artists[j].name)
  }

  /** `_format_track`. */
  function FormatTrack(t: ApiTrack): (r: Track)
    ensures r.id == t.id && r.name == t.name && r.uri == t.uri
    ensures |r.artists| == |t.artists|
    ensures forall j :: 0 <= j < |t.artists| ==> r.artists[j] == t.artists[j].name
    ensures r.artistUris == ArtistUris(t.artists)
    ensures r.album == t.album.name && r.albumUri == t.album.uri
    ensures r.durationMs == t.durationMs && r.externalUrl == t.externalUrl
    ensures r.popularity.Some? <==> t.popularity.Some?
    ensures r.previewUrl.Some? <==> t.previewUrl.Some?
    ensures r.popularity.Some? ==> r.popularity == t.popularity
    ensures r.previewUrl.Some? ==> r.previewUrl == t.previewUrl
  {
    Track(t.id, t.name, t.uri, Names(t.artists), ArtistUris(t.artists), t.album.name, t.album.uri,
          t.durationMs, t.externalUrl, t.popularity, t.previewUrl)
  }

  // -----------------------------------------------------------------------
  // search_track, get_top_tracks and list_devices
  // -----------------------------------------------------------------------

  /** `search_track` on the items the API returned: each item formatted, in
      order. */
  function FormatAll(items: seq<ApiTrack>): (r: seq<Track>)
    ensures |r| == |items|
    ensures forall j :: 0 <= j < |r| ==> r[j] == FormatTrack(items[j])
  {
    seq(|items|, j requires 0 <= j < |items| => FormatTrack(items[j]))
  }

  /** `get_top_tracks` on the items the API returned: formatted, in order,
      ranked from 1. */
  function RankTracks(items: seq<ApiTrack>): (r: seq<RankedTrack>)
    ensures |r| == |items|
    ensures forall j :: 0 <= j < |r| ==> r[j].track == FormatTrack(items[j])
  {
    seq(|items|, j requires 0 <= j < |items| => RankedTrack(FormatTrack(items[j]), j + 1))
  }

  /** The ranks are 1, 2, ..., n in input order: the first is 1, each one is
      the previous plus one, all lie in 1..n and they increase, so each of
      1..n is used exactly once. */
  lemma RanksCountFromOne(items: seq<ApiTrack>)
    ensures var r := RankTracks(items);
      && (|r| > 0 ==> r[0].rank == 1)
      && (forall j :: 0 < j < |r| ==> r[j].rank == r[j - 1].rank + 1)
      && (forall j :: 0 <= j < |r| ==> 1 <= r[j].rank <= |items|)
      && (forall i, j :: 0 <= i < j < |r| ==> r[i].rank < r[j].rank)
  {
  }

  function ViewDevice(d: ApiDevice): DeviceView {
    DeviceView(d.id, d.name, d.kind, d.isActive, d.volumePercent)
  }

  /** `list_devices` on the devices the API returned. */
  function ListDevices(devices: seq<ApiDevice>): (r: seq<DeviceView>)
    ensures |r| == |devices|
    ensures forall j :: 0 <= j < |r| ==> r[j] == ViewDevice(devices[j])
  {
    seq(|devices|, j requires 0 <= j < |devices| => ViewDevice(devices[j]))
  }

  /** The listing keeps every field it shows and the device order: the
      device at each position can be read back from the view there, apart
      from the dropped key. */
  lemma ListingKeepsDevices(devices: seq<ApiDevice>)
    ensures var r := ListDevices(devices);
      forall j :: 0 <= j < |r| ==>
        devices[j] == ApiDevice(r[j].id, r[j].name, r[j].kind, r[j].isActive, r[j].volumePercent,
                                devices[j].isRestricted)
  {
  }

  // -----------------------------------------------------------------------
  // _get_active_device_id and the device placeholder
  // -----------------------------------------------------------------------

  predicate Active(d: ApiDevice) {
    d.isActive == Some(true)
  }

  /** Index of the first active device; `|devices|` when none is active. */
  function FirstActive(devices: seq<ApiDevice>): (i: nat)
    ensures i <= |devices|
    ensures forall j :: 0 <= j < i ==> !Active(devices[j])
    ensures i < |devices| ==> Active(devices[i])
  {
    if devices == [] || Active(devices[0]) then 0 else 1 + FirstActive(devices[1..])
  }

  /** The device playback goes to when none is given. */
  function PreferredDevice(devices: seq<ApiDevice>): Option<string> {
    var i := FirstActive(devices);
    if i < |devices| then devices[i].id
    else if devices != [] then devices[0].id
    else None
  }

  /** The choice: the first active device, otherwise the first device,
      otherwise none. */
  lemma PreferredDeviceChoice(devices: seq<ApiDevice>)
    ensures (exists i :: 0 <= i < |devices| && Active(devices[i])) ==>
      exists i :: 0 <= i < |devices| && Active(devices[i])
        && (forall j :: 0 <= j < i ==> !Active(devices[j]))
        && PreferredDevice(devices) == devices[i].id
    ensures (forall i :: 0 <= i < |devices| ==> !Active(devices[i])) && devices != [] ==>
      PreferredDevice(devices) == devices[0].id
    ensures devices == [] ==> PreferredDevice(devices) == None
  {
    var i := FirstActive(devices);
    if i < |devices| {
      assert Active(devices[i]) && (forall j :: 0 <= j < i ==> !Active(devices[j]));
    }
  }

  /** `_get_active_device_id` on the devices the API returned: a scan that
      returns at the first active device. */
  method GetActiveDeviceId(devices: seq<ApiDevice>) returns (r: Option<string>)
    ensures r == PreferredDevice(devices)
  {
    var i := 0;
    while i < |devices|
      invariant 0 <= i <= |devices|
      invariant forall j :: 0 <= j < i ==> !Active(devices[j])
    {
      if devices[i].isActive == Some(true) {
        assert FirstActive(devices) == i by {
          FirstActiveIs(devices, i);
        }
        return devices[i].id;
      }
      i := i + 1;
    }
    FirstActiveIs(devices, |devices|);
    if |devices| > 0 {
      return devices[0].id;
    }
    return None;
  }

  /** The first active device is the one the scan stops at. */
  lemma FirstActiveIs(devices: seq<ApiDevice>, i: nat)
    requires i <= |devices|
    requires forall j :: 0 <= j < i ==> !Active(devices[j])
    requires i < |devices| ==> Active(devices[i])
    ensures FirstActive(devices) == i
  {
  }

  /** A requested device id that is missing, empty or "string" in any case
      (the example value of the API form) stands for "no device". */
  predicate IsPlaceholder(requested: Option<string>) {
    !Truthy(requested) || Lower(requested.value) == "string"
  }

  /** The device a `play_*` method uses. */
  function DeviceFor(requested: Option<string>, devices: seq<ApiDevice>): (r: Option<string>)
    ensures !IsPlaceholder(requested) ==> r == requested
    ensures IsPlaceholder(requested) ==> r == PreferredDevice(devices)
  {
    if IsPlaceholder(requested) then PreferredDevice(devices) else requested
  }

  /** A real device id is passed through; a placeholder is replaced by the id
      of a listed device (none when nothing is listed). "STRING" and
      "String" are placeholders. */
  lemma DeviceForPicksListed(requested: Option<string>, devices: seq<ApiDevice>)
    ensures var r := DeviceFor(requested, devices);
      && (Truthy(requested) && Lower(requested.value) != "string" ==> r == requested)
      && (IsPlaceholder(requested) && devices != [] ==> exists j :: 0 <= j < |devices| && r == devices[j].id)
      && (IsPlaceholder(requested) && devices == [] ==> r == None)
    ensures IsPlaceholder(Some("STRING")) && IsPlaceholder(Some("String")) && IsPlaceholder(Some(""))
    ensures !IsPlaceholder(Some("abc123"))
  {
    var i := FirstActive(devices);
    if i < |devices| {
      assert DeviceFor(requested, devices) == devices[i].id || !IsPlaceholder(requested);
    }
    assert Lower("STRING") == "string";
    assert Lower("String") == "string";
    assert Lower("abc123") == "abc123";
  }

  // -----------------------------------------------------------------------
  // play_track, play_artist and play_multi_track
  // -----------------------------------------------------------------------

  /** What `start_playback` is asked to play. */
  datatype Command =
    | StartTrack(device: Option<string>, trackUri: Option<string>)
    | StartContext(device: Option<string>, contextUri: string)
    | StartTracks(device: Option<string>, uris: seq<string>)

  /** The context dictionary a `play_*` method returns; `shuffle` records the
      `shuffle(state=True)` call that follows `start_playback`. */
  datatype PlayContext =
    | TrackContext(device: Option<string>, shuffle: bool)
    | ArtistContext(artistUri: string, device: Option<string>, shuffle: bool)
    | MultiContext(device: Option<string>, shuffle: bool, trackCount: nat, artists: set<string>)

  datatype Played = Played(command: Command, context: PlayContext)

  /** A Web API call that raises during a `play_*` method, with the message of
      the exception: the device listing, which is made only when no real
      device id is given, or the playback calls (`start_playback`, then
      `shuffle`). */
  datatype ApiFault = NoFault | ListingFails(message: string) | PlaybackFails(message: string)

  /** The device listing raises: this happens before the track is looked at. */
  predicate ListingRaises(fault: ApiFault, requested: Option<string>) {
    fault.ListingFails? && IsPlaceholder(requested)
  }

  /** Some Web API call made by a `play_*` method raises. */
  predicate Raises(fault: ApiFault, requested: Option<string>) {
    ListingRaises(fault, requested) || fault.PlaybackFails?
  }

  /** `play_track`: plays the track's uri on the chosen device, unless a Web
      API call raises. */
  function PlayTrack(track: Track, requested: Option<string>, devices: seq<ApiDevice>, fault: ApiFault): (r: Result<Played, string>)
    ensures r.Err? <==> Raises(fault, requested)
    ensures r.Err? ==> r.error == fault.message
    ensures r.Ok? ==>
      && r.value.command == StartTrack(DeviceFor(requested, devices), track.uri)
      && r.value.context == TrackContext(r.value.command.device, true)
  {
    if ListingRaises(fault, requested) then Err(fault.message)
    else
      var device := DeviceFor(requested, devices);
      if fault.PlaybackFails? then Err(fault.message)
      else Ok(Played(StartTrack(device, track.uri), TrackContext(device, true)))
  }

  const NO_ARTIST_URI: string := "No artist URI found for track: "

  /** The track has no first artist uri to play. */
  predicate NoArtistUri(track: Track) {
    track.artistUris == [] || track.artistUris[0] == ""
  }

  /** `play_artist`: plays the context of the first artist uri. The device is
      chosen first, then the uri is checked, then playback is started. */
  function PlayArtist(track: Track, requested: Option<string>, devices: seq<ApiDevice>, fault: ApiFault): (r: Result<Played, string>)
    ensures r.Err? <==> Raises(fault, requested) || NoArtistUri(track)
    ensures ListingRaises(fault, requested) ==> r == Err(fault.message)
    ensures !ListingRaises(fault, requested) && NoArtistUri(track) ==> r == Err(NO_ARTIST_URI + track.name)
    ensures !NoArtistUri(track) && fault.PlaybackFails? ==> r == Err(fault.message)
    ensures r.Ok? ==>
      && r.value.command == StartContext(DeviceFor(requested, devices), track.artistUris[0])
      && r.value.context == ArtistContext(track.artistUris[0], r.value.command.device, true)
  {
    if ListingRaises(fault, requested) then Err(fault.message)
    else
      var device := DeviceFor(requested, devices);
      var artistUri := if track.artistUris == [] then None else Some(track.artistUris[0]);
      if !Truthy(artistUri) then Err(NO_ARTIST_URI + track.name)
      else if fault.PlaybackFails? then Err(fault.message)
      else Ok(Played(StartContext(device, artistUri.value), ArtistContext(artistUri.value, device, true)))
  }

  /** On a formatted track, `play_artist` fails exactly when no artist of the
      raw track has a uri. */
  lemma PlayArtistNeedsArtistUri(t: ApiTrack, requested: Option<string>, devices: seq<ApiDevice>, fault: ApiFault)
    ensures PlayArtist(FormatTrack(t), requested, devices, fault).Err? <==>
      Raises(fault, requested) || forall a :: a in t.artists ==> !Truthy(a.uri)
  {
    ArtistUrisEmpty(t.artists);
  }

  /** Otherwise it plays the artist context of the first artist that has a
      uri. */
  lemma PlayArtistUsesFirstUri(t: ApiTrack, requested: Option<string>, devices: seq<ApiDevice>, fault: ApiFault)
    requires PlayArtist(FormatTrack(t), requested, devices, fault).Ok?
    ensures var j := FirstWithUri(t.artists);
      && j < |t.artists|
      && PlayArtist(FormatTrack(t), requested, devices, fault).value.command.contextUri == t.artists[j].uri.value
  {
    FirstUriFirst(t.artists);
  }

  /** The first collected uri belongs to the first artist that has one. */
  lemma {:induction false} FirstUriFirst(artists: seq<ApiArtist>)
    requires ArtistUris(artists) != []
    ensures FirstWithUri(artists) < |artists|
    ensures ArtistUris(artists)[0] == artists[FirstWithUri(artists)].uri.value
    decreases |artists|
  {
    if !Truthy(artists[0].uri) {
      FirstUriFirst(artists[1..]);
    }
  }

  /** Index of the first artist with a uri; `|artists|` when none has. */
  function FirstWithUri(artists: seq<ApiArtist>): (j: nat)
    ensures j <= |artists|
    ensures forall k :: 0 <= k < j ==> !Truthy(artists[k].uri)
    ensures j < |artists| ==> Truthy(artists[j].uri)
  {
    if artists == [] || Truthy(artists[0].uri) then 0 else 1 + FirstWithUri(artists[1..])
  }

  /** The uris of the tracks that have one, in order. */
  function TrackUris(tracks: seq<Track>): (r: seq<string>)
    ensures |r| <= |tracks|
    ensures forall j :: 0 <= j < |r| ==> r[j] != ""
  {
    if tracks == [] then []
    else
      var rest := TrackUris(tracks[1..]);
      if Truthy(tracks[0].uri) then [tracks[0].uri.value] + rest else rest
  }

  /** A string is played exactly when some track has it as its uri. */
  lemma {:induction false} TrackUrisFromTracks(tracks: seq<Track>, u: string)
    ensures u in TrackUris(tracks) <==> u != "" && exists t :: t in tracks && t.uri == Some(u)
    decreases |tracks|
  {
    if tracks != [] {
      TrackUrisFromTracks(tracks[1..], u);
      assert tracks == [tracks[0]] + tracks[1..];
    }
  }

  /** Collecting uris commutes with concatenation: the uris keep the order of
      the tracks, and a track without a uri adds nothing. */
  lemma {:induction false} TrackUrisAppend(xs: seq<Track>, ys: seq<Track>)
    ensures TrackUris(xs + ys) == TrackUris(xs) + TrackUris(ys)
    decreases |xs|
  {
    if xs != [] {
      assert (xs + ys)[1..] == xs[1..] + ys;
      TrackUrisAppend(xs[1..], ys);
    } else {
      assert xs + ys == ys;
    }
  }

  /** The distinct artist names over all tracks. */
  function ArtistSet(tracks: seq<Track>): (r: set<string>)
    ensures forall a :: a in r <==> exists t :: t in tracks && a in t.artists
  {
    set t, a | t in tracks && a in t.artists :: a
  }

  /** `play_multi_track`: plays every track that has a uri and reports how
      many, with the distinct artists, unless a Web API call raises. */
  function PlayMultiTrack(tracks: seq<Track>, requested: Option<string>, devices: seq<ApiDevice>, fault: ApiFault): (r: Result<Played, string>)
    ensures r.Err? <==> Raises(fault, requested)
    ensures r.Err? ==> r.error == fault.message
    ensures r.Ok? ==>
      && r.value.command == StartTracks(DeviceFor(requested, devices), TrackUris(tracks))
      && r.value.context.MultiContext? && r.value.context.shuffle
      && r.value.context.device == r.value.command.device
      && r.value.context.trackCount == |r.value.command.uris| <= |tracks|
      && r.value.context.artists == ArtistSet(tracks)
  {
    if ListingRaises(fault, requested) then Err(fault.message)
    else
      var device := DeviceFor(requested, devices);
      var uris := TrackUris(tracks);
      if fault.PlaybackFails? then Err(fault.message)
      else Ok(Played(StartTracks(device, uris), MultiContext(device, true, |uris|, ArtistSet(tracks))))
  }

  /** When every track has a uri, all of them are played, in order. */
  lemma {:induction false} AllTracksPlayed(tracks: seq<Track>)
    requires forall t :: t in tracks ==> Truthy(t.uri)
    ensures |TrackUris(tracks)| == |tracks|
    ensures forall j :: 0 <= j < |tracks| ==> Some(TrackUris(tracks)[j]) == tracks[j].uri
    decreases |tracks|
  {
    if tracks != [] {
      assert forall t :: t in tracks[1..] ==> t in tracks;
      AllTracksPlayed(tracks[1..]);
    }
  }
}
