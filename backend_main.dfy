/** The play logic of the backend: the search query taken from an intent, the
    choice between playing a whole pool of tracks, an artist's catalogue or a
    single track, the answer of the `/play` endpoint, the action recorded for
    a request, and the check on the `/play-track` endpoint. Intent parsing,
    the search and the device listing are external services; their answers
    are parameters. */
module BackendMain {
  import opened Wrappers
  import opened PyText
  import opened IntentEngine
  import opened SpotifyClient

  // -----------------------------------------------------------------------
  // _resolve_play_query
  // -----------------------------------------------------------------------

  /** The search query: the intent's stripped query, or the stripped message
      when that query is empty or the action is "unknown". */
  function ResolvePlayQuery(intent: Intent, message: string): (r: string)
    ensures IsStripped(r)
    ensures r == Strip(message) || r == Strip(intent.query.GetOr(""))
  {
    var query := Strip(intent.query.GetOr(""));
    if query == "" || intent.action == Some(UNKNOWN) then Strip(message) else query
  }

  /** When the message is used instead of the intent's query, and that the
      result is blank only for a blank message. */
  lemma ResolveFallsBack(intent: Intent, message: string)
    ensures var q := Strip(intent.query.GetOr(""));
      var r := ResolvePlayQuery(intent, message);
      && (q == "" || intent.action == Some(UNKNOWN) ==> r == Strip(message))
      && (q != "" && intent.action != Some(UNKNOWN) ==> r == q && r != "")
      && (r == "" ==> Strip(message) == "")
  {
  }

  /** With the keyword fallback, the query searched for is always a tail of
      the stripped message, and it is empty only when the message is blank. */
  lemma KeywordQueryIsTail(message: string)
    ensures var text := Strip(message);
      var r := ResolvePlayQuery(Fallback(message), message);
      && |r| <= |text| && r == text[|text| - |r|..]
      && (r == "" <==> text == "")
  {
    var text := Strip(message);
    var intent := Fallback(message);
    var q := intent.query.value;
    assert intent.query == ParseWithKeywords(message).query;
    QueryIsTail(message);
    StrippedIsFixed(q);
    var r := ResolvePlayQuery(intent, message);
    assert r == text || r == q;
    assert text[0..] == text;
  }

  // -----------------------------------------------------------------------
  // The merge of the second search
  // -----------------------------------------------------------------------

  function Ids(tracks: seq<Track>): set<string> {
    set t | t in tracks :: t.id
  }

  /** `[t for t in extra if t["id"] not in seen]`. */
  function Unseen(extra: seq<Track>, seen: set<string>): (r: seq<Track>)
    ensures |r| <= |extra|
    ensures forall j :: 0 <= j < |r| ==> r[j].id !in seen
  {
    if extra == [] then []
    else if extra[0].id in seen then Unseen(extra[1..], seen)
    else [extra[0]] + Unseen(extra[1..], seen)
  }

  /** A track is kept exactly when it is in `extra` with an id not seen. */
  lemma {:induction false} UnseenMembers(extra: seq<Track>, seen: set<string>, t: Track)
    ensures t in Unseen(extra, seen) <==> t in extra && t.id !in seen
    decreases |extra|
  {
    if extra != [] {
      UnseenMembers(extra[1..], seen, t);
      assert extra == [extra[0]] + extra[1..];
    }
  }

  /** `results += ...`: the results, then the extra tracks whose id is not
      among the results' ids. */
  function Merge(results: seq<Track>, extra: seq<Track>): (r: seq<Track>)
    ensures |results| <= |r| <= |results| + |extra|
    ensures r[..|results|] == results
    ensures forall j :: |results| <= j < |r| ==> r[j].id !in Ids(results)
  {
    results + Unseen(extra, Ids(results))
  }

  /** The merge keeps the results in front, in order, adds only tracks of the
      second list whose id does not occur in the results, and adds all of
      them. */
  lemma MergeAddsUnseen(results: seq<Track>, extra: seq<Track>, t: Track)
    ensures t in Merge(results, extra)[|results|..] <==> t in extra && t.id !in Ids(results)
    ensures t in Merge(results, extra) <==> t in results || (t in extra && t.id !in Ids(results))
  {
    UnseenMembers(extra, Ids(results), t);
    assert Merge(results, extra)[|results|..] == Unseen(extra, Ids(results));
  }

  /** Ids are compared only against the first results: a track that occurs
      twice in the second search is added twice when its id is new, and not
      at all otherwise. */
  lemma MergeKeepsRepeatsOfExtra(results: seq<Track>, x: Track)
    ensures x.id !in Ids(results) ==> Merge(results, [x, x]) == results + [x, x]
    ensures x.id in Ids(results) ==> Merge(results, [x, x]) == results
  {
    var seen := Ids(results);
    assert [x][1..] == [];
    assert [x, x][1..] == [x];
    assert Unseen([], seen) == [];
    if x.id !in seen {
      assert Unseen([x], seen) == [x];
      assert Unseen([x, x], seen) == [x, x];
    } else {
      assert Unseen([x], seen) == [];
      assert Unseen([x, x], seen) == [];
    }
  }

  // -----------------------------------------------------------------------
  // The mode decision
  // -----------------------------------------------------------------------

  datatype Mode = Multi | ArtistMix | SingleTrack

  function ModeName(m: Mode): string {
    match m
    case Multi => "multi"
    case ArtistMix => "artist"
    case SingleTrack => "track"
  }

  /** The first artist of a track, or "" when it has none. */
  function TopArtist(t: Track): string {
    if t.artists != [] then t.artists[0] else ""
  }

  /** A word of the top artist's name is a word of the query (lower-cased,
      split on white space). */
  predicate ArtistNamed(query: string, t: Track) {
    WordSet(TopArtist(t)) * WordSet(query) != {}
  }

  predicate TrackNamed(query: string, t: Track) {
    WordSet(t.name) * WordSet(query) != {}
  }

  /** What `/play` decides from the first search and the second search
      (which is made only when no artist is named). */
  datatype Decision =
    | NotFound
    | Chosen(mode: Mode, track: Track, pool: seq<Track>)

  function Decide(query: string, results: seq<Track>, extra: seq<Track>): (d: Decision)
    ensures d.Chosen? ==> results != [] && d.track == results[0]
    ensures d.Chosen? ==> |results| <= |d.pool| && d.pool[..|results|] == results
  {
    if results == [] then NotFound
    else
      var track := results[0];
      var named := ArtistNamed(query, track);
      var pool := if named then results else Merge(results, extra);
      var diverse := !named && |ArtistSet(pool)| >= 2;
      if diverse then Chosen(Multi, track, pool)
      else if named && !TrackNamed(query, track) then Chosen(ArtistMix, track, pool)
      else Chosen(SingleTrack, track, pool)
  }

  /** An empty search gives no mode at all. */
  lemma NotFoundIffNoResults(query: string, results: seq<Track>, extra: seq<Track>)
    ensures Decide(query, results, extra).NotFound? <==> results == []
  {
  }

  /** When the query names the top artist, the pool is never widened and the
      mode is never `multi`. */
  lemma NamedArtistNeverMulti(query: string, results: seq<Track>, extra: seq<Track>)
    requires results != [] && ArtistNamed(query, results[0])
    ensures Decide(query, results, extra).mode != Multi
    ensures Decide(query, results, extra).pool == results
  {
  }

  /** `multi` exactly when no artist is named and the merged pool has at
      least two distinct artists. */
  lemma MultiIffDiverse(query: string, results: seq<Track>, extra: seq<Track>)
    requires results != []
    ensures Decide(query, results, extra).mode == Multi <==>
      !ArtistNamed(query, results[0]) && |ArtistSet(Merge(results, extra))| >= 2
  {
  }

  /** `artist` exactly when the top artist is named and no word of the top
      track's name is in the query; `track` in every other case. */
  lemma ArtistIffOnlyArtistNamed(query: string, results: seq<Track>, extra: seq<Track>)
    requires results != []
    ensures Decide(query, results, extra).mode == ArtistMix <==>
      ArtistNamed(query, results[0]) && !TrackNamed(query, results[0])
    ensures Decide(query, results, extra).mode == SingleTrack <==>
      && !(ArtistNamed(query, results[0]) && !TrackNamed(query, results[0]))
      && !(!ArtistNamed(query, results[0]) && |ArtistSet(Merge(results, extra))| >= 2)
  {
  }

  lemma WordSetOfEmpty()
    ensures WordSet("") == {}
  {
    assert Lower("") == "";
  }

  /** A named artist is a real one: the top track has an artist, and its
      name shares a word with the query. */
  lemma NamedArtistExists(query: string, t: Track)
    requires ArtistNamed(query, t)
    ensures t.artists != []
    ensures exists w :: w in Words(Lower(t.artists[0])) && w in Words(Lower(query))
  {
    WordSetOfEmpty();
    var w :| w in WordSet(TopArtist(t)) * WordSet(query);
  }

  /** A `multi` pool is not all by one artist: two of its tracks name
      different artists. */
  lemma MultiPoolHasTwoArtists(query: string, results: seq<Track>, extra: seq<Track>)
    requires Decide(query, results, extra).Chosen? && Decide(query, results, extra).mode == Multi
    ensures var pool := Decide(query, results, extra).pool;
      exists a, b :: a != b && a in ArtistSet(pool) && b in ArtistSet(pool)
  {
    var s := ArtistSet(Decide(query, results, extra).pool);
    var a :| a in s;
    assert |s - {a}| >= 1;
    var b :| b in s - {a};
  }

  // -----------------------------------------------------------------------
  // The /play endpoint
  // -----------------------------------------------------------------------

  datatype HttpError = HttpError(status: int, detail: string)

  /** The JSON answer of a successful `/play` (its "status" is "playing"). */
  datatype Response =
    | MultiResponse(trackCount: nat, artists: set<string>, shuffle: bool, device: Option<string>)
    | ArtistResponse(artist: string, shuffle: bool, device: Option<string>)
    | TrackResponse(track: string, trackArtists: seq<string>, uri: Option<string>, shuffle: bool, device: Option<string>)

  function ResponseMode(r: Response): string {
    match r
    case MultiResponse(_, _, _, _) => "multi"
    case ArtistResponse(_, _, _) => "artist"
    case TrackResponse(_, _, _, _, _) => "track"
  }

  /** The row written for a request. */
  datatype MoodRecord = MoodRecord(message: string, action: Option<string>, query: Option<string>, source: Option<string>)

  /** What a `/play` request does: the answer, the playback commands sent and
      the row saved. */
  datatype Outcome = Outcome(reply: Result<Response, HttpError>, commands: seq<Command>, saved: Option<MoodRecord>)

  /** The action saved for a request: the mode when one is given and
      non-empty, the intent's action otherwise. */
  function SavedAction(mode: Option<string>, intent: Intent): (r: Option<string>)
    ensures Truthy(mode) ==> r == mode
    ensures !Truthy(mode) ==> r == intent.action
  {
    if Truthy(mode) then mode else intent.action
  }

  /** `_save_mood_request`. */
  function MoodRow(message: string, intent: Intent, query: Option<string>, mode: Option<string>): (r: MoodRecord)
    ensures r.message == message && r.query == query && r.source == intent.source
    ensures r.action == SavedAction(mode, intent)
  {
    MoodRecord(message, SavedAction(mode, intent), query, intent.source)
  }

  const NOT_FOUND_PREFIX: string := "No tracks found for: '"
  const INTENT_ERROR_PREFIX: string := "Intent engine error: "

  /** The `play_*` call made for the chosen mode. */
  function Playback(
    mode: Mode, track: Track, pool: seq<Track>, requested: Option<string>,
    devices: seq<ApiDevice>, fault: ApiFault): Result<Played, string>
  {
    match mode
    case Multi => PlayMultiTrack(pool, requested, devices, fault)
    case ArtistMix => PlayArtist(track, requested, devices, fault)
    case SingleTrack => PlayTrack(track, requested, devices, fault)
  }

  /** The answer built from the context a `play_*` call returned: it reports
      that call's shuffle state and device. */
  function Answer(track: Track, ctx: PlayContext): (r: Response)
    ensures r.shuffle == ctx.shuffle && r.device == ctx.device
    ensures ResponseMode(r) == "track" <==> ctx.TrackContext?
    ensures ResponseMode(r) == "artist" <==> ctx.ArtistContext?
  {
    match ctx
    case MultiContext(device, shuffle, count, artists) => MultiResponse(count, artists, shuffle, device)
    case ArtistContext(_, device, shuffle) => ArtistResponse(TopArtist(track), shuffle, device)
    case TrackContext(device, shuffle) => TrackResponse(track.name, track.artists, track.uri, shuffle, device)
  }

  /** The playback of the chosen mode, the answer and the row saved. Any
      exception of the `play_*` call is answered 400 with its message, and
      then nothing is saved. A success answers with shuffle on, on the device
      played to, with the fields of the mode's answer. */
  function PlayMode(
    message: string, requested: Option<string>, intent: Intent, query: string,
    mode: Mode, track: Track, pool: seq<Track>, devices: seq<ApiDevice>, fault: ApiFault): (o: Outcome)
    ensures var p := Playback(mode, track, pool, requested, devices, fault);
      && (o.reply.Err? <==> p.Err?)
      && (p.Err? ==> o == Outcome(Err(HttpError(400, p.error)), [], None))
      && (p.Ok? ==>
            && o.commands == [p.value.command]
            && ResponseMode(o.reply.value) == ModeName(mode)
            && o.reply.value.shuffle
            && o.reply.value.device == p.value.command.device
            && o.saved == Some(MoodRow(message, intent, Some(query), Some(ModeName(mode)))))
    ensures var p := Playback(mode, track, pool, requested, devices, fault);
      p.Ok? ==>
        && (mode == SingleTrack ==>
              o.reply.value == TrackResponse(track.name, track.artists, track.uri, true, p.value.command.device))
        && (mode == ArtistMix ==> o.reply.value == ArtistResponse(TopArtist(track), true, p.value.command.device))
        && (mode == Multi ==>
              o.reply.value == MultiResponse(p.value.context.trackCount, p.value.context.artists, true, p.value.command.device))
  {
    match Playback(mode, track, pool, requested, devices, fault)
    case Err(e) => Outcome(Err(HttpError(400, e)), [], None)
    case Ok(p) =>
      Outcome(Ok(Answer(track, p.context)), [p.command], Some(MoodRow(message, intent, Some(query), Some(ModeName(mode)))))
  }

  /** FastAPI's answer to an exception the endpoint does not catch. */
  const SERVER_ERROR: string := "Internal Server Error"

  /** A Spotify search: the tracks found, or the message of the exception it
      raised. */
  type Search = string -> Result<seq<Track>, string>

  /** The searches of `/play` and the decision they lead to. The second search
      (`query + " mix"`) is made only when no artist is named. The searches
      run outside the `try`, so an exception of either one is a 500. */
  function SearchAndDecide(query: string, search: Search): (r: Result<Decision, HttpError>)
    ensures search(query).Err? ==> r == Err(HttpError(500, SERVER_ERROR))
    ensures search(query) == Ok([]) ==> r == Ok(NotFound)
    ensures r.Err? ==> r.error == HttpError(500, SERVER_ERROR)
    ensures r.Ok? && r.value.Chosen? ==> search(query).Ok? && r.value.track == search(query).value[0]
  {
    match search(query)
    case Err(_) => Err(HttpError(500, SERVER_ERROR))
    case Ok(results) =>
      if results == [] || ArtistNamed(query, results[0]) then Ok(Decide(query, results, []))
      else
        match search(query + " mix")
        case Err(_) => Err(HttpError(500, SERVER_ERROR))
        case Ok(extra) => Ok(Decide(query, results, extra))
  }

  /** With a non-empty first search: a named artist decides on the first
      results alone, without the second search; otherwise the decision
      merges the second search, and a failure of that search fails the
      request. */
  lemma SecondSearchOnlyWithoutArtist(query: string, search: Search)
    requires search(query).Ok? && search(query).value != []
    ensures var results := search(query).value;
      ArtistNamed(query, results[0]) ==> SearchAndDecide(query, search) == Ok(Decide(query, results, []))
    ensures var results := search(query).value;
      !ArtistNamed(query, results[0]) && search(query + " mix").Ok? ==>
        SearchAndDecide(query, search) == Ok(Decide(query, results, search(query + " mix").value))
    ensures var results := search(query).value;
      SearchAndDecide(query, search).Err? <==> !ArtistNamed(query, results[0]) && search(query + " mix").Err?
  {
  }

  /** `/play`: `parsed` is the intent (or the parser's failure), `search`
      answers track searches, `devices` is the device list used when no real
      device id is given, and `fault` is the Web API call that raises during
      playback, if any. A request is saved exactly when it succeeds, and a
      failed request sends no command. */
  function Play(
    message: string, requested: Option<string>, parsed: Result<Intent, string>,
    search: Search, devices: seq<ApiDevice>, fault: ApiFault): (o: Outcome)
    ensures parsed.Err? ==> o == Outcome(Err(HttpError(500, INTENT_ERROR_PREFIX + parsed.error)), [], None)
    ensures o.reply.Ok? <==> o.saved.Some?
    ensures o.reply.Ok? ==> |o.commands| == 1
    ensures o.reply.Err? ==> o.commands == [] && o.reply.error.status in {400, 404, 500}
  {
    if parsed.Err? then Outcome(Err(HttpError(500, INTENT_ERROR_PREFIX + parsed.error)), [], None)
    else
      var intent := parsed.value;
      var query := ResolvePlayQuery(intent, message);
      match SearchAndDecide(query, search)
      case Err(e) => Outcome(Err(e), [], None)
      case Ok(NotFound) => Outcome(Err(HttpError(404, NOT_FOUND_PREFIX + query + "'")), [], None)
      case Ok(Chosen(mode, track, pool)) => PlayMode(message, requested, intent, query, mode, track, pool, devices, fault)
  }

  /** A search that raises answers 500, plays nothing and saves nothing. */
  lemma PlaySearchFails(
    message: string, requested: Option<string>, intent: Intent,
    search: Search, devices: seq<ApiDevice>, fault: ApiFault)
    requires SearchAndDecide(ResolvePlayQuery(intent, message), search).Err?
    ensures Play(message, requested, Ok(intent), search, devices, fault) ==
      Outcome(Err(HttpError(500, SERVER_ERROR)), [], None)
  {
  }

  /** An empty search answers 404 naming the query, plays nothing and saves
      nothing. */
  lemma PlayNotFound(
    message: string, requested: Option<string>, intent: Intent,
    search: Search, devices: seq<ApiDevice>, fault: ApiFault)
    requires search(ResolvePlayQuery(intent, message)) == Ok([])
    ensures var o := Play(message, requested, Ok(intent), search, devices, fault);
      && o.reply == Err(HttpError(404, NOT_FOUND_PREFIX + ResolvePlayQuery(intent, message) + "'"))
      && o.commands == [] && o.saved == None
  {
  }

  /** A successful answer reports the decided mode, and the row saved records
      that mode as the action, with the query searched for. */
  lemma PlaySavesMode(
    message: string, requested: Option<string>, intent: Intent,
    search: Search, devices: seq<ApiDevice>, fault: ApiFault)
    requires Play(message, requested, Ok(intent), search, devices, fault).reply.Ok?
    ensures var o := Play(message, requested, Ok(intent), search, devices, fault);
      var query := ResolvePlayQuery(intent, message);
      var d := SearchAndDecide(query, search);
      && d.Ok? && d.value.Chosen?
      && ResponseMode(o.reply.value) == ModeName(d.value.mode)
      && o.saved == Some(MoodRecord(message, Some(ModeName(d.value.mode)), Some(query), intent.source))
  {
  }

  /** A successful answer has shuffle on and names the device played to; the
      track answer carries the first result's name, artists and uri, and the
      artist answer its first artist. */
  lemma PlayReplyContent(
    message: string, requested: Option<string>, intent: Intent,
    search: Search, devices: seq<ApiDevice>, fault: ApiFault)
    requires Play(message, requested, Ok(intent), search, devices, fault).reply.Ok?
    ensures var r := Play(message, requested, Ok(intent), search, devices, fault).reply.value;
      var d := SearchAndDecide(ResolvePlayQuery(intent, message), search).value;
      && r.shuffle && r.device == DeviceFor(requested, devices)
      && (d.mode == SingleTrack ==>
            r == TrackResponse(d.track.name, d.track.artists, d.track.uri, true, DeviceFor(requested, devices)))
      && (d.mode == ArtistMix ==>
            d.track.artists != [] && r == ArtistResponse(d.track.artists[0], true, DeviceFor(requested, devices)))
  {
    var query := ResolvePlayQuery(intent, message);
    var d := SearchAndDecide(query, search).value;
    assert Play(message, requested, Ok(intent), search, devices, fault)
        == PlayMode(message, requested, intent, query, d.mode, d.track, d.pool, devices, fault);
    if d.mode == ArtistMix {
      var results := search(query).value;
      assert ArtistNamed(query, results[0]);
      NamedArtistExists(query, d.track);
    }
  }

  /** Once a mode is chosen, a request fails exactly when a Web API call
      raises or the artist mode meets a track without an artist uri; the
      failure is a 400 whose detail is the exception's message. */
  lemma PlayFailureCauses(
    message: string, requested: Option<string>, intent: Intent,
    search: Search, devices: seq<ApiDevice>, fault: ApiFault)
    requires var d := SearchAndDecide(ResolvePlayQuery(intent, message), search);
      d.Ok? && d.value.Chosen?
    ensures var o := Play(message, requested, Ok(intent), search, devices, fault);
      var d := SearchAndDecide(ResolvePlayQuery(intent, message), search).value;
      o.reply.Err? <==> Raises(fault, requested) || (d.mode == ArtistMix && NoArtistUri(d.track))
    ensures var o := Play(message, requested, Ok(intent), search, devices, fault);
      var d := SearchAndDecide(ResolvePlayQuery(intent, message), search).value;
      && (ListingRaises(fault, requested) ==> o.reply == Err(HttpError(400, fault.message)))
      && (!ListingRaises(fault, requested) && d.mode == ArtistMix && NoArtistUri(d.track) ==>
            o.reply == Err(HttpError(400, NO_ARTIST_URI + d.track.name)))
  {
    var query := ResolvePlayQuery(intent, message);
    var d := SearchAndDecide(query, search).value;
    assert Play(message, requested, Ok(intent), search, devices, fault)
        == PlayMode(message, requested, intent, query, d.mode, d.track, d.pool, devices, fault);
    PlaybackFailure(d.mode, d.track, d.pool, requested, devices, fault);
  }

  /** Which `play_*` calls fail, and with which message. */
  lemma PlaybackFailure(
    mode: Mode, track: Track, pool: seq<Track>, requested: Option<string>,
    devices: seq<ApiDevice>, fault: ApiFault)
    ensures var p := Playback(mode, track, pool, requested, devices, fault);
      && (p.Err? <==> Raises(fault, requested) || (mode == ArtistMix && NoArtistUri(track)))
      && (ListingRaises(fault, requested) ==> p == Err(fault.message))
      && (!ListingRaises(fault, requested) && mode == ArtistMix && NoArtistUri(track) ==>
            p == Err(NO_ARTIST_URI + track.name))
  {
  }

  /** In `multi` mode every track of the pool that has a uri is queued, and
      the count reported is the number queued. */
  lemma MultiQueuesPool(
    message: string, requested: Option<string>, intent: Intent,
    search: Search, devices: seq<ApiDevice>, fault: ApiFault)
    requires Play(message, requested, Ok(intent), search, devices, fault).reply.Ok?
    requires Play(message, requested, Ok(intent), search, devices, fault).reply.value.MultiResponse?
    ensures var o := Play(message, requested, Ok(intent), search, devices, fault);
      var d := SearchAndDecide(ResolvePlayQuery(intent, message), search).value;
      && o.commands == [StartTracks(DeviceFor(requested, devices), TrackUris(d.pool))]
      && o.reply.value.trackCount == |TrackUris(d.pool)|
      && o.reply.value.artists == ArtistSet(d.pool)
  {
  }

  // -----------------------------------------------------------------------
  // The /play-track endpoint
  // -----------------------------------------------------------------------

  const TRACK_URI_PREFIX: string := "spotify:track:"
  const INVALID_URI: string := "Invalid track URI. Use spotify:track:xxx"
  const NO_PLAY_URI: string := "'SpotifyClient' object has no attribute 'play_uri'"

  /** The check on the request: the uri is non-empty and, stripped, starts
      with "spotify:track:". */
  predicate AcceptedUri(uri: string) {
    uri != "" && StartsWith(Strip(uri), TRACK_URI_PREFIX)
  }

  /** The emptiness test is subsumed by the prefix test. */
  lemma AcceptedUriIsPrefixed(uri: string)
    ensures AcceptedUri(uri) <==> StartsWith(Strip(uri), TRACK_URI_PREFIX)
  {
    if uri == "" {
      assert LeadingSpaces(uri) == 0;
    }
  }

  datatype UriReply = UriReply(uri: string, context: PlayContext, command: Command)

  /** `/play-track` as written: the player method it calls does not exist on
      the Spotify client, so the call raises and the error is answered as a
      400 with the message of that error. */
  function PlayTrackByUriAsWritten(uri: string, requested: Option<string>, devices: seq<ApiDevice>): (r: Result<UriReply, HttpError>)
    ensures !AcceptedUri(uri) ==> r == Err(HttpError(400, INVALID_URI))
  {
    if !AcceptedUri(uri) then Err(HttpError(400, INVALID_URI))
    else Err(HttpError(400, NO_PLAY_URI))
  }

  /** As written, no request ever plays: even a well-formed uri is answered
      with the missing-method error. */
  lemma AsWrittenNeverPlays(requested: Option<string>, devices: seq<ApiDevice>)
    ensures forall uri :: PlayTrackByUriAsWritten(uri, requested, devices).Err?
    ensures PlayTrackByUriAsWritten("spotify:track:abc", requested, devices) == Err(HttpError(400, NO_PLAY_URI))
  {
    var u := "spotify:track:abc";
    assert LeadingSpaces(u) == 0 && TrailingSpaces(u) == 0;
    assert Strip(u) == u;
    assert AcceptedUri(u);
  }

  /** `/play-track` as intended: plays the stripped uri as a single track on
      the chosen device and answers with the uri as sent. A Web API call that
      raises is answered 400 with its message. */
  function PlayTrackByUri(uri: string, requested: Option<string>, devices: seq<ApiDevice>, fault: ApiFault): (r: Result<UriReply, HttpError>)
    ensures r.Err? <==> !StartsWith(Strip(uri), TRACK_URI_PREFIX) || Raises(fault, requested)
    ensures !StartsWith(Strip(uri), TRACK_URI_PREFIX) ==> r == Err(HttpError(400, INVALID_URI))
    ensures StartsWith(Strip(uri), TRACK_URI_PREFIX) && Raises(fault, requested) ==> r == Err(HttpError(400, fault.message))
    ensures r.Ok? ==>
      && r.value.uri == uri
      && r.value.command == StartTrack(DeviceFor(requested, devices), Some(Strip(uri)))
      && r.value.context == TrackContext(DeviceFor(requested, devices), true)
  {
    AcceptedUriIsPrefixed(uri);
    if !AcceptedUri(uri) then Err(HttpError(400, INVALID_URI))
    else if Raises(fault, requested) then Err(HttpError(400, fault.message))
    else
      var device := DeviceFor(requested, devices);
      Ok(UriReply(uri, TrackContext(device, true), StartTrack(device, Some(Strip(uri)))))
  }

  /** White space around an accepted uri is ignored for playback, and the
      uri played always names a track. */
  lemma UriPlayedIsTrackUri(uri: string, requested: Option<string>, devices: seq<ApiDevice>, fault: ApiFault)
    requires PlayTrackByUri(uri, requested, devices, fault).Ok?
    ensures var c := PlayTrackByUri(uri, requested, devices, fault).value.command;
      c.trackUri.Some? && StartsWith(c.trackUri.value, TRACK_URI_PREFIX) && IsStripped(c.trackUri.value)
  {
  }
}
