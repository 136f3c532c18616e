# Spotify voice assistant — a Dafny model of its core

The system is a voice-controlled Spotify assistant. A desktop client records
the user's speech and sends the transcript to a FastAPI backend. The backend
turns the sentence into an intent, searches Spotify, and plays a single track,
an artist's catalogue or a pool of tracks. This project models the parts of
that logic that decide something, and proves what they promise:

- `voice_client.dfy` (module `VoiceClient`): the recording loop of
  `record_until_silence` and `record`. The loop keeps a bounded pre-roll
  before speech, starts recording at the first loud chunk, and stops after a
  run of quiet chunks or at the hard cap. Also the one-line summary shown after
  a play request. The loop is a `method`. It is proved against a step function
  (`Step`/`Drive`), and the lemmas describe the recording in terms of the
  chunks heard: when it stops, what it keeps, and when nothing is saved.
- `intent_engine.dfy` (module `IntentEngine`): the keyword fallback parser
  `_parse_with_keywords`, with its five trigger patterns
  (`\b(...)\b`, case-insensitive) and the leading-phrase stripper
  (`^(...)\s+`). Both are modelled at the character level. Also the
  `"source": "fallback"` tag added by `parse`.
- `spotify_client.dfy` (module `SpotifyClient`): `_format_track`, the search
  and top-tracks shaping (with ranks), the device listing, the choice of the
  playback device (`_get_active_device_id` and the `"string"` placeholder
  check), and the commands that `play_track`, `play_artist` and
  `play_multi_track` send.
- `backend_main.dfy` (module `BackendMain`): `_resolve_play_query`, the mode
  decision of `/play` (multi, artist or track, including the widening second
  search and its merge), the full answer of `/play`, the action saved by
  `_save_mood_request`, and the `/play-track` endpoint.
- `pytext.dfy` (module `PyText`) and `wrappers.dfy` (module `Wrappers`): the
  Python string operations the code relies on (`isspace`, `strip`, `split()`,
  `lower`, `startswith`, `join`, `str(int)`) and `Option`/`Result`.

External services become parameters. The microphone is a function from chunk
index to chunk. A Spotify search is a function from query to either its result list or the
message of the exception it raised; a raising search escapes the handler of
`/play` and is answered 500 "Internal Server Error". The
device list is a sequence. The intent parse is a `Result` value. The
`start_playback` call is modelled as the command it would send, and the
`shuffle(state=True)` call after it as the `shuffle` flag of the context a
`play_*` method returns. Any of the device listing, `start_playback` and
`shuffle` calls can raise; which one raises, and its message, is a parameter
(`SpotifyClient.ApiFault`), and such a failure inside `/play` is a 400.

## Model

| member | source | states |
|---|---|---|
| VoiceClient.RecordUntilSilence | voice_client.py:121-193 | the loop's result is the recording that the step specification gives for the chunks read: nothing when no chunk was loud, otherwise the frames and the output path |
| VoiceClient.Record | voice_client.py:56-118 | the same loop with the calibrated threshold and the default limits: pre-roll 8, silence limit 46, cap 937 chunks |
| VoiceClient.Drive | voice_client.py:154-175 | the loop never reads more than the cap, and it ends either at the cap or at the `break` |
| VoiceClient.StepBeforeSpeech | voice_client.py:162-166 | before speech, the pre-roll holds the last `cap` chunks heard, and the first loud chunk moves the whole pre-roll into the frames |
| VoiceClient.StepWhileSpeaking | voice_client.py:168-175 | while speaking, each chunk is appended, and the silence counter equals the run of quiet chunks since the last loud one |
| VoiceClient.DriveKeeps | voice_client.py:154-175 | the loop invariant: the state always matches the chunks heard so far, and no stopping point is skipped |
| VoiceClient.StopsAtFirstSilence | voice_client.py:170-173 | the loop stops at the first chunk where the quiet run after speech reaches the limit (at least 1), or at the cap |
| VoiceClient.RecordingFromChunks | voice_client.py:162-193 | the recording, stated from the chunks heard: nothing without a loud chunk, otherwise the pre-roll up to the onset followed by every later chunk |
| VoiceClient.NoSpeechIffAllQuiet | voice_client.py:180-182 | nothing is saved exactly when none of the chunks up to the cap is loud |
| VoiceClient.RecordingKeepsPrerollAndSpeech | voice_client.py:162-175 | a saved recording is the output path with the pre-roll at the onset (at most `cap` chunks, the last one the loud onset chunk) followed by every chunk read after the onset |
| VoiceClient.SpeakingIsSticky | voice_client.py:162-175 | once speech has started it never stops being speech |
| VoiceClient.BurstHalts | voice_client.py:170-173 | for quiet, then a loud burst, then quiet: the `break` happens exactly once the silence limit is reached after the burst |
| VoiceClient.SpeechBurst | voice_client.py:154-193 | for such a burst the recording is saved, with pre-roll + (burst − 1) + limit frames |
| VoiceClient.PrerollScenario | tests/test_record_until_silence.py:165-197 | 8 quiet, 10 loud, then quiet chunks give a saved recording of 63 chunks, at least the 18 of pre-roll and speech |
| VoiceClient.SummaryReadsBack | voice_client.py:294-302 | the label shows the track and its artists joined by ", " for track mode, "Artist mix: " and the artist for artist mode, the count and " tracks playing" for multi mode, "Playing" otherwise |
| VoiceClient.Step | voice_client.py:155-175 | one pass of the loop body (no contract of its own; its behaviour is stated by `StepBeforeSpeech` and `StepWhileSpeaking`) |
| VoiceClient.Onset | voice_client.py:162-165 | the index of the first loud chunk: every chunk before it is quiet, and it is loud (or the end) |
| VoiceClient.QuietRun | voice_client.py:170-175 | the number of quiet chunks at the end: all of them quiet, and the chunk before them loud (or none) |
| VoiceClient.Summary | voice_client.py:294-302 | the notification label (no contract of its own; `SummaryReadsBack` states what it shows) |
| IntentEngine.ParseWithKeywords | backend/intent_engine.py:139-161 | the action is one of the tool's actions and never "unknown", the query is stripped, and extras are empty |
| IntentEngine.Fallback | backend/intent_engine.py:105-109 | the keyword parse tagged with source "fallback" |
| IntentEngine.TriggerPriority | backend/intent_engine.py:142-158 | each action is chosen exactly when its trigger matches and no earlier trigger does (user, devices, recommend, search, play); user and device intents carry an empty query |
| IntentEngine.NoTriggerPlaysWholeText | backend/intent_engine.py:160-161 | with no trigger, the intent plays the whole stripped input |
| IntentEngine.PrefixChoice | backend/intent_engine.py:19-23 | the alternative removed is the first one, in written order, that starts the text (ignoring case) and is followed by white space |
| IntentEngine.StripPrefix | backend/intent_engine.py:19-23 | the result is a tail of the text; without a prefix it is the text, otherwise the prefix and all white space after it are removed |
| IntentEngine.StripPrefixTail | backend/intent_engine.py:19-23 | the tail left is exactly the text after the chosen phrase and its white-space run |
| IntentEngine.StripPrefixKeepsStripped | backend/intent_engine.py:149 | on stripped text the result is stripped and non-empty, so the second `strip()` changes nothing |
| IntentEngine.TriggeredQuery | backend/intent_engine.py:149-158 | a recommend, search or play intent carries the stripped remainder after the action phrase |
| IntentEngine.QueryAfterActionPhrase | backend/intent_engine.py:149-158 | that query is the remainder after the action phrase itself, and it is non-empty for non-blank input |
| IntentEngine.QueryIsTail | backend/intent_engine.py:139-161 | every keyword query is a tail of the stripped input, and it is empty only for blank input or a user or device intent |
| IntentEngine.MentionsLower | backend/intent_engine.py:13-17 | trigger search ignores case: lower-casing the text does not change whether a trigger matches |
| IntentEngine.ActionIgnoresCase | backend/intent_engine.py:13-17 | the action chosen for an input is the same as for its lower-cased form |
| IntentEngine.WordTriggers | backend/intent_engine.py:13-17 | a trigger that is a whole word of the lower-cased text always matches |
| IntentEngine.WholeWordsOnly | backend/intent_engine.py:13 | a trigger inside a longer word does not match ("display" does not contain the play trigger) |
| IntentEngine.MatchAt | backend/intent_engine.py:13-17 | one alternative of a `\b(...)\b` pattern at one position, ignoring ASCII case (no contract; `MatchAtLower` and `WholeWordsOnly` state its behaviour) |
| IntentEngine.Mentions | backend/intent_engine.py:13-17 | `pattern.search(text)` for a trigger list (no contract; `MentionsLower`, `WordTriggers` and `WholeWordsOnly` state its behaviour) |
| IntentEngine.PrefixAt | backend/intent_engine.py:19-23 | an alternative of the prefix pattern matches at the start, followed by white space (no contract; `PrefixChoice` and `StripPrefix` state its use) |
| SpotifyClient.FormatTrack | backend/spotify_client.py:181-200 | every field is copied from the API track; artist names keep order; popularity and preview are present exactly when the API gave them |
| SpotifyClient.ArtistUris | backend/spotify_client.py:190 | at most one uri per artist, and no empty uri |
| SpotifyClient.ArtistUrisFromArtists | backend/spotify_client.py:190 | a uri is listed exactly when it is non-empty and some artist has it |
| SpotifyClient.ArtistUrisEmpty | backend/spotify_client.py:190 | the list is empty exactly when no artist has a non-empty uri |
| SpotifyClient.ArtistUrisAppend | backend/spotify_client.py:190 | the filter keeps the artists' order |
| SpotifyClient.FormatAll | backend/spotify_client.py:71-76 | search results are the API items formatted one by one, in order |
| SpotifyClient.RankTracks | backend/spotify_client.py:91-94 | the top tracks are the API items formatted one by one, in order |
| SpotifyClient.RanksCountFromOne | backend/spotify_client.py:91-94 | ranks start at 1, go up by 1, stay within 1..n and are strictly increasing |
| SpotifyClient.ListDevices | backend/spotify_client.py:55-69 | one view per device, in order |
| SpotifyClient.ListingKeepsDevices | backend/spotify_client.py:60-69 | each view copies id, name, type, active flag and volume from its device |
| SpotifyClient.FirstActive | backend/spotify_client.py:167-170 | the index of the first device flagged active |
| SpotifyClient.PreferredDevice | backend/spotify_client.py:164-178 | the device `_get_active_device_id` picks (no contract; `PreferredDeviceChoice` states the choice) |
| SpotifyClient.PreferredDeviceChoice | backend/spotify_client.py:164-178 | the first active device wins, otherwise the first device, otherwise none |
| SpotifyClient.GetActiveDeviceId | backend/spotify_client.py:164-178 | the scanning loop returns the preferred device |
| SpotifyClient.IsPlaceholder | backend/spotify_client.py:107 | `not device_id or device_id.lower() == "string"` (no contract; `DeviceForPicksListed` checks "STRING", "String", "" and a real id) |
| SpotifyClient.DeviceFor | backend/spotify_client.py:107-108 | a real device id is used as given; a missing, empty or "string" id (any case) is replaced by the preferred device |
| SpotifyClient.DeviceForPicksListed | backend/spotify_client.py:107-108 | a replaced id is always one of the listed devices' ids, or none when there are none |
| SpotifyClient.PlayTrack | backend/spotify_client.py:101-115 | fails, with the exception's message, exactly when a Web API call raises; otherwise plays exactly the track's uri on the chosen device, with shuffle on |
| SpotifyClient.PlayArtist | backend/spotify_client.py:117-134 | fails exactly when a Web API call raises or the first artist uri is missing or empty; a failing device listing comes first, then "No artist URI found for track: " and the name, then a failing playback call; otherwise plays that artist's context |
| SpotifyClient.PlayArtistNeedsArtistUri | backend/spotify_client.py:123-131 | for a formatted track, the failure happens exactly when a Web API call raises or no artist has a uri |
| SpotifyClient.PlayArtistUsesFirstUri | backend/spotify_client.py:126-130 | the context played is the uri of the first artist that has one |
| SpotifyClient.TrackUris | backend/spotify_client.py:145 | at most one uri per track, and no empty uri |
| SpotifyClient.TrackUrisFromTracks | backend/spotify_client.py:145 | a uri is queued exactly when it is non-empty and some track has it |
| SpotifyClient.TrackUrisAppend | backend/spotify_client.py:145 | the queue keeps the tracks' order |
| SpotifyClient.AllTracksPlayed | backend/spotify_client.py:145 | when every track has a uri, every track is queued, in order |
| SpotifyClient.ArtistSet | backend/spotify_client.py:149 | an artist is reported exactly when some track lists it |
| SpotifyClient.PlayMultiTrack | backend/spotify_client.py:136-158 | fails, with the exception's message, exactly when a Web API call raises; otherwise queues the tracks' uris on the chosen device with shuffle on, the count is the number queued and the artists are those of the tracks |
| BackendMain.ResolvePlayQuery | backend/main.py:154-159 | the query is stripped and is either the stripped message or the intent's stripped query |
| BackendMain.ResolveFallsBack | backend/main.py:154-159 | the message is used exactly when the intent's query is empty or its action is "unknown"; the result is blank only for a blank message |
| BackendMain.KeywordQueryIsTail | backend/main.py:154-159 | with the keyword parse, the query searched for is a tail of the stripped message and is empty only when the message is blank |
| BackendMain.Unseen | backend/main.py:210 | no track kept has an id already seen |
| BackendMain.UnseenMembers | backend/main.py:210 | a track is kept exactly when it is in the second list and its id is unseen |
| BackendMain.Merge | backend/main.py:208-210 | the first results stay in front, in order; only tracks with new ids are added |
| BackendMain.MergeAddsUnseen | backend/main.py:208-210 | every second-search track with a new id is added, and nothing else |
| BackendMain.MergeKeepsRepeatsOfExtra | backend/main.py:209-210 | ids are checked only against the first results: for any results, a track occurring twice in the second search is added twice when its id is new, and not at all otherwise |
| BackendMain.Decide | backend/main.py:195-251 | the track played is the first result, and the pool starts with the first results |
| BackendMain.NotFoundIffNoResults | backend/main.py:195-197 | no mode is chosen exactly when the search is empty |
| BackendMain.NamedArtistNeverMulti | backend/main.py:204-214 | when the query names the top artist, the pool is not widened and the mode is not multi |
| BackendMain.MultiIffDiverse | backend/main.py:206-217 | multi exactly when no artist is named and the merged pool has two or more artists |
| BackendMain.ArtistIffOnlyArtistNamed | backend/main.py:229-251 | artist exactly when the top artist is named and no word of the track name is; track in every other case |
| BackendMain.ArtistNamed | backend/main.py:200-204 | a word of the top artist's lower-cased name is a word of the lower-cased query (no contract; `NamedArtistExists` and the mode lemmas state its use) |
| BackendMain.TrackNamed | backend/main.py:202-229 | a word of the top track's lower-cased name is a word of the lower-cased query (no contract; `ArtistIffOnlyArtistNamed` states its use) |
| BackendMain.NamedArtistExists | backend/main.py:199-204 | a named artist is the track's first artist and shares a word with the query |
| BackendMain.MultiPoolHasTwoArtists | backend/main.py:211-212 | a multi pool has two different artists |
| BackendMain.SavedAction | backend/main.py:140 | the saved action is the mode when it is non-empty, and the intent's action otherwise |
| BackendMain.MoodRow | backend/main.py:132-151 | the row keeps the message, the query and the intent's source, with the saved action |
| BackendMain.PlayMode | backend/main.py:216-257 | a failing `play_*` call is answered 400 with its message, sends nothing and saves nothing; a success sends that call's command, answers with the chosen mode, shuffle on and the device played to (the track's name, artists and uri in track mode; its first artist in artist mode; the queued count and artists in multi mode) and saves that mode |
| BackendMain.Answer | backend/main.py:220-251 | the answer reports the shuffle state and the device of the context the `play_*` call returned, and its mode is "track" or "artist" exactly for a track or artist context |
| BackendMain.Playback | backend/main.py:216-242 | the `play_*` call of the chosen mode (no contract of its own; `PlaybackFailure`, `PlayMode` and `MultiQueuesPool` state its behaviour) |
| BackendMain.SearchAndDecide | backend/main.py:195-212 | a first search that raises is a 500 "Internal Server Error"; an empty first search decides "not found"; a chosen track is the first result |
| BackendMain.SecondSearchOnlyWithoutArtist | backend/main.py:203-212 | a named artist decides on the first results alone; otherwise the `query + " mix"` results are merged in, and a raising second search fails the request |
| BackendMain.PlaySearchFails | backend/main.py:195-212 | a raising search answers 500, plays nothing and saves nothing |
| BackendMain.PlayReplyContent | backend/main.py:220-251 | a successful answer has shuffle on and names the device played to; track mode answers the first result's name, artists and uri, artist mode its first artist |
| BackendMain.PlaybackFailure | backend/main.py:216-242 | the `play_*` call fails exactly when a Web API call raises or the artist mode meets a track with no artist uri, with the matching message |
| BackendMain.Play | backend/main.py:175-257 | a parse failure answers 500 "Intent engine error: …"; a request is saved exactly when it succeeds; a success sends one command; a failure sends none and is a 400, 404 or 500 |
| BackendMain.PlayNotFound | backend/main.py:195-197 | an empty search answers 404 "No tracks found for: '<query>'", plays nothing and saves nothing |
| BackendMain.PlaySavesMode | backend/main.py:253 | a successful answer reports the decided mode, and the saved row records that mode with the query searched |
| BackendMain.PlayFailureCauses | backend/main.py:216-257 | after a mode is chosen, the request fails exactly when a Web API call raises or the artist mode meets a track with no artist uri; the 400 carries the exception's message |
| BackendMain.MultiQueuesPool | backend/main.py:216-227 | in multi mode the whole pool's uris are queued, and the answer reports their count and the pool's artists |
| BackendMain.AcceptedUriIsPrefixed | backend/main.py:166-167 | the emptiness test is implied by the prefix test on the stripped uri |
| BackendMain.PlayTrackByUriAsWritten | backend/main.py:162-172 | a uri failing the check gets 400 "Invalid track URI. Use spotify:track:xxx" |
| BackendMain.AsWrittenNeverPlays | backend/main.py:168-171 | as written, every request fails; a well-formed uri gets the missing-method error |
| BackendMain.PlayTrackByUri | backend/main.py:162-172 | fails with 400 exactly when the stripped uri does not start with "spotify:track:" (the invalid-uri detail) or a Web API call raises (its message); otherwise plays the stripped uri and echoes the uri sent |
| BackendMain.UriPlayedIsTrackUri | backend/main.py:166-169 | the uri played is stripped and names a track |
| PyText.Strip | backend/main.py:156-158 | `strip()` removes white space, and only white space, from both ends: the result has none at either end, and every character of the input before or after it is white space |
| PyText.StripIdempotent | backend/intent_engine.py:149 | stripping twice is stripping once |
| PyText.StripIgnoresPadding | backend/main.py:156-158 | white space added around a string does not change its strip |
| PyText.WordsCoverText | backend/main.py:200-202 | the words of `split()`, put back together, are exactly the text's non-white-space characters in order |
| PyText.StripLower | backend/intent_engine.py:140 | lower-casing and stripping commute |
| PyText.Lower | backend/main.py:200-202 | `str.lower()` on ASCII letters (no contract; `LowerIdempotent`, `StripLower` and `MentionsLower` state its behaviour) |
| PyText.Words | backend/main.py:200-202 | `str.split()` (no contract; `WordsCoverText` states what the words hold) |
| PyText.WordSet | backend/main.py:200-202 | `set(s.lower().split())` (no contract; used by `ArtistNamed` and `TrackNamed`) |
| PyText.IntStringRoundTrip | voice_client.py:300 | the decimal text of the track count reads back as the count |

## Left out

- The audio level. `_rms`, `_calibrate` and the float threshold (`max(ambient * 1.8, 80)`) are not modelled. Each chunk carries an integer level, and the threshold is an integer parameter.
- VoiceClient.Record: the calibration that produces its threshold is not modelled, because it reads the microphone and uses floating point.
- The float-to-int conversion of the limits. The defaults are the constants `int(16000/512*1.5) = 46` and `int(16000/512*30) = 937`. Any other duration is passed in as an integer limit.
- Writing the WAV file, PyAudio stream handling, Whisper transcription, the HTTP call to the backend, desktop notifications, the hotkey listener, threads and the `__main__` loop. These are I/O or foreign calls.
- `backend/recommender.py`, the OpenAI tool-call path of `parse` and its JSON decoding. These are external services; the intent parse result is a parameter of `/play`.
- FastAPI routing, request models, the database session and ORM, and configuration. The spotipy client itself is not modelled: its answers are parameters (the search function, the device list); a search exception is the search function's `Err` result, and the exceptions of the playback calls are an `ApiFault` parameter. The search `limit=10` is up to the search function passed in.
- SpotifyClient.PlayTrack, SpotifyClient.PlayArtist, SpotifyClient.PlayMultiTrack: when `shuffle` raises after `start_playback` succeeded, playback has already started, but a failed call records no command.
- Lower-casing and the regex word class `\w` cover ASCII only. Python's Unicode case folding under `re.I` (such as the Kelvin sign matching `k`) is not modelled.
- SpotifyClient.PlayMultiTrack: the unique artists come from `list(set(...))`, whose order Python leaves unspecified. They are modelled as a set.
- A dictionary key that is missing and a key that holds `None` are both modelled as `None`. The crash `_resolve_play_query` would hit on a `"query": None` value is not modelled.

## Findings

| source | as written | input that shows it | evidently intended | confidence | as-written member | corrected member |
|---|---|---|---|---|---|---|
| backend/main.py:169 | `/play-track` calls `spotify.play_uri`, which `SpotifyClient` in backend/spotify_client.py does not define. The `AttributeError` is caught and answered as a 400. | uri `"spotify:track:abc"` gets 400 "'SpotifyClient' object has no attribute 'play_uri'" (lemma `BackendMain.AsWrittenNeverPlays`) | play the stripped uri as a single track on the chosen device and answer "playing" | high, not executed | BackendMain.PlayTrackByUriAsWritten | BackendMain.PlayTrackByUri |
