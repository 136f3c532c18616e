/** The voice client's silence-gated recorder and the label it shows once the
    backend has answered.

    The recorder reads fixed-size chunks from the microphone. Before speech it
    keeps the latest few chunks in a bounded pre-roll buffer; the first chunk
    louder than the threshold starts the recording with the whole pre-roll;
    from then on every chunk is kept, and a run of quiet chunks as long as the
    silence limit ends the recording. A hard cap bounds the number of reads.
    The microphone is an endless stream `mic`: chunk `i` is `mic(i)`, and each
    chunk carries its loudness as an integer `level`. */
module VoiceClient {
  import opened Wrappers
  import opened PyText

  /** Chunks kept before speech starts. */
  const PREROLL_CHUNKS: nat := 8
  /** `int(16000 / 512 * 1.5)`: quiet chunks that end a recording by default. */
  const SILENCE_LIMIT: nat := 46
  /** `int(16000 / 512 * 30)`: the hard cap on chunks read. */
  const MAX_CHUNKS: nat := 937

  datatype Chunk = Chunk(pcm: seq<int>, level: int)

  /** The loop's parameters: loudness threshold, quiet chunks that end the
      recording, the cap on reads and the pre-roll capacity. */
  datatype Gate = Gate(threshold: int, silenceLimit: nat, maxChunks: nat, prerollCap: nat)

  /** The loop's variables; `halted` records that the loop took its `break`. */
  datatype Capture = Capture(
    preroll: seq<Chunk>,
    frames: seq<Chunk>,
    speaking: bool,
    silentChunks: nat,
    totalChunks: nat,
    halted: bool)

  /** What the recorder returns: the empty string, or the path of the WAV
      file written with these frames. */
  datatype Recording = NoSpeech | Saved(path: string, frames: seq<Chunk>)

  predicate Loud(c: Chunk, g: Gate) {
    c.level > g.threshold
  }

  /** The last `cap` elements of `xs` (all of them when there are fewer). */
  function Last(xs: seq<Chunk>, cap: nat): seq<Chunk> {
    if |xs| <= cap then xs else xs[|xs| - cap..]
  }

  /** `deque(maxlen=cap).append(x)`: the oldest element falls out when full. */
  function PushBounded(q: seq<Chunk>, x: Chunk, cap: nat): seq<Chunk> {
    Last(q + [x], cap)
  }

  /** The first `n` chunks the microphone delivers. */
  function Heard(mic: nat -> Chunk, n: nat): (xs: seq<Chunk>)
    ensures |xs| == n
  {
    seq(n, i requires 0 <= i < n => mic(i))
  }

  /** Index of the first loud chunk of `xs`, or `|xs|` when all are quiet. */
  function Onset(xs: seq<Chunk>, g: Gate): (o: nat)
    ensures o <= |xs|
    ensures forall k :: 0 <= k < o ==> !Loud(xs[k], g)
    ensures o < |xs| ==> Loud(xs[o], g)
  {
    if xs == [] || Loud(xs[0], g) then 0 else 1 + Onset(xs[1..], g)
  }

  /** Number of quiet chunks at the end of `xs`. */
  function QuietRun(xs: seq<Chunk>, g: Gate): (n: nat)
    ensures n <= |xs|
    ensures forall k :: |xs| - n <= k < |xs| ==> !Loud(xs[k], g)
    ensures n < |xs| ==> Loud(xs[|xs| - 1 - n], g)
  {
    if xs == [] || Loud(xs[|xs| - 1], g) then 0 else 1 + QuietRun(xs[..|xs| - 1], g)
  }

  const Start := Capture([], [], false, 0, 0, false)

  /** One pass of the loop body on chunk `c`. */
  function Step(s: Capture, c: Chunk, g: Gate): Capture {
    var s := s.(totalChunks := s.totalChunks + 1);
    if !s.speaking then
      var pre := PushBounded(s.preroll, c, g.prerollCap);
      if Loud(c, g) then s.(preroll := pre, speaking := true, frames := s.frames + pre)
      else s.(preroll := pre)
    else if !Loud(c, g) then
      s.(frames := s.frames + [c], silentChunks := s.silentChunks + 1,
         halted := s.silentChunks + 1 >= g.silenceLimit)
    else
      s.(frames := s.frames + [c], silentChunks := 0)
  }

  /** The loop run to completion from `s`: it reads chunk `totalChunks` next,
      and stops at the cap or after the `break`. */
  function Drive(mic: nat -> Chunk, g: Gate, s: Capture): (r: Capture)
    requires s.totalChunks <= g.maxChunks
    ensures s.totalChunks <= r.totalChunks <= g.maxChunks
    ensures r.totalChunks == g.maxChunks || r.halted
    decreases g.maxChunks - s.totalChunks
  {
    if s.totalChunks == g.maxChunks || s.halted then s
    else Drive(mic, g, Step(s, mic(s.totalChunks), g))
  }

  function Finish(s: Capture, output: string): Recording {
    if s.speaking then Saved(output, s.frames) else NoSpeech
  }

  /** `record_until_silence`: reads chunks until a run of quiet chunks after
      speech reaches the silence limit, or until the cap; returns the frames
      to write, or no recording when nothing was loud. */
  method RecordUntilSilence(mic: nat -> Chunk, output: string, g: Gate) returns (r: Recording)
    ensures r == Finish(Drive(mic, g, Start), output)
  {
    var preroll: seq<Chunk> := [];
    var frames: seq<Chunk> := [];
    var speaking := false;
    var silentChunks: nat := 0;
    var totalChunks: nat := 0;
    while totalChunks < g.maxChunks
      invariant totalChunks <= g.maxChunks
      invariant Drive(mic, g, Capture(preroll, frames, speaking, silentChunks, totalChunks, false))
             == Drive(mic, g, Start)
      decreases g.maxChunks - totalChunks
    {
      ghost var before := Capture(preroll, frames, speaking, silentChunks, totalChunks, false);
      var raw := mic(totalChunks);
      totalChunks := totalChunks + 1;
      if !speaking {
        preroll := PushBounded(preroll, raw, g.prerollCap);
        if raw.level > g.threshold {
          speaking := true;
          frames := frames + preroll;
        }
      } else {
        frames := frames + [raw];
        if raw.level <= g.threshold {
          silentChunks := silentChunks + 1;
          if silentChunks >= g.silenceLimit {
            assert Step(before, raw, g) == Capture(preroll, frames, speaking, silentChunks, totalChunks, true);
            assert Drive(mic, g, Start) == Capture(preroll, frames, speaking, silentChunks, totalChunks, true);
            break;
          }
        } else {
          silentChunks := 0;
        }
      }
    }
    r := if speaking then Saved(output, frames) else NoSpeech;
  }

  function DefaultGate(threshold: int): Gate {
    Gate(threshold, SILENCE_LIMIT, MAX_CHUNKS, PREROLL_CHUNKS)
  }

  /** `record`: the same loop with the calibrated threshold and the default
      silence limit, cap and pre-roll. */
  method Record(mic: nat -> Chunk, output: string, threshold: int) returns (r: Recording)
    ensures r == Finish(Drive(mic, DefaultGate(threshold), Start), output)
  {
    r := RecordUntilSilence(mic, output, DefaultGate(threshold));
  }

  // -----------------------------------------------------------------------
  // What a run of the loop looks like, in terms of the chunks heard
  // -----------------------------------------------------------------------

  /** After reading `heard`, the loop breaks: speech started and the quiet
      chunks since number at least the silence limit (and at least one). */
  ghost predicate Halts(heard: seq<Chunk>, g: Gate) {
    var o := Onset(heard, g);
    o < |heard| && QuietRun(heard[o + 1..], g) >= 1 && QuietRun(heard[o + 1..], g) >= g.silenceLimit
  }

  ghost predicate HaltAt(mic: nat -> Chunk, g: Gate, n: nat) {
    Halts(Heard(mic, n), g)
  }

  /** The loop state after reading `heard`, described by the chunks read. */
  ghost predicate Consistent(heard: seq<Chunk>, g: Gate, s: Capture) {
    var o := Onset(heard, g);
    && s.totalChunks == |heard|
    && s.speaking == (o < |heard|)
    && (!s.speaking ==> s.preroll == Last(heard, g.prerollCap) && s.frames == [] && s.silentChunks == 0)
    && (s.speaking ==>
          && s.frames == Last(heard[..o + 1], g.prerollCap) + heard[o + 1..]
          && s.silentChunks == QuietRun(heard[o + 1..], g))
    && s.halted == Halts(heard, g)
  }

  ghost predicate Reached(mic: nat -> Chunk, g: Gate, s: Capture) {
    s.totalChunks <= g.maxChunks && Consistent(Heard(mic, s.totalChunks), g, s)
  }

  lemma HeardNext(mic: nat -> Chunk, n: nat)
    ensures Heard(mic, n + 1) == Heard(mic, n) + [mic(n)]
  {
  }

  lemma OnsetNext(xs: seq<Chunk>, c: Chunk, g: Gate)
    ensures Onset(xs + [c], g) ==
      if Onset(xs, g) < |xs| then Onset(xs, g) else if Loud(c, g) then |xs| else |xs| + 1
  {
    var o, o' := Onset(xs, g), Onset(xs + [c], g);
    var ys := xs + [c];
    if o < |xs| {
      assert ys[o] == xs[o];
      assert o' <= o;
      assert o' < |xs| ==> ys[o'] == xs[o'];
    } else {
      assert forall k :: 0 <= k < |xs| ==> ys[k] == xs[k];
      assert ys[|xs|] == c;
    }
  }

  lemma QuietRunNext(xs: seq<Chunk>, c: Chunk, g: Gate)
    ensures QuietRun(xs + [c], g) == if Loud(c, g) then 0 else QuietRun(xs, g) + 1
  {
    assert (xs + [c])[..|xs|] == xs;
  }

  /** Appending to the pre-roll of the latest chunks keeps the latest chunks. */
  lemma LastNext(xs: seq<Chunk>, x: Chunk, cap: nat)
    ensures PushBounded(Last(xs, cap), x, cap) == Last(xs + [x], cap)
  {
  }

  lemma ReachedStart(mic: nat -> Chunk, g: Gate)
    ensures Reached(mic, g, Start)
  {
    assert Heard(mic, 0) == [];
  }

  lemma StepBeforeSpeech(heard: seq<Chunk>, c: Chunk, g: Gate, s: Capture)
    requires Consistent(heard, g, s) && !s.speaking
    ensures Consistent(heard + [c], g, Step(s, c, g))
  {
    OnsetNext(heard, c, g);
    LastNext(heard, c, g.prerollCap);
    if Loud(c, g) {
      var h := heard + [c];
      assert h[..|heard| + 1] == h;
      assert h[|heard| + 1..] == [];
    }
  }

  /** Appending a chunk after speech started extends the speech part. */
  lemma SpeechGrows(pre: seq<Chunk>, heard: seq<Chunk>, c: Chunk, o: nat)
    requires o < |heard|
    ensures (pre + heard[o + 1..]) + [c] == pre + (heard + [c])[o + 1..]
  {
    assert (heard + [c])[o + 1..] == heard[o + 1..] + [c];
  }

  /** How the chunks since onset grow by one chunk once speech started. */
  lemma SpeechTailNext(heard: seq<Chunk>, c: Chunk, g: Gate)
    requires Onset(heard, g) < |heard|
    ensures var o := Onset(heard, g);
      var h := heard + [c];
      && Onset(h, g) == o
      && h[..o + 1] == heard[..o + 1]
      && h[o + 1..] == heard[o + 1..] + [c]
      && QuietRun(h[o + 1..], g) == if Loud(c, g) then 0 else QuietRun(heard[o + 1..], g) + 1
  {
    var o := Onset(heard, g);
    var h := heard + [c];
    OnsetNext(heard, c, g);
    assert Onset(h, g) == o;
    assert h[..o + 1] == heard[..o + 1];
    var tail := heard[o + 1..];
    assert h[o + 1..] == tail + [c];
    QuietRunNext(tail, c, g);
  }

  lemma StepWhileSpeaking(heard: seq<Chunk>, c: Chunk, g: Gate, s: Capture)
    requires Consistent(heard, g, s) && !s.halted && s.speaking
    ensures Consistent(heard + [c], g, Step(s, c, g))
  {
    var h := heard + [c];
    var o := Onset(heard, g);
    SpeechTailNext(heard, c, g);
    var pre := Last(heard[..o + 1], g.prerollCap);
    SpeechGrows(pre, heard, c, o);
    var run := QuietRun(h[o + 1..], g);
    if Loud(c, g) {
      assert Step(s, c, g) == s.(totalChunks := s.totalChunks + 1, frames := s.frames + [c], silentChunks := 0);
      assert run == 0 && !Halts(h, g);
    } else {
      assert Step(s, c, g) == s.(totalChunks := s.totalChunks + 1, frames := s.frames + [c],
        silentChunks := s.silentChunks + 1, halted := s.silentChunks + 1 >= g.silenceLimit);
      assert run == s.silentChunks + 1;
      assert Halts(h, g) == (run >= g.silenceLimit);
    }
  }

  lemma StepKeeps(mic: nat -> Chunk, g: Gate, s: Capture)
    requires Reached(mic, g, s) && !s.halted && s.totalChunks < g.maxChunks
    ensures Reached(mic, g, Step(s, mic(s.totalChunks), g))
  {
    var n := s.totalChunks;
    HeardNext(mic, n);
    if s.speaking {
      StepWhileSpeaking(Heard(mic, n), mic(n), g, s);
    } else {
      StepBeforeSpeech(Heard(mic, n), mic(n), g, s);
    }
  }

  lemma {:induction false} DriveKeeps(mic: nat -> Chunk, g: Gate, s: Capture)
    requires Reached(mic, g, s) && !s.halted
    ensures Reached(mic, g, Drive(mic, g, s))
    ensures forall m :: s.totalChunks <= m < Drive(mic, g, s).totalChunks ==> !HaltAt(mic, g, m)
    decreases g.maxChunks - s.totalChunks
  {
    if s.totalChunks < g.maxChunks {
      var t := Step(s, mic(s.totalChunks), g);
      StepKeeps(mic, g, s);
      if !t.halted {
        DriveKeeps(mic, g, t);
      }
    }
  }

  /** The loop stops at the first read count at which the quiet run since
      speech began reaches the silence limit, or at the cap; the silence
      counter is then that quiet run. */
  lemma StopsAtFirstSilence(mic: nat -> Chunk, g: Gate)
    ensures var f := Drive(mic, g, Start);
      && f.totalChunks <= g.maxChunks
      && (forall m :: 0 <= m < f.totalChunks ==> !HaltAt(mic, g, m))
      && (f.totalChunks == g.maxChunks || HaltAt(mic, g, f.totalChunks))
  {
    ReachedStart(mic, g);
    DriveKeeps(mic, g, Start);
  }

  /** The recording is determined by the chunks read: nothing if none was
      loud; otherwise the pre-roll at the first loud chunk (which ends with
      that chunk) followed by every chunk read after it. */
  lemma RecordingFromChunks(mic: nat -> Chunk, g: Gate, output: string)
    ensures var f := Drive(mic, g, Start);
      var heard := Heard(mic, f.totalChunks);
      var o := Onset(heard, g);
      Finish(f, output) ==
        if o < |heard| then Saved(output, Last(heard[..o + 1], g.prerollCap) + heard[o + 1..])
        else NoSpeech
  {
    ReachedStart(mic, g);
    DriveKeeps(mic, g, Start);
  }

  /** No recording is returned exactly when no chunk before the cap is loud. */
  lemma NoSpeechIffAllQuiet(mic: nat -> Chunk, g: Gate, output: string)
    ensures Finish(Drive(mic, g, Start), output) == NoSpeech
        <==> forall i :: 0 <= i < g.maxChunks ==> !Loud(mic(i), g)
  {
    var f := Drive(mic, g, Start);
    var n := f.totalChunks;
    var heard := Heard(mic, n);
    ReachedStart(mic, g);
    DriveKeeps(mic, g, Start);
    StopsAtFirstSilence(mic, g);
    if Finish(f, output) == NoSpeech {
      assert n == g.maxChunks;
      forall i | 0 <= i < g.maxChunks ensures !Loud(mic(i), g) {
        assert heard[i] == mic(i);
      }
    }
    var o := Onset(heard, g);
    if o < n {
      assert heard[o] == mic(o);
    }
  }

  /** A recording holds the pre-roll (at most the capacity, ending with the
      first loud chunk when the capacity is positive) and then every chunk
      read after speech started, so it has at least as many frames as
      pre-roll chunks plus speech chunks. */
  lemma RecordingKeepsPrerollAndSpeech(mic: nat -> Chunk, g: Gate, output: string)
    requires Finish(Drive(mic, g, Start), output).Saved?
    ensures var f := Drive(mic, g, Start);
      var rec := Finish(f, output);
      var o := Onset(Heard(mic, f.totalChunks), g);
      var pre := if o + 1 <= g.prerollCap then o + 1 else g.prerollCap;
      && rec.path == output
      && o < f.totalChunks && Loud(mic(o), g)
      && |rec.frames| == pre + (f.totalChunks - o - 1)
      && rec.frames[pre..] == Heard(mic, f.totalChunks)[o + 1..]
      && (g.prerollCap >= 1 ==> rec.frames[pre - 1] == mic(o))
  {
    var f := Drive(mic, g, Start);
    var heard := Heard(mic, f.totalChunks);
    var o := Onset(heard, g);
    RecordingFromChunks(mic, g, output);
    assert heard[o] == mic(o);
    var pre := Last(heard[..o + 1], g.prerollCap);
    if g.prerollCap >= 1 {
      assert pre[|pre| - 1] == heard[o];
    }
  }

  /** Once speech has started the loop never goes back to waiting for it. */
  lemma {:induction false} SpeakingIsSticky(mic: nat -> Chunk, g: Gate, s: Capture)
    requires s.totalChunks <= g.maxChunks && s.speaking
    ensures Drive(mic, g, s).speaking
    decreases g.maxChunks - s.totalChunks
  {
    if s.totalChunks < g.maxChunks && !s.halted {
      SpeakingIsSticky(mic, g, Step(s, mic(s.totalChunks), g));
    }
  }

  /** The quiet run ending a sequence whose last loud chunk is at `k - 1`. */
  lemma QuietRunAfterLoud(xs: seq<Chunk>, g: Gate, k: nat)
    requires k <= |xs|
    requires forall j :: k <= j < |xs| ==> !Loud(xs[j], g)
    requires k > 0 ==> Loud(xs[k - 1], g)
    ensures QuietRun(xs, g) == |xs| - k
  {
    var r := QuietRun(xs, g);
    assert r < |xs| ==> Loud(xs[|xs| - 1 - r], g);
    assert k > 0 ==> Loud(xs[k - 1], g);
  }

  /** With `quiet` quiet chunks before a loud one, speech starts at `quiet`
      whenever more than `quiet` chunks have been read. */
  lemma BurstOnset(mic: nat -> Chunk, g: Gate, quiet: nat, m: nat)
    requires forall i :: 0 <= i < quiet ==> !Loud(mic(i), g)
    requires Loud(mic(quiet), g) && quiet < m
    ensures Onset(Heard(mic, m), g) == quiet
  {
    var h := Heard(mic, m);
    assert h[quiet] == mic(quiet);
    assert forall k :: 0 <= k < quiet ==> h[k] == mic(k);
  }

  /** All quiet before speech: no speech has started. */
  lemma QuietOnset(mic: nat -> Chunk, g: Gate, n: nat)
    requires forall i :: 0 <= i < n ==> !Loud(mic(i), g)
    ensures Onset(Heard(mic, n), g) == n
  {
    var h := Heard(mic, n);
    assert forall i :: 0 <= i < n ==> h[i] == mic(i);
  }

  /** The quiet run since speech began during and after a burst of `loud`
      loud chunks starting at `quiet`. */
  lemma BurstQuietRun(mic: nat -> Chunk, g: Gate, quiet: nat, loud: nat, m: nat)
    requires loud >= 1 && quiet < m
    requires forall i :: quiet <= i < quiet + loud ==> Loud(mic(i), g)
    requires forall i :: quiet + loud <= i ==> !Loud(mic(i), g)
    ensures QuietRun(Heard(mic, m)[quiet + 1..], g) == if m <= quiet + loud then 0 else m - quiet - loud
  {
    var tail := Heard(mic, m)[quiet + 1..];
    if m <= quiet + loud {
      if tail != [] {
        assert tail[|tail| - 1] == mic(m - 1);
      }
    } else {
      var k := loud - 1;
      forall j | k <= j < |tail| ensures !Loud(tail[j], g) {
        assert tail[j] == mic(quiet + 1 + j);
      }
      if k > 0 {
        assert tail[k - 1] == mic(quiet + loud - 1);
      }
      QuietRunAfterLoud(tail, g, k);
    }
  }

  /** Within a burst followed by silence, the loop breaks after exactly
      `limit` quiet chunks: the break condition holds from then on, and not
      before. */
  lemma BurstHalts(mic: nat -> Chunk, g: Gate, quiet: nat, loud: nat, n: nat)
    requires loud >= 1
    requires forall i :: 0 <= i < quiet ==> !Loud(mic(i), g)
    requires forall i :: quiet <= i < quiet + loud ==> Loud(mic(i), g)
    requires forall i :: quiet + loud <= i ==> !Loud(mic(i), g)
    ensures HaltAt(mic, g, n) <==>
      n >= quiet + loud + (if g.silenceLimit == 0 then 1 else g.silenceLimit)
  {
    if n <= quiet {
      QuietOnset(mic, g, n);
    } else {
      BurstOnset(mic, g, quiet, n);
      BurstQuietRun(mic, g, quiet, loud, n);
    }
  }

  /** A burst of `loud` loud chunks after `quiet` quiet ones, followed by
      silence, is recorded as the pre-roll, the rest of the burst and exactly
      as many quiet chunks as it takes to reach the silence limit. */
  lemma SpeechBurst(mic: nat -> Chunk, g: Gate, output: string, quiet: nat, loud: nat)
    requires loud >= 1
    requires forall i :: 0 <= i < quiet ==> !Loud(mic(i), g)
    requires forall i :: quiet <= i < quiet + loud ==> Loud(mic(i), g)
    requires forall i :: quiet + loud <= i ==> !Loud(mic(i), g)
    requires quiet + loud + (if g.silenceLimit == 0 then 1 else g.silenceLimit) <= g.maxChunks
    ensures var limit := if g.silenceLimit == 0 then 1 else g.silenceLimit;
      var pre := if quiet + 1 <= g.prerollCap then quiet + 1 else g.prerollCap;
      var rec := Finish(Drive(mic, g, Start), output);
      && rec.Saved? && rec.path == output
      && |rec.frames| == pre + (loud - 1) + limit
  {
    var limit := if g.silenceLimit == 0 then 1 else g.silenceLimit;
    var stop := quiet + loud + limit;
    var f := Drive(mic, g, Start);
    var n := f.totalChunks;
    StopsAtFirstSilence(mic, g);
    BurstHalts(mic, g, quiet, loud, stop);
    BurstHalts(mic, g, quiet, loud, n);
    assert n == stop;
    BurstOnset(mic, g, quiet, n);
    RecordingFromChunks(mic, g, output);
    RecordingKeepsPrerollAndSpeech(mic, g, output);
  }

  /** The pre-roll scenario: eight quiet chunks, ten loud ones, then silence,
      with the default gate. The recording has 8 pre-roll frames, 9 more
      speech frames and 46 quiet frames: at least the 18 chunks of pre-roll
      and speech. */
  lemma PrerollScenario(mic: nat -> Chunk, output: string)
    requires forall i :: 0 <= i < 8 ==> mic(i).level == 71
    requires forall i :: 8 <= i < 18 ==> mic(i).level == 707
    requires forall i :: 18 <= i ==> mic(i).level == 71
    ensures var rec := Finish(Drive(mic, DefaultGate(500), Start), output);
      rec.Saved? && |rec.frames| == 63 && |rec.frames| >= 8 + 10
  {
    SpeechBurst(mic, DefaultGate(500), output, 8, 10);
  }

  // -----------------------------------------------------------------------
  // The notification label
  // -----------------------------------------------------------------------

  /** The backend's JSON answer as the client reads it; absent keys are None. */
  datatype Reply = Reply(
    mode: Option<string>,
    track: Option<string>,
    artists: Option<seq<string>>,
    artist: Option<string>,
    trackCount: Option<int>)

  const EM_DASH_SEP: string := " \U{2014} "
  const ARTIST_MIX: string := "Artist mix: "
  const TRACKS_PLAYING: string := " tracks playing"

  /** The summary shown in the "Playing" notification. */
  function Summary(reply: Reply): string {
    var mode := reply.mode.GetOr("");
    if mode == "track" then reply.track.GetOr("") + EM_DASH_SEP + Join(reply.artists.GetOr([]), ", ")
    else if mode == "artist" then ARTIST_MIX + reply.artist.GetOr("")
    else if mode == "multi" then IntString(reply.trackCount.GetOr(0)) + TRACKS_PLAYING
    else "Playing"
  }

  /** What each mode's label tells the user, read back from the label: the
      track and its artists, the artist, or the number of tracks. */
  lemma SummaryReadsBack(reply: Reply)
    ensures var shown := Summary(reply);
      var mode := reply.mode.GetOr("");
      && (mode == "track" ==>
            var name := reply.track.GetOr("");
            && StartsWith(shown, name + EM_DASH_SEP)
            && shown[|name| + |EM_DASH_SEP|..] == Join(reply.artists.GetOr([]), ", "))
      && (mode == "artist" ==> StartsWith(shown, ARTIST_MIX) && shown[|ARTIST_MIX|..] == reply.artist.GetOr(""))
      && (mode == "multi" ==>
            && |shown| > |TRACKS_PLAYING|
            && shown[|shown| - |TRACKS_PLAYING|..] == TRACKS_PLAYING
            && ParseInt(shown[..|shown| - |TRACKS_PLAYING|]) == Some(reply.trackCount.GetOr(0)))
      && (mode != "track" && mode != "artist" && mode != "multi" ==> shown == "Playing")
  {
    var shown := Summary(reply);
    var mode := reply.mode.GetOr("");
    if mode == "multi" {
      var n := reply.trackCount.GetOr(0);
      IntStringRoundTrip(n);
      assert shown[..|shown| - |TRACKS_PLAYING|] == IntString(n);
    }
  }
}
