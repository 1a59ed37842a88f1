/** Values shared by both view-models of the music player: the decoder of an
    open track, the files that can be opened, the calls made on the audio
    output device, the transport state shown on the play button, the timer
    readout and the seek arithmetic. */
module Playback {

  datatype Option<T> = None | Some(value: T)

  /** Total duration of an opened track, in the one unit used for positions
      and times throughout the model. A decoded track is never empty, so the
      progress fraction position / total is always defined. */
  type Duration = n: nat | n > 0 witness 1

  /** The decoder an open track is read through (NAudio's Mp3FileReader):
      its current position and its total duration. */
  datatype Reader = Reader(position: nat, total: Duration)

  /** The files that open successfully, by path, with their durations.
      Opening any other path fails as File.OpenRead does. */
  type Media = map<string, Duration>

  /** How an operation ended: normally, or with the exception the source
      lets escape (a file that cannot be opened, a song index outside the
      list). */
  datatype Outcome = Ok | FileNotFound(path: string) | IndexOutOfRange(index: int)

  /** The state an operation leaves behind, together with how it ended. */
  datatype Step<S> = Step(state: S, outcome: Outcome)

  // ---------------------------------------------------------------------
  // The audio output device (NAudio's WaveOutEvent)
  // ---------------------------------------------------------------------

  /** A call on an audio output: creating it, starting (Play), pausing,
      stopping and disposing it. */
  datatype Call = Open | Start | Suspend | Halt | Release

  /** Whether an output is live (created and not yet disposed) after the
      given calls. */
  function Live(calls: seq<Call>): bool
    decreases |calls|
  {
    if calls == [] then false
    else match calls[|calls| - 1]
      case Open => true
      case Release => false
      case _ => Live(calls[..|calls| - 1])
  }

  /** A new output may be created only when none is live; every other call
      needs a live output. */
  predicate Permitted(live: bool, c: Call) {
    if c == Open then !live else live
  }

  /** Every call in the log was permitted when it was made. */
  predicate Disciplined(calls: seq<Call>)
    decreases |calls|
  {
    calls == [] ||
    (Disciplined(calls[..|calls| - 1]) &&
     Permitted(Live(calls[..|calls| - 1]), calls[|calls| - 1]))
  }

  /** Number of occurrences of c in the log. */
  function Occurrences(calls: seq<Call>, c: Call): nat
    decreases |calls|
  {
    if calls == [] then 0
    else Occurrences(calls[..|calls| - 1], c) + (if calls[|calls| - 1] == c then 1 else 0)
  }

  /** In a disciplined log, outputs are created at most once more than they
      are disposed: at no point do two outputs exist together. */
  lemma {:induction false} AtMostOneOutput(calls: seq<Call>)
    requires Disciplined(calls)
    ensures Occurrences(calls, Open) == Occurrences(calls, Release) + (if Live(calls) then 1 else 0)
    decreases |calls|
  {
    if calls != [] {
      AtMostOneOutput(calls[..|calls| - 1]);
    }
  }

  /** Appending a permitted call keeps the log disciplined, and says
      whether an output is live afterwards. */
  lemma {:induction false} Extend(calls: seq<Call>, c: Call)
    ensures Disciplined(calls) && Permitted(Live(calls), c) ==> Disciplined(calls + [c])
    ensures Live(calls + [c]) == (c == Open || (c != Release && Live(calls)))
  {
    assert (calls + [c])[..|calls|] == calls;
  }

  /** The calls `waveOut?.Stop(); waveOut?.Dispose()` make: none when no
      output exists. */
  function Released(open: bool): seq<Call> {
    if open then [Halt, Release] else []
  }

  /** Stopping and disposing the live output (if any) leaves none live; a
      new output may then be created and started. */
  lemma ReleaseThenOpen(calls: seq<Call>)
    ensures Disciplined(calls) ==> Disciplined(calls + Released(Live(calls)))
    ensures !Live(calls + Released(Live(calls)))
    ensures Disciplined(calls) ==> Disciplined(calls + Released(Live(calls)) + [Open, Start])
    ensures Live(calls + Released(Live(calls)) + [Open, Start])
  {
    var r := calls + Released(Live(calls));
    if Live(calls) {
      Extend(calls, Halt);
      Extend(calls + [Halt], Release);
      assert calls + [Halt] + [Release] == r;
    } else {
      assert r == calls;
    }
    Extend(r, Open);
    Extend(r + [Open], Start);
    assert r + [Open] + [Start] == r + [Open, Start];
  }

  /** A call on an output that may be absent (`waveOut?.Pause()`,
      `waveOut?.Play()`): made only when the output is live. */
  function IfOpen(open: bool, c: Call): seq<Call> {
    if open then [c] else []
  }

  /** Pausing or restarting the live output keeps the log disciplined and
      the output live; without an output nothing is called. */
  lemma CallIfOpen(calls: seq<Call>, c: Call)
    requires c == Start || c == Suspend
    ensures Disciplined(calls) ==> Disciplined(calls + IfOpen(Live(calls), c))
    ensures Live(calls + IfOpen(Live(calls), c)) == Live(calls)
  {
    if Live(calls) {
      Extend(calls, c);
    } else {
      assert calls + IfOpen(Live(calls), c) == calls;
    }
  }

  // ---------------------------------------------------------------------
  // Transport state and the play button
  // ---------------------------------------------------------------------

  datatype Transport = Stopped | Playing | Paused

  /** The transport state the two flags stand for. */
  function TransportOf(playing: bool, paused: bool): Transport {
    if !playing then Stopped else if paused then Paused else Playing
  }

  /** The text of the play button in each transport state. */
  function ButtonLabel(t: Transport): string {
    match t
    case Stopped => "Play"
    case Playing => "Pause"
    case Paused => "Resume"
  }

  /** The button text identifies the transport state. */
  lemma LabelIdentifiesTransport(t: Transport, u: Transport)
    ensures ButtonLabel(t) == ButtonLabel(u) <==> t == u
  {
    if t != u {
      assert |ButtonLabel(t)| != |ButtonLabel(u)|;
    }
  }

  // ---------------------------------------------------------------------
  // The transport core both view-models share
  // ---------------------------------------------------------------------

  /** The transport fields of a view-model: the two flags, whether an output
      exists (`waveOut != null`), the decoder, the position remembered by
      Pause and the play-button text. `calls` records every call made on
      output devices and `repositions` counts writes to the decoder's
      position; both exist only to state properties. */
  datatype Deck = Deck(
    playing: bool,
    paused: bool,
    outputOpen: bool,
    reader: Option<Reader>,
    pausedPosition: nat,
    button: string,
    calls: seq<Call>,
    repositions: nat)

  function DeckTransport(d: Deck): Transport {
    TransportOf(d.playing, d.paused)
  }

  /** What holds of the transport in every reachable state: paused implies
      playing, an output exists only while playing, the button shows the
      transport state, a playing deck has a decoder, an output exists
      exactly when the device log says one is live, and no two outputs ever
      coexisted. */
  predicate DeckInv(d: Deck) {
    (d.paused ==> d.playing) &&
    (d.outputOpen ==> d.playing) &&
    d.button == ButtonLabel(DeckTransport(d)) &&
    (d.playing ==> d.reader.Some?) &&
    Disciplined(d.calls) && Live(d.calls) == d.outputOpen
  }

  /** The transport of a freshly built view-model: not playing, not paused,
      no output, no decoder, the button reading "Play". */
  function IdleDeck(): (d: Deck)
    ensures DeckInv(d) && DeckTransport(d) == Stopped && d.button == "Play"
    ensures !d.outputOpen && d.reader == None && d.calls == []
  {
    Deck(false, false, false, None, 0, "Play", [], 0)
  }

  /** Play(song): stop and dispose the current output first; then open the
      file, which may fail, leaving no output and the flags, the button and
      the decoder as they were; otherwise create a new output over a fresh
      decoder at position 0 and start it. */
  function PlayTrack(d: Deck, path: string, media: Media): (r: Step<Deck>)
    ensures DeckInv(d) ==> DeckInv(r.state)
    ensures r.outcome == (if path in media then Ok else FileNotFound(path))
    ensures r.outcome.Ok? ==>
      DeckTransport(r.state) == Playing && r.state.outputOpen &&
      r.state.reader == Some(Reader(0, media[path]))
    ensures !r.outcome.Ok? ==>
      !r.state.outputOpen && r.state.playing == d.playing && r.state.paused == d.paused &&
      r.state.button == d.button && r.state.reader == d.reader
    ensures r.state.calls ==
      d.calls + Released(d.outputOpen) + (if r.outcome.Ok? then [Open, Start] else [])
    ensures r.state.pausedPosition == d.pausedPosition && r.state.repositions == d.repositions
  {
    ReleaseThenOpen(d.calls);
    var released := d.(outputOpen := false, calls := d.calls + Released(d.outputOpen));
    if path !in media then
      Step(released, FileNotFound(path))
    else
      Step(released.(outputOpen := true, calls := released.calls + [Open, Start],
                     reader := Some(Reader(0, media[path])),
                     playing := true, paused := false, button := "Pause"), Ok)
  }

  /** Pause(): pause the output if there is one, remember the decoder's
      position and show "Resume". The decoder must exist. */
  function PauseTrack(d: Deck): (r: Deck)
    requires d.reader.Some?
    ensures DeckInv(d) && d.playing ==> DeckInv(r) && DeckTransport(r) == Paused
    ensures r.pausedPosition == d.reader.value.position && r.reader == d.reader
    ensures r.outputOpen == d.outputOpen && r.calls == d.calls + IfOpen(d.outputOpen, Suspend)
    ensures r.repositions == d.repositions
  {
    CallIfOpen(d.calls, Suspend);
    d.(calls := d.calls + IfOpen(d.outputOpen, Suspend),
       pausedPosition := d.reader.value.position, paused := true, button := "Resume")
  }

  /** Resume(): restart the output if there is one, move the decoder back to
      the remembered position and show "Pause". The decoder must exist. */
  function ResumeTrack(d: Deck): (r: Deck)
    requires d.reader.Some?
    ensures DeckInv(d) && d.playing ==> DeckInv(r) && DeckTransport(r) == Playing
    ensures r.reader == Some(d.reader.value.(position := d.pausedPosition))
    ensures r.outputOpen == d.outputOpen && r.calls == d.calls + IfOpen(d.outputOpen, Start)
    ensures r.pausedPosition == d.pausedPosition
  {
    CallIfOpen(d.calls, Start);
    d.(calls := d.calls + IfOpen(d.outputOpen, Start),
       reader := Some(d.reader.value.(position := d.pausedPosition)),
       repositions := d.repositions + 1, paused := false, button := "Pause")
  }

  /** Stop(): stop and dispose the output, clear both flags and show "Play".
      The decoder is kept (it is neither closed nor dropped). */
  function StopTrack(d: Deck): (r: Deck)
    ensures DeckInv(d) ==> DeckInv(r)
    ensures DeckTransport(r) == Stopped && !r.outputOpen && r.button == "Play"
    ensures r.calls == d.calls + Released(d.outputOpen)
    ensures r.reader == d.reader && r.pausedPosition == d.pausedPosition
    ensures r.repositions == d.repositions
  {
    ReleaseThenOpen(d.calls);
    d.(outputOpen := false, calls := d.calls + Released(d.outputOpen),
       playing := false, paused := false, button := "Play")
  }

  /** A write to the decoder's position (CurrentTime), if there is a
      decoder. */
  function Reposition(d: Deck, position: nat): (r: Deck)
    ensures DeckInv(d) ==> DeckInv(r)
    ensures d.reader.Some? ==> r.reader == Some(d.reader.value.(position := position))
    ensures d.reader.None? ==> r == d
    ensures DeckTransport(r) == DeckTransport(d) && r.calls == d.calls
    ensures r.pausedPosition == d.pausedPosition
  {
    match d.reader
    case None => d
    case Some(rd) =>
      d.(reader := Some(rd.(position := position)), repositions := d.repositions + 1)
  }

  /** The seek hook: when a decoder exists, move it to `fraction` of its
      track. */
  function SeekDeck(d: Deck, fraction: real): (r: Deck)
    requires 0.0 <= fraction <= 1.0
    ensures DeckInv(d) ==> DeckInv(r)
    ensures d.reader.Some? ==>
      r.reader == Some(Reader(SeekPosition(fraction, d.reader.value.total), d.reader.value.total))
    ensures d.reader.None? ==> r == d
    ensures DeckTransport(r) == DeckTransport(d) && r.calls == d.calls
    ensures r.pausedPosition == d.pausedPosition
  {
    match d.reader
    case None => d
    case Some(rd) => Reposition(d, SeekPosition(fraction, rd.total))
  }

  /** Stopping twice leaves the same transport as stopping once. */
  lemma StopIdempotent(d: Deck)
    ensures StopTrack(StopTrack(d)) == StopTrack(d)
  {
    assert StopTrack(d).calls + Released(false) == StopTrack(d).calls;
  }

  /** Pause followed by Resume restores the flags, the button and the
      decoder position; only the device calls, the remembered position and
      the count of position writes show that it happened. */
  lemma PauseResumeRoundTrip(d: Deck)
    requires DeckInv(d) && DeckTransport(d) == Playing
    ensures ResumeTrack(PauseTrack(d)) ==
      d.(pausedPosition := d.reader.value.position,
         calls := d.calls + IfOpen(d.outputOpen, Suspend) + IfOpen(d.outputOpen, Start),
         repositions := d.repositions + 1)
  {
  }

  /** The converse of "an output exists only while playing" fails: a Play
      whose file cannot be opened while a song plays removes the output but
      leaves the deck playing. Playing one file that exists and then one
      that does not reaches such a state from the initial deck. */
  lemma FailedPlayLeavesPlayingWithoutOutput(d: Deck, path: string, media: Media)
    requires DeckInv(d) && d.playing && path !in media
    ensures var e := PlayTrack(d, path, media).state;
      DeckInv(e) && e.playing && !e.outputOpen && e.reader == d.reader
    ensures var m := map["a.mp3" := 5];
      var e := PlayTrack(PlayTrack(IdleDeck(), "a.mp3", m).state, "b.mp3", m).state;
      DeckInv(e) && e.playing && !e.outputOpen
  {
  }

  /** Whatever the decoder is moved to while paused, Resume moves it back to
      where Pause left it. */
  lemma ResumeUndoesRepositionWhilePaused(d: Deck, position: nat)
    requires DeckInv(d) && DeckTransport(d) == Playing
    ensures ResumeTrack(Reposition(PauseTrack(d), position)).reader == d.reader
    ensures DeckTransport(ResumeTrack(Reposition(PauseTrack(d), position))) == Playing
  {
  }

  // ---------------------------------------------------------------------
  // Timers, progress and seeking
  // ---------------------------------------------------------------------

  /** What the timers show: remaining time, elapsed time and the progress
      fraction of the slider. */
  datatype Readout = Readout(remaining: nat, elapsed: nat, progress: real)

  /** The readout for a decoder at `position` of a track of length `total`,
      with elapsed time clamped to the track's end. */
  function ReadoutAt(position: nat, total: Duration): (r: Readout)
    ensures r.elapsed <= total && r.elapsed + r.remaining == total
    ensures position <= total ==> r.elapsed == position
    ensures position > total ==> r.remaining == 0 && r.progress == 1.0
    ensures r.progress * total as real == r.elapsed as real
    ensures 0.0 <= r.progress <= 1.0
  {
    var elapsed := if position <= total then position else total;
    var progress := Fraction(elapsed, total);
    assert elapsed == total ==> (progress - 1.0) * total as real == 0.0;
    SignOfScaled(progress - 1.0, total as real);
    Readout(total - elapsed, elapsed, progress)
  }

  /** The progress shown never goes down as the decoder moves forward, and
      stays at 1 once the end is passed. */
  lemma {:induction false} ProgressNonDecreasing(p: nat, q: nat, total: Duration)
    requires p <= q
    ensures ReadoutAt(p, total).progress <= ReadoutAt(q, total).progress
    ensures total <= p ==> ReadoutAt(q, total).progress == 1.0
  {
    var a, b := ReadoutAt(p, total), ReadoutAt(q, total);
    assert (b.progress - a.progress) * total as real == (b.elapsed - a.elapsed) as real;
    SignOfScaled(b.progress - a.progress, total as real);
    if total <= p {
      assert (b.progress - 1.0) * total as real == 0.0;
      SignOfScaled(b.progress - 1.0, total as real);
    }
  }

  /** Scaling by a positive number keeps the sign of a real. */
  lemma SignOfScaled(x: real, t: real)
    requires t > 0.0
    ensures x * t >= 0.0 ==> x >= 0.0
    ensures x * t == 0.0 ==> x == 0.0
  {
    if x < 0.0 {
      assert x * t < 0.0 * t;
    }
  }

  /** position / total as a real number. */
  function Fraction(position: nat, total: Duration): (f: real)
    ensures f * total as real == position as real
    ensures 0.0 <= f
    ensures position <= total ==> f <= 1.0
  {
    position as real / total as real
  }

  /** The decoder position that a slider value `fraction` seeks to:
      fraction × total, rounded down to a whole unit. */
  function SeekPosition(fraction: real, total: Duration): (p: nat)
    requires 0.0 <= fraction <= 1.0
    ensures p <= total
    ensures p as real <= fraction * total as real < p as real + 1.0
  {
    assert 0.0 <= fraction * total as real <= total as real;
    (fraction * total as real).Floor
  }

  /** Seeking to the fraction a position stands for lands on that position:
      writing the progress of a tick back through the seek path does not move
      the decoder (in exact arithmetic). */
  lemma {:induction false} SeekToFractionRoundTrip(position: nat, total: Duration)
    requires position <= total
    ensures SeekPosition(Fraction(position, total), total) == position
  {
    assert Fraction(position, total) * total as real == position as real;
  }

  // ---------------------------------------------------------------------
  // Paths
  // ---------------------------------------------------------------------

  /** Path.Combine for a relative file name: the folder, a directory
      separator unless the folder already ends in one, and the file name; an
      empty folder gives the file name alone. */
  function Combine(folder: string, file: string): string {
    if folder == [] then file
    else if folder[|folder| - 1] == '\\' || folder[|folder| - 1] == '/' then folder + file
    else folder + "\\" + file
  }

  /** The file a song title is played from: `<folder>\<title>.mp3`. */
  function SongPath(folder: string, title: string): string {
    Combine(folder, title + ".mp3")
  }
}
