/** The first view-model, MainWindowViewModel: a fixed song folder, songs
    loaded once when it is built, a selection that may be null, and a timer
    tick that updates the slider without seeking except past the end of a
    track. */
module WindowViewModel {
  import opened Playback

  /** The folder songs are read from; fixed in this version. */
  const MusicFolder: string := "C:\\Users\\Mark Edrian\\RiderProjects\\MusicPlayer1\\MusicPlayer\\Assets\\music"

  /** Everything the view-model holds: the transport, the selected song
      (None for null), the index Next and Previous move, the song titles,
      the remaining and elapsed timers and the slider's progress. */
  datatype State = State(
    deck: Deck,
    selected: Option<string>,
    index: int,
    songs: seq<string>,
    musicTimer: nat,
    normalTimer: nat,
    progress: real)

  /** What holds in every reachable state: the transport invariant, the
      slider within [0, 1], and the index inside a non-empty list (0 or -1
      for an empty one). */
  predicate Inv(s: State) {
    DeckInv(s.deck) &&
    0.0 <= s.progress <= 1.0 &&
    (if |s.songs| > 0 then 0 <= s.index < |s.songs| else -1 <= s.index <= 0)
  }

  function Transport(s: State): Transport {
    DeckTransport(s.deck)
  }

  /** The state after construction: nothing playing, the button reads
      "Play", nothing selected, the given songs loaded. */
  function Initial(songs: seq<string>): (s: State)
    ensures Inv(s) && Transport(s) == Stopped && s.deck.button == "Play"
    ensures s.selected == None && s.songs == songs && s.index == 0
  {
    State(IdleDeck(), None, 0, songs, 0, 0, 0.0)
  }

  /** Play(song) on the view-model: only the transport changes. */
  function AfterPlay(s: State, path: string, media: Media): (r: Step<State>)
    ensures Inv(s) ==> Inv(r.state)
    ensures r.state == s.(deck := r.state.deck)
    ensures Step(r.state.deck, r.outcome) == PlayTrack(s.deck, path, media)
  {
    var played := PlayTrack(s.deck, path, media);
    Step(s.(deck := played.state), played.outcome)
  }

  /** The text `selectedSong + ".mp3"` starts with: a null selection reads
      as the empty string. */
  function TitleText(selected: Option<string>): string {
    match selected
    case None => ""
    case Some(t) => t
  }

  /** PlayPause(): resume when paused, pause when playing, otherwise play the
      selected song, and do nothing when no song is selected. The decoder
      exists whenever the flags say playing. */
  function AfterPlayPause(s: State, media: Media): (r: Step<State>)
    requires s.deck.playing ==> s.deck.reader.Some?
    ensures Inv(s) ==> Inv(r.state)
    ensures r.state == s.(deck := r.state.deck)
  {
    if s.deck.playing then
      if s.deck.paused then Step(s.(deck := ResumeTrack(s.deck)), Ok)
      else Step(s.(deck := PauseTrack(s.deck)), Ok)
    else if s.selected.Some? then
      AfterPlay(s, SongPath(MusicFolder, s.selected.value), media)
    else
      Step(s, Ok)
  }

  /** The SelectedSong setter: only a value different from the current
      selection is stored, and storing it plays that song. */
  function AfterSelect(s: State, value: Option<string>, media: Media): (r: Step<State>)
    ensures Inv(s) ==> Inv(r.state)
    ensures r.state == s.(selected := value, deck := r.state.deck)
    ensures value == s.selected ==> r == Step(s, Ok)
    ensures value != s.selected ==>
      Step(r.state.deck, r.outcome) == PlayTrack(s.deck, SongPath(MusicFolder, TitleText(value)), media)
  {
    if s.selected == value then Step(s, Ok)
    else AfterPlay(s.(selected := value), SongPath(MusicFolder, TitleText(value)), media)
  }

  /** The index Next() moves to: one further, or back to 0 on reaching the
      end of the list. */
  function NextIndex(i: int, count: nat): (j: int)
    ensures 0 <= i < count ==> 0 <= j < count
    ensures count == 0 && i >= -1 ==> j == 0
  {
    if i + 1 >= count then 0 else i + 1
  }

  /** The index Previous() moves to: one back, or to the last song when that
      goes below 0 (-1 for an empty list). */
  function PreviousIndex(i: int, count: nat): (j: int)
    ensures 0 <= i < count ==> 0 <= j < count
    ensures count == 0 && i <= 0 ==> j == -1
  {
    if i - 1 < 0 then count - 1 else i - 1
  }

  /** Next(): move the index on and select the song there. On an empty list
      the lookup fails after the index has moved. */
  function AfterNext(s: State, media: Media): (r: Step<State>)
    ensures Inv(s) ==> Inv(r.state)
    ensures r.state.index == NextIndex(s.index, |s.songs|)
    ensures Inv(s) && |s.songs| == 0 ==> r == Step(s.(index := 0), IndexOutOfRange(0))
    ensures Inv(s) && |s.songs| > 0 ==>
      !r.outcome.IndexOutOfRange? && r.state.selected == Some(s.songs[r.state.index])
    ensures 0 <= r.state.index < |s.songs| ==>
      r == AfterSelect(s.(index := r.state.index), Some(s.songs[r.state.index]), media)
  {
    var i := NextIndex(s.index, |s.songs|);
    if 0 <= i < |s.songs| then AfterSelect(s.(index := i), Some(s.songs[i]), media)
    else Step(s.(index := i), IndexOutOfRange(i))
  }

  /** Previous(): move the index back and select the song there. On an
      empty list the lookup fails after the index has moved to -1. */
  function AfterPrevious(s: State, media: Media): (r: Step<State>)
    ensures Inv(s) ==> Inv(r.state)
    ensures r.state.index == PreviousIndex(s.index, |s.songs|)
    ensures Inv(s) && |s.songs| == 0 ==> r == Step(s.(index := -1), IndexOutOfRange(-1))
    ensures Inv(s) && |s.songs| > 0 ==>
      !r.outcome.IndexOutOfRange? && r.state.selected == Some(s.songs[r.state.index])
    ensures 0 <= r.state.index < |s.songs| ==>
      r == AfterSelect(s.(index := r.state.index), Some(s.songs[r.state.index]), media)
  {
    var i := PreviousIndex(s.index, |s.songs|);
    if 0 <= i < |s.songs| then AfterSelect(s.(index := i), Some(s.songs[i]), media)
    else Step(s.(index := i), IndexOutOfRange(i))
  }

  /** The NormalProgress setter (a seek from the slider): a changed value is
      stored and, when a decoder exists, the decoder is moved to that
      fraction of its track; an unchanged value does nothing. */
  function AfterSeek(s: State, value: real): (r: State)
    requires 0.0 <= value <= 1.0
    ensures Inv(s) ==> Inv(r)
    ensures r.progress == value
    ensures r == s.(progress := value, deck := r.deck)
    ensures r.deck == if value == s.progress then s.deck else SeekDeck(s.deck, value)
  {
    if value == s.progress then s
    else s.(progress := value, deck := SeekDeck(s.deck, value))
  }

  /** UpdateTimers(): while playing with a decoder, show the remaining and
      elapsed time and the progress, clamped at the end of the track. Before
      the end, progress goes to the slider's backing field without seeking;
      past the end it goes through the seeking setter. */
  function AfterTick(s: State): (r: State)
    ensures Inv(s) ==> Inv(r)
    ensures !(s.deck.playing && s.deck.reader.Some?) ==> r == s
    ensures s.deck.playing && s.deck.reader.Some? ==>
      Readout(r.musicTimer, r.normalTimer, r.progress) ==
      ReadoutAt(s.deck.reader.value.position, s.deck.reader.value.total)
    ensures Transport(r) == Transport(s) && r.deck.calls == s.deck.calls
    ensures r.selected == s.selected && r.index == s.index && r.songs == s.songs
  {
    if s.deck.playing && s.deck.reader.Some? then
      var rd := s.deck.reader.value;
      if rd.total - rd.position >= 0 then
        s.(musicTimer := rd.total - rd.position, normalTimer := rd.position,
           progress := Fraction(rd.position, rd.total))
      else
        AfterSeek(s.(musicTimer := 0, normalTimer := rd.total), 1.0)
    else s
  }

  // ---------------------------------------------------------------------
  // Properties of the transitions
  // ---------------------------------------------------------------------

  /** PlayPause dispatches on the transport state: playing pauses, which
      records the decoder position; paused resumes, which writes it back;
      stopped with a selection plays it (failing only when its file cannot
      be opened, which leaves it stopped, and otherwise opening a decoder at
      the start of that file); stopped without a selection changes nothing. */
  lemma PlayPauseDispatch(s: State, media: Media)
    requires Inv(s)
    ensures var r := AfterPlayPause(s, media);
      (Transport(s) == Playing ==>
         r == Step(s.(deck := PauseTrack(s.deck)), Ok) && Transport(r.state) == Paused &&
         r.state.deck.pausedPosition == s.deck.reader.value.position) &&
      (Transport(s) == Paused ==>
         r == Step(s.(deck := ResumeTrack(s.deck)), Ok) && Transport(r.state) == Playing &&
         r.state.deck.reader.value.position == s.deck.pausedPosition)
    ensures var r := AfterPlayPause(s, media);
      (Transport(s) == Stopped && s.selected == None ==> r == Step(s, Ok)) &&
      (Transport(s) == Stopped && s.selected.Some? ==>
         var path := SongPath(MusicFolder, s.selected.value);
         r == AfterPlay(s, path, media) &&
         (r.outcome == Ok <==> path in media) &&
         Transport(r.state) == (if r.outcome == Ok then Playing else Stopped) &&
         (r.outcome == Ok ==> r.state.deck.reader == Some(Reader(0, media[path]))))
  {
  }

  /** Previous undoes Next, and Next undoes Previous, on in-range indices. */
  lemma PreviousUndoesNext(i: int, count: nat)
    requires 0 <= i < count
    ensures PreviousIndex(NextIndex(i, count), count) == i
    ensures NextIndex(PreviousIndex(i, count), count) == i
  {
  }

  /** The index after k calls of Next. */
  function NextTimes(i: int, count: nat, k: nat): int
    decreases k
  {
    if k == 0 then i else NextIndex(NextTimes(i, count, k - 1), count)
  }

  /** Calls of Next compose: a + b calls are a calls followed by b. */
  lemma {:induction false} NextTimesCompose(i: int, count: nat, a: nat, b: nat)
    ensures NextTimes(i, count, a + b) == NextTimes(NextTimes(i, count, a), count, b)
    decreases b
  {
    if b > 0 {
      NextTimesCompose(i, count, a, b - 1);
    }
  }

  /** Below the end of the list, k calls of Next move k songs on. */
  lemma {:induction false} NextTimesClimbs(i: int, count: nat, k: nat)
    requires 0 <= i && i + k < count
    ensures NextTimes(i, count, k) == i + k
    decreases k
  {
    if k > 0 {
      NextTimesClimbs(i, count, k - 1);
    }
  }

  /** Count calls of Next return to the starting song: count - i calls reach
      the end and wrap to 0, and i more climb back to i. */
  lemma NextCycle(i: int, count: nat)
    requires 0 <= i < count
    ensures NextTimes(i, count, count) == i
  {
    NextTimesClimbs(i, count, count - i - 1);
    assert NextTimes(i, count, count - i) == 0;
    NextTimesCompose(i, count, count - i, i);
    if i > 0 {
      NextTimesClimbs(0, count, i);
    }
  }

  /** On a one-song list whose song is already selected, Next selects it
      again, which the setter ignores: playback is not restarted. */
  lemma NextOnSingleSongKeepsPlayback(s: State, media: Media)
    requires Inv(s) && |s.songs| == 1 && s.selected == Some(s.songs[0])
    ensures AfterNext(s, media) == Step(s, Ok)
  {
  }

  /** Before the end of the track the tick leaves the decoder alone; past
      the end it seeks the decoder to the end, unless the slider already
      stood at 1. */
  lemma TickSeeksOnlyPastEnd(s: State)
    requires Inv(s) && s.deck.playing
    ensures var rd, r := s.deck.reader.value, AfterTick(s);
      (rd.position <= rd.total ==> r.deck == s.deck) &&
      (rd.position > rd.total ==>
         r.progress == 1.0 &&
         r.deck.reader == Some(if s.progress == 1.0 then rd else Reader(rd.total, rd.total)))
  {
    var rd := s.deck.reader.value;
    if rd.position > rd.total {
      assert SeekPosition(1.0, rd.total) == rd.total;
    }
  }

  // ---------------------------------------------------------------------
  // The view-model object
  // ---------------------------------------------------------------------

  class MainWindowViewModel {
    var isPlaying: bool
    var isPaused: bool
    /** Whether `waveOut` is non-null. */
    var outputOpen: bool
    var audioFileReader: Option<Reader>
    var pausedPosition: nat
    var selectedSong: Option<string>
    var currentSongIndex: int
    const songs: seq<string>
    var playButtonText: string
    var musicTimer: nat
    var normalTimer: nat
    var normalProgress: real
    ghost var calls: seq<Call>
    ghost var repositions: nat

    ghost function Snapshot(): State
      reads this
    {
      State(Deck(isPlaying, isPaused, outputOpen, audioFileReader, pausedPosition,
                 playButtonText, calls, repositions),
            selectedSong, currentSongIndex, songs, musicTimer, normalTimer, normalProgress)
    }

    ghost predicate Valid()
      reads this
    {
      Inv(Snapshot())
    }

    /** Builds the view-model over the song titles found in the music
        folder. */
    constructor (titles: seq<string>)
      ensures Snapshot() == Initial(titles) && Valid()
    {
      isPlaying, isPaused, outputOpen := false, false, false;
      audioFileReader, pausedPosition := None, 0;
      selectedSong, currentSongIndex := None, 0;
      songs := titles;
      playButtonText := "Play";
      musicTimer, normalTimer, normalProgress := 0, 0, 0.0;
      calls, repositions := [], 0;
    }

    method Play(path: string, media: Media) returns (outcome: Outcome)
      requires Valid()
      modifies this
      ensures Step(Snapshot(), outcome) == AfterPlay(old(Snapshot()), path, media)
      ensures Valid()
    {
      ghost var after := AfterPlay(Snapshot(), path, media);
      // waveOut?.Stop(); waveOut?.Dispose(); waveOut = null;
      calls := calls + Released(outputOpen);
      outputOpen := false;
      if path !in media {
        assert Snapshot() == after.state;
        return FileNotFound(path);
      }
      // new WaveOutEvent(), new Mp3FileReader, Init, Play
      audioFileReader := Some(Reader(0, media[path]));
      outputOpen := true;
      calls := calls + [Open, Start];
      isPlaying := true;
      isPaused := false;
      playButtonText := "Pause";
      outcome := Ok;
      assert Snapshot() == after.state;
    }

    method Pause()
      requires Valid() && isPlaying
      modifies this
      ensures Snapshot() == old(Snapshot()).(deck := PauseTrack(old(Snapshot()).deck))
      ensures Valid()
    {
      calls := calls + IfOpen(outputOpen, Suspend);
      pausedPosition := audioFileReader.value.position;
      isPaused := true;
      playButtonText := "Resume";
    }

    method Resume()
      requires Valid() && isPlaying
      modifies this
      ensures Snapshot() == old(Snapshot()).(deck := ResumeTrack(old(Snapshot()).deck))
      ensures Valid()
    {
      calls := calls + IfOpen(outputOpen, Start);
      audioFileReader := Some(audioFileReader.value.(position := pausedPosition));
      repositions := repositions + 1;
      isPaused := false;
      playButtonText := "Pause";
    }

    method Stop()
      requires Valid()
      modifies this
      ensures Snapshot() == old(Snapshot()).(deck := StopTrack(old(Snapshot()).deck))
      ensures Valid()
    {
      calls := calls + Released(outputOpen);
      outputOpen := false;
      isPlaying := false;
      isPaused := false;
      playButtonText := "Play";
    }

    method PlayPause(media: Media) returns (outcome: Outcome)
      requires Valid()
      modifies this
      ensures Step(Snapshot(), outcome) == AfterPlayPause(old(Snapshot()), media)
      ensures Valid()
    {
      if isPlaying {
        if isPaused {
          Resume();
        } else {
          Pause();
        }
        outcome := Ok;
      } else if selectedSong.Some? {
        outcome := Play(SongPath(MusicFolder, selectedSong.value), media);
      } else {
        outcome := Ok;
      }
    }

    /** The SelectedSong property setter. */
    method SetSelectedSong(value: Option<string>, media: Media) returns (outcome: Outcome)
      requires Valid()
      modifies this
      ensures Step(Snapshot(), outcome) == AfterSelect(old(Snapshot()), value, media)
      ensures Valid()
    {
      outcome := Ok;
      if selectedSong != value {
        selectedSong := value;
        outcome := Play(SongPath(MusicFolder, TitleText(selectedSong)), media);
      }
    }

    method Next(media: Media) returns (outcome: Outcome)
      requires Valid()
      modifies this
      ensures Step(Snapshot(), outcome) == AfterNext(old(Snapshot()), media)
      ensures Valid()
    {
      currentSongIndex := currentSongIndex + 1;
      if currentSongIndex >= |songs| {
        currentSongIndex := 0;
      }
      if !(0 <= currentSongIndex < |songs|) {
        return IndexOutOfRange(currentSongIndex);
      }
      outcome := SetSelectedSong(Some(songs[currentSongIndex]), media);
    }

    method Previous(media: Media) returns (outcome: Outcome)
      requires Valid()
      modifies this
      ensures Step(Snapshot(), outcome) == AfterPrevious(old(Snapshot()), media)
      ensures Valid()
    {
      currentSongIndex := currentSongIndex - 1;
      if currentSongIndex < 0 {
        currentSongIndex := |songs| - 1;
      }
      if !(0 <= currentSongIndex < |songs|) {
        return IndexOutOfRange(currentSongIndex);
      }
      outcome := SetSelectedSong(Some(songs[currentSongIndex]), media);
    }

    /** The NormalProgress property setter; the slider only offers values in
        [0, 1]. */
    method SetNormalProgress(value: real)
      requires Valid() && 0.0 <= value <= 1.0
      modifies this
      ensures Snapshot() == AfterSeek(old(Snapshot()), value)
      ensures Valid()
    {
      if normalProgress != value {
        normalProgress := value;
        if audioFileReader.Some? {
          var total := audioFileReader.value.total;
          audioFileReader := Some(Reader(SeekPosition(normalProgress, total), total));
          repositions := repositions + 1;
        }
      }
    }

    method UpdateTimers()
      requires Valid()
      modifies this
      ensures Snapshot() == AfterTick(old(Snapshot()))
      ensures Valid()
    {
      if isPlaying && audioFileReader.Some? {
        var currentTime := audioFileReader.value.position;
        var totalDuration := audioFileReader.value.total;
        var remainingTime := totalDuration as int - currentTime as int;
        if remainingTime >= 0 {
          musicTimer := remainingTime;
          normalTimer := currentTime;
          // the backing field only: no seek
          normalProgress := Fraction(currentTime, totalDuration);
        } else {
          musicTimer := 0;
          normalTimer := totalDuration;
          SetNormalProgress(1.0);
        }
      }
    }
  }
}
