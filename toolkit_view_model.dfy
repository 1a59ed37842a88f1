/** The second view-model, MainViewModel: the song folder is chosen at run
    time and loading appends to the song list, the selection is a string
    that is empty rather than null, property-change hooks seek and play, and
    the timer tick writes the progress back through the seeking hook. */
module ToolkitViewModel {
  import opened Playback
  import WindowViewModel

  /** Everything the view-model holds: the transport, the music folder, the
      selected song, the current index, the song titles, the remaining and
      elapsed timers and the slider's progress. */
  datatype State = State(
    deck: Deck,
    folder: string,
    selected: string,
    index: int,
    songs: seq<string>,
    musicTimer: nat,
    normalTimer: nat,
    progress: real)

  /** What holds in every reachable state: the transport invariant, the
      slider within [0, 1], and the index never at or beyond the end of the
      list unless it is 0 or below. */
  predicate Inv(s: State) {
    DeckInv(s.deck) &&
    0.0 <= s.progress <= 1.0 &&
    (s.index < |s.songs| || s.index <= 0)
  }

  function Transport(s: State): Transport {
    DeckTransport(s.deck)
  }

  /** The state after construction: nothing playing, the button reads
      "Play", no folder, no songs, an empty selection. */
  function Initial(): (s: State)
    ensures Inv(s) && Transport(s) == Stopped && s.deck.button == "Play"
    ensures s.folder == "" && s.selected == "" && s.songs == [] && s.index == 0
  {
    State(IdleDeck(), "", "", 0, [], 0, 0, 0.0)
  }

  /** LoadSongs(folder), given the titles the folder scan found: remember
      the folder and append the titles to the list already there. Playback,
      the selection and the index are left as they are. */
  function AfterLoadSongs(s: State, folder: string, titles: seq<string>): (r: State)
    ensures Inv(s) ==> Inv(r)
    ensures r.folder == folder && |r.songs| == |s.songs| + |titles| && r.songs[..|s.songs|] == s.songs && r.songs[|s.songs|..] == titles
    ensures r == s.(folder := folder, songs := r.songs)
  {
    s.(folder := folder, songs := s.songs + titles)
  }

  /** Play(song) on the view-model: only the transport changes. */
  function AfterPlay(s: State, path: string, media: Media): (r: Step<State>)
    ensures Inv(s) ==> Inv(r.state)
    ensures r.state == s.(deck := r.state.deck)
    ensures Step(r.state.deck, r.outcome) == PlayTrack(s.deck, path, media)
  {
    var played := PlayTrack(s.deck, path, media);
    Step(s.(deck := played.state), played.outcome)
  }

  /** PlayPause(): resume when paused, pause when playing, and otherwise
      play `<folder>\<selected>.mp3`, even when nothing is selected. The
      decoder exists whenever the flags say playing. */
  function AfterPlayPause(s: State, media: Media): (r: Step<State>)
    requires s.deck.playing ==> s.deck.reader.Some?
    ensures Inv(s) ==> Inv(r.state)
    ensures r.state == s.(deck := r.state.deck)
  {
    if s.deck.playing then
      if s.deck.paused then Step(s.(deck := ResumeTrack(s.deck)), Ok)
      else Step(s.(deck := PauseTrack(s.deck)), Ok)
    else
      AfterPlay(s, SongPath(s.folder, s.selected), media)
  }

  /** Setting SelectedSong: a changed value is stored and raises the change
      hook, which plays the song when its name is not empty. */
  function AfterSelect(s: State, value: string, media: Media): (r: Step<State>)
    ensures Inv(s) ==> Inv(r.state)
    ensures r.state == s.(selected := value, deck := r.state.deck)
    ensures value == s.selected || value == "" ==> r.state.deck == s.deck && r.outcome == Ok
    ensures value != s.selected && value != "" ==>
      Step(r.state.deck, r.outcome) == PlayTrack(s.deck, SongPath(s.folder, value), media)
  {
    if s.selected == value then Step(s, Ok)
    else if value != "" then AfterPlay(s.(selected := value), SongPath(s.folder, value), media)
    else Step(s.(selected := value), Ok)
  }

  /** The index Next() moves to: one further while that is inside the list,
      otherwise 0. */
  function NextIndex(i: int, count: nat): (j: int)
    ensures count > 0 && -1 <= i < count ==> 0 <= j < count
    ensures count == 0 && i >= -1 ==> j == 0
  {
    if i + 1 < count then i + 1 else 0
  }

  /** The index Previous() moves to: from 0 to the last song (-1 for an
      empty list), from anywhere else one back, even below 0. */
  function PreviousIndex(i: int, count: nat): (j: int)
    ensures 0 <= i < count ==> 0 <= j < count
    ensures count == 0 && i == 0 ==> j == -1
    ensures i < 0 ==> j < i
  {
    if i == 0 then count - 1 else i - 1
  }

  /** Next(): move the index on and select the song there. On an empty list
      the lookup fails after the index has moved. */
  function AfterNext(s: State, media: Media): (r: Step<State>)
    ensures Inv(s) ==> Inv(r.state)
    ensures r.state.index == NextIndex(s.index, |s.songs|)
    ensures !(0 <= r.state.index < |s.songs|) ==> r == Step(s.(index := r.state.index), IndexOutOfRange(r.state.index))
    ensures |s.songs| == 0 ==> r.outcome.IndexOutOfRange?
    ensures |s.songs| > 0 && -1 <= s.index ==>
      !r.outcome.IndexOutOfRange? && r.state.selected == s.songs[r.state.index]
    ensures 0 <= r.state.index < |s.songs| ==>
      r == AfterSelect(s.(index := r.state.index), s.songs[r.state.index], media)
  {
    var i := NextIndex(s.index, |s.songs|);
    if 0 <= i < |s.songs| then AfterSelect(s.(index := i), s.songs[i], media)
    else Step(s.(index := i), IndexOutOfRange(i))
  }

  /** Previous(): move the index back and select the song there. The lookup
      fails after the index has moved when it lands outside the list. */
  function AfterPrevious(s: State, media: Media): (r: Step<State>)
    ensures Inv(s) ==> Inv(r.state)
    ensures r.state.index == PreviousIndex(s.index, |s.songs|)
    ensures !(0 <= r.state.index < |s.songs|) ==> r == Step(s.(index := r.state.index), IndexOutOfRange(r.state.index))
    ensures |s.songs| == 0 ==> r.outcome.IndexOutOfRange?
    ensures 0 <= s.index < |s.songs| ==>
      !r.outcome.IndexOutOfRange? && r.state.selected == s.songs[r.state.index]
    ensures 0 <= r.state.index < |s.songs| ==>
      r == AfterSelect(s.(index := r.state.index), s.songs[r.state.index], media)
  {
    var i := PreviousIndex(s.index, |s.songs|);
    if 0 <= i < |s.songs| then AfterSelect(s.(index := i), s.songs[i], media)
    else Step(s.(index := i), IndexOutOfRange(i))
  }

  /** Setting NormalProgress: a changed value is stored and raises the
      change hook, which moves the decoder, when there is one, to that
      fraction of its track. */
  function AfterSeek(s: State, value: real): (r: State)
    requires 0.0 <= value <= 1.0
    ensures Inv(s) ==> Inv(r)
    ensures r.progress == value
    ensures r == s.(progress := value, deck := r.deck)
    ensures r.deck == if value == s.progress then s.deck else SeekDeck(s.deck, value)
  {
    if value == s.progress then s
    else s.(progress := value, deck := SeekDeck(s.deck, value))
  }

  /** UpdateTimers(): while playing, show the remaining and elapsed time and
      the progress, clamped at the end of the track; the progress is always
      assigned through the property, so its change hook seeks. The decoder
      exists whenever the flags say playing. */
  function AfterTick(s: State): (r: State)
    requires s.deck.playing ==> s.deck.reader.Some?
    ensures Inv(s) ==> Inv(r)
    ensures !s.deck.playing ==> r == s
    ensures s.deck.playing ==>
      Readout(r.musicTimer, r.normalTimer, r.progress) ==
      ReadoutAt(s.deck.reader.value.position, s.deck.reader.value.total)
    ensures Transport(r) == Transport(s) && r.deck.calls == s.deck.calls
    ensures r.selected == s.selected && r.index == s.index && r.songs == s.songs
  {
    if !s.deck.playing then s
    else
      var rd := s.deck.reader.value;
      if rd.total - rd.position >= 0 then
        AfterSeek(s.(musicTimer := rd.total - rd.position, normalTimer := rd.position),
                  Fraction(rd.position, rd.total))
      else
        AfterSeek(s.(musicTimer := 0, normalTimer := rd.total), 1.0)
  }

  // ---------------------------------------------------------------------
  // Properties of the transitions
  // ---------------------------------------------------------------------

  /** PlayPause dispatches on the transport state: playing pauses, which
      records the decoder position; paused resumes, which writes it back;
      stopped always tries to play the selection, which fails, leaving it
      stopped, when its file cannot be opened, and otherwise opens a decoder
      at the start of that file. With no folder and no selection the file
      tried is ".mp3". */
  lemma PlayPauseDispatch(s: State, media: Media)
    requires Inv(s)
    ensures var r := AfterPlayPause(s, media);
      (Transport(s) == Playing ==>
         r == Step(s.(deck := PauseTrack(s.deck)), Ok) && Transport(r.state) == Paused &&
         r.state.deck.pausedPosition == s.deck.reader.value.position) &&
      (Transport(s) == Paused ==>
         r == Step(s.(deck := ResumeTrack(s.deck)), Ok) && Transport(r.state) == Playing &&
         r.state.deck.reader.value.position == s.deck.pausedPosition)
    ensures var r, path := AfterPlayPause(s, media), SongPath(s.folder, s.selected);
      Transport(s) == Stopped ==>
         r == AfterPlay(s, path, media) &&
         (r.outcome == Ok <==> path in media) &&
         Transport(r.state) == (if r.outcome == Ok then Playing else Stopped) &&
         (r.outcome == Ok ==> r.state.deck.reader == Some(Reader(0, media[path])))
    ensures s.folder == "" && s.selected == "" ==> SongPath(s.folder, s.selected) == ".mp3"
  {
  }

  /** Previous undoes Next, and Next undoes Previous, on in-range indices. */
  lemma PreviousUndoesNext(i: int, count: nat)
    requires 0 <= i < count
    ensures PreviousIndex(NextIndex(i, count), count) == i
    ensures NextIndex(PreviousIndex(i, count), count) == i
  {
  }

  /** The index after k calls of Next. */
  function NextTimes(i: int, count: nat, k: nat): int
    decreases k
  {
    if k == 0 then i else NextIndex(NextTimes(i, count, k - 1), count)
  }

  /** k calls of Next here end where k calls of the first version's Next
      end. */
  lemma {:induction false} NextTimesMatchesFirstVersion(i: int, count: nat, k: nat)
    ensures NextTimes(i, count, k) == WindowViewModel.NextTimes(i, count, k)
    decreases k
  {
    if k > 0 {
      NextTimesMatchesFirstVersion(i, count, k - 1);
    }
  }

  /** Count calls of Next return to the starting song. */
  lemma NextCycle(i: int, count: nat)
    requires 0 <= i < count
    ensures NextTimes(i, count, count) == i
  {
    NextTimesMatchesFirstVersion(i, count, count);
    WindowViewModel.NextCycle(i, count);
  }

  /** The two versions compute Next alike, and Previous alike from every
      index at or above 0; below 0 this version keeps counting down while the
      first wraps to the last song. */
  lemma IndexArithmeticMatchesFirstVersion(i: int, count: nat)
    ensures NextIndex(i, count) == WindowViewModel.NextIndex(i, count)
    ensures i >= 0 ==> PreviousIndex(i, count) == WindowViewModel.PreviousIndex(i, count)
    ensures i < 0 ==> PreviousIndex(i, count) == i - 1 && WindowViewModel.PreviousIndex(i, count) == count - 1
  {
  }

  /** Previous on an empty list leaves the index at -1; once songs are
      loaded, the next Previous moves to -2 and its lookup fails although the
      list is not empty. */
  lemma PreviousAfterEmptyListFails(s: State, folder: string, titles: seq<string>, media: Media)
    requires s.songs == [] && s.index == 0 && titles != []
    ensures var failed := AfterPrevious(s, media);
      failed.outcome == IndexOutOfRange(-1) &&
      AfterPrevious(AfterLoadSongs(failed.state, folder, titles), media).outcome == IndexOutOfRange(-2)
  {
  }

  /** Before the end of the track the tick writes the progress through the
      seeking hook whenever it changed, so the decoder is repositioned on
      that tick; in exact arithmetic it lands where it already was. Past the
      end it seeks the decoder to the end, unless the slider already stood
      at 1. */
  lemma TickWritesPositionBack(s: State)
    requires Inv(s) && s.deck.playing
    ensures var rd, r := s.deck.reader.value, AfterTick(s);
      (rd.position <= rd.total ==>
         r.deck.reader == s.deck.reader &&
         r.deck.repositions == s.deck.repositions + (if s.progress == Fraction(rd.position, rd.total) then 0 else 1)) &&
      (rd.position > rd.total ==>
         r.progress == 1.0 &&
         r.deck.reader == Some(if s.progress == 1.0 then rd else Reader(rd.total, rd.total)))
  {
    var rd := s.deck.reader.value;
    if rd.position <= rd.total {
      SeekToFractionRoundTrip(rd.position, rd.total);
    } else {
      assert SeekPosition(1.0, rd.total) == rd.total;
    }
  }

  // ---------------------------------------------------------------------
  // The view-model object
  // ---------------------------------------------------------------------

  class MainViewModel {
    var normalTimer: nat
    var normalProgress: real
    var musicTimer: nat
    var songs: seq<string>
    var selectedSong: string
    var currentSongIndex: int
    var playButtonText: string
    var musicFolder: string
    /** Whether `_waveOut` is non-null. */
    var outputOpen: bool
    var audioFileReader: Option<Reader>
    var pausedPosition: nat
    var isPlaying: bool
    var isPaused: bool
    ghost var calls: seq<Call>
    ghost var repositions: nat

    ghost function Snapshot(): State
      reads this
    {
      State(Deck(isPlaying, isPaused, outputOpen, audioFileReader, pausedPosition,
                 playButtonText, calls, repositions),
            musicFolder, selectedSong, currentSongIndex, songs, musicTimer, normalTimer,
            normalProgress)
    }

    ghost predicate Valid()
      reads this
    {
      Inv(Snapshot())
    }

    constructor ()
      ensures Snapshot() == Initial() && Valid()
    {
      normalTimer, normalProgress, musicTimer := 0, 0.0, 0;
      songs, selectedSong, currentSongIndex := [], "", 0;
      playButtonText := "Play";
      musicFolder := "";
      outputOpen, audioFileReader, pausedPosition := false, None, 0;
      isPlaying, isPaused := false, false;
      calls, repositions := [], 0;
    }

    /** LoadSongs(folder); `titles` are the file names without extension
        that the scan of the folder found, in order. */
    method LoadSongs(folder: string, titles: seq<string>)
      requires Valid()
      modifies this
      ensures Snapshot() == AfterLoadSongs(old(Snapshot()), folder, titles)
      ensures Valid()
    {
      musicFolder := folder;
      for k := 0 to |titles|
        invariant Snapshot() == AfterLoadSongs(old(Snapshot()), folder, titles[..k])
      {
        songs := songs + [titles[k]];
      }
    }

    method PlayPause(media: Media) returns (outcome: Outcome)
      requires Valid()
      modifies this
      ensures Step(Snapshot(), outcome) == AfterPlayPause(old(Snapshot()), media)
      ensures Valid()
    {
      if isPlaying {
        if isPaused {
          Resume();
        } else {
          Pause();
        }
        return Ok;
      }
      outcome := Play(SongPath(musicFolder, selectedSong), media);
    }

    method Play(path: string, media: Media) returns (outcome: Outcome)
      requires Valid()
      modifies this
      ensures Step(Snapshot(), outcome) == AfterPlay(old(Snapshot()), path, media)
      ensures Valid()
    {
      ghost var after := AfterPlay(Snapshot(), path, media);
      // _waveOut?.Stop(); _waveOut?.Dispose(); _waveOut = null;
      calls := calls + Released(outputOpen);
      outputOpen := false;
      if path !in media {
        assert Snapshot() == after.state;
        return FileNotFound(path);
      }
      // new WaveOutEvent(), new Mp3FileReader, Init, Play
      audioFileReader := Some(Reader(0, media[path]));
      outputOpen := true;
      calls := calls + [Open, Start];
      isPlaying := true;
      isPaused := false;
      playButtonText := "Pause";
      outcome := Ok;
      assert Snapshot() == after.state;
    }

    method Pause()
      requires Valid() && isPlaying
      modifies this
      ensures Snapshot() == old(Snapshot()).(deck := PauseTrack(old(Snapshot()).deck))
      ensures Valid()
    {
      calls := calls + IfOpen(outputOpen, Suspend);
      pausedPosition := audioFileReader.value.position;
      isPaused := true;
      playButtonText := "Resume";
    }

    method Resume()
      requires Valid() && isPlaying
      modifies this
      ensures Snapshot() == old(Snapshot()).(deck := ResumeTrack(old(Snapshot()).deck))
      ensures Valid()
    {
      calls := calls + IfOpen(outputOpen, Start);
      audioFileReader := Some(audioFileReader.value.(position := pausedPosition));
      repositions := repositions + 1;
      isPaused := false;
      playButtonText := "Pause";
    }

    method Stop()
      requires Valid()
      modifies this
      ensures Snapshot() == old(Snapshot()).(deck := StopTrack(old(Snapshot()).deck))
      ensures Valid()
    {
      calls := calls + Released(outputOpen);
      outputOpen := false;
      isPlaying := false;
      isPaused := false;
      playButtonText := "Play";
    }

    method Previous(media: Media) returns (outcome: Outcome)
      requires Valid()
      modifies this
      ensures Step(Snapshot(), outcome) == AfterPrevious(old(Snapshot()), media)
      ensures Valid()
    {
      if currentSongIndex == 0 {
        currentSongIndex := |songs| - 1;
      } else {
        currentSongIndex := currentSongIndex - 1;
      }
      if !(0 <= currentSongIndex < |songs|) {
        return IndexOutOfRange(currentSongIndex);
      }
      outcome := SetSelectedSong(songs[currentSongIndex], media);
    }

    method Next(media: Media) returns (outcome: Outcome)
      requires Valid()
      modifies this
      ensures Step(Snapshot(), outcome) == AfterNext(old(Snapshot()), media)
      ensures Valid()
    {
      if currentSongIndex + 1 < |songs| {
        currentSongIndex := currentSongIndex + 1;
      } else {
        currentSongIndex := 0;
      }
      if !(0 <= currentSongIndex < |songs|) {
        return IndexOutOfRange(currentSongIndex);
      }
      outcome := SetSelectedSong(songs[currentSongIndex], media);
    }

    /** Assigning SelectedSong: the property setter and the SelectedSong
        branch of the change hook. */
    method SetSelectedSong(value: string, media: Media) returns (outcome: Outcome)
      requires Valid()
      modifies this
      ensures Step(Snapshot(), outcome) == AfterSelect(old(Snapshot()), value, media)
      ensures Valid()
    {
      outcome := Ok;
      if selectedSong != value {
        selectedSong := value;
        if selectedSong != "" {
          outcome := Play(SongPath(musicFolder, selectedSong), media);
        }
      }
    }

    /** Assigning NormalProgress: the property setter and the NormalProgress
        branch of the change hook; the slider only offers values in
        [0, 1]. */
    method SetNormalProgress(value: real)
      requires Valid() && 0.0 <= value <= 1.0
      modifies this
      ensures Snapshot() == AfterSeek(old(Snapshot()), value)
      ensures Valid()
    {
      if normalProgress != value {
        normalProgress := value;
        if audioFileReader.None? {
          return;
        }
        var total := audioFileReader.value.total;
        audioFileReader := Some(Reader(SeekPosition(normalProgress, total), total));
        repositions := repositions + 1;
      }
    }

    method UpdateTimers()
      requires Valid()
      modifies this
      ensures Snapshot() == AfterTick(old(Snapshot()))
      ensures Valid()
    {
      if !isPlaying {
        return;
      }
      var currentTime := audioFileReader.value.position;
      var totalDuration := audioFileReader.value.total;
      var remainingTime := totalDuration as int - currentTime as int;
      if remainingTime >= 0 {
        musicTimer := remainingTime;
        normalTimer := currentTime;
        SetNormalProgress(Fraction(currentTime, totalDuration));
      } else {
        musicTimer := 0;
        normalTimer := totalDuration;
        SetNormalProgress(1.0);
      }
    }
  }
}
