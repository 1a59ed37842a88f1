# MusicPlayer playback state machine in Dafny

This project models the transport logic of the MusicPlayer desktop
application: the view-model that plays, pauses, resumes, stops and skips
through a folder of MP3 files over one audio output device, and updates a
countdown timer and a progress slider once per second. The repository holds
two versions of that view-model, and both are modelled:

- `WindowViewModel` (window_view_model.dfy) models `MainWindowViewModel`
  (MusicPlayer/ViewModels/MainWindowViewModel.cs): a fixed music folder,
  songs loaded once, a selection that may be null, and a tick that writes the
  slider's backing field without seeking except past the end of a track.
- `ToolkitViewModel` (toolkit_view_model.dfy) models `MainViewModel`
  (MusicPlayer/ViewModels/MainViewModel.cs): a folder chosen at run time,
  loading that appends to the list, an empty-string selection, and
  property-change hooks through which a tick that changes the progress
  seeks.
- `Playback` (playback.dfy) holds what the two share. `Play`, `Pause`,
  `Resume` and `Stop` have the same bodies in both files, so they are
  defined once, as functions on a `Deck`: the transport fields. The module
  also holds the decoder, the device-call log, the button text, the timer
  readout and the seek arithmetic.

How the pieces are modelled:

- The NAudio decoder (`Mp3FileReader`) is a value `Reader(position, total)`.
  `Position` and `CurrentTime` share one unit, and `total` is positive.
- The output device (`WaveOutEvent`) is a flag saying whether `waveOut` is
  non-null.
- A ghost log of device calls (`Open`, `Start`, `Suspend`, `Halt`, `Release`)
  records the output's lifetime. `Disciplined` says an output is created
  only when none is live.
- The files that can be opened are a map `Media` from path to duration.
  `File.OpenRead` on any other path fails. That failure, and an index
  outside the song list, are returned as an `Outcome` in place of the
  exception. The state keeps the updates made before the exception.
- Each view-model is a class whose fields are the source's fields. Each
  method's `ensures` ties the new state (`Snapshot()`) to a transition
  function on a `State` value: `AfterNext`, `AfterTick` and so on.
  The properties are proved about those functions.
- The progress slider is a `real`, and a seek moves the decoder to
  ⌊fraction × total⌋.

Behaviour kept as the code has it, where a description of the intended
design says otherwise:

- An output exists only while playing, but the converse fails. When the
  file cannot be opened, the old output is already gone, but `isPlaying`,
  `isPaused`, the button text and the old decoder stay. So a state that is
  "playing" without an output is reachable
  (`Playback.FailedPlayLeavesPlayingWithoutOutput`). The state does not
  revert to stopped.
- `Stop` keeps the decoder, the timers and the progress. It does not reset
  them to zero.
- The tick runs while paused, because it tests only `isPlaying`. It never
  advances to the next song.
- `Next` and `Previous` on an empty list move the index and then fail on
  the lookup.
- In `MainViewModel`, `Previous` below 0 keeps counting down, so a later
  lookup can fail after songs are loaded.
- `MainViewModel`'s tick assigns the progress through the property. So on
  every tick where the progress value changes, the change hook writes the
  decoder position. In exact arithmetic it writes back the position just
  read.
- `MainViewModel.PlayPause` from stopped always tries to play
  `<folder>\<selected>.mp3`, even with nothing selected. The path is then
  `<folder>\.mp3`, or just ".mp3" before any folder is loaded.
  `MainWindowViewModel` does nothing when the selection is null.
- `MainViewModel.LoadSongs` appends to the list and does not stop playback.

## Model

| member | source | states |
|---|---|---|
| Playback.AtMostOneOutput | MusicPlayer/ViewModels/MainWindowViewModel.cs:112-124 | In every disciplined device log, outputs created = outputs disposed + (1 if one is live, else 0): two outputs never coexist |
| Playback.ReleaseThenOpen | MusicPlayer/ViewModels/MainWindowViewModel.cs:114-124 | Stopping and disposing the live output (if any) leaves none live, so creating and starting a new one keeps the log disciplined |
| Playback.IdleDeck | MusicPlayer/ViewModels/MainWindowViewModel.cs:27-29 | The initial transport: not playing, not paused, button "Play", no output, no decoder, and the invariant holds. The invariant covers: paused implies playing, an output only while playing, the button matching the flags, and a decoder while playing |
| Playback.LabelIdentifiesTransport | MusicPlayer/ViewModels/MainWindowViewModel.cs:112-155 | The texts "Play", "Pause" and "Resume" are distinct, so the button text determines the transport state (both directions) |
| Playback.PlayTrack | MusicPlayer/ViewModels/MainWindowViewModel.cs:112-128 | Play releases the old output before opening. It succeeds exactly when the file opens, and then it is playing, not paused, shows "Pause" and has a fresh decoder at position 0. On failure there is no output, and the flags, button and decoder are unchanged. The invariant is preserved |
| Playback.PauseTrack | MusicPlayer/ViewModels/MainWindowViewModel.cs:130-136 | Pause from playing gives Paused ("Resume"), records the decoder position, pauses the output only if it exists, and preserves the invariant |
| Playback.ResumeTrack | MusicPlayer/ViewModels/MainWindowViewModel.cs:138-144 | Resume from paused gives Playing ("Pause"), moves the decoder to the recorded position, restarts the output only if it exists, and preserves the invariant |
| Playback.StopTrack | MusicPlayer/ViewModels/MainWindowViewModel.cs:146-155 | Stop releases the output and clears both flags ("Play"). The decoder and the recorded position are kept, and the invariant is preserved |
| Playback.Reposition | MusicPlayer/ViewModels/MainWindowViewModel.cs:87-91 | A write to the decoder position changes only that position (nothing when there is no decoder) and preserves the invariant |
| Playback.SeekDeck | MusicPlayer/ViewModels/MainViewModel.cs:29-35 | The seek hook moves an existing decoder to SeekPosition(fraction, total) and leaves the transport and device log alone |
| Playback.StopIdempotent | MusicPlayer/ViewModels/MainWindowViewModel.cs:146-155 | Stop twice gives the same state as Stop once |
| Playback.PauseResumeRoundTrip | MusicPlayer/ViewModels/MainWindowViewModel.cs:130-144 | Pause then Resume restores the flags, the button and the decoder position. Only the log, the recorded position and the write count differ |
| Playback.ResumeUndoesRepositionWhilePaused | MusicPlayer/ViewModels/MainWindowViewModel.cs:138-144 | Whatever position the decoder is moved to while paused, Resume puts it back where Pause found it |
| Playback.ReadoutAt | MusicPlayer/ViewModels/MainWindowViewModel.cs:203-222 | Elapsed is the position clamped to the total, elapsed + remaining = total, progress × total = elapsed with progress in [0, 1], and past the end remaining is 0 and progress is 1 |
| Playback.ProgressNonDecreasing | MusicPlayer/ViewModels/MainWindowViewModel.cs:203-222 | As the decoder position grows, the progress the tick shows never decreases, and it stays at 1 once the end of the track is reached |
| Playback.FailedPlayLeavesPlayingWithoutOutput | MusicPlayer/ViewModels/MainWindowViewModel.cs:112-128 | A failed open while playing leaves a deck that is playing without an output, keeps the old decoder and still meets the invariant. Playing an existing file and then a missing one reaches that state from the initial deck |
| Playback.Fraction | MusicPlayer/ViewModels/MainWindowViewModel.cs:214 | current / total: its product with total is current, it is at least 0, and at most 1 when current ≤ total |
| Playback.SeekPosition | MusicPlayer/ViewModels/MainWindowViewModel.cs:89-90 | The seek target is fraction × total rounded down: within one unit below it, and never past the end |
| Playback.SeekToFractionRoundTrip | MusicPlayer/ViewModels/MainViewModel.cs:33-34 | Seeking to the fraction a position stands for lands exactly on that position |
| WindowViewModel.Initial | MusicPlayer/ViewModels/MainWindowViewModel.cs:27-36 | After construction: stopped, button "Play", nothing selected, index 0, the loaded songs, invariant holding |
| WindowViewModel.AfterPlay | MusicPlayer/ViewModels/MainWindowViewModel.cs:112-128 | Play on the view-model changes only the transport, exactly as PlayTrack, and preserves the invariant |
| WindowViewModel.AfterPlayPause | MusicPlayer/ViewModels/MainWindowViewModel.cs:157-170 | PlayPause changes only the transport (selection, index, songs, timers and progress are kept) and preserves the invariant |
| WindowViewModel.PlayPauseDispatch | MusicPlayer/ViewModels/MainWindowViewModel.cs:157-170 | Playing runs Pause, which records the decoder position. Paused runs Resume, which writes it back. Stopped with a selection plays `<folder>\<selection>.mp3`: it ends Playing with a decoder at the start of that file exactly when the file opens, and Stopped otherwise. Stopped with a null selection changes nothing |
| WindowViewModel.AfterSelect | MusicPlayer/ViewModels/MainWindowViewModel.cs:98-110 | The setter stores the value and changes nothing else except the transport. An unchanged value leaves the state untouched. A changed one plays `<folder>\<value>.mp3` (null reads as ""). The invariant is preserved |
| WindowViewModel.NextIndex | MusicPlayer/ViewModels/MainWindowViewModel.cs:172-176 | An in-range index stays in range, and an empty list gives 0 |
| WindowViewModel.PreviousIndex | MusicPlayer/ViewModels/MainWindowViewModel.cs:180-184 | An in-range index stays in range, and an empty list gives -1 |
| WindowViewModel.AfterNext | MusicPlayer/ViewModels/MainWindowViewModel.cs:172-178 | Next moves the index by NextIndex, then assigns the song there through the SelectedSong setter, which plays it only if it differs from the selection. On a non-empty list it never fails. On an empty list it fails with IndexOutOfRange(0) and changes only the index. The invariant is preserved |
| WindowViewModel.AfterPrevious | MusicPlayer/ViewModels/MainWindowViewModel.cs:180-186 | Previous moves the index by PreviousIndex, then assigns the song there through the SelectedSong setter, which plays it only if it differs. On a non-empty list it never fails. On an empty list it fails with IndexOutOfRange(-1), leaving the index at -1 |
| WindowViewModel.PreviousUndoesNext | MusicPlayer/ViewModels/MainWindowViewModel.cs:172-186 | On in-range indices Previous after Next, and Next after Previous, are the identity |
| WindowViewModel.NextTimesCompose | MusicPlayer/ViewModels/MainWindowViewModel.cs:172-176 | a + b steps of Next are a steps followed by b steps |
| WindowViewModel.NextTimesClimbs | MusicPlayer/ViewModels/MainWindowViewModel.cs:172-176 | While below the end, k steps of Next move k songs on |
| WindowViewModel.NextCycle | MusicPlayer/ViewModels/MainWindowViewModel.cs:172-176 | Count steps of Next from an in-range index return to it |
| WindowViewModel.NextOnSingleSongKeepsPlayback | MusicPlayer/ViewModels/MainWindowViewModel.cs:101-109 | On a one-song list whose song is selected, Next leaves the whole state unchanged and does not restart playback |
| WindowViewModel.AfterSeek | MusicPlayer/ViewModels/MainWindowViewModel.cs:79-96 | The NormalProgress setter stores a changed value and seeks an existing decoder to it. An unchanged value does nothing. Nothing else changes, and the invariant is preserved |
| WindowViewModel.AfterTick | MusicPlayer/ViewModels/MainWindowViewModel.cs:199-224 | Without playing and a decoder the tick is a no-op. Otherwise the timers and progress equal ReadoutAt(position, total), so remaining + elapsed = total, or it clamps past the end. Transport, selection and index are kept |
| WindowViewModel.TickSeeksOnlyPastEnd | MusicPlayer/ViewModels/MainWindowViewModel.cs:208-222 | Before the end the tick leaves the transport and decoder untouched. Past the end it sets progress to 1 and seeks the decoder to the end, unless progress was already 1 |
| WindowViewModel.MainWindowViewModel.constructor | MusicPlayer/ViewModels/MainWindowViewModel.cs:27-40 | The built object's state is Initial(titles) |
| WindowViewModel.MainWindowViewModel.Play | MusicPlayer/ViewModels/MainWindowViewModel.cs:112-128 | New state and outcome are AfterPlay of the old state, and the invariant is kept |
| WindowViewModel.MainWindowViewModel.Pause | MusicPlayer/ViewModels/MainWindowViewModel.cs:130-136 | Only the transport changes, as PauseTrack, and the invariant is kept |
| WindowViewModel.MainWindowViewModel.Resume | MusicPlayer/ViewModels/MainWindowViewModel.cs:138-144 | Only the transport changes, as ResumeTrack, and the invariant is kept |
| WindowViewModel.MainWindowViewModel.Stop | MusicPlayer/ViewModels/MainWindowViewModel.cs:146-155 | Only the transport changes, as StopTrack. The selection, index, timers and progress are untouched |
| WindowViewModel.MainWindowViewModel.PlayPause | MusicPlayer/ViewModels/MainWindowViewModel.cs:157-170 | New state and outcome are AfterPlayPause of the old state |
| WindowViewModel.MainWindowViewModel.SetSelectedSong | MusicPlayer/ViewModels/MainWindowViewModel.cs:98-110 | New state and outcome are AfterSelect of the old state |
| WindowViewModel.MainWindowViewModel.Next | MusicPlayer/ViewModels/MainWindowViewModel.cs:172-178 | New state and outcome are AfterNext of the old state |
| WindowViewModel.MainWindowViewModel.Previous | MusicPlayer/ViewModels/MainWindowViewModel.cs:180-186 | New state and outcome are AfterPrevious of the old state |
| WindowViewModel.MainWindowViewModel.SetNormalProgress | MusicPlayer/ViewModels/MainWindowViewModel.cs:79-96 | New state is AfterSeek of the old state |
| WindowViewModel.MainWindowViewModel.UpdateTimers | MusicPlayer/ViewModels/MainWindowViewModel.cs:199-224 | New state is AfterTick of the old state |
| ToolkitViewModel.Initial | MusicPlayer/ViewModels/MainViewModel.cs:44-71 | After construction: stopped, button "Play", no folder, no songs, empty selection, index 0, invariant holding |
| ToolkitViewModel.AfterLoadSongs | MusicPlayer/ViewModels/MainViewModel.cs:168-178 | Loading stores the folder and appends the titles after the existing songs. Nothing else changes: transport, selection, index, timers and progress are kept |
| ToolkitViewModel.AfterPlay | MusicPlayer/ViewModels/MainViewModel.cs:103-119 | Play on the view-model changes only the transport, exactly as PlayTrack, and preserves the invariant |
| ToolkitViewModel.AfterPlayPause | MusicPlayer/ViewModels/MainViewModel.cs:88-101 | PlayPause changes only the transport (folder, selection, index, songs, timers and progress are kept) and preserves the invariant |
| ToolkitViewModel.PlayPauseDispatch | MusicPlayer/ViewModels/MainViewModel.cs:88-101 | Playing runs Pause, which records the decoder position. Paused runs Resume, which writes it back. Stopped always plays `<folder>\<selected>.mp3` (".mp3" with no folder and an empty selection): it ends Playing with a decoder at the start of that file exactly when the file opens, and Stopped otherwise |
| ToolkitViewModel.AfterSelect | MusicPlayer/ViewModels/MainViewModel.cs:37-41 | The setter stores the value and changes nothing else except the transport. A changed, non-empty selection plays `<folder>\<name>.mp3`. An unchanged or empty one leaves the transport alone. The invariant is preserved |
| ToolkitViewModel.NextIndex | MusicPlayer/ViewModels/MainViewModel.cs:158-163 | From -1 up to an in-range index the result is in range, and an empty list gives 0 |
| ToolkitViewModel.PreviousIndex | MusicPlayer/ViewModels/MainViewModel.cs:148-153 | An in-range index stays in range. 0 on an empty list gives -1. A negative index goes further below |
| ToolkitViewModel.AfterNext | MusicPlayer/ViewModels/MainViewModel.cs:158-166 | Next moves the index by NextIndex. An index outside the list fails with IndexOutOfRange and changes only the index, which always happens on an empty list. An index inside the list assigns that song through the SelectedSong setter, which plays it when it is changed and non-empty. The invariant is preserved |
| ToolkitViewModel.AfterPrevious | MusicPlayer/ViewModels/MainViewModel.cs:148-156 | Previous moves the index by PreviousIndex. An index outside the list fails with IndexOutOfRange and changes only the index. An index inside the list assigns that song through the SelectedSong setter, which plays it when it is changed and non-empty. From an in-range index it never fails |
| ToolkitViewModel.PreviousUndoesNext | MusicPlayer/ViewModels/MainViewModel.cs:148-166 | On in-range indices Previous after Next, and Next after Previous, are the identity |
| ToolkitViewModel.NextTimesMatchesFirstVersion | MusicPlayer/ViewModels/MainViewModel.cs:158-163 | k steps of this Next end where k steps of MainWindowViewModel's Next end |
| ToolkitViewModel.NextCycle | MusicPlayer/ViewModels/MainViewModel.cs:158-163 | Count steps of Next from an in-range index return to it |
| ToolkitViewModel.IndexArithmeticMatchesFirstVersion | MusicPlayer/ViewModels/MainViewModel.cs:148-163 | Next agrees with the first version everywhere. Previous agrees at indices ≥ 0. Below 0 this one decrements where the first wraps to the last song |
| ToolkitViewModel.PreviousAfterEmptyListFails | MusicPlayer/ViewModels/MainViewModel.cs:148-156 | Previous on an empty list fails at -1. After songs are loaded, the next Previous fails at -2 although the list is not empty |
| ToolkitViewModel.AfterSeek | MusicPlayer/ViewModels/MainViewModel.cs:27-35 | Assigning NormalProgress stores a changed value and seeks an existing decoder to it. An unchanged value does nothing. The invariant is preserved |
| ToolkitViewModel.AfterTick | MusicPlayer/ViewModels/MainViewModel.cs:180-201 | Not playing: no-op. Playing: the timers and progress equal ReadoutAt(position, total) (sum = total, or clamped past the end). Transport, selection and index are kept |
| ToolkitViewModel.TickWritesPositionBack | MusicPlayer/ViewModels/MainViewModel.cs:189-200 | Before the end, a tick that changes the progress writes the decoder position once, to the position it had. Past the end it seeks to the end unless progress was already 1 |
| ToolkitViewModel.MainViewModel.constructor | MusicPlayer/ViewModels/MainViewModel.cs:18-25 | The built object's state is Initial() |
| ToolkitViewModel.MainViewModel.LoadSongs | MusicPlayer/ViewModels/MainViewModel.cs:168-178 | Appending title by title gives AfterLoadSongs of the old state |
| ToolkitViewModel.MainViewModel.PlayPause | MusicPlayer/ViewModels/MainViewModel.cs:88-101 | New state and outcome are AfterPlayPause of the old state |
| ToolkitViewModel.MainViewModel.Play | MusicPlayer/ViewModels/MainViewModel.cs:103-119 | New state and outcome are AfterPlay of the old state, and the invariant is kept |
| ToolkitViewModel.MainViewModel.Pause | MusicPlayer/ViewModels/MainViewModel.cs:121-127 | Only the transport changes, as PauseTrack |
| ToolkitViewModel.MainViewModel.Resume | MusicPlayer/ViewModels/MainViewModel.cs:129-135 | Only the transport changes, as ResumeTrack |
| ToolkitViewModel.MainViewModel.Stop | MusicPlayer/ViewModels/MainViewModel.cs:137-146 | Only the transport changes, as StopTrack. Everything else is untouched |
| ToolkitViewModel.MainViewModel.Previous | MusicPlayer/ViewModels/MainViewModel.cs:148-156 | New state and outcome are AfterPrevious of the old state |
| ToolkitViewModel.MainViewModel.Next | MusicPlayer/ViewModels/MainViewModel.cs:158-166 | New state and outcome are AfterNext of the old state |
| ToolkitViewModel.MainViewModel.SetSelectedSong | MusicPlayer/ViewModels/MainViewModel.cs:37-41 | New state and outcome are AfterSelect of the old state |
| ToolkitViewModel.MainViewModel.SetNormalProgress | MusicPlayer/ViewModels/MainViewModel.cs:27-35 | New state is AfterSeek of the old state |
| ToolkitViewModel.MainViewModel.UpdateTimers | MusicPlayer/ViewModels/MainViewModel.cs:180-201 | New state is AfterTick of the old state |

## Left out

- Audio decoding and device output (NAudio). The decoder is a position and a duration, and the output is a flag plus a log of calls. Nothing advances the decoder position while a track plays. It changes only through Play, Resume and seeks, so no operation here produces an end-of-track by itself.
- A file that opens but is not valid MP3. Only the failure of `File.OpenRead` (a path not in `Media`) is modelled. When the decoder constructor throws, the new output created just before it stays allocated. That case is not modelled.
- Disposal of decoders. `audioFileReader` is replaced without being disposed, and the model does not track decoder lifetimes.
- The folder scan (`Directory.GetFiles`, `Path.GetFileNameWithoutExtension`), the folder dialog and `SelectMusicFolderAsync`. This is file-system and UI I/O. The titles a scan would find are a parameter of the constructor and of `LoadSongs`.
- The one-second timer (`Observable.Interval`) and both `Dispose` methods. This is timer and lifetime plumbing. `UpdateTimers` is an ordinary method the client calls.
- Concurrency. The timer runs `UpdateTimers` on a pool thread, at the same time as the UI commands. The model assumes that a tick never overlaps a command, so every operation runs atomically.
- Change notifications (`RaisePropertyChanged`, the generated property setters). Only their effects on the model are kept: the change test of the setters and the two hooks.
- Floating point: progress is an exact `real`, and `TimeSpan` millisecond rounding is not modelled. In particular, the drift that real arithmetic gives when `MainViewModel`'s tick writes the position back is not captured.
- WindowViewModel.AfterSeek: the setter's 0.0001 change tolerance is modelled as exact inequality. A change smaller than the tolerance seeks here but not in the source.
- WindowViewModel.AfterSeek: requires a value in [0, 1], which is the slider's range and the range the tick writes. An out-of-range assignment would seek before the start or past the end, and is not modelled.
- ToolkitViewModel.AfterSeek: requires a value in [0, 1], for the same reason.
- WindowViewModel.MainWindowViewModel.SetNormalProgress: requires a value in [0, 1], for the same reason.
- ToolkitViewModel.MainViewModel.SetNormalProgress: requires a value in [0, 1], for the same reason.
- A null `SelectedSong` in `MainViewModel`. It is modelled as the empty string, which behaves the same in `PlayPause` and in the hook.
- The platform's directory separator. `Combine` joins with `\` (and accepts `/` at the end of a folder), as `Path.Combine` does on Windows. On Linux and macOS the separator is `/`, and that case is not modelled.
- `Path.Combine` with a rooted second argument. Song titles are file names, so the title is always joined under the folder.
- MusicPlayer/Converters/BitmapAssetValueConverter.cs, MusicPlayer/Views/MainWindow.axaml.cs and MusicPlayer/App.axaml.cs, which are framework glue.
