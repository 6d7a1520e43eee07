# daphne, modelled in Dafny

daphne is a terminal music player for a small device with GPIO buttons. It
loads a catalog of tracks, shows the catalog in a table, and maps single keys
to actions on that catalog:
- `j`/`k` move the cursor;
- `:` plays the selected track;
- `n`/`p` step to the next or previous track;
- `<`/`>` seek backward or forward;
- `K`/`J` raise or lower the volume;
- `D` removes a row;
- `/` searches, and space or Tab opens the ordering overlay (shuffle, album,
  artist, track).

A controller loop dispatches each key to the handler of the active mode. It
also queues the next track when the current one finishes, and closes the
overlays after about four idle seconds. A separate playback thread owns the
audio sink: it applies the commands it receives and reports a snapshot of the
sink after every pass.

The model has one module per source file:

| module | file | form |
|---|---|---|
| `Catalog` | `src/fuzzy_search.rs`, `Audio` of `src/main.rs` | the search loop as a method, proved against the function `Matching` |
| `Orders` | `src/order.rs` | pure functions |
| `Sorting` | the comparators of `src/utility.rs` | a stable insertion sort in place on an `array`, proved against the function `Sort` |
| `Utility` | `src/utility.rs` | `order_*` as methods on an `array` (Fisher-Yates in place, sorts in place); `play_new_track` on the state object |
| `State` | `src/state.rs` | the class `PlayerState`, whose fields the handlers update in place |
| `Protocol` | `Command`, `Action` of `src/main.rs`, the key codes | datatypes |
| `ButtonHandler` | `src/button_handler.rs` | each handler is a method on `PlayerState`, proved against a function of the state's `View()` |
| `Controller` | the `run` loop of `src/main.rs` | one pass of the loop as a method, proved against the function `Tick` |
| `Playback` | `src/playback.rs` | pure functions over an abstract sink, and the playback thread's loop state as a class `Engine` |
| `NumberDrawer` | `src/view/number_drawer.rs` | the glyph-collecting loop as a method, proved against `Collect` |

Conventions of the model:
- **Whole state as a value.** Every state-changing method ensures
  `state.View() == F(old(state.View()), …)` for a function `F`. The
  properties the source promises are proved as lemmas about `F`.
- **Panics.** A Rust operation that would panic has a matching
  `…Safe` predicate (index out of range, `% 0`, and `usize` underflow in a
  debug build). The handler methods require that predicate. The controller
  checks it and ends the pass with the outcome `Panic` instead of calling the
  handler.
- **Volume** is an integer in hundredths: 1.0 is 100, the step of 0.1 is 10,
  and the upper bound 2.0 is 200.
- **Positions** in the sink are milliseconds; `as_secs` is division by 1000.
- **Randomness.** The shuffle's random numbers are an input, `draws: nat -> u64`.
- **Sent commands.** Commands sent on the channel are appended to a `sent`
  field of the state, oldest first.

## Model

| member | source | states |
|---|---|---|
| Catalog.Search | src/fuzzy_search.rs:7-20 | the loop's result is exactly `Matching(tracks, keyword)`: the tracks whose name or author contains the keyword, in catalog order |
| Catalog.Matching | src/fuzzy_search.rs:7-20 | a search never returns more tracks than the catalog holds |
| Catalog.MatchingMembership | src/fuzzy_search.rs:12-16 | a track is in the result if and only if it is in the catalog and its name or author contains the keyword |
| Catalog.MatchingIsSubsequence | src/fuzzy_search.rs:12-16 | the result is a subsequence of the catalog: there are strictly increasing catalog positions holding the results in order, and they are exactly the positions of the matching tracks (so every copy of a duplicated matching track is kept) |
| Catalog.MatchingEmptyKeyword | src/fuzzy_search.rs:13 | every string contains the empty keyword, so an empty search returns the whole catalog |
| Catalog.ContainsEmpty | src/fuzzy_search.rs:13 | `contains("")` holds for every string |
| Catalog.MissingChar | src/fuzzy_search.rs:13 | a keyword with a character the text lacks is not contained in it |
| Catalog.MissingCharNoMatch | src/fuzzy_search.rs:13 | a track whose name and author both lack a character of the keyword is not found |
| Catalog.MatchingOfFour | src/fuzzy_search.rs:12-16 | a search over four tracks keeps each in turn exactly when it matches |
| Catalog.HelloFlags | src/fuzzy_search/test.rs:7-40 | of the four test tracks only the first matches "Hello" |
| Catalog.FixtureHello | src/fuzzy_search/test.rs:40 | "Hello" finds exactly one test track, the first |
| Catalog.ByeFlags | src/fuzzy_search/test.rs:7-42 | no test track matches "Bye" |
| Catalog.FixtureBye | src/fuzzy_search/test.rs:42 | "Bye" finds no test track |
| Catalog.RockFlags | src/fuzzy_search/test.rs:7-43 | the last two test tracks match "Rock" (at position 17 of their names), the first two do not |
| Catalog.FixtureRock | src/fuzzy_search/test.rs:43 | "Rock" finds the last two test tracks, in order |
| Catalog.FixtureLowercaseHello | src/fuzzy_search.rs:13 | "hello" finds no test track, because `contains` is case-sensitive; see "## Left out" for the test that expects one |
| Orders.Display | src/order.rs:17-26 | the modes are shown as "Shuffle", "Album", "Artist" and "Track"; every name has at least five characters and starts with 'S', 'A' or 'T' |
| Orders.DisplayInjective | src/order.rs:17-26 | different modes have different names |
| Orders.Eq | src/order.rs:11-15 | comparing the names is true if and only if the modes are the same |
| Orders.Next | src/order.rs:31-38 | `next` always yields a mode, and a different one |
| Orders.NextCycleLength | src/order.rs:31-38 | four calls of `next` return to the start, and fewer than four never do |
| Orders.AdvancePeriodic | src/order.rs:31-38 | the walk by `next` repeats with period four |
| Orders.AdvanceVisitsAll | src/order.rs:31-38 | from any mode the walk reaches every mode within four steps |
| Sorting.StrLessIrreflexive | src/utility.rs:74-76 | the string order used by `cmp` is irreflexive |
| Sorting.StrLessTransitive | src/utility.rs:74-76 | the string order is transitive |
| Sorting.StrLessTotal | src/utility.rs:74-76 | of two different strings one is less than the other |
| Sorting.KeyLessStrictTotal | src/utility.rs:78-88 | the artist-then-name comparator is a strict total order |
| Sorting.KeyLeTransitive | src/utility.rs:78-88 | "not greater" under the comparator is transitive |
| Sorting.InsertAt | src/utility.rs:74-88 | inserting a track places it right after the last track whose key is not greater, before the run of greater keys |
| Sorting.InsertMultiset | src/utility.rs:74-88 | inserting a track adds exactly that track |
| Sorting.InsertSorted | src/utility.rs:74-88 | inserting into a sorted catalog keeps it sorted |
| Sorting.WithKeyConcat | src/utility.rs:74-88 | the tracks with a given key, taken from two catalogs joined, are those of each joined |
| Sorting.InsertStable | src/utility.rs:74-88 | an inserted track goes after every track sharing its key |
| Sorting.SortPermutation | src/utility.rs:74-88 | the stable sort is a permutation of the catalog |
| Sorting.SortSorted | src/utility.rs:74-88 | the stable sort is ordered by the comparator's key |
| Sorting.SortStable | src/utility.rs:74-88 | tracks with equal keys keep their catalog order (`sort_by` is stable) |
| Sorting.ShiftGreater | src/utility.rs:74-88 | moves the prefix's run of tracks with greater keys one slot right and returns where the new track belongs |
| Sorting.InsertLast | src/utility.rs:74-88 | one insertion pass leaves the prefix equal to `Insert` of the element into the old prefix; the suffix is untouched |
| Sorting.SortInPlace | src/utility.rs:74-88 | the slice ends up equal to the stable sort of its old contents |
| Utility.SwapIndex | src/utility.rs:98 | the partner index of round `i` lies in `[i, size)` |
| Utility.Swap | src/utility.rs:99 | a swap permutes the catalog |
| Utility.SwapInPlace | src/utility.rs:99 | `slice::swap` on the array equals `Swap` of the old contents |
| Utility.ShufflePermutation | src/utility.rs:92-101 | the Fisher-Yates sweep is a permutation of the catalog and leaves an empty catalog empty |
| Utility.OrderShuffle | src/utility.rs:92-101 | `order_shuffle` leaves the array equal to the sweep over the draws, a permutation of its old contents |
| Utility.OrderAlbum | src/utility.rs:90 | album order leaves the catalog as it is |
| Utility.OrderTracks | src/utility.rs:74-76 | `order_tracks` leaves the stable sort by lower-cased name: sorted, and a permutation |
| Utility.OrderArtist | src/utility.rs:78-88 | `order_artist` leaves the stable sort by lower-cased author then name: sorted, and a permutation |
| Utility.ReorderedProperties | src/utility.rs:62-72 | every branch of `order_by` permutes the catalog; the same mode, or album, changes nothing; track and artist leave it sorted by their key |
| Utility.OrderBy | src/utility.rs:62-72 | `order_by` changes the array to `Reordered` of its old contents |
| Utility.PlayNewEffect | src/utility.rs:103-109 | starting a track makes it current and marks it playing; all other tracks and fields stay; exactly one `New` with its path is sent |
| Utility.PlayNewTrack | src/utility.rs:103-109 | `play_new_track` changes the state to `PlayNew` of the old state |
| State.PlayerState.Init | src/state.rs:37-61 | a new state holds the loaded catalog and its size, in choosing mode with artist order, volume 1.0, no current track, the cursors on the first row and nothing sent |
| State.DefaultState | src/state.rs:87-93 | without a configuration file the seek distance is 5 seconds |
| State.ConfiguredState | src/state.rs:74-79 | with a configuration file the seek distance is the configured one |
| ButtonHandler.ListOrder | src/button_handler.rs:29-52 | the list rows 0-3 select the modes in `next` order from shuffle, and any other row selects shuffle |
| ButtonHandler.ListSelectionPermutes | src/button_handler.rs:28-55 | applying the selected row permutes the catalog, keeps it when the mode is unchanged, and changes only the catalog and the recorded mode |
| ButtonHandler.ConfigKeyProperties | src/button_handler.rs:12-92 | the list cursor stays in rows 0-3; `j`/`k` reset the idle counter; space and Enter, and only they, report `Submit` and record the selected row's mode; every other key leaves the catalog and the recorded mode unchanged; Esc, and only Esc, reports `Escape` and changes nothing |
| ButtonHandler.ConfigKeyCatalog | src/button_handler.rs:12-92 | no configuration key does more than permute the catalog, and none touches a field other than the catalog, the mode, the overlay flag, the idle counter and the list cursor |
| ButtonHandler.ApplyListSelection | src/button_handler.rs:28-55 | applying the selected row changes the state to `ListSelectionApplied` of the old state |
| ButtonHandler.HandleConfig | src/button_handler.rs:12-92 | `handle_config` changes the state and reports the action as `ConfigKey` says |
| ButtonHandler.DropLast | src/button_handler.rs:100-103 | `pop` removes the last character, and leaves an empty keyword empty |
| ButtonHandler.SearchKeyProperties | src/button_handler.rs:94-113 | a character extends the keyword and Backspace shortens it; afterwards the match list holds exactly the matching catalog tracks; Esc reports `Escape`, Enter `Submit`; only the keyword and the match list change |
| ButtonHandler.HandleSearch | src/button_handler.rs:94-113 | `handle_search` changes the state and reports the action as `SearchKey` says |
| ButtonHandler.Remove | src/button_handler.rs:133-137 | `Vec::remove(i)` drops exactly element `i` and shifts the rest down one |
| ButtonHandler.Stepped | src/button_handler.rs:152-165 | the stepped index is below the load-time track count |
| ButtonHandler.SteppedNeighbour | src/button_handler.rs:152-165 | `n` moves to the next index and wraps from the last to 0; `p` moves to the previous index and wraps from 0 to the last |
| ButtonHandler.TrackSteppedEffect | src/button_handler.rs:152-165 | with a current track, `n`/`p` unmark it, mark the stepped-to track playing and send one `New` with its path, leaving the other tracks alone; without a current track nothing happens |
| ButtonHandler.CursorKeyProperties | src/button_handler.rs:138-151 | `j`/`k` enter choosing mode and reset the idle counter; the cursor moves one row but never past the last loaded row or below row 0 |
| ButtonHandler.SeekKeyProperties | src/button_handler.rs:166-180 | `<` always sends a backward seek by the seek distance; `>` sends a forward seek bounded by the current track's length exactly when there is a current track |
| ButtonHandler.VolumeKeyProperties | src/button_handler.rs:181-194 | `K`/`J` enter adjusting mode, reset the idle counter, and send a step of +10 or -10 only while the volume is below 200 or above 0 |
| ButtonHandler.RemoveKeyEffect | src/button_handler.rs:133-137 | `D` removes exactly the selected row, keeps the others in order, and leaves the load-time count unchanged |
| ButtonHandler.SharedKeyProperties | src/button_handler.rs:115-200 | only `n`/`p` change the current track; no key changes the load-time count, the volume or the seek distance; none raises the idle counter |
| ButtonHandler.ChosenEffect | src/button_handler.rs:210-229 | `:` on the current track sends only a play/pause toggle; on any other row it makes that row current and playing, unmarks the previous one and sends one `New` |
| ButtonHandler.BrowsingHandlersAgree | src/button_handler.rs:115-300 | the two browsing handlers differ only on `:`, where playback sends a bare play/pause toggle; each reports `Escape` exactly on Esc and never `Submit` |
| ButtonHandler.BrowsingKeepsCounter | src/button_handler.rs:115-300 | no browsing key raises the idle counter |
| ButtonHandler.StepTrack | src/button_handler.rs:152-165 | `p`/`n` change the state to `TrackStepped` of the old state |
| ButtonHandler.MoveCursor | src/button_handler.rs:138-151 | `j`/`k` change the state to `CursorKey` of the old state |
| ButtonHandler.SendSeek | src/button_handler.rs:166-180 | `<`/`>` change the state to `SeekKey` of the old state |
| ButtonHandler.AdjustVolume | src/button_handler.rs:181-194 | `K`/`J` change the state to `VolumeKey` of the old state |
| ButtonHandler.HandleSharedKey | src/button_handler.rs:115-200 | the keys both handlers share change the state to `SharedKey` of the old state |
| ButtonHandler.ChooseSelected | src/button_handler.rs:210-229 | `:` in choosing mode changes the state to `Chosen` of the old state |
| ButtonHandler.HandlePlayback | src/button_handler.rs:115-200 | `handle_playback` changes the state and reports the action as `PlaybackKey` says |
| ButtonHandler.HandleChoosing | src/button_handler.rs:202-300 | `handle_choosing` changes the state and reports the action as `ChoosingKey` says |
| Controller.NoSnapshotNoChange | src/main.rs:98-179 | a pass in which no snapshot arrives changes nothing |
| Controller.GpioKeepsCounter | src/main.rs:103-131 | no GPIO key raises the idle counter |
| Controller.KeyboardKeepsCounter | src/main.rs:134-156 | no keyboard key raises the idle counter |
| Controller.KeyCounterBelowPeriod | src/main.rs:103-156 | a key keeps an idle counter below 82 below 82 |
| Controller.DebouncedBelowPeriod | src/main.rs:170-178 | the counting step keeps the counter below 82: reaching 82 restarts it |
| Controller.FinishCounterBelowPeriod | src/main.rs:159-178 | the end of a pass, auto-queue included, keeps the counter below 82 |
| Controller.CounterStaysBelowPeriod | src/main.rs:98-179 | the idle counter stays below 82 from pass to pass, however the pass ends |
| Controller.EscapeLeavesActiveMode | src/main.rs:103-156 | Esc closes search, then configuration, then (from GPIO) choosing mode, changing nothing else; in playback mode, and on the keyboard in choosing mode, it ends the loop |
| Controller.ConfigSubmitSources | src/main.rs:111-116 | a submitted ordering closes the overlay when it comes from GPIO but not from the keyboard (main.rs:142-147); the catalog is reordered the same either way |
| Controller.SearchCapturesKeys | src/main.rs:105-110 | while searching, every key goes to search: nothing is sent, the catalog and the current track stay, and only Esc closes the overlay |
| Controller.ConfigCapturesKeys | src/main.rs:111-116 | while configuring, nothing is sent, the current track and the cursor stay, and the catalog is only permuted |
| Controller.KeyboardSkipsChoosing | src/main.rs:148-153 | on the keyboard choosing mode uses the playback handler: `:` sends a bare play/pause toggle; every other key but Esc acts as it does from GPIO |
| Controller.AutoQueueEffect | src/main.rs:159-165 | when the engine reports the track finished, the next track (modulo the load-time count) becomes current and playing, the old one is unmarked, and one `New` is sent |
| Controller.DebounceEffect | src/main.rs:170-178 | a quiet pass counts one up; on the 82nd it clears adjusting and configuring, clears choosing unless the sink is empty, and restarts the count |
| Controller.DispatchSearch | src/main.rs:105-110 | search mode changes the state to `SearchMode` of the old state |
| Controller.DispatchConfig | src/main.rs:111-116 | configuration mode changes the state to `ConfigMode` of the old state |
| Controller.DispatchChoosing | src/main.rs:117-122 | choosing mode changes the state to `ChoosingMode` of the old state |
| Controller.DispatchPlayback | src/main.rs:123-128 | playback mode changes the state to `PlaybackMode` of the old state |
| Controller.DispatchGpio | src/main.rs:103-131 | a GPIO key changes the state to `GpioKey` of the old state |
| Controller.DispatchKeyboard | src/main.rs:134-156 | a keyboard key changes the state to `KeyboardKey` of the old state |
| Controller.DispatchKey | src/main.rs:103-156 | a key, if one arrived, changes the state to `MaybeKey` of the old state |
| Controller.CountPass | src/main.rs:170-178 | the idle counter step changes the state to `Debounced` of the old state |
| Controller.FinishPass | src/main.rs:159-178 | auto-queue and the idle counter change the state to `Finish` of the old state |
| Controller.RunTick | src/main.rs:98-179 | one pass of `run` changes the state to `Tick` of the old state |
| Playback.PlayPause | src/playback.rs:122-131 | play/pause flips the paused flag and nothing else |
| Playback.NewSong | src/playback.rs:103-120 | on a playing sink the new track replaces the queue and starts from 0; on a paused sink it is appended, the head is skipped and playback resumes; the volume stays |
| Playback.SeekForward | src/playback.rs:133-139 | a forward seek moves by the distance only when the target second is before the track's length, and otherwise does nothing |
| Playback.SeekBackward | src/playback.rs:141-150 | a backward seek moves back by the distance, or to 0 when the position is not past it; it never moves forward |
| Playback.VolumeControl | src/playback.rs:82-89 | the step is applied only when lowering above 0 or raising below 2.0 |
| Playback.VolumeStaysInRange | src/playback.rs:82-89 | one step of ±0.1 keeps a volume on the 0.1 grid within 0-2.0 and on the grid |
| Playback.VolumeAfterInRange | src/playback.rs:82-89 | any run of ±0.1 steps keeps the volume within 0-2.0 |
| Playback.AudioCommand | src/playback.rs:69-80 | play/pause flips pause and keeps the queue; seeks keep queue and pause; next drops the head; append queues the path; only volume commands change the volume |
| Playback.Snapshot | src/playback.rs:40-52 | the snapshot is playing exactly when the sink is non-empty and unpaused, and reports a finished track exactly when it was playing last pass and is empty now |
| Playback.FinishedNeverTwice | src/playback.rs:40-57 | two consecutive passes never both report a finished track |
| Playback.LastTrackEndReported | src/playback.rs:40-57 | a last track that plays to its end is reported finished on the pass after the sink runs empty, and not before |
| Playback.Engine.constructor | src/playback.rs:30-33 | the loop starts with a fresh sink that is not playing |
| Playback.Engine.Tick | src/playback.rs:36-57 | one pass applies the command received, if any, and reports `Snapshot`, updating the loop state as `EngineTick` says |
| Playback.Engine.Progress | src/playback.rs:58 | playback during the sleep between passes advances the position or moves to the next track |
| NumberDrawer.GlyphRows | src/view/number_drawer.rs:32-150 | every glyph starts with an empty row; digits 0-3 have 7 rows, 4-9 have 8, any other character gets the 5-row fallback |
| NumberDrawer.GlyphRowsNoNewline | src/view/number_drawer.rs:32-150 | no glyph row holds a line break |
| NumberDrawer.LineBreak | src/view/number_drawer.rs:10 | the first line break of a string, or its length when it has none |
| NumberDrawer.LinesOfTerminated | src/view/number_drawer.rs:10 | `lines()` of rows each ending in a line break gives the rows back |
| NumberDrawer.Enlarge | src/view/number_drawer.rs:32-150 | `enlarge(c).lines()` is the glyph's rows |
| NumberDrawer.DigitGlyphsDistinct | src/view/number_drawer.rs:32-140 | different digits have different glyphs |
| NumberDrawer.GlyphRowsDistinct | src/view/number_drawer.rs:32-140 | different digits have different rows |
| NumberDrawer.DistinctRowWitness | src/view/number_drawer.rs:32-140 | two different digits whose glyphs have the same height differ in one of rows 1-6 |
| NumberDrawer.NonDigitsShareFallback | src/view/number_drawer.rs:141-150 | every non-digit gets the same glyph |
| NumberDrawer.Collect | src/view/number_drawer.rs:8-16 | one glyph per character in input order, at most one per character, at least one for a non-empty input |
| NumberDrawer.CollectStops | src/view/number_drawer.rs:8-16 | collecting stops right after the first non-digit; an all-digit input is collected in full |
| NumberDrawer.DigitLines | src/view/number_drawer.rs:9-10 | the rows of the enlarged character are its glyph rows |
| NumberDrawer.CollectGlyphs | src/view/number_drawer.rs:6-16 | the collecting loop yields `Collected(number)` |
| NumberDrawer.Row | src/view/number_drawer.rs:21-26 | a row built from rows without line breaks has none |
| NumberDrawer.Rows | src/view/number_drawer.rs:20-27 | there are as many output rows as the height, and row `i` is row `i` of every glyph side by side |
| NumberDrawer.Draw | src/view/number_drawer.rs:4-30 | `draw` returns `Drawn(number)` when it does not panic |
| NumberDrawer.JoinTerminated | src/view/number_drawer.rs:27-29 | joining rows with line breaks and adding one more ends every row in a line break |
| NumberDrawer.DrawnRows | src/view/number_drawer.rs:18-29 | the output has as many rows as the first glyph, each ending in a line break, and row `i` is row `i` of every collected glyph |
| NumberDrawer.FortyNotDrawable | src/view/number_drawer.rs:18-24 | "40" panics: the second glyph is shorter than the first |
| NumberDrawer.EmptyNotDrawable | src/view/number_drawer.rs:18 | the empty string panics: there is no first glyph |
| NumberDrawer.TwoDigitsDrawable | src/view/number_drawer.rs:4-30 | two digits whose first is 0-2 draw as seven rows, the first empty |
| NumberDrawer.DecimalDigits | src/view.rs:148-149 | `to_string` of a number is a non-empty string of digits; below 100 it is the one or two decimal digits of the number |
| NumberDrawer.VolumeText | src/view.rs:148-152 | the volume text is the volume in tenths, truncated and zero-padded to two digits; a negative volume shows as "00", as the saturating `as u32` cast gives 0 |
| NumberDrawer.VolumeTextDrawable | src/view.rs:147-154 | every volume from 0 to 2.0 is shown as two digits starting with 0-2, which draw without panicking as seven rows |

## Left out

- Loading the catalog (`load_audio`) and reading the configuration file are not modelled. The loaded catalog and the configured seek distance are inputs of the constructor.
- Threads and channels are not modelled: the `recv_timeout`, the 16 ms and 33 ms waits, and the channel sends. A send that fails is ignored by the source; the model appends every command to `sent`.
- The audio library (rodio) is abstracted to a sink record with a pause flag, a queue of paths, a position and a volume. Opening or decoding a file, which panics on failure, is taken to succeed. `try_seek` is taken to succeed.
- Playback.Progress: how far a track plays during a pause between passes, and whether its end is reached, are inputs (`elapsedMillis`, `headEnded`).
- Playback.AudioCommand: `_Previous` is `todo!()` in the source and panics; the model excludes it by a precondition.
- Rendering, the terminal, the GPIO pins and event polling are not modelled; the key that arrived from each source, if any, is an input of a pass.
- The shuffle's random numbers are an input, so nothing is said about their distribution.
- Sorting.Lower: `to_lowercase` is modelled for ASCII letters only; other characters are left unchanged.
- Volume is integer hundredths, not `f32`. The source's rounding to two decimals is the identity on this grid. `(volume * 10.0) as u32` in the view becomes a division by 10.
- `usize` overflow is not modelled (for example `iteration_count += 1`, or `index + 1` on a huge catalog). Underflow of `number_of_tracks - 1` and `index + number_of_tracks - 1` is modelled as a panic, as in a debug build.
- At a panic the source has already changed part of the state. The model reports `Panic` with the state as it was before the key.
- The `_sink_state`, `tx`/`sink_rx`, `table_state` column and `_is_paused` fields are not modelled. The table and list selections are modelled as plain row numbers, always present once `main` has selected the first row.
- `matched_tracks` holds clones of the matching tracks; the model holds the same values.
- Catalog.FixtureLowercaseHello: the source's test expects "hello" to find one track (src/fuzzy_search/test.rs:41). The code at src/fuzzy_search.rs:13 is case-sensitive and finds none; the model follows the code.
- The controller's `volume` is never updated after start-up, so `K` keeps sending steps while the sink is already at 2.0. The model keeps this behaviour.
- `D` removes a row but leaves `number_of_tracks` at its load-time value. The model keeps this behaviour, so cursor moves and `n`/`p` use the stale count.
