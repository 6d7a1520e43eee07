/**
 * One pass of the controller loop of src/main.rs (`run`): after a snapshot
 * from the playback engine arrives, a GPIO key and then a keyboard key are
 * dispatched to the handler of the active mode, the next track is queued when
 * the engine reports the current one finished, and the idle counter closes
 * the overlays every 82 passes.
 *
 * The pass is a method on the shared `PlayerState`, proved against the
 * function `Tick`. Rendering, the terminal and the key sources are outside the
 * model: the keys that arrived (if any) and the engine's snapshot are inputs.
 */
module Controller {
  import opened Wrappers
  import opened Catalog
  import opened Protocol
  import opened State
  import opened Utility
  import opened Playback
  import opened ButtonHandler

  /** How a pass ends: the loop goes on, the loop is left on Escape, or a handler panics. */
  datatype Outcome = Continue | Exit | Panic

  /** The idle counter's period, in passes. */
  const DEBOUNCE_PERIOD: nat := 82

  /** Search mode: the search handler, and Escape closes the overlay. */
  function SearchMode(v: PlayerView, key: KeyCode): PlayerView
  {
    var (r, a) := SearchKey(v, key);
    if a == Escape then r.(isSearching := false) else r
  }

  /** Configuration mode: the configuration handler; Escape closes the overlay, and so does `Submit` when `closeOnSubmit`. */
  function ConfigMode(v: PlayerView, key: KeyCode, draws: nat -> u64, closeOnSubmit: bool): PlayerView
  {
    var (r, a) := ConfigKey(v, key, draws);
    if a == Escape || (closeOnSubmit && a == Submit) then r.(isConfiguring := false) else r
  }

  /** Choosing mode: the choosing handler, and Escape leaves the mode; a key it would panic on ends the pass. */
  function ChoosingMode(v: PlayerView, key: KeyCode): (PlayerView, Outcome)
  {
    if !ChoosingKeySafe(v, key) then (v, Panic)
    else
      var (r, a) := ChoosingKey(v, key);
      (if a == Escape then r.(isChoosing := false) else r, Continue)
  }

  /** Playback mode: the playback handler, and Escape leaves the loop; a key it would panic on ends the pass. */
  function PlaybackMode(v: PlayerView, key: KeyCode): (PlayerView, Outcome)
  {
    if !PlaybackKeySafe(v, key) then (v, Panic)
    else
      var (r, a) := PlaybackKey(v, key);
      (r, if a == Escape then Exit else Continue)
  }

  /** A key from the GPIO buttons: searching, then configuring, then choosing, then playback. */
  function GpioKey(v: PlayerView, key: KeyCode, draws: nat -> u64): (PlayerView, Outcome)
  {
    if v.isSearching then (SearchMode(v, key), Continue)
    else if v.isConfiguring then (ConfigMode(v, key, draws, true), Continue)
    else if v.isChoosing then ChoosingMode(v, key)
    else PlaybackMode(v, key)
  }

  /**
   * A key from the keyboard: searching, then configuring, then playback. There
   * is no choosing branch, and a configuration `Submit` leaves the mode on.
   */
  function KeyboardKey(v: PlayerView, key: KeyCode, draws: nat -> u64): (PlayerView, Outcome)
  {
    if v.isSearching then (SearchMode(v, key), Continue)
    else if v.isConfiguring then (ConfigMode(v, key, draws, false), Continue)
    else PlaybackMode(v, key)
  }

  /** A key that may or may not have arrived. */
  function MaybeKey(v: PlayerView, key: Option<KeyCode>, gpio: bool, draws: nat -> u64): (PlayerView, Outcome)
  {
    match key
    case None => (v, Continue)
    case Some(k) => if gpio then GpioKey(v, k, draws) else KeyboardKey(v, k, draws)
  }

  /** The idle counter: counted up each pass; every 82nd pass closes the overlays and restarts it. */
  function Debounced(v: PlayerView, sinkEmpty: bool): PlayerView
  {
    var count := v.iterationCount + 1;
    if count % DEBOUNCE_PERIOD == 0 then
      v.(isAdjusting := false, isChoosing := if !sinkEmpty then false else v.isChoosing,
         isConfiguring := false, iterationCount := 0)
    else v.(iterationCount := count)
  }

  /** The end of a pass that no key ended: auto-queue on a finished track, then the idle counter. */
  function Finish(v: PlayerView, sink: SinkState): (PlayerView, Outcome)
  {
    if !sink.currentTrackFinished then (Debounced(v, sink.isEmpty), Continue)
    else if !StepSafe(v, true) then (v, Panic)
    else (Debounced(TrackStepped(v, true), sink.isEmpty), Continue)
  }

  /** One pass of the loop, given the snapshot received (if any), the keys and the shuffle draws of each source. */
  function Tick(v: PlayerView, snapshot: Option<SinkState>, gpio: Option<KeyCode>, keyboard: Option<KeyCode>,
                gpioDraws: nat -> u64, keyboardDraws: nat -> u64): (PlayerView, Outcome)
  {
    match snapshot
    case None => (v, Continue)
    case Some(sink) =>
      var (v1, o1) := MaybeKey(v, gpio, true, gpioDraws);
      if o1 != Continue then (v1, o1)
      else
        var (v2, o2) := MaybeKey(v1, keyboard, false, keyboardDraws);
        if o2 != Continue then (v2, o2) else Finish(v2, sink)
  }

  /** A pass with no snapshot from the engine changes nothing. */
  lemma NoSnapshotNoChange(v: PlayerView, gpio: Option<KeyCode>, keyboard: Option<KeyCode>,
                           gpioDraws: nat -> u64, keyboardDraws: nat -> u64)
    ensures Tick(v, None, gpio, keyboard, gpioDraws, keyboardDraws) == (v, Continue)
  {
  }

  /** No GPIO key raises the idle counter: each keeps it or resets it to 0. */
  lemma GpioKeepsCounter(v: PlayerView, key: KeyCode, draws: nat -> u64)
    ensures var r := GpioKey(v, key, draws).0;
            r.iterationCount == v.iterationCount || r.iterationCount == 0
  {
    if v.isSearching {
    } else if v.isConfiguring {
      ConfigKeyCatalog(v, key, draws);
    } else {
      BrowsingKeepsCounter(v, key);
    }
  }

  /** No keyboard key raises the idle counter either. */
  lemma KeyboardKeepsCounter(v: PlayerView, key: KeyCode, draws: nat -> u64)
    ensures var r := KeyboardKey(v, key, draws).0;
            r.iterationCount == v.iterationCount || r.iterationCount == 0
  {
    if v.isSearching {
    } else if v.isConfiguring {
      ConfigKeyCatalog(v, key, draws);
    } else {
      BrowsingKeepsCounter(v, key);
    }
  }

  /** A key, if one arrived, leaves a counter below 82 below 82. */
  lemma KeyCounterBelowPeriod(v: PlayerView, key: Option<KeyCode>, gpio: bool, draws: nat -> u64)
    requires v.iterationCount < DEBOUNCE_PERIOD
    ensures MaybeKey(v, key, gpio, draws).0.iterationCount < DEBOUNCE_PERIOD
  {
    if key.Some? {
      if gpio {
        GpioKeepsCounter(v, key.value, draws);
      } else {
        KeyboardKeepsCounter(v, key.value, draws);
      }
    }
  }

  /** The idle counter step keeps a counter below 82 below 82: a count that reaches 82 is restarted. */
  lemma DebouncedBelowPeriod(v: PlayerView, sinkEmpty: bool)
    requires v.iterationCount < DEBOUNCE_PERIOD
    ensures Debounced(v, sinkEmpty).iterationCount < DEBOUNCE_PERIOD
  {
    var count := v.iterationCount + 1;
    if count % DEBOUNCE_PERIOD != 0 {
      assert count != DEBOUNCE_PERIOD;
    }
  }

  /** So does the end of a pass, auto-queue included. */
  lemma FinishCounterBelowPeriod(v: PlayerView, sink: SinkState)
    requires v.iterationCount < DEBOUNCE_PERIOD
    ensures Finish(v, sink).0.iterationCount < DEBOUNCE_PERIOD
  {
    if !sink.currentTrackFinished {
      DebouncedBelowPeriod(v, sink.isEmpty);
    } else if StepSafe(v, true) {
      TrackSteppedEffect(v, true);
      DebouncedBelowPeriod(TrackStepped(v, true), sink.isEmpty);
    }
  }

  /** The idle counter stays below 82 from one pass to the next, however the pass ends. */
  lemma CounterStaysBelowPeriod(v: PlayerView, snapshot: Option<SinkState>, gpio: Option<KeyCode>,
                                keyboard: Option<KeyCode>, gpioDraws: nat -> u64, keyboardDraws: nat -> u64)
    requires v.iterationCount < DEBOUNCE_PERIOD
    ensures Tick(v, snapshot, gpio, keyboard, gpioDraws, keyboardDraws).0.iterationCount < DEBOUNCE_PERIOD
  {
    if snapshot.Some? {
      KeyCounterBelowPeriod(v, gpio, true, gpioDraws);
      var (v1, o1) := MaybeKey(v, gpio, true, gpioDraws);
      KeyCounterBelowPeriod(v1, keyboard, false, keyboardDraws);
      var (v2, o2) := MaybeKey(v1, keyboard, false, keyboardDraws);
      FinishCounterBelowPeriod(v2, snapshot.value);
    }
  }

  /**
   * Escape leaves the active overlay and changes nothing else; from playback
   * it ends the loop. On the keyboard, choosing mode counts as playback, so
   * Escape there ends the loop too.
   */
  lemma EscapeLeavesActiveMode(v: PlayerView, draws: nat -> u64)
    ensures v.isSearching ==> GpioKey(v, Esc, draws) == (v.(isSearching := false), Continue)
                              && KeyboardKey(v, Esc, draws) == (v.(isSearching := false), Continue)
    ensures !v.isSearching && v.isConfiguring ==>
              GpioKey(v, Esc, draws) == (v.(isConfiguring := false), Continue)
              && KeyboardKey(v, Esc, draws) == (v.(isConfiguring := false), Continue)
    ensures !v.isSearching && !v.isConfiguring && v.isChoosing ==>
              GpioKey(v, Esc, draws) == (v.(isChoosing := false), Continue)
    ensures !v.isSearching && !v.isConfiguring ==> KeyboardKey(v, Esc, draws) == (v, Exit)
    ensures !v.isSearching && !v.isConfiguring && !v.isChoosing ==> GpioKey(v, Esc, draws) == (v, Exit)
  {
  }

  /**
   * Applying the selected ordering closes the configuration overlay when the
   * key came from the GPIO buttons but leaves it open when it came from the
   * keyboard; either way the catalog is reordered the same.
   */
  lemma ConfigSubmitSources(v: PlayerView, key: KeyCode, draws: nat -> u64)
    requires !v.isSearching && v.isConfiguring
    requires key == Enter || key == Char(' ')
    ensures !GpioKey(v, key, draws).0.isConfiguring
    ensures KeyboardKey(v, key, draws).0.isConfiguring
    ensures GpioKey(v, key, draws).0 == KeyboardKey(v, key, draws).0.(isConfiguring := false)
    ensures GpioKey(v, key, draws).1 == Continue && KeyboardKey(v, key, draws).1 == Continue
  {
  }

  /**
   * While the search overlay is open every key goes to the search handler:
   * no command is sent, the catalog and the current track stay, and the loop
   * goes on; only Escape closes the overlay.
   */
  lemma SearchCapturesKeys(v: PlayerView, key: KeyCode, gpio: bool, draws: nat -> u64)
    requires v.isSearching
    ensures var (r, o) := MaybeKey(v, Some(key), gpio, draws);
            && o == Continue
            && r.sent == v.sent && r.tracks == v.tracks && r.currentTrackIndex == v.currentTrackIndex
            && (r.isSearching <==> key != Esc)
  {
  }

  /**
   * While the configuration overlay is open (and search is not), keys go to
   * the configuration handler: no command is sent and the current track and
   * table cursor stay; the catalog only gets permuted.
   */
  lemma ConfigCapturesKeys(v: PlayerView, key: KeyCode, gpio: bool, draws: nat -> u64)
    requires !v.isSearching && v.isConfiguring
    ensures var (r, o) := MaybeKey(v, Some(key), gpio, draws);
            && o == Continue
            && r.sent == v.sent && r.currentTrackIndex == v.currentTrackIndex
            && r.tableSelected == v.tableSelected
            && multiset(r.tracks) == multiset(v.tracks)
  {
    ConfigKeyCatalog(v, key, draws);
  }

  /**
   * In choosing mode the keyboard reaches the playback handler, not the
   * choosing one: `:` sends a bare play/pause toggle instead of starting the
   * selected row; every other key but Escape has the effect it has from the
   * GPIO buttons.
   */
  lemma KeyboardSkipsChoosing(v: PlayerView, key: KeyCode, draws: nat -> u64)
    requires !v.isSearching && !v.isConfiguring && v.isChoosing
    requires ChoosingKeySafe(v, key)
    ensures key != Esc && key != Char(':') ==> KeyboardKey(v, key, draws) == GpioKey(v, key, draws)
    ensures KeyboardKey(v, Char(':'), draws) == (v.(sent := v.sent + [PlayPause("")]), Continue)
  {
    BrowsingHandlersAgree(v, key);
  }

  /**
   * A pass without keys where the engine reports the track finished moves on
   * to the next track modulo the load-time count, unmarks the finished one and
   * sends one `New`; with no current track it only counts.
   */
  lemma AutoQueueEffect(v: PlayerView, sink: SinkState, draws: nat -> u64)
    requires sink.currentTrackFinished && StepSafe(v, true)
    ensures var (r, o) := Tick(v, Some(sink), None, None, draws, draws);
            && o == Continue
            && (v.currentTrackIndex == None ==> r == Debounced(v, sink.isEmpty))
            && (v.currentTrackIndex.Some? ==>
                  var k := v.currentTrackIndex.value;
                  var j := Stepped(k, v.numberOfTracks, true);
                  && r.currentTrackIndex == Some(j)
                  && r.tracks[j].isPlaying
                  && (j != k ==> !r.tracks[k].isPlaying)
                  && r.sent == v.sent + [New(v.tracks[j].path)])
  {
    TrackSteppedEffect(v, true);
  }

  /**
   * A quiet pass (no keys, nothing finished) counts one up; on the 82nd it
   * clears the adjusting and configuring flags, clears choosing only when the
   * sink is not empty, and restarts the count; nothing else changes.
   */
  lemma DebounceEffect(v: PlayerView, sink: SinkState, draws: nat -> u64)
    requires !sink.currentTrackFinished
    ensures var (r, o) := Tick(v, Some(sink), None, None, draws, draws);
            && o == Continue
            && ((v.iterationCount + 1) % DEBOUNCE_PERIOD != 0 ==> r == v.(iterationCount := v.iterationCount + 1))
            && ((v.iterationCount + 1) % DEBOUNCE_PERIOD == 0 ==>
                  && !r.isAdjusting && !r.isConfiguring && r.iterationCount == 0
                  && r.isChoosing == (v.isChoosing && sink.isEmpty)
                  && r.(isAdjusting := v.isAdjusting, isConfiguring := v.isConfiguring,
                        isChoosing := v.isChoosing, iterationCount := v.iterationCount) == v)
  {
  }

  /** Search mode. */
  method DispatchSearch(key: KeyCode, state: PlayerState)
    modifies state
    ensures state.View() == SearchMode(old(state.View()), key)
  {
    var action := HandleSearch(key, state);
    if action == Escape {
      state.isSearching := false;
    }
  }

  /** Configuration mode. */
  method DispatchConfig(key: KeyCode, state: PlayerState, draws: nat -> u64, closeOnSubmit: bool)
    modifies state
    ensures state.View() == ConfigMode(old(state.View()), key, draws, closeOnSubmit)
  {
    var action := HandleConfig(key, state, draws);
    if action == Escape || (closeOnSubmit && action == Submit) {
      state.isConfiguring := false;
    }
  }

  /** Choosing mode. */
  method DispatchChoosing(key: KeyCode, state: PlayerState) returns (outcome: Outcome)
    modifies state
    ensures (state.View(), outcome) == ChoosingMode(old(state.View()), key)
  {
    if !ChoosingKeySafe(state.View(), key) {
      return Panic;
    }
    outcome := Continue;
    var action := HandleChoosing(key, state);
    if action == Escape {
      state.isChoosing := false;
    }
  }

  /** Playback mode. */
  method DispatchPlayback(key: KeyCode, state: PlayerState) returns (outcome: Outcome)
    modifies state
    ensures (state.View(), outcome) == PlaybackMode(old(state.View()), key)
  {
    if !PlaybackKeySafe(state.View(), key) {
      return Panic;
    }
    outcome := Continue;
    var action := HandlePlayback(key, state);
    if action == Escape {
      outcome := Exit;
    }
  }

  /** Dispatches a GPIO key to the handler of the active mode. */
  method DispatchGpio(key: KeyCode, state: PlayerState, draws: nat -> u64) returns (outcome: Outcome)
    modifies state
    ensures (state.View(), outcome) == GpioKey(old(state.View()), key, draws)
  {
    outcome := Continue;
    if state.isSearching {
      DispatchSearch(key, state);
    } else if state.isConfiguring {
      DispatchConfig(key, state, draws, true);
    } else if state.isChoosing {
      outcome := DispatchChoosing(key, state);
    } else {
      outcome := DispatchPlayback(key, state);
    }
  }

  /** Dispatches a keyboard key to the handler of the active mode. */
  method DispatchKeyboard(key: KeyCode, state: PlayerState, draws: nat -> u64) returns (outcome: Outcome)
    modifies state
    ensures (state.View(), outcome) == KeyboardKey(old(state.View()), key, draws)
  {
    outcome := Continue;
    if state.isSearching {
      DispatchSearch(key, state);
    } else if state.isConfiguring {
      DispatchConfig(key, state, draws, false);
    } else {
      outcome := DispatchPlayback(key, state);
    }
  }

  /** Dispatches the key of one source, if one arrived. */
  method DispatchKey(key: Option<KeyCode>, state: PlayerState, gpio: bool, draws: nat -> u64) returns (outcome: Outcome)
    modifies state
    ensures (state.View(), outcome) == MaybeKey(old(state.View()), key, gpio, draws)
  {
    outcome := Continue;
    match key {
      case None =>
      case Some(k) =>
        if gpio {
          outcome := DispatchGpio(k, state, draws);
        } else {
          outcome := DispatchKeyboard(k, state, draws);
        }
    }
  }

  /** The idle counter, at the end of a pass. */
  method CountPass(state: PlayerState, sinkEmpty: bool)
    modifies state
    ensures state.View() == Debounced(old(state.View()), sinkEmpty)
  {
    state.iterationCount := state.iterationCount + 1;
    if state.iterationCount % DEBOUNCE_PERIOD == 0 {
      state.isAdjusting := false;
      if !sinkEmpty {
        state.isChoosing := false;
      }
      state.isConfiguring := false;
      state.iterationCount := 0;
    }
  }

  /** Auto-queue and the idle counter, at the end of a pass. */
  method FinishPass(state: PlayerState, sink: SinkState) returns (outcome: Outcome)
    modifies state
    ensures (state.View(), outcome) == Finish(old(state.View()), sink)
  {
    outcome := Continue;
    if sink.currentTrackFinished {
      if !StepSafe(state.View(), true) {
        return Panic;
      }
      StepTrack(state, true);
    }
    CountPass(state, sink.isEmpty);
  }

  /** One pass of the `run` loop. */
  method RunTick(state: PlayerState, snapshot: Option<SinkState>, gpio: Option<KeyCode>, keyboard: Option<KeyCode>,
                 gpioDraws: nat -> u64, keyboardDraws: nat -> u64) returns (outcome: Outcome)
    modifies state
    ensures (state.View(), outcome) == Tick(old(state.View()), snapshot, gpio, keyboard, gpioDraws, keyboardDraws)
  {
    outcome := Continue;
    if snapshot.None? {
      return;
    }
    outcome := DispatchKey(gpio, state, true, gpioDraws);
    if outcome != Continue {
      return;
    }
    outcome := DispatchKey(keyboard, state, false, keyboardDraws);
    if outcome != Continue {
      return;
    }
    outcome := FinishPass(state, snapshot.value);
  }
}
