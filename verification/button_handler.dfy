/**
 * The four key handlers of src/button_handler.rs. Each handler is a method on
 * the shared `PlayerState`, proved against a function that gives the state and
 * the `Action` it produces from the state before the key; the properties the
 * handlers promise are lemmas about those functions.
 *
 * Keys whose handling would panic in the source (an index out of range, a
 * remainder by zero, `number_of_tracks - 1` below zero) are excluded by the
 * `...Safe` predicates, which the controller checks before it calls a handler.
 */
module ButtonHandler {
  import opened Wrappers
  import opened Catalog
  import opened Orders
  import opened Protocol
  import opened State
  import opened Utility

  /* ---------------- the ordering list (configuration mode) ---------------- */

  /**
   * The order chosen by the ordering list's row `index`: the rows list the
   * orders in their cycle order starting from `Shuffle`, and an index past the
   * last row falls back to `Shuffle`.
   */
  function ListOrder(index: nat): (o: Order)
    ensures index < 4 ==> o == Advance(Shuffle, index)
    ensures index >= 4 ==> o == Shuffle
  {
    match index
    case 0 => Shuffle
    case 1 => Album
    case 2 => Artist
    case 3 => Track
    case _ => Shuffle
  }

  /** The state after the selected row's order has been applied to the catalog. */
  function ListSelectionApplied(v: PlayerView, draws: nat -> u64): PlayerView
  {
    var chosen := ListOrder(v.listSelected);
    v.(tracks := Reordered(chosen, v.playbackOrder, v.tracks, draws), playbackOrder := chosen)
  }

  /**
   * Applying the selected row's order only permutes the catalog, keeps it as
   * it was when the order stays the same, and changes nothing but the catalog
   * and the recorded order.
   */
  lemma ListSelectionPermutes(v: PlayerView, draws: nat -> u64)
    ensures var r := ListSelectionApplied(v, draws);
            && multiset(r.tracks) == multiset(v.tracks)
            && (r.playbackOrder == v.playbackOrder ==> r.tracks == v.tracks)
            && r.(tracks := v.tracks, playbackOrder := v.playbackOrder) == v
  {
    ReorderedProperties(ListOrder(v.listSelected), v.playbackOrder, v.tracks, draws);
  }

  /** `ratatui`'s `select_previous` on a selection that is present: one row up, stopping at row 0. */
  function SelectPrevious(selected: nat): nat
  {
    if selected == 0 then 0 else selected - 1
  }

  /** `handle_config`: the new state and the action reported. */
  function ConfigKey(v: PlayerView, key: KeyCode, draws: nat -> u64): (PlayerView, Action)
  {
    match key
    case Tab => (v.(isConfiguring := !v.isConfiguring), NoAction)
    case Char(c) =>
      if c == 'j' then
        (v.(iterationCount := 0,
            listSelected := if v.listSelected < 3 then v.listSelected + 1 else v.listSelected), NoAction)
      else if c == 'k' then (v.(iterationCount := 0, listSelected := SelectPrevious(v.listSelected)), NoAction)
      else if c == ' ' then (ListSelectionApplied(v, draws), Submit)
      else (v, NoAction)
    case Esc => (v, Escape)
    case Enter => (ListSelectionApplied(v, draws), Submit)
    case _ => (v, NoAction)
  }

  /**
   * Configuration mode: the list cursor never leaves rows 0-3; `j`/`k` reset
   * the idle counter; space and Enter, and only they, apply the selected row's
   * order, record it as the playback order and report `Submit`; Esc, and only
   * Esc, reports `Escape`, and it changes nothing.
   */
  lemma ConfigKeyProperties(v: PlayerView, key: KeyCode, draws: nat -> u64)
    ensures var (r, a) := ConfigKey(v, key, draws);
            && (v.listSelected <= 3 ==> r.listSelected <= 3)
            && (key == Char('j') || key == Char('k') ==> r.iterationCount == 0 && a == NoAction)
            && (key == Char(' ') || key == Enter <==> a == Submit)
            && (a == Submit ==> r.playbackOrder == ListOrder(v.listSelected))
            && (a != Submit ==> r.tracks == v.tracks && r.playbackOrder == v.playbackOrder)
            && (key == Esc <==> a == Escape)
            && (key == Esc ==> r == v)
  {
  }

  /**
   * No configuration key does more to the catalog than permute it, and it
   * keeps the catalog as it was when the order stays the same; no key touches
   * any field besides the catalog, the order, the configuring flag, the counter
   * and the list cursor, so none sends a command.
   */
  lemma ConfigKeyCatalog(v: PlayerView, key: KeyCode, draws: nat -> u64)
    ensures var (r, a) := ConfigKey(v, key, draws);
            && multiset(r.tracks) == multiset(v.tracks)
            && (r.playbackOrder == v.playbackOrder ==> r.tracks == v.tracks)
            && r.(tracks := v.tracks, playbackOrder := v.playbackOrder, isConfiguring := v.isConfiguring,
                  iterationCount := v.iterationCount, listSelected := v.listSelected) == v
  {
    match key
    case Char(c) =>
      if c == 'j' {
      } else if c == 'k' {
      } else if c == ' ' {
        ListSelectionPermutes(v, draws);
      }
    case Enter =>
      ListSelectionPermutes(v, draws);
    case _ =>
  }

  /** Applies the selected row's order to the catalog, which lives in a fresh array while it is reordered. */
  method ApplyListSelection(state: PlayerState, draws: nat -> u64)
    modifies state
    ensures state.View() == ListSelectionApplied(old(state.View()), draws)
  {
    var chosen := ListOrder(state.listSelected);
    var current := state.tracks;
    var buffer := new Audio[|current|](i requires 0 <= i < |current| => current[i]);
    assert buffer[..] == current;
    OrderBy(chosen, state.playbackOrder, buffer, draws);
    state.tracks := buffer[..];
    state.playbackOrder := chosen;
  }

  /** `handle_config`. */
  method HandleConfig(key: KeyCode, state: PlayerState, draws: nat -> u64) returns (action: Action)
    modifies state
    ensures (state.View(), action) == ConfigKey(old(state.View()), key, draws)
  {
    action := NoAction;
    match key {
      case Tab => state.isConfiguring := !state.isConfiguring;
      case Char(c) =>
        if c == 'j' {
          state.iterationCount := 0;
          if state.listSelected < 3 {
            state.listSelected := state.listSelected + 1;
          }
        } else if c == 'k' {
          state.iterationCount := 0;
          state.listSelected := SelectPrevious(state.listSelected);
        } else if c == ' ' {
          ApplyListSelection(state, draws);
          action := Submit;
        }
      case Esc => action := Escape;
      case Enter =>
        ApplyListSelection(state, draws);
        action := Submit;
      case _ =>
    }
  }

  /* ---------------- search mode ---------------- */

  /** `String::pop`, whose result is discarded: the last character goes, an empty keyword stays empty. */
  function DropLast(s: string): (r: string)
    ensures s == [] ==> r == []
    ensures s != [] ==> r + [s[|s| - 1]] == s
  {
    if s == [] then [] else s[..|s| - 1]
  }

  /** `handle_search`: the new state and the action reported. */
  function SearchKey(v: PlayerView, key: KeyCode): (PlayerView, Action)
  {
    match key
    case Char(c) => (v.(keyword := v.keyword + [c], matchedTracks := Matching(v.tracks, v.keyword + [c])), NoAction)
    case Backspace => (v.(keyword := DropLast(v.keyword), matchedTracks := Matching(v.tracks, DropLast(v.keyword))), NoAction)
    case Esc => (v, Escape)
    case Enter => (v, Submit)
    case _ => (v, NoAction)
  }

  /**
   * Search mode: a character extends the keyword and Backspace shortens it by
   * one (an empty keyword stays empty); after either, the match list holds
   * exactly the catalog tracks whose name or author contains the keyword, in
   * catalog order; only the keyword and the match list ever change.
   */
  lemma SearchKeyProperties(v: PlayerView, key: KeyCode, t: Audio)
    ensures var (r, a) := SearchKey(v, key);
            && (key.Char? ==> r.keyword == v.keyword + [key.c])
            && (key == Backspace && v.keyword != [] ==> r.keyword + [v.keyword[|v.keyword| - 1]] == v.keyword)
            && (key == Backspace && v.keyword == [] ==> r.keyword == [])
            && (key.Char? || key == Backspace ==> (t in r.matchedTracks <==> t in v.tracks && IsMatch(t, r.keyword)))
            && (key == Esc <==> a == Escape)
            && (key == Enter <==> a == Submit)
            && r.(keyword := v.keyword, matchedTracks := v.matchedTracks) == v
  {
    var (r, a) := SearchKey(v, key);
    if key.Char? || key == Backspace {
      MatchingMembership(v.tracks, r.keyword, t);
    }
  }

  /** `handle_search`. */
  method HandleSearch(key: KeyCode, state: PlayerState) returns (action: Action)
    modifies state
    ensures (state.View(), action) == SearchKey(old(state.View()), key)
  {
    action := NoAction;
    match key {
      case Char(c) =>
        state.keyword := state.keyword + [c];
        state.matchedTracks := Search(state.tracks, state.keyword);
      case Backspace =>
        state.keyword := DropLast(state.keyword);
        state.matchedTracks := Search(state.tracks, state.keyword);
      case Esc => action := Escape;
      case Enter => action := Submit;
      case _ =>
    }
  }

  /* ---------------- browsing and playback keys ---------------- */

  /** `Vec::remove(i)`. */
  function Remove(s: seq<Audio>, i: nat): (r: seq<Audio>)
    requires i < |s|
    ensures |r| == |s| - 1
    ensures forall m :: 0 <= m < i ==> r[m] == s[m]
    ensures forall m :: i <= m < |r| ==> r[m] == s[m + 1]
  {
    s[..i] + s[i + 1..]
  }

  /** The index `p` (backward) or `n` (forward) moves the current track to, modulo the load-time track count. */
  function Stepped(index: nat, count: nat, forward: bool): (r: nat)
    requires count > 0
    ensures r < count
  {
    if forward then (index + 1) % count else (index + count - 1) % count
  }

  lemma ModBelow(a: nat, n: nat)
    requires a < n
    ensures a % n == a
  {
  }

  lemma ModShift(a: nat, n: nat)
    requires a < n
    ensures (a + n) % n == a
  {
    var q, m := (a + n) / n, (a + n) % n;
    assert q * n + m == a + n;
    assert q == 1;
  }

  /**
   * From an index below the count, `n` moves to the next index and wraps from
   * the last to the first, and `p` moves to the previous one and wraps from the
   * first to the last.
   */
  lemma SteppedNeighbour(index: nat, count: nat, forward: bool)
    requires index < count
    ensures forward ==> Stepped(index, count, forward) == if index == count - 1 then 0 else index + 1
    ensures !forward ==> Stepped(index, count, forward) == if index == 0 then count - 1 else index - 1
  {
    if forward {
      if index == count - 1 { ModShift(0, count); } else { ModBelow(index + 1, count); }
    } else {
      if index == 0 { ModBelow(count - 1, count); } else { ModShift(index - 1, count); }
    }
  }

  /** `p`/`n` do not panic: with a current track, its index, the count and the next index are all usable. */
  predicate StepSafe(v: PlayerView, forward: bool)
  {
    v.currentTrackIndex.Some? ==>
      var k := v.currentTrackIndex.value;
      && k < |v.tracks|
      && v.numberOfTracks > 0
      && Stepped(k, v.numberOfTracks, forward) < |v.tracks|
  }

  /** `p`/`n`: the current track stops being marked, and the next (or previous) one is started. */
  function TrackStepped(v: PlayerView, forward: bool): PlayerView
    requires StepSafe(v, forward)
  {
    match v.currentTrackIndex
    case None => v
    case Some(k) =>
      PlayNew(v.(tracks := v.tracks[k := v.tracks[k].(isPlaying := false)]), Stepped(k, v.numberOfTracks, forward))
  }

  /**
   * Stepping with a current track `k` moves to `(k + 1) mod n` (or
   * `(k - 1) mod n`) for the load-time count `n`, marks the new current track
   * playing and unmarks the old one (unless both are the same), leaves the other
   * tracks alone and sends one `New` with the new track's path; without a
   * current track nothing happens.
   */
  lemma TrackSteppedEffect(v: PlayerView, forward: bool)
    requires StepSafe(v, forward)
    ensures v.currentTrackIndex == None ==> TrackStepped(v, forward) == v
    ensures v.currentTrackIndex.Some? ==>
              var k := v.currentTrackIndex.value;
              var j := Stepped(k, v.numberOfTracks, forward);
              var r := TrackStepped(v, forward);
              && r.currentTrackIndex == Some(j)
              && |r.tracks| == |v.tracks|
              && r.tracks[j] == v.tracks[j].(isPlaying := true)
              && (j != k ==> r.tracks[k] == v.tracks[k].(isPlaying := false))
              && (forall m :: 0 <= m < |v.tracks| && m != j && m != k ==> r.tracks[m] == v.tracks[m])
              && r.sent == v.sent + [New(v.tracks[j].path)]
              && r.(currentTrackIndex := v.currentTrackIndex, tracks := v.tracks, sent := v.sent) == v
  {
    if v.currentTrackIndex.Some? {
      var k := v.currentTrackIndex.value;
      PlayNewEffect(v.(tracks := v.tracks[k := v.tracks[k].(isPlaying := false)]), Stepped(k, v.numberOfTracks, forward));
    }
  }

  /** The keys of the playback handler and the choosing handler that behave the same in both do not panic. */
  predicate SharedKeySafe(v: PlayerView, key: KeyCode)
  {
    && (key == Char('D') ==> v.tableSelected < |v.tracks|)
    && (key == Char('j') ==> v.numberOfTracks >= 1)
    && (key == Char('n') ==> StepSafe(v, true))
    && (key == Char('p') ==> StepSafe(v, false))
    && (key == Char('>') && v.currentTrackIndex.Some? ==> v.currentTrackIndex.value < |v.tracks|)
  }

  /** `j`/`k`: enter choosing mode, reset the idle counter and move the table cursor down or up. */
  function CursorKey(v: PlayerView, down: bool): PlayerView
    requires down ==> v.numberOfTracks >= 1
  {
    if down then
      v.(isChoosing := true, iterationCount := 0,
         tableSelected := if v.tableSelected < v.numberOfTracks - 1 then v.tableSelected + 1 else v.tableSelected)
    else v.(isChoosing := true, iterationCount := 0, tableSelected := SelectPrevious(v.tableSelected))
  }

  /** `<`/`>`: send a backward seek, or a forward seek bounded by the current track's length when there is one. */
  function SeekKey(v: PlayerView, forward: bool): PlayerView
    requires forward && v.currentTrackIndex.Some? ==> v.currentTrackIndex.value < |v.tracks|
  {
    if !forward then v.(sent := v.sent + [Backward(v.seekDistance)])
    else
      match v.currentTrackIndex
      case None => v
      case Some(k) => v.(sent := v.sent + [Forward(v.seekDistance, v.tracks[k].length)])
  }

  /** `K`/`J`: enter adjusting mode, reset the idle counter and ask for one volume step up or down within 0-200. */
  function VolumeKey(v: PlayerView, up: bool): PlayerView
  {
    if up then
      v.(isAdjusting := true, iterationCount := 0, sent := if v.volume < 200 then v.sent + [Volume(VOLUME_STEP)] else v.sent)
    else
      v.(isAdjusting := true, iterationCount := 0, sent := if v.volume > 0 then v.sent + [Volume(-VOLUME_STEP)] else v.sent)
  }

  /** Every key both handlers treat alike (all keys but `:`, and Esc, which only reports `Escape`). */
  function SharedKey(v: PlayerView, key: KeyCode): PlayerView
    requires SharedKeySafe(v, key)
  {
    match key
    case Tab => v.(isConfiguring := !v.isConfiguring)
    case Char(c) =>
      if c == ' ' then v.(isConfiguring := true)
      else if c == '/' then v.(isSearching := true)
      else if c == 'D' then v.(tracks := Remove(v.tracks, v.tableSelected))
      else if c == 'j' || c == 'k' then CursorKey(v, c == 'j')
      else if c == 'p' || c == 'n' then TrackStepped(v, c == 'n')
      else if c == '<' || c == '>' then SeekKey(v, c == '>')
      else if c == 'K' || c == 'J' then VolumeKey(v, c == 'K')
      else v
    case _ => v
  }

  /**
   * `j` and `k` enter choosing mode and reset the idle counter; `j` moves the
   * table cursor one row down but never past the last loaded row, `k` one row
   * up but never below row 0; nothing else changes.
   */
  lemma CursorKeyProperties(v: PlayerView, down: bool)
    requires down ==> v.numberOfTracks >= 1
    ensures var r := CursorKey(v, down);
            && r.isChoosing && r.iterationCount == 0
            && (down && v.tableSelected < v.numberOfTracks ==> r.tableSelected < v.numberOfTracks)
            && (down && v.tableSelected + 1 < v.numberOfTracks ==> r.tableSelected == v.tableSelected + 1)
            && (down && v.tableSelected + 1 >= v.numberOfTracks ==> r.tableSelected == v.tableSelected)
            && (!down ==> r.tableSelected <= v.tableSelected && (v.tableSelected > 0 ==> r.tableSelected == v.tableSelected - 1))
            && r.(isChoosing := v.isChoosing, iterationCount := v.iterationCount, tableSelected := v.tableSelected) == v
  {
  }

  /**
   * `<` always sends one backward seek by the configured distance; `>` sends
   * one forward seek by that distance, bounded by the current track's length,
   * exactly when there is a current track; only the sent commands change.
   */
  lemma SeekKeyProperties(v: PlayerView, forward: bool)
    requires forward && v.currentTrackIndex.Some? ==> v.currentTrackIndex.value < |v.tracks|
    ensures var r := SeekKey(v, forward);
            && (!forward ==> r.sent == v.sent + [Backward(v.seekDistance)])
            && (forward ==> (r.sent == v.sent <==> v.currentTrackIndex == None))
            && (forward && v.currentTrackIndex.Some? ==>
                  r.sent == v.sent + [Forward(v.seekDistance, v.tracks[v.currentTrackIndex.value].length)])
            && r.(sent := v.sent) == v
  {
  }

  /**
   * `K`/`J` enter adjusting mode, reset the idle counter and send a volume step
   * of +10 or -10 hundredths only while the controller's volume is below 200 or
   * above 0; nothing else changes.
   */
  lemma VolumeKeyProperties(v: PlayerView, up: bool)
    ensures var r := VolumeKey(v, up);
            && r.isAdjusting && r.iterationCount == 0
            && (up ==> r.sent == v.sent + (if v.volume < 200 then [Volume(10)] else []))
            && (!up ==> r.sent == v.sent + (if v.volume > 0 then [Volume(-10)] else []))
            && r.(isAdjusting := v.isAdjusting, iterationCount := v.iterationCount, sent := v.sent) == v
  {
  }

  /**
   * `D` removes exactly the selected row and keeps the others in order, while
   * the load-time count stays as it was.
   */
  lemma RemoveKeyEffect(v: PlayerView)
    requires v.tableSelected < |v.tracks|
    ensures var r := SharedKey(v, Char('D'));
            && |r.tracks| + 1 == |v.tracks|
            && r.tracks == v.tracks[..v.tableSelected] + v.tracks[v.tableSelected + 1..]
            && r.numberOfTracks == v.numberOfTracks
            && r.(tracks := v.tracks) == v
  {
    assert SharedKey(v, Char('D')).tracks == Remove(v.tracks, v.tableSelected);
  }

  /**
   * Only `n` and `p` change the current track; no shared key changes the
   * load-time count, the volume or the seek distance, and none raises the idle
   * counter (`j`, `k`, `K` and `J` reset it, the others keep it).
   */
  lemma SharedKeyProperties(v: PlayerView, key: KeyCode)
    requires SharedKeySafe(v, key)
    ensures var r := SharedKey(v, key);
            && (key != Char('n') && key != Char('p') ==> r.currentTrackIndex == v.currentTrackIndex)
            && r.numberOfTracks == v.numberOfTracks && r.volume == v.volume && r.seekDistance == v.seekDistance
            && (r.iterationCount == v.iterationCount || r.iterationCount == 0)
  {
    match key
    case Char(c) =>
      if c == 'D' {
        RemoveKeyEffect(v);
      } else if c == 'j' || c == 'k' {
        CursorKeyProperties(v, c == 'j');
      } else if c == 'p' || c == 'n' {
        TrackSteppedEffect(v, c == 'n');
      } else if c == '<' || c == '>' {
        SeekKeyProperties(v, c == '>');
      } else if c == 'K' || c == 'J' {
        VolumeKeyProperties(v, c == 'K');
      }
    case _ =>
  }

  /** `:` in choosing mode does not panic: the rows it marks and starts exist. */
  predicate ChooseSafe(v: PlayerView)
  {
    match v.currentTrackIndex
    case None => v.tableSelected < |v.tracks|
    case Some(c) => v.tableSelected == c || (c < |v.tracks| && v.tableSelected < |v.tracks|)
  }

  /** `:` in choosing mode: toggle the current track if it is selected, otherwise start the selected row. */
  function Chosen(v: PlayerView): PlayerView
    requires ChooseSafe(v)
  {
    match v.currentTrackIndex
    case None => PlayNew(v, v.tableSelected)
    case Some(c) =>
      if v.tableSelected == c then v.(sent := v.sent + [PlayPause("")])
      else PlayNew(v.(tracks := v.tracks[c := v.tracks[c].(isPlaying := false)]), v.tableSelected)
  }

  /**
   * Choosing the current track only sends a play/pause toggle; choosing any
   * other row makes it current and playing, unmarks the previous current track
   * and sends one `New` with the chosen track's path; nothing but the catalog,
   * the current track and the sent commands changes.
   */
  lemma ChosenEffect(v: PlayerView)
    requires ChooseSafe(v)
    ensures v.currentTrackIndex == Some(v.tableSelected) ==> Chosen(v) == v.(sent := v.sent + [PlayPause("")])
    ensures v.currentTrackIndex != Some(v.tableSelected) ==>
              var r := Chosen(v);
              var s := v.tableSelected;
              && r.currentTrackIndex == Some(s)
              && |r.tracks| == |v.tracks|
              && r.tracks[s] == v.tracks[s].(isPlaying := true)
              && (v.currentTrackIndex.Some? ==> r.tracks[v.currentTrackIndex.value] == v.tracks[v.currentTrackIndex.value].(isPlaying := false))
              && (forall m :: 0 <= m < |v.tracks| && m != s && Some(m) != v.currentTrackIndex ==> r.tracks[m] == v.tracks[m])
              && r.sent == v.sent + [New(v.tracks[s].path)]
    ensures Chosen(v).(currentTrackIndex := v.currentTrackIndex, tracks := v.tracks, sent := v.sent) == v
  {
    match v.currentTrackIndex
    case None =>
      PlayNewEffect(v, v.tableSelected);
    case Some(c) =>
      if v.tableSelected != c {
        PlayNewEffect(v.(tracks := v.tracks[c := v.tracks[c].(isPlaying := false)]), v.tableSelected);
      }
  }

  /** `handle_playback` does not panic on `key`. */
  predicate PlaybackKeySafe(v: PlayerView, key: KeyCode)
  {
    SharedKeySafe(v, key)
  }

  /** `handle_playback`: the new state and the action reported. */
  function PlaybackKey(v: PlayerView, key: KeyCode): (PlayerView, Action)
    requires PlaybackKeySafe(v, key)
  {
    if key == Esc then (v, Escape)
    else if key == Char(':') then (v.(sent := v.sent + [PlayPause("")]), NoAction)
    else (SharedKey(v, key), NoAction)
  }

  /** `handle_choosing` does not panic on `key`. */
  predicate ChoosingKeySafe(v: PlayerView, key: KeyCode)
  {
    SharedKeySafe(v, key) && (key == Char(':') ==> ChooseSafe(v))
  }

  /** `handle_choosing`: the new state and the action reported. */
  function ChoosingKey(v: PlayerView, key: KeyCode): (PlayerView, Action)
    requires ChoosingKeySafe(v, key)
  {
    if key == Esc then (v, Escape)
    else if key == Char(':') then (Chosen(v), NoAction)
    else (SharedKey(v, key), NoAction)
  }

  /**
   * The two browsing handlers differ in `:` alone: playback mode always sends
   * a bare play/pause toggle, choosing mode acts on the selected row; Esc is
   * their only `Escape` and neither ever reports `Submit`.
   */
  lemma BrowsingHandlersAgree(v: PlayerView, key: KeyCode)
    requires ChoosingKeySafe(v, key)
    ensures PlaybackKeySafe(v, key)
    ensures key != Char(':') ==> ChoosingKey(v, key) == PlaybackKey(v, key)
    ensures PlaybackKey(v, Char(':')) == (v.(sent := v.sent + [PlayPause("")]), NoAction)
    ensures ChoosingKey(v, key).1 == PlaybackKey(v, key).1
    ensures PlaybackKey(v, key).1 == Escape <==> key == Esc
    ensures PlaybackKey(v, key).1 != Submit
  {
  }

  /** Neither browsing handler raises the idle counter: each key keeps it or resets it to 0. */
  lemma BrowsingKeepsCounter(v: PlayerView, key: KeyCode)
    ensures ChoosingKeySafe(v, key) ==>
              var r := ChoosingKey(v, key).0;
              r.iterationCount == v.iterationCount || r.iterationCount == 0
    ensures PlaybackKeySafe(v, key) ==>
              var r := PlaybackKey(v, key).0;
              r.iterationCount == v.iterationCount || r.iterationCount == 0
  {
    if key == Char(':') {
      if ChooseSafe(v) {
        ChosenEffect(v);
      }
    } else if key != Esc && SharedKeySafe(v, key) {
      SharedKeyProperties(v, key);
    }
  }

  /** `p`/`n`. */
  method StepTrack(state: PlayerState, forward: bool)
    requires StepSafe(state.View(), forward)
    modifies state
    ensures state.View() == TrackStepped(old(state.View()), forward)
  {
    match state.currentTrackIndex {
      case None =>
      case Some(k) =>
        state.tracks := state.tracks[k := state.tracks[k].(isPlaying := false)];
        var next := Stepped(k, state.numberOfTracks, forward);
        PlayNewTrack(next, state);
    }
  }

  /** `j`/`k`. */
  method MoveCursor(down: bool, state: PlayerState)
    requires down ==> state.numberOfTracks >= 1
    modifies state
    ensures state.View() == CursorKey(old(state.View()), down)
  {
    state.isChoosing := true;
    state.iterationCount := 0;
    if down {
      if state.tableSelected < state.numberOfTracks - 1 {
        state.tableSelected := state.tableSelected + 1;
      }
    } else {
      state.tableSelected := SelectPrevious(state.tableSelected);
    }
  }

  /** `<`/`>`. */
  method SendSeek(forward: bool, state: PlayerState)
    requires forward && state.currentTrackIndex.Some? ==> state.currentTrackIndex.value < |state.tracks|
    modifies state
    ensures state.View() == SeekKey(old(state.View()), forward)
  {
    if !forward {
      state.sent := state.sent + [Backward(state.seekDistance)];
    } else {
      match state.currentTrackIndex {
        case None =>
        case Some(k) =>
          var length := state.tracks[k].length;
          state.sent := state.sent + [Forward(state.seekDistance, length)];
      }
    }
  }

  /** `K`/`J`. */
  method AdjustVolume(up: bool, state: PlayerState)
    modifies state
    ensures state.View() == VolumeKey(old(state.View()), up)
  {
    state.isAdjusting := true;
    state.iterationCount := 0;
    if up {
      if state.volume < 200 {
        state.sent := state.sent + [Volume(VOLUME_STEP)];
      }
    } else if state.volume > 0 {
      state.sent := state.sent + [Volume(-VOLUME_STEP)];
    }
  }

  /** The keys `handle_playback` and `handle_choosing` treat alike. */
  method HandleSharedKey(key: KeyCode, state: PlayerState)
    requires SharedKeySafe(state.View(), key)
    modifies state
    ensures state.View() == SharedKey(old(state.View()), key)
  {
    match key {
      case Tab => state.isConfiguring := !state.isConfiguring;
      case Char(c) =>
        if c == ' ' {
          state.isConfiguring := true;
        } else if c == '/' {
          state.isSearching := true;
        } else if c == 'D' {
          state.tracks := Remove(state.tracks, state.tableSelected);
        } else if c == 'j' || c == 'k' {
          MoveCursor(c == 'j', state);
        } else if c == 'p' || c == 'n' {
          StepTrack(state, c == 'n');
        } else if c == '<' || c == '>' {
          SendSeek(c == '>', state);
        } else if c == 'K' || c == 'J' {
          AdjustVolume(c == 'K', state);
        }
      case _ =>
    }
  }

  /** `:` in choosing mode. */
  method ChooseSelected(state: PlayerState)
    requires ChooseSafe(state.View())
    modifies state
    ensures state.View() == Chosen(old(state.View()))
  {
    var index := state.tableSelected;
    match state.currentTrackIndex {
      case Some(current) =>
        if index == current {
          state.sent := state.sent + [PlayPause("")];
        } else {
          state.tracks := state.tracks[current := state.tracks[current].(isPlaying := false)];
          PlayNewTrack(index, state);
        }
      case None =>
        PlayNewTrack(index, state);
    }
  }

  /** `handle_playback`. */
  method HandlePlayback(key: KeyCode, state: PlayerState) returns (action: Action)
    requires PlaybackKeySafe(state.View(), key)
    modifies state
    ensures (state.View(), action) == PlaybackKey(old(state.View()), key)
  {
    action := NoAction;
    if key == Esc {
      action := Escape;
    } else if key == Char(':') {
      state.sent := state.sent + [PlayPause("")];
    } else {
      HandleSharedKey(key, state);
    }
  }

  /** `handle_choosing`. */
  method HandleChoosing(key: KeyCode, state: PlayerState) returns (action: Action)
    requires ChoosingKeySafe(state.View(), key)
    modifies state
    ensures (state.View(), action) == ChoosingKey(old(state.View()), key)
  {
    action := NoAction;
    if key == Esc {
      action := Escape;
    } else if key == Char(':') {
      ChooseSelected(state);
    } else {
      HandleSharedKey(key, state);
    }
  }
}
