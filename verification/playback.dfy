/**
 * The playback engine of src/playback.rs. The audio library's sink is an
 * abstract record: whether it is paused, the queue of file paths still to
 * play (the head is the track playing), the position within the head track in
 * milliseconds and the volume in hundredths. Each command is a function on
 * that record; the engine loop, which carries `was_playing` from one tick to
 * the next, is a class whose `Tick` applies at most one command and reports a
 * snapshot.
 */
module Playback {
  import opened Wrappers
  import opened Protocol

  /** Upper bound of the volume guard: 2.0, in hundredths. */
  const MAX_VOLUME: int := 200

  /** The audio sink, abstracted. */
  datatype Sink = Sink(paused: bool, queue: seq<string>, posMillis: nat, volume: int)

  /** A fresh sink: playing (not paused), empty, at position 0, volume 1.0. */
  const FreshSink := Sink(false, [], 0, 100)

  /** `SinkState`: what the engine reports to the controller after each tick. */
  datatype SinkState = SinkState(
    isPaused: bool,
    isEmpty: bool,
    isPlaying: bool,
    currentTrackFinished: bool,
    posMillis: nat,
    volume: int)

  /** `Duration::as_secs`: whole seconds of a position. */
  function Secs(millis: nat): nat
  {
    millis / 1000
  }

  /* ---------------- sink primitives ---------------- */

  function Pause(s: Sink): Sink { s.(paused := true) }

  function Play(s: Sink): Sink { s.(paused := false) }

  /** Appending a source queues it; it starts at position 0 when it becomes the head. */
  function AppendSource(s: Sink, path: string): Sink { s.(queue := s.queue + [path]) }

  /** Dropping the head track; the next one, if any, starts from the beginning. */
  function SkipOne(s: Sink): Sink
  {
    if s.queue == [] then s else s.(queue := s.queue[1..], posMillis := 0)
  }

  /** Stopping clears the queue. */
  function Stop(s: Sink): Sink { s.(queue := [], posMillis := 0) }

  /** A seek of the head track; the seek is taken to succeed. */
  function SeekTo(s: Sink, millis: nat): Sink { s.(posMillis := millis) }

  /* ---------------- commands ---------------- */

  /** `play_pause`: pauses a playing sink and resumes a paused one. */
  function PlayPause(s: Sink): (r: Sink)
    ensures r == s.(paused := !s.paused)
  {
    if s.paused then Play(s) else Pause(s)
  }

  /**
   * `new_song`: a playing sink is stopped and left with the new track alone;
   * a paused sink gets the track appended, drops its head and resumes, so the
   * new track plays at once only when it was the sole track after the head.
   */
  function NewSong(s: Sink, path: string): (r: Sink)
    ensures !s.paused ==> r.queue == [path] && !r.paused && r.posMillis == 0
    ensures s.paused ==> r.queue == (s.queue + [path])[1..] && !r.paused
    ensures s.paused && |s.queue| == 1 ==> r.queue == [path]
    ensures s.paused && s.queue == [] ==> r.queue == []
    ensures r.volume == s.volume
  {
    if s.paused then Play(SkipOne(AppendSource(s, path)))
    else AppendSource(Stop(s), path)
  }

  /**
   * `seek_forward`: moves the position `distance` seconds ahead when the
   * whole seconds played plus `distance` stay below the track's `length`,
   * and otherwise leaves the sink as it is.
   */
  function SeekForward(s: Sink, distance: nat, length: nat): (r: Sink)
    ensures Secs(s.posMillis) + distance < length ==> r == s.(posMillis := s.posMillis + 1000 * distance)
    ensures Secs(s.posMillis) + distance >= length ==> r == s
    ensures Secs(r.posMillis) < length || r == s
  {
    if Secs(s.posMillis) + distance < length then SeekTo(s, s.posMillis + 1000 * distance) else s
  }

  /**
   * `seek_backward`: moves the position `distance` seconds back when more
   * than `distance` whole seconds have been played, and otherwise to the start.
   */
  function SeekBackward(s: Sink, distance: nat): (r: Sink)
    ensures Secs(s.posMillis) > distance ==> r == s.(posMillis := s.posMillis - 1000 * distance)
    ensures Secs(s.posMillis) <= distance ==> r == s.(posMillis := 0)
    ensures r.posMillis <= s.posMillis
  {
    if Secs(s.posMillis) > distance then SeekTo(s, s.posMillis - 1000 * distance) else SeekTo(s, 0)
  }

  /** The guard of `volume_control`: lower only above 0, raise only below 2.0. */
  predicate VolumeGuard(volume: int, step: int)
  {
    (step < 0 && volume > 0) || (step > 0 && volume < MAX_VOLUME)
  }

  /**
   * `volume_control`. In hundredths, rounding the new volume to hundredths is
   * the identity, so the new volume is the old one plus the step.
   */
  function VolumeControl(s: Sink, step: int): (r: Sink)
    ensures VolumeGuard(s.volume, step) ==> r == s.(volume := s.volume + step)
    ensures !VolumeGuard(s.volume, step) ==> r == s
  {
    if VolumeGuard(s.volume, step) then s.(volume := s.volume + step) else s
  }

  /**
   * With steps of one `VOLUME_STEP` either way, a volume that starts at a
   * multiple of the step within [0, 200] stays one: the guard stops it at
   * both ends.
   */
  lemma VolumeStaysInRange(s: Sink, step: int)
    requires 0 <= s.volume <= MAX_VOLUME && s.volume % VOLUME_STEP == 0
    requires step == VOLUME_STEP || step == -VOLUME_STEP
    ensures 0 <= VolumeControl(s, step).volume <= MAX_VOLUME
    ensures VolumeControl(s, step).volume % VOLUME_STEP == 0
  {
  }

  /** The volume after applying `steps` in order, one command each. */
  function VolumeAfter(s: Sink, steps: seq<int>): Sink
    decreases |steps|
  {
    if steps == [] then s else VolumeAfter(VolumeControl(s, steps[0]), steps[1..])
  }

  /** Any run of ±`VOLUME_STEP` commands keeps the volume of a fresh sink within [0, 200]. */
  lemma {:induction false} VolumeAfterInRange(s: Sink, steps: seq<int>)
    requires 0 <= s.volume <= MAX_VOLUME && s.volume % VOLUME_STEP == 0
    requires forall i :: 0 <= i < |steps| ==> steps[i] == VOLUME_STEP || steps[i] == -VOLUME_STEP
    ensures 0 <= VolumeAfter(s, steps).volume <= MAX_VOLUME
    ensures VolumeAfter(s, steps).volume % VOLUME_STEP == 0
    decreases |steps|
  {
    if steps != [] {
      VolumeStaysInRange(s, steps[0]);
      VolumeAfterInRange(VolumeControl(s, steps[0]), steps[1..]);
    }
  }

  /** `audio_command`: the sink after one command; `_Previous` is `todo!()` in the source and panics. */
  function AudioCommand(s: Sink, command: Command): (r: Sink)
    requires !command.Previous?
    ensures command.PlayPause? ==> r.queue == s.queue && r.paused != s.paused
    ensures command.Forward? || command.Backward? ==> r.queue == s.queue && r.paused == s.paused
    ensures command.Next? ==> r.queue == if s.queue == [] then [] else s.queue[1..]
    ensures command.Append? ==> r.queue == s.queue + [command.path]
    ensures !command.Volume? ==> r.volume == s.volume
  {
    match command
    case PlayPause(_) => PlayPause(s)
    case New(path) => NewSong(s, path)
    case Forward(distance, length) => SeekForward(s, distance, length)
    case Backward(distance) => SeekBackward(s, distance)
    case Next(_, _) => SkipOne(s)
    case Append(path, _) => AppendSource(s, path)
    case Volume(step) => VolumeControl(s, step)
  }

  /* ---------------- the engine loop ---------------- */

  /** The snapshot of a sink, given whether the previous tick reported it playing. */
  function Snapshot(s: Sink, wasPlaying: bool): (snap: SinkState)
    ensures snap.isPlaying <==> !snap.isEmpty && !snap.isPaused
    ensures snap.currentTrackFinished <==> wasPlaying && snap.isEmpty
    ensures snap.isEmpty <==> s.queue == []
  {
    var isPlaying := s.queue != [] && !s.paused;
    SinkState(s.paused, s.queue == [], isPlaying, wasPlaying && s.queue == [], s.posMillis, s.volume)
  }

  /** The loop state of the engine thread. */
  datatype EngineView = EngineView(sink: Sink, wasPlaying: bool)

  /** One pass of the engine loop: apply the command received, if any, then report. */
  function EngineTick(e: EngineView, command: Option<Command>): (EngineView, SinkState)
    requires command.Some? ==> !command.value.Previous?
  {
    var s := if command.Some? then AudioCommand(e.sink, command.value) else e.sink;
    var snap := Snapshot(s, e.wasPlaying);
    (EngineView(s, snap.isPlaying), snap)
  }

  /**
   * Playback between two passes of the loop (the 33 ms sleep): an unpaused,
   * non-empty sink advances its position or, when the head track ends, moves
   * on to the next track.
   */
  function Progressed(e: EngineView, headEnded: bool, elapsedMillis: nat): EngineView
  {
    if e.sink.paused || e.sink.queue == [] then e
    else if headEnded then e.(sink := SkipOne(e.sink))
    else e.(sink := e.sink.(posMillis := e.sink.posMillis + elapsedMillis))
  }

  /**
   * A finished track is reported on one tick only: the tick that reports it
   * sees an empty sink, so it records "not playing", and the next tick cannot
   * report it again whatever happens in between.
   */
  lemma FinishedNeverTwice(e: EngineView, first: Option<Command>, headEnded: bool, elapsedMillis: nat,
                           second: Option<Command>)
    requires first.Some? ==> !first.value.Previous?
    requires second.Some? ==> !second.value.Previous?
    ensures var (e1, snap1) := EngineTick(e, first);
            var (e2, snap2) := EngineTick(Progressed(e1, headEnded, elapsedMillis), second);
            !(snap1.currentTrackFinished && snap2.currentTrackFinished)
  {
    var (e1, snap1) := EngineTick(e, first);
    var e1p := Progressed(e1, headEnded, elapsedMillis);
    assert e1p.wasPlaying == e1.wasPlaying;
  }

  /**
   * A track that plays to its end with no command in between is reported
   * finished exactly once, on the first tick after the sink runs empty.
   */
  lemma LastTrackEndReported(e: EngineView, elapsedMillis: nat)
    requires e.sink.queue != [] && !e.sink.paused && |e.sink.queue| == 1
    ensures var (e1, snap1) := EngineTick(e, None);
            var (e2, snap2) := EngineTick(Progressed(e1, true, elapsedMillis), None);
            !snap1.currentTrackFinished && snap2.currentTrackFinished && snap2.isEmpty
  {
  }

  /** The engine thread: the sink and the `was_playing` flag carried between passes. */
  class Engine {
    var sink: Sink
    var wasPlaying: bool

    function View(): EngineView
      reads this
    {
      EngineView(sink, wasPlaying)
    }

    /** The loop's starting point: a fresh sink, not playing. */
    constructor ()
      ensures View() == EngineView(FreshSink, false)
    {
      sink := FreshSink;
      wasPlaying := false;
    }

    /**
     * One pass of the loop: at most one command, then the snapshot; the
     * finished flag of the snapshot is computed afresh on every pass.
     */
    method Tick(command: Option<Command>) returns (snapshot: SinkState)
      requires command.Some? ==> !command.value.Previous?
      modifies this
      ensures (View(), snapshot) == EngineTick(old(View()), command)
      ensures snapshot.currentTrackFinished ==> !wasPlaying
    {
      if command.Some? {
        sink := AudioCommand(sink, command.value);
      }
      var isPlaying := sink.queue != [] && !sink.paused;
      var currentTrackFinished := false;
      if wasPlaying && sink.queue == [] {
        currentTrackFinished := true;
      }
      snapshot := SinkState(sink.paused, sink.queue == [], isPlaying, currentTrackFinished, sink.posMillis, sink.volume);
      wasPlaying := isPlaying;
    }

    /** Playback during the sleep between passes. */
    method Progress(headEnded: bool, elapsedMillis: nat)
      modifies this
      ensures View() == Progressed(old(View()), headEnded, elapsedMillis)
    {
      if !sink.paused && sink.queue != [] {
        if headEnded {
          sink := SkipOne(sink);
        } else {
          sink := sink.(posMillis := sink.posMillis + elapsedMillis);
        }
      }
    }
  }
}
