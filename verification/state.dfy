/**
 * The controller's state record (src/state.rs). Its fields are updated in
 * place by the key handlers and by the controller loop, so it is a class; the
 * outbound command channel is the sequence `sent` of every command sent so far.
 */
module State {
  import opened Wrappers
  import opened Catalog
  import opened Orders
  import opened Protocol

  /** `DEFAULT_SEEK_DISTANCE`, in seconds. */
  const DEFAULT_SEEK_DISTANCE: nat := 5

  /** All fields of a `PlayerState` as one value, so that contracts can compare states. */
  datatype PlayerView = PlayerView(
    tracks: seq<Audio>,
    isSearching: bool,
    isAdjusting: bool,
    isConfiguring: bool,
    isChoosing: bool,
    keyword: string,
    currentTrackIndex: Option<nat>,
    tableSelected: nat,
    listSelected: nat,
    sent: seq<Command>,
    numberOfTracks: nat,
    matchedTracks: seq<Audio>,
    iterationCount: nat,
    volume: int,
    playbackOrder: Order,
    seekDistance: nat)

  /** No track of the catalog is marked as playing. */
  predicate NonePlaying(tracks: seq<Audio>)
  {
    forall i :: 0 <= i < |tracks| ==> !tracks[i].isPlaying
  }

  class PlayerState {
    var tracks: seq<Audio>
    var isSearching: bool
    var isAdjusting: bool
    var isConfiguring: bool
    var isChoosing: bool
    var keyword: string
    var currentTrackIndex: Option<nat>
    /** The browse table's selected row; always present once `main` has selected the first row. */
    var tableSelected: nat
    /** The ordering list's selected row; likewise always present. */
    var listSelected: nat
    /** Every command sent on the command channel, oldest first. */
    var sent: seq<Command>
    /** The catalog size at load time; never updated afterwards. */
    var numberOfTracks: nat
    var matchedTracks: seq<Audio>
    var iterationCount: nat
    /** The controller's copy of the volume, in hundredths; never updated after start-up. */
    var volume: int
    var playbackOrder: Order
    var seekDistance: nat

    function View(): PlayerView
      reads this
    {
      PlayerView(tracks, isSearching, isAdjusting, isConfiguring, isChoosing, keyword,
                 currentTrackIndex, tableSelected, listSelected, sent, numberOfTracks,
                 matchedTracks, iterationCount, volume, playbackOrder, seekDistance)
    }

    /**
     * `PlayerState::init` with the catalog `loaded` handed in by the loader,
     * followed by the `select_first` calls of src/main.rs that put both
     * cursors on row 0.
     */
    constructor Init(loaded: seq<Audio>, seekDistance: nat)
      requires NonePlaying(loaded)
      ensures View() == PlayerView(loaded, false, false, false, true, "", None, 0, 0, [],
                                   |loaded|, [], 0, 100, Artist, seekDistance)
      ensures NonePlaying(tracks) && numberOfTracks == |tracks|
    {
      tracks := loaded;
      numberOfTracks := |loaded|;
      isSearching := false;
      isAdjusting := false;
      isConfiguring := false;
      isChoosing := true;
      keyword := "";
      currentTrackIndex := None;
      tableSelected := 0;
      listSelected := 0;
      sent := [];
      matchedTracks := [];
      iterationCount := 0;
      volume := 100;
      playbackOrder := Artist;
      this.seekDistance := seekDistance;
    }
  }

  /** `Default::default`: no configuration file, so the default seek distance. */
  method DefaultState(loaded: seq<Audio>) returns (state: PlayerState)
    requires NonePlaying(loaded)
    ensures fresh(state)
    ensures state.View() == PlayerView(loaded, false, false, false, true, "", None, 0, 0, [],
                                       |loaded|, [], 0, 100, Artist, DEFAULT_SEEK_DISTANCE)
  {
    state := new PlayerState.Init(loaded, DEFAULT_SEEK_DISTANCE);
  }

  /** `Configure::configured`: the seek distance read from the configuration file. */
  method ConfiguredState(loaded: seq<Audio>, configSeekDistance: nat) returns (state: PlayerState)
    requires NonePlaying(loaded)
    ensures fresh(state)
    ensures state.View() == PlayerView(loaded, false, false, false, true, "", None, 0, 0, [],
                                       |loaded|, [], 0, 100, Artist, configSeekDistance)
  {
    state := new PlayerState.Init(loaded, configSeekDistance);
  }
}
