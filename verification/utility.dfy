/**
 * Catalog reordering and starting a track (src/utility.rs). The reorderings
 * work in place on the track slice; `order_shuffle`'s random numbers are a
 * given stream `draws`, `draws(i)` being the `u64` drawn in round `i`.
 */
module Utility {
  import opened Wrappers
  import opened Catalog
  import opened Orders
  import opened Sorting
  import opened Protocol
  import opened State

  newtype u64 = x: int | 0 <= x < 0x1_0000_0000_0000_0000

  /** The partner picked in round `i` of the sweep: `random_number % (size - i) + i`. */
  function SwapIndex(draw: u64, size: nat, i: nat): (j: nat)
    requires i < size
    ensures i <= j < size
  {
    draw as int % (size - i) + i
  }

  /** `slice::swap` on a value. */
  function Swap(s: seq<Audio>, i: nat, j: nat): (r: seq<Audio>)
    requires i < |s| && j < |s|
    ensures multiset(r) == multiset(s)
  {
    s[i := s[j]][j := s[i]]
  }

  /** `slice::swap`: the elements at `i` and `j` trade places. */
  method SwapInPlace(a: array<Audio>, i: nat, j: nat)
    requires i < a.Length && j < a.Length
    modifies a
    ensures a[..] == Swap(old(a[..]), i, j)
  {
    var t := a[i];
    a[i] := a[j];
    a[j] := t;
  }

  /** Rounds `i`, `i + 1`, ... of the Fisher-Yates sweep. */
  function ShuffleFrom(s: seq<Audio>, draws: nat -> u64, i: nat): seq<Audio>
    requires i <= |s|
    decreases |s| - i
  {
    if i == |s| then s
    else ShuffleFrom(Swap(s, i, SwapIndex(draws(i), |s|, i)), draws, i + 1)
  }

  /** The whole sweep. */
  function Shuffled(s: seq<Audio>, draws: nat -> u64): seq<Audio>
  {
    ShuffleFrom(s, draws, 0)
  }

  /** The sweep only swaps, so it is a permutation; an empty slice is untouched. */
  lemma {:induction false} ShufflePermutation(s: seq<Audio>, draws: nat -> u64, i: nat)
    requires i <= |s|
    ensures |ShuffleFrom(s, draws, i)| == |s|
    ensures multiset(ShuffleFrom(s, draws, i)) == multiset(s)
    ensures s == [] ==> ShuffleFrom(s, draws, i) == []
    decreases |s| - i
  {
    if i < |s| {
      ShufflePermutation(Swap(s, i, SwapIndex(draws(i), |s|, i)), draws, i + 1);
    }
  }

  /** `order_shuffle`: for each `i`, swap `i` with a partner drawn from `[i, size)`. */
  method OrderShuffle(a: array<Audio>, draws: nat -> u64)
    modifies a
    ensures a[..] == Shuffled(old(a[..]), draws)
    ensures multiset(a[..]) == multiset(old(a[..]))
  {
    ghost var input := a[..];
    ghost var target := Shuffled(input, draws);
    var size := a.Length;
    var i := 0;
    while i < size
      invariant i <= size == a.Length
      invariant ShuffleFrom(a[..], draws, i) == target
    {
      var j := SwapIndex(draws(i), size, i);
      ghost var before := a[..];
      SwapInPlace(a, i, j);
      assert ShuffleFrom(before, draws, i) == ShuffleFrom(a[..], draws, i + 1);
      i := i + 1;
    }
    ShufflePermutation(input, draws, 0);
  }

  /** `order_album`: album order is not implemented and leaves the slice as it is. */
  method OrderAlbum(a: array<Audio>)
    ensures a[..] == old(a[..])
  {
  }

  /** `order_tracks`: a stable sort by lower-cased name. */
  method OrderTracks(a: array<Audio>)
    modifies a
    ensures a[..] == Sort(ByName, old(a[..]))
    ensures Sorted(ByName, a[..])
    ensures multiset(a[..]) == multiset(old(a[..]))
  {
    SortInPlace(a, ByName);
    SortSorted(ByName, old(a[..]));
    SortPermutation(ByName, old(a[..]));
  }

  /** `order_artist`: a stable sort by lower-cased author, then lower-cased name. */
  method OrderArtist(a: array<Audio>)
    modifies a
    ensures a[..] == Sort(ByAuthorThenName, old(a[..]))
    ensures Sorted(ByAuthorThenName, a[..])
    ensures multiset(a[..]) == multiset(old(a[..]))
  {
    SortInPlace(a, ByAuthorThenName);
    SortSorted(ByAuthorThenName, old(a[..]));
    SortPermutation(ByAuthorThenName, old(a[..]));
  }

  /** The catalog order `order_by(newOrder, oldOrder, s)` produces. */
  function Reordered(newOrder: Order, oldOrder: Order, s: seq<Audio>, draws: nat -> u64): seq<Audio>
  {
    if Eq(newOrder, oldOrder) then s
    else match newOrder
      case Shuffle => Shuffled(s, draws)
      case Album => s
      case Artist => Sort(ByAuthorThenName, s)
      case Track => Sort(ByName, s)
  }

  /**
   * Every branch of `order_by` permutes the catalog; re-selecting the current
   * mode changes nothing; the two sorting modes leave it sorted by their key.
   */
  lemma ReorderedProperties(newOrder: Order, oldOrder: Order, s: seq<Audio>, draws: nat -> u64)
    ensures |Reordered(newOrder, oldOrder, s, draws)| == |s|
    ensures multiset(Reordered(newOrder, oldOrder, s, draws)) == multiset(s)
    ensures newOrder == oldOrder || newOrder == Album ==> Reordered(newOrder, oldOrder, s, draws) == s
    ensures newOrder != oldOrder && newOrder == Track ==> Sorted(ByName, Reordered(newOrder, oldOrder, s, draws))
    ensures newOrder != oldOrder && newOrder == Artist
            ==> Sorted(ByAuthorThenName, Reordered(newOrder, oldOrder, s, draws))
  {
    ShufflePermutation(s, draws, 0);
    SortPermutation(ByName, s);
    SortPermutation(ByAuthorThenName, s);
    SortSorted(ByName, s);
    SortSorted(ByAuthorThenName, s);
  }

  /** `order_by`: nothing when the mode is unchanged, otherwise the new mode's reordering. */
  method OrderBy(newOrder: Order, oldOrder: Order, a: array<Audio>, draws: nat -> u64)
    modifies a
    ensures a[..] == Reordered(newOrder, oldOrder, old(a[..]), draws)
  {
    if Eq(newOrder, oldOrder) {
      return;
    }
    match newOrder {
      case Shuffle => OrderShuffle(a, draws);
      case Album => OrderAlbum(a);
      case Artist => OrderArtist(a);
      case Track => OrderTracks(a);
    }
  }

  /** The state after `play_new_track(index)`. */
  function PlayNew(v: PlayerView, index: nat): PlayerView
    requires index < |v.tracks|
  {
    v.(currentTrackIndex := Some(index),
       tracks := v.tracks[index := v.tracks[index].(isPlaying := true)],
       sent := v.sent + [New(v.tracks[index].path)])
  }

  /**
   * Starting a track makes it current and marks it playing, leaves every other
   * track and every other field as it was, and sends exactly one command: `New`
   * with that track's path.
   */
  lemma PlayNewEffect(v: PlayerView, index: nat)
    requires index < |v.tracks|
    ensures PlayNew(v, index).currentTrackIndex == Some(index)
    ensures |PlayNew(v, index).tracks| == |v.tracks|
    ensures PlayNew(v, index).tracks[index] == v.tracks[index].(isPlaying := true)
    ensures forall m :: 0 <= m < |v.tracks| && m != index ==> PlayNew(v, index).tracks[m] == v.tracks[m]
    ensures PlayNew(v, index).sent == v.sent + [New(v.tracks[index].path)]
    ensures PlayNew(v, index).(currentTrackIndex := v.currentTrackIndex, tracks := v.tracks, sent := v.sent) == v
  {
  }

  /** `play_new_track`. */
  method PlayNewTrack(index: nat, state: PlayerState)
    requires index < |state.tracks|
    modifies state
    ensures state.View() == PlayNew(old(state.View()), index)
  {
    state.currentTrackIndex := Some(index);
    state.tracks := state.tracks[index := state.tracks[index].(isPlaying := true)];
    var path := state.tracks[index].path;
    state.sent := state.sent + [New(path)];
  }
}
