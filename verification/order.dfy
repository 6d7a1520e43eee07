/**
 * The playback-ordering mode (src/order.rs): four variants, equality decided by
 * comparing their display strings, and a cyclic successor exposed through
 * Rust's `Iterator::next`, which always yields `Some`.
 */
module Orders {
  import opened Wrappers

  datatype Order = Shuffle | Album | Artist | Track

  /** `Display::fmt`: the name shown in the ordering list. */
  function Display(o: Order): (s: string)
    ensures o == Shuffle ==> s == "Shuffle"
    ensures o == Album ==> s == "Album"
    ensures o == Artist ==> s == "Artist"
    ensures o == Track ==> s == "Track"
    ensures |s| >= 5
    ensures s[0] in {'S', 'A', 'T'}
  {
    match o
    case Shuffle => "Shuffle"
    case Album => "Album"
    case Artist => "Artist"
    case Track => "Track"
  }

  /** The four display strings are pairwise distinct. */
  lemma DisplayInjective(a: Order, b: Order)
    ensures Display(a) == Display(b) ==> a == b
  {
    if Display(a) == Display(b) {
      // The strings differ in length or in their second character.
      assert |Display(a)| == |Display(b)| && Display(a)[1] == Display(b)[1];
    }
  }

  /** `PartialEq::eq`: two modes are equal when their display strings are. */
  function Eq(a: Order, b: Order): (r: bool)
    ensures r <==> a == b
  {
    DisplayInjective(a, b);
    Display(a) == Display(b)
  }

  /** `Iterator::next`: the successor mode; the iterator never ends. */
  function Next(o: Order): (r: Option<Order>)
    ensures r.Some?
    ensures r.value != o
  {
    match o
    case Shuffle => Some(Album)
    case Album => Some(Artist)
    case Artist => Some(Track)
    case Track => Some(Shuffle)
  }

  /** The mode reached after `k` calls of `next`. */
  function Advance(o: Order, k: nat): Order
    decreases k
  {
    if k == 0 then o else Advance(Next(o).value, k - 1)
  }

  /** Four calls of `next` lead back to the starting mode, and no fewer do. */
  lemma NextCycleLength(o: Order)
    ensures Advance(o, 4) == o
    ensures forall k :: 0 < k < 4 ==> Advance(o, k) != o
  {
    assert Advance(o, 1) == Next(o).value;
    assert Advance(o, 2) == Next(Next(o).value).value;
    assert Advance(o, 3) == Next(Next(Next(o).value).value).value;
    assert Advance(o, 4) == Next(Next(Next(Next(o).value).value).value).value;
  }

  /** The successor walk is periodic with period four. */
  lemma {:induction false} AdvancePeriodic(o: Order, k: nat)
    ensures Advance(o, k + 4) == Advance(o, k)
    decreases k
  {
    if k == 0 {
      NextCycleLength(o);
    } else {
      AdvancePeriodic(Next(o).value, k - 1);
    }
  }

  /** Starting anywhere, the walk visits every mode within four steps. */
  lemma AdvanceVisitsAll(o: Order, p: Order)
    ensures exists k :: 0 <= k < 4 && Advance(o, k) == p
  {
    var walk := [o, Advance(o, 1), Advance(o, 2), Advance(o, 3)];
    assert walk[1] == Next(o).value;
    assert walk[2] == Next(walk[1]).value;
    assert walk[3] == Next(walk[2]).value;
    assert p in walk;
    var k :| 0 <= k < 4 && walk[k] == p;
    assert Advance(o, k) == p;
  }
}
