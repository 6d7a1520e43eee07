/**
 * The track record (`Audio`, src/main.rs) and the substring search over the
 * catalog (src/fuzzy_search.rs).
 */
module Catalog {

  /** One loaded track; `length` is its duration in whole seconds, `path` its file. */
  datatype Audio = Audio(isPlaying: bool, name: string, author: string, length: nat, path: string)

  /** `k` occurs in `s` starting at position `i`, character for character. */
  predicate OccursAt(s: string, k: string, i: int)
  {
    0 <= i && i + |k| <= |s| && s[i..i + |k|] == k
  }

  /** `str::contains`: `k` occurs somewhere in `s` (case-sensitive). */
  predicate Contains(s: string, k: string)
  {
    exists i | 0 <= i <= |s| - |k| :: OccursAt(s, k, i)
  }

  /** Every string contains the empty keyword. */
  lemma ContainsEmpty(s: string)
    ensures Contains(s, "")
  {
    assert OccursAt(s, "", 0);
  }

  /** No character of `s` is `c`. */
  predicate Lacks(s: string, c: char)
  {
    forall i | 0 <= i < |s| :: s[i] != c
  }

  /** A keyword holding a character that `s` lacks does not occur in `s`. */
  lemma MissingChar(s: string, k: string, c: char)
    requires c in k && Lacks(s, c)
    ensures !Contains(s, k)
  {
  }

  /** The condition of src/fuzzy_search.rs:13: the name or the author contains the keyword. */
  predicate IsMatch(t: Audio, keyword: string)
  {
    Contains(t.name, keyword) || Contains(t.author, keyword)
  }

  /** A track whose name and author both lack a character of the keyword does not match it. */
  lemma MissingCharNoMatch(t: Audio, keyword: string, c: char)
    requires c in keyword && Lacks(t.name, c) && Lacks(t.author, c)
    ensures !IsMatch(t, keyword)
  {
    MissingChar(t.name, keyword, c);
    MissingChar(t.author, keyword, c);
  }

  /** The tracks of `tracks` that match `keyword`, in catalog order. */
  function Matching(tracks: seq<Audio>, keyword: string): (r: seq<Audio>)
    ensures |r| <= |tracks|
  {
    if tracks == [] then []
    else Matching(tracks[..|tracks| - 1], keyword)
         + (if IsMatch(tracks[|tracks| - 1], keyword) then [tracks[|tracks| - 1]] else [])
  }

  /** `[t]` when `t` matches, empty otherwise. */
  function Keep(t: Audio, keyword: string): seq<Audio>
  {
    if IsMatch(t, keyword) then [t] else []
  }

  /** Searching one more track of the catalog appends that track exactly when it matches. */
  lemma MatchingPrefix(tracks: seq<Audio>, keyword: string, n: nat)
    requires n < |tracks|
    ensures Matching(tracks[..n + 1], keyword) == Matching(tracks[..n], keyword) + Keep(tracks[n], keyword)
  {
    assert tracks[..n + 1][..n] == tracks[..n];
  }

  /** `search`: a loop pushing a clone of every matching track; the input is only read. */
  method Search(tracks: seq<Audio>, keyword: string) returns (matches: seq<Audio>)
    ensures matches == Matching(tracks, keyword)
  {
    matches := [];
    for i := 0 to |tracks|
      invariant matches == Matching(tracks[..i], keyword)
    {
      MatchingPrefix(tracks, keyword, i);
      if IsMatch(tracks[i], keyword) {
        matches := matches + [tracks[i]];
      }
    }
    assert tracks[..|tracks|] == tracks;
  }

  /** A track is in the result exactly when it is in the catalog and matches. */
  lemma {:induction false} MatchingMembership(tracks: seq<Audio>, keyword: string, t: Audio)
    ensures t in Matching(tracks, keyword) <==> t in tracks && IsMatch(t, keyword)
  {
    if tracks != [] {
      var init := tracks[..|tracks| - 1];
      MatchingMembership(init, keyword, t);
      assert tracks == init + [tracks[|tracks| - 1]];
    }
  }

  /** Strictly increasing positions into a sequence of length `n`. */
  ghost predicate IncreasingIndices(idx: seq<nat>, n: nat)
  {
    (forall j :: 0 <= j < |idx| ==> idx[j] < n)
    && (forall j, l :: 0 <= j < l < |idx| ==> idx[j] < idx[l])
  }

  /** Positions below `n` stay below `n + 1`, and `n` itself can follow them. */
  lemma IncreasingExtend(idx: seq<nat>, n: nat)
    requires IncreasingIndices(idx, n)
    ensures IncreasingIndices(idx, n + 1)
    ensures IncreasingIndices(idx + [n], n + 1)
  {
  }

  /** The result is a subsequence of the catalog: order is preserved. */
  lemma {:induction false} MatchingIsSubsequence(tracks: seq<Audio>, keyword: string) returns (idx: seq<nat>)
    ensures |idx| == |Matching(tracks, keyword)|
    ensures IncreasingIndices(idx, |tracks|)
    ensures forall j :: 0 <= j < |idx| ==> Matching(tracks, keyword)[j] == tracks[idx[j]]
    ensures forall k :: 0 <= k < |tracks| ==> (k in idx <==> IsMatch(tracks[k], keyword))
  {
    if tracks == [] {
      idx := [];
    } else {
      var n := |tracks| - 1;
      var init := tracks[..n];
      var prev := MatchingIsSubsequence(init, keyword);
      var found := Matching(init, keyword);
      IncreasingExtend(prev, n);
      assert forall j :: 0 <= j < |prev| ==> found[j] == tracks[prev[j]];
      assert forall k :: 0 <= k < n ==> init[k] == tracks[k];
      assert n !in prev;
      if IsMatch(tracks[n], keyword) {
        assert Matching(tracks, keyword) == found + [tracks[n]];
        idx := prev + [n];
      } else {
        assert Matching(tracks, keyword) == found;
        idx := prev;
      }
    }
  }

  /** The empty keyword matches every track. */
  lemma {:induction false} MatchingEmptyKeyword(tracks: seq<Audio>)
    ensures Matching(tracks, "") == tracks
  {
    if tracks != [] {
      MatchingEmptyKeyword(tracks[..|tracks| - 1]);
      ContainsEmpty(tracks[|tracks| - 1].name);
      assert tracks[..|tracks| - 1] + [tracks[|tracks| - 1]] == tracks;
    }
  }

  /** The four-track catalog of src/fuzzy_search/test.rs. */
  function Fixture(): seq<Audio>
  {
    [ Audio(false, "Hello", "Adele", 999, ""),
      Audio(false, "Commit Ballad", "toe", 999, ""),
      Audio(false, "Bee Apple Lemon, Rock", "toe", 999, ""),
      Audio(false, "Bee Apple Lemon, Rock, Stone", "toe", 999, "") ]
  }

  /** A search over four tracks, spelled out: each track in turn, kept when it matches. */
  lemma MatchingOfFour(tracks: seq<Audio>, keyword: string)
    requires |tracks| == 4
    ensures Matching(tracks, keyword)
            == Keep(tracks[0], keyword) + Keep(tracks[1], keyword) + Keep(tracks[2], keyword) + Keep(tracks[3], keyword)
  {
    MatchingPrefix(tracks, keyword, 0);
    MatchingPrefix(tracks, keyword, 1);
    MatchingPrefix(tracks, keyword, 2);
    MatchingPrefix(tracks, keyword, 3);
    assert tracks[..0] == [];
    assert tracks[..4] == tracks;
  }

  /** Only the first fixture track matches "Hello": no other track has an 'H'. */
  lemma HelloFlags()
    ensures IsMatch(Fixture()[0], "Hello")
    ensures !IsMatch(Fixture()[1], "Hello") && !IsMatch(Fixture()[2], "Hello") && !IsMatch(Fixture()[3], "Hello")
  {
    var f := Fixture();
    assert OccursAt(f[0].name, "Hello", 0);
    MissingCharNoMatch(f[1], "Hello", 'H');
    MissingCharNoMatch(f[2], "Hello", 'H');
    MissingCharNoMatch(f[3], "Hello", 'H');
  }

  /** On the fixture "Hello" finds exactly the first track. */
  lemma FixtureHello()
    ensures Matching(Fixture(), "Hello") == [Fixture()[0]]
  {
    HelloFlags();
    MatchingOfFour(Fixture(), "Hello");
  }

  /** No fixture track matches "Bye": none has a 'y'. */
  lemma ByeFlags()
    ensures !IsMatch(Fixture()[0], "Bye") && !IsMatch(Fixture()[1], "Bye")
    ensures !IsMatch(Fixture()[2], "Bye") && !IsMatch(Fixture()[3], "Bye")
  {
    var f := Fixture();
    MissingCharNoMatch(f[0], "Bye", 'y');
    MissingCharNoMatch(f[1], "Bye", 'y');
    MissingCharNoMatch(f[2], "Bye", 'y');
    MissingCharNoMatch(f[3], "Bye", 'y');
  }

  /** On the fixture "Bye" finds nothing. */
  lemma FixtureBye()
    ensures |Matching(Fixture(), "Bye")| == 0
  {
    ByeFlags();
    MatchingOfFour(Fixture(), "Bye");
  }

  /** The last two fixture tracks match "Rock" at position 17 of their names; the first two have no 'R'. */
  lemma RockFlags()
    ensures !IsMatch(Fixture()[0], "Rock") && !IsMatch(Fixture()[1], "Rock")
    ensures IsMatch(Fixture()[2], "Rock") && IsMatch(Fixture()[3], "Rock")
  {
    var f := Fixture();
    MissingCharNoMatch(f[0], "Rock", 'R');
    MissingCharNoMatch(f[1], "Rock", 'R');
    assert OccursAt(f[2].name, "Rock", 17);
    assert OccursAt(f[3].name, "Rock", 17);
  }

  /** On the fixture "Rock" finds the two tracks whose names contain it. */
  lemma FixtureRock()
    ensures Matching(Fixture(), "Rock") == Fixture()[2..]
  {
    RockFlags();
    MatchingOfFour(Fixture(), "Rock");
  }

  /** Matching is case-sensitive: "hello" finds nothing on the fixture, which has no lower-case 'h'. */
  lemma FixtureLowercaseHello()
    ensures |Matching(Fixture(), "hello")| == 0
  {
    var f := Fixture();
    MissingCharNoMatch(f[0], "hello", 'h');
    MissingCharNoMatch(f[1], "hello", 'h');
    MissingCharNoMatch(f[2], "hello", 'h');
    MissingCharNoMatch(f[3], "hello", 'h');
    MatchingOfFour(f, "hello");
  }
}
