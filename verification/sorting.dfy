/**
 * The two key orders used to reorder the catalog (src/utility.rs:74-88) and a
 * stable sort over them. Rust's `sort_by` is stable, so its result is fully
 * determined by the comparator: sorted by key, with tracks of equal key in
 * their input order. `Sort` is that result, built by insertion; `SortInPlace`
 * computes it on the slice.
 */
module Sorting {
  import opened Catalog

  /** ASCII stand-in for `char::to_lowercase`. */
  function LowerChar(c: char): char
  {
    if 'A' <= c <= 'Z' then (c as int + 32) as char else c
  }

  /** ASCII stand-in for `str::to_lowercase`. */
  function Lower(s: string): string
  {
    if s == [] then [] else [LowerChar(s[0])] + Lower(s[1..])
  }

  /** `Ord for str`: lexicographic order, a proper prefix before its extensions. */
  predicate StrLess(a: string, b: string)
    decreases |a|
  {
    if |a| == 0 then |b| > 0
    else if |b| == 0 then false
    else a[0] < b[0] || (a[0] == b[0] && StrLess(a[1..], b[1..]))
  }

  lemma {:induction false} StrLessIrreflexive(a: string)
    ensures !StrLess(a, a)
    decreases |a|
  {
    if |a| > 0 {
      StrLessIrreflexive(a[1..]);
    }
  }

  lemma {:induction false} StrLessTransitive(a: string, b: string, c: string)
    requires StrLess(a, b) && StrLess(b, c)
    ensures StrLess(a, c)
    decreases |a|
  {
    if |a| > 0 && a[0] == b[0] && b[0] == c[0] {
      StrLessTransitive(a[1..], b[1..], c[1..]);
    }
  }

  lemma {:induction false} StrLessTotal(a: string, b: string)
    ensures a == b || StrLess(a, b) || StrLess(b, a)
    decreases |a|
  {
    if |a| > 0 && |b| > 0 && a[0] == b[0] {
      StrLessTotal(a[1..], b[1..]);
      if a[1..] == b[1..] {
        assert a == [a[0]] + a[1..] && b == [b[0]] + b[1..];
      }
    }
  }

  /** A comparison key: a primary string and a secondary string for ties. */
  datatype SortKey = SortKey(primary: string, secondary: string)

  /** The comparator: primary keys first, secondary keys when the primary ones are equal. */
  predicate KeyLess(a: SortKey, b: SortKey)
  {
    StrLess(a.primary, b.primary) || (a.primary == b.primary && StrLess(a.secondary, b.secondary))
  }

  /** `KeyLess` is a strict total order on keys. */
  lemma KeyLessStrictTotal(a: SortKey, b: SortKey, c: SortKey)
    ensures !KeyLess(a, a)
    ensures KeyLess(a, b) && KeyLess(b, c) ==> KeyLess(a, c)
    ensures a == b || KeyLess(a, b) || KeyLess(b, a)
  {
    StrLessIrreflexive(a.primary);
    StrLessIrreflexive(a.secondary);
    StrLessTotal(a.primary, b.primary);
    StrLessTotal(a.secondary, b.secondary);
    if KeyLess(a, b) && KeyLess(b, c) {
      if StrLess(a.primary, b.primary) && StrLess(b.primary, c.primary) {
        StrLessTransitive(a.primary, b.primary, c.primary);
      } else if a.primary == b.primary == c.primary {
        StrLessTransitive(a.secondary, b.secondary, c.secondary);
      }
    }
  }

  /** "Not greater" is transitive. */
  lemma KeyLeTransitive(a: SortKey, b: SortKey, c: SortKey)
    requires !KeyLess(b, a) && !KeyLess(c, b)
    ensures !KeyLess(c, a)
  {
    KeyLessStrictTotal(a, b, c);
    KeyLessStrictTotal(b, c, a);
    KeyLessStrictTotal(c, a, b);
    KeyLessStrictTotal(a, c, b);
  }

  /** The two comparators of src/utility.rs: by name, or by author then name. */
  datatype SortBy = ByName | ByAuthorThenName

  /** The key each comparator compares; sorting by name compares names only. */
  function KeyOf(cmp: SortBy, t: Audio): SortKey
  {
    match cmp
    case ByName => SortKey(Lower(t.name), "")
    case ByAuthorThenName => SortKey(Lower(t.author), Lower(t.name))
  }

  ghost predicate Sorted(cmp: SortBy, s: seq<Audio>)
  {
    forall i, j :: 0 <= i < j < |s| ==> !KeyLess(KeyOf(cmp, s[j]), KeyOf(cmp, s[i]))
  }

  /** The tracks of `s` whose key is `k`, in order. */
  function WithKey(cmp: SortBy, s: seq<Audio>, k: SortKey): seq<Audio>
  {
    if s == [] then []
    else WithKey(cmp, s[..|s| - 1], k) + Keyed(cmp, s[|s| - 1], k)
  }

  /** `[x]` when `x` has key `k`, empty otherwise. */
  function Keyed(cmp: SortBy, x: Audio, k: SortKey): seq<Audio>
  {
    if KeyOf(cmp, x) == k then [x] else []
  }

  lemma WithKeySingleton(cmp: SortBy, x: Audio, k: SortKey)
    ensures WithKey(cmp, [x], k) == Keyed(cmp, x, k)
  {
    assert [x][..0] == [];
  }

  /** Inserts `x` after every element of `s` whose key is not greater than its own. */
  function Insert(cmp: SortBy, x: Audio, s: seq<Audio>): seq<Audio>
  {
    if s == [] || !KeyLess(KeyOf(cmp, x), KeyOf(cmp, s[|s| - 1])) then s + [x]
    else Insert(cmp, x, s[..|s| - 1]) + [s[|s| - 1]]
  }

  /** The stable sort of `s`: its elements inserted one by one, in input order. */
  function Sort(cmp: SortBy, s: seq<Audio>): seq<Audio>
  {
    if s == [] then [] else Insert(cmp, s[|s| - 1], Sort(cmp, s[..|s| - 1]))
  }

  /** Where `Insert` puts `x`: right after the last element not greater than it. */
  lemma {:induction false} InsertAt(cmp: SortBy, x: Audio, s: seq<Audio>, p: nat)
    requires p <= |s|
    requires p == 0 || !KeyLess(KeyOf(cmp, x), KeyOf(cmp, s[p - 1]))
    requires forall m :: p <= m < |s| ==> KeyLess(KeyOf(cmp, x), KeyOf(cmp, s[m]))
    ensures Insert(cmp, x, s) == s[..p] + [x] + s[p..]
    decreases |s|
  {
    if p < |s| {
      var init, last := s[..|s| - 1], s[|s| - 1];
      assert Insert(cmp, x, s) == Insert(cmp, x, init) + [last];
      InsertAt(cmp, x, init, p);
      assert init[..p] == s[..p];
      assert init[p..] + [last] == s[p..];
      Regroup(s[..p] + [x], init[p..], [last]);
    } else {
      assert s[..p] == s && s[p..] == [];
    }
  }

  lemma Regroup<T>(a: seq<T>, b: seq<T>, c: seq<T>)
    ensures a + b + c == a + (b + c)
  {
  }

  lemma {:induction false} InsertMultiset(cmp: SortBy, x: Audio, s: seq<Audio>)
    ensures |Insert(cmp, x, s)| == |s| + 1
    ensures multiset(Insert(cmp, x, s)) == multiset(s) + multiset{x}
    decreases |s|
  {
    if s != [] && KeyLess(KeyOf(cmp, x), KeyOf(cmp, s[|s| - 1])) {
      var init := s[..|s| - 1];
      InsertMultiset(cmp, x, init);
      assert s == init + [s[|s| - 1]];
    }
  }

  lemma {:induction false} InsertSorted(cmp: SortBy, x: Audio, s: seq<Audio>)
    requires Sorted(cmp, s)
    ensures Sorted(cmp, Insert(cmp, x, s))
    decreases |s|
  {
    var kx := KeyOf(cmp, x);
    if s == [] {
    } else if !KeyLess(kx, KeyOf(cmp, s[|s| - 1])) {
      var r := s + [x];
      forall i, j | 0 <= i < j < |r| ensures !KeyLess(KeyOf(cmp, r[j]), KeyOf(cmp, r[i])) {
        if j == |s| && i < |s| - 1 {
          KeyLeTransitive(KeyOf(cmp, s[i]), KeyOf(cmp, s[|s| - 1]), kx);
        }
      }
    } else {
      var init, last := s[..|s| - 1], s[|s| - 1];
      InsertSorted(cmp, x, init);
      var r0 := Insert(cmp, x, init);
      InsertMultiset(cmp, x, init);
      var r := r0 + [last];
      forall i, j | 0 <= i < j < |r| ensures !KeyLess(KeyOf(cmp, r[j]), KeyOf(cmp, r[i])) {
        if j == |r0| {
          assert r[i] in multiset(r0);
          if r[i] == x {
            KeyLessStrictTotal(kx, KeyOf(cmp, last), kx);
          } else {
            assert r[i] in init;
            var m :| 0 <= m < |init| && init[m] == r[i];
            assert s[m] == r[i];
          }
        }
      }
    }
  }

  lemma {:induction false} WithKeyConcat(cmp: SortBy, a: seq<Audio>, b: seq<Audio>, k: SortKey)
    ensures WithKey(cmp, a + b, k) == WithKey(cmp, a, k) + WithKey(cmp, b, k)
    decreases |b|
  {
    if b != [] {
      var binit := b[..|b| - 1];
      WithKeyConcat(cmp, a, binit, k);
      assert (a + b)[..|a + b| - 1] == a + binit;
    } else {
      assert a + b == a;
    }
  }

  /** `Insert` adds `x` after every element sharing its key. */
  lemma {:induction false} InsertStable(cmp: SortBy, x: Audio, s: seq<Audio>, k: SortKey)
    ensures WithKey(cmp, Insert(cmp, x, s), k) == WithKey(cmp, s, k) + Keyed(cmp, x, k)
    decreases |s|
  {
    if s == [] || !KeyLess(KeyOf(cmp, x), KeyOf(cmp, s[|s| - 1])) {
      WithKeyConcat(cmp, s, [x], k);
      WithKeySingleton(cmp, x, k);
    } else {
      InsertStableStep(cmp, x, s, k);
    }
  }

  lemma {:induction false} InsertStableStep(cmp: SortBy, x: Audio, s: seq<Audio>, k: SortKey)
    requires s != [] && KeyLess(KeyOf(cmp, x), KeyOf(cmp, s[|s| - 1]))
    ensures WithKey(cmp, Insert(cmp, x, s), k) == WithKey(cmp, s, k) + Keyed(cmp, x, k)
    decreases |s|, 0
  {
    var init, last := s[..|s| - 1], s[|s| - 1];
    var xs, ls := Keyed(cmp, x, k), Keyed(cmp, last, k);
    var inserted := Insert(cmp, x, init);
    assert Insert(cmp, x, s) == inserted + [last];
    InsertStable(cmp, x, init, k);
    WithKeyConcat(cmp, inserted, [last], k);
    WithKeySingleton(cmp, last, k);
    assert WithKey(cmp, Insert(cmp, x, s), k) == WithKey(cmp, init, k) + xs + ls;
    assert WithKey(cmp, s, k) == WithKey(cmp, init, k) + ls;
    KeyLessStrictTotal(KeyOf(cmp, x), KeyOf(cmp, x), KeyOf(cmp, x));
    SwapAroundEmpty(WithKey(cmp, init, k), xs, ls);
  }

  /** Two sequences of which one is empty can trade places. */
  lemma SwapAroundEmpty<T>(a: seq<T>, b: seq<T>, c: seq<T>)
    requires b == [] || c == []
    ensures a + b + c == a + c + b
  {
    if b == [] {
      assert a + b == a;
      assert a + c + b == a + c;
    } else {
      assert a + c == a;
      assert a + b + c == a + b;
    }
  }

  /** The sort is a permutation of its input. */
  lemma {:induction false} SortPermutation(cmp: SortBy, s: seq<Audio>)
    ensures |Sort(cmp, s)| == |s|
    ensures multiset(Sort(cmp, s)) == multiset(s)
    decreases |s|
  {
    if s != [] {
      var init, last := s[..|s| - 1], s[|s| - 1];
      assert s == init + [last];
      SortPermutation(cmp, init);
      InsertMultiset(cmp, last, Sort(cmp, init));
    }
  }

  /** The sort is nondecreasing by key. */
  lemma {:induction false} SortSorted(cmp: SortBy, s: seq<Audio>)
    ensures Sorted(cmp, Sort(cmp, s))
    decreases |s|
  {
    if s != [] {
      SortSorted(cmp, s[..|s| - 1]);
      InsertSorted(cmp, s[|s| - 1], Sort(cmp, s[..|s| - 1]));
    }
  }

  /** The sort is stable: the tracks of each key keep their input order. */
  lemma {:induction false} SortStable(cmp: SortBy, s: seq<Audio>, k: SortKey)
    ensures WithKey(cmp, Sort(cmp, s), k) == WithKey(cmp, s, k)
    decreases |s|
  {
    if s != [] {
      SortStable(cmp, s[..|s| - 1], k);
      InsertStable(cmp, s[|s| - 1], Sort(cmp, s[..|s| - 1]), k);
    }
  }

  /**
   * Moves the elements of `a[..i]` whose key is greater than `x`'s one place to
   * the right, from the end, and returns the first index of the run moved: the
   * slot `x` belongs in.
   */
  method ShiftGreater(a: array<Audio>, i: nat, x: Audio, cmp: SortBy) returns (j: nat)
    requires i < a.Length
    modifies a
    ensures j <= i
    ensures forall m :: 0 <= m < j ==> a[m] == old(a[m])
    ensures forall m :: j < m <= i ==> a[m] == old(a[m - 1])
    ensures a[i + 1..] == old(a[i + 1..])
    ensures forall m :: j <= m < i ==> KeyLess(KeyOf(cmp, x), KeyOf(cmp, old(a[m])))
    ensures j == 0 || !KeyLess(KeyOf(cmp, x), KeyOf(cmp, old(a[j - 1])))
  {
    j := i;
    while j > 0 && KeyLess(KeyOf(cmp, x), KeyOf(cmp, a[j - 1]))
      invariant 0 <= j <= i
      invariant forall m :: 0 <= m < j ==> a[m] == old(a[m])
      invariant forall m :: j < m <= i ==> a[m] == old(a[m - 1])
      invariant a[i + 1..] == old(a[i + 1..])
      invariant forall m :: j <= m < i ==> KeyLess(KeyOf(cmp, x), KeyOf(cmp, old(a[m])))
    {
      a[j] := a[j - 1];
      j := j - 1;
    }
  }

  /** One pass of insertion: `a[i]` moves left past the greater keys of the sorted prefix. */
  method InsertLast(a: array<Audio>, i: nat, cmp: SortBy)
    requires i < a.Length
    modifies a
    ensures a[..i + 1] == Insert(cmp, old(a[i]), old(a[..i]))
    ensures a[i + 1..] == old(a[i + 1..])
  {
    ghost var done := a[..i];
    var x := a[i];
    var j := ShiftGreater(a, i, x, cmp);
    a[j] := x;
    InsertAt(cmp, x, done, j);
    Placed(a[..i + 1], done, x, j);
  }

  /** A sequence that holds `done[..j]`, then `x`, then `done[j..]`, index by index, is that concatenation. */
  lemma Placed<T>(r: seq<T>, done: seq<T>, x: T, j: nat)
    requires j <= |done| && |r| == |done| + 1
    requires forall m :: 0 <= m < j ==> r[m] == done[m]
    requires r[j] == x
    requires forall m :: j < m < |r| ==> r[m] == done[m - 1]
    ensures r == done[..j] + [x] + done[j..]
  {
  }

  /** `slice::sort_by` with the comparator `cmp`: a stable insertion sort in place. */
  method SortInPlace(a: array<Audio>, cmp: SortBy)
    modifies a
    ensures a[..] == Sort(cmp, old(a[..]))
  {
    ghost var input := a[..];
    for i := 0 to a.Length
      invariant a[..i] == Sort(cmp, input[..i])
      invariant a[i..] == input[i..]
    {
      assert input[..i + 1] == input[..i] + [a[i]];
      InsertLast(a, i, cmp);
      assert input[..i + 1][..i] == input[..i];
    }
    assert input[..a.Length] == input;
  }
}
