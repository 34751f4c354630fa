/**
 * `sorted(songs, key=lambda song: (song.album_number, song.track_number))`: Python's sort is
 * stable, so it is modelled as an insertion sort that puts each song after every song whose key
 * is not greater, and proved sorted, a permutation, and order-preserving among equal keys.
 */
module Ordering {
  import opened Songs

  function Key(s: SongRecord): (int, int) {
    (s.albumNumber, s.trackNumber)
  }

  /** Tuple comparison of the sort keys: album number first, then track number. */
  predicate KeyLe(a: SongRecord, b: SongRecord) {
    a.albumNumber < b.albumNumber || (a.albumNumber == b.albumNumber && a.trackNumber <= b.trackNumber)
  }

  predicate SortedByKey(s: seq<SongRecord>) {
    forall i, j :: 0 <= i < j < |s| ==> KeyLe(s[i], s[j])
  }

  /** Puts `x` after every song of `s` whose key is not greater than x's. */
  function Insert(x: SongRecord, s: seq<SongRecord>): (r: seq<SongRecord>)
    ensures multiset(r) == multiset(s) + multiset{x}
    decreases |s|
  {
    if s == [] then [x]
    else if KeyLe(s[0], x) then
      assert s == [s[0]] + s[1..];
      [s[0]] + Insert(x, s[1..])
    else [x] + s
  }

  /** The stable sort by (album_number, track_number). */
  function SortByKey(s: seq<SongRecord>): seq<SongRecord>
    decreases |s|
  {
    if s == [] then [] else Insert(s[|s| - 1], SortByKey(s[..|s| - 1]))
  }

  /** The songs of `s` whose key is `k`, in their order in `s`. */
  function WithKey(s: seq<SongRecord>, k: (int, int)): seq<SongRecord>
    decreases |s|
  {
    if s == [] then [] else WithKey(s[..|s| - 1], k) + (if Key(s[|s| - 1]) == k then [s[|s| - 1]] else [])
  }

  /** The tail of a sorted list is sorted. */
  lemma SortedTail(s: seq<SongRecord>)
    requires SortedByKey(s) && s != []
    ensures SortedByKey(s[1..])
  {
    var t := s[1..];
    forall i, j | 0 <= i < j < |t|
      ensures KeyLe(t[i], t[j])
    {
      assert t[i] == s[i + 1] && t[j] == s[j + 1];
    }
  }

  /** A song whose key is not greater than any key of a sorted list can go in front of it. */
  lemma ConsSorted(h: SongRecord, t: seq<SongRecord>)
    requires SortedByKey(t)
    requires forall j :: 0 <= j < |t| ==> KeyLe(h, t[j])
    ensures SortedByKey([h] + t)
  {
    var r := [h] + t;
    forall i, j | 0 <= i < j < |r|
      ensures KeyLe(r[i], r[j])
    {
      if i > 0 {
        assert r[i] == t[i - 1] && r[j] == t[j - 1];
      } else {
        assert r[j] == t[j - 1];
      }
    }
  }

  /** The head of a sorted list is not above any song of the tail with `x` inserted. */
  lemma HeadBelowInsert(x: SongRecord, s: seq<SongRecord>)
    requires SortedByKey(s) && s != [] && KeyLe(s[0], x)
    ensures forall j :: 0 <= j < |Insert(x, s[1..])| ==> KeyLe(s[0], Insert(x, s[1..])[j])
  {
    var t := Insert(x, s[1..]);
    forall j | 0 <= j < |t|
      ensures KeyLe(s[0], t[j])
    {
      assert t[j] in multiset(t);
      assert t[j] in multiset(s[1..]) + multiset{x};
      if t[j] != x {
        assert t[j] in s[1..];
      }
    }
  }

  lemma {:induction false} InsertSorted(x: SongRecord, s: seq<SongRecord>)
    requires SortedByKey(s)
    ensures SortedByKey(Insert(x, s))
    decreases |s|
  {
    if s != [] {
      if KeyLe(s[0], x) {
        SortedTail(s);
        InsertSorted(x, s[1..]);
        HeadBelowInsert(x, s);
        ConsSorted(s[0], Insert(x, s[1..]));
      } else {
        ConsSorted(x, s);
      }
    }
  }

  /** The result of the sort is ordered by (album_number, track_number). */
  lemma {:induction false} SortByKeySorted(s: seq<SongRecord>)
    ensures SortedByKey(SortByKey(s))
    decreases |s|
  {
    if s != [] {
      SortByKeySorted(s[..|s| - 1]);
      InsertSorted(s[|s| - 1], SortByKey(s[..|s| - 1]));
    }
  }

  /** The result of the sort is a permutation of its input. */
  lemma {:induction false} SortByKeyPermutation(s: seq<SongRecord>)
    ensures multiset(SortByKey(s)) == multiset(s)
    decreases |s|
  {
    if s != [] {
      SortByKeyPermutation(s[..|s| - 1]);
      assert s == s[..|s| - 1] + [s[|s| - 1]];
    }
  }

  lemma {:induction false} WithKeyConcat(a: seq<SongRecord>, b: seq<SongRecord>, k: (int, int))
    ensures WithKey(a + b, k) == WithKey(a, k) + WithKey(b, k)
    decreases |b|
  {
    if b == [] {
      assert a + b == a;
    } else {
      var b' := b[..|b| - 1];
      assert (a + b)[..|a + b| - 1] == a + b';
      WithKeyConcat(a, b', k);
    }
  }

  /** Songs whose keys are all greater than x's include none with x's key. */
  lemma {:induction false} WithKeyAllGreater(s: seq<SongRecord>, x: SongRecord)
    requires forall i :: 0 <= i < |s| ==> !KeyLe(s[i], x)
    ensures WithKey(s, Key(x)) == []
    decreases |s|
  {
    if s != [] {
      WithKeyAllGreater(s[..|s| - 1], x);
    }
  }

  lemma WithKeySingleton(x: SongRecord, k: (int, int))
    ensures WithKey([x], k) == if Key(x) == k then [x] else []
  {
    assert [x][..0] == [];
  }

  /** In a sorted list whose first key is greater than x's, every key is. */
  lemma SortedAllGreater(s: seq<SongRecord>, x: SongRecord)
    requires SortedByKey(s) && s != [] && !KeyLe(s[0], x)
    ensures forall i :: 0 <= i < |s| ==> !KeyLe(s[i], x)
  {
    forall i | 0 < i < |s|
      ensures !KeyLe(s[i], x)
    {
      assert KeyLe(s[0], s[i]);
    }
  }

  /** Putting one song in front of two lists keeps their key-`k` songs in the same relation. */
  lemma WithKeyCons(h: SongRecord, u: seq<SongRecord>, v: seq<SongRecord>, tail: seq<SongRecord>, k: (int, int))
    requires WithKey(u, k) == WithKey(v, k) + tail
    ensures WithKey([h] + u, k) == WithKey([h] + v, k) + tail
  {
    WithKeyConcat([h], u, k);
    WithKeyConcat([h], v, k);
    assert WithKey([h], k) + (WithKey(v, k) + tail) == (WithKey([h], k) + WithKey(v, k)) + tail;
  }

  /** When `x` goes in front of a sorted list, no song of the list has x's key. */
  lemma WithKeyInsertInFront(x: SongRecord, s: seq<SongRecord>, k: (int, int))
    requires SortedByKey(s)
    requires s == [] || !KeyLe(s[0], x)
    ensures WithKey(Insert(x, s), k) == WithKey(s, k) + (if Key(x) == k then [x] else [])
  {
    WithKeySingleton(x, k);
    if s == [] {
      assert Insert(x, s) == [x];
      assert [x] == [] + [x];
    } else {
      assert Insert(x, s) == [x] + s;
      WithKeyConcat([x], s, k);
      if Key(x) == k {
        SortedAllGreater(s, x);
        WithKeyAllGreater(s, x);
        assert WithKey(Insert(x, s), k) == [x] + [];
      } else {
        assert WithKey(Insert(x, s), k) == [] + WithKey(s, k);
      }
    }
  }

  /** Inserting `x` puts it after every song with its key, and moves no other song of that key. */
  lemma {:induction false} WithKeyInsert(x: SongRecord, s: seq<SongRecord>, k: (int, int))
    requires SortedByKey(s)
    ensures WithKey(Insert(x, s), k) == WithKey(s, k) + (if Key(x) == k then [x] else [])
    decreases |s|
  {
    if s != [] && KeyLe(s[0], x) {
      SortedTail(s);
      WithKeyInsert(x, s[1..], k);
      assert Insert(x, s) == [s[0]] + Insert(x, s[1..]);
      WithKeyCons(s[0], Insert(x, s[1..]), s[1..], if Key(x) == k then [x] else [], k);
      assert [s[0]] + s[1..] == s;
    } else {
      WithKeyInsertInFront(x, s, k);
    }
  }

  /** Stability: for every key, the songs with that key keep their relative order. */
  lemma {:induction false} SortByKeyStable(s: seq<SongRecord>, k: (int, int))
    ensures WithKey(SortByKey(s), k) == WithKey(s, k)
    decreases |s|
  {
    if s != [] {
      SortByKeyStable(s[..|s| - 1], k);
      SortByKeySorted(s[..|s| - 1]);
      WithKeyInsert(s[|s| - 1], SortByKey(s[..|s| - 1]), k);
    }
  }
}
