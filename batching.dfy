/** The list work GetTracksAsync does on a playlist's tracks: the client-side
    offset window, the split into requests of at most 50 ids, the re-ordering
    of each answer by the position of its ids in the request (a stable
    OrderBy on List.IndexOf), and the stamping of the playlist's title. */
module Batching {
  import opened Common
  import opened Records

  /** The most ids SoundCloud accepts in one track request. */
  const BatchSize := 50

  // ---------------------------------------------------------------- window

  /** Skip(offset) when offset > 0, and the list itself otherwise: what is
      left is a suffix, with exactly `offset` tracks fewer when there were
      more than that and none at all otherwise. The limit plays no part. */
  function Window(ts: seq<Track>, offset: int): (r: seq<Track>)
    ensures offset <= 0 ==> r == ts
    ensures offset > 0 ==> |r| == (if offset >= |ts| then 0 else |ts| - offset)
    ensures r == ts[|ts| - |r|..]
  {
    if offset <= 0 then ts else if offset >= |ts| then [] else ts[offset..]
  }

  // -------------------------------------------------------------- chunking

  /** ChunkBy(size): consecutive pieces of `size` elements, the last one
      possibly shorter; an empty list has no pieces. */
  function Chunks<T>(xs: seq<T>, size: nat): (cs: seq<seq<T>>)
    requires size > 0
    ensures forall k :: 0 <= k < |cs| ==> 1 <= |cs[k]| <= size
    ensures |xs| == 0 <==> |cs| == 0
    decreases |xs|
  {
    if |xs| == 0 then []
    else if |xs| <= size then [xs]
    else [xs[..size]] + Chunks(xs[size..], size)
  }

  function Flatten<T>(cs: seq<seq<T>>): seq<T>
    decreases |cs|
  {
    if |cs| == 0 then [] else cs[0] + Flatten(cs[1..])
  }

  lemma FlattenSingle<T>(xs: seq<T>)
    ensures Flatten([xs]) == xs
  {
    assert [xs][1..] == [];
  }

  /** Nothing is lost, duplicated or moved: the chunks put back together are
      the list that was chunked. */
  lemma {:induction false} FlattenChunks<T>(xs: seq<T>, size: nat)
    requires size > 0
    ensures Flatten(Chunks(xs, size)) == xs
    decreases |xs|
  {
    if |xs| > size {
      var cs := Chunks(xs, size);
      assert cs[0] == xs[..size] && cs[1..] == Chunks(xs[size..], size);
      FlattenChunks(xs[size..], size);
      assert xs == xs[..size] + xs[size..];
    } else if |xs| > 0 {
      FlattenSingle(xs);
    }
  }

  /** Every chunk but the last is full. */
  lemma {:induction false} ChunksFull<T>(xs: seq<T>, size: nat)
    requires size > 0
    ensures forall k :: 0 <= k < |Chunks(xs, size)| - 1 ==> |Chunks(xs, size)[k]| == size
    decreases |xs|
  {
    if |xs| > size {
      var cs := Chunks(xs, size);
      assert cs[1..] == Chunks(xs[size..], size);
      ChunksFull(xs[size..], size);
      forall k | 1 <= k < |cs| - 1 ensures |cs[k]| == size {
        assert cs[k] == cs[1..][k - 1];
      }
    }
  }

  /** The number of chunks is the smallest c with c * size >= |xs|. */
  lemma {:induction false} ChunkCountBounds<T>(xs: seq<T>, size: nat)
    requires size > 0
    ensures (|Chunks(xs, size)| - 1) * size < |xs| <= |Chunks(xs, size)| * size
    decreases |xs|
  {
    var c := |Chunks(xs, size)|;
    if |xs| > size {
      ChunkCountBounds(xs[size..], size);
      var c' := |Chunks(xs[size..], size)|;
      assert c == c' + 1;
      assert (c - 1) * size == c' * size;
      assert c * size == c' * size + size;
      assert (c' - 1) * size == c' * size - size;
    } else if |xs| > 0 {
      assert c == 1;
    }
  }

  /** With requests of 50 ids, a list of n ids takes ceil(n / 50) requests. */
  lemma BatchCount<T>(xs: seq<T>)
    ensures |Chunks(xs, BatchSize)| == (|xs| + BatchSize - 1) / BatchSize
  {
    ChunkCountBounds(xs, BatchSize);
  }

  // ------------------------------------------------------------ re-ordering

  /** The sort key of OrderBy(x => ids.IndexOf(x.Id)). */
  function Key(ids: seq<int>, t: Track): (k: int)
    ensures k == -1 <==> t.id !in ids
    ensures 0 <= k ==> k < |ids| && ids[k] == t.id
    ensures 0 <= k ==> t.id !in ids[..k]
  {
    IndexOf(ids, t.id)
  }

  predicate SortedByKey(ids: seq<int>, ts: seq<Track>)
  {
    forall i, j :: 0 <= i < j < |ts| ==> Key(ids, ts[i]) <= Key(ids, ts[j])
  }

  /** Puts `t` in front of the first track whose key is not smaller. */
  function Insert(ids: seq<int>, t: Track, s: seq<Track>): (r: seq<Track>)
    ensures |r| == |s| + 1
    decreases |s|
  {
    if |s| == 0 || Key(ids, t) <= Key(ids, s[0]) then [t] + s
    else [s[0]] + Insert(ids, t, s[1..])
  }

  /** OrderBy(x => ids.IndexOf(x.Id)): a stable sort on the key. */
  function OrderByIndex(ids: seq<int>, ts: seq<Track>): (r: seq<Track>)
    ensures |r| == |ts|
    decreases |ts|
  {
    if |ts| == 0 then [] else Insert(ids, ts[0], OrderByIndex(ids, ts[1..]))
  }

  /** Insert adds `t` to the multiset of tracks and nothing else. */
  lemma {:induction false} InsertPermutes(ids: seq<int>, t: Track, s: seq<Track>)
    ensures multiset(Insert(ids, t, s)) == multiset(s) + multiset{t}
    decreases |s|
  {
    if |s| > 0 && Key(ids, t) > Key(ids, s[0]) {
      InsertPermutes(ids, t, s[1..]);
      assert s == [s[0]] + s[1..];
    }
  }

  /** The re-ordering is a permutation of the answer. */
  lemma {:induction false} OrderByIndexPermutes(ids: seq<int>, ts: seq<Track>)
    ensures multiset(OrderByIndex(ids, ts)) == multiset(ts)
    decreases |ts|
  {
    if |ts| > 0 {
      OrderByIndexPermutes(ids, ts[1..]);
      InsertPermutes(ids, ts[0], OrderByIndex(ids, ts[1..]));
      assert ts == [ts[0]] + ts[1..];
    }
  }

  /** Insert adds `t` and nothing else. */
  lemma InsertElems(ids: seq<int>, t: Track, s: seq<Track>, x: Track)
    ensures x in Insert(ids, t, s) <==> x == t || x in s
  {
    assert x in Insert(ids, t, s) <==> x in multiset(Insert(ids, t, s));
    assert x in s <==> x in multiset(s);
  }

  lemma SortedCons(ids: seq<int>, h: Track, rest: seq<Track>)
    requires SortedByKey(ids, rest)
    requires forall x | x in rest :: Key(ids, h) <= Key(ids, x)
    ensures SortedByKey(ids, [h] + rest)
  {
    var r := [h] + rest;
    forall i, j | 0 <= i < j < |r| ensures Key(ids, r[i]) <= Key(ids, r[j]) {
      assert r[j] == rest[j - 1];
      if i > 0 {
        assert r[i] == rest[i - 1];
      }
    }
  }

  lemma SortedHead(ids: seq<int>, s: seq<Track>, x: Track)
    requires SortedByKey(ids, s) && |s| > 0 && x in s[1..]
    ensures Key(ids, s[0]) <= Key(ids, x)
  {
    var m :| 0 <= m < |s[1..]| && s[1..][m] == x;
    assert s[m + 1] == x;
  }

  lemma {:induction false} InsertSorted(ids: seq<int>, t: Track, s: seq<Track>)
    requires SortedByKey(ids, s)
    ensures SortedByKey(ids, Insert(ids, t, s))
    decreases |s|
  {
    if |s| == 0 || Key(ids, t) <= Key(ids, s[0]) {
      forall x | x in s ensures Key(ids, t) <= Key(ids, x) {
        if x != s[0] {
          assert s == [s[0]] + s[1..];
          SortedHead(ids, s, x);
        }
      }
      SortedCons(ids, t, s);
    } else {
      var rest := Insert(ids, t, s[1..]);
      assert SortedByKey(ids, s[1..]) by {
        forall i, j | 0 <= i < j < |s[1..]| ensures Key(ids, s[1..][i]) <= Key(ids, s[1..][j]) {
          assert s[1..][i] == s[i + 1] && s[1..][j] == s[j + 1];
        }
      }
      InsertSorted(ids, t, s[1..]);
      forall x | x in rest ensures Key(ids, s[0]) <= Key(ids, x) {
        InsertElems(ids, t, s[1..], x);
        if x != t {
          SortedHead(ids, s, x);
        }
      }
      SortedCons(ids, s[0], rest);
    }
  }

  /** The re-ordered answer is sorted by the position of its ids in the request. */
  lemma {:induction false} OrderByIndexSorted(ids: seq<int>, ts: seq<Track>)
    ensures SortedByKey(ids, OrderByIndex(ids, ts))
    decreases |ts|
  {
    if |ts| > 0 {
      OrderByIndexSorted(ids, ts[1..]);
      InsertSorted(ids, ts[0], OrderByIndex(ids, ts[1..]));
    }
  }

  /** Tracks the request did not ask for (key -1) come before all others. */
  lemma UnrequestedFirst(ids: seq<int>, ts: seq<Track>, i: int, j: int)
    requires 0 <= i < j < |OrderByIndex(ids, ts)|
    requires OrderByIndex(ids, ts)[j].id !in ids
    ensures OrderByIndex(ids, ts)[i].id !in ids
  {
    OrderByIndexSorted(ids, ts);
  }

  /** The tracks with key `k`, in order. */
  function WithKey(ids: seq<int>, ts: seq<Track>, k: int): (r: seq<Track>)
    ensures forall i :: 0 <= i < |r| ==> Key(ids, r[i]) == k
    decreases |ts|
  {
    if |ts| == 0 then []
    else (if Key(ids, ts[0]) == k then [ts[0]] else []) + WithKey(ids, ts[1..], k)
  }

  lemma WithKeyCons(ids: seq<int>, t: Track, s: seq<Track>, k: int)
    ensures WithKey(ids, [t] + s, k) == (if Key(ids, t) == k then [t] else []) + WithKey(ids, s, k)
  {
    assert ([t] + s)[0] == t && ([t] + s)[1..] == s;
  }

  lemma {:induction false} WithKeyInsert(ids: seq<int>, t: Track, s: seq<Track>, k: int)
    ensures WithKey(ids, Insert(ids, t, s), k)
         == (if Key(ids, t) == k then [t] else []) + WithKey(ids, s, k)
    decreases |s|
  {
    if |s| == 0 || Key(ids, t) <= Key(ids, s[0]) {
      WithKeyCons(ids, t, s, k);
    } else {
      var rest := Insert(ids, t, s[1..]);
      assert Insert(ids, t, s) == [s[0]] + rest;
      WithKeyInsert(ids, t, s[1..], k);
      WithKeyCons(ids, s[0], rest, k);
      WithKeyCons(ids, s[0], s[1..], k);
      assert [s[0]] + s[1..] == s;
      var a := if Key(ids, s[0]) == k then [s[0]] else [];
      var b := if Key(ids, t) == k then [t] else [];
      assert a == [] || b == [];
      assert a + (b + WithKey(ids, s[1..], k)) == b + (a + WithKey(ids, s[1..], k));
    }
  }

  /** The sort is stable: tracks with the same key keep the order in which
      the server sent them. */
  lemma {:induction false} OrderByIndexStable(ids: seq<int>, ts: seq<Track>, k: int)
    ensures WithKey(ids, OrderByIndex(ids, ts), k) == WithKey(ids, ts, k)
    decreases |ts|
  {
    if |ts| > 0 {
      OrderByIndexStable(ids, ts[1..], k);
      WithKeyInsert(ids, ts[0], OrderByIndex(ids, ts[1..]), k);
    }
  }

  // ----------------------------------------------- restoring request order

  predicate NoDup(xs: seq<int>)
  {
    forall i, j :: 0 <= i < j < |xs| ==> xs[i] != xs[j]
  }

  lemma MultisetIdsCons(t: Track, s: seq<Track>)
    ensures multiset(Ids([t] + s)) == multiset{t.id} + multiset(Ids(s))
  {
    IdsConcat([t], s);
    assert Ids([t]) == [t.id];
  }

  lemma {:induction false} IdsInsert(ids: seq<int>, t: Track, s: seq<Track>)
    ensures multiset(Ids(Insert(ids, t, s))) == multiset(Ids(s)) + multiset{t.id}
    decreases |s|
  {
    if |s| == 0 || Key(ids, t) <= Key(ids, s[0]) {
      MultisetIdsCons(t, s);
    } else {
      var rest := Insert(ids, t, s[1..]);
      assert Insert(ids, t, s) == [s[0]] + rest;
      IdsInsert(ids, t, s[1..]);
      MultisetIdsCons(s[0], rest);
      MultisetIdsCons(s[0], s[1..]);
      assert [s[0]] + s[1..] == s;
    }
  }

  lemma {:induction false} IdsOrderByIndex(ids: seq<int>, ts: seq<Track>)
    ensures multiset(Ids(OrderByIndex(ids, ts))) == multiset(Ids(ts))
    decreases |ts|
  {
    if |ts| > 0 {
      var rest := OrderByIndex(ids, ts[1..]);
      assert OrderByIndex(ids, ts) == Insert(ids, ts[0], rest);
      IdsOrderByIndex(ids, ts[1..]);
      IdsInsert(ids, ts[0], rest);
      MultisetIdsCons(ts[0], ts[1..]);
      assert [ts[0]] + ts[1..] == ts;
    }
  }

  lemma NoDupSuffix(xs: seq<int>, d: int)
    requires NoDup(xs) && 0 <= d <= |xs|
    ensures NoDup(xs[d..])
  {
    forall i, j | 0 <= i < j < |xs[d..]| ensures xs[d..][i] != xs[d..][j] {
      assert xs[d..][i] == xs[i + d] && xs[d..][j] == xs[j + d];
    }
  }

  /** In a list without repetitions every element occurs once. */
  lemma {:induction false} NoDupCount(xs: seq<int>, x: int)
    requires NoDup(xs)
    ensures multiset(xs)[x] <= 1
    decreases |xs|
  {
    if |xs| > 0 {
      var init := xs[..|xs| - 1];
      assert xs == init + [xs[|xs| - 1]];
      NoDupCount(init, x);
      if x == xs[|xs| - 1] {
        assert x !in init;
      }
    }
  }

  /** A permutation of a list without repetitions has none either. */
  lemma NoDupPermutation(xs: seq<int>, ys: seq<int>)
    requires NoDup(xs) && multiset(xs) == multiset(ys)
    ensures NoDup(ys)
  {
    forall i, j | 0 <= i < j < |ys| ensures ys[i] != ys[j] {
      NoDupCount(xs, ys[i]);
      assert ys == ys[..j] + [ys[j]] + ys[j + 1..];
      assert ys[i] in ys[..j];
    }
  }

  /** A strictly increasing list of |ks| values in [0, |ks|) is 0, 1, 2, ... */
  lemma {:induction false} AtLeastIndex(ks: seq<int>, i: int)
    requires forall a, b :: 0 <= a < b < |ks| ==> ks[a] < ks[b]
    requires forall a :: 0 <= a < |ks| ==> 0 <= ks[a]
    requires 0 <= i < |ks|
    ensures ks[i] >= i
    decreases i
  {
    if i > 0 {
      AtLeastIndex(ks, i - 1);
    }
  }

  lemma {:induction false} AtMostIndex(ks: seq<int>, i: int)
    requires forall a, b :: 0 <= a < b < |ks| ==> ks[a] < ks[b]
    requires forall a :: 0 <= a < |ks| ==> ks[a] < |ks|
    requires 0 <= i < |ks|
    ensures ks[i] <= i
    decreases |ks| - i
  {
    if i < |ks| - 1 {
      AtMostIndex(ks, i + 1);
    }
  }

  function Keys(ids: seq<int>, ts: seq<Track>): (ks: seq<int>)
    ensures |ks| == |ts|
    ensures forall i :: 0 <= i < |ts| ==> ks[i] == Key(ids, ts[i])
  {
    seq(|ts|, i requires 0 <= i < |ts| => Key(ids, ts[i]))
  }

  /** Every returned id was requested, so every key is a position. */
  lemma KeysInRange(ids: seq<int>, r: seq<Track>)
    requires multiset(Ids(r)) == multiset(ids)
    ensures forall i :: 0 <= i < |r| ==> 0 <= Keys(ids, r)[i] < |ids|
  {
    forall i | 0 <= i < |r| ensures 0 <= Key(ids, r[i]) {
      assert Ids(r)[i] in multiset(ids);
    }
  }

  /** Sorted keys of tracks with distinct ids are strictly increasing. */
  lemma KeysStrict(ids: seq<int>, r: seq<Track>)
    requires SortedByKey(ids, r) && NoDup(Ids(r))
    requires forall i :: 0 <= i < |r| ==> 0 <= Keys(ids, r)[i]
    ensures forall a, b :: 0 <= a < b < |r| ==> Keys(ids, r)[a] < Keys(ids, r)[b]
  {
    var ks := Keys(ids, r);
    forall a, b | 0 <= a < b < |r| ensures ks[a] < ks[b] {
      assert Ids(r)[a] != Ids(r)[b];
    }
  }

  /** When the server answers with exactly the requested ids (no repeats),
      in whatever order, the re-ordering gives them back in request order. */
  lemma RestoresRequestOrder(ids: seq<int>, ts: seq<Track>)
    requires NoDup(ids)
    requires multiset(Ids(ts)) == multiset(ids)
    ensures Ids(OrderByIndex(ids, ts)) == ids
  {
    var r := OrderByIndex(ids, ts);
    IdsOrderByIndex(ids, ts);
    OrderByIndexSorted(ids, ts);
    var rid := Ids(r);
    assert |rid| == |ids| by {
      assert |multiset(rid)| == |multiset(ids)|;
    }
    NoDupPermutation(ids, rid);
    KeysInRange(ids, r);
    KeysStrict(ids, r);
    KeysIdentity(ids, r);
  }

  /** Tracks whose keys run strictly upwards through every position of the
      request are the requested ids, in request order. */
  lemma KeysIdentity(ids: seq<int>, r: seq<Track>)
    requires |r| == |ids|
    requires forall i :: 0 <= i < |r| ==> 0 <= Keys(ids, r)[i] < |ids|
    requires forall a, b :: 0 <= a < b < |r| ==> Keys(ids, r)[a] < Keys(ids, r)[b]
    ensures Ids(r) == ids
  {
    var ks := Keys(ids, r);
    forall i | 0 <= i < |r| ensures Ids(r)[i] == ids[i] {
      AtLeastIndex(ks, i);
      AtMostIndex(ks, i);
    }
  }

  // -------------------------------------------------------------- stamping

  /** Every track with its PlaylistName set to `title`, nothing else changed. */
  function Stamp(ts: seq<Track>, title: Option<string>): (r: seq<Track>)
    ensures |r| == |ts|
    ensures forall i :: 0 <= i < |ts| ==>
      r[i].playlistName == title && r[i].id == ts[i].id && r[i].title == ts[i].title
  {
    seq(|ts|, i requires 0 <= i < |ts| => ts[i].(playlistName := title))
  }

  /** Stamping twice leaves the second title; stamping keeps the ids. */
  lemma StampTwice(ts: seq<Track>, a: Option<string>, b: Option<string>)
    ensures Stamp(Stamp(ts, a), b) == Stamp(ts, b)
    ensures Ids(Stamp(ts, a)) == Ids(ts)
  {
  }

  lemma StampConcat(a: seq<Track>, b: seq<Track>, title: Option<string>)
    ensures Stamp(a + b, title) == Stamp(a, title) + Stamp(b, title)
  {
  }

  /** Stamping and re-ordering commute, since the key reads only the id. */
  lemma {:induction false} StampInsert(ids: seq<int>, t: Track, s: seq<Track>, title: Option<string>)
    ensures Stamp(Insert(ids, t, s), title) == Insert(ids, t.(playlistName := title), Stamp(s, title))
    decreases |s|
  {
    var s', t' := Stamp(s, title), t.(playlistName := title);
    assert Key(ids, t') == Key(ids, t);
    if |s| == 0 || Key(ids, t) <= Key(ids, s[0]) {
      assert Insert(ids, t, s) == [t] + s;
      StampConcat([t], s, title);
      assert Stamp([t], title) == [t'];
      assert |s| == 0 || Key(ids, s'[0]) == Key(ids, s[0]);
      assert Insert(ids, t', s') == [t'] + s';
    } else {
      var rest := Insert(ids, t, s[1..]);
      assert Insert(ids, t, s) == [s[0]] + rest;
      StampInsert(ids, t, s[1..], title);
      StampConcat([s[0]], rest, title);
      assert Stamp([s[0]], title) == [s'[0]];
      assert s'[1..] == Stamp(s[1..], title);
      assert Key(ids, s'[0]) == Key(ids, s[0]);
      assert Insert(ids, t', s') == [s'[0]] + Insert(ids, t', s'[1..]);
    }
  }

  lemma {:induction false} StampOrderByIndex(ids: seq<int>, ts: seq<Track>, title: Option<string>)
    ensures Stamp(OrderByIndex(ids, ts), title) == OrderByIndex(ids, Stamp(ts, title))
    decreases |ts|
  {
    if |ts| > 0 {
      StampOrderByIndex(ids, ts[1..], title);
      StampInsert(ids, ts[0], OrderByIndex(ids, ts[1..]), title);
      assert Stamp(ts, title)[1..] == Stamp(ts[1..], title);
    }
  }

  /** The `foreach (var track in tracks) track.PlaylistName = title` loop,
      on the tracks held in an array. */
  method StampAll(a: array<Track>, title: Option<string>)
    modifies a
    ensures a[..] == Stamp(old(a[..]), title)
  {
    var i := 0;
    while i < a.Length
      invariant 0 <= i <= a.Length
      invariant forall k :: 0 <= k < i ==> a[k] == old(a[k]).(playlistName := title)
      invariant forall k :: i <= k < a.Length ==> a[k] == old(a[k])
    {
      a[i] := a[i].(playlistName := title);
      i := i + 1;
    }
  }
}
