/**
 * What both clients do to a file's bytes: cut them into fixed-size chunks
 * on upload, and on download put the chunk list back in index order and
 * join the pieces.
 */
module Chunking {
  import opened Common
  import opened Records

  /** The chunk size both clients use: 1 MiB. */
  const ChunkSize: nat := MiB

  /** The pieces joined in order. */
  function Concat(pieces: seq<Bytes>): Bytes {
    if |pieces| == 0 then [] else pieces[0] + Concat(pieces[1..])
  }

  /** Non-empty pieces make up no bytes only when there are no pieces. */
  lemma ConcatNothing(pieces: seq<Bytes>)
    requires forall i :: 0 <= i < |pieces| ==> |pieces[i]| > 0
    ensures Concat(pieces) == [] ==> pieces == []
  {
    if |pieces| > 0 {
      assert |Concat(pieces)| >= |pieces[0]|;
    }
  }

  /** Appending one piece appends its bytes. */
  lemma {:induction false} ConcatAppend(pieces: seq<Bytes>, last: Bytes)
    ensures Concat(pieces + [last]) == Concat(pieces) + last
    decreases |pieces|
  {
    if |pieces| == 0 {
      assert pieces + [last] == [last];
    } else {
      assert (pieces + [last])[1..] == pieces[1..] + [last];
      ConcatAppend(pieces[1..], last);
    }
  }

  /**
   * split_file_into_chunks: reads the file `chunkSize` bytes at a time
   * until a read comes back empty. A read of 0 bytes is empty at once, so a
   * size of 0 gives no chunks; a negative size reads the whole rest.
   */
  method SplitIntoChunks(data: Bytes, chunkSize: int) returns (chunks: seq<Bytes>)
    ensures Concat(chunks) == (if chunkSize == 0 then [] else data)
    ensures forall i :: 0 <= i < |chunks| ==> |chunks[i]| > 0
    ensures chunkSize > 0 ==> forall i :: 0 <= i < |chunks| ==> |chunks[i]| <= chunkSize
    ensures chunkSize > 0 ==> forall i :: 0 <= i < |chunks| - 1 ==> |chunks[i]| == chunkSize
    ensures chunkSize < 0 ==> |chunks| <= 1
    ensures |data| == 0 ==> chunks == []
  {
    chunks := [];
    if chunkSize == 0 || |data| == 0 {
      return;
    }
    if chunkSize < 0 {
      chunks := [data];
      assert Concat(chunks) == data + Concat([]);
      return;
    }
    var pos := 0;
    while pos < |data|
      invariant 0 <= pos <= |data|
      invariant Concat(chunks) == data[..pos]
      invariant forall i :: 0 <= i < |chunks| ==> 0 < |chunks[i]| <= chunkSize
      invariant forall i :: 0 <= i < |chunks| - 1 ==> |chunks[i]| == chunkSize
      invariant |chunks| > 0 && pos < |data| ==> |chunks[|chunks| - 1]| == chunkSize
      decreases |data| - pos
    {
      var end := if pos + chunkSize > |data| then |data| else pos + chunkSize;
      AppendSlice(data, chunks, pos, end);
      chunks := chunks + [data[pos..end]];
      pos := end;
    }
    assert data[..pos] == data;
  }

  /** One more slice read from the data extends the joined prefix to the end of that slice. */
  lemma AppendSlice(data: Bytes, chunks: seq<Bytes>, pos: nat, end: nat)
    requires pos <= end <= |data|
    requires Concat(chunks) == data[..pos]
    ensures Concat(chunks + [data[pos..end]]) == data[..end]
  {
    ConcatAppend(chunks, data[pos..end]);
    assert data[..pos] + data[pos..end] == data[..end];
  }

  /** The chunk list is in non-decreasing index order. */
  predicate SortedByIndex(ps: seq<ChunkPlacement>) {
    forall i, j :: 0 <= i < j < |ps| ==> ps[i].index <= ps[j].index
  }

  /** Putting an entry no larger than every entry of a sorted list in front keeps it sorted. */
  lemma ConsSorted(x: ChunkPlacement, rest: seq<ChunkPlacement>)
    requires SortedByIndex(rest)
    requires forall q :: q in rest ==> x.index <= q.index
    ensures SortedByIndex([x] + rest)
  {
    var r := [x] + rest;
    forall i, j | 0 <= i < j < |r|
      ensures r[i].index <= r[j].index
    {
      assert r[j] == rest[j - 1];
      if i > 0 {
        assert r[i] == rest[i - 1];
      } else {
        assert r[j] in rest;
      }
    }
  }

  /** Puts `p` into a sorted list ahead of the first entry with a larger or equal index. */
  function InsertByIndex(p: ChunkPlacement, ps: seq<ChunkPlacement>): (r: seq<ChunkPlacement>)
    requires SortedByIndex(ps)
    ensures SortedByIndex(r)
    ensures multiset(r) == multiset(ps) + multiset{p}
    ensures |r| == |ps| + 1
    ensures forall q :: q in r ==> q == p || q in ps
  {
    if |ps| == 0 || p.index <= ps[0].index then
      assert forall q :: q in ps ==> p.index <= q.index by {
        forall q | q in ps
          ensures p.index <= q.index
        {
          var k :| 0 <= k < |ps| && ps[k] == q;
          assert ps[0].index <= ps[k].index;
        }
      }
      ConsSorted(p, ps);
      [p] + ps
    else
      assert ps == [ps[0]] + ps[1..];
      assert SortedByIndex(ps[1..]);
      var rest := InsertByIndex(p, ps[1..]);
      assert forall q :: q in ps[1..] ==> ps[0].index <= q.index;
      ConsSorted(ps[0], rest);
      [ps[0]] + rest
  }

  /**
   * `chunks.sort(key=lambda x: x['index'])`, as an insertion sort: the
   * result is ordered by index and holds exactly the same entries; it is
   * stable (SortIsStable).
   */
  function SortByIndex(ps: seq<ChunkPlacement>): (r: seq<ChunkPlacement>)
    ensures SortedByIndex(r)
    ensures multiset(r) == multiset(ps)
    ensures |r| == |ps|
  {
    if |ps| == 0 then []
    else
      assert ps == [ps[0]] + ps[1..];
      InsertByIndex(ps[0], SortByIndex(ps[1..]))
  }

  /** The entries with index k, in list order. */
  function WithIndex(ps: seq<ChunkPlacement>, k: int): seq<ChunkPlacement> {
    if |ps| == 0 then []
    else (if ps[0].index == k then [ps[0]] else []) + WithIndex(ps[1..], k)
  }

  /** Picking by index from a list with one more entry in front. */
  lemma WithIndexCons(x: ChunkPlacement, rest: seq<ChunkPlacement>, k: int)
    ensures WithIndex([x] + rest, k) == (if x.index == k then [x] else []) + WithIndex(rest, k)
  {
    assert ([x] + rest)[1..] == rest;
  }

  /** Inserting puts `p` ahead of every entry with the same index and keeps their order. */
  lemma {:induction false} InsertKeepsEqualOrder(p: ChunkPlacement, ps: seq<ChunkPlacement>, k: int)
    requires SortedByIndex(ps)
    ensures WithIndex(InsertByIndex(p, ps), k) == (if p.index == k then [p] else []) + WithIndex(ps, k)
    decreases |ps|
  {
    if |ps| == 0 || p.index <= ps[0].index {
      WithIndexCons(p, ps, k);
    } else {
      assert SortedByIndex(ps[1..]);
      var rest := InsertByIndex(p, ps[1..]);
      assert InsertByIndex(p, ps) == [ps[0]] + rest;
      InsertKeepsEqualOrder(p, ps[1..], k);
      WithIndexCons(ps[0], rest, k);
      WithIndexCons(ps[0], ps[1..], k);
      assert [ps[0]] + ps[1..] == ps;
    }
  }

  /**
   * The sort is stable: entries that share an index keep their relative
   * order, as Python's list sort guarantees.
   */
  lemma {:induction false} SortIsStable(ps: seq<ChunkPlacement>, k: int)
    ensures WithIndex(SortByIndex(ps), k) == WithIndex(ps, k)
    decreases |ps|
  {
    if |ps| > 0 {
      SortIsStable(ps[1..], k);
      InsertKeepsEqualOrder(ps[0], SortByIndex(ps[1..]), k);
    }
  }

  /** A list already in index order comes back unchanged, so an upload's own order survives the sort. */
  lemma {:induction false} SortKeepsSorted(ps: seq<ChunkPlacement>)
    requires SortedByIndex(ps)
    ensures SortByIndex(ps) == ps
    decreases |ps|
  {
    if |ps| > 0 {
      assert SortedByIndex(ps[1..]);
      SortKeepsSorted(ps[1..]);
      assert ps == [ps[0]] + ps[1..];
    }
  }

  /** Entries numbered 0, 1, 2, ... in list order are sorted. */
  lemma PositionalIndexSorted(ps: seq<ChunkPlacement>)
    requires forall i :: 0 <= i < |ps| ==> ps[i].index == i
    ensures SortedByIndex(ps)
    ensures SortByIndex(ps) == ps
  {
    SortKeepsSorted(ps);
  }
}
