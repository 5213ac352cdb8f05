/**
 * A storage directory of a node, seen as a map from file name to file
 * contents, and the accounting over it: the number of bytes its files hold
 * (what `os.path.getsize` summed over `os.listdir` gives), the accumulator
 * loop that computes it, and how the total moves when one file is written or
 * removed.
 */
module Pools {
  import opened Common

  /** A directory: file name to file contents. */
  type Pool = map<string, Bytes>

  /** The bytes held by the files `names` of `pool`, in no particular order. */
  ghost function SumSizes(pool: Pool, names: set<string>): nat
    requires names <= pool.Keys
    decreases names
  {
    if names == {} then 0
    else
      var n :| n in names;
      |pool[n]| + SumSizes(pool, names - {n})
  }

  /** The bytes held by every file of the directory. */
  ghost function PoolBytes(pool: Pool): nat {
    SumSizes(pool, pool.Keys)
  }

  /** A file of `n` zero bytes: what a sparse file of apparent size n reads as. */
  function Zeros(n: nat): (z: Bytes)
    ensures |z| == n
    ensures forall i :: 0 <= i < n ==> z[i] == 0
  {
    seq(n, _ => 0)
  }

  /** Any file can be taken out first: the sum does not depend on the listing order. */
  lemma {:induction false} SumSizesRemove(pool: Pool, names: set<string>, n: string)
    requires names <= pool.Keys && n in names
    ensures SumSizes(pool, names) == |pool[n]| + SumSizes(pool, names - {n})
    decreases names
  {
    var m :| m in names && SumSizes(pool, names) == |pool[m]| + SumSizes(pool, names - {m});
    if m != n {
      SumSizesRemove(pool, names - {m}, n);
      SumSizesRemove(pool, names - {n}, m);
      assert names - {m} - {n} == names - {n} - {m};
    }
  }

  /** The sum over `names` only looks at the files named in `names`. */
  lemma {:induction false} SumSizesAgree(p: Pool, q: Pool, names: set<string>)
    requires names <= p.Keys && names <= q.Keys
    requires forall n :: n in names ==> p[n] == q[n]
    ensures SumSizes(p, names) == SumSizes(q, names)
    decreases names
  {
    if names != {} {
      var n :| n in names;
      SumSizesRemove(p, names, n);
      SumSizesRemove(q, names, n);
      SumSizesAgree(p, q, names - {n});
    }
  }

  lemma PoolBytesEmpty()
    ensures PoolBytes(map[]) == 0
  {
  }

  /** Removing a file takes exactly its bytes off the total. */
  lemma PoolBytesRemove(pool: Pool, n: string)
    requires n in pool
    ensures PoolBytes(pool - {n}) == PoolBytes(pool) - |pool[n]|
  {
    var rest := pool - {n};
    assert rest.Keys == pool.Keys - {n};
    SumSizesRemove(pool, pool.Keys, n);
    SumSizesAgree(rest, pool, pool.Keys - {n});
  }

  /** Writing a file replaces its old contents (if any) by the new ones in the total. */
  lemma PoolBytesUpdate(pool: Pool, n: string, data: Bytes)
    ensures PoolBytes(pool[n := data]) == PoolBytes(pool) - (if n in pool then |pool[n]| else 0) + |data|
  {
    var after := pool[n := data];
    assert after.Keys == pool.Keys + {n};
    SumSizesRemove(after, after.Keys, n);
    assert after.Keys - {n} == pool.Keys - {n};
    SumSizesAgree(after, pool, pool.Keys - {n});
    if n in pool {
      SumSizesRemove(pool, pool.Keys, n);
    } else {
      assert pool.Keys - {n} == pool.Keys;
    }
  }

  /**
   * The accumulator loop over a directory listing: adds up the size of
   * every file, visiting the names in whatever order the listing gives.
   */
  method TotalBytes(pool: Pool) returns (total: nat)
    ensures total == PoolBytes(pool)
  {
    total := 0;
    var rest := pool.Keys;
    while rest != {}
      invariant rest <= pool.Keys
      invariant total + SumSizes(pool, rest) == PoolBytes(pool)
      decreases rest
    {
      var n :| n in rest;
      SumSizesRemove(pool, rest, n);
      total := total + |pool[n]|;
      rest := rest - {n};
    }
  }
}
