/** Routing of a store to the shard that owns it (get_shard). */
module ShardLocator {

  /** get_shard: the store code modulo the number of shards. Python's `%` with
      a positive divisor is the floor remainder, and Python keeps
      `a == (a // n) * n + a % n`; for a positive divisor Dafny's Euclidean `/`
      and `%` are Python's `//` and `%`, so negative codes land in range too. */
  function GetShard(code: int, n: nat): (s: nat)
    requires n > 0
    ensures s < n
    ensures code == n * (code / n) + s
  {
    code % n
  }

  /** A product of a positive multiple of n is at least n. */
  lemma MultipleAtLeast(d: int, n: nat)
    requires d >= 1
    ensures d * n >= n
  {
    var e := d - 1;
    assert d * n == e * n + n;
    assert e * n >= 0;
  }

  /** The two properties of GetShard's contract pin the shard down: an index in
      range that differs from the code by a multiple of n is that shard. */
  lemma GetShardUnique(code: int, n: nat, q: int, s: int)
    requires n > 0 && 0 <= s < n
    requires code == n * q + s
    ensures s == GetShard(code, n)
  {
    var t := GetShard(code, n);
    var p := code / n;
    assert (q - p) * n == t - s;
    if q - p >= 1 {
      MultipleAtLeast(q - p, n);
      assert false;
    } else if p - q >= 1 {
      MultipleAtLeast(p - q, n);
      assert false;
    }
  }

  /** Stores whose codes differ by a multiple of the shard count share a shard. */
  lemma GetShardPeriodic(code: int, n: nat, k: int)
    requires n > 0
    ensures GetShard(code + k * n, n) == GetShard(code, n)
  {
    var s, p := GetShard(code, n), code / n;
    assert code + k * n == n * (p + k) + s;
    GetShardUnique(code + k * n, n, p + k, s);
  }

  /** A negative code follows Python's floor remainder: -1 goes to the last shard. */
  lemma NegativeCodeWraps(n: nat)
    requires n > 0
    ensures GetShard(-1, n) == n - 1
  {
    GetShardUnique(-1, n, -1, n - 1);
  }
}
