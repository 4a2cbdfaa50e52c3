/**
 * The pair enumeration shared by both similarity builders
 * (`for i := 0; i < n; i++ { for j := i + 1; j < n; j++ { ... } }`): every pair of positions
 * `i < j` once, row by row.
 */
module Pairs {

  type Pair = (nat, nat)

  /** Row `i`: the pairs `(i, i + 1), ..., (i, n - 1)`. */
  function Row(n: nat, i: nat): (r: seq<Pair>)
    ensures |r| == if i < n then n - i - 1 else 0
    ensures forall m :: 0 <= m < |r| ==> r[m] == (i, i + 1 + m)
  {
    if i < n then seq(n - i - 1, m requires 0 <= m < n - i - 1 => (i, i + 1 + m)) else []
  }

  /** Rows `0, ..., i - 1`, in order: what the outer loop has produced before row `i`. */
  function PairsUpTo(n: nat, i: nat): seq<Pair>
  {
    if i == 0 then [] else PairsUpTo(n, i - 1) + Row(n, i - 1)
  }

  /** Every pair `i < j < n`, row-major. */
  function AllPairs(n: nat): seq<Pair>
  {
    PairsUpTo(n, n)
  }

  /** Where pair `(i, j)` sits in the enumeration. */
  function Position(n: nat, i: nat, j: nat): nat
    requires i < j
  {
    |PairsUpTo(n, i)| + (j - i - 1)
  }

  /** `(p, q)` comes strictly before `(p', q')` in row-major order. */
  predicate Before(a: Pair, b: Pair)
  {
    a.0 < b.0 || (a.0 == b.0 && a.1 < b.1)
  }

  /** The first `i` rows hold `i * (2n - i - 1) / 2` pairs. */
  lemma {:induction false} PairsUpToCount(n: nat, i: nat)
    requires i <= n
    ensures 2 * |PairsUpTo(n, i)| == i * (2 * n - i - 1)
  {
    if i > 0 {
      PairsUpToCount(n, i - 1);
      var k := i - 1;
      assert 2 * |PairsUpTo(n, i)| == k * (2 * n - k - 1) + 2 * (n - k - 1);
      assert i * (2 * n - i - 1) == k * (2 * n - k - 1) + 2 * (n - k - 1) by {
        assert i * (2 * n - i - 1) == (k + 1) * (2 * n - k - 2);
        assert (k + 1) * (2 * n - k - 2) == k * (2 * n - k - 2) + (2 * n - k - 2);
        assert k * (2 * n - k - 2) == k * (2 * n - k - 1) - k;
      }
    }
  }

  /** There are `n(n-1)/2` pairs, so none when `n <= 1`. */
  lemma {:induction false} AllPairsCount(n: nat)
    ensures 2 * |AllPairs(n)| == n * (n - 1)
    ensures n <= 1 ==> AllPairs(n) == []
  {
    PairsUpToCount(n, n);
  }

  /** Earlier rows are a prefix of later ones. */
  lemma {:induction false} PairsUpToPrefix(n: nat, i: nat, k: nat)
    requires i <= k
    ensures |PairsUpTo(n, i)| <= |PairsUpTo(n, k)|
    ensures PairsUpTo(n, k)[..|PairsUpTo(n, i)|] == PairsUpTo(n, i)
    decreases k
  {
    if i < k {
      PairsUpToPrefix(n, i, k - 1);
    }
  }

  /** Pair `(i, j)` is at `Position(n, i, j)`. */
  lemma {:induction false} AllPairsAt(n: nat, i: nat, j: nat)
    requires i < j < n
    ensures Position(n, i, j) < |AllPairs(n)|
    ensures AllPairs(n)[Position(n, i, j)] == (i, j)
  {
    UpToAt(n, i, j);
    PairsUpToPrefix(n, i + 1, n);
    PrefixAt(AllPairs(n), PairsUpTo(n, i + 1), Position(n, i, j));
  }

  /** What precedes pair `(i, j)` is exactly the earlier rows plus the start of row `i`. */
  lemma {:induction false} AllPairsBefore(n: nat, i: nat, j: nat)
    requires i < j < n
    ensures Position(n, i, j) < |AllPairs(n)|
    ensures AllPairs(n)[..Position(n, i, j)] == PairsUpTo(n, i) + Row(n, i)[..j - i - 1]
  {
    UpToAt(n, i, j);
    PairsUpToPrefix(n, i + 1, n);
    PrefixOfPrefix(AllPairs(n), PairsUpTo(n, i + 1), Position(n, i, j),
                   PairsUpTo(n, i) + Row(n, i)[..j - i - 1]);
  }

  /** A prefix of a prefix is a prefix of the whole. */
  lemma {:induction false} PrefixOfPrefix(whole: seq<Pair>, prefix: seq<Pair>, p: nat, start: seq<Pair>)
    requires |prefix| <= |whole| && whole[..|prefix|] == prefix
    requires p <= |prefix| && prefix[..p] == start
    ensures p <= |whole| && whole[..p] == start
  {
    assert whole[..|prefix|][..p] == whole[..p];
  }

  /** The same within the rows up to row `i`. */
  lemma {:induction false} UpToAt(n: nat, i: nat, j: nat)
    requires i < j < n
    ensures Position(n, i, j) < |PairsUpTo(n, i + 1)|
    ensures PairsUpTo(n, i + 1)[Position(n, i, j)] == (i, j)
    ensures PairsUpTo(n, i + 1)[..Position(n, i, j)] == PairsUpTo(n, i) + Row(n, i)[..j - i - 1]
  {
    RowAt(n, i, j);
    assert PairsUpTo(n, i + 1) == PairsUpTo(n, i) + Row(n, i);
    ConcatAt(PairsUpTo(n, i), Row(n, i), j - i - 1);
  }

  /** Pair `(i, j)` is entry `j - i - 1` of row `i`. */
  lemma {:induction false} RowAt(n: nat, i: nat, j: nat)
    requires i < j < n
    ensures j - i - 1 < |Row(n, i)| && Row(n, i)[j - i - 1] == (i, j)
  {
    var m: nat := j - i - 1;
    assert i + 1 + m == j;
    assert Row(n, i)[m] == (i, i + 1 + m);
  }

  /** Position `|a| + k` of `a + b` is position `k` of `b`. */
  lemma {:induction false} ConcatAt(a: seq<Pair>, b: seq<Pair>, k: nat)
    requires k < |b|
    ensures (a + b)[|a| + k] == b[k] && (a + b)[..|a| + k] == a + b[..k]
  {
  }

  /** Positions before the end of a prefix read the same in the whole sequence. */
  lemma {:induction false} PrefixAt(whole: seq<Pair>, prefix: seq<Pair>, p: nat)
    requires |prefix| <= |whole| && whole[..|prefix|] == prefix && p < |prefix|
    ensures whole[p] == prefix[p] && whole[..p] == prefix[..p]
  {
    assert whole[..|prefix|][p] == whole[p];
  }

  /** After the last pair of row `i`, the next pair is the first one of the next non-empty
      row: positions continue without a gap. */
  lemma {:induction false} PositionNextRow(n: nat, i: nat)
    requires i + 2 < n
    ensures Position(n, i + 1, i + 2) == Position(n, i, n - 1) + 1
  {
  }

  /** Every enumerated pair `(i, j)` has `i < j < n`. */
  lemma {:induction false} PairsUpToInRange(n: nat, i: nat)
    ensures forall m :: 0 <= m < |PairsUpTo(n, i)| ==>
      PairsUpTo(n, i)[m].0 < PairsUpTo(n, i)[m].1 < n && PairsUpTo(n, i)[m].0 < i
  {
    if i > 0 {
      PairsUpToInRange(n, i - 1);
      var prev, row := PairsUpTo(n, i - 1), Row(n, i - 1);
      assert forall m :: |prev| <= m < |prev| + |row| ==> PairsUpTo(n, i)[m] == row[m - |prev|];
    }
  }

  /** Every pair `i < j < n` is enumerated. */
  lemma {:induction false} AllPairsComplete(n: nat, i: nat, j: nat)
    requires i < j < n
    ensures (i, j) in AllPairs(n)
  {
    AllPairsAt(n, i, j);
  }

  /** The enumeration is strictly increasing in row-major order (so it has no repeats). */
  lemma {:induction false} PairsUpToSorted(n: nat, i: nat)
    ensures forall a, b :: 0 <= a < b < |PairsUpTo(n, i)| ==>
      Before(PairsUpTo(n, i)[a], PairsUpTo(n, i)[b])
  {
    if i > 0 {
      PairsUpToSorted(n, i - 1);
      PairsUpToInRange(n, i - 1);
      var prev, row := PairsUpTo(n, i - 1), Row(n, i - 1);
      var all := PairsUpTo(n, i);
      assert all == prev + row;
      forall a, b | 0 <= a < b < |all| ensures Before(all[a], all[b]) {
        if b < |prev| {
          assert all[a] == prev[a] && all[b] == prev[b];
        } else if a < |prev| {
          assert all[a] == prev[a] && all[b] == row[b - |prev|];
        } else {
          assert all[a] == row[a - |prev|] && all[b] == row[b - |prev|];
        }
      }
    }
  }

  /** The whole enumeration: in range, complete, row-major and without repeats. */
  lemma {:induction false} AllPairsEnumeration(n: nat)
    ensures forall m :: 0 <= m < |AllPairs(n)| ==> AllPairs(n)[m].0 < AllPairs(n)[m].1 < n
    ensures forall a, b :: 0 <= a < b < |AllPairs(n)| ==> Before(AllPairs(n)[a], AllPairs(n)[b])
    ensures forall i, j :: 0 <= i < j < n ==> (i, j) in AllPairs(n)
  {
    PairsUpToInRange(n, n);
    PairsUpToSorted(n, n);
    forall i, j | 0 <= i < j < n ensures (i, j) in AllPairs(n) {
      AllPairsComplete(n, i, j);
    }
  }
}
